/** The three spaces of the collector and what holds of them between collections. */
module Spaces {
  import opened ObjectHeap
  import opened Layout

  /** A new space chunk; `top` is its free pointer. */
  datatype Chunk = Chunk(id: nat, top: nat)

  /** The remembered set of an old chunk: absent, or the recorded offsets in order. */
  datatype Remembered = Absent | Offsets(list: seq<nat>)

  /** An old space chunk with its meta. */
  datatype OldChunk = OldChunk(id: nat, top: nat, visited: nat, remembered: Remembered)

  /** A position in old space; index -1 is the empty chunk that heads the chunk list. */
  datatype Iterator = Iterator(index: int, point: nat)

  /** Everything the collector knows, with the layout of the chunks (`workLay`, `oldLay`),
      the order of the big space list (`bigs`) and the number of class objects. */
  datatype State = State(
    metas: Metas, bodies: Bodies,
    working: Chunk, free: Chunk, olds: seq<OldChunk>,
    bigFirst: Addr, bigAllocated: nat,
    roots: seq<Value>, regions: nat,
    workLay: seq<Block>, oldLay: seq<seq<Block>>, bigs: seq<Addr>, classes: nat)

  function OldAddrs(lays: seq<seq<Block>>): set<Addr>
  {
    set i, j | 0 <= i < |lays| && 0 <= j < |lays[i]| :: lays[i][j].at
  }

  function BigAddrs(bigs: seq<Addr>): set<Addr>
  {
    set k | 0 <= k < |bigs| :: bigs[k]
  }

  // ----- Regions ------------------------------------------------------------

  /** Chunks and big objects are different regions. */
  ghost predicate Regions(working: nat, free: nat, olds: seq<OldChunk>, bigs: seq<Addr>, regions: nat)
  {
    0 < working <= regions && 0 < free <= regions && working != free &&
    (forall i {:trigger olds[i]} :: 0 <= i < |olds| ==>
      0 < olds[i].id <= regions && olds[i].id != working && olds[i].id != free) &&
    (forall i, j {:trigger Before(i, j)} :: 0 <= i && Before(i, j) && j < |olds| ==> olds[i].id != olds[j].id) &&
    (forall k {:trigger bigs[k]} :: 0 <= k < |bigs| ==>
      0 < bigs[k].chunk <= regions && bigs[k].chunk != working && bigs[k].chunk != free) &&
    (forall i, k {:trigger olds[i], bigs[k]} :: 0 <= i < |olds| && 0 <= k < |bigs| ==> olds[i].id != bigs[k].chunk) &&
    (forall j, k {:trigger Before(j, k)} :: 0 <= j && Before(j, k) && k < |bigs| ==> bigs[j].chunk != bigs[k].chunk)
  }

  // ----- Storage ------------------------------------------------------------

  ghost predicate SmallBlocks(lay: seq<Block>)
  {
    forall j {:trigger lay[j]} :: 0 <= j < |lay| ==> lay[j].size <= MAX_SMALL
  }

  /** The allocated part of a chunk: small objects, one after the other. */
  ghost predicate Stored(bs: Bodies, id: nat, start: nat, top: nat, end: nat, lay: seq<Block>)
  {
    Tiled(id, start, lay) && SmallBlocks(lay) && Occupied(bs, lay) && top == Top(start, lay) < end
  }

  ghost predicate WorkingStored(bs: Bodies, c: Chunk, lay: seq<Block>)
  {
    Stored(bs, c.id, 0, c.top, NEW_END, lay)
  }

  ghost predicate OldsStored(bs: Bodies, olds: seq<OldChunk>, lays: seq<seq<Block>>)
  {
    |lays| == |olds| &&
    forall i {:trigger lays[i]} :: 0 <= i < |olds| ==> Stored(bs, olds[i].id, META_SIZE, olds[i].top, OLD_END, lays[i])
  }

  /** No collection is running: the iterators have left no trace. */
  ghost predicate Idle(olds: seq<OldChunk>)
  {
    forall i {:trigger olds[i]} :: 0 <= i < |olds| ==> olds[i].visited == 0
  }

  // ----- Walking through a chunk --------------------------------------------

  /** The offset of block number `j`, or of the end of the allocated part. */
  function OffsetAt(start: nat, lay: seq<Block>, j: nat): nat
    requires j <= |lay|
  {
    if j < |lay| then lay[j].at.off else Top(start, lay)
  }

  lemma OffsetNext(id: nat, start: nat, lay: seq<Block>, j: nat)
    requires Tiled(id, start, lay) && j < |lay|
    ensures OffsetAt(start, lay, 0) == start
    ensures OffsetAt(start, lay, j + 1) == OffsetAt(start, lay, j) + lay[j].size
    ensures OffsetAt(start, lay, j) < End(lay[j]) <= Top(start, lay)
    ensures lay[j].at == Addr(id, OffsetAt(start, lay, j))
  {
    TopAbove(id, start, lay, j);
    assert j + 1 < |lay| ==> Before(j, j + 1);
  }

  lemma OffsetInside(id: nat, start: nat, lay: seq<Block>, j: nat)
    requires Tiled(id, start, lay) && j <= |lay|
    ensures OffsetAt(start, lay, j) < Top(start, lay) <==> j < |lay|
    ensures OffsetAt(start, lay, 0) == start
  {
    if j < |lay| { OffsetNext(id, start, lay, j); }
  }

  // ----- Sets of scanned objects --------------------------------------------

  lemma ScanBlock(lays: seq<seq<Block>>, i: nat, j: nat)
    requires i < |lays| && j < |lays[i]|
    ensures OldAddrs(lays[..i]) + AddrsOf(lays[i][..j + 1]) == OldAddrs(lays[..i]) + AddrsOf(lays[i][..j]) +
      {lays[i][j].at}
  {
    assert lays[i][..j + 1] == lays[i][..j] + [lays[i][j]];
    AddrsAppend(lays[i][..j], lays[i][j]);
  }

  lemma ScanChunk(lays: seq<seq<Block>>, i: nat)
    requires i < |lays|
    ensures OldAddrs(lays[..i + 1]) == OldAddrs(lays[..i]) + AddrsOf(lays[i])
    ensures OldAddrs(lays[..0]) == {}
  {
    var all := lays[..i + 1];
    forall x | x in OldAddrs(lays[..i]) + AddrsOf(lays[i]) ensures x in OldAddrs(all) {
      if x in OldAddrs(lays[..i]) {
        var k, j :| 0 <= k < i && 0 <= j < |lays[..i][k]| && lays[..i][k][j].at == x;
        assert all[k][j].at == x;
      } else {
        var j :| 0 <= j < |lays[i]| && lays[i][j].at == x;
        assert all[i][j].at == x;
      }
    }
    forall x | x in OldAddrs(all) ensures x in OldAddrs(lays[..i]) + AddrsOf(lays[i]) {
      var k, j :| 0 <= k < |all| && 0 <= j < |all[k]| && all[k][j].at == x;
      if k < i { assert lays[..i][k][j].at == x; } else { assert lays[i][j].at == x; }
    }
  }

  /** Old chunks are walked through in this order, and no object comes twice. */
  ghost predicate ChunksTiled(ids: seq<nat>, rank: map<nat, nat>, lays: seq<seq<Block>>)
  {
    |lays| <= |ids| && Ranked(ids, rank) &&
    forall i {:trigger lays[i]} :: 0 <= i < |lays| ==> Tiled(ids[i], META_SIZE, lays[i])
  }

  /** `rank` gives the place of each old chunk in the chunk list. */
  ghost predicate Ranked(ids: seq<nat>, rank: map<nat, nat>)
  {
    (forall i {:trigger ids[i]} :: 0 <= i < |ids| ==> ids[i] in rank && rank[ids[i]] == i) &&
    (forall c {:trigger c in rank} :: c in rank ==> rank[c] < |ids| && ids[rank[c]] == c)
  }

  lemma BlockFacts(ids: seq<nat>, rank: map<nat, nat>, lays: seq<seq<Block>>, i: nat, j: nat)
    requires ChunksTiled(ids, rank, lays) && i < |lays| && j < |lays[i]|
    ensures Ranked(ids, rank) && lays[i][j].at.chunk == ids[i] && META_SIZE <= lays[i][j].at.off &&
      HEAD_SIZE <= lays[i][j].size
    ensures j == 0 ==> lays[i][j].at.off == META_SIZE
  {
    assert Tiled(ids[i], META_SIZE, lays[i]);
  }

  lemma NotYetScanned(ids: seq<nat>, rank: map<nat, nat>, lays: seq<seq<Block>>, i: nat, j: nat)
    requires ChunksTiled(ids, rank, lays) && i < |lays| && j < |lays[i]|
    ensures lays[i][j].at !in OldAddrs(lays[..i]) + AddrsOf(lays[i][..j])
  {
    var a := lays[i][j].at;
    assert Tiled(ids[i], META_SIZE, lays[i]);
    assert rank[ids[i]] == i;
    forall x | x in OldAddrs(lays[..i]) ensures x != a {
      var k, m :| 0 <= k < i && 0 <= m < |lays[..i][k]| && lays[..i][k][m].at == x;
      assert Tiled(ids[k], META_SIZE, lays[k]) && lays[k][m].at == x && rank[ids[k]] == k;
    }
    forall x | x in AddrsOf(lays[i][..j]) ensures x != a {
      var m :| 0 <= m < j && lays[i][..j][m].at == x;
      TiledDisjoint(ids[i], META_SIZE, lays[i], m, j);
    }
  }

  // ----- Flags --------------------------------------------------------------

  ghost predicate YoungFlags(ms: Metas, lay: seq<Block>)
  {
    forall j {:trigger lay[j]} :: 0 <= j < |lay| ==>
      lay[j].at in ms && ms[lay[j].at].gen.Young? && !ms[lay[j].at].mrk
  }

  ghost predicate OldFlags(ms: Metas, id: nat, lay: seq<Block>)
  {
    forall j {:trigger lay[j]} :: 0 <= j < |lay| ==>
      lay[j].at in ms && ms[lay[j].at] == Meta(Old, false, false, Addr(id, 0), false)
  }

  ghost predicate AllOldFlags(ms: Metas, olds: seq<OldChunk>, lays: seq<seq<Block>>)
  {
    |lays| == |olds| &&
    forall i {:trigger lays[i]} :: 0 <= i < |olds| ==> OldFlags(ms, olds[i].id, lays[i])
  }

  /** Big objects are a list, linked through the PTR word. */
  ghost predicate BigList(ms: Metas, first: Addr, bigs: seq<Addr>)
  {
    first == (if bigs == [] then NULL else bigs[0]) &&
    forall k {:trigger bigs[k]} :: 0 <= k < |bigs| ==>
      bigs[k] in ms && bigs[k] != NULL && ms[bigs[k]].gen.Old? && ms[bigs[k]].mid &&
      ms[bigs[k]].ptr == NextBig(bigs, k)
  }

  function NextBig(bigs: seq<Addr>, k: int): Addr
    requires 0 <= k < |bigs|
  {
    if k + 1 < |bigs| then bigs[k + 1] else NULL
  }

  // ----- Classes ------------------------------------------------------------

  /** Every object has a class object that describes its size. */
  ghost predicate AllSized(bs: Bodies)
  {
    forall a {:trigger Sized(bs, a)} :: a in bs ==> Sized(bs, a)
  }

  /** `a` is one of the first `n` blocks. */
  predicate InPrefix(lay: seq<Block>, n: nat, a: Addr)
  {
    exists j :: 0 <= j < n && j < |lay| && lay[j].at == a
  }

  ghost predicate ClassInPrefix(b: Body, lay: seq<Block>, n: nat)
  {
    InPrefix(lay, n, b.cls)
  }

  /** The class objects are the first objects of old space, and all of them are roots. */
  ghost predicate ClassPrefix(bs: Bodies, lays: seq<seq<Block>>, roots: seq<Value>, n: nat)
  {
    |lays| > 0 && 0 < n <= |lays[0]| && n <= |roots| &&
    (forall j {:trigger lays[0][j]} :: 0 <= j < n ==> roots[j] == Ref(lays[0][j].at)) &&
    (forall a {:trigger ClassInPrefix(bs[a], lays[0], n)} :: a in bs ==> ClassInPrefix(bs[a], lays[0], n))
  }
}
