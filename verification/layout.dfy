/** Where objects lie: blocks tiling the allocated part of a chunk, and writing objects
    over memory that may still hold others. */
module Layout {
  import opened ObjectHeap

  const META_SIZE: nat := 16                       // the chunk meta at the start of an old chunk
  const NEW_END: nat := 512 * 1024 - 24            // usable bytes of a new space chunk
  const OLD_END: nat := 256 * 1024 - 24            // usable bytes of an old space chunk
  const MAX_SMALL: nat := 8 * 1024                 // larger objects go to big space

  /** The storage of one object. */
  datatype Block = Block(at: Addr, size: nat)

  function End(b: Block): nat { b.at.off + b.size }

  /** An order to instantiate `Tiled` with. */
  predicate Before(j: int, k: int) { j < k }

  /** The blocks lie in chunk `id` one after the other, without gaps, from `start` on. */
  ghost predicate Tiled(id: nat, start: nat, lay: seq<Block>)
  {
    (forall j {:trigger lay[j]} :: 0 <= j < |lay| ==>
      lay[j].at.chunk == id && lay[j].size >= HEAD_SIZE && start <= lay[j].at.off) &&
    (lay != [] ==> lay[0].at.off == start) &&
    (forall j, k {:trigger Before(j, k)} :: 0 <= j && Before(j, k) && k < |lay| ==>
      End(lay[j]) <= lay[k].at.off && (k == j + 1 ==> End(lay[j]) == lay[k].at.off))
  }

  /** Where the next block goes. */
  function Top(start: nat, lay: seq<Block>): nat
  {
    if lay == [] then start else End(lay[|lay| - 1])
  }

  lemma TiledAppend(id: nat, start: nat, lay: seq<Block>, size: nat)
    requires Tiled(id, start, lay) && size >= HEAD_SIZE
    ensures
      var lay' := lay + [Block(Addr(id, Top(start, lay)), size)];
      Tiled(id, start, lay') && Top(start, lay') == Top(start, lay) + size
  {
    var n := |lay|;
    var lay' := lay + [Block(Addr(id, Top(start, lay)), size)];
    forall j, k | 0 <= j && Before(j, k) && k < |lay'|
      ensures End(lay'[j]) <= lay'[k].at.off && (k == j + 1 ==> End(lay'[j]) == lay'[k].at.off)
    {
      if k == n && j < n - 1 { assert Before(j, n - 1); }
    }
  }

  lemma TopAbove(id: nat, start: nat, lay: seq<Block>, j: nat)
    requires Tiled(id, start, lay) && j < |lay|
    ensures End(lay[j]) <= Top(start, lay)
  {
    if j < |lay| - 1 { assert Before(j, |lay| - 1); }
  }

  /** Two pieces of storage share a byte. */
  predicate Overlap(a: Addr, n: nat, b: Addr, m: nat)
  {
    a.chunk == b.chunk && a.off < b.off + m && b.off < a.off + n
  }

  lemma TiledDisjoint(id: nat, start: nat, lay: seq<Block>, j: nat, k: nat)
    requires Tiled(id, start, lay) && j < |lay| && k < |lay| && j != k
    ensures !Overlap(lay[j].at, lay[j].size, lay[k].at, lay[k].size)
    ensures lay[j].at != lay[k].at
  {
    assert if j < k then Before(j, k) else Before(k, j);
  }

  /** The blocks are the storage of objects of exactly that size. */
  ghost predicate Occupied(bs: Bodies, lay: seq<Block>)
  {
    forall j {:trigger lay[j]} :: 0 <= j < |lay| ==> lay[j].at in bs && Size(bs[lay[j].at]) == lay[j].size
  }

  /** The addresses of the blocks. */
  function AddrsOf(lay: seq<Block>): set<Addr>
  {
    set j | 0 <= j < |lay| :: lay[j].at
  }

  lemma AddrsNone()
    ensures AddrsOf([]) == {}
  {
  }

  lemma AddrsAppend(lay: seq<Block>, b: Block)
    ensures AddrsOf(lay + [b]) == AddrsOf(lay) + {b.at}
  {
    var lay' := lay + [b];
    assert lay'[|lay|] == b;
    forall a | a in AddrsOf(lay) + {b.at} ensures a in AddrsOf(lay') {
      if a != b.at {
        var j :| 0 <= j < |lay| && lay[j].at == a;
        assert lay'[j].at == a;
      }
    }
  }

  /** The objects that storing `n` bytes at `a` destroys. */
  function Clobbered(bs: Bodies, a: Addr, n: nat): set<Addr>
  {
    set x | x in bs && Overlap(x, Size(bs[x]), a, n)
  }

  /** The memory after an object has been stored: what it overlaps is gone. */
  function PutBody(bs: Bodies, a: Addr, b: Body): (r: Bodies)
  {
    (bs - Clobbered(bs, a, Size(b)))[a := b]
  }

  function PutMeta(ms: Metas, bs: Bodies, a: Addr, m: Meta, n: nat): (r: Metas)
  {
    (ms - Clobbered(bs, a, n))[a := m]
  }
}
