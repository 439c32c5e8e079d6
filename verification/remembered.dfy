/** Remembered objects: the old objects that the write barrier has recorded because they
    may refer to young ones. */
module RememberedObjects {
  import opened ObjectHeap
  import opened Layout
  import opened Marking
  import opened Spaces
  import opened BigSpace
  import opened Invariant

  /** The recorded objects of a chunk, by increasing offset. */
  function InChunk(c: OldChunk): seq<Addr>
  {
    match c.remembered
    case Absent => []
    case Offsets(list) => seq(|list|, k requires 0 <= k < |list| => Addr(c.id, list[k]))
  }

  function InOldSpace(olds: seq<OldChunk>): seq<Addr>
  {
    if olds == [] then [] else InOldSpace(olds[..|olds| - 1]) + InChunk(olds[|olds| - 1])
  }

  /** The big objects with the has-young bit, in list order. */
  function InBigSpace(ms: Metas, bigs: seq<Addr>): seq<Addr>
  {
    if bigs == [] then []
    else
      var rest := InBigSpace(ms, bigs[..|bigs| - 1]);
      var a := bigs[|bigs| - 1];
      if a in ms && ms[a].tag then rest + [a] else rest
  }

  /** All remembered objects in the order in which a collection visits them. */
  function RememberedList(s: State): seq<Addr>
  {
    InOldSpace(s.olds) + InBigSpace(s.metas, s.bigs)
  }

  /** The number of chunks with a remembered set. */
  function Present(olds: seq<OldChunk>): nat
  {
    if olds == [] then 0 else Present(olds[..|olds| - 1]) + (if olds[|olds| - 1].remembered.Offsets? then 1 else 0)
  }

  // ----- Members ------------------------------------------------------------

  ghost predicate ListIn(xs: seq<Addr>, t: set<Addr>)
  {
    forall x {:trigger x in xs} :: x in xs ==> x in t
  }

  lemma ListInPart(xs: seq<Addr>, ys: seq<Addr>, zs: seq<Addr>, t: set<Addr>)
    requires ListIn(zs, t) && forall x :: x in xs + ys ==> x in zs
    ensures ListIn(xs, t) && ListIn(ys, t) && ListIn(xs + ys, t)
  {
    forall x | x in xs + ys ensures x in t { assert x in zs; }
    forall x | x in xs ensures x in t { assert x in xs + ys; }
    forall x | x in ys ensures x in t { assert x in xs + ys; }
  }

  lemma NoneOfList(olds: seq<OldChunk>)
    ensures InOldSpace(olds[..0]) == [] && Present(olds[..0]) == 0
  {
  }

  lemma NoneInChunk(c: OldChunk)
    requires !c.remembered.Offsets?
    ensures InChunk(c) == []
  {
  }

  lemma {:induction false} NextChunkList(olds: seq<OldChunk>, i: nat)
    requires i < |olds|
    ensures InOldSpace(olds[..i + 1]) == InOldSpace(olds[..i]) + InChunk(olds[i])
    ensures Present(olds[..i + 1]) == Present(olds[..i]) + (if olds[i].remembered.Offsets? then 1 else 0)
    ensures forall x :: x in InOldSpace(olds[..i + 1]) ==> x in InOldSpace(olds)
  {
    assert olds[..i + 1][..i] == olds[..i];
    PrefixOfList(olds, i + 1);
  }

  lemma {:induction false} PrefixOfList(olds: seq<OldChunk>, i: nat)
    requires i <= |olds|
    ensures forall x :: x in InOldSpace(olds[..i]) ==> x in InOldSpace(olds)
    ensures Present(olds[..i]) <= Present(olds)
    ensures Present(olds[..i]) == Present(olds) ==> InOldSpace(olds[..i]) == InOldSpace(olds)
    ensures Present(olds[..i]) == Present(olds) ==> forall k :: i <= k < |olds| ==> olds[k].remembered == Absent
  {
    if i == |olds| {
      assert olds[..i] == olds;
    } else {
      var n := |olds| - 1;
      PrefixOfList(olds[..n], i);
      assert olds[..n][..i] == olds[..i];
      if Present(olds[..i]) == Present(olds) {
        forall k | i <= k < |olds| ensures olds[k].remembered == Absent {
          if k < n { assert olds[..n][k] == olds[k]; }
        }
      }
    }
  }

  lemma {:induction false} PrefixOfBigs(ms: Metas, bigs: seq<Addr>, i: nat)
    requires i <= |bigs|
    ensures |InBigSpace(ms, bigs[..i])| <= |InBigSpace(ms, bigs)|
    ensures |InBigSpace(ms, bigs[..i])| == |InBigSpace(ms, bigs)| ==>
      InBigSpace(ms, bigs[..i]) == InBigSpace(ms, bigs) && forall k ::
        i <= k < |bigs| ==> bigs[k] in ms ==> !ms[bigs[k]].tag
  {
    if i == |bigs| {
      assert bigs[..i] == bigs;
    } else {
      var n := |bigs| - 1;
      PrefixOfBigs(ms, bigs[..n], i);
      assert bigs[..n][..i] == bigs[..i];
      if |InBigSpace(ms, bigs[..i])| == |InBigSpace(ms, bigs)| {
        forall k | i <= k < |bigs| && bigs[k] in ms ensures !ms[bigs[k]].tag {
          if k < n { assert bigs[..n][k] == bigs[k]; }
        }
      }
    }
  }

  lemma ChunkListStored(c: OldChunk, lay: seq<Block>)
    requires RememberedStored(c, lay)
    ensures ListIn(InChunk(c), AddrsOf(lay))
  {
    forall x | x in InChunk(c) ensures x in AddrsOf(lay) {
      var k :| 0 <= k < |InChunk(c)| && InChunk(c)[k] == x;
      assert c.remembered.list[k] == c.remembered.list[k];
    }
  }

  lemma {:induction false} OldListStored(olds: seq<OldChunk>, lays: seq<seq<Block>>)
    requires AllRememberedStored(olds, lays)
    ensures ListIn(InOldSpace(olds), OldAddrs(lays))
  {
    if olds == [] {
    } else {
      var n := |olds| - 1;
      assert RememberedStored(olds[n], lays[n]);
      forall i | 0 <= i < n ensures RememberedStored(olds[..n][i], lays[..n][i]) {
        assert RememberedStored(olds[i], lays[i]);
      }
      OldListStored(olds[..n], lays[..n]);
      ChunkListStored(olds[n], lays[n]);
      ScanChunk(lays, n);
      assert lays[..n + 1] == lays;
    }
  }

  lemma {:induction false} BigListMembers(ms: Metas, bigs: seq<Addr>, a: Addr)
    ensures a in InBigSpace(ms, bigs) <==> a in BigAddrs(bigs) && a in ms && ms[a].tag
  {
    if bigs != [] {
      var n := |bigs| - 1;
      BigListMembers(ms, bigs[..n], a);
      assert bigs == bigs[..n] + [bigs[n]];
      BigAddrsAppend(bigs[..n], bigs[n], a);
    }
  }

  lemma {:induction false} OldListMembers(olds: seq<OldChunk>, a: Addr)
    ensures a in InOldSpace(olds) <==> exists i :: 0 <= i < |olds| && a in InChunk(olds[i])
  {
    hide InChunk;
    if olds != [] {
      var n := |olds| - 1;
      OldListMembers(olds[..n], a);
      if a in InOldSpace(olds[..n]) {
        var i :| 0 <= i < n && a in InChunk(olds[..n][i]);
        assert a in InChunk(olds[i]);
      }
      if i :| 0 <= i < |olds| && a in InChunk(olds[i]) {
        if i < n { assert olds[..n][i] == olds[i]; }
      }
    }
  }

  lemma ChunkListMembers(c: OldChunk, off: nat)
    ensures Addr(c.id, off) in InChunk(c) <==> c.remembered.Offsets? && off in c.remembered.list
  {
    if c.remembered.Offsets? && off in c.remembered.list {
      var k :| 0 <= k < |c.remembered.list| && c.remembered.list[k] == off;
      assert InChunk(c)[k] == Addr(c.id, off);
    }
  }

  lemma RememberedIsOld(s: State)
    requires Valid(s)
    ensures ListIn(RememberedList(s), OldSet(s.metas)) && OldSet(s.metas) == OldAddrs(s.oldLay) + BigAddrs(s.bigs)
  {
    OldListStored(s.olds, s.oldLay);
    OldObjects(s);
    forall x | x in RememberedList(s) ensures x in OldSet(s.metas) {
      BigListMembers(s.metas, s.bigs, x);
    }
  }

  /** The old objects are those of old space and big space. */
  lemma OldObjects(s: State)
    requires Valid(s)
    ensures OldSet(s.metas) == OldAddrs(s.oldLay) + BigAddrs(s.bigs) && OldSet(s.metas) !! AddrsOf(s.workLay)
  {
    hide Regions, WorkingStored, OldsStored, ValidGraph, NoMarks;
    forall a | a in AddrsOf(s.workLay) ensures a !in OldSet(s.metas) {
      var j :| 0 <= j < |s.workLay| && s.workLay[j].at == a;
    }
    forall a | a in OldAddrs(s.oldLay) ensures a in OldSet(s.metas) {
      var i, j :| 0 <= i < |s.oldLay| && 0 <= j < |s.oldLay[i]| && s.oldLay[i][j].at == a;
      assert OldFlags(s.metas, s.olds[i].id, s.oldLay[i]);
    }
    forall a | a in BigAddrs(s.bigs) ensures a in OldSet(s.metas) {
      var k :| 0 <= k < |s.bigs| && s.bigs[k] == a;
    }
  }

  // ----- The generational invariant -----------------------------------------

  /** Every reference of `b` to a young object is of a remembered one. */
  ghost predicate NoYoung(ms: Metas, b: Body)
  {
    forall v :: v in b.fields && v.Ref? && v.at in ms ==> ms[v.at].gen.Old?
  }

  /** Every old object that refers to a young one is remembered. */
  ghost predicate Generational(s: State)
  {
    forall a {:trigger NoYoung(s.metas, s.bodies[a])} ::
      a in s.bodies && a in OldSet(s.metas) && a !in RememberedList(s) ==>
      NoYoung(s.metas, s.bodies[a])
  }
}
