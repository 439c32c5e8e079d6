/** What holds of the collector between two collections. */
module Invariant {
  import opened ObjectHeap
  import opened Layout
  import opened Marking
  import opened Spaces
  import opened BigSpace

  /** The bytes of a list of big objects, or 0 if one of them is missing. */
  function TotalSizeOf(bs: Bodies, bigs: seq<Addr>): nat
  {
    if forall k {:trigger bigs[k]} :: 0 <= k < |bigs| ==> bigs[k] in bs then TotalSize(bs, bigs) else 0
  }

  lemma {:induction false} TotalOfAll(bs: Bodies, bigs: seq<Addr>)
    requires BigAddrs(bigs) <= bs.Keys
    ensures TotalSizeOf(bs, bigs) == TotalSize(bs, bigs)
  {
    assert forall k {:trigger bigs[k]} :: 0 <= k < |bigs| ==> bigs[k] in BigAddrs(bigs);
  }

  // ----- The invariant ------------------------------------------------------

  /** The remembered objects of a chunk are objects of that chunk. */
  ghost predicate RememberedStored(c: OldChunk, lay: seq<Block>)
  {
    c.remembered.Offsets? ==>
      forall k {:trigger c.remembered.list[k]} ::
        0 <= k < |c.remembered.list| ==> Addr(c.id, c.remembered.list[k]) in AddrsOf(lay)
  }

  ghost predicate AllRememberedStored(olds: seq<OldChunk>, lays: seq<seq<Block>>)
  {
    |lays| == |olds| && forall i {:trigger lays[i]} :: 0 <= i < |olds| ==> RememberedStored(olds[i], lays[i])
  }

  ghost predicate ValidStorage(s: State)
  {
    Regions(s.working.id, s.free.id, s.olds, s.bigs, s.regions) &&
    WorkingStored(s.bodies, s.working, s.workLay) &&
    OldsStored(s.bodies, s.olds, s.oldLay) && Idle(s.olds) && AllRememberedStored(s.olds, s.oldLay) &&
    s.metas.Keys == s.bodies.Keys && s.bigAllocated == TotalSizeOf(s.bodies, s.bigs) &&
    s.bodies.Keys == AddrsOf(s.workLay) + OldAddrs(s.oldLay) + BigAddrs(s.bigs)
  }

  ghost predicate ValidFlags(s: State)
  {
    YoungFlags(s.metas, s.workLay) && AllOldFlags(s.metas, s.olds, s.oldLay) &&
    BigList(s.metas, s.bigFirst, s.bigs) && NoMarks(s.metas)
  }

  ghost predicate ValidGraph(s: State)
  {
    Closed(s.bodies) && ValuesIn(s.roots, s.bodies.Keys) && AllSized(s.bodies) &&
    ClassPrefix(s.bodies, s.oldLay, s.roots, s.classes)
  }

  ghost predicate Valid(s: State)
  {
    ValidStorage(s) && ValidFlags(s) && ValidGraph(s)
  }

  lemma ClassesAreRooted(s: State)
    requires ValidGraph(s)
    ensures ClassesRooted(s.bodies, s.roots)
  {
    forall a | a in s.bodies ensures ClassRooted(s.bodies[a], s.roots) {
      assert ClassInPrefix(s.bodies[a], s.oldLay[0], s.classes);
      var j :| 0 <= j < s.classes && j < |s.oldLay[0]| && s.oldLay[0][j].at == s.bodies[a].cls;
      assert s.roots[j] in s.roots;
    }
  }
}
