/** Why a full collection preserves the heap: the facts that link its phases. */
module FullCollection {
  import opened ObjectHeap
  import opened Layout
  import opened Marking
  import opened Spaces
  import opened BigSpace
  import opened Relocation
  import opened Updating
  import opened Moving
  import opened Invariant

  function SmallAddrs(s: State): set<Addr>
  {
    AddrsOf(s.workLay) + OldAddrs(s.oldLay)
  }

  // ----- Ranks --------------------------------------------------------------

  /** The numbers of the old chunks, by region. */
  lemma MakeRank(working: nat, free: nat, olds: seq<OldChunk>, bigs: seq<Addr>, regions: nat)
      returns (ids: seq<nat>, rank: map<nat, nat>)
    requires Regions(working, free, olds, bigs, regions)
    ensures IdsOf(olds, ids) && Ranked(ids, rank) && RankBelow(rank, regions)
    ensures 0 !in rank && working !in rank && free !in rank && forall k {:trigger bigs[k]} ::
      0 <= k < |bigs| ==> bigs[k].chunk !in rank
  {
    ids, rank := [], map[];
    var i := 0;
    while i < |olds|
      invariant 0 <= i <= |olds| && |ids| == i
      invariant forall k {:trigger ids[k]} {:trigger olds[k]} ::
        0 <= k < i ==> ids[k] == olds[k].id && ids[k] in rank && rank[ids[k]] == k
      invariant forall c {:trigger c in rank} :: c in rank ==> rank[c] < i && ids[rank[c]] == c
    {
      assert olds[i].id !in rank by {
        forall c | c in rank ensures c != olds[i].id { assert Before(rank[c], i); }
      }
      rank := rank[olds[i].id := i];
      ids := ids + [olds[i].id];
      i := i + 1;
    }
    forall c | c in rank ensures 0 < c <= regions && c != working && c != free && forall k ::
      0 <= k < |bigs| ==> bigs[k].chunk != c {
      assert olds[rank[c]].id == c;
    }
  }

  // ----- After marking ------------------------------------------------------

  /** The marks of a full collection are on exactly the reachable objects. */
  ghost predicate FullyMarked(s: State, ms1: Metas)
  {
    OnlyMarks(s.metas, ms1) && ReachableSet(s.bodies, s.roots, MarkedSet(ms1))
  }

  lemma MarkingDone(s: State, ms1: Metas)
    requires Valid(s) && ms1 == VisitAll(s.metas, s.bodies, s.roots, Rec)
    ensures FullyMarked(s, ms1)
  {
    ClassesAreRooted(s);
    FullMarkIsReachable(s.metas, s.bodies, s.roots);
    VisitOnlyMarks(s.metas, s.bodies, s.roots, Rec);
  }

  /** Small objects are not big ones. */
  lemma SmallNotBig(s: State)
    requires ValidStorage(s)
    ensures SmallAddrs(s) !! BigAddrs(s.bigs) && AddrsOf(s.workLay) !! OldAddrs(s.oldLay)
  {
    forall a | a in AddrsOf(s.workLay) ensures a.chunk == s.working.id {
      var j :| 0 <= j < |s.workLay| && s.workLay[j].at == a;
    }
    forall a | a in OldAddrs(s.oldLay) ensures a.chunk != s.working.id && a !in BigAddrs(s.bigs) {
      var i, j :| 0 <= i < |s.oldLay| && 0 <= j < |s.oldLay[i]| && s.oldLay[i][j].at == a;
      assert Stored(s.bodies, s.olds[i].id, META_SIZE, s.olds[i].top, OLD_END, s.oldLay[i]);
      assert a.chunk == s.olds[i].id;
    }
  }

  lemma SweepReady(s: State, ms1: Metas)
    requires Valid(s) && FullyMarked(s, ms1)
    ensures ms1.Keys == s.bodies.Keys && BigList(ms1, s.bigFirst, s.bigs) && DistinctRegions(s.bigs)
    ensures forall k {:trigger s.bigs[k]} :: 0 <= k < |s.bigs| ==> BigSized(s.bodies, s.bigs, s.bigs[k])
    ensures s.bigAllocated == TotalSize(s.bodies, s.bigs) && BigAddrs(s.bigs) <= ms1.Keys
  {
    SmallNotBig(s);
    forall k | 0 <= k < |s.bigs| ensures BigSized(s.bodies, s.bigs, s.bigs[k]) {
      var a := s.bigs[k];
      assert a in BigAddrs(s.bigs);
      assert Sized(s.bodies, a);
      ClassIsOld(s, a);
    }
    forall k | 0 <= k < |s.bigs|
      ensures s.bigs[k] in ms1 && ms1[s.bigs[k]].gen.Old? && ms1[s.bigs[k]].mid &&
        ms1[s.bigs[k]].ptr == NextBig(s.bigs, k)
    {
      assert MarkedFrom(s.metas[s.bigs[k]], ms1[s.bigs[k]]);
    }
  }

  lemma ClassIsOld(s: State, a: Addr)
    requires ValidGraph(s) && a in s.bodies
    ensures s.bodies[a].cls in OldAddrs(s.oldLay)
    ensures exists j :: 0 <= j < s.classes && s.oldLay[0][j].at == s.bodies[a].cls
  {
    assert ClassInPrefix(s.bodies[a], s.oldLay[0], s.classes);
    var j :| 0 <= j < s.classes && j < |s.oldLay[0]| && s.oldLay[0][j].at == s.bodies[a].cls;
    assert s.oldLay[0][j].at in OldAddrs(s.oldLay);
  }

  // ----- After the sweep of big space ---------------------------------------

  /** Small objects are as they were, and of the big ones the marked ones are left. */
  ghost predicate Swept1(s: State, ms1: Metas, ms2: Metas, bs2: Bodies, first2: Addr, bigs2: seq<Addr>)
  {
    ms1.Keys == s.bodies.Keys && BigAddrs(s.bigs) <= ms1.Keys && Sweep(ms1, s.bodies, s.bigs, ms2, bs2, first2, bigs2)
  }

  lemma SweepLeaves(s: State, ms1: Metas, ms2: Metas, bs2: Bodies, first2: Addr, bigs2: seq<Addr>)
    requires ValidStorage(s) && Swept1(s, ms1, ms2, bs2, first2, bigs2)
    ensures ms2.Keys == bs2.Keys == SmallAddrs(s) + BigAddrs(bigs2) && BigAddrs(bigs2) <= BigAddrs(s.bigs)
    ensures forall a {:trigger bs2[a]} :: a in bs2 ==> a in s.bodies && bs2[a] == s.bodies[a]
    ensures forall a {:trigger ms2[a]} :: a in SmallAddrs(s) ==> a in ms1 && a in ms2 && ms2[a] == ms1[a]
    ensures forall a :: a in BigAddrs(bigs2) <==> a in BigAddrs(s.bigs) && ms1[a].mrk
  {
    SmallNotBig(s);
    forall a ensures a in BigAddrs(bigs2) <==> a in BigAddrs(s.bigs) && ms1[a].mrk {
      KeptMembers(ms1, s.bigs, a);
    }
  }

  lemma StillStored(bs: Bodies, bs2: Bodies, id: nat, start: nat, top: nat, end: nat, lay: seq<Block>)
    requires Stored(bs, id, start, top, end, lay)
    requires forall j {:trigger lay[j]} ::
      0 <= j < |lay| ==> lay[j].at in bs2 && lay[j].at in bs && Size(bs2[lay[j].at]) == Size(bs[lay[j].at])
    ensures Stored(bs2, id, start, top, end, lay)
  {
  }

  lemma StoredAfterSweep(s: State, ms1: Metas, ms2: Metas, bs2: Bodies, first2: Addr, bigs2: seq<Addr>)
    requires ValidStorage(s) && Swept1(s, ms1, ms2, bs2, first2, bigs2)
    ensures WorkingStored(bs2, s.working, s.workLay) && OldsStored(bs2, s.olds, s.oldLay)
  {
    hide Sweep, Tiled, Regions;
    SweepLeaves(s, ms1, ms2, bs2, first2, bigs2);
    forall j | 0 <= j < |s.workLay| ensures s.workLay[j].at in SmallAddrs(s) {
    }
    StillStored(s.bodies, bs2, s.working.id, 0, s.working.top, NEW_END, s.workLay);
    forall i | 0 <= i < |s.olds| ensures Stored(bs2, s.olds[i].id, META_SIZE, s.olds[i].top, OLD_END, s.oldLay[i]) {
      assert Stored(s.bodies, s.olds[i].id, META_SIZE, s.olds[i].top, OLD_END, s.oldLay[i]);
      forall j | 0 <= j < |s.oldLay[i]| ensures s.oldLay[i][j].at in SmallAddrs(s) {
        assert s.oldLay[i][j].at in OldAddrs(s.oldLay);
      }
      StillStored(s.bodies, bs2, s.olds[i].id, META_SIZE, s.olds[i].top, OLD_END, s.oldLay[i]);
    }
  }

  lemma SizedAfterSweep(s: State, ms1: Metas, ms2: Metas, bs2: Bodies, first2: Addr, bigs2: seq<Addr>)
    requires Valid(s) && Swept1(s, ms1, ms2, bs2, first2, bigs2)
    ensures AllSized(bs2)
  {
    hide Sweep;
    SweepLeaves(s, ms1, ms2, bs2, first2, bigs2);
    forall a | a in bs2 ensures Sized(bs2, a) {
      assert Sized(s.bodies, a);
      ClassIsOld(s, a);
      assert bs2[a].cls in SmallAddrs(s);
    }
  }

  lemma ClassesMarked(s: State, ms1: Metas, ms2: Metas, bs2: Bodies, first2: Addr, bigs2: seq<Addr>)
    requires Valid(s) && FullyMarked(s, ms1) && Swept1(s, ms1, ms2, bs2, first2, bigs2)
    ensures AllMarked(ms2, s.oldLay[0], s.classes)
  {
    hide Sweep, Sized;
    SweepLeaves(s, ms1, ms2, bs2, first2, bigs2);
    forall j | 0 <= j < s.classes ensures s.oldLay[0][j].at in ms2 && ms2[s.oldLay[0][j].at].mrk {
      var c := s.oldLay[0][j].at;
      assert s.roots[j] == Ref(c) && s.roots[j] in s.roots;
      assert c in OldAddrs(s.oldLay);
      assert c in MarkedSet(ms1);
    }
  }

  lemma OldChunksTiled(s: State, ids: seq<nat>, rank: map<nat, nat>)
    requires ValidStorage(s) && IdsOf(s.olds, ids) && Ranked(ids, rank)
    ensures ChunksTiled(ids, rank, s.oldLay) && |s.oldLay| == |ids|
  {
    forall i | 0 <= i < |s.oldLay| ensures Tiled(ids[i], META_SIZE, s.oldLay[i]) {
      assert Stored(s.bodies, s.olds[i].id, META_SIZE, s.olds[i].top, OLD_END, s.oldLay[i]);
    }
  }

  // ----- After the new storage has been given out ---------------------------

  /** All survivors have new storage: old space slides down, classes stay, objects of new
      space go to to-space or old space by their MID bit. */
  ghost predicate Replanned(s: State, ms2: Metas, bs2: Bodies, ms3: Metas, ids: seq<nat>, rank: map<nat, nat>,
      plan: Plan,
      olds3: seq<OldChunk>, lays3: seq<seq<Block>>)
  {
    Progress(ms2, ms3, bs2, s.free.id, ids, rank, plan, SmallAddrs(s)) && ms3.Keys == bs2.Keys &&
    SlidDown(ms3, rank, OldAddrs(s.oldLay)) && AllPromoted(ms3, s.free.id, AddrsOf(s.workLay)) &&
    s.oldLay != [] && InPlace(ms3, s.oldLay[0], s.classes) &&
    IdsOf(olds3, ids) && ChunksTiled(ids, rank, lays3) && OldAddrs(lays3) == OldAddrs(s.oldLay) &&
      OldsStored(bs2, olds3, lays3) &&
    s.olds != [] && ids != [] && ids[0] == s.olds[0].id &&
    s.working.id !in rank && forall k {:trigger s.bigs[k]} :: 0 <= k < |s.bigs| ==> s.bigs[k].chunk !in rank
  }

  lemma SameFirst(olds: seq<OldChunk>, oldsA: seq<OldChunk>, olds3: seq<OldChunk>, lays: seq<seq<Block>>,
      lays3: seq<seq<Block>>,
      regions: nat, regions3: nat, rank: map<nat, nat>, rank3: map<nat, nat>, ids: seq<nat>)
    requires SamePlaces(olds, oldsA) && SpaceGrown(regions, regions3, oldsA, olds3, lays, lays3, rank, rank3) &&
      IdsOf(olds3, ids) && lays != []
    requires |lays| == |olds|
    ensures olds != [] && ids != [] && ids[0] == olds[0].id
  {
    assert oldsA[0].id == olds[0].id && olds3[0].id == oldsA[0].id;
  }

  lemma GrownAddrs(lays: seq<seq<Block>>, lays3: seq<seq<Block>>)
    requires |lays| <= |lays3|
    requires forall i {:trigger lays3[i]} ::
      0 <= i < |lays3| ==> if i < |lays| then lays3[i] == lays[i] else lays3[i] == []
    ensures OldAddrs(lays3) == OldAddrs(lays)
  {
    forall a | a in OldAddrs(lays) ensures a in OldAddrs(lays3) {
      var i, j :| 0 <= i < |lays| && 0 <= j < |lays[i]| && lays[i][j].at == a;
      assert lays3[i][j].at == a;
    }
    forall a | a in OldAddrs(lays3) ensures a in OldAddrs(lays) {
      var i, j :| 0 <= i < |lays3| && 0 <= j < |lays3[i]| && lays3[i][j].at == a;
      assert lays[i][j].at == a;
    }
  }

  lemma GrownStored(bs: Bodies, olds0: seq<OldChunk>, olds: seq<OldChunk>, lays: seq<seq<Block>>, olds3: seq<OldChunk>,
      lays3: seq<seq<Block>>,
      regions: nat, regions3: nat, rank: map<nat, nat>, rank3: map<nat, nat>, ids: seq<nat>)
    requires OldsStored(bs, olds0, lays) && SamePlaces(olds0, olds) &&
      SpaceGrown(regions, regions3, olds, olds3, lays, lays3, rank, rank3)
    requires IdsOf(olds3, ids) && Ranked(ids, rank3)
    ensures OldsStored(bs, olds3, lays3) && ChunksTiled(ids, rank3, lays3)
  {
    forall i | 0 <= i < |olds3|
      ensures Stored(bs, olds3[i].id, META_SIZE, olds3[i].top, OLD_END, lays3[i])
    {
      if i < |lays| {
        assert Stored(bs, olds0[i].id, META_SIZE, olds0[i].top, OLD_END, lays[i]);
        assert olds[i].id == olds0[i].id && olds3[i].id == olds[i].id;
      } else {
        assert lays3[i] == [];
      }
    }
    forall i | 0 <= i < |lays3| ensures Tiled(ids[i], META_SIZE, lays3[i]) {
      assert Stored(bs, olds3[i].id, META_SIZE, olds3[i].top, OLD_END, lays3[i]);
    }
  }

  lemma SlidDownLater(ms: Metas, ms': Metas, rank: map<nat, nat>, rank': map<nat, nat>, olds: set<Addr>,
      work: set<Addr>)
    requires SlidDown(ms, rank, olds) && SameOutside(ms, ms', work) && olds !! work
    requires forall id {:trigger id in rank} :: id in rank ==> id in rank' && rank'[id] == rank[id]
    ensures SlidDown(ms', rank', olds)
  {
    forall a | a in olds && a in ms' && ms'[a].mrk ensures NotAhead(rank', a, ms'[a].ptr) {
      assert ms'[a] == ms[a];
      assert NotAhead(rank, a, ms[a].ptr);
    }
  }

  lemma InPlaceStays(ms: Metas, ms': Metas, lays: seq<seq<Block>>, n: nat, work: set<Addr>)
    requires lays != [] && InPlace(ms, lays[0], n) && SameOutside(ms, ms', work) && OldAddrs(lays) !! work
    ensures InPlace(ms', lays[0], n)
  {
    forall j | 0 <= j < n && j < |lays[0]| ensures lays[0][j].at in ms' && ms'[lays[0][j].at].ptr == lays[0][j].at {
      assert lays[0][j].at in OldAddrs(lays);
    }
  }

  /** The new regions of old space are neither from-space nor those of big objects. */
  lemma ReplanDone(s: State, ms2: Metas, bs2: Bodies, msA: Metas, oldsA: seq<OldChunk>, rank: map<nat, nat>,
      itA: Iterator, idsA: seq<nat>, planA: Plan,
      ms3: Metas, ids: seq<nat>, rank': map<nat, nat>, plan: Plan, to: Chunk, it: Iterator, olds3: seq<OldChunk>,
        lays3: seq<seq<Block>>, regions3: nat)
    requires ValidStorage(s) && OldsStored(bs2, s.olds, s.oldLay) && s.oldLay != []
    requires OldScan(ms2, msA, bs2, s.free.id, idsA, rank, planA, OldAddrs(s.oldLay), itA, oldsA, |oldsA|, META_SIZE)
    requires SamePlaces(s.olds, oldsA) && InPlace(msA, s.oldLay[0], s.classes)
    requires NewScan(ms2, ms3, bs2, to, ids, rank', plan, OldAddrs(s.oldLay) + AddrsOf(s.workLay), it, olds3, lays3,
      regions3) && to.id == s.free.id
    requires SpaceGrown(s.regions, regions3, oldsA, olds3, s.oldLay, lays3, rank, rank')
    requires SameOutside(msA, ms3, AddrsOf(s.workLay)) && AllPromoted(ms3, s.free.id, AddrsOf(s.workLay))
    requires s.working.id !in rank && forall k {:trigger s.bigs[k]} :: 0 <= k < |s.bigs| ==> s.bigs[k].chunk !in rank
    ensures Replanned(s, ms2, bs2, ms3, ids, rank', plan, olds3, lays3)
  {
    hide Progress, IterAt, ValidFlags, Stored, OldAddrs, AddrsOf, SlidDown, InPlace, SameOutside, AllPromoted,
      OldsStored, SamePlaces;
    SmallNotBig(s);
    GrownAddrs(s.oldLay, lays3);
    ProgressTiled(ms2, ms3, bs2, s.free.id, ids, rank', plan, OldAddrs(s.oldLay) + AddrsOf(s.workLay));
    GrownStored(bs2, s.olds, oldsA, s.oldLay, olds3, lays3, s.regions, regions3, rank, rank', ids);
    SlidDownLater(msA, ms3, rank, rank', OldAddrs(s.oldLay), AddrsOf(s.workLay));
    InPlaceStays(msA, ms3, s.oldLay, s.classes, AddrsOf(s.workLay));
    OldsStoredCount(bs2, s.olds, s.oldLay);
    SameFirst(s.olds, oldsA, olds3, s.oldLay, lays3, s.regions, regions3, rank, rank', ids);
    assert OldAddrs(s.oldLay) + AddrsOf(s.workLay) == SmallAddrs(s);
  }

  lemma ProgressTiled(ms0: Metas, ms: Metas, bs: Bodies, toId: nat, ids: seq<nat>, rank: map<nat, nat>, plan: Plan,
      scanned: set<Addr>)
    requires Progress(ms0, ms, bs, toId, ids, rank, plan, scanned)
    ensures Ranked(ids, rank) && toId !in rank && |plan.oldLay| <= |ids|
  {
  }

  // ----- Before the updates -------------------------------------------------

  /** The phases up to the new storage. */
  ghost predicate Prepared(s: State, ms1: Metas, ms2: Metas, bs2: Bodies, first2: Addr, bigs2: seq<Addr>,
      ms3: Metas, ids: seq<nat>, rank: map<nat, nat>, plan: Plan, olds3: seq<OldChunk>, lays3: seq<seq<Block>>)
  {
    Valid(s) && FullyMarked(s, ms1) && Swept1(s, ms1, ms2, bs2, first2, bigs2) &&
    Replanned(s, ms2, bs2, ms3, ids, rank, plan, olds3, lays3)
  }

  /** What the meta words say once new storage has been given out: of small objects they
      have kept the marks, of big ones they are reset. */
  ghost predicate MetasThen(s: State, ms1: Metas, ms3: Metas, bigs2: seq<Addr>)
  {
    (forall a {:trigger a in SmallAddrs(s)} {:trigger ms3[a]} :: a in SmallAddrs(s) ==>
      a in ms1 && a in ms3 && ms3[a].mrk == ms1[a].mrk && ms3[a].gen == ms1[a].gen && ms3[a].mid == ms1[a].mid &&
        !IsBig(ms3[a])) &&
    (forall a {:trigger a in BigAddrs(bigs2)} {:trigger ms3[a]} ::
      a in BigAddrs(bigs2) ==> a in ms1 && ms1[a].mrk && a in ms3 && Reset(ms3[a]))
  }

  lemma NoSmallIsBig(s: State, a: Addr)
    requires ValidFlags(s) && a in SmallAddrs(s)
    ensures a in s.metas && !IsBig(s.metas[a])
  {
    hide BigList, NoMarks, OldFlags;
    if a in AddrsOf(s.workLay) {
      var j :| 0 <= j < |s.workLay| && s.workLay[j].at == a;
    } else {
      var i, j :| 0 <= i < |s.oldLay| && 0 <= j < |s.oldLay[i]| && s.oldLay[i][j].at == a;
      OldFlagsAt(s.metas, s.olds, s.oldLay, i, j);
    }
  }

  lemma OldFlagsAt(ms: Metas, olds: seq<OldChunk>, lays: seq<seq<Block>>, i: nat, j: nat)
    requires AllOldFlags(ms, olds, lays) && i < |lays| && j < |lays[i]|
    ensures i < |olds| && lays[i][j].at in ms &&
      ms[lays[i][j].at] == Meta(Old, false, false, Addr(olds[i].id, 0), false)
  {
    assert OldFlags(ms, olds[i].id, lays[i]);
  }

  lemma SmallMetas(s: State, ms1: Metas, ms2: Metas, ms3: Metas, plan: Plan)
    requires OnlyMarks(s.metas, ms1) && Redirections(ms2, ms3, plan, SmallAddrs(s)) && ValidFlags(s) && ValidStorage(s)
    requires forall a {:trigger ms2[a]} :: a in SmallAddrs(s) ==> a in ms1 && a in ms2 && ms2[a] == ms1[a]
    ensures forall a {:trigger ms3[a]} :: a in SmallAddrs(s) ==>
      a in ms1 && a in ms3 && ms3[a].mrk == ms1[a].mrk && ms3[a].gen == ms1[a].gen && ms3[a].mid == ms1[a].mid &&
        !IsBig(ms3[a])
  {
    hide ValidFlags, ValidStorage, AddrsOf, OldAddrs;
    forall a | a in SmallAddrs(s)
      ensures a in ms1 && a in ms3 && ms3[a].mrk == ms1[a].mrk && ms3[a].gen == ms1[a].gen &&
        ms3[a].mid == ms1[a].mid && !IsBig(ms3[a])
    {
      NoSmallIsBig(s, a);
      assert MarkedFrom(s.metas[a], ms1[a]);
      assert ms2[a] == ms1[a];
    }
  }

  lemma BigMetas(s: State, ms1: Metas, ms2: Metas, ms3: Metas, plan: Plan, bigs2: seq<Addr>)
    requires Redirections(ms2, ms3, plan, SmallAddrs(s)) && BigAddrs(bigs2) !! SmallAddrs(s) &&
      ms1.Keys == s.bodies.Keys
    requires forall k {:trigger bigs2[k]} :: 0 <= k < |bigs2| ==> bigs2[k] in ms2 && Reset(ms2[bigs2[k]])
    requires forall a :: a in BigAddrs(bigs2) <==> a in BigAddrs(s.bigs) && a in ms1 && ms1[a].mrk
    ensures forall a {:trigger ms3[a]} :: a in BigAddrs(bigs2) ==> a in ms1 && ms1[a].mrk && a in ms3 && Reset(ms3[a])
    ensures forall k {:trigger bigs2[k]} ::
      0 <= k < |bigs2| ==> bigs2[k] in ms2 && bigs2[k] in ms3 && ms3[bigs2[k]] == ms2[bigs2[k]]
  {
    hide AddrsOf, OldAddrs, Reset;
    forall k | 0 <= k < |bigs2| ensures bigs2[k] in ms2 && bigs2[k] in ms3 && ms3[bigs2[k]] == ms2[bigs2[k]] {
      assert bigs2[k] in BigAddrs(bigs2);
    }
    forall a | a in BigAddrs(bigs2) ensures a in ms1 && ms1[a].mrk && a in ms3 && Reset(ms3[a]) {
      var k :| 0 <= k < |bigs2| && bigs2[k] == a;
      assert Reset(ms2[bigs2[k]]);
    }
  }

  lemma MetasThenHold(s: State, ms1: Metas, ms2: Metas, bs2: Bodies, first2: Addr, bigs2: seq<Addr>,
      ms3: Metas, ids: seq<nat>, rank: map<nat, nat>, plan: Plan, olds3: seq<OldChunk>, lays3: seq<seq<Block>>)
    requires Prepared(s, ms1, ms2, bs2, first2, bigs2, ms3, ids, rank, plan, olds3, lays3)
    ensures MetasThen(s, ms1, ms3, bigs2)
    ensures ms3.Keys == bs2.Keys == SmallAddrs(s) + BigAddrs(bigs2) && SmallAddrs(s) !! BigAddrs(bigs2)
    ensures forall k {:trigger bigs2[k]} ::
      0 <= k < |bigs2| ==> bigs2[k] in ms2 && bigs2[k] in ms3 && ms3[bigs2[k]] == ms2[bigs2[k]]
  {
    hide PlanTiled, PlanAssigned, SlidDown, InPlace, OldsStored, ChunksTiled, AllPromoted, ValidGraph, BigList,
      ReachableSet, ValidStorage, ValidFlags,
      Redirections, OnlyMarks, AddrsOf, OldAddrs, BigAddrs, Kept, DistinctRegions;
    SmallNotBig(s);
    SweepLeaves(s, ms1, ms2, bs2, first2, bigs2);
    SmallMetas(s, ms1, ms2, ms3, plan);
    BigMetas(s, ms1, ms2, ms3, plan, bigs2);
  }

  /** An object is a survivor exactly if it was reachable. */
  lemma LiveIsMarked(s: State, ms1: Metas, ms3: Metas, bigs2: seq<Addr>, a: Addr)
    requires MetasThen(s, ms1, ms3, bigs2) && a in SmallAddrs(s) + BigAddrs(bigs2)
    ensures a in ms3 && a in ms1 && (Live(ms3[a]) <==> a in MarkedSet(ms1))
  {
    assert a in ms3;
    assert ms3[a] == ms3[a];
  }

  lemma UpdateReady(s: State, ms1: Metas, ms2: Metas, bs2: Bodies, first2: Addr, bigs2: seq<Addr>,
      ms3: Metas, ids: seq<nat>, rank: map<nat, nat>, plan: Plan, olds3: seq<OldChunk>, lays3: seq<seq<Block>>)
    requires Prepared(s, ms1, ms2, bs2, first2, bigs2, ms3, ids, rank, plan, olds3, lays3)
    ensures UpdateSetting(ms3, bs2)
  {
    hide Sweep, Progress, SlidDown, AllPromoted, InPlace, OldsStored, ChunksTiled, ValidStorage, ValidFlags, ValidGraph,
      LiveClosed, ClassesStay, AllSized;
    SizedAfterSweep(s, ms1, ms2, bs2, first2, bigs2);
    MetasThenHold(s, ms1, ms2, bs2, first2, bigs2, ms3, ids, rank, plan, olds3, lays3);
    SweepLeaves(s, ms1, ms2, bs2, first2, bigs2);
    MarkedStay(s, ms1, ms2, bs2, first2, bigs2);
    LiveClosedHolds(s, ms1, bs2, bigs2, ms3);
    ClassesStayHold(s, bs2, ms3);
  }

  lemma LiveClosedHolds(s: State, ms1: Metas, bs2: Bodies, bigs2: seq<Addr>, ms3: Metas)
    requires MetasThen(s, ms1, ms3, bigs2) && ms3.Keys == bs2.Keys == SmallAddrs(s) + BigAddrs(bigs2)
    requires forall a {:trigger bs2[a]} :: a in bs2 ==> a in s.bodies && bs2[a] == s.bodies[a]
    requires ClosedSet(s.bodies, s.roots, MarkedSet(ms1)) && MarkedSet(ms1) <= bs2.Keys
    ensures LiveClosed(ms3, bs2)
  {
    hide MetasThen, MarkedSet;
    forall a | a in bs2 && Live(ms3[a]) ensures BodyIn(bs2[a], ms3.Keys) {
      LiveIsMarked(s, ms1, ms3, bigs2, a);
      assert bs2[a] == s.bodies[a] && BodyIn(s.bodies[a], MarkedSet(ms1));
    }
  }

  lemma ClassesStayHold(s: State, bs2: Bodies, ms3: Metas)
    requires ValidGraph(s) && InPlace(ms3, s.oldLay[0], s.classes)
    requires forall a {:trigger bs2[a]} :: a in bs2 ==> a in s.bodies && bs2[a] == s.bodies[a]
    ensures ClassesStay(ms3, bs2)
  {
    forall a | a in bs2 ensures ClassStays(ms3, bs2[a]) {
      assert bs2[a] == s.bodies[a];
      ClassIsOld(s, a);
      var j :| 0 <= j < s.classes && s.oldLay[0][j].at == s.bodies[a].cls;
      assert ms3[s.oldLay[0][j].at].ptr == s.oldLay[0][j].at;
    }
  }

  lemma MarkedStay(s: State, ms1: Metas, ms2: Metas, bs2: Bodies, first2: Addr, bigs2: seq<Addr>)
    requires Valid(s) && FullyMarked(s, ms1) && Swept1(s, ms1, ms2, bs2, first2, bigs2)
    ensures MarkedSet(ms1) <= bs2.Keys
  {
    hide Sweep, ValidGraph, ValidFlags;
    SweepLeaves(s, ms1, ms2, bs2, first2, bigs2);
  }

  lemma BigListStays(ms2: Metas, ms3: Metas, first2: Addr, bigs2: seq<Addr>)
    requires BigList(ms2, first2, bigs2)
    requires forall k {:trigger bigs2[k]} ::
      0 <= k < |bigs2| ==> bigs2[k] in ms2 && bigs2[k] in ms3 && ms3[bigs2[k]] == ms2[bigs2[k]]
    ensures BigList(ms3, first2, bigs2)
  {
  }

  lemma PreparedParts(s: State, ms1: Metas, ms2: Metas, bs2: Bodies, first2: Addr, bigs2: seq<Addr>,
      ms3: Metas, ids: seq<nat>, rank: map<nat, nat>, plan: Plan, olds3: seq<OldChunk>, lays3: seq<seq<Block>>)
    requires Prepared(s, ms1, ms2, bs2, first2, bigs2, ms3, ids, rank, plan, olds3, lays3)
    ensures BigList(ms2, first2, bigs2) && DistinctRegions(bigs2) && ValidStorage(s) && ValidGraph(s)
    ensures OldsStored(bs2, olds3, lays3) && ChunksTiled(ids, rank, lays3) && OldAddrs(lays3) == OldAddrs(s.oldLay)
    ensures ClosedSet(s.bodies, s.roots, MarkedSet(ms1))
  {
    hide Progress, SlidDown, AllPromoted, InPlace, OldsStored, ChunksTiled, ValidStorage, ValidFlags, ValidGraph, Kept,
      BigList,
      DistinctRegions, OldAddrs, BigAddrs, AddrsOf, ClosedSet, OnlyMarks;
  }

  lemma UpdateReady2(s: State, ms1: Metas, ms2: Metas, bs2: Bodies, first2: Addr, bigs2: seq<Addr>,
      ms3: Metas, ids: seq<nat>, rank: map<nat, nat>, plan: Plan, olds3: seq<OldChunk>, lays3: seq<seq<Block>>)
    requires Prepared(s, ms1, ms2, bs2, first2, bigs2, ms3, ids, rank, plan, olds3, lays3)
    ensures SmallOnly(ms3, AddrsOf(s.workLay)) && SmallOnly(ms3, OldAddrs(lays3))
    ensures BigList(ms3, first2, bigs2) && DistinctRegions(bigs2)
    ensures WorkingStored(bs2, s.working, s.workLay) && OldsStored(bs2, olds3, lays3) && ChunksTiled(ids, rank, lays3)
    ensures OldAddrs(lays3) == OldAddrs(s.oldLay) && AddrsOf(s.workLay) !! OldAddrs(lays3)
    ensures BigAddrs(bigs2) !! SmallAddrs(s) && ms3.Keys == bs2.Keys == SmallAddrs(s) + BigAddrs(bigs2)
    ensures ValuesIn(s.roots, ms3.Keys) && MetasThen(s, ms1, ms3, bigs2)
  {
    hide Progress, SlidDown, AllPromoted, InPlace, OldsStored, ChunksTiled, ValidStorage, ValidFlags, ValidGraph, Kept,
      BigList,
      DistinctRegions, OldAddrs, BigAddrs, AddrsOf, OnlyMarks, Replanned, Sweep, MetasThen, MarkedSet, WorkingStored,
        SmallOnly, Stored;
    PreparedParts(s, ms1, ms2, bs2, first2, bigs2, ms3, ids, rank, plan, olds3, lays3);
    MetasThenHold(s, ms1, ms2, bs2, first2, bigs2, ms3, ids, rank, plan, olds3, lays3);
    BigListStays(ms2, ms3, first2, bigs2);
    StoredAfterSweep(s, ms1, ms2, bs2, first2, bigs2);
    MarkedStay(s, ms1, ms2, bs2, first2, bigs2);
    SmallNotBig(s);
    SmallOnlyIn(s, ms1, ms3, bigs2, AddrsOf(s.workLay));
    SmallOnlyIn(s, ms1, ms3, bigs2, OldAddrs(lays3));
  }

  lemma SmallOnlyIn(s: State, ms1: Metas, ms3: Metas, bigs2: seq<Addr>, t: set<Addr>)
    requires MetasThen(s, ms1, ms3, bigs2) && t <= SmallAddrs(s)
    ensures SmallOnly(ms3, t)
  {
  }

  // ----- Before the moves ---------------------------------------------------

  ghost predicate SameSizes(bs: Bodies, bs': Bodies)
  {
    bs'.Keys == bs.Keys && forall a {:trigger bs'[a]} :: a in bs' ==> Size(bs'[a]) == Size(bs[a])
  }

  lemma AssignedSameSizes(ms: Metas, bs: Bodies, bs': Bodies, plan: Plan)
    requires PlanAssigned(ms, bs, plan) && SameSizes(bs, bs')
    ensures PlanAssigned(ms, bs', plan)
  {
    forall j | 0 <= j < |plan.toLay| ensures Assigned(ms, bs', plan.from, plan.toLay[j]) {
      assert Assigned(ms, bs, plan.from, plan.toLay[j]);
      assert Size(bs'[plan.from[plan.toLay[j].at]]) == Size(bs[plan.from[plan.toLay[j].at]]);
    }
    forall i | 0 <= i < |plan.oldLay| ensures AllAssigned(ms, bs', plan.from, plan.oldLay[i]) {
      forall j | 0 <= j < |plan.oldLay[i]| ensures Assigned(ms, bs', plan.from, plan.oldLay[i][j]) {
        assert AllAssigned(ms, bs, plan.from, plan.oldLay[i]);
        assert Assigned(ms, bs, plan.from, plan.oldLay[i][j]);
        assert Size(bs'[plan.from[plan.oldLay[i][j].at]]) == Size(bs[plan.from[plan.oldLay[i][j].at]]);
      }
    }
  }

  lemma StoredSameSizes(bs: Bodies, bs': Bodies, olds: seq<OldChunk>, lays: seq<seq<Block>>, c: Chunk, lay: seq<Block>)
    requires SameSizes(bs, bs') && OldsStored(bs, olds, lays) && WorkingStored(bs, c, lay)
    ensures OldsStored(bs', olds, lays) && WorkingStored(bs', c, lay)
  {
    hide Tiled;
    StillStored(bs, bs', c.id, 0, c.top, NEW_END, lay);
    forall i | 0 <= i < |olds| ensures Stored(bs', olds[i].id, META_SIZE, olds[i].top, OLD_END, lays[i]) {
      assert Stored(bs, olds[i].id, META_SIZE, olds[i].top, OLD_END, lays[i]);
      StillStored(bs, bs', olds[i].id, META_SIZE, olds[i].top, OLD_END, lays[i]);
    }
  }

  lemma UpdatedSameSizes(ms: Metas, bs: Bodies, bs': Bodies, done: set<Addr>)
    requires UpdateSetting(ms, bs) && Updated(ms, bs, bs', done)
    ensures SameSizes(bs, bs') && AllSized(bs')
  {
    SizedDuringUpdate(ms, bs, bs', done);
  }

  /** After the updates every class pointer still names a class that stays in place. */
  lemma AnchoredAfterUpdate(s: State, ms3: Metas, bs2: Bodies, bs4: Bodies, plan: Plan, done: set<Addr>)
    requires ValidGraph(s) && InPlace(ms3, s.oldLay[0], s.classes) && ClassesStay(ms3, bs2) &&
      Updated(ms3, bs2, bs4, done)
    requires forall a {:trigger bs2[a]} :: a in bs2 ==> a in s.bodies && bs2[a] == s.bodies[a]
    requires AllRelocated(ms3, plan.from, SmallAddrs(s)) && AllMarked(ms3, s.oldLay[0], s.classes)
    ensures ClassesAnchored(bs4, plan.from)
  {
    hide SmallAddrs;
    forall a | a in bs4 ensures ClassAnchored(plan.from, bs4[a]) {
      assert bs2[a] == s.bodies[a] && ClassStays(ms3, bs2[a]);
      assert bs4[a].cls == bs2[a].cls;
      ClassIsOld(s, a);
      var j :| 0 <= j < s.classes && s.oldLay[0][j].at == s.bodies[a].cls;
      var c := s.oldLay[0][j].at;
      ClassIsSmall(s, j);
      assert ms3[c].mrk && ms3[c].ptr == c;
      assert Relocated(ms3, plan.from, c);
    }
  }

  lemma ClassIsSmall(s: State, j: nat)
    requires ValidGraph(s) && j < s.classes
    ensures j < |s.oldLay[0]| && s.oldLay[0][j].at in SmallAddrs(s)
  {
    assert s.oldLay[0][j].at in OldAddrs(s.oldLay);
  }

  lemma ClassesMarkedStill(s: State, ms2: Metas, ms3: Metas, plan: Plan)
    requires ValidGraph(s) && AllMarked(ms2, s.oldLay[0], s.classes) && Redirections(ms2, ms3, plan, SmallAddrs(s))
    ensures AllMarked(ms3, s.oldLay[0], s.classes)
  {
  }

  /** Where objects outside old space are. */
  lemma OthersElsewhere(s: State, rank: map<nat, nat>, bigs2: seq<Addr>)
    requires ValidStorage(s) && BigAddrs(bigs2) <= BigAddrs(s.bigs)
    requires s.working.id !in rank && forall k {:trigger s.bigs[k]} :: 0 <= k < |s.bigs| ==> s.bigs[k].chunk !in rank
    ensures NotInRegions(s.working.id, rank, s.free.id, AddrsOf(s.workLay) + BigAddrs(bigs2))
  {
    forall x | x in AddrsOf(s.workLay) + BigAddrs(bigs2) ensures x.chunk !in rank && x.chunk != s.free.id {
      if x in AddrsOf(s.workLay) {
        var j :| 0 <= j < |s.workLay| && s.workLay[j].at == x;
        assert x.chunk == s.working.id;
      } else {
        var k :| 0 <= k < |s.bigs| && s.bigs[k] == x;
      }
    }
  }

  lemma MoveStateStart(ms: Metas, bs: Bodies, toId: nat, plan: Plan, scanned: set<Addr>, ms0: Metas)
    requires ms.Keys == bs.Keys && Redirections(ms0, ms, plan, scanned)
    ensures MoveState(ms, bs, toId, plan.from, ms, bs, ms.Keys)
  {
    forall d | d in plan.from ensures plan.from[d] in ms.Keys {
      assert plan.from[d] in scanned;
    }
  }

  lemma ReplannedParts(s: State, ms2: Metas, bs2: Bodies, ms3: Metas, ids: seq<nat>, rank: map<nat, nat>, plan: Plan,
      olds3: seq<OldChunk>, lays3: seq<seq<Block>>)
    requires Replanned(s, ms2, bs2, ms3, ids, rank, plan, olds3, lays3)
    ensures PlanTiled(s.free.id, ids, rank, plan) && PlanAssigned(ms3, bs2, plan) &&
      Redirections(ms2, ms3, plan, SmallAddrs(s))
    ensures SlidDown(ms3, rank, OldAddrs(lays3)) && AllPromoted(ms3, s.free.id, AddrsOf(s.workLay)) &&
      InPlace(ms3, s.oldLay[0], s.classes)
    ensures s.working.id !in rank && forall k {:trigger s.bigs[k]} :: 0 <= k < |s.bigs| ==> s.bigs[k].chunk !in rank
    ensures AllRelocated(ms3, plan.from, SmallAddrs(s)) && ms3.Keys == bs2.Keys
    ensures s.olds != [] && ids != [] && ids[0] == s.olds[0].id
  {
    hide PlanTiled, PlanAssigned, SlidDown, AllPromoted, InPlace, OldsStored, ChunksTiled, OldAddrs, AddrsOf;
  }

  lemma MoveReady(s: State, ms1: Metas, ms2: Metas, bs2: Bodies, first2: Addr, bigs2: seq<Addr>,
      ms3: Metas, ids: seq<nat>, rank: map<nat, nat>, plan: Plan, olds3: seq<OldChunk>, lays3: seq<seq<Block>>,
        bs4: Bodies)
    requires Prepared(s, ms1, ms2, bs2, first2, bigs2, ms3, ids, rank, plan, olds3, lays3)
    requires Updated(ms3, bs2, bs4, ms3.Keys)
    ensures MoveSetting(ms3, bs4, s.free.id, ids, rank, plan, SmallAddrs(s))
    ensures OldMoveSetting(ms3, ids, rank, lays3, SmallAddrs(s), AddrsOf(s.workLay) + BigAddrs(bigs2))
    ensures NotInRegions(s.working.id, rank, s.free.id, AddrsOf(s.workLay) + BigAddrs(bigs2))
    ensures OldsStored(bs4, olds3, lays3) && WorkingStored(bs4, s.working, s.workLay)
    ensures MoveState(ms3, bs4, s.free.id, plan.from, ms3, bs4, OldAddrs(lays3) +
      (AddrsOf(s.workLay) + BigAddrs(bigs2)))
    ensures AllPromoted(ms3, s.free.id, AddrsOf(s.workLay))
  {
    hide Progress, PlanTiled, PlanAssigned, SlidDown, AllPromoted, InPlace, OldsStored, ChunksTiled, OldAddrs, AddrsOf,
      BigAddrs, ValidStorage, ValidFlags,
      ValidGraph, Replanned, Swept1, FullyMarked, AllRelocated, ClassesAnchored, AllSized, Updated, MoveState,
        WorkingStored, Redirections, SameSizes, MetasThen;
    UpdateReady(s, ms1, ms2, bs2, first2, bigs2, ms3, ids, rank, plan, olds3, lays3);
    UpdateReady2(s, ms1, ms2, bs2, first2, bigs2, ms3, ids, rank, plan, olds3, lays3);
    ReplannedParts(s, ms2, bs2, ms3, ids, rank, plan, olds3, lays3);
    SettingKeys(ms3, bs2, bs4, ms3.Keys);
    UpdatedSameSizes(ms3, bs2, bs4, ms3.Keys);
    AssignedSameSizes(ms3, bs2, bs4, plan);
    StoredSameSizes(bs2, bs4, olds3, lays3, s.working, s.workLay);
    SweepLeaves(s, ms1, ms2, bs2, first2, bigs2);
    ClassesMarked(s, ms1, ms2, bs2, first2, bigs2);
    ClassesMarkedStill(s, ms2, ms3, plan);
    AnchoredAfterUpdate(s, ms3, bs2, bs4, plan, ms3.Keys);
    OthersElsewhere(s, rank, bigs2);
    MoveStateStart(ms3, bs4, s.free.id, plan, SmallAddrs(s), ms2);
    assert OldAddrs(lays3) + (AddrsOf(s.workLay) + BigAddrs(bigs2)) == ms3.Keys;
  }
}
