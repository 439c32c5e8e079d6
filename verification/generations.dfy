/** When a collection leaves no reference from an old object to a young one. */
module Generations {
  import opened ObjectHeap
  import opened Layout
  import opened Marking
  import opened Spaces
  import opened BigSpace
  import opened Relocation
  import opened Updating
  import opened Moving
  import opened Invariant
  import opened FullCollection
  import opened Outcome
  import opened RememberedObjects
  import opened Copying
  import opened FastCollection
  import opened FastOutcome

  /** Old, or going to be: a young object with MID moves to old space. */
  predicate Aged(m: Meta)
  {
    m.gen.Old? || m.mid
  }

  ghost predicate OnlyAged(ms: Metas, b: Body)
  {
    forall v :: v in b.fields && v.Ref? && v.at in ms ==> Aged(ms[v.at])
  }

  /** The marking has left no gap: whatever an aged survivor refers to is aged as well.  A
      young object that was reached by a plain visit first has no MID bit, even if an aged
      object refers to it too; that is a gap. */
  ghost predicate NoGap(ms: Metas, bs: Bodies, live: set<Addr>)
  {
    forall a {:trigger OnlyAged(ms, bs[a])} :: a in live && a in bs && a in ms && Aged(ms[a]) ==> OnlyAged(ms, bs[a])
  }

  /** The survivors are old afterwards exactly if the marking found them aged. */
  ghost predicate AgedBecomeOld(ms: Metas, t: State, f: map<Addr, Addr>)
  {
    forall a {:trigger f[a]} :: a in f ==> a in ms && f[a] in t.metas && (t.metas[f[a]].gen.Old? <==> Aged(ms[a]))
  }

  /** No old object refers to a young one after a collection iff there was no gap. */
  lemma GenerationalIffNoGap(s: State, t: State, ms: Metas, f: map<Addr, Addr>)
    requires Isomorphic(s.bodies, s.roots, t.bodies, t.roots, f) && f.Values == t.bodies.Keys &&
      t.metas.Keys == t.bodies.Keys
    requires RememberedList(t) == [] && AgedBecomeOld(ms, t, f)
    ensures Generational(t) <==> NoGap(ms, s.bodies, f.Keys)
  {
    if NoGap(ms, s.bodies, f.Keys) {
      forall d | d in t.bodies && d in OldSet(t.metas) ensures NoYoung(t.metas, t.bodies[d]) {
        var a :| a in f && f[a] == d;
        assert OnlyAged(ms, s.bodies[a]);
        OldFieldsOnly(s, t, ms, f, a);
      }
    }
    if Generational(t) {
      forall a | a in f && Aged(ms[a]) ensures OnlyAged(ms, s.bodies[a]) {
        assert f[a] in OldSet(t.metas) && NoYoung(t.metas, t.bodies[f[a]]);
        OldFieldsOnly(s, t, ms, f, a);
      }
    }
  }

  lemma OldFieldsOnly(s: State, t: State, ms: Metas, f: map<Addr, Addr>, a: Addr)
    requires Isomorphic(s.bodies, s.roots, t.bodies, t.roots, f) && f.Values == t.bodies.Keys &&
      t.metas.Keys == t.bodies.Keys
    requires AgedBecomeOld(ms, t, f) && a in f
    ensures NoYoung(t.metas, t.bodies[f[a]]) <==> OnlyAged(ms, s.bodies[a])
  {
    var b, b' := s.bodies[a], t.bodies[f[a]];
    assert BodyIn(b, f.Keys) && MappedBody(f, b, b');
    if OnlyAged(ms, b) {
      forall v | v in b'.fields && v.Ref? && v.at in t.metas ensures t.metas[v.at].gen.Old? {
        var i :| 0 <= i < |b'.fields| && b'.fields[i] == v;
        assert b.fields[i] in b.fields && v == MapValue(f, b.fields[i]);
      }
    }
    if NoYoung(t.metas, b') {
      forall v | v in b.fields && v.Ref? && v.at in ms ensures Aged(ms[v.at]) {
        var i :| 0 <= i < |b.fields| && b.fields[i] == v;
        assert b'.fields[i] == MapValue(f, v) && b'.fields[i] in b'.fields;
        assert f[v.at] in t.metas;
      }
    }
  }

  /** Marks and PTR words aside, the metas say the same. */
  lemma NoGapSame(ms: Metas, ms': Metas, bs: Bodies, live: set<Addr>)
    requires bs.Keys <= ms.Keys && ClosedSet(bs, [], live) && live <= ms'.Keys
    requires forall a {:trigger ms'[a]} :: a in live ==> Aged(ms'[a]) == Aged(ms[a])
    ensures NoGap(ms, bs, live) <==> NoGap(ms', bs, live)
  {
    forall a | a in live ensures OnlyAged(ms, bs[a]) <==> OnlyAged(ms', bs[a]) {
      assert BodyIn(bs[a], live);
      assert forall v :: v in bs[a].fields && v.Ref? ==> v.at in live && Aged(ms'[v.at]) == Aged(ms[v.at]);
    }
    forall a | a in live ensures Aged(ms[a]) == Aged(ms'[a]) { assert ms'[a] == ms'[a]; }
  }

  // ----- Full collection ----------------------------------------------------

  lemma GenerationMarked(s: State, ms1: Metas, a: Addr)
    requires Valid(s) && OnlyMarks(s.metas, ms1) && a in s.bodies
    ensures a in ms1 && (a in AddrsOf(s.workLay) ==> ms1[a].gen.Young?) &&
      (a in OldAddrs(s.oldLay) + BigAddrs(s.bigs) ==> ms1[a].gen.Old?)
  {
    OldObjects(s);
    MarkReady(s);
    hide Valid;
    assert MarkedFrom(s.metas[a], ms1[a]);
  }

  lemma FullAges(s: State, t: State, ms1: Metas, ms2: Metas, bs2: Bodies, first2: Addr, bigs2: seq<Addr>,
      ms3: Metas, ids: seq<nat>, rank: map<nat, nat>, plan: Plan, olds3: seq<OldChunk>, lays3: seq<seq<Block>>,
        bs4: Bodies, a: Addr)
    requires Finished(s, ms1, ms2, bs2, first2, bigs2, ms3, ids, rank, plan, olds3, lays3, bs4, t.metas, t.bodies)
    requires a in MarkedSet(ms1) && a in ms3
    ensures a in ms1 && Aged(ms3[a]) == Aged(ms1[a])
    ensures
      var d := if ms3[a].mrk then ms3[a].ptr else a;
      d in t.metas && (t.metas[d].gen.Old? <==> Aged(ms3[a]))
  {
    hide Updated, ValidGraph, SlidDown, InPlace, OldsStored, ChunksTiled, Prepared, MoveState, Redirections, PlanTiled,
      PlanAssigned, AddrsOf, OldAddrs, BigAddrs,
      ValidStorage, ValidFlags, AllRelocated, Closed, AllSized, BigList, WorkingStored, ClosedSet, SmallOnly,
        DistinctRegions;
    UpdateReady2(s, ms1, ms2, bs2, first2, bigs2, ms3, ids, rank, plan, olds3, lays3);
    LiveIsMarked(s, ms1, ms3, bigs2, a);
    assert ms3[a] == ms3[a];
    PreparedMarks(s, ms1, ms2, bs2, first2, bigs2, ms3, ids, rank, plan, olds3, lays3, a);
    GenerationMarked(s, ms1, a);
    if a in BigAddrs(bigs2) {
      BigStays(s, t, ms3, bs4, plan, bigs2, a);
    } else {
      MoveReadyParts(s, ms1, ms2, bs2, first2, bigs2, ms3, ids, rank, plan, olds3, lays3, bs4);
      SmallAges(s, t, ms1, ms2, ms3, ids, rank, plan, bs4, BigAddrs(bigs2), a, OldAddrs(lays3));
    }
  }

  lemma PreparedMarks(s: State, ms1: Metas, ms2: Metas, bs2: Bodies, first2: Addr, bigs2: seq<Addr>,
      ms3: Metas, ids: seq<nat>, rank: map<nat, nat>, plan: Plan, olds3: seq<OldChunk>, lays3: seq<seq<Block>>, a: Addr)
    requires Prepared(s, ms1, ms2, bs2, first2, bigs2, ms3, ids, rank, plan, olds3, lays3) && a in MarkedSet(ms1)
    ensures Valid(s) && OnlyMarks(s.metas, ms1) && a in s.bodies && BigAddrs(bigs2) <= BigAddrs(s.bigs)
  {
    hide Replanned, ValidGraph, ValidFlags, Sweep;
    SweepLeaves(s, ms1, ms2, bs2, first2, bigs2);
  }

  lemma BigStays(s: State, t: State, ms3: Metas, bs4: Bodies, plan: Plan, bigs2: seq<Addr>, a: Addr)
    requires MoveState(ms3, bs4, s.free.id, plan.from, t.metas, t.bodies, BigAddrs(bigs2)) && a in BigAddrs(bigs2)
    ensures a in ms3 && a in t.metas && t.metas[a] == ms3[a]
  {
  }

  lemma MoveReadyParts(s: State, ms1: Metas, ms2: Metas, bs2: Bodies, first2: Addr, bigs2: seq<Addr>,
      ms3: Metas, ids: seq<nat>, rank: map<nat, nat>, plan: Plan, olds3: seq<OldChunk>, lays3: seq<seq<Block>>,
        bs4: Bodies)
    requires Prepared(s, ms1, ms2, bs2, first2, bigs2, ms3, ids, rank, plan, olds3, lays3)
    ensures AllRelocated(ms3, plan.from, SmallAddrs(s)) && AllPromoted(ms3, s.free.id, AddrsOf(s.workLay)) &&
      SlidDown(ms3, rank, OldAddrs(lays3))
    ensures OldAddrs(lays3) == OldAddrs(s.oldLay) && s.free.id !in rank && ValidFlags(s) && OnlyMarks(s.metas, ms1)
    ensures forall d {:trigger plan.from[d]} :: d in plan.from ==> plan.from[d] in SmallAddrs(s)
  {
    hide InPlace, OldsStored, ChunksTiled, ValidStorage, ValidFlags, ValidGraph, Sweep, OnlyMarks, ReachableSet,
      PlanAssigned, Tiled, Ranked, AllRelocated;
    ReplannedParts(s, ms2, bs2, ms3, ids, rank, plan, olds3, lays3);
    assert PlanTiled(s.free.id, ids, rank, plan);
  }

  lemma SmallAges(s: State, t: State, ms1: Metas, ms2: Metas, ms3: Metas, ids: seq<nat>, rank: map<nat, nat>,
      plan: Plan, bs4: Bodies,
      big: set<Addr>, a: Addr, olds: set<Addr>)
    requires MoveState(ms3, bs4, s.free.id, plan.from, t.metas, t.bodies, big) && a in SmallAddrs(s) && a in ms3 &&
      ms3[a].mrk
    requires a !in big && olds == OldAddrs(s.oldLay)
    requires AllRelocated(ms3, plan.from, SmallAddrs(s)) && AllPromoted(ms3, s.free.id, AddrsOf(s.workLay)) &&
      SlidDown(ms3, rank, olds)
    requires s.free.id !in rank && (a in AddrsOf(s.workLay) ==> ms3[a].gen.Young?) && (a in olds ==> ms3[a].gen.Old?)
    ensures ms3[a].ptr in t.metas && (t.metas[ms3[a].ptr].gen.Old? <==> Aged(ms3[a]))
  {
    assert Relocated(ms3, plan.from, a);
    var d := ms3[a].ptr;
    assert Arrived(bs4, s.free.id, plan.from, t.metas, t.bodies, d);
    if a in AddrsOf(s.workLay) {
      assert Promoted(ms3[a], s.free.id);
    } else {
      assert NotAhead(rank, a, d);
    }
  }

  lemma NoneRememberedFull(s: State, t: State, first2: Addr, bigs2: seq<Addr>, bs2: Bodies, ids: seq<nat>,
      rank: map<nat, nat>, plan: Plan,
      olds3: seq<OldChunk>, ms1: Metas, ms3: Metas, bs4: Bodies)
    requires Settled(s, t, first2, bigs2, bs2, ids, rank, plan, olds3) && MetasThen(s, ms1, ms3, bigs2)
    requires MoveState(ms3, bs4, s.free.id, plan.from, t.metas, t.bodies, BigAddrs(bigs2))
    ensures RememberedList(t) == []
  {
    hide RankBelow, TotalSizeOf;
    ResetOf(s, ms1, ms3, bigs2);
    forall k | 0 <= k < |t.bigs| ensures t.bigs[k] in t.metas && !t.metas[t.bigs[k]].tag {
      assert t.bigs[k] in BigAddrs(bigs2);
      assert t.metas[t.bigs[k]] == ms3[t.bigs[k]];
    }
    NoneRemembered(t);
  }

  /** After a full collection: no old object refers to a young one iff the marking left no gap. */
  lemma FullGenerational(s: State, t: State, ms1: Metas, ms2: Metas, bs2: Bodies, first2: Addr, bigs2: seq<Addr>,
      ms3: Metas, ids: seq<nat>, rank: map<nat, nat>, plan: Plan, olds3: seq<OldChunk>, lays3: seq<seq<Block>>,
        bs4: Bodies)
    requires Finished(s, ms1, ms2, bs2, first2, bigs2, ms3, ids, rank, plan, olds3, lays3, bs4, t.metas, t.bodies)
    requires Settled(s, t, first2, bigs2, bs2, ids, rank, plan, olds3) && ForwardedValues(ms3, s.roots, t.roots)
    ensures Generational(t) <==> NoGap(ms1, s.bodies, MarkedSet(ms1))
    ensures MarkedSet(ms1) <= ms3.Keys && AgedBecomeOld(ms1, t, NewPlaces(ms3, MarkedSet(ms1))) &&
      RememberedList(t) == []
  {
    hide Prepared, Updated, MoveState, Settled, ForwardedValues, Isomorphic, NewPlaces, MarkedSet, Generational,
      RememberedList, NoGap, BigAddrs, SmallAddrs, Valid,
      ReachableSet, ClosedSet, MetasThen, Aged;
    var f := FullMap(s, t, ms1, ms2, bs2, first2, bigs2, ms3, ids, rank, plan, olds3, lays3, bs4);
    UpdateReady2(s, ms1, ms2, bs2, first2, bigs2, ms3, ids, rank, plan, olds3, lays3);
    NoneRememberedFull(s, t, first2, bigs2, bs2, ids, rank, plan, olds3, ms1, ms3, bs4);
    forall a | a in f ensures a in ms3 && f[a] in t.metas && (t.metas[f[a]].gen.Old? <==>
      Aged(ms3[a])) && a in ms1 && Aged(ms3[a]) == Aged(ms1[a]) {
      FullAges(s, t, ms1, ms2, bs2, first2, bigs2, ms3, ids, rank, plan, olds3, lays3, bs4, a);
    }
    GenerationalIffNoGap(s, t, ms3, f);
    ClosedWithoutRoots(s.bodies, s.roots, f.Keys, t, f);
    MarkedKeys(s, ms1, ms2, bs2, first2, bigs2, ms3, ids, rank, plan, olds3, lays3);
    NoGapSame(ms1, ms3, s.bodies, f.Keys);
    NewPlacesAre(ms3, MarkedSet(ms1));
    assert f == NewPlaces(ms3, MarkedSet(ms1));
  }

  lemma ClosedWithoutRoots(bs: Bodies, roots: seq<Value>, live: set<Addr>, t: State, f: map<Addr, Addr>)
    requires Isomorphic(bs, roots, t.bodies, t.roots, f) && live == f.Keys
    ensures ClosedSet(bs, [], live)
  {
  }

  lemma MarkedKeys(s: State, ms1: Metas, ms2: Metas, bs2: Bodies, first2: Addr, bigs2: seq<Addr>,
      ms3: Metas, ids: seq<nat>, rank: map<nat, nat>, plan: Plan, olds3: seq<OldChunk>, lays3: seq<seq<Block>>)
    requires Prepared(s, ms1, ms2, bs2, first2, bigs2, ms3, ids, rank, plan, olds3, lays3)
    ensures s.bodies.Keys <= ms1.Keys
  {
  }

  lemma FullMap(s: State, t: State, ms1: Metas, ms2: Metas, bs2: Bodies, first2: Addr, bigs2: seq<Addr>,
      ms3: Metas, ids: seq<nat>, rank: map<nat, nat>, plan: Plan, olds3: seq<OldChunk>, lays3: seq<seq<Block>>,
        bs4: Bodies)
      returns (f: map<Addr, Addr>)
    requires Finished(s, ms1, ms2, bs2, first2, bigs2, ms3, ids, rank, plan, olds3, lays3, bs4, t.metas, t.bodies)
    requires Settled(s, t, first2, bigs2, bs2, ids, rank, plan, olds3) && ForwardedValues(ms3, s.roots, t.roots)
    ensures f.Keys == MarkedSet(ms1) && MarkedSet(ms1) <= ms3.Keys && t.metas.Keys == t.bodies.Keys == f.Values
    ensures forall a {:trigger f[a]} :: a in f ==> f[a] == if ms3[a].mrk then ms3[a].ptr else a
    ensures Isomorphic(s.bodies, s.roots, t.bodies, t.roots, f) &&
      MoveState(ms3, bs4, s.free.id, plan.from, t.metas, t.bodies, BigAddrs(bigs2))
    ensures Prepared(s, ms1, ms2, bs2, first2, bigs2, ms3, ids, rank, plan, olds3, lays3)
  {
    hide Prepared, Updated, Settled, Isomorphic, MarkedSet, ForwardedValues, Valid;
    FullCollectionDone(s, t, ms1, ms2, bs2, first2, bigs2, ms3, ids, rank, plan, olds3, lays3, bs4);
    f := NewPlaces(ms3, MarkedSet(ms1));
  }

  // ----- Fast collection ----------------------------------------------------

  lemma FastAges(s: State, t: State, ms1: Metas, src: Metas, plan: Plan, ms6: Metas, bs6: Bodies, ms7: Metas,
      bs7: Bodies, full: bool, a: Addr)
    requires Copied(s, ms1, src, plan, ms6, bs6) && FastSettled(s, t, plan, ms6, ms7, bs7) && bs7.Keys == bs6.Keys
    requires AgedPlaces(src, s.free.id, AddrsOf(s.workLay), full) && !full && a in Kept1(s, ms1)
    ensures a in src && a in ms1 && Aged(src[a]) == Aged(ms1[a])
    ensures
      var d := if src[a].mrk then src[a].ptr else a;
      d in t.metas && (t.metas[d].gen.Old? <==> Aged(src[a]))
  {
    hide FastSettled, CopyState, Valid, YoungMarked, OldAddrs, AddrsOf, MarkedSet, OldSet;
    CopiedKeys(s, ms1, src, plan, ms6, bs6);
    SourceMetas(ms1, src, plan, AddrsOf(s.workLay));
    MarkedAreYoung(s, ms1);
    if a in OldSet(s.metas) {
      OldUnmarked(s, ms1, src, plan, ms6, bs6, a);
      OldMetaKept(s, t, ms1, src, plan, ms6, bs6, ms7, bs7, a);
      OldIsOld(s, ms1, a);
    } else {
      CopyOf(s, ms1, src, plan, ms6, bs6, a);
      CopyMeta(s, t, ms1, src, plan, ms6, bs6, ms7, bs7, src[a].ptr);
      YoungIsYoung(s, ms1, a);
      assert src[a].gen == ms1[a].gen;
    }
  }

  lemma OldIsOld(s: State, ms1: Metas, a: Addr)
    requires Valid(s) && YoungMarked(s, ms1) && a in OldSet(s.metas)
    ensures a in s.metas && a in ms1 && s.metas[a].gen.Old? && ms1[a].gen.Old?
  {
    hide Valid, YoungClosedSet, RememberedList;
    assert MarkedFrom(s.metas[a], ms1[a]);
  }

  lemma YoungIsYoung(s: State, ms1: Metas, a: Addr)
    requires Valid(s) && YoungMarked(s, ms1) && a in ms1 && a !in OldSet(s.metas)
    ensures ms1[a].gen.Young?
  {
    hide Valid, YoungClosedSet, RememberedList;
    assert MarkedFrom(s.metas[a], ms1[a]);
  }

  /** After a fast collection that could promote all aged survivors: no old object refers to
      a young one iff the marking left no gap. */
  lemma FastGenerational(s: State, t: State, ms1: Metas, src: Metas, plan: Plan, ms6: Metas, bs6: Bodies, ms7: Metas,
      bs7: Bodies, full: bool)
    requires Copied(s, ms1, src, plan, ms6, bs6) && FastSettled(s, t, plan, ms6, ms7, bs7) && bs7.Keys == bs6.Keys
    requires AgedPlaces(src, s.free.id, AddrsOf(s.workLay), full) && !full && Kept1(s, ms1) <= src.Keys
    requires YoungPreserved(s, t, NewPlaces(src, Kept1(s, ms1))) && RememberedList(t) == []
    ensures Generational(t) <==> NoGap(ms1, s.bodies, Kept1(s, ms1))
    ensures AgedBecomeOld(ms1, t, NewPlaces(src, Kept1(s, ms1)))
  {
    hide Copied, FastSettled, Isomorphic, Generational, RememberedList, NoGap, Aged, MarkedSet, OldSet, AgedPlaces,
      AddrsOf, NewPlaces, AgedBecomeOld;
    var f := NewPlaces(src, Kept1(s, ms1));
    NewPlacesAre(src, Kept1(s, ms1));
    KeysLeftIn(s, t, ms1, src, plan, ms6, bs6, ms7, bs7);
    SurvivorsAged(s, t, ms1, src, plan, ms6, bs6, ms7, bs7, full);
    GenerationalIffNoGap(s, t, src, f);
    ClosedWithoutRoots(s.bodies, s.roots, f.Keys, t, f);
    NoGapSame(ms1, src, s.bodies, f.Keys);
  }

  /** What has been promoted is what was aged, by the marks as well as by the metas of the originals. */
  lemma SurvivorsAged(s: State, t: State, ms1: Metas, src: Metas, plan: Plan, ms6: Metas, bs6: Bodies, ms7: Metas,
      bs7: Bodies, full: bool)
    requires Copied(s, ms1, src, plan, ms6, bs6) && FastSettled(s, t, plan, ms6, ms7, bs7) && bs7.Keys == bs6.Keys
    requires AgedPlaces(src, s.free.id, AddrsOf(s.workLay), full) && !full && Kept1(s, ms1) <= src.Keys
    ensures AgedBecomeOld(src, t, NewPlaces(src, Kept1(s, ms1)))
    ensures AgedBecomeOld(ms1, t, NewPlaces(src, Kept1(s, ms1)))
    ensures s.bodies.Keys <= ms1.Keys
    ensures forall a {:trigger src[a]} :: a in Kept1(s, ms1) ==> a in ms1 && Aged(src[a]) == Aged(ms1[a])
  {
    hide FastSettled, CopyState, Valid, YoungMarked, Aged, MarkedSet, OldSet, AgedPlaces, AddrsOf, NewPlaces, Kept1;
    var f := NewPlaces(src, Kept1(s, ms1));
    NewPlacesAre(src, Kept1(s, ms1));
    CopiedKeys(s, ms1, src, plan, ms6, bs6);
    MarkedAreYoung(s, ms1);
    forall a | a in f
      ensures a in src && f[a] in t.metas && (t.metas[f[a]].gen.Old? <==> Aged(src[a]))
      ensures a in ms1 && Aged(src[a]) == Aged(ms1[a])
    {
      FastAges(s, t, ms1, src, plan, ms6, bs6, ms7, bs7, full, a);
    }
  }

  lemma NewPlacesAre(ms: Metas, marked: set<Addr>)
    requires marked <= ms.Keys
    ensures NewPlaces(ms, marked).Keys == marked
    ensures forall a {:trigger NewPlaces(ms, marked)[a]} ::
      a in marked ==> NewPlaces(ms, marked)[a] == if ms[a].mrk then ms[a].ptr else a
  {
  }

  // ----- Ageing -------------------------------------------------------------

  /** Every object of new space has survived a collection. */
  ghost predicate AllMid(s: State)
  {
    forall j {:trigger s.workLay[j]} ::
      0 <= j < |s.workLay| ==> s.workLay[j].at in s.metas && s.metas[s.workLay[j].at].mid
  }

  /** What is in new space after a full collection has MID, and nothing is if everything
      had MID before: two collections in a row promote whatever is still alive. */
  lemma FullAgeing(s: State, t: State, ms1: Metas, ms2: Metas, bs2: Bodies, first2: Addr, bigs2: seq<Addr>,
      ms3: Metas, ids: seq<nat>, rank: map<nat, nat>, plan: Plan, olds3: seq<OldChunk>, lays3: seq<seq<Block>>,
        bs4: Bodies)
    requires Finished(s, ms1, ms2, bs2, first2, bigs2, ms3, ids, rank, plan, olds3, lays3, bs4, t.metas, t.bodies) &&
      t.workLay == plan.toLay
    ensures AllMid(t) && (AllMid(s) ==> t.workLay == [])
  {
    hide Updated, ValidGraph, SlidDown, InPlace, OldsStored, ChunksTiled, Prepared, MoveState, Redirections, AddrsOf,
      OldAddrs, BigAddrs, AllMid,
      ValidStorage, ValidFlags, AllRelocated, AllPromoted, OnlyMarks, SmallAddrs;
    MoveReadyParts(s, ms1, ms2, bs2, first2, bigs2, ms3, ids, rank, plan, olds3, lays3, bs4);
    UpdateReady2(s, ms1, ms2, bs2, first2, bigs2, ms3, ids, rank, plan, olds3, lays3);
    ReplannedOf(s, ms1, ms2, bs2, first2, bigs2, ms3, ids, rank, plan, olds3, lays3);
    TiledParts(s, ms2, bs2, ms3, ids, rank, plan, olds3, lays3);
    ArrivedMid(s, t, ms3, bs4, plan, BigAddrs(bigs2));
    NothingYoungLeft(s, t, ms1, ms3, bs2, rank, plan, OldAddrs(lays3), bigs2);
  }

  lemma ReplannedOf(s: State, ms1: Metas, ms2: Metas, bs2: Bodies, first2: Addr, bigs2: seq<Addr>,
      ms3: Metas, ids: seq<nat>, rank: map<nat, nat>, plan: Plan, olds3: seq<OldChunk>, lays3: seq<seq<Block>>)
    requires Prepared(s, ms1, ms2, bs2, first2, bigs2, ms3, ids, rank, plan, olds3, lays3)
    ensures Replanned(s, ms2, bs2, ms3, ids, rank, plan, olds3, lays3)
  {
  }

  lemma TiledParts(s: State, ms2: Metas, bs2: Bodies, ms3: Metas, ids: seq<nat>, rank: map<nat, nat>, plan: Plan,
      olds3: seq<OldChunk>, lays3: seq<seq<Block>>)
    requires Replanned(s, ms2, bs2, ms3, ids, rank, plan, olds3, lays3)
    ensures AllAssigned(ms3, bs2, plan.from, plan.toLay)
    ensures forall j {:trigger plan.toLay[j]} :: 0 <= j < |plan.toLay| ==> plan.toLay[j].at.chunk == s.free.id
  {
    hide SlidDown, InPlace, AllPromoted, OldsStored, ChunksTiled, Redirections;
    ReplannedParts(s, ms2, bs2, ms3, ids, rank, plan, olds3, lays3);
  }

  lemma ArrivedMid(s: State, t: State, ms3: Metas, bs4: Bodies, plan: Plan, big: set<Addr>)
    requires MoveState(ms3, bs4, s.free.id, plan.from, t.metas, t.bodies, big) && t.workLay == plan.toLay &&
      SmallAddrs(s) !! big
    requires forall d {:trigger plan.from[d]} :: d in plan.from ==> plan.from[d] in SmallAddrs(s)
    requires forall j {:trigger plan.toLay[j]} ::
      0 <= j < |plan.toLay| ==> plan.toLay[j].at.chunk == s.free.id && plan.toLay[j].at in plan.from
    ensures AllMid(t)
  {
    hide SmallAddrs;
    forall j | 0 <= j < |t.workLay| ensures t.workLay[j].at in t.metas && t.metas[t.workLay[j].at].mid {
      var d := plan.toLay[j].at;
      assert plan.from[d] in SmallAddrs(s);
      assert Arrived(bs4, s.free.id, plan.from, t.metas, t.bodies, d);
    }
  }

  /** Storage in to-space is for objects without MID only. */
  lemma NothingYoungLeft(s: State, t: State, ms1: Metas, ms3: Metas, bs2: Bodies, rank: map<nat, nat>, plan: Plan,
      olds: set<Addr>, bigs2: seq<Addr>)
    requires OnlyMarks(s.metas, ms1) && MetasThen(s, ms1, ms3, bigs2)
    requires AllPromoted(ms3, s.free.id, AddrsOf(s.workLay)) && SlidDown(ms3, rank, olds) &&
      olds == OldAddrs(s.oldLay) && s.free.id !in rank
    requires forall d {:trigger plan.from[d]} :: d in plan.from ==> plan.from[d] in SmallAddrs(s)
    requires AllAssigned(ms3, bs2, plan.from, plan.toLay)
    requires forall j {:trigger plan.toLay[j]} :: 0 <= j < |plan.toLay| ==> plan.toLay[j].at.chunk == s.free.id
    ensures AllMid(s) ==> plan.toLay == []
  {
    hide AddrsOf, OldAddrs, AllMid;
    forall j | 0 <= j < |plan.toLay| ensures FromYoung(s, ms1, plan, plan.toLay[j]) {
      assert Assigned(ms3, bs2, plan.from, plan.toLay[j]);
      var a := plan.from[plan.toLay[j].at];
      OldNotTo(s.free.id, ms3, rank, olds, a);
      assert a in AddrsOf(s.workLay) ==> Promoted(ms3[a], s.free.id);
    }
    NoneYoung(s, ms1, plan);
  }

  lemma OldNotTo(toId: nat, ms: Metas, rank: map<nat, nat>, olds: set<Addr>, a: Addr)
    requires SlidDown(ms, rank, olds) && toId !in rank && a in ms && ms[a].mrk
    ensures a in olds ==> ms[a].ptr.chunk != toId
  {
    assert a in olds ==> NotAhead(rank, a, ms[a].ptr);
  }

  /** The block is meant for an object of new space that the marking left without MID. */
  predicate FromYoung(s: State, ms1: Metas, plan: Plan, b: Block)
  {
    b.at in plan.from && plan.from[b.at] in AddrsOf(s.workLay) && plan.from[b.at] in ms1 && !ms1[plan.from[b.at]].mid
  }

  lemma NoneYoung(s: State, ms1: Metas, plan: Plan)
    requires OnlyMarks(s.metas, ms1) && forall j {:trigger plan.toLay[j]} ::
      0 <= j < |plan.toLay| ==> FromYoung(s, ms1, plan, plan.toLay[j])
    ensures AllMid(s) ==> plan.toLay == []
  {
    hide AllMid, AddrsOf, OnlyMarks;
    if plan.toLay != [] {
      assert FromYoung(s, ms1, plan, plan.toLay[0]);
      NotAllMid(s, ms1, plan.from[plan.toLay[0].at]);
    }
  }

  lemma NotAllMid(s: State, ms1: Metas, a: Addr)
    requires OnlyMarks(s.metas, ms1) && a in AddrsOf(s.workLay) && a in ms1 && !ms1[a].mid
    ensures !AllMid(s)
  {
    var j :| 0 <= j < |s.workLay| && s.workLay[j].at == a;
    assert a in s.metas ==> MarkedFrom(s.metas[a], ms1[a]);
  }

  /** The same for a fast collection, as long as old space has room. */
  lemma FastAgeing(s: State, t: State, ms1: Metas, src: Metas, plan: Plan, ms6: Metas, bs6: Bodies, ms7: Metas,
      bs7: Bodies, full: bool)
    requires Copied(s, ms1, src, plan, ms6, bs6) && FastSettled(s, t, plan, ms6, ms7, bs7) && bs7.Keys == bs6.Keys
    requires AgedPlaces(src, s.free.id, AddrsOf(s.workLay), full)
    ensures AllMid(t) && (AllMid(s) && !full ==> t.workLay == [])
  {
    hide CopyState, Valid, YoungMarked, TagsCleared, Grown, GrownLay, InRegion, AllMid, AgedPlaces, Redirections;
    CopiedLayout(s, ms1, src, plan, ms6, bs6);
    CopiedKeys(s, ms1, src, plan, ms6, bs6);
    CopiesMid(s, t, ms1, src, plan, ms6, bs6, ms7, bs7);
    if !full { NothingLeftYoung(s, ms1, src, plan, ms6, bs6); }
  }

  lemma CopiesMid(s: State, t: State, ms1: Metas, src: Metas, plan: Plan, ms6: Metas, bs6: Bodies, ms7: Metas,
      bs7: Bodies)
    requires Copied(s, ms1, src, plan, ms6, bs6) && FastSettled(s, t, plan, ms6, ms7, bs7) && bs7.Keys == bs6.Keys
    requires CopyTiled(TargetOf(s), plan) && AddrsOf(plan.toLay) <= plan.from.Keys
    ensures AllMid(t)
  {
    hide Copied, TagsCleared, Grown, GrownLay, InRegion;
    forall j | 0 <= j < |t.workLay| ensures t.workLay[j].at in t.metas && t.metas[t.workLay[j].at].mid {
      var d := plan.toLay[j].at;
      assert d in AddrsOf(plan.toLay);
      CopyMeta(s, t, ms1, src, plan, ms6, bs6, ms7, bs7, d);
    }
  }

  lemma NothingLeftYoung(s: State, ms1: Metas, src: Metas, plan: Plan, ms6: Metas, bs6: Bodies)
    requires Copied(s, ms1, src, plan, ms6, bs6) && AgedPlaces(src, s.free.id, AddrsOf(s.workLay), false)
    ensures AllMid(s) ==> plan.toLay == []
  {
    hide Valid, CopyState, YoungClosedSet, RememberedList, AllMid;
    CopiedKeys(s, ms1, src, plan, ms6, bs6);
    SourceMetas(ms1, src, plan, AddrsOf(s.workLay));
    MarkedAreYoung(s, ms1);
    forall j | 0 <= j < |plan.toLay| ensures FromYoung(s, ms1, plan, plan.toLay[j]) {
      assert Assigned(src, s.bodies, plan.from, plan.toLay[j]);
      var a := plan.from[plan.toLay[j].at];
      CopySource(s, ms1, src, plan, ms6, bs6, plan.toLay[j].at);
      assert src[a].mid == ms1[a].mid;
    }
    NoneYoung(s, ms1, plan);
  }

  // ----- In terms of the state before the collection ------------------------

  /** The metas of `s` after the marking of a full collection. */
  ghost function FullMarks(s: State): Metas
    requires Valid(s)
  {
    MarkReady(s);
    VisitAll(s.metas, s.bodies, s.roots, Rec)
  }

  /** The metas of `s` after the marking of a fast collection. */
  ghost function FastMarks(s: State): Metas
    requires Valid(s)
  {
    MarkReady(s); FastReady(s);
    MarkYoung(s.metas, s.bodies, s.roots, RememberedList(s))
  }

  lemma FastMarksDone(s: State)
    requires Valid(s)
    ensures YoungMarked(s, FastMarks(s)) && FastMarks(s).Keys == s.bodies.Keys
  {
    FastReady(s); MarkReady(s);
    YoungMarkingDone(s, FastMarks(s));
  }

  /** Class objects have not moved. */
  lemma ClassRootsStay(s: State, t: State)
    requires ValidGraph(s) && ValidGraph(t) && t.classes == s.classes
    requires forall j {:trigger t.oldLay[0][j]} :: 0 <= j < s.classes ==> t.oldLay[0][j] == s.oldLay[0][j]
    ensures s.classes <= |s.roots| && s.classes <= |t.roots| && t.roots[..s.classes] == s.roots[..s.classes]
  {
    forall j | 0 <= j < s.classes ensures t.roots[j] == s.roots[j] {
      assert t.oldLay[0][j] == s.oldLay[0][j];
    }
  }

  ghost predicate ClassesKept(s: State, t: State)
  {
    t.classes == s.classes <= |s.roots| && s.classes <= |t.roots| && t.roots[..s.classes] == s.roots[..s.classes]
  }

  lemma FullClassesKept(s: State, t: State, ms1: Metas, ms2: Metas, bs2: Bodies, first2: Addr, bigs2: seq<Addr>,
      ms3: Metas, ids: seq<nat>, rank: map<nat, nat>, plan: Plan, olds3: seq<OldChunk>, lays3: seq<seq<Block>>,
        bs4: Bodies)
    requires Prepared(s, ms1, ms2, bs2, first2, bigs2, ms3, ids, rank, plan, olds3, lays3) &&
      Updated(ms3, bs2, bs4, ms3.Keys)
    requires Valid(t) && t.oldLay == plan.oldLay && t.classes == s.classes
    ensures ClassesKept(s, t)
  {
    hide Updated, Prepared, ValidStorage, ValidFlags, ValidGraph;
    ClassesFixed(s, ms1, ms2, bs2, first2, bigs2, ms3, ids, rank, plan, olds3, lays3, bs4);
    PreparedFacts(s, ms1, ms2, bs2, first2, bigs2, ms3, ids, rank, plan, olds3, lays3);
    ClassRootsStay(s, t);
  }

  lemma FastClassesKept(s: State, t: State, plan: Plan, ms6: Metas, ms7: Metas, bs7: Bodies)
    requires Valid(s) && Valid(t) && FastSettled(s, t, plan, ms6, ms7, bs7)
    ensures ClassesKept(s, t)
  {
    hide ValidStorage, ValidFlags, Closed, AllSized, TagsCleared, InRegion, Grown;
    ClassRootsStay(s, t);
  }

  lemma SameClasses(s: State)
    requires Valid(s)
    ensures ClassesKept(s, s)
  {
    hide ValidStorage, ValidFlags, Closed, AllSized;
  }
}
