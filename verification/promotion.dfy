/** Which survivors a collection leaves young: those that the program holds on to through young objects. */
module Promotion {
  import opened ObjectHeap
  import opened Layout
  import opened Marking
  import opened Spaces
  import opened BigSpace
  import opened Invariant
  import opened Outcome
  import opened RememberedObjects
  import opened FastCollection
  import opened FastOutcome
  import opened Generations
  import opened Mutator
  import opened YoungPaths
  import opened Gaps

  /** The object at `a` is at the end of a path of young objects without MID that begins at a root. */
  ghost predicate Held(s: State, a: Addr)
  {
    PlainlyReached(s.metas, s.bodies, s.roots, a)
  }

  /** No such path leads to a young object with MID. */
  ghost predicate NoneCrossed(s: State)
  {
    Uncrossed(s.metas, s.bodies, s.roots)
  }

  ghost predicate NoYoungMid(ms: Metas)
  {
    forall a {:trigger ms[a]} :: a in ms && ms[a].gen.Young? ==> !ms[a].mid
  }

  lemma NoYoungMidUncrossed(s: State)
    requires NoYoungMid(s.metas)
    ensures NoneCrossed(s)
  {
    hide PlainlyReached;
    assert forall a :: a in s.metas && s.metas[a].gen.Young? ==> !s.metas[a].mid;
  }

  /** The marked objects that have no MID are held, and the held ones are marked and have none unless
      a path is crossed. */
  ghost predicate HeldArePlain(s: State, ms: Metas)
  {
    forall a {:trigger ms[a]} :: a in ms && a in s.bodies ==>
      (ms[a].mrk && Plain(ms[a]) ==> Held(s, a)) &&
      (Held(s, a) ==> ms[a].mrk && (NoneCrossed(s) ==> Plain(ms[a])))
  }

  lemma FastHeld(s: State)
    requires Valid(s)
    ensures HeldArePlain(s, FastMarks(s))
  {
    hide Valid, MarkYoung, PlainlyReached, Uncrossed, RememberedList, Closed, ValuesIn;
    MarkReady(s); FastReady(s);
    NoneMarked(s);
    forall a | a in s.bodies
      ensures FastMarks(s)[a].mrk && Plain(FastMarks(s)[a]) ==> Held(s, a)
      ensures Held(s, a) ==> FastMarks(s)[a].mrk && (NoneCrossed(s) ==> Plain(FastMarks(s)[a]))
    {
      FastLeavesPlain(s.metas, s.bodies, s.roots, RememberedList(s), a);
    }
  }

  /** A young survivor stays young only if it is held; and if no path is crossed, exactly if it is,
      whether or not remembered objects refer to it as well. */
  ghost predicate HeldStayYoung(s: State, t: State, f: map<Addr, Addr>)
  {
    forall a {:trigger f[a]} :: a in f && a in s.metas && s.metas[a].gen.Young? && f[a] in t.metas ==>
      (t.metas[f[a]].gen.Young? ==> Held(s, a)) && (NoneCrossed(s) && Held(s, a) ==> t.metas[f[a]].gen.Young?)
  }

  lemma FastStaysYoung(s: State, t: State, f: map<Addr, Addr>)
    requires Valid(s) && AgedBecomeOld(FastMarks(s), t, f) && f.Keys == Kept1(s, FastMarks(s))
    ensures HeldStayYoung(s, t, f)
  {
    hide Valid, FastMarks, Held, NoneCrossed;
    MarkReady(s);
    FastMarksDone(s);
    FastHeld(s);
    forall a | a in f && s.metas[a].gen.Young? && f[a] in t.metas
      ensures t.metas[f[a]].gen.Young? ==> Held(s, a)
      ensures NoneCrossed(s) && Held(s, a) ==> t.metas[f[a]].gen.Young?
    {
      YoungBefore(s, FastMarks(s), a);
      assert FastMarks(s)[a] == FastMarks(s)[a];
    }
  }

  lemma YoungBefore(s: State, ms: Metas, a: Addr)
    requires YoungMarked(s, ms) && a in Kept1(s, ms) && a in s.metas && s.metas[a].gen.Young?
    ensures a in ms && ms[a].mrk && ms[a].gen.Young?
  {
    hide YoungClosedSet, RememberedList;
    assert a in MarkedSet(ms) && MarkedFrom(s.metas[a], ms[a]);
  }

  // ----- The full collection ------------------------------------------------

  lemma ClassesAreOld(s: State)
    requires Valid(s)
    ensures ClassesNotPlain(s.metas, s.bodies)
  {
    OldObjects(s);
    hide ValidStorage, ValidFlags, Closed, AllSized;
    forall a | a in s.bodies ensures ClassNotPlain(s.metas, s.bodies[a]) {
      assert ClassInPrefix(s.bodies[a], s.oldLay[0], s.classes);
      var j :| 0 <= j < s.classes && j < |s.oldLay[0]| && s.oldLay[0][j].at == s.bodies[a].cls;
      assert s.bodies[a].cls in OldAddrs(s.oldLay);
      assert s.bodies[a].cls in OldSet(s.metas);
    }
  }

  /** What a full collection leaves young has been held, too. */
  ghost predicate YoungWereHeld(s: State, t: State, f: map<Addr, Addr>)
  {
    forall a {:trigger f[a]} :: a in f && f[a] in t.metas && t.metas[f[a]].gen.Young? ==> Held(s, a)
  }

  lemma FullStaysYoung(s: State, t: State, f: map<Addr, Addr>)
    requires Valid(s) && AgedBecomeOld(FullMarks(s), t, f) && HeapPreserved(s, t, f)
    ensures YoungWereHeld(s, t, f)
  {
    hide Valid, VisitAll, PlainlyReached, Closed, ValuesIn, ReachableSet, ClassesNotPlain, Isomorphic;
    MarkReady(s);
    NoneMarked(s);
    ClassesAreOld(s);
    ReachedMarkedFull(s, f.Keys);
    forall a | a in f && f[a] in t.metas && t.metas[f[a]].gen.Young? ensures Held(s, a) {
      assert a in MarkedSet(FullMarks(s));
      FullLeavesPlain(s.metas, s.bodies, s.roots, a);
    }
  }

  lemma ReachedMarkedFull(s: State, live: set<Addr>)
    requires Valid(s) && ReachableSet(s.bodies, s.roots, live)
    ensures live <= MarkedSet(FullMarks(s)) && live <= s.bodies.Keys
  {
    hide Valid, VisitAll, Closed, ValuesIn;
    MarkReady(s);
    NoneMarked(s);
    ClassesRootedNow(s);
    FullMarkIsReachable(s.metas, s.bodies, s.roots);
  }

  lemma ClassesRootedNow(s: State)
    requires Valid(s)
    ensures ClassesRooted(s.bodies, s.roots)
  {
    ClassesAreRooted(s);
  }

  // ----- An object that a root and a remembered object refer to -------------

  const HOLDER := Addr(3, 40)
  const BOTH := Addr(1, 0)

  /** `HOLDER` is old, is remembered and refers to `BOTH`, which is young; so does a root. */
  function SharedState(): State
  {
    State(
      map[CLASS_AT := Meta(Old, false, false, Addr(3, 0), false), HOLDER := Meta(Old, false, false, Addr(3, 0), false),
          BOTH := Meta(Young, false, false, NULL, false)],
      map[CLASS_AT := Body(CLASS_AT, 1, [SmallInt(0)], ClassInfo(1, false)),
        HOLDER := Body(CLASS_AT, 1, [Ref(BOTH)], Native(0)), BOTH := Body(CLASS_AT, 1, [SmallInt(0)], Native(0))],
      Chunk(1, 24), Chunk(2, 0), [OldChunk(3, 64, 0, Offsets([40]))], NULL, 0, [Ref(CLASS_AT), Ref(BOTH)], 3,
      [Block(BOTH, 24)], [[Block(CLASS_AT, 24), Block(HOLDER, 24)]], [], 1)
  }

  lemma SharedAddresses()
    ensures AddrsOf([Block(BOTH, 24)]) == {BOTH} &&
      AddrsOf([Block(CLASS_AT, 24), Block(HOLDER, 24)]) == {CLASS_AT, HOLDER} &&
      OldAddrs([[Block(CLASS_AT, 24), Block(HOLDER, 24)]]) == {CLASS_AT, HOLDER} && BigAddrs([]) == {}
  {
    var lay: seq<Block> := [Block(BOTH, 24)];
    var lays: seq<seq<Block>> := [[Block(CLASS_AT, 24), Block(HOLDER, 24)]];
    assert lay[0].at == BOTH && lays[0][0].at == CLASS_AT && lays[0][1].at == HOLDER;
  }

  lemma SharedSpaces()
    ensures WorkingStored(SharedState().bodies, SharedState().working, SharedState().workLay)
    ensures OldsStored(SharedState().bodies, SharedState().olds, SharedState().oldLay)
  {
    var s := SharedState();
    assert Tiled(1, 0, s.workLay) && Tiled(3, META_SIZE, s.oldLay[0]);
    assert Stored(s.bodies, 3, META_SIZE, 64, OLD_END, s.oldLay[0]);
  }

  lemma SharedStored()
    ensures ValidStorage(SharedState())
  {
    hide WorkingStored, OldsStored, AddrsOf, OldAddrs, BigAddrs;
    SharedAddresses();
    SharedSpaces();
    assert SharedState().bodies.Keys == {BOTH, CLASS_AT, HOLDER};
    assert RememberedStored(SharedState().olds[0], SharedState().oldLay[0]);
  }

  lemma SharedValid()
    ensures Valid(SharedState())
  {
    hide ValidStorage;
    SharedStored();
    assert OldFlags(SharedState().metas, 3, SharedState().oldLay[0]);
    OneClassGraph(SharedState());
  }

  lemma SharedRemembered()
    ensures RememberedList(SharedState()) == [HOLDER]
  {
    var s := SharedState();
    assert s.olds[..0] == [] && InOldSpace(s.olds[..0]) == [] &&
      InOldSpace(s.olds) == InOldSpace(s.olds[..0]) + InChunk(s.olds[0]);
  }

  /** The root is visited first: the object gets no MID, stays young, and that leaves a gap although
      the reference to it is remembered and no young object has MID. */
  lemma SharedExample()
    ensures Valid(SharedState()) && Generational(SharedState()) && NoYoungMid(SharedState().metas)
    ensures FastMarks(SharedState())[BOTH] == Meta(Young, false, true, NULL, false)
    ensures !NoGap(FastMarks(SharedState()), SharedState().bodies, Kept1(SharedState(), FastMarks(SharedState())))
  {
    hide Valid, MarkYoung, RememberedList, PlainlyReached;
    var s := SharedState();
    SharedValid();
    SharedRemembered();
    MarkReady(s);
    FastMarksDone(s);
    FastHeld(s);
    NoYoungMidUncrossed(s);
    FromRoot(s.metas, s.bodies, s.roots, BOTH);
    var r := FastMarks(s);
    assert MarkedFrom(s.metas[BOTH], r[BOTH]) && MarkedFrom(s.metas[HOLDER], r[HOLDER]);
    assert HOLDER in Kept1(s, r) && Aged(r[HOLDER]);
    assert Ref(BOTH) in s.bodies[HOLDER].fields && !Aged(r[BOTH]);
    assert !OnlyAged(r, s.bodies[HOLDER]);
  }

  // ----- Two orders of the same roots ---------------------------------------

  /** The heap of `GapState`, with the survivor of an earlier collection before the object it refers to. */
  function SwappedState(): State
  {
    GapState().(roots := [Ref(CLASS_AT), Ref(EARLY), Ref(LATE)])
  }

  /** The roots are visited in their order: first `e`, which has MID and refers to `l`. */
  lemma {:induction false} SwappedVisits(ms: Metas, bs: Bodies, c: Addr, l: Addr, e: Addr)
    requires ms.Keys == bs.Keys && Closed(bs) && c in ms && l in ms && e in ms && l != e
    requires ms[c].gen.Old? && ms[l].gen.Young? && ms[e].gen.Young? && ms[e].mid && !ms[l].mrk && !ms[e].mrk
    requires bs[l].fields == [SmallInt(0)] && bs[e].fields == [Ref(l)]
    ensures ValuesIn([Ref(c), Ref(e), Ref(l)], bs.Keys)
    ensures VisitAll(ms, bs, [Ref(c), Ref(e), Ref(l)], RecY) ==
      ms[e := ms[e].(mrk := true)][l := ms[l].(mrk := true, mid := true)]
  {
    hide Closed, VisitAll;
    var vs := [Ref(c), Ref(e), Ref(l)];
    VisitSkip(ms, bs, vs, RecY);
    var rest := vs[1..];
    assert rest == [Ref(e), Ref(l)] && rest[1..] == [Ref(l)];
    var ms1, ms2, fm := VisitUnfold(ms, bs, rest, RecY);
    VisitLeaf(ms1, bs, l, O2Y);
    VisitLeaf(ms2, bs, l, RecY);
  }

  lemma OrderExample()
    ensures Valid(GapState()) && Valid(SwappedState())
    ensures Held(GapState(), LATE) && FastMarks(GapState())[LATE] == Meta(Young, false, true, NULL, false)
    ensures Held(SwappedState(), LATE) && FastMarks(SwappedState())[LATE] == Meta(Young, true, true, NULL, false)
  {
    hide Valid, VisitAll, Closed, ValuesIn, PlainlyReached;
    var s, t := GapState(), SwappedState();
    GapExample();
    GapMarks();
    SwappedValid();
    MarkReady(s);
    FromRoot(s.metas, s.bodies, s.roots, LATE);
    FromRoot(t.metas, t.bodies, t.roots, LATE);
    NothingRemembered(t);
    SwappedVisits(t.metas, t.bodies, CLASS_AT, LATE, EARLY);
  }

  lemma SwappedValid()
    requires Valid(GapState())
    ensures Valid(SwappedState())
  {
    hide Valid, RememberedList, Generational;
    var s := GapState();
    MarkReady(s);
    RootsSet(s, SwappedState().roots);
  }
}
