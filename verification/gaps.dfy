/** When the marking leaves no gap, and a heap for which it does leave one. */
module Gaps {
  import opened ObjectHeap
  import opened Layout
  import opened Marking
  import opened Spaces
  import opened Invariant
  import opened FullCollection
  import opened Outcome
  import opened RememberedObjects
  import opened FastCollection
  import opened FastOutcome
  import opened Generations
  import opened Mutator

  // ----- A condition on the heap before the collection ----------------------

  /** References to old objects and to those of `promoted` only. */
  ghost predicate AgedOnly(ms: Metas, vs: seq<Value>, promoted: set<Addr>)
  {
    forall v :: v in vs && v.Ref? && v.at in ms ==> ms[v.at].gen.Old? || v.at in promoted
  }

  /** Whatever of `promoted` is referred to has survived a collection before. */
  ghost predicate PlainOnly(ms: Metas, vs: seq<Value>, promoted: set<Addr>)
  {
    forall v :: v in vs && v.Ref? && v.at in ms && v.at in promoted ==> Aged(ms[v.at])
  }

  ghost predicate SeparatedAt(ms: Metas, a: Addr, b: Body, promoted: set<Addr>)
    requires a in ms
  {
    (b.cls in ms ==> ms[b.cls].gen.Old?) &&
    if Aged(ms[a]) || a in promoted then AgedOnly(ms, b.fields, promoted) else PlainOnly(ms, b.fields, promoted)
  }

  /** The young objects that old ones and survivors of an earlier collection refer to,
      directly or not, are kept apart: all other objects, and the roots, refer only to those
      of them that have survived a collection already. */
  ghost predicate Separated(ms: Metas, bs: Bodies, roots: seq<Value>, promoted: set<Addr>)
  {
    PlainOnly(ms, roots, promoted) &&
    forall a {:trigger SeparatedAt(ms, a, bs[a], promoted)} ::
      a in bs && a in ms ==> SeparatedAt(ms, a, bs[a], promoted)
  }

  /** Marked objects of `promoted` have MID, and nothing else has got it. */
  ghost predicate KeptApart(ms0: Metas, ms: Metas, promoted: set<Addr>)
  {
    OnlyMarks(ms0, ms) &&
    forall a {:trigger ms[a]} :: a in ms && a in ms0 ==>
      (a in promoted && ms[a].mrk ==> Aged(ms[a])) && (Aged(ms[a]) ==> Aged(ms0[a]) || a in promoted)
  }

  lemma MarkKeepsApart(ms0: Metas, ms: Metas, promoted: set<Addr>, a: Addr, mode: Mode)
    requires KeptApart(ms0, ms, promoted) && a in ms && a in ms0 && !ms[a].mrk
    requires if FromOld(mode) then ms0[a].gen.Old? || a in promoted else a in promoted ==> Aged(ms0[a])
    ensures KeptApart(ms0, ms[a := SetMark(ms[a], mode)], promoted)
  {
    assert MarkedFrom(ms0[a], ms[a]);
  }

  /** A visit keeps them apart. */
  lemma {:induction false} VisitKeepsApart(ms0: Metas, ms: Metas, bs: Bodies, vs: seq<Value>, mode: Mode,
      roots: seq<Value>, promoted: set<Addr>)
    requires ms.Keys == ms0.Keys == bs.Keys && Closed(bs) && ValuesIn(vs, bs.Keys)
    requires Separated(ms0, bs, roots, promoted) && KeptApart(ms0, ms, promoted)
    requires if FromOld(mode) then AgedOnly(ms0, vs, promoted) else PlainOnly(ms0, vs, promoted)
    ensures KeptApart(ms0, VisitAll(ms, bs, vs, mode), promoted)
    decreases |Unmarked(ms)|, |vs|
  {
    hide VisitAll, KeptApart, Closed;
    VisitSkip(ms, bs, vs, mode);
    if vs == [] {
    } else if vs[0].SmallInt? || Skips(ms[vs[0].at], mode) {
      VisitKeepsApart(ms0, ms, bs, vs[1..], mode, roots, promoted);
    } else {
      var a := vs[0].at;
      var ms1, ms2, fm := VisitUnfold(ms, bs, vs, mode);
      assert vs[0] in vs;
      MarkKeepsApart(ms0, ms, promoted, a, mode);
      ChildrenApart(ms0, ms, bs, roots, promoted, a, mode);
      VisitKeepsApart(ms0, ms1, bs, Children(bs[a], fm), fm, roots, promoted);
      VisitKeepsApart(ms0, ms2, bs, vs[1..], mode, roots, promoted);
    }
  }

  lemma ChildrenApart(ms0: Metas, ms: Metas, bs: Bodies, roots: seq<Value>, promoted: set<Addr>, a: Addr, mode: Mode)
    requires ms.Keys == ms0.Keys == bs.Keys && Separated(ms0, bs, roots, promoted) && KeptApart(ms0, ms, promoted) &&
      a in bs && !Skips(ms[a], mode)
    requires if FromOld(mode) then ms0[a].gen.Old? || a in promoted else a in promoted ==> Aged(ms0[a])
    ensures
      var fm := FieldMode(ms[a], mode);
      if FromOld(fm) then AgedOnly(ms0, Children(bs[a], fm), promoted)
        else PlainOnly(ms0, Children(bs[a], fm), promoted)
  {
    assert SeparatedAt(ms0, a, bs[a], promoted);
    assert MarkedFrom(ms0[a], ms[a]);
  }

  lemma {:induction false} RememberedKeepsApart(ms0: Metas, ms: Metas, bs: Bodies, rem: seq<Addr>, roots: seq<Value>,
      promoted: set<Addr>)
    requires ms.Keys == ms0.Keys == bs.Keys && Closed(bs) && ListIn(rem, bs.Keys) && ListIn(rem, OldSet(ms0))
    requires Separated(ms0, bs, roots, promoted) && KeptApart(ms0, ms, promoted)
    ensures KeptApart(ms0, MarkRemembered(ms, bs, rem), promoted)
    decreases |rem|
  {
    hide VisitAll, KeptApart;
    if rem != [] {
      var a := rem[0];
      assert a in rem && BodyIn(bs[a], bs.Keys) && SeparatedAt(ms0, a, bs[a], promoted);
      VisitKeepsApart(ms0, ms, bs, bs[a].fields, O2Y, roots, promoted);
      forall x | x in rem[1..] ensures x in bs.Keys && x in OldSet(ms0) { assert x in rem; }
      RememberedKeepsApart(ms0, VisitAll(ms, bs, bs[a].fields, O2Y), bs, rem[1..], roots, promoted);
    }
  }

  /** A separated heap has no gap after the marking. */
  lemma ApartIsNoGap(ms0: Metas, r: Metas, bs: Bodies, roots: seq<Value>, promoted: set<Addr>, live: set<Addr>)
    requires r.Keys == ms0.Keys == bs.Keys && Separated(ms0, bs, roots, promoted) && KeptApart(ms0, r, promoted)
    requires ClosedSet(bs, roots, live) && forall a {:trigger r[a].mrk} :: a in live ==> r[a].mrk || r[a].gen.Old?
    ensures NoGap(r, bs, live)
  {
    forall a | a in live && Aged(r[a]) ensures OnlyAged(r, bs[a]) {
      assert SeparatedAt(ms0, a, bs[a], promoted) && BodyIn(bs[a], live);
      assert Aged(ms0[a]) || a in promoted;
      forall v | v in bs[a].fields && v.Ref? && v.at in r ensures Aged(r[v.at]) {
        assert MarkedFrom(ms0[v.at], r[v.at]);
        assert r[v.at].mrk || r[v.at].gen.Old?;
      }
    }
  }

  lemma FullSeparated(s: State, promoted: set<Addr>)
    requires Valid(s) && Separated(s.metas, s.bodies, s.roots, promoted)
    ensures NoGap(FullMarks(s), s.bodies, MarkedSet(FullMarks(s)))
  {
    hide VisitAll, Separated, NoGap, KeptApart;
    MarkReady(s);
    MarkingDone(s, FullMarks(s));
    ApartAtFirst(s.metas, promoted) by { NoneMarked(s); }
    SeparatedRoots(s.metas, s.bodies, s.roots, promoted);
    VisitKeepsApart(s.metas, s.metas, s.bodies, s.roots, Rec, s.roots, promoted);
    ApartIsNoGap(s.metas, FullMarks(s), s.bodies, s.roots, promoted, MarkedSet(FullMarks(s)));
  }

  lemma SeparatedRoots(ms: Metas, bs: Bodies, roots: seq<Value>, promoted: set<Addr>)
    requires Separated(ms, bs, roots, promoted)
    ensures PlainOnly(ms, roots, promoted)
  {
  }

  lemma NoneMarked(s: State)
    requires Valid(s)
    ensures NoMarks(s.metas)
  {
  }

  lemma ApartAtFirst(ms: Metas, promoted: set<Addr>)
    requires NoMarks(ms)
    ensures KeptApart(ms, ms, promoted)
  {
  }

  lemma FastSeparated(s: State, promoted: set<Addr>)
    requires Valid(s) && Generational(s) && Separated(s.metas, s.bodies, s.roots, promoted)
    ensures NoGap(FastMarks(s), s.bodies, Kept1(s, FastMarks(s)))
  {
    hide VisitAll, MarkRemembered, Separated, NoGap, KeptApart, Valid, Generational, RememberedList;
    MarkReady(s); FastReady(s);
    FastMarksDone(s);
    NoneMarked(s);
    ApartAtFirst(s.metas, promoted);
    SeparatedRoots(s.metas, s.bodies, s.roots, promoted);
    VisitKeepsApart(s.metas, s.metas, s.bodies, s.roots, RecY, s.roots, promoted);
    RememberedIsOld(s);
    RememberedKeepsApart(s.metas, VisitAll(s.metas, s.bodies, s.roots, RecY), s.bodies, RememberedList(s), s.roots,
      promoted);
    SurvivorsClosed(s, FastMarks(s));
    LiveAreMarked(s);
    ApartIsNoGap(s.metas, FastMarks(s), s.bodies, s.roots, promoted, Kept1(s, FastMarks(s)));
  }

  lemma LiveAreMarked(s: State)
    requires Valid(s) && YoungMarked(s, FastMarks(s))
    ensures forall a {:trigger FastMarks(s)[a].mrk} ::
      a in Kept1(s, FastMarks(s)) ==> a in FastMarks(s) && (FastMarks(s)[a].mrk || FastMarks(s)[a].gen.Old?)
  {
    hide Valid, YoungClosedSet, RememberedList;
    var r := FastMarks(s);
    forall a | a in Kept1(s, r) ensures a in r && (r[a].mrk || r[a].gen.Old?) {
      if a in OldSet(s.metas) { assert MarkedFrom(s.metas[a], r[a]); }
    }
  }

  // ----- A heap with a gap --------------------------------------------------

  const CLASS_AT := Addr(3, 16)
  const EARLY := Addr(1, 0)
  const LATE := Addr(1, 24)

  /** `EARLY` has survived a collection and refers to `LATE`, which was allocated behind it since;
      the roots refer to `LATE` first. */
  function GapState(): State
  {
    State(
      map[CLASS_AT := Meta(Old, false, false, Addr(3, 0), false), EARLY := Meta(Young, true, false, NULL, false),
          LATE := Meta(Young, false, false, NULL, false)],
      map[CLASS_AT := Body(CLASS_AT, 1, [SmallInt(0)], ClassInfo(1, false)),
        EARLY := Body(CLASS_AT, 1, [Ref(LATE)], Native(0)),
          LATE := Body(CLASS_AT, 1, [SmallInt(0)], Native(0))],
      Chunk(1, 48), Chunk(2, 0), [OldChunk(3, 40, 0, Absent)], NULL, 0, [Ref(CLASS_AT), Ref(LATE), Ref(EARLY)], 3,
      [Block(EARLY, 24), Block(LATE, 24)], [[Block(CLASS_AT, 24)]], [], 1)
  }

  lemma ThreeAddresses()
    ensures AddrsOf([Block(EARLY, 24), Block(LATE, 24)]) == {LATE, EARLY} &&
      OldAddrs([[Block(CLASS_AT, 24)]]) == {CLASS_AT} && BigAddrs([]) == {}
  {
    var lay: seq<Block>, lays: seq<seq<Block>> := [Block(EARLY, 24), Block(LATE, 24)], [[Block(CLASS_AT, 24)]];
    assert lay[0].at == EARLY && lay[1].at == LATE && lays[0][0].at == CLASS_AT;
  }

  lemma GapStateStored()
    ensures ValidStorage(GapState())
  {
    hide WorkingStored, OldsStored, AddrsOf, OldAddrs, BigAddrs;
    ThreeAddresses();
    GapSpaces();
    assert GapState().bodies.Keys == {CLASS_AT, LATE, EARLY};
  }

  lemma GapSpaces()
    ensures WorkingStored(GapState().bodies, GapState().working, GapState().workLay)
    ensures OldsStored(GapState().bodies, GapState().olds, GapState().oldLay)
  {
    var s := GapState();
    assert Tiled(1, 0, s.workLay) && Tiled(3, META_SIZE, s.oldLay[0]);
    assert Stored(s.bodies, 3, META_SIZE, 40, OLD_END, s.oldLay[0]);
  }

  lemma GapStateFlags()
    ensures ValidFlags(GapState())
  {
    var s := GapState();
    assert OldFlags(s.metas, 3, s.oldLay[0]);
  }

  /** A heap all of whose objects belong to the class at `CLASS_AT`. */
  lemma OneClassGraph(s: State)
    requires s.oldLay != [] && s.oldLay[0] != [] && s.oldLay[0][0].at == CLASS_AT && s.classes == 1 && s.roots != [] &&
      s.roots[0] == Ref(CLASS_AT)
    requires CLASS_AT in s.bodies && s.bodies[CLASS_AT].data == ClassInfo(1, false) && ValuesIn(s.roots, s.bodies.Keys)
    requires forall a {:trigger s.bodies[a]} :: a in s.bodies ==>
      s.bodies[a].cls == CLASS_AT && s.bodies[a].count == 1 && ValuesIn(s.bodies[a].fields, s.bodies.Keys)
    ensures ValidGraph(s)
  {
    hide ValuesIn;
    forall a | a in s.bodies ensures ClassInPrefix(s.bodies[a], s.oldLay[0], s.classes) {
      assert s.oldLay[0][0].at == s.bodies[a].cls;
    }
  }

  lemma GapStateGraph()
    ensures ValidGraph(GapState())
  {
    OneClassGraph(GapState());
  }

  /** The marking of this heap leaves a gap: after the collection the object that was at
      `EARLY` is old, the one that was at `LATE` is young, and nothing is remembered. */
  lemma GapExample()
    ensures Valid(GapState()) && Generational(GapState())
    ensures !NoGap(FastMarks(GapState()), GapState().bodies, Kept1(GapState(), FastMarks(GapState())))
  {
    GapStateStored();
    GapStateFlags();
    GapStateGraph();
    var s := GapState();
    GapMarks();
    var r := FastMarks(s);
    assert EARLY in Kept1(s, r) && Aged(r[EARLY]);
    assert Ref(LATE) in s.bodies[EARLY].fields && !Aged(r[LATE]);
    assert !OnlyAged(r, s.bodies[EARLY]);
  }

  /** A visit of an object whose fields need no visits. */
  lemma {:induction false} VisitLeaf(ms: Metas, bs: Bodies, a: Addr, mode: Mode)
    requires ms.Keys == bs.Keys && Closed(bs) && a in bs && YoungOnly(mode) && |bs[a].fields| == 1
    requires bs[a].fields[0].SmallInt? || (bs[a].fields[0].at in ms && ms[bs[a].fields[0].at].mrk)
    ensures ValuesIn([Ref(a)], bs.Keys)
    ensures VisitAll(ms, bs, [Ref(a)], mode) == if Skips(ms[a], mode) then ms else ms[a := SetMark(ms[a], mode)]
  {
    hide Closed;
    var vs := [Ref(a)];
    assert vs[1..] == [];
    VisitSkip(ms, bs, vs, mode);
    if !Skips(ms[a], mode) {
      var ms1, ms2, fm := VisitUnfold(ms, bs, vs, mode);
      VisitSkip(ms1, bs, bs[a].fields, fm);
      assert bs[a].fields[1..] == [];
    }
  }

  /** The roots are visited in their order: first `l`, then `e`, which refers to `l`. */
  lemma {:induction false} GapVisits(ms: Metas, bs: Bodies, c: Addr, l: Addr, e: Addr)
    requires ms.Keys == bs.Keys && Closed(bs) && c in ms && l in ms && e in ms && l != e
    requires ms[c].gen.Old? && ms[l].gen.Young? && ms[e].gen.Young? && !ms[l].mrk && !ms[e].mrk
    requires bs[l].fields == [SmallInt(0)] && bs[e].fields == [Ref(l)]
    ensures ValuesIn([Ref(c), Ref(l), Ref(e)], bs.Keys)
    ensures VisitAll(ms, bs, [Ref(c), Ref(l), Ref(e)], RecY) == ms[l := ms[l].(mrk := true)][e := ms[e].(mrk := true)]
  {
    hide Closed, VisitAll;
    var vs := [Ref(c), Ref(l), Ref(e)];
    VisitSkip(ms, bs, vs, RecY);
    assert vs[1..] == [Ref(l), Ref(e)];
    VisitHead(ms, bs, vs[1..], RecY);
    VisitLeaf(ms, bs, l, RecY);
    assert vs[1..][1..] == [Ref(e)];
    VisitLeaf(ms[l := ms[l].(mrk := true)], bs, e, RecY);
  }

  lemma GapMarks()
    requires Valid(GapState())
    ensures Generational(GapState())
    ensures FastMarks(GapState()) ==
      GapState().metas[LATE := Meta(Young, false, true, NULL, false)][EARLY := Meta(Young, true, true, NULL, false)]
  {
    hide Valid, VisitAll, Closed, ValuesIn;
    var s := GapState();
    MarkReady(s);
    NothingRemembered(s);
    GapVisits(s.metas, s.bodies, CLASS_AT, LATE, EARLY);
    forall a | a in s.bodies && a in OldSet(s.metas) ensures NoYoung(s.metas, s.bodies[a]) {
    }
  }

  lemma NothingRemembered(s: State)
    requires |s.olds| == 1 && s.olds[0].remembered == Absent && s.bigs == []
    ensures RememberedList(s) == []
  {
    assert s.olds[..0] == [] && InOldSpace(s.olds[..0]) == [] &&
      InOldSpace(s.olds) == InOldSpace(s.olds[..0]) + InChunk(s.olds[0]);
  }

  // ----- What a gap leads to ------------------------------------------------

  /** Old objects need no visit in a fast collection. */
  lemma {:induction false} VisitOld(ms: Metas, bs: Bodies, vs: seq<Value>)
    requires ms.Keys == bs.Keys && Closed(bs) && ValuesIn(vs, OldSet(ms))
    ensures ValuesIn(vs, bs.Keys) && VisitAll(ms, bs, vs, RecY) == ms
    decreases |vs|
  {
    hide VisitAll, Closed;
    assert ValuesIn(vs, bs.Keys);
    VisitSkip(ms, bs, vs, RecY);
    if vs != [] {
      assert vs[0] in vs;
      VisitOld(ms, bs, vs[1..]);
    }
  }

  /** If nothing is remembered and the roots refer to old objects only, a fast collection marks nothing. */
  lemma NothingMarked(s: State)
    requires Valid(s) && RememberedList(s) == [] && ValuesIn(s.roots, OldSet(s.metas))
    ensures MarkedSet(FastMarks(s)) == {}
  {
    hide Valid, VisitAll, Closed, RememberedList;
    MarkReady(s);
    VisitOld(s.metas, s.bodies, s.roots);
    NoneMarked(s);
  }

  lemma ClassRootsAreOld(s: State)
    requires Valid(s)
    ensures s.classes <= |s.roots| && ValuesIn(s.roots[..s.classes], OldSet(s.metas)) &&
      ValuesIn(s.roots[..s.classes], s.bodies.Keys)
  {
    OldObjects(s);
    MarkReady(s);
    hide ValidStorage, ValidFlags, Closed, AllSized, ValuesIn;
    forall v | v in s.roots[..s.classes] && v.Ref? ensures v.at in OldSet(s.metas) {
      var j :| 0 <= j < s.classes && s.roots[j] == v;
      assert s.oldLay[0][j].at in OldAddrs(s.oldLay);
    }
    InPart(s.roots[..s.classes], s.roots, s.bodies.Keys);
    InSet(s.roots[..s.classes], OldSet(s.metas));
  }

  lemma InPart(vs: seq<Value>, all: seq<Value>, dom: set<Addr>)
    requires ValuesIn(all, dom) && forall v :: v in vs ==> v in all
    ensures ValuesIn(vs, dom)
  {
  }

  lemma InSet(vs: seq<Value>, dom: set<Addr>)
    requires forall v :: v in vs && v.Ref? ==> v.at in dom
    ensures ValuesIn(vs, dom)
  {
  }

  /** The program has dropped all roots but the classes and one old object. */
  function OnlyRoot(t: State, a: Addr): State
    requires t.classes <= |t.roots|
  {
    t.(roots := t.roots[..t.classes] + [Ref(a)])
  }

  /** Whether field `i` of an old object refers to a young one. */
  predicate EdgeAt(t: State, d: Addr, i: nat, e: Addr)
  {
    && d in t.bodies && d in t.metas && t.metas[d].gen.Old? && i < |t.bodies[d].fields| &&
      t.bodies[d].fields[i] == Ref(e)
    && e in t.bodies && e in t.metas && t.metas[e].gen.Young?
  }

  /** If such a field is not remembered and the program keeps only the old object, it can still
      follow the reference, but the next fast collection does not mark what it leads to. */
  lemma EdgeLost(t: State, d: Addr, i: nat, e: Addr)
    requires Valid(t) && RememberedList(t) == [] && EdgeAt(t, d, i, e)
    ensures t.classes <= |t.roots| && !Generational(t)
    ensures
      var u := OnlyRoot(t, d);
      && Valid(u) && !Generational(u) && Follow(u.bodies, u.roots[u.classes], [ToField(i)]) == Ref(e)
      && e !in MarkedSet(FastMarks(u))
  {
    hide Valid, VisitAll, Closed, RememberedList, FastMarks, MarkedSet;
    assert t.bodies[d].fields[i] in t.bodies[d].fields && !NoYoung(t.metas, t.bodies[d]);
    ClassRootsAreOld(t);
    RootsSet(t, OnlyRoot(t, d).roots);
    NothingMarked(OnlyRoot(t, d));
    assert [ToField(i)][1..] == [];
  }

  /** After a collection whose marking left a gap there is such a field. */
  lemma GapEdge(s: State, t: State, ms: Metas, f: map<Addr, Addr>, a: Addr, i: nat)
    requires f.Values == t.bodies.Keys && t.metas.Keys == t.bodies.Keys
    requires Isomorphic(s.bodies, s.roots, t.bodies, t.roots, f) && AgedBecomeOld(ms, t, f)
    requires a in f && a in s.bodies && a in ms && i < |s.bodies[a].fields| && s.bodies[a].fields[i].Ref?
    requires s.bodies[a].fields[i].at in ms && Aged(ms[a]) && !Aged(ms[s.bodies[a].fields[i].at])
    ensures
      var b := s.bodies[a].fields[i].at;
      b in f && EdgeAt(t, f[a], i, f[b])
  {
    var b := s.bodies[a].fields[i].at;
    assert BodyIn(s.bodies[a], f.Keys) && s.bodies[a].fields[i] in s.bodies[a].fields;
    assert f[a] in t.metas && f[b] in t.metas;
    assert t.bodies[f[a]].fields[i] == MapValue(f, s.bodies[a].fields[i]);
  }

  /** Wherever the marking leaves a gap, an object can be lost. */
  lemma GapLoses(s: State, t: State, ms: Metas, f: map<Addr, Addr>, a: Addr, i: nat)
    requires Valid(t) && RememberedList(t) == [] && f.Values == t.bodies.Keys
    requires Isomorphic(s.bodies, s.roots, t.bodies, t.roots, f) && AgedBecomeOld(ms, t, f)
    requires a in f && a in s.bodies && a in ms && i < |s.bodies[a].fields| && s.bodies[a].fields[i].Ref?
    requires s.bodies[a].fields[i].at in ms && Aged(ms[a]) && !Aged(ms[s.bodies[a].fields[i].at])
    ensures t.classes <= |t.roots| && !Generational(t)
    ensures
      var u, b := OnlyRoot(t, f[a]), s.bodies[a].fields[i].at;
      && Valid(u) && !Generational(u) && b in f
      && Follow(u.bodies, u.roots[u.classes], [ToField(i)]) == Ref(f[b])
      && f[b] in u.bodies && f[b] !in MarkedSet(FastMarks(u))
  {
    hide Valid, RememberedList, Isomorphic, AgedBecomeOld, Generational, Follow, FastMarks, MarkedSet;
    MarkReady(t);
    GapEdge(s, t, ms, f, a, i);
    EdgeLost(t, f[a], i, f[s.bodies[a].fields[i].at]);
  }

  /** This is so of the heap above: whatever a fast collection makes of it without running out of old space. */
  lemma LossExample(t: State, f: map<Addr, Addr>)
    requires Valid(GapState()) && Valid(t) && RememberedList(t) == [] && YoungPreserved(GapState(), t, f)
    requires AgedBecomeOld(FastMarks(GapState()), t, f)
    ensures t.classes <= |t.roots| && EARLY in f && LATE in f && !Generational(t)
    ensures
      var u := OnlyRoot(t, f[EARLY]);
      && Valid(u) && Follow(u.bodies, u.roots[u.classes], [ToField(0)]) == Ref(f[LATE])
      && f[LATE] in u.bodies && f[LATE] !in MarkedSet(FastMarks(u))
  {
    hide Valid, FastMarks, RememberedList, AgedBecomeOld, Follow;
    var s := GapState();
    GapMarks();
    assert Ref(EARLY) in s.roots && Ref(LATE) in s.roots;
    GapLoses(s, t, FastMarks(s), f, EARLY, 0);
  }
}
