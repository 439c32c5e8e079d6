/** A program that loses an object: the gap in the marking can be reached. */
module Losing {
  import opened ObjectHeap
  import opened Layout
  import opened Marking
  import opened Spaces
  import opened Invariant
  import opened Outcome
  import opened RememberedObjects
  import opened Copying
  import opened FastCollection
  import opened FastOutcome
  import opened Generations
  import opened Mutator
  import opened ObjMem
  import opened Gaps
  import opened Runs

  const LEAF := Body(NULL, 1, [SmallInt(0)], Native(0))

  /** Two objects, the first of which has survived a collection when it gets a reference to the
      second; then the second comes before the first among the roots, until it is dropped. */
  const LOSING := [Create(0, LEAF, InNew), Collect(Fast), Create(0, LEAF, InNew), Store(1, 0, 2), Copy(1), Drop(1),
    Collect(Fast), Drop(1)]

  const CLASS_BODY := Body(CLASS_AT, 1, [SmallInt(0)], ClassInfo(1, false))
  const LEAF_BODY := Body(CLASS_AT, 1, [SmallInt(0)], Native(0))

  /** Nothing but one class object. */
  function Start(): State
  {
    State(map[CLASS_AT := Meta(Old, false, false, Addr(3, 0), false)], map[CLASS_AT := CLASS_BODY],
      Chunk(1, 0), Chunk(2, 0), [OldChunk(3, 40, 0, Absent)], NULL, 0, [Ref(CLASS_AT)], 3, [], [[Block(CLASS_AT, 24)]],
        [], 1)
  }

  lemma StartValid()
    ensures Valid(Start()) && Generational(Start())
  {
    StartStored();
    var s := Start();
    assert OldFlags(s.metas, 3, s.oldLay[0]);
    OneClassGraph(s);
    forall a | a in s.bodies ensures NoYoung(s.metas, s.bodies[a]) {}
  }

  lemma StartStored()
    ensures ValidStorage(Start())
  {
    var s := Start();
    var lay: seq<Block> := [];
    assert AddrsOf(lay) == {} && BigAddrs([]) == {} && OldAddrs(s.oldLay) == {CLASS_AT} by {
      assert s.oldLay[0][0].at == CLASS_AT;
    }
    assert Tiled(1, 0, lay) && Tiled(3, META_SIZE, s.oldLay[0]);
    assert Stored(s.bodies, 3, META_SIZE, 40, OLD_END, s.oldLay[0]);
  }

  // ----- Small heaps --------------------------------------------------------

  /** Heaps of the class object and one young object: what the layouts can be. */
  lemma TwoObjects(s: State, e: Addr)
    requires Valid(s) && s.classes == 1 && |s.roots| > 0 && s.roots[0] == Ref(CLASS_AT) &&
      s.bodies == map[CLASS_AT := CLASS_BODY, e := LEAF_BODY]
    requires e in s.metas && s.metas[e].gen.Young?
    ensures s.bigs == [] && s.workLay == [Block(e, 24)] && s.working.top == 24 && s.olds != [] && LastTop(s.olds) <= 40
    ensures CLASS_AT in s.metas && s.metas[CLASS_AT].gen.Old? && e != CLASS_AT
  {
    hide ValidFlags, Closed, AllSized;
    Places(s, e);
    YoungPart(s, e);
    OldPart(s, e);
  }

  lemma Places(s: State, e: Addr)
    requires Valid(s) && s.classes == 1 && |s.roots| > 0 && s.roots[0] == Ref(CLASS_AT) &&
      s.bodies.Keys == {CLASS_AT, e}
    requires e in s.metas && s.metas[e].gen.Young?
    ensures AddrsOf(s.workLay) == {e} && OldAddrs(s.oldLay) + BigAddrs(s.bigs) == {CLASS_AT} &&
      OldAddrs(s.oldLay) == {CLASS_AT}
    ensures CLASS_AT in s.metas && s.metas[CLASS_AT].gen.Old? && e != CLASS_AT
    ensures WorkingStored(s.bodies, s.working, s.workLay) && OldsStored(s.bodies, s.olds, s.oldLay) && s.olds != []
    ensures Regions(s.working.id, s.free.id, s.olds, s.bigs, s.regions)
  {
    OldObjects(s);
    MarkReady(s);
    LayoutKnown(s);
    ClassRootsAreOld(s);
    hide ValidFlags, Closed, AllSized, Regions, WorkingStored, OldsStored, AllRememberedStored, Idle, TotalSizeOf;
    assert s.roots[..1] == [Ref(CLASS_AT)];
    assert s.oldLay[0][0].at == CLASS_AT;
    assert CLASS_AT in OldAddrs(s.oldLay);
  }

  lemma YoungPart(s: State, e: Addr)
    requires WorkingStored(s.bodies, s.working, s.workLay) && AddrsOf(s.workLay) == {e} && e in s.bodies &&
      Size(s.bodies[e]) == 24
    ensures s.workLay == [Block(e, 24)] && s.working.top == 24
  {
    var lay := s.workLay;
    forall j | 0 <= j < |lay| ensures lay[j].at == e { assert lay[j].at in AddrsOf(lay); }
    if |lay| > 1 { TiledDisjoint(s.working.id, 0, lay, 0, 1); }
    assert e in AddrsOf(lay);
  }

  lemma {:induction false} OldPart(s: State, e: Addr)
    requires OldsStored(s.bodies, s.olds, s.oldLay) && s.olds != [] && OldAddrs(s.oldLay) == {CLASS_AT} &&
      BigAddrs(s.bigs) <= {CLASS_AT}
    requires CLASS_AT in s.bodies && Size(s.bodies[CLASS_AT]) == 24 &&
      Regions(s.working.id, s.free.id, s.olds, s.bigs, s.regions)
    ensures s.bigs == [] && LastTop(s.olds) <= 40
  {
    hide Regions;
    var n := |s.olds| - 1;
    var lay := s.oldLay[n];
    assert Stored(s.bodies, s.olds[n].id, META_SIZE, s.olds[n].top, OLD_END, lay);
    forall j | 0 <= j < |lay| ensures lay[j].at == CLASS_AT { assert lay[j].at in OldAddrs(s.oldLay); }
    if |lay| > 1 { TiledDisjoint(s.olds[n].id, META_SIZE, lay, 0, 1); }
    if s.bigs != [] {
      assert s.bigs[0] in BigAddrs(s.bigs);
      assert CLASS_AT in OldAddrs(s.oldLay);
      var i, j :| 0 <= i < |s.oldLay| && 0 <= j < |s.oldLay[i]| && s.oldLay[i][j].at == CLASS_AT;
      BlockOfChunk(s.bodies, s.olds, s.oldLay, i, j);
      NotBoth(s.working.id, s.free.id, s.olds, s.bigs, s.regions, i, 0);
    }
  }

  lemma NotBoth(working: nat, free: nat, olds: seq<OldChunk>, bigs: seq<Addr>, regions: nat, i: nat, k: nat)
    requires Regions(working, free, olds, bigs, regions) && i < |olds| && k < |bigs|
    ensures olds[i].id != bigs[k].chunk
  {
  }

  // ----- The first object survives ------------------------------------------

  /** After the first collection: the object at `e` is young and has MID. */
  ghost predicate Survived(w: World, e: Addr)
  {
    && SafeWorld(w) && !w.forced && !w.busy && w.heap.classes == 1 && w.heap.roots == [Ref(CLASS_AT), Ref(e)]
    && w.heap.bodies == map[CLASS_AT := CLASS_BODY, e := LEAF_BODY] && e in w.heap.metas
    && w.heap.metas[e].gen.Young? && w.heap.metas[e].mid && !w.heap.metas[e].mrk && RememberedList(w.heap) == []
  }

  function Created(): State
  {
    var s := GrownYoung(Start(), LEAF_BODY);
    s.(roots := s.roots + [Ref(Addr(1, 0))])
  }

  lemma FirstCreate(w: World, ok: bool, w': World)
    requires w.heap == Start() && !w.forced && Did(w, LOSING[0], ok, w')
    ensures SafeWorld(w') && w'.heap == Created() && !w'.forced && w'.busy == w.busy
  {
    StartValid();
    hide Valid, Generational;
  }

  lemma {:induction false} CreatedMarks()
    requires Valid(Created())
    ensures FastMarks(Created()).Keys == Created().metas.Keys && Addr(1, 0) in FastMarks(Created()) &&
      !Aged(FastMarks(Created())[Addr(1, 0)])
  {
    hide Valid, VisitAll, Closed, ValuesIn;
    var s := Created();
    MarkReady(s);
    NothingRemembered(s);
    var vs := [Ref(CLASS_AT), Ref(Addr(1, 0))];
    VisitSkip(s.metas, s.bodies, vs, RecY);
    assert s.roots == vs && vs[1..] == [Ref(Addr(1, 0))];
    VisitLeaf(s.metas, s.bodies, Addr(1, 0), RecY);
  }

  lemma FirstCollect(w: World, ok: bool, w': World) returns (e: Addr)
    requires w.heap == Created() && SafeWorld(w) && !w.forced && !w.busy && Did(w, LOSING[1], ok, w')
    ensures Survived(w', e)
  {
    hide Valid, FastMarks, Isomorphic, AllMid, AgedBecomeOld, RememberedList, Generational, NoGap;
    var f :| Collected(w, Fast, w', f);
    var s, t := w.heap, w'.heap;
    CreatedMarks();
    e := CreatedMoved(s, t, f);
    assert NoGap(FastMarks(s), s.bodies, Kept1(s, FastMarks(s))) by {
      NoReferences(FastMarks(s), s.bodies, Kept1(s, FastMarks(s)));
    }
    MidOf(t, e);
  }

  lemma NoReferences(ms: Metas, bs: Bodies, live: set<Addr>)
    requires forall a {:trigger bs[a]} :: a in bs ==> bs[a].fields == [SmallInt(0)]
    ensures NoGap(ms, bs, live)
  {
  }

  lemma CreatedMoved(s: State, t: State, f: map<Addr, Addr>) returns (e: Addr)
    requires s == Created() && Valid(t) && YoungPreserved(s, t, f) && Valid(s)
    requires AgedBecomeOld(FastMarks(s), t, f) && Addr(1, 0) in FastMarks(s) && !Aged(FastMarks(s)[Addr(1, 0)])
    ensures t.roots == [Ref(CLASS_AT), Ref(e)] && t.bodies == map[CLASS_AT := CLASS_BODY, e := LEAF_BODY] &&
      e in t.metas && t.metas[e].gen.Young?
  {
    hide Valid, FastMarks, Isomorphic, AgedBecomeOld, Closed;
    assert s.bodies == map[CLASS_AT := CLASS_BODY, Addr(1, 0) := LEAF_BODY] &&
      s.roots == [Ref(CLASS_AT), Ref(Addr(1, 0))];
    assert CLASS_AT in OldSet(s.metas) && f[CLASS_AT] == CLASS_AT;
    e := TwoMoved(s.bodies, s.roots, t.bodies, t.roots, f, Addr(1, 0));
    StaysYoung(FastMarks(s), t, f, Addr(1, 0));
  }

  lemma StaysYoung(ms: Metas, t: State, f: map<Addr, Addr>, a: Addr)
    requires AgedBecomeOld(ms, t, f) && a in f && a in ms && !Aged(ms[a])
    ensures f[a] in t.metas && t.metas[f[a]].gen.Young?
  {
    assert f[a] == f[a];
  }

  lemma TwoMoved(bs: Bodies, roots: seq<Value>, bs': Bodies, roots': seq<Value>, f: map<Addr, Addr>, a: Addr)
      returns (e: Addr)
    requires bs == map[CLASS_AT := CLASS_BODY, a := LEAF_BODY] && roots == [Ref(CLASS_AT), Ref(a)] && a != CLASS_AT
    requires Isomorphic(bs, roots, bs', roots', f) && CLASS_AT in f && f[CLASS_AT] == CLASS_AT && f.Values == bs'.Keys
    ensures a in f && e == f[a] && roots' == [Ref(CLASS_AT), Ref(e)] &&
      bs' == map[CLASS_AT := CLASS_BODY, e := LEAF_BODY]
  {
    hide Isomorphic, MappedBody, Injective, ClosedSet;
    IsoParts(bs, roots, bs', roots', f, CLASS_AT);
    TwoRoots(bs, roots, bs', roots', f, a);
    IsoParts(bs, roots, bs', roots', f, a);
    e := f[a];
    assert f.Keys == {CLASS_AT, a};
    assert bs'.Keys == {CLASS_AT, e};
    assert bs[CLASS_AT] == CLASS_BODY && bs[a] == LEAF_BODY;
    LeafMoved(f, CLASS_BODY, bs'[CLASS_AT]);
    LeafMoved(f, LEAF_BODY, bs'[e]);
    InjectiveAt(f, a, CLASS_AT);
  }

  lemma IsoParts(bs: Bodies, roots: seq<Value>, bs': Bodies, roots': seq<Value>, f: map<Addr, Addr>, a: Addr)
    requires Isomorphic(bs, roots, bs', roots', f) && a in f
    ensures f.Keys <= bs.Keys && a in bs && f[a] in bs' && MappedBody(f, bs[a], bs'[f[a]]) && Injective(f)
  {
    assert bs[a] == bs[a];
  }

  lemma TwoRoots(bs: Bodies, roots: seq<Value>, bs': Bodies, roots': seq<Value>, f: map<Addr, Addr>, a: Addr)
    requires Isomorphic(bs, roots, bs', roots', f) && CLASS_AT in f && f[CLASS_AT] == CLASS_AT &&
      roots == [Ref(CLASS_AT), Ref(a)]
    ensures a in f && roots' == [Ref(CLASS_AT), Ref(f[a])]
  {
    hide MappedBody, Injective;
    assert roots[1] in roots;
  }

  lemma LeafMoved(f: map<Addr, Addr>, b: Body, b': Body)
    requires MappedBody(f, b, b') && b.fields == [SmallInt(0)] && b.cls == CLASS_AT && CLASS_AT in f &&
      f[CLASS_AT] == CLASS_AT
    ensures b' == b
  {
    assert b'.fields == [SmallInt(0)];
  }

  /** Young objects are in the working chunk, where all have MID; nothing is marked. */
  lemma MidOf(t: State, e: Addr)
    requires Valid(t) && AllMid(t) && e in t.metas && t.metas[e].gen.Young?
    ensures t.metas[e].mid && !t.metas[e].mrk
  {
    OldObjects(t);
    MarkReady(t);
    NoneMarked(t);
    InWorking(t, e);
    hide Valid;
    var j :| 0 <= j < |t.workLay| && t.workLay[j].at == e;
  }

  lemma InWorking(t: State, e: Addr)
    requires Valid(t) && e in t.metas && e !in OldAddrs(t.oldLay) + BigAddrs(t.bigs)
    ensures e in AddrsOf(t.workLay)
  {
    hide ValidFlags, ValidGraph, Regions, WorkingStored, OldsStored, Idle, AllRememberedStored, TotalSizeOf, AddrsOf,
      OldAddrs, BigAddrs;
  }

  // ----- It gets a reference to the second ----------------------------------

  /** Behind `e` there is `l`, without MID. */
  ghost predicate Pair(w: World, e: Addr, l: Addr, fields: seq<Value>)
  {
    && SafeWorld(w) && !w.forced && !w.busy && w.heap.classes == 1 && e != l && e != CLASS_AT && l != CLASS_AT
    && w.heap.bodies == map[CLASS_AT := CLASS_BODY, e := LEAF_BODY.(fields := fields), l := LEAF_BODY]
    && w.heap.metas.Keys == {CLASS_AT, e, l} && w.heap.metas[CLASS_AT].gen.Old?
    && w.heap.metas[e].gen.Young? && w.heap.metas[e].mid && !w.heap.metas[e].mrk
    && w.heap.metas[l].gen.Young? && !w.heap.metas[l].mid && !w.heap.metas[l].mrk
    && RememberedList(w.heap) == [] && w.heap.olds != [] && !NoRoom(w.heap.olds, w.heap.working)
  }

  /** Before the second collection: `e` refers to `l`, which comes first among the roots. */
  ghost predicate Linked(w: World, e: Addr, l: Addr)
  {
    Pair(w, e, l, [Ref(l)]) && w.heap.roots == [Ref(CLASS_AT), Ref(l), Ref(e)]
  }

  lemma {:induction false} SecondCreate(w: World, ok: bool, w': World, e: Addr) returns (l: Addr)
    requires Survived(w, e) && Did(w, LOSING[2], ok, w')
    ensures Pair(w', e, l, [SmallInt(0)]) && w'.heap.roots == [Ref(CLASS_AT), Ref(e), Ref(l)]
  {
    hide Valid, SafeWorld, Did, RememberedList;
    SurvivedSafe(w, e);
    TwoObjects(w.heap, e);
    MarkReady(w.heap);
    NoBigs(w.heap);
    NoneMarked(w.heap);
    SecondCreated(w, ok, w', e);
    NoBigs(w'.heap);
    l := Addr(w.heap.working.id, w.heap.working.top);
    assert w'.heap.bodies == map[CLASS_AT := CLASS_BODY, e := LEAF_BODY, l := LEAF_BODY];
    assert LEAF_BODY.(fields := [SmallInt(0)]) == LEAF_BODY;
  }

  lemma SecondCreated(w: World, ok: bool, w': World, e: Addr)
    requires Survived(w, e) && Did(w, LOSING[2], ok, w') && w.heap.bigs == [] && w.heap.working.top == 24 &&
      e != CLASS_AT
    ensures
      var l := Addr(w.heap.working.id, w.heap.working.top);
      && SafeWorld(w') && !w'.forced && !w'.busy && l !in w.heap.bodies && w'.heap.bigs == []
      && w'.heap == GrownYoung(w.heap, LEAF_BODY).(roots := [Ref(CLASS_AT), Ref(e), Ref(l)])
  {
    hide Valid, Generational, RememberedList;
  }

  lemma {:induction false} LinkStore(w: World, ok: bool, w': World, e: Addr, l: Addr)
    requires Pair(w, e, l, [SmallInt(0)]) && w.heap.roots == [Ref(CLASS_AT), Ref(e), Ref(l)] &&
      Did(w, LOSING[3], ok, w')
    ensures Pair(w', e, l, [Ref(l)]) && w'.heap.roots == w.heap.roots
  {
    hide Valid, Generational, RememberedList;
    RememberedApart(w.heap, w'.heap);
    assert w'.heap == FieldSet(w.heap, e, 0, Ref(l)) && [SmallInt(0)][0 := Ref(l)] == [Ref(l)];
    assert w'.heap.bodies == map[CLASS_AT := CLASS_BODY, e := LEAF_BODY.(fields := [Ref(l)]), l := LEAF_BODY];
  }

  /** Copying and dropping roots. */
  lemma {:induction false} LinkRoots(w: World, op: Op, ok: bool, w': World, e: Addr, l: Addr)
    requires Pair(w, e, l, [Ref(l)]) && (op.Copy? || op.Drop?) && Did(w, op, ok, w')
    ensures Pair(w', e, l, [Ref(l)])
    ensures w'.heap.roots ==
      (if op.Copy? && op.x < |w.heap.roots| then w.heap.roots + [w.heap.roots[op.x]]
       else if op.Drop? && 1 <= op.x < |w.heap.roots| then w.heap.roots[..op.x] + w.heap.roots[op.x + 1..]
       else w.heap.roots)
  {
    hide Valid, Generational, RememberedList;
    RememberedApart(w.heap, w'.heap);
  }

  lemma RememberedApart(s: State, t: State)
    ensures t.olds == s.olds && t.metas == s.metas && t.bigs == s.bigs ==> RememberedList(t) == RememberedList(s)
  {
  }

  lemma Link(ws: seq<World>, oks: seq<bool>, e: Addr) returns (l: Addr)
    requires |ws| == 9 && |oks| == 8 && Survived(ws[2], e)
    requires forall k {:trigger LOSING[k]} ::
      2 <= k < 6 && Valid(ws[k].heap) ==> Did(ws[k], LOSING[k], oks[k], ws[k + 1])
    ensures Linked(ws[6], e, l) && forall k {:trigger ws[k]} :: 2 <= k <= 6 ==> SafeWorld(ws[k])
  {
    hide Valid, Did, SafeWorld, Pair, Survived;
    SurvivedSafe(ws[2], e);
    assert Did(ws[2], LOSING[2], oks[2], ws[3]);
    l := SecondCreate(ws[2], oks[2], ws[3], e);
    PairSafe(ws[3], e, l, [SmallInt(0)]);
    assert Did(ws[3], LOSING[3], oks[3], ws[4]);
    LinkStore(ws[3], oks[3], ws[4], e, l);
    PairSafe(ws[4], e, l, [Ref(l)]);
    assert Did(ws[4], LOSING[4], oks[4], ws[5]);
    LinkRoots(ws[4], LOSING[4], oks[4], ws[5], e, l);
    assert ws[5].heap.roots == [Ref(CLASS_AT), Ref(e), Ref(l), Ref(e)];
    PairSafe(ws[5], e, l, [Ref(l)]);
    assert Did(ws[5], LOSING[5], oks[5], ws[6]);
    LinkRoots(ws[5], LOSING[5], oks[5], ws[6], e, l);
    assert ws[6].heap.roots == [Ref(CLASS_AT), Ref(l), Ref(e)];
    PairSafe(ws[6], e, l, [Ref(l)]);
  }

  lemma SurvivedSafe(w: World, e: Addr)
    requires Survived(w, e)
    ensures SafeWorld(w) && Valid(w.heap)
  {
  }

  lemma PairSafe(w: World, e: Addr, l: Addr, fields: seq<Value>)
    requires Pair(w, e, l, fields)
    ensures SafeWorld(w) && Valid(w.heap)
  {
  }

  lemma NoBigs(s: State)
    requires s.bigs == []
    ensures RememberedList(s) == InOldSpace(s.olds)
  {
  }

  // ----- The gap ------------------------------------------------------------

  lemma {:induction false} LinkedMarks(w: World, e: Addr, l: Addr)
    requires Linked(w, e, l)
    ensures
      var ms := FastMarks(w.heap);
      ms.Keys == w.heap.metas.Keys && e in ms && l in ms && Aged(ms[e]) && !Aged(ms[l]) && ms[e].mrk
  {
    hide Valid, VisitAll, Closed, ValuesIn, RememberedList;
    var s := w.heap;
    MarkReady(s);
    GapVisits(s.metas, s.bodies, CLASS_AT, l, e);
  }

  lemma SecondCollect(w: World, ok: bool, w': World, e: Addr, l: Addr) returns (f: map<Addr, Addr>)
    requires Linked(w, e, l) && Did(w, LOSING[6], ok, w')
    ensures Valid(w'.heap) && !SafeWorld(w') && !w'.forced && RememberedList(w'.heap) == [] && w'.heap.classes == 1
    ensures e in f && l in f && w'.heap.roots == [Ref(CLASS_AT), Ref(f[l]), Ref(f[e])] && EdgeAt(w'.heap, f[e], 0, f[l])
  {
    hide Valid, FastMarks, AllMid, AgedBecomeOld, RememberedList, YoungPreserved, SafeWorld, LeavesGap;
    PairSafe(w, e, l, [Ref(l)]);
    LinkedMarks(w, e, l);
    NoGapLeft(w, w', e, l);
    f :| Collected(w, Fast, w', f);
    NotForced(w');
    MarkReady(w'.heap);
    LinkedMoved(w.heap, w'.heap, f, e, l);
  }

  lemma NotForced(w: World)
    requires Valid(w.heap)
    ensures !SafeWorld(w) ==> !w.forced
  {
  }

  /** The second collection leaves a gap, unless old space is full. */
  lemma NoGapLeft(w: World, w': World, e: Addr, l: Addr)
    requires Linked(w, e, l) && !w'.forced && Valid(w.heap)
    requires
      var ms := FastMarks(w.heap);
      e in ms && l in ms && Aged(ms[e]) && !Aged(ms[l]) && ms[e].mrk
    ensures LeavesGap(w, LOSING[6], w')
  {
    hide Valid, FastMarks, SafeWorld, RememberedList, NoGap;
    HasGap(FastMarks(w.heap), w.heap.bodies, Kept1(w.heap, FastMarks(w.heap)), e, l);
  }

  lemma LinkedMoved(s: State, t: State, f: map<Addr, Addr>, e: Addr, l: Addr)
    requires s.roots == [Ref(CLASS_AT), Ref(l), Ref(e)] && e in s.bodies && s.bodies[e].fields == [Ref(l)]
    requires CLASS_AT in s.metas && s.metas[CLASS_AT].gen.Old? && YoungPreserved(s, t, f) &&
      t.metas.Keys == t.bodies.Keys
    requires Valid(s) && e in FastMarks(s) && l in FastMarks(s) && Aged(FastMarks(s)[e]) && !Aged(FastMarks(s)[l])
    requires AgedBecomeOld(FastMarks(s), t, f)
    ensures e in f && l in f && t.roots == [Ref(CLASS_AT), Ref(f[l]), Ref(f[e])] && EdgeAt(t, f[e], 0, f[l])
  {
    hide Valid, FastMarks, AgedBecomeOld, EdgeAt;
    assert s.roots[0] in s.roots && s.roots[1] in s.roots && s.roots[2] in s.roots;
    assert CLASS_AT in OldSet(s.metas) && f[CLASS_AT] == CLASS_AT;
    GapEdge(s, t, FastMarks(s), f, e, 0);
  }

  lemma HasGap(ms: Metas, bs: Bodies, live: set<Addr>, e: Addr, l: Addr)
    requires e in live && e in bs && e in ms && l in ms && Aged(ms[e]) && !Aged(ms[l]) && bs[e].fields == [Ref(l)]
    ensures !NoGap(ms, bs, live)
  {
    assert bs[e].fields[0] in bs[e].fields;
    assert !OnlyAged(ms, bs[e]);
  }

  // ----- The whole run ------------------------------------------------------

  /** Whoever runs these operations on a heap with one class object ends with an object that the
      program can reach and that the next fast collection does not mark. Everything is safe up to
      the second collection, whose marking leaves the gap. */
  lemma ObjectLost(ws: seq<World>, oks: seq<bool>)
    requires Run(ws, LOSING, oks) && ws[0].heap == Start() && !ws[0].forced && !ws[0].busy
    ensures |ws| == 9 && (forall k {:trigger ws[k]} :: 0 <= k <= 6 ==> SafeWorld(ws[k])) && !SafeWorld(ws[7])
    ensures
      var s := ws[8].heap;
      && Valid(s) && |s.roots| == 2
      && var v := Follow(s.bodies, s.roots[1], [ToField(0)]);
         v.Ref? && v.at in s.bodies && v.at !in MarkedSet(FastMarks(s))
  {
    hide SafeWorld, Did, Linked, Survived, Valid, MarkedSet, FastMarks, Follow, RememberedList;
    assert SafeWorld(ws[0]) && Valid(ws[0].heap) by { StartSafe(ws[0]); }
    assert Did(ws[0], LOSING[0], oks[0], ws[1]);
    FirstCreate(ws[0], oks[0], ws[1]);
    SafeIsValid(ws[1]);
    assert Did(ws[1], LOSING[1], oks[1], ws[2]);
    var e := FirstCollect(ws[1], oks[1], ws[2]);
    var l := Link(ws, oks, e);
    SafeIsValid(ws[6]);
    assert SafeWorld(ws[2]) && Did(ws[6], LOSING[6], oks[6], ws[7]);
    var f := SecondCollect(ws[6], oks[6], ws[7], e, l);
    assert Did(ws[7], LOSING[7], oks[7], ws[8]);
    LastDrop(ws[7], oks[7], ws[8], f[e], f[l]);
  }

  lemma StartSafe(w: World)
    requires w.heap == Start()
    ensures SafeWorld(w) && Valid(w.heap)
  {
    StartValid();
  }

  lemma LastDrop(w: World, ok: bool, w': World, d: Addr, l: Addr)
    requires Valid(w.heap) && Did(w, LOSING[7], ok, w') && RememberedList(w.heap) == [] && w.heap.classes == 1
    requires w.heap.roots == [Ref(CLASS_AT), Ref(l), Ref(d)] && EdgeAt(w.heap, d, 0, l)
    ensures
      var s := w'.heap;
      && Valid(s) && s.roots == [Ref(CLASS_AT), Ref(d)] && Follow(s.bodies, s.roots[1], [ToField(0)]) == Ref(l) &&
        l in s.bodies
      && l !in MarkedSet(FastMarks(s)) && w'.forced == w.forced
  {
    hide Valid, Generational, RememberedList, MarkedSet, FastMarks, Follow;
    EdgeLost(w.heap, d, 0, l);
    assert w.heap.roots[..1] + w.heap.roots[2..] == [Ref(CLASS_AT), Ref(d)];
    assert w.heap.roots[..1] + [Ref(d)] == [Ref(CLASS_AT), Ref(d)];
    assert w'.heap == OnlyRoot(w.heap, d);
  }

  /** The same, carried out. */
  method LoseObject(c: Context)
    requires c.Snapshot() == Start() && !c.forceFull && c.noGcCount == 0
    modifies c
    ensures Valid(c.Snapshot()) && !c.forceFull && |c.roots| == 2
    ensures
      var v := Follow(c.bodies, c.roots[1], [ToField(0)]);
      v.Ref? && v.at in c.bodies && v.at !in MarkedSet(FastMarks(c.Snapshot()))
  {
    hide SafeWorld, Did, Linked, Survived, Pair, Valid, MarkedSet, FastMarks, Follow, RememberedList, EdgeAt;
    ghost var w := WorldOf(c);
    StartSafe(w);
    var ok := Do(c, LOSING[0]);
    FirstCreate(w, ok, WorldOf(c));
    w := WorldOf(c);
    SafeIsValid(w);
    ok := Do(c, LOSING[1]);
    ghost var e := FirstCollect(w, ok, WorldOf(c));
    w := WorldOf(c);
    SurvivedSafe(w, e);
    ok := Do(c, LOSING[2]);
    ghost var l := SecondCreate(w, ok, WorldOf(c), e);
    w := WorldOf(c);
    PairSafe(w, e, l, [SmallInt(0)]);
    ok := Do(c, LOSING[3]);
    LinkStore(w, ok, WorldOf(c), e, l);
    w := WorldOf(c);
    PairSafe(w, e, l, [Ref(l)]);
    ok := Do(c, LOSING[4]);
    LinkRoots(w, LOSING[4], ok, WorldOf(c), e, l);
    w := WorldOf(c);
    PairSafe(w, e, l, [Ref(l)]);
    ok := Do(c, LOSING[5]);
    LinkRoots(w, LOSING[5], ok, WorldOf(c), e, l);
    w := WorldOf(c);
    IsLinked(w, e, l);
    ok := Do(c, LOSING[6]);
    ghost var f := SecondCollect(w, ok, WorldOf(c), e, l);
    w := WorldOf(c);
    ok := Do(c, LOSING[7]);
    LastDrop(w, ok, WorldOf(c), f[e], f[l]);
  }

  lemma IsLinked(w: World, e: Addr, l: Addr)
    requires Pair(w, e, l, [Ref(l)]) && w.heap.roots == [Ref(CLASS_AT), Ref(l), Ref(e)]
    ensures Linked(w, e, l) && SafeWorld(w) && Valid(w.heap)
  {
  }
}
