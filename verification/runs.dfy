/** Whole runs: stores, allocations and collections in any order, and what a program sees of them. */
module Runs {
  import opened ObjectHeap
  import opened Layout
  import opened Marking
  import opened Spaces
  import opened Invariant
  import opened Outcome
  import opened RememberedObjects
  import opened Copying
  import opened FastCollection
  import opened FastOutcome
  import opened Generations
  import opened Mutator
  import opened ObjMem

  // ----- What a program does ------------------------------------------------

  datatype Space = InNew | InOld | InBig

  /** Objects are named by roots: number `cls` is the class of a new object, `x` the object that a
      field belongs to, `y` the value stored. What is read or created becomes the last root. */
  datatype Op =
    | Create(cls: nat, body: Body, space: Space)
    | Store(x: nat, i: nat, y: nat)
    | Load(x: nat, i: nat)
    | Copy(x: nat)
    | Drop(x: nat)
    | Collect(request: Request)

  predicate ObjectAt(bs: Bodies, roots: seq<Value>, x: nat)
  {
    x < |roots| && roots[x].Ref? && roots[x].at in bs
  }

  predicate FieldAt(bs: Bodies, roots: seq<Value>, x: nat, i: nat)
  {
    ObjectAt(bs, roots, x) && i < |bs[roots[x].at].fields|
  }

  /** The class is one of the first roots, and the new object has the layout it describes. */
  predicate CanCreate(bs: Bodies, roots: seq<Value>, classes: nat, op: Op)
    requires op.Create?
  {
    && op.cls < classes && ObjectAt(bs, roots, op.cls)
    && (forall v :: v in op.body.fields ==> v.SmallInt?)
    && (op.space.InBig? || Size(op.body) <= MAX_SMALL)
    && match bs[roots[op.cls].at].data
       case Native(_) => false
       case ClassInfo(n, extra) => if extra then n <= op.body.count else n == op.body.count
  }

  function Made(roots: seq<Value>, op: Op): Body
    requires op.Create? && op.cls < |roots| && roots[op.cls].Ref?
  {
    op.body.(cls := roots[op.cls].at)
  }

  function WithField(bs: Bodies, a: Addr, i: nat, v: Value): Bodies
    requires a in bs && i < |bs[a].fields|
  {
    bs[a := bs[a].(fields := bs[a].fields[i := v])]
  }

  // ----- A heap without a collector -----------------------------------------

  /** Objects get new names for ever, nothing moves and nothing is deleted. */
  datatype Ideal = Ideal(bodies: Bodies, roots: seq<Value>, next: nat)

  function IdealStep(h: Ideal, classes: nat, op: Op, ok: bool): Ideal
  {
    match op
    case Create(_, _, _) =>
      if ok && CanCreate(h.bodies, h.roots, classes, op) then
        Ideal(h.bodies[Addr(h.next, 0) := Made(h.roots, op)], h.roots + [Ref(Addr(h.next, 0))], h.next + 1)
      else h
    case Store(x, i, y) =>
      if FieldAt(h.bodies, h.roots, x, i) &&
        y < |h.roots| then h.(bodies := WithField(h.bodies, h.roots[x].at, i, h.roots[y])) else h
    case Load(x, i) =>
      if FieldAt(h.bodies, h.roots, x, i) then h.(roots := h.roots + [h.bodies[h.roots[x].at].fields[i]]) else h
    case Copy(x) => if x < |h.roots| then h.(roots := h.roots + [h.roots[x]]) else h
    case Drop(x) => if classes <= x < |h.roots| then h.(roots := h.roots[..x] + h.roots[x + 1..]) else h
    case Collect(_) => h
  }

  function IdealRun(h: Ideal, classes: nat, ops: seq<Op>, oks: seq<bool>): Ideal
    requires |ops| == |oks|
    decreases |ops|
  {
    if ops == [] then h
    else
      var n := |ops| - 1;
      IdealStep(IdealRun(h, classes, ops[..n], oks[..n]), classes, ops[n], oks[n])
  }

  // ----- The heap with its collector ----------------------------------------

  /** The context: the heap, whether the next collection must be a full one, whether collections
      are forbidden at the moment, how much big objects may take. */
  datatype World = World(heap: State, forced: bool, busy: bool, threshold: nat)

  ghost predicate SafeWorld(w: World)
  {
    Valid(w.heap) && (w.forced || Generational(w.heap))
  }

  /** Neither the roots nor anything else but the heap is touched, and the heap stays in order. */
  ghost predicate Kept(w: World, w': World)
  {
    && Valid(w'.heap) && (Generational(w.heap) ==> Generational(w'.heap)) && w'.heap.classes == w.heap.classes
    && w'.forced == w.forced && w'.busy == w.busy && w'.threshold == w.threshold
  }

  predicate HasRoom(w: World, size: nat, space: Space)
  {
    match space
    case InNew => w.heap.working.top + size < NEW_END
    case InOld => w.heap.olds != [] && LastTop(w.heap.olds) + size < OLD_END
    case InBig => w.heap.bigAllocated + size <= w.threshold
  }

  /** The heap with a new object, and the address it gets. */
  function GrownIn(s: State, b: Body, space: Space): (State, Addr)
  {
    match space
    case InNew => (GrownYoung(s, b), Addr(s.working.id, s.working.top))
    case InOld =>
      if s.olds == [] || |s.oldLay| != |s.olds| then (s, NULL)
      else (GrownOld(s, b), Addr(s.olds[|s.olds| - 1].id, LastTop(s.olds)))
    case InBig => (GrownBig(s, b), Addr(s.regions + 1, 0))
  }

  ghost predicate WasFull(w: World, request: Request)
  {
    w.forced || request == Full
  }

  /** What a collection does; `f` takes objects to where they are now. */
  ghost predicate Collected(w: World, request: Request, w': World, f: map<Addr, Addr>)
    requires Valid(w.heap)
  {
    && Valid(w'.heap) && w'.heap.classes == w.heap.classes && w'.busy == w.busy && w'.threshold == w.threshold
    && AllMid(w'.heap) && RememberedList(w'.heap) == []
    && if WasFull(w, request) then
         HeapPreserved(w.heap, w'.heap, f) && !w'.forced && AgedBecomeOld(FullMarks(w.heap), w'.heap, f)
       else
         YoungPreserved(w.heap, w'.heap, f) &&
         if w'.forced then w.heap.olds != [] && NoRoom(w.heap.olds, w.heap.working)
           else AgedBecomeOld(FastMarks(w.heap), w'.heap, f)
  }

  /** The marking of a collection leaves a gap, and the next collection is not a full one anyway. */
  ghost predicate LeavesGap(w: World, op: Op, w': World)
  {
    op.Collect? && !w.busy && Valid(w.heap) &&
    if WasFull(w, op.request) then !NoGap(FullMarks(w.heap), w.heap.bodies, MarkedSet(FullMarks(w.heap)))
    else !w'.forced && !NoGap(FastMarks(w.heap), w.heap.bodies, Kept1(w.heap, FastMarks(w.heap)))
  }

  /** One operation, and whether it was possible. */
  ghost predicate Did(w: World, op: Op, ok: bool, w': World)
  {
    Valid(w.heap) &&
    match op
    case Create(_, b, space) =>
      && ok == (CanCreate(w.heap.bodies, w.heap.roots, w.heap.classes, op) && HasRoom(w, Size(b), space))
      && (ok ==>
            var (grown, at) := GrownIn(w.heap, Made(w.heap.roots, op), space);
            Kept(w, w') && at !in w.heap.bodies && w'.heap == grown.(roots := grown.roots + [Ref(at)]))
      && (!ok ==> w' == w)
    case Store(x, i, y) =>
      if FieldAt(w.heap.bodies, w.heap.roots, x, i) && y < |w.heap.roots| then
        var a, v := w.heap.roots[x].at, w.heap.roots[y];
        && Kept(w, w') && w'.heap.roots == w.heap.roots && w'.heap.bodies == WithField(w.heap.bodies, a, i, v)
        && (a in w.heap.metas && w.heap.metas[a].gen.Young? ==> w'.heap == FieldSet(w.heap, a, i, v))
      else w' == w
    case Load(x, i) =>
      if FieldAt(w.heap.bodies, w.heap.roots, x, i) then
        Kept(w, w') && w'.heap == w.heap.(roots := w.heap.roots + [w.heap.bodies[w.heap.roots[x].at].fields[i]])
      else w' == w
    case Copy(x) =>
      if x < |w.heap.roots| then Kept(w, w') && w'.heap == w.heap.(roots := w.heap.roots + [w.heap.roots[x]])
        else w' == w
    case Drop(x) =>
      if w.heap.classes <= x < |w.heap.roots| then
        Kept(w, w') && w'.heap == w.heap.(roots := w.heap.roots[..x] + w.heap.roots[x + 1..])
      else w' == w
    case Collect(request) =>
      if w.busy then w' == w
      else (exists f :: Collected(w, request, w', f)) && (SafeWorld(w') <==> !LeavesGap(w, op, w'))
  }

  /** A run: as long as collections begin in safe worlds, every step is one of those above. */
  ghost predicate Run(ws: seq<World>, ops: seq<Op>, oks: seq<bool>)
  {
    && |ws| == |ops| + 1 && |oks| == |ops|
    && forall k {:trigger ops[k]} :: 0 <= k < |ops| && Valid(ws[k].heap) && (ops[k].Collect? ==> SafeWorld(ws[k])) ==>
         Did(ws[k], ops[k], oks[k], ws[k + 1])
  }

  // ----- Safety -------------------------------------------------------------

  /** A step leads out of the safe worlds only through a collection whose marking leaves a gap. */
  lemma StepIsSafe(w: World, op: Op, ok: bool, w': World)
    requires SafeWorld(w) && Did(w, op, ok, w')
    ensures Valid(w'.heap) && (SafeWorld(w') <==> !LeavesGap(w, op, w'))
  {
    hide Valid, Generational, NoGap, FullMarks, FastMarks, GrownIn;
    if op.Collect? && !w.busy {
      var f :| Collected(w, op.request, w', f);
    }
  }

  /** Over any run: everything is safe throughout iff no collection leaves a gap. */
  lemma {:induction false} RunIsSafe(ws: seq<World>, ops: seq<Op>, oks: seq<bool>)
    requires Run(ws, ops, oks) && SafeWorld(ws[0])
    ensures (forall k {:trigger ws[k]} :: 0 <= k < |ws| ==> SafeWorld(ws[k])) <==>
            (forall k {:trigger ops[k]} :: 0 <= k < |ops| ==> !LeavesGap(ws[k], ops[k], ws[k + 1]))
  {
    hide SafeWorld, LeavesGap, Did, Valid;
    if forall k {:trigger ops[k]} :: 0 <= k < |ops| ==> !LeavesGap(ws[k], ops[k], ws[k + 1]) {
      forall k | 0 <= k < |ws| ensures SafeWorld(ws[k]) { SafeUpTo(ws, ops, oks, k); }
    }
    if forall k {:trigger ws[k]} :: 0 <= k < |ws| ==> SafeWorld(ws[k]) {
      forall k | 0 <= k < |ops| ensures !LeavesGap(ws[k], ops[k], ws[k + 1]) {
        SafeIsValid(ws[k]);
        StepIsSafe(ws[k], ops[k], oks[k], ws[k + 1]);
      }
    }
  }

  lemma SafeIsValid(w: World)
    requires SafeWorld(w)
    ensures Valid(w.heap)
  {
  }

  lemma {:induction false} SafeUpTo(ws: seq<World>, ops: seq<Op>, oks: seq<bool>, k: nat)
    requires Run(ws, ops, oks) && SafeWorld(ws[0]) && k < |ws|
    requires forall j {:trigger ops[j]} :: 0 <= j < k ==> !LeavesGap(ws[j], ops[j], ws[j + 1])
    ensures SafeWorld(ws[k])
    decreases k
  {
    hide SafeWorld, LeavesGap, Did, Valid;
    if k > 0 {
      SafeUpTo(ws, ops, oks, k - 1);
      SafeIsValid(ws[k - 1]);
      assert Did(ws[k - 1], ops[k - 1], oks[k - 1], ws[k]);
      StepIsSafe(ws[k - 1], ops[k - 1], oks[k - 1], ws[k]);
    }
  }

  // ----- Isomorphic heaps under the same operations -------------------------

  lemma IsoStore(bs: Bodies, roots: seq<Value>, bs': Bodies, roots': seq<Value>, f: map<Addr, Addr>, a: Addr, i: nat,
      v: Value)
    requires Isomorphic(bs, roots, bs', roots', f) && a in f && i < |bs[a].fields| && (v.Ref? ==> v.at in f)
    ensures f[a] in bs' && i < |bs'[f[a]].fields|
    ensures Isomorphic(WithField(bs, a, i, v), roots, WithField(bs', f[a], i, MapValue(f, v)), roots', f)
  {
    hide MappedValues, ValuesIn, Injective, MapValue, MappedBody, BodyIn;
    assert f[a] in bs' && BodyIn(bs[a], f.Keys) && MappedBody(f, bs[a], bs'[f[a]]);
    StoredBody(f, bs[a], bs'[f[a]], i, v);
    var cs, cs' := WithField(bs, a, i, v), WithField(bs', f[a], i, MapValue(f, v));
    forall x | x in f ensures f[x] in cs' && MappedBody(f, cs[x], cs'[f[x]]) && BodyIn(cs[x], f.Keys) {
      assert BodyIn(bs[x], f.Keys) && MappedBody(f, bs[x], bs'[f[x]]);
      if x != a { assert f[x] != f[a] by { InjectiveAt(f, x, a); } }
    }
  }

  lemma InjectiveAt(f: map<Addr, Addr>, x: Addr, y: Addr)
    requires Injective(f) && x in f && y in f && x != y
    ensures f[x] != f[y]
  {
    assert Apart(x, y);
  }

  lemma StoredBody(f: map<Addr, Addr>, b: Body, b': Body, i: nat, v: Value)
    requires MappedBody(f, b, b') && BodyIn(b, f.Keys) && i < |b.fields| && (v.Ref? ==> v.at in f)
    ensures i < |b'.fields|
    ensures MappedBody(f, b.(fields := b.fields[i := v]), b'.(fields := b'.fields[i := MapValue(f, v)]))
    ensures BodyIn(b.(fields := b.fields[i := v]), f.Keys)
  {
    forall w | w in b.fields[i := v] && w.Ref? ensures w.at in f.Keys {
      if w != v { assert w in b.fields; }
    }
  }

  lemma IsoRoots(bs: Bodies, roots: seq<Value>, bs': Bodies, roots': seq<Value>, f: map<Addr, Addr>, more: seq<Value>,
      more': seq<Value>)
    requires Isomorphic(bs, roots, bs', roots', f) && MappedValues(f, more, more') && ValuesIn(more, f.Keys)
    ensures Isomorphic(bs, more, bs', more', f)
  {
    hide MappedBody, MappedValues, Injective;
  }

  lemma IsoCreate(bs: Bodies, roots: seq<Value>, bs': Bodies, roots': seq<Value>, f: map<Addr, Addr>, a: Addr, b: Body,
      a': Addr, b': Body)
    requires Isomorphic(bs, roots, bs', roots', f) && a !in bs && a' !in bs'
    requires b.cls in f && b' == b.(cls := f[b.cls]) && forall v :: v in b.fields ==> v.SmallInt?
    ensures Isomorphic(bs[a := b], roots, bs'[a' := b'], roots', f[a := a'])
  {
    hide MappedValues, MappedBody, BodyIn, ValuesIn, MapValue, Injective;
    var g, cs, cs' := f[a := a'], bs[a := b], bs'[a' := b'];
    assert g.Keys == f.Keys + {a} && a !in f;
    NewBodyMapped(f, a, a', b, b');
    forall x | x in g ensures g[x] in cs' && MappedBody(g, cs[x], cs'[g[x]]) && BodyIn(cs[x], g.Keys) {
      if x != a {
        assert BodyIn(bs[x], f.Keys) && MappedBody(f, bs[x], bs'[f[x]]);
        OldBodyMapped(f, a, a', bs[x], bs'[f[x]]);
      }
    }
    RootsMapped(f, a, a', roots, roots');
    MoreInjective(f, a, a');
  }

  lemma MoreInjective(f: map<Addr, Addr>, a: Addr, a': Addr)
    requires Injective(f) && forall x {:trigger f[x]} :: x in f ==> f[x] != a'
    ensures Injective(f[a := a'])
  {
  }

  lemma NewBodyMapped(f: map<Addr, Addr>, a: Addr, a': Addr, b: Body, b': Body)
    requires a !in f && b.cls in f && b' == b.(cls := f[b.cls]) && forall v :: v in b.fields ==> v.SmallInt?
    ensures MappedBody(f[a := a'], b, b') && BodyIn(b, f[a := a'].Keys)
  {
    forall i | 0 <= i < |b.fields| ensures b'.fields[i] == MapValue(f[a := a'], b.fields[i]) {
      assert b.fields[i] in b.fields;
    }
  }

  /** One more address makes no difference to objects that do not refer to it. */
  lemma OldBodyMapped(f: map<Addr, Addr>, a: Addr, a': Addr, b: Body, b': Body)
    requires a !in f && MappedBody(f, b, b') && BodyIn(b, f.Keys)
    ensures MappedBody(f[a := a'], b, b') && BodyIn(b, f[a := a'].Keys)
  {
    hide MappedValues, ValuesIn;
    RootsMapped(f, a, a', b.fields, b'.fields);
  }

  lemma RootsMapped(f: map<Addr, Addr>, a: Addr, a': Addr, vs: seq<Value>, vs': seq<Value>)
    requires a !in f && MappedValues(f, vs, vs') && ValuesIn(vs, f.Keys)
    ensures MappedValues(f[a := a'], vs, vs') && ValuesIn(vs, f[a := a'].Keys)
  {
    MapMore(f, a, a', vs);
  }

  lemma MapMore(f: map<Addr, Addr>, a: Addr, a': Addr, vs: seq<Value>)
    requires a !in f && ValuesIn(vs, f.Keys)
    ensures forall i {:trigger vs[i]} :: 0 <= i < |vs| ==> MapValue(f[a := a'], vs[i]) == MapValue(f, vs[i])
  {
    forall i | 0 <= i < |vs| ensures MapValue(f[a := a'], vs[i]) == MapValue(f, vs[i]) { assert vs[i] in vs; }
  }

  /** First `f`, then `g`, as far as that goes. */
  function Composed(f: map<Addr, Addr>, g: map<Addr, Addr>): map<Addr, Addr>
  {
    map a | a in f && f[a] in g :: g[f[a]]
  }

  lemma IsoCompose(bs: Bodies, roots: seq<Value>, bs1: Bodies, roots1: seq<Value>, bs2: Bodies, roots2: seq<Value>,
      f: map<Addr, Addr>, g: map<Addr, Addr>)
    requires Isomorphic(bs, roots, bs1, roots1, f) && Isomorphic(bs1, roots1, bs2, roots2, g)
    ensures Isomorphic(bs, roots, bs2, roots2, Composed(f, g))
  {
    var h := Composed(f, g);
    MapTwice(f, g, roots, roots1, roots2);
    forall a | a in h ensures h[a] in bs2 && MappedBody(h, bs[a], bs2[h[a]]) && BodyIn(bs[a], h.Keys) {
      assert BodyIn(bs[a], f.Keys) && MappedBody(f, bs[a], bs1[f[a]]);
      assert BodyIn(bs1[f[a]], g.Keys) && MappedBody(g, bs1[f[a]], bs2[g[f[a]]]);
      MapTwice(f, g, bs[a].fields, bs1[f[a]].fields, bs2[h[a]].fields);
    }
    forall a, b | a in h && b in h && Apart(a, b) ensures h[a] != h[b] { assert Apart(f[a], f[b]); }
  }

  lemma MapTwice(f: map<Addr, Addr>, g: map<Addr, Addr>, vs: seq<Value>, vs1: seq<Value>, vs2: seq<Value>)
    requires MappedValues(f, vs, vs1) && MappedValues(g, vs1, vs2) && ValuesIn(vs, f.Keys) && ValuesIn(vs1, g.Keys)
    ensures MappedValues(Composed(f, g), vs, vs2) && ValuesIn(vs, Composed(f, g).Keys)
  {
    forall i | 0 <= i < |vs| ensures vs2[i] == MapValue(Composed(f, g), vs[i]) && (vs[i].Ref? ==>
      vs[i].at in Composed(f, g)) {
      assert vs[i] in vs && vs1[i] in vs1;
    }
  }

  // ----- The collector cannot be noticed ------------------------------------

  /** `f` takes every object that the ideal heap can reach to where it is in the real one. */
  ghost predicate Agree(h: Ideal, s: State, f: map<Addr, Addr>)
  {
    Isomorphic(h.bodies, h.roots, s.bodies, s.roots, f) && forall a {:trigger h.bodies[a]} ::
      a in h.bodies ==> a.chunk < h.next
  }

  /** The same operations are possible in both. */
  lemma SamePossible(h: Ideal, s: State, f: map<Addr, Addr>, op: Op)
    requires Agree(h, s, f)
    ensures |s.roots| == |h.roots|
    ensures forall x {:trigger h.roots[x]} :: 0 <= x < |h.roots| ==>
      s.roots[x] == MapValue(f, h.roots[x]) &&
        (h.roots[x].Ref? ==> h.roots[x].at in f && h.roots[x].at in h.bodies && f[h.roots[x].at] in s.bodies)
    ensures forall x, i {:trigger FieldAt(h.bodies, h.roots, x, i)} ::
      FieldAt(s.bodies, s.roots, x, i) <==> FieldAt(h.bodies, h.roots, x, i)
    ensures op.Create? ==>
      (CanCreate(h.bodies, h.roots, s.classes, op) <==> CanCreate(s.bodies, s.roots, s.classes, op))
  {
    forall x | 0 <= x < |h.roots| ensures
      s.roots[x] == MapValue(f, h.roots[x]) &&
        (h.roots[x].Ref? ==> h.roots[x].at in f && h.roots[x].at in h.bodies && f[h.roots[x].at] in s.bodies)
    {
      assert h.roots[x] in h.roots;
    }
    forall x: nat ensures ObjectAt(h.bodies, h.roots, x) == ObjectAt(s.bodies, s.roots, x) {
      if x < |h.roots| { assert h.roots[x] == h.roots[x]; }
    }
    forall x: nat | ObjectAt(h.bodies, h.roots, x)
      ensures MappedBody(f, h.bodies[h.roots[x].at], s.bodies[s.roots[x].at]) {
      assert h.roots[x] == h.roots[x];
      assert h.bodies[h.roots[x].at] == h.bodies[h.roots[x].at];
    }
  }

  /** After an operation the heaps agree again. */
  lemma StepAgrees(h: Ideal, w: World, f: map<Addr, Addr>, op: Op, ok: bool, w': World) returns (f': map<Addr, Addr>)
    requires Agree(h, w.heap, f) && Did(w, op, ok, w')
    ensures Agree(IdealStep(h, w.heap.classes, op, ok), w'.heap, f') && w'.heap.classes == w.heap.classes
  {
    hide Valid, Isomorphic, GrownIn, FieldAt, CanCreate, Generational, WithField, SafeWorld, LeavesGap;
    f' := f;
    SamePossible(h, w.heap, f, op);
    match op
    case Create(_, _, _) => if ok { f' := CreateAgrees(h, w, f, op, w'); }
    case Store(x, i, y) =>
      if FieldAt(h.bodies, h.roots, x, i) && y < |h.roots| { StoreAgrees(h, w, f, op, w'); }
    case Load(x, i) => if FieldAt(h.bodies, h.roots, x, i) { LoadAgrees(h, w.heap, f, x, i); }
    case Copy(x) => if x < |h.roots| { CopyAgrees(h, w.heap, f, x); }
    case Drop(x) => if w.heap.classes <= x < |h.roots| { DropAgrees(h, w.heap, f, x); }
    case Collect(request) => if !w.busy { f' := CollectAgrees(h, w, f, request, w'); }
  }

  lemma CollectAgrees(h: Ideal, w: World, f: map<Addr, Addr>, request: Request, w': World) returns (f': map<Addr, Addr>)
    requires Agree(h, w.heap, f) && Valid(w.heap) && exists g :: Collected(w, request, w', g)
    ensures Agree(h, w'.heap, f') && w'.heap.classes == w.heap.classes
  {
    hide Valid, Isomorphic, FullMarks, FastMarks, AllMid, AgedBecomeOld, ReachableSet;
    var g :| Collected(w, request, w', g);
    IsoCompose(h.bodies, h.roots, w.heap.bodies, w.heap.roots, w'.heap.bodies, w'.heap.roots, f, g);
    f' := Composed(f, g);
  }

  lemma StoreAgrees(h: Ideal, w: World, f: map<Addr, Addr>, op: Op, w': World)
    requires Agree(h, w.heap, f) && op.Store? && FieldAt(h.bodies, h.roots, op.x, op.i) && op.y < |h.roots|
    requires FieldAt(w.heap.bodies, w.heap.roots, op.x, op.i) && |w.heap.roots| == |h.roots|
    requires w'.heap.roots == w.heap.roots &&
      w'.heap.bodies == WithField(w.heap.bodies, w.heap.roots[op.x].at, op.i, w.heap.roots[op.y])
    ensures Agree(h.(bodies := WithField(h.bodies, h.roots[op.x].at, op.i, h.roots[op.y])), w'.heap, f)
  {
    hide Isomorphic;
    SamePossible(h, w.heap, f, op);
    assert h.roots[op.y] == h.roots[op.y] && h.roots[op.x] == h.roots[op.x];
    IsoStore(h.bodies, h.roots, w.heap.bodies, w.heap.roots, f, h.roots[op.x].at, op.i, h.roots[op.y]);
  }

  lemma CreateAgrees(h: Ideal, w: World, f: map<Addr, Addr>, op: Op, w': World) returns (f': map<Addr, Addr>)
    requires Agree(h, w.heap, f) && op.Create? && CanCreate(h.bodies, h.roots, w.heap.classes, op)
    requires CanCreate(w.heap.bodies, w.heap.roots, w.heap.classes, op) && Valid(w.heap)
    requires
      var (grown, at) := GrownIn(w.heap, Made(w.heap.roots, op), op.space);
      at !in w.heap.bodies && w'.heap == grown.(roots := grown.roots + [Ref(at)])
    ensures Agree(IdealStep(h, w.heap.classes, op, true), w'.heap, f') && w'.heap.classes == w.heap.classes
  {
    hide Isomorphic, Valid, GrownIn;
    var (grown, at) := GrownIn(w.heap, Made(w.heap.roots, op), op.space);
    var a := Addr(h.next, 0);
    GrownBy(w.heap, Made(w.heap.roots, op), op.space);
    SamePossible(h, w.heap, f, op);
    assert h.roots[op.cls] == h.roots[op.cls];
    IsoCreate(h.bodies, h.roots, w.heap.bodies, w.heap.roots, f, a, Made(h.roots, op), at, Made(w.heap.roots, op));
    f' := f[a := at];
    var h' := IdealStep(h, w.heap.classes, op, true);
    MoreRoots(h'.bodies, h.roots, w'.heap.bodies, w.heap.roots, f', Ref(a), Ref(at));
  }

  lemma {:induction false} GrownBy(s: State, b: Body, space: Space)
    requires Valid(s)
    ensures
      var (t, at) := GrownIn(s, b, space);
      t.bodies == s.bodies[at := b] && t.roots == s.roots && t.classes == s.classes
  {
    hide Valid;
    LayoutKnown(s);
  }

  lemma LayoutKnown(s: State)
    requires Valid(s)
    ensures s.olds != [] && |s.oldLay| == |s.olds|
  {
    hide Regions, WorkingStored, AllRememberedStored, ValidFlags, Closed, AllSized, Idle, TotalSizeOf, AddrsOf,
      OldAddrs, BigAddrs;
  }

  lemma MoreRoots(bs: Bodies, roots: seq<Value>, bs': Bodies, roots': seq<Value>, f: map<Addr, Addr>, v: Value,
      v': Value)
    requires Isomorphic(bs, roots, bs', roots', f) && (v.Ref? ==> v.at in f) && v' == MapValue(f, v)
    ensures Isomorphic(bs, roots + [v], bs', roots' + [v'], f)
  {
    forall x | x in roots + [v] && x.Ref? ensures x.at in f.Keys {
      if x != v { assert x in roots; }
    }
    IsoRoots(bs, roots, bs', roots', f, roots + [v], roots' + [v']);
  }

  lemma LoadAgrees(h: Ideal, s: State, f: map<Addr, Addr>, x: nat, i: nat)
    requires Agree(h, s, f) && FieldAt(h.bodies, h.roots, x, i) && FieldAt(s.bodies, s.roots, x, i)
    ensures
      var v, v' := h.bodies[h.roots[x].at].fields[i], s.bodies[s.roots[x].at].fields[i];
      Agree(h.(roots := h.roots + [v]), s.(roots := s.roots + [v']), f)
  {
    var v, v' := h.bodies[h.roots[x].at].fields[i], s.bodies[s.roots[x].at].fields[i];
    assert h.roots[x] in h.roots && BodyIn(h.bodies[h.roots[x].at], f.Keys) && v in h.bodies[h.roots[x].at].fields;
    MoreRoots(h.bodies, h.roots, s.bodies, s.roots, f, v, v');
  }

  lemma CopyAgrees(h: Ideal, s: State, f: map<Addr, Addr>, x: nat)
    requires Agree(h, s, f) && x < |h.roots| && x < |s.roots|
    ensures Agree(h.(roots := h.roots + [h.roots[x]]), s.(roots := s.roots + [s.roots[x]]), f)
  {
    assert h.roots[x] in h.roots;
    MoreRoots(h.bodies, h.roots, s.bodies, s.roots, f, h.roots[x], s.roots[x]);
  }

  lemma DropAgrees(h: Ideal, s: State, f: map<Addr, Addr>, x: nat)
    requires Agree(h, s, f) && x < |h.roots| && x < |s.roots|
    ensures Agree(h.(roots := h.roots[..x] + h.roots[x + 1..]), s.(roots := s.roots[..x] + s.roots[x + 1..]), f)
  {
    forall v | v in h.roots[..x] + h.roots[x + 1..] && v.Ref? ensures v.at in f.Keys { assert v in h.roots; }
    IsoRoots(h.bodies, h.roots, s.bodies, s.roots, f, h.roots[..x] + h.roots[x + 1..], s.roots[..x] + s.roots[x + 1..]);
  }

  /** Over any run in which no collection begins in an unsafe world, the heap agrees with one that has no collector. */
  lemma {:induction false} RunAgrees(ws: seq<World>, ops: seq<Op>, oks: seq<bool>, h: Ideal, f: map<Addr, Addr>, n: nat)
      returns (f': map<Addr, Addr>)
    requires Run(ws, ops, oks) && Agree(h, ws[0].heap, f) && n <= |ops|
    requires forall k {:trigger ws[k]} :: 0 <= k < n ==> SafeWorld(ws[k])
    ensures Agree(IdealRun(h, ws[0].heap.classes, ops[..n], oks[..n]), ws[n].heap, f') &&
      ws[n].heap.classes == ws[0].heap.classes
    decreases n
  {
    hide SafeWorld, Did, Agree, IdealStep, Valid;
    if n == 0 {
      f' := f;
    } else {
      f' := RunAgrees(ws, ops, oks, h, f, n - 1);
      SafeIsValid(ws[n - 1]);
      assert Did(ws[n - 1], ops[n - 1], oks[n - 1], ws[n]);
      f' := StepAgrees(IdealRun(h, ws[0].heap.classes, ops[..n - 1], oks[..n - 1]), ws[n - 1], f', ops[n - 1],
        oks[n - 1], ws[n]);
      assert ops[..n][..n - 1] == ops[..n - 1] && oks[..n][..n - 1] == oks[..n - 1];
    }
  }

  /** The ideal heap that a run begins with is the real one. */
  function IdealOf(s: State): Ideal
  {
    Ideal(s.bodies, s.roots, s.regions + 1)
  }

  /** Every object is where it is. */
  function Identity(bs: Bodies): (f: map<Addr, Addr>)
    ensures f.Keys == bs.Keys && forall a {:trigger f[a]} :: a in f ==> f[a] == a
  {
    map a | a in bs :: a
  }

  lemma AgreeAtFirst(s: State)
    requires Valid(s)
    ensures Agree(IdealOf(s), s, Identity(s.bodies))
  {
    hide Valid, Isomorphic, Closed, ValuesIn, Identity;
    MarkReady(s);
    RegionsBound(s);
    IsoIdentity(s.bodies, s.roots);
  }

  lemma IsoIdentity(bs: Bodies, roots: seq<Value>)
    requires Closed(bs) && ValuesIn(roots, bs.Keys)
    ensures Isomorphic(bs, roots, bs, roots, Identity(bs))
  {
    hide Closed, MappedBody, MappedValues, BodyIn, ValuesIn, Identity;
    var f := Identity(bs);
    forall a | a in f ensures MappedBody(f, bs[a], bs[f[a]]) && BodyIn(bs[a], f.Keys) { SameBody(bs, f, a); }
    SameValues(f, roots);
  }

  lemma SameBody(bs: Bodies, f: map<Addr, Addr>, a: Addr)
    requires Closed(bs) && f.Keys == bs.Keys && a in f && forall x {:trigger f[x]} :: x in f ==> f[x] == x
    ensures MappedBody(f, bs[a], bs[f[a]]) && BodyIn(bs[a], f.Keys)
  {
    assert BodyIn(bs[a], bs.Keys);
    hide Closed;
    SameValues(f, bs[a].fields);
  }

  lemma SameValues(f: map<Addr, Addr>, vs: seq<Value>)
    requires forall x {:trigger f[x]} :: x in f ==> f[x] == x
    ensures MappedValues(f, vs, vs)
  {
  }

  lemma RegionsBound(s: State)
    requires Valid(s)
    ensures forall a {:trigger s.bodies[a]} :: a in s.bodies ==> a.chunk <= s.regions
  {
    hide ValidFlags, ValidGraph, Idle, AllRememberedStored, TotalSizeOf;
    forall a | a in s.bodies ensures a.chunk <= s.regions {
      if a in AddrsOf(s.workLay) {
        var j :| 0 <= j < |s.workLay| && s.workLay[j].at == a;
      } else if a in BigAddrs(s.bigs) {
        var k :| 0 <= k < |s.bigs| && s.bigs[k] == a;
      } else {
        var k, j :| 0 <= k < |s.oldLay| && 0 <= j < |s.oldLay[k]| && s.oldLay[k][j].at == a;
        BlockOfChunk(s.bodies, s.olds, s.oldLay, k, j);
      }
    }
  }

  /** The collector cannot be noticed: over any run of stores, loads, allocations and collections
      in which no collection leaves a gap, whatever a program can find out by following references
      from its roots is as if nothing had ever been moved or deleted. */
  lemma {:induction false} RunUnnoticed(ws: seq<World>, ops: seq<Op>, oks: seq<bool>, i: nat, p: seq<Step>, j: nat,
      q: seq<Step>)
    requires Run(ws, ops, oks) && SafeWorld(ws[0])
    requires forall k {:trigger ops[k]} :: 0 <= k < |ops| ==> !LeavesGap(ws[k], ops[k], ws[k + 1])
    ensures
      var h, s := IdealRun(IdealOf(ws[0].heap), ws[0].heap.classes, ops, oks), ws[|ops|].heap;
      && |h.roots| == |s.roots|
      && (i < |h.roots| && j < |h.roots| ==>
            var x, x' := Follow(h.bodies, h.roots[i], p), Follow(s.bodies, s.roots[i], p);
            var y, y' := Follow(h.bodies, h.roots[j], q), Follow(s.bodies, s.roots[j], q);
            && (x == y <==> x' == y')
            && (x.SmallInt? ==> x' == x)
            && (x.Ref? ==>
              x'.Ref? && x.at in h.bodies && x'.at in s.bodies && SameContents(h.bodies[x.at], s.bodies[x'.at])))
  {
    hide SafeWorld, LeavesGap, Did, Isomorphic, IdealStep, Valid;
    RunIsSafe(ws, ops, oks);
    SafeIsValid(ws[0]);
    AgreeAtFirst(ws[0].heap);
    var f := RunAgrees(ws, ops, oks, IdealOf(ws[0].heap), Identity(ws[0].heap.bodies), |ops|);
    assert ops[..|ops|] == ops && oks[..|ops|] == oks;
    var h, s := IdealRun(IdealOf(ws[0].heap), ws[0].heap.classes, ops, oks), ws[|ops|].heap;
    SamePossible(h, s, f, Copy(0));
    if i < |h.roots| && j < |h.roots| { Indistinguishable(h.bodies, h.roots, s.bodies, s.roots, f, i, p, j, q); }
  }

  // ----- The operations on the context --------------------------------------

  ghost function WorldOf(c: Context): World
    reads c
  {
    World(c.Snapshot(), c.forceFull, c.noGcCount > 0, c.bigThreshold)
  }

  /** The operations of the context do what has been said of them. */
  method Do(c: Context, op: Op) returns (ok: bool)
    requires Valid(c.Snapshot()) && (op.Collect? ==> SafeWorld(WorldOf(c)))
    modifies c
    ensures Did(old(WorldOf(c)), op, ok, WorldOf(c))
  {
    hide Valid, Did;
    match op
    case Create(_, _, _) => ok := DoCreate(c, op);
    case Store(_, _, _) => ok := DoStore(c, op);
    case Collect(_) => ok := DoCollect(c, op);
    case _ => ok := DoRoots(c, op);
  }

  method DoCreate(c: Context, op: Op) returns (ok: bool)
    requires Valid(c.Snapshot()) && op.Create?
    modifies c
    ensures Did(old(WorldOf(c)), op, ok, WorldOf(c))
  {
    hide Valid, Generational, GrownYoung, GrownOld, GrownBig;
    ghost var w := WorldOf(c);
    ok := CanCreate(c.bodies, c.roots, c.classes, op);
    if !ok { return; }
    var at;
    ok, at := Allocate(c, Made(c.roots, op), op);
    if ok {
      Addition(c.Snapshot(), w.heap, at);
      c.roots := c.roots + [Ref(at)];
    }
  }

  /** A new object in the space that is asked for. */
  method Allocate(c: Context, b: Body, op: Op) returns (ok: bool, at: Addr)
    requires Valid(c.Snapshot()) && op.Create? && CanCreate(c.bodies, c.roots, c.classes, op) && b == Made(c.roots, op)
    modifies c
    ensures ok == HasRoom(old(WorldOf(c)), Size(b), op.space)
    ensures !ok ==> WorldOf(c) == old(WorldOf(c))
    ensures ok ==>
      && (c.Snapshot(), at) == GrownIn(old(c.Snapshot()), b, op.space) && at !in old(c.bodies) && at in c.bodies
      && Kept(old(WorldOf(c)), WorldOf(c)) && c.roots == old(c.roots)
  {
    hide Valid, Generational, NewBody, IsClass, CanCreate, GrownYoung, GrownOld, GrownBig, Size;
    ghost var s := c.Snapshot();
    LayoutKnown(s);
    Creatable(s, op);
    match op.space {
      case InNew => ok, at := c.TryAllocYoung(b);
      case InOld => ok, at := c.TryAllocOld(b);
      case InBig => ok, at := c.TryAllocBig(b);
    }
    if ok { GrownBy(s, b, op.space); }
  }

  /** What can be created has a class object as its class. */
  lemma Creatable(s: State, op: Op)
    requires Valid(s) && op.Create? && CanCreate(s.bodies, s.roots, s.classes, op)
    ensures NewBody(s, Made(s.roots, op)) && IsClass(s, Made(s.roots, op).cls)
    ensures !op.space.InBig? ==> Size(Made(s.roots, op)) <= MAX_SMALL
  {
    hide ValidStorage, ValidFlags, Closed, AllSized;
    assert s.oldLay[0][op.cls].at == s.roots[op.cls].at;
  }

  lemma Addition(t: State, s: State, at: Addr)
    requires Valid(t) && at in t.bodies && t.roots == s.roots && t.classes == s.classes &&
      (Generational(s) ==> Generational(t))
    ensures
      var u := t.(roots := t.roots + [Ref(at)]);
      Valid(u) && (Generational(s) ==> Generational(u))
  {
    hide Valid, Generational;
    MarkReady(t);
    ClassesFit(t);
    NewRoots(t, t.roots + [Ref(at)]);
  }

  /** Roots may be added behind the class objects, or taken away there. */
  lemma NewRoots(s: State, roots: seq<Value>)
    requires Valid(s) && (forall v :: v in roots && v.Ref? ==> v.at in s.bodies)
    requires s.classes <= |roots| && s.classes <= |s.roots| ==> roots[..s.classes] == s.roots[..s.classes]
    requires s.classes <= |s.roots| ==> s.classes <= |roots|
    ensures
      var t := s.(roots := roots);
      Valid(t) && (Generational(t) <==> Generational(s))
  {
    hide Valid, Generational, RememberedList;
    ClassesFit(s);
    RootsSet(s, roots);
  }

  lemma ClassesFit(s: State)
    requires Valid(s)
    ensures s.classes <= |s.roots|
  {
    hide ValidStorage, ValidFlags, Closed, AllSized;
  }

  method DoStore(c: Context, op: Op) returns (ok: bool)
    requires Valid(c.Snapshot()) && op.Store?
    modifies c
    ensures Did(old(WorldOf(c)), op, ok, WorldOf(c))
  {
    hide Valid, Generational, OneMoreRemembered, RememberedList;
    ok := FieldAt(c.bodies, c.roots, op.x, op.i) && op.y < |c.roots|;
    if ok {
      MarkReady(c.Snapshot());
      assert c.roots[op.y] in c.roots;
      c.SetField(c.roots[op.x].at, op.i, c.roots[op.y]);
    }
  }

  /** Operations that only look at the heap. */
  method DoRoots(c: Context, op: Op) returns (ok: bool)
    requires Valid(c.Snapshot()) && (op.Load? || op.Copy? || op.Drop?)
    modifies c
    ensures Did(old(WorldOf(c)), op, ok, WorldOf(c))
  {
    hide Valid, Generational, RememberedList;
    ghost var s := c.Snapshot();
    MarkReady(s);
    ClassesFit(s);
    match op
    case Load(x, i) =>
      ok := FieldAt(c.bodies, c.roots, x, i);
      if ok {
        assert BodyIn(c.bodies[c.roots[x].at], c.bodies.Keys) &&
          c.bodies[c.roots[x].at].fields[i] in c.bodies[c.roots[x].at].fields;
        NewRoots(s, c.roots + [c.bodies[c.roots[x].at].fields[i]]);
        c.roots := c.roots + [c.bodies[c.roots[x].at].fields[i]];
      }
    case Copy(x) =>
      ok := x < |c.roots|;
      if ok {
        assert c.roots[x] in c.roots;
        NewRoots(s, c.roots + [c.roots[x]]);
        c.roots := c.roots + [c.roots[x]];
      }
    case Drop(x) =>
      ok := c.classes <= x < |c.roots|;
      if ok {
        NewRoots(s, c.roots[..x] + c.roots[x + 1..]);
        c.roots := c.roots[..x] + c.roots[x + 1..];
      }
  }

  method DoCollect(c: Context, op: Op) returns (ok: bool)
    requires op.Collect? && SafeWorld(WorldOf(c))
    modifies c
    ensures Did(old(WorldOf(c)), op, ok, WorldOf(c))
  {
    hide Valid, Generational, HeapPreserved, YoungPreserved, AgedBecomeOld, AllMid, RememberedList, NoGap, FullMarks,
      FastMarks, NoRoom;
    ghost var w := WorldOf(c);
    var done;
    ghost var f;
    done, f := c.Gc(op.request);
    ok := done != Nothing;
    if ok { assert Collected(w, op.request, WorldOf(c), f); }
  }
}
