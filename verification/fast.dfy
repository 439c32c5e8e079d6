/** Why a fast collection preserves the heap. */
module FastCollection {
  import opened ObjectHeap
  import opened Layout
  import opened Marking
  import opened Spaces
  import opened BigSpace
  import opened Updating
  import opened Invariant
  import opened RememberedObjects
  import opened Outcome

  // ----- Marking ------------------------------------------------------------

  lemma {:induction false} MarkRememberedSplit(ms: Metas, bs: Bodies, xs: seq<Addr>, ys: seq<Addr>)
    requires ms.Keys == bs.Keys && Closed(bs) && ListIn(xs, bs.Keys) && ListIn(ys, bs.Keys)
    ensures forall x :: x in xs + ys ==> x in bs
    ensures MarkRemembered(ms, bs, xs + ys) == MarkRemembered(MarkRemembered(ms, bs, xs), bs, ys)
    decreases |xs|
  {
    if xs == [] {
      assert xs + ys == ys;
    } else {
      assert (xs + ys)[1..] == xs[1..] + ys;
      assert xs[0] in xs && BodyIn(bs[xs[0]], bs.Keys);
      forall x | x in xs[1..] ensures x in bs.Keys { assert x in xs; }
      MarkRememberedSplit(VisitAll(ms, bs, bs[xs[0]].fields, O2Y), bs, xs[1..], ys);
    }
  }

  /** One more remembered object. */
  lemma {:induction false} MarkRememberedNext(ms: Metas, bs: Bodies, xs: seq<Addr>, k: nat)
    requires ms.Keys == bs.Keys && Closed(bs) && ListIn(xs, bs.Keys) && k < |xs|
    ensures ListIn(xs[..k], bs.Keys) && ListIn(xs[..k + 1], bs.Keys) && xs[k] in bs &&
      ValuesIn(bs[xs[k]].fields, bs.Keys)
    ensures MarkRemembered(ms, bs, xs[..k + 1]) == VisitAll(MarkRemembered(ms, bs, xs[..k]), bs, bs[xs[k]].fields, O2Y)
  {
    forall x | x in xs[..k + 1] ensures x in bs.Keys { assert x in xs; }
    assert xs[k] in xs && BodyIn(bs[xs[k]], bs.Keys);
    assert xs[..k + 1] == xs[..k] + [xs[k]];
    forall x | x in xs[..k] ensures x in bs.Keys { assert x in xs; }
    MarkRememberedSplit(ms, bs, xs[..k], [xs[k]]);
    var r := MarkRemembered(ms, bs, xs[..k]);
    assert [xs[k]][1..] == [];
  }

  lemma {:induction false} MarkRememberedNone(ms: Metas, bs: Bodies, bigs: seq<Addr>)
    requires ms.Keys == bs.Keys && Closed(bs)
    ensures InBigSpace(ms, []) == [] && MarkRemembered(ms, bs, []) == ms
  {
  }

  lemma {:induction false} RememberedOnlyMarks(ms: Metas, bs: Bodies, xs: seq<Addr>)
    requires ms.Keys == bs.Keys && Closed(bs) && ListIn(xs, bs.Keys)
    ensures OnlyMarks(ms, MarkRemembered(ms, bs, xs))
  {
    forall a | a in xs ensures a in bs { }
    RememberedComplete(ms, bs, xs);
  }

  /** Marking leaves the list of big objects and their flags alone. */
  lemma {:induction false} BigStillThere(ms0: Metas, ms: Metas, bs: Bodies, first: Addr, bigs: seq<Addr>, i: nat)
    requires ms0.Keys == bs.Keys && Closed(bs) && BigList(ms0, first, bigs) && i < |bigs| &&
      ListIn(InBigSpace(ms0, bigs[..i]), bs.Keys)
    requires ms == MarkRemembered(ms0, bs, InBigSpace(ms0, bigs[..i]))
    ensures bigs[i] in ms && bigs[i] in bs && ms[bigs[i]].ptr == NextBig(bigs, i) && ms[bigs[i]].tag == ms0[bigs[i]].tag
    ensures InBigSpace(ms0, bigs[..i + 1]) == if ms0[bigs[i]].tag then InBigSpace(ms0, bigs[..i]) + [bigs[i]]
      else InBigSpace(ms0, bigs[..i])
    ensures ListIn(InBigSpace(ms0, bigs[..i + 1]), bs.Keys)
    ensures ms0[bigs[i]].tag ==> ValuesIn(bs[bigs[i]].fields, bs.Keys)
    ensures ms0[bigs[i]].tag ==>
      MarkRemembered(ms0, bs, InBigSpace(ms0, bigs[..i + 1])) == VisitAll(ms, bs, bs[bigs[i]].fields, O2Y)
  {
    hide VisitAll, MarkRemembered;
    var xs := InBigSpace(ms0, bigs[..i]);
    RememberedOnlyMarks(ms0, bs, xs);
    assert bigs[i] in ms0;
    assert MarkedFrom(ms0[bigs[i]], ms[bigs[i]]);
    assert bigs[..i + 1][..i] == bigs[..i];
    if ms0[bigs[i]].tag {
      var ys := xs + [bigs[i]];
      forall x | x in ys ensures x in bs.Keys { }
      MarkRememberedNext(ms0, bs, ys, |xs|);
      assert ys[..|xs|] == xs && ys[..|xs| + 1] == ys;
    }
  }

  /** What the marking of a fast collection gives. */
  ghost predicate YoungMarked(s: State, ms1: Metas)
  {
    var olds := OldSet(s.metas);
    var m := MarkedSet(ms1);
    OnlyMarks(s.metas, ms1) && m !! olds && YoungClosedSet(s.bodies, olds, s.roots, RememberedList(s), m) &&
    forall t :: YoungClosedSet(s.bodies, olds, s.roots, RememberedList(s), t) ==> m <= t
  }

  lemma YoungMarkingDone(s: State, ms1: Metas)
    requires Valid(s) && ListIn(RememberedList(s), s.bodies.Keys)
    requires ms1 == MarkYoung(s.metas, s.bodies, s.roots, RememberedList(s))
    ensures YoungMarked(s, ms1)
  {
    YoungMarkIsReachable(s.metas, s.bodies, s.roots, RememberedList(s));
  }

  /** The old objects and the marked young ones. */
  function Kept1(s: State, ms1: Metas): set<Addr>
  {
    OldSet(s.metas) + MarkedSet(ms1)
  }

  /** If all references from old to young objects are remembered, these are closed. */
  lemma SurvivorsClosed(s: State, ms1: Metas)
    requires Valid(s) && Generational(s) && YoungMarked(s, ms1)
    ensures ClosedSet(s.bodies, s.roots, Kept1(s, ms1))
  {
    hide ValidStorage, ValidFlags, RememberedList, ClassPrefix;
    var olds, m := OldSet(s.metas), MarkedSet(ms1);
    MarkReady(s);
    assert Kept1(s, ms1) == m + olds;
    forall a | a in m + olds ensures BodyIn(s.bodies[a], m + olds) {
      assert BodyIn(s.bodies[a], s.bodies.Keys);
      ClassIsOldHere(s, a);
      if a in m {
        assert StaysIn(s.bodies[a], RecY, m, olds);
      } else if a in RememberedList(s) {
      } else {
        assert NoYoung(s.metas, s.bodies[a]);
      }
    }
  }

  lemma ClassIsOldHere(s: State, a: Addr)
    requires Valid(s) && a in s.bodies
    ensures s.bodies[a].cls in OldSet(s.metas) && s.bodies[a].cls in OldAddrs(s.oldLay)
  {
    hide ValidStorage, ValidFlags, Closed, AllSized;
    OldObjects(s);
    FullCollectionClass(s, a);
  }

  lemma FullCollectionClass(s: State, a: Addr)
    requires ValidGraph(s) && a in s.bodies
    ensures s.bodies[a].cls in OldAddrs(s.oldLay)
  {
    assert ClassInPrefix(s.bodies[a], s.oldLay[0], s.classes);
    var j :| 0 <= j < s.classes && j < |s.oldLay[0]| && s.oldLay[0][j].at == s.bodies[a].cls;
    assert s.oldLay[0][j].at in OldAddrs(s.oldLay);
  }

  // ----- Updating references ------------------------------------------------

  /** The new place of a marked object is not marked: following PTR once is enough. */
  ghost predicate Hop(ms: Metas, a: Addr)
  {
    a in ms && ms[a].mrk ==> ms[a].ptr in ms && !ms[ms[a].ptr].mrk
  }

  /** What the updates of a fast collection rely on. */
  ghost predicate RenewSetting(ms: Metas, bs: Bodies)
  {
    ms.Keys == bs.Keys && Closed(bs) && AllSized(bs) && ClassesStay(ms, bs) && forall a {:trigger Hop(ms, a)} ::
      Hop(ms, a)
  }

  /** The objects `done` have been updated, some perhaps twice, and no others. */
  ghost predicate Renewed(ms: Metas, bs0: Bodies, bs: Bodies, done: set<Addr>)
  {
    bs.Keys == bs0.Keys &&
    forall a {:trigger bs[a]} :: a in bs ==> if a in done then ForwardedBody(ms, bs0[a], bs[a]) else bs[a] == bs0[a]
  }

  lemma ForwardedTwice(ms: Metas, v: Value)
    requires forall a {:trigger Hop(ms, a)} :: Hop(ms, a)
    ensures Forwarded(ms, Forwarded(ms, v)) == Forwarded(ms, v)
    ensures v.Ref? && v.at in ms ==> Forwarded(ms, v).at in ms
  {
    if v.Ref? { assert Hop(ms, v.at); }
  }

  lemma ForwardedBodyTwice(ms: Metas, b: Body, b': Body, b'': Body)
    requires forall a {:trigger Hop(ms, a)} :: Hop(ms, a)
    requires ForwardedBody(ms, b, b') && ForwardedBody(ms, b', b'')
    ensures ForwardedBody(ms, b, b'')
  {
    ForwardedTwice(ms, Ref(b.cls));
    forall i | 0 <= i < |b.fields| ensures b''.fields[i] == Forwarded(ms, b.fields[i]) {
      ForwardedTwice(ms, b.fields[i]);
      assert b'.fields[i] == Forwarded(ms, b.fields[i]);
    }
  }

  lemma RenewedStep(ms: Metas, bs0: Bodies, bs: Bodies, done: set<Addr>, a: Addr, b: Body)
    requires RenewSetting(ms, bs0) && Renewed(ms, bs0, bs, done) && a in bs && ForwardedBody(ms, bs[a], b)
    ensures Renewed(ms, bs0, bs[a := b], done + {a})
  {
    hide ForwardedBody;
    if a in done { ForwardedBodyTwice(ms, bs0[a], bs[a], b); }
  }

  /** References can be followed and sizes be read all the time. */
  lemma DuringRenew(ms: Metas, bs0: Bodies, bs: Bodies, done: set<Addr>)
    requires RenewSetting(ms, bs0) && Renewed(ms, bs0, bs, done)
    ensures ms.Keys == bs.Keys && AllSized(bs)
    ensures forall a {:trigger bs[a]} :: a in bs ==> BodyIn(bs[a], ms.Keys) && Size(bs[a]) == Size(bs0[a])
  {
    forall a | a in bs ensures Sized(bs, a) && BodyIn(bs[a], ms.Keys) {
      assert Sized(bs0, a) && ClassStays(ms, bs0[a]) && BodyIn(bs0[a], bs0.Keys);
      var c := bs0[a].cls;
      assert bs[a].cls == c && bs[c].data == bs0[c].data;
      if a in done { ForwardedIn(ms, bs0[a].fields, bs[a].fields); }
    }
  }

  lemma ForwardedIn(ms: Metas, vs: seq<Value>, vs': seq<Value>)
    requires forall a {:trigger Hop(ms, a)} :: Hop(ms, a)
    requires ForwardedValues(ms, vs, vs') && ValuesIn(vs, ms.Keys)
    ensures ValuesIn(vs', ms.Keys)
  {
    forall v | v in vs' && v.Ref? ensures v.at in ms.Keys {
      var i :| 0 <= i < |vs'| && vs'[i] == v;
      assert vs[i] in vs;
      ForwardedTwice(ms, vs[i]);
    }
  }

  /** The metas differ in has-young bits only. */
  ghost predicate SameButTags(ms: Metas, ms': Metas)
  {
    ms'.Keys == ms.Keys && forall a {:trigger ms'[a]} :: a in ms' ==> ms'[a].(tag := ms[a].tag) == ms[a]
  }

  lemma ForwardedSame(ms: Metas, ms': Metas, b: Body, b': Body)
    requires SameButTags(ms, ms') && ForwardedBody(ms', b, b')
    ensures ForwardedBody(ms, b, b')
  {
    forall v ensures Forwarded(ms, v) == Forwarded(ms', v) {
      if v.Ref? && v.at in ms' { assert ms'[v.at].mrk == ms[v.at].mrk; }
    }
  }

  lemma OccupiedDuringRenew(ms: Metas, bs0: Bodies, bs: Bodies, done: set<Addr>, lay: seq<Block>)
    requires RenewSetting(ms, bs0) && Renewed(ms, bs0, bs, done) && Occupied(bs0, lay)
    ensures Occupied(bs, lay) && AllSized(bs)
  {
    hide RenewSetting, AllSized;
    DuringRenew(ms, bs0, bs, done);
  }

  lemma SizeDuringRenew(ms: Metas, bs0: Bodies, bs: Bodies, done: set<Addr>, a: Addr)
    requires RenewSetting(ms, bs0) && Renewed(ms, bs0, bs, done) && a in bs
    ensures a in bs0 && Size(bs[a]) == Size(bs0[a])
  {
    hide RenewSetting, AllSized;
    DuringRenew(ms, bs0, bs, done);
  }

  lemma BodyDuringRenew(ms: Metas, bs0: Bodies, bs: Bodies, done: set<Addr>, a: Addr)
    requires RenewSetting(ms, bs0) && Renewed(ms, bs0, bs, done) && a in bs
    ensures BodyIn(bs[a], ms.Keys)
  {
    hide RenewSetting, AllSized;
    DuringRenew(ms, bs0, bs, done);
  }

  lemma KeysDuringRenew(ms: Metas, bs0: Bodies, bs: Bodies, done: set<Addr>)
    requires RenewSetting(ms, bs0) && Renewed(ms, bs0, bs, done)
    ensures ms.Keys == bs0.Keys == bs.Keys && SameButTags(ms, ms)
  {
  }

  function Elems(xs: seq<Addr>): set<Addr>
  {
    set x | x in xs
  }

  lemma ElemsNone()
    ensures Elems([]) == {}
  {
  }

  lemma ElemsAppend(xs: seq<Addr>, ys: seq<Addr>)
    ensures Elems(xs + ys) == Elems(xs) + Elems(ys)
  {
  }

  // ----- Clearing has-young bits --------------------------------------------

  /** The has-young bits of `cleared` are cleared and no other bit has changed. */
  ghost predicate TagsCleared(ms: Metas, ms': Metas, cleared: seq<Addr>)
  {
    ms'.Keys == ms.Keys && forall a {:trigger ms'[a]} ::
      a in ms' ==> ms'[a] == if a in cleared then ms[a].(tag := false) else ms[a]
  }

  lemma {:induction false} NoneInBigSpace(ms: Metas)
    ensures InBigSpace(ms, []) == []
  {
  }

  lemma ClearStart(ms: Metas, first: Addr, bigs: seq<Addr>)
    requires BigList(ms, first, bigs)
    ensures TagsCleared(ms, ms, []) && first == (if bigs == [] then NULL else bigs[0])
    ensures forall k {:trigger bigs[k]} :: 0 <= k < |bigs| ==> bigs[k] != NULL
  {
  }

  lemma {:induction false} ClearNext(ms0: Metas, ms: Metas, first: Addr, bigs: seq<Addr>, i: nat)
    requires i < |bigs| && BigList(ms0, first, bigs) && DistinctRegions(bigs) && TagsCleared(ms0, ms, bigs[..i])
    ensures bigs[i] in ms0 && bigs[i] in ms && ms[bigs[i]] == ms0[bigs[i]] && ms[bigs[i]].ptr == NextBig(bigs, i) &&
      SameButTags(ms0, ms)
    ensures InBigSpace(ms0, bigs[..i + 1]) == if ms0[bigs[i]].tag then InBigSpace(ms0, bigs[..i]) + [bigs[i]]
      else InBigSpace(ms0, bigs[..i])
    ensures TagsCleared(ms0, if ms0[bigs[i]].tag then ms[bigs[i] := ms[bigs[i]].(tag := false)] else ms, bigs[..i + 1])
  {
    hide BigList, DistinctRegions;
    ListEntry(ms0, first, bigs, i);
    assert bigs[..i + 1] == bigs[..i] + [bigs[i]];
    assert bigs[..i + 1][..i] == bigs[..i];
  }

  lemma ListEntry(ms: Metas, first: Addr, bigs: seq<Addr>, i: nat)
    requires BigList(ms, first, bigs) && DistinctRegions(bigs) && i < |bigs|
    ensures bigs[i] in ms && ms[bigs[i]].ptr == NextBig(bigs, i) && bigs[i] !in bigs[..i]
  {
    forall x | x in bigs[..i] ensures x != bigs[i] {
      var k :| 0 <= k < i && bigs[k] == x;
      Different(bigs, k, i);
    }
  }

  lemma ClearDone(ms0: Metas, ms: Metas, first: Addr, bigs: seq<Addr>, i: nat)
    requires BigList(ms0, first, bigs) && i <= |bigs| && TagsCleared(ms0, ms, bigs[..i])
    requires forall k :: i <= k < |bigs| ==> bigs[k] in ms0 ==> !ms0[bigs[k]].tag
    ensures TagsCleared(ms0, ms, bigs)
  {
    forall a | a in ms ensures ms[a] == if a in bigs then ms0[a].(tag := false) else ms0[a] {
      if a in bigs {
        var k :| 0 <= k < |bigs| && bigs[k] == a;
        if k < i { assert bigs[..i][k] == a; }
      }
    }
  }
}
