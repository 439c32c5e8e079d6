/** What a fast collection leaves behind. */
module FastOutcome {
  import opened ObjectHeap
  import opened Layout
  import opened Marking
  import opened Spaces
  import opened BigSpace
  import opened Relocation
  import opened Updating
  import opened Moving
  import opened Invariant
  import opened FullCollection
  import opened Outcome
  import opened RememberedObjects
  import opened Copying
  import opened FastCollection

  // ----- After marking ------------------------------------------------------

  /** Where the survivors of `s` are copied. */
  function TargetOf(s: State): Target
    requires s.olds != []
  {
    Target(s.free.id, s.olds[|s.olds| - 1].id, s.olds[|s.olds| - 1].top)
  }

  lemma TargetFree(s: State)
    requires Valid(s)
    ensures s.olds != [] && SpaceFree(s.bodies, TargetOf(s)) && TargetOf(s).toId != TargetOf(s).lastId
    ensures META_SIZE <= TargetOf(s).top < OLD_END
  {
    hide ValidFlags, Closed, AllSized;
    var n := |s.olds| - 1;
    var g := TargetOf(s);
    StoredAt(s.bodies, s.olds, s.oldLay, n);
    if s.oldLay[n] != [] { TopAbove(s.olds[n].id, META_SIZE, s.oldLay[n], 0); }
    forall x | x in s.bodies ensures x.chunk != g.toId && (x.chunk == g.lastId ==> x.off + Size(s.bodies[x]) <= g.top) {
      PlaceIn(s, x);
    }
  }

  /** Where an object lies. */
  lemma PlaceIn(s: State, x: Addr)
    requires ValidStorage(s) && s.olds != [] && x in s.bodies
    ensures x.chunk != s.free.id
    ensures x.chunk == s.working.id <==> x in AddrsOf(s.workLay)
    ensures x.chunk == s.olds[|s.olds| - 1].id ==> x.off + Size(s.bodies[x]) <= s.olds[|s.olds| - 1].top
  {
    hide Regions, WorkingStored, OldsStored;
    RegionsApart(s);
    if x in AddrsOf(s.workLay) {
      YoungPlace(s, x);
    } else if x in OldAddrs(s.oldLay) {
      OldPlace(s, x);
    } else {
      var k :| 0 <= k < |s.bigs| && s.bigs[k] == x;
      BigPlace(s, k);
    }
  }

  lemma RegionsApart(s: State)
    requires ValidStorage(s) && s.olds != []
    ensures s.working.id != s.free.id && s.olds[|s.olds| - 1].id != s.working.id && s.olds[|s.olds| - 1].id != s.free.id
  {
  }

  lemma YoungPlace(s: State, x: Addr)
    requires ValidStorage(s) && x in AddrsOf(s.workLay)
    ensures x.chunk == s.working.id
  {
    var j :| 0 <= j < |s.workLay| && s.workLay[j].at == x;
  }

  lemma OldRegion(s: State, i: nat)
    requires ValidStorage(s) && i < |s.olds|
    ensures s.olds[i].id != s.free.id && s.olds[i].id != s.working.id
    ensures s.olds[i].id == s.olds[|s.olds| - 1].id ==> i == |s.olds| - 1
    ensures i < |s.oldLay| && Stored(s.bodies, s.olds[i].id, META_SIZE, s.olds[i].top, OLD_END, s.oldLay[i])
  {
    hide WorkingStored, AllRememberedStored, Stored;
    StoredAt(s.bodies, s.olds, s.oldLay, i);
    assert i < |s.olds| - 1 ==> Before(i, |s.olds| - 1);
  }

  lemma OldPlace(s: State, x: Addr)
    requires ValidStorage(s) && s.olds != [] && x in OldAddrs(s.oldLay)
    ensures x in s.bodies && x.chunk != s.free.id && x.chunk != s.working.id
    ensures x.chunk == s.olds[|s.olds| - 1].id ==> x.off + Size(s.bodies[x]) <= s.olds[|s.olds| - 1].top
  {
    hide WorkingStored, AllRememberedStored, Tiled, Regions, OldsStored;
    var i, j :| 0 <= i < |s.oldLay| && 0 <= j < |s.oldLay[i]| && s.oldLay[i][j].at == x;
    OldCount(s);
    OldRegion(s, i);
    BlockEnd(s.olds[i].id, META_SIZE, s.oldLay[i], j);
  }

  lemma OldCount(s: State)
    requires ValidStorage(s)
    ensures |s.oldLay| == |s.olds|
  {
  }

  lemma BlockEnd(id: nat, start: nat, lay: seq<Block>, j: nat)
    requires Tiled(id, start, lay) && j < |lay|
    ensures lay[j].at.chunk == id && lay[j].at.off + lay[j].size <= Top(start, lay)
  {
    TopAbove(id, start, lay, j);
  }

  lemma BigPlace(s: State, k: nat)
    requires ValidStorage(s) && s.olds != [] && k < |s.bigs|
    ensures s.bigs[k].chunk != s.free.id && s.bigs[k].chunk != s.working.id &&
      s.bigs[k].chunk != s.olds[|s.olds| - 1].id
  {
  }

  lemma MarkedAreYoung(s: State, ms1: Metas)
    requires Valid(s) && YoungMarked(s, ms1)
    ensures MarkedSet(ms1) <= AddrsOf(s.workLay) && ms1.Keys == s.bodies.Keys
    ensures OldSet(s.metas) + AddrsOf(s.workLay) == s.bodies.Keys && OldSet(s.metas) !! AddrsOf(s.workLay)
  {
    hide ValidFlags, ValidGraph, RememberedList, YoungClosedSet;
    OldObjects(s);
  }

  /** Copying changes PTR words only. */
  lemma SourceMetas(ms1: Metas, src: Metas, plan: Plan, scanned: set<Addr>)
    requires Redirections(ms1, src, plan, scanned)
    ensures src.Keys == ms1.Keys
    ensures forall a {:trigger src[a]} ::
      a in src ==> src[a].mrk == ms1[a].mrk && src[a].gen == ms1[a].gen && src[a].mid == ms1[a].mid
  {
  }

  // ----- After copying ------------------------------------------------------

  /** The phases up to the copies. */
  ghost predicate Copied(s: State, ms1: Metas, src: Metas, plan: Plan, ms6: Metas, bs6: Bodies)
  {
    Valid(s) && YoungMarked(s, ms1) && s.olds != [] &&
    CopyState(ms1, src, s.bodies, TargetOf(s), plan, AddrsOf(s.workLay), ms6, bs6)
  }

  lemma CopiedClosed(s: State, ms1: Metas, src: Metas, plan: Plan, ms6: Metas, bs6: Bodies)
    requires Copied(s, ms1, src, plan, ms6, bs6)
    ensures ms6.Keys == bs6.Keys && Closed(bs6) && AllSized(bs6)
  {
    hide ValidStorage, ValidFlags, ClassPrefix, YoungMarked, CopyTiled, PlanAssigned, Redirections, SpaceFree;
    forall a | a in bs6 ensures BodyIn(bs6[a], bs6.Keys) && Sized(bs6, a) {
      var a0 := if a in s.bodies then a else plan.from[a];
      assert a0 in s.bodies && bs6[a] == s.bodies[a0];
      assert BodyIn(s.bodies[a0], s.bodies.Keys) && Sized(s.bodies, a0);
      var c := s.bodies[a0].cls;
      assert bs6[c] == s.bodies[c];
    }
  }

  lemma CopiedHops(s: State, ms1: Metas, src: Metas, plan: Plan, ms6: Metas, bs6: Bodies)
    requires Copied(s, ms1, src, plan, ms6, bs6)
    ensures ClassesStay(ms6, bs6) && forall a {:trigger Hop(ms6, a)} :: Hop(ms6, a)
  {
    hide ValidStorage, ValidFlags, ValidGraph, CopyTiled, PlanAssigned, SpaceFree, YoungClosedSet, RememberedList;
    MarkedAreYoung(s, ms1);
    SourceMetas(ms1, src, plan, AddrsOf(s.workLay));
    forall d | d in plan.from ensures !ms6[d].mrk {
      assert plan.from[d] == plan.from[d];
    }
    forall a ensures Hop(ms6, a) {
      if a in s.bodies && ms6[a].mrk {
        assert ms6[a] == src[a] && a in MarkedSet(ms1);
        assert Relocated(src, plan.from, a);
        assert plan.from[src[a].ptr] == a;
      }
    }
    forall a | a in bs6 ensures ClassStays(ms6, bs6[a]) {
      var a0 := if a in s.bodies then a else plan.from[a];
      assert a0 in s.bodies && bs6[a] == s.bodies[a0];
      ClassIsOldHere(s, a0);
      var c := s.bodies[a0].cls;
      assert src[c].mrk == ms1[c].mrk && c !in MarkedSet(ms1);
      assert ms6[c] == src[c];
    }
  }

  lemma CopiedReady(s: State, ms1: Metas, src: Metas, plan: Plan, ms6: Metas, bs6: Bodies)
    requires Copied(s, ms1, src, plan, ms6, bs6)
    ensures s.olds != [] && RenewSetting(ms6, bs6) && Renewed(ms6, bs6, bs6, {}) &&
      bs6.Keys == s.bodies.Keys + plan.from.Keys
  {
    hide Closed, AllSized, ClassesStay, CopyState, Valid, YoungMarked;
    CopiedClosed(s, ms1, src, plan, ms6, bs6);
    CopiedHops(s, ms1, src, plan, ms6, bs6);
    CopiedKeys(s, ms1, src, plan, ms6, bs6);
  }

  lemma CopiedKeys(s: State, ms1: Metas, src: Metas, plan: Plan, ms6: Metas, bs6: Bodies)
    requires Copied(s, ms1, src, plan, ms6, bs6)
    ensures bs6.Keys == ms6.Keys == s.bodies.Keys + plan.from.Keys && s.bodies.Keys !! plan.from.Keys &&
      src.Keys == s.bodies.Keys
    ensures forall a {:trigger bs6[a]} {:trigger ms6[a]} :: a in s.bodies ==> bs6[a] == s.bodies[a] && ms6[a] == src[a]
    ensures forall d {:trigger plan.from[d]} :: d in plan.from ==>
      plan.from[d] in s.bodies && bs6[d] == s.bodies[plan.from[d]] && ms6[d] == FinalMeta(s.free.id, d)
    ensures Redirections(ms1, src, plan, AddrsOf(s.workLay)) && PlanAssigned(src, s.bodies, plan) &&
      CopyTiled(TargetOf(s), plan)
  {
    hide Valid, YoungMarked, CopyTiled, PlanAssigned, Redirections, SpaceFree;
  }

  // ----- After the updates --------------------------------------------------

  /** All phases of a fast collection of `s`, up to the end of the updates. */
  ghost predicate FastFinished(s: State, ms1: Metas, src: Metas, plan: Plan, ms6: Metas, bs6: Bodies, bs7: Bodies,
      done: set<Addr>)
  {
    Copied(s, ms1, src, plan, ms6, bs6) && Generational(s) && Renewed(ms6, bs6, bs7, done) &&
    plan.from.Keys + Elems(RememberedList(s)) <= done
  }

  /** Objects in a region. */
  function InRegion(bs: Bodies, id: nat): set<Addr>
  {
    set a | a in bs && a.chunk == id
  }

  lemma ForwardedAgrees(s: State, ms6: Metas, src: Metas, b: Body, b': Body)
    requires ForwardedBody(ms6, b, b') && BodyIn(b, s.bodies.Keys) && src.Keys == s.bodies.Keys
    requires s.bodies.Keys <= ms6.Keys && forall a {:trigger ms6[a]} :: a in s.bodies ==> ms6[a] == src[a]
    ensures ForwardedBody(src, b, b')
  {
    assert ms6[b.cls] == src[b.cls];
    forall i | 0 <= i < |b.fields| ensures b'.fields[i] == Forwarded(src, b.fields[i]) {
      assert b.fields[i] in b.fields;
      assert b'.fields[i] == Forwarded(ms6, b.fields[i]);
      if b.fields[i].Ref? { assert ms6[b.fields[i].at] == src[b.fields[i].at]; }
    }
  }

  /** An old object without young references needs no update. */
  lemma NothingForwarded(s: State, ms1: Metas, src: Metas, a: Addr)
    requires Valid(s) && YoungMarked(s, ms1) && src.Keys == s.bodies.Keys && a in s.bodies &&
      NoYoung(s.metas, s.bodies[a])
    requires forall x {:trigger src[x]} :: x in src ==> x in ms1 && src[x].mrk == ms1[x].mrk
    ensures ForwardedBody(src, s.bodies[a], s.bodies[a])
  {
    hide Valid, ValidFlags, ClassPrefix, AllSized, RememberedList, YoungClosedSet, YoungMarked;
    var b := s.bodies[a];
    BodyKnown(s, a);
    SameKeys(s);
    MarkedAreYoung(s, ms1);
    ClassIsOldHere(s, a);
    assert !src[b.cls].mrk by { assert b.cls !in MarkedSet(ms1); }
    forall i | 0 <= i < |b.fields| ensures b.fields[i] == Forwarded(src, b.fields[i]) {
      assert b.fields[i] in b.fields;
      if b.fields[i].Ref? {
        var x := b.fields[i].at;
        assert x in OldSet(s.metas) && x !in MarkedSet(ms1);
        assert src[x].mrk == ms1[x].mrk;
      }
    }
  }

  lemma OldUpdated(s: State, ms1: Metas, src: Metas, plan: Plan, ms6: Metas, bs6: Bodies, bs7: Bodies, done: set<Addr>,
      a: Addr)
    requires FastFinished(s, ms1, src, plan, ms6, bs6, bs7, done) && a in OldSet(s.metas)
    ensures a in s.bodies && a in bs7 && ForwardedBody(src, s.bodies[a], bs7[a])
  {
    hide ValidStorage, ValidFlags, ValidGraph, CopyState, YoungMarked, RememberedList, ForwardedBody, Closed;
    MarkReady(s);
    CopiedKeys(s, ms1, src, plan, ms6, bs6);
    SourceMetas(ms1, src, plan, AddrsOf(s.workLay));
    BodyKnown(s, a);
    assert bs6[a] == s.bodies[a];
    if a in done {
      ForwardedAgrees(s, ms6, src, s.bodies[a], bs7[a]);
    } else {
      assert a !in RememberedList(s) by { assert a !in Elems(RememberedList(s)); }
      assert NoYoung(s.metas, s.bodies[a]);
      NothingForwarded(s, ms1, src, a);
    }
  }

  lemma SameKeys(s: State)
    requires Valid(s)
    ensures s.metas.Keys == s.bodies.Keys
  {
    hide ValidFlags, ValidGraph, WorkingStored, OldsStored, Regions;
  }

  lemma BodyKnown(s: State, a: Addr)
    requires Valid(s) && a in s.bodies
    ensures BodyIn(s.bodies[a], s.bodies.Keys)
  {
    hide ValidStorage, ValidFlags, AllSized, ClassPrefix;
  }

  lemma CopyUpdated(s: State, ms1: Metas, src: Metas, plan: Plan, ms6: Metas, bs6: Bodies, bs7: Bodies, done: set<Addr>,
      d: Addr)
    requires FastFinished(s, ms1, src, plan, ms6, bs6, bs7, done) && d in plan.from
    ensures plan.from[d] in s.bodies && d in bs7 && ForwardedBody(src, s.bodies[plan.from[d]], bs7[d])
  {
    hide Valid, CopyState, YoungMarked, RememberedList, ForwardedBody, Generational, Elems;
    CopiedKeys(s, ms1, src, plan, ms6, bs6);
    BodyKnown(s, plan.from[d]);
    assert bs6[d] == s.bodies[plan.from[d]] && bs7[d] == bs7[d];
    ForwardedAgrees(s, ms6, src, s.bodies[plan.from[d]], bs7[d]);
  }

  lemma CopySource(s: State, ms1: Metas, src: Metas, plan: Plan, ms6: Metas, bs6: Bodies, d: Addr)
    requires Copied(s, ms1, src, plan, ms6, bs6) && d in plan.from
    ensures plan.from[d] in MarkedSet(ms1) && src[plan.from[d]].ptr == d
    ensures d.chunk == s.free.id || d.chunk == s.olds[|s.olds| - 1].id
  {
    hide Valid, YoungMarked, RememberedList, SpaceFree, Tiled, AddrsOf, OldAddrs;
    CopiedKeys(s, ms1, src, plan, ms6, bs6);
    SourceMetas(ms1, src, plan, AddrsOf(s.workLay));
    CopiesBefore(src, s.bodies, TargetOf(s), plan, d);
    var inOld, j := PlanAddr(plan, d);
    assert if inOld then Assigned(src, s.bodies, plan.from, plan.oldLay[0][j])
      else Assigned(src, s.bodies, plan.from, plan.toLay[j]) by {
      assert inOld ==> AllAssigned(src, s.bodies, plan.from, plan.oldLay[0]);
    }
  }

  /** Only old objects and copies are left when from-space has been released. */
  lemma KeysLeft(s: State, ms1: Metas, src: Metas, plan: Plan, ms6: Metas, bs6: Bodies, bs7: Bodies)
    requires Copied(s, ms1, src, plan, ms6, bs6) && bs7.Keys == bs6.Keys
    ensures (bs7 - InRegion(bs7, s.working.id)).Keys == plan.from.Keys + OldSet(s.metas) &&
      plan.from.Keys !! OldSet(s.metas)
  {
    hide ValidFlags, ValidGraph, ValidStorage, YoungMarked, CopyState, RememberedList;
    CopiedKeys(s, ms1, src, plan, ms6, bs6);
    MarkedAreYoung(s, ms1);
    RegionsApart(s);
    forall x | x in s.bodies ensures x.chunk == s.working.id <==> x !in OldSet(s.metas) { PlaceIn(s, x); }
    forall d | d in plan.from ensures d.chunk != s.working.id { CopySource(s, ms1, src, plan, ms6, bs6, d); }
  }

  /** Every marked young object has a copy. */
  lemma CopyOf(s: State, ms1: Metas, src: Metas, plan: Plan, ms6: Metas, bs6: Bodies, a: Addr)
    requires Copied(s, ms1, src, plan, ms6, bs6) && a in MarkedSet(ms1)
    ensures a in src && src[a].mrk && Relocated(src, plan.from, a) && a !in OldSet(s.metas)
  {
    hide ValidFlags, ValidGraph, ValidStorage, CopyTiled, PlanAssigned, SpaceFree, RememberedList, YoungClosedSet;
    MarkedAreYoung(s, ms1);
    SourceMetas(ms1, src, plan, AddrsOf(s.workLay));
    assert src[a].mrk == ms1[a].mrk;
  }

  /** The bodies of the survivors after the updates, by their old addresses. */
  function ByOrigin(bs: Bodies, olds: set<Addr>, src: Metas, marked: set<Addr>): Bodies
    requires marked <= src.Keys && olds <= bs.Keys && forall a {:trigger src[a]} ::
      a in marked - olds ==> src[a].ptr in bs
  {
    map a | a in marked :: if a in olds then bs[a] else bs[src[a].ptr]
  }

  lemma TransferredFrom(bs: Bodies, marked: set<Addr>, olds: set<Addr>, src: Metas, from: map<Addr, Addr>, bs5: Bodies)
      returns (bs4: Bodies)
    requires marked <= src.Keys && marked <= bs.Keys && olds <= marked && from.Keys !! olds &&
      bs5.Keys == from.Keys + olds
    requires forall a {:trigger src[a].mrk} :: a in marked ==> (src[a].mrk <==> a !in olds)
    requires forall a {:trigger Relocated(src, from, a)} :: a in marked - olds ==> Relocated(src, from, a)
    requires forall d {:trigger from[d]} :: d in from ==> from[d] in marked - olds && src[from[d]].ptr == d
    requires forall d {:trigger from[d]} :: d in from ==> ForwardedBody(src, bs[from[d]], bs5[d])
    requires forall a {:trigger bs5[a]} :: a in olds ==> ForwardedBody(src, bs[a], bs5[a])
    ensures Transferred(bs, marked, olds, src, from, bs4, bs5)
  {
    hide ForwardedBody;
    forall a | a in marked - olds ensures src[a].ptr in from && from[src[a].ptr] == a {
      assert Relocated(src, from, a);
    }
    bs4 := ByOrigin(bs5, olds, src, marked);
    forall a | a in marked ensures ForwardedBody(src, bs[a], bs4[a]) {
      if a in olds { assert bs4[a] == bs5[a]; }
    }
  }

  lemma FastTransferred(s: State, ms1: Metas, src: Metas, plan: Plan, ms6: Metas, bs6: Bodies, bs7: Bodies,
      done: set<Addr>, bs5: Bodies)
    returns (bs4: Bodies)
    requires FastFinished(s, ms1, src, plan, ms6, bs6, bs7, done) && bs5 == bs7 - InRegion(bs7, s.working.id)
    ensures Transferred(s.bodies, Kept1(s, ms1), OldSet(s.metas), src, plan.from, bs4, bs5)
  {
    hide Copied, FastFinished, Generational, RememberedList, ForwardedBody, CopyTiled, PlanAssigned, Redirections,
      Valid, YoungMarked, Transferred, OldSet, MarkedSet,
      AddrsOf, OldAddrs;
    var olds, marked := OldSet(s.metas), Kept1(s, ms1);
    FinishedParts(s, ms1, src, plan, ms6, bs6, bs7, done);
    CopiedKeys(s, ms1, src, plan, ms6, bs6);
    KeysLeft(s, ms1, src, plan, ms6, bs6, bs7);
    forall a | a in marked - olds ensures a in src && Relocated(src, plan.from, a) && src[a].mrk {
      CopyOf(s, ms1, src, plan, ms6, bs6, a);
    }
    forall a | a in olds ensures a in src && !src[a].mrk { OldUnmarked(s, ms1, src, plan, ms6, bs6, a); }
    forall d | d in plan.from
      ensures plan.from[d] in marked - olds && src[plan.from[d]].ptr == d &&
        ForwardedBody(src, s.bodies[plan.from[d]], bs5[d])
    {
      CopySource(s, ms1, src, plan, ms6, bs6, d);
      CopyOf(s, ms1, src, plan, ms6, bs6, plan.from[d]);
      CopyUpdated(s, ms1, src, plan, ms6, bs6, bs7, done, d);
    }
    forall a | a in olds ensures ForwardedBody(src, s.bodies[a], bs5[a]) {
      OldUpdated(s, ms1, src, plan, ms6, bs6, bs7, done, a);
    }
    bs4 := TransferredFrom(s.bodies, marked, olds, src, plan.from, bs5);
  }

  lemma OldUnmarked(s: State, ms1: Metas, src: Metas, plan: Plan, ms6: Metas, bs6: Bodies, a: Addr)
    requires Copied(s, ms1, src, plan, ms6, bs6) && a in OldSet(s.metas)
    ensures a in src && !src[a].mrk
  {
    hide ValidStorage, ValidGraph, CopyTiled, PlanAssigned, SpaceFree, RememberedList, YoungClosedSet;
    SourceMetas(ms1, src, plan, AddrsOf(s.workLay));
    MarkReady(s);
    assert a !in MarkedSet(ms1) && src[a].mrk == ms1[a].mrk;
  }

  lemma FinishedParts(s: State, ms1: Metas, src: Metas, plan: Plan, ms6: Metas, bs6: Bodies, bs7: Bodies,
      done: set<Addr>)
    requires FastFinished(s, ms1, src, plan, ms6, bs6, bs7, done)
    ensures Copied(s, ms1, src, plan, ms6, bs6) && bs7.Keys == bs6.Keys && OldSet(s.metas) <= s.bodies.Keys &&
      MarkedSet(ms1) <= s.bodies.Keys
    ensures Valid(s) && YoungMarked(s, ms1) && Generational(s)
  {
    hide ValidGraph, ValidFlags, CopyState, RememberedList, Generational;
    MarkedAreYoung(s, ms1);
  }

  // ----- The theorem --------------------------------------------------------

  /** What a fast collection does for the program: `f` keeps the old objects where they are
      and takes the young ones that are still needed to their new places; what it is defined
      on includes everything reachable, and the new heap holds nothing else. */
  ghost predicate YoungPreserved(s: State, t: State, f: map<Addr, Addr>)
  {
    OldSet(s.metas) <= f.Keys && (forall a {:trigger f[a]} :: a in OldSet(s.metas) ==> f[a] == a) &&
      f.Values == t.bodies.Keys &&
    Isomorphic(s.bodies, s.roots, t.bodies, t.roots, f)
  }

  lemma FastIsomorphic(s: State, ms1: Metas, src: Metas, plan: Plan, ms6: Metas, bs6: Bodies, bs7: Bodies,
      done: set<Addr>, bs5: Bodies,
      roots5: seq<Value>)
    requires FastFinished(s, ms1, src, plan, ms6, bs6, bs7, done) && bs5 == bs7 - InRegion(bs7, s.working.id)
    requires ForwardedValues(ms6, s.roots, roots5)
    ensures Kept1(s, ms1) <= src.Keys
    ensures Isomorphic(s.bodies, s.roots, bs5, roots5, NewPlaces(src, Kept1(s, ms1))) &&
      NewPlaces(src, Kept1(s, ms1)).Values == bs5.Keys
    ensures forall a :: a in OldSet(s.metas) ==> a in Kept1(s, ms1) && NewPlaces(src, Kept1(s, ms1))[a] == a
  {
    hide Copied, FastFinished, Generational, RememberedList, Redirections, CopyTiled, PlanAssigned, InRegion,
      Isomorphic, Transferred, ClosedSet, Valid, YoungMarked,
      ForwardedValues;
    FinishedParts(s, ms1, src, plan, ms6, bs6, bs7, done);
    CopiedKeys(s, ms1, src, plan, ms6, bs6);
    SurvivorsClosed(s, ms1);
    var bs4 := FastTransferred(s, ms1, src, plan, ms6, bs6, bs7, done, bs5);
    RootsAgree(s, ms6, src, roots5);
    forall a | a in OldSet(s.metas) ensures !src[a].mrk { OldUnmarked(s, ms1, src, plan, ms6, bs6, a); }
    TransferIsomorphic(s.bodies, s.roots, Kept1(s, ms1), OldSet(s.metas), src, plan.from, bs4, bs5, roots5);
  }

  lemma RootsAgree(s: State, ms6: Metas, src: Metas, roots5: seq<Value>)
    requires Valid(s) && ForwardedValues(ms6, s.roots, roots5) && src.Keys == s.bodies.Keys
    requires s.bodies.Keys <= ms6.Keys && forall a {:trigger ms6[a]} :: a in s.bodies ==> ms6[a] == src[a]
    ensures ForwardedValues(src, s.roots, roots5)
  {
    MarkReady(s);
    hide Valid;
    forall i | 0 <= i < |s.roots| ensures roots5[i] == Forwarded(src, s.roots[i]) {
      assert s.roots[i] in s.roots;
      assert roots5[i] == Forwarded(ms6, s.roots[i]);
      if s.roots[i].Ref? { assert ms6[s.roots[i].at] == src[s.roots[i].at]; }
    }
  }

  // ----- The spaces afterwards ----------------------------------------------

  /** The state after the collection: from-space released, the last old chunk grown, all
      remembered objects forgotten. */
  ghost predicate FastSettled(s: State, t: State, plan: Plan, ms6: Metas, ms7: Metas, bs7: Bodies)
  {
    s.olds != [] && |s.oldLay| == |s.olds| && |plan.oldLay| == 1 &&
    t.working == Chunk(s.free.id, Top(0, plan.toLay)) && t.working.top < NEW_END && t.free == s.working &&
      t.workLay == plan.toLay &&
    t.olds == Grown(s.olds, Top(TargetOf(s).top, plan.oldLay[0])) && Top(TargetOf(s).top, plan.oldLay[0]) < OLD_END &&
    t.oldLay == GrownLay(s.oldLay, plan.oldLay[0]) &&
    t.bigs == s.bigs && t.bigFirst == s.bigFirst && t.bigAllocated == s.bigAllocated && t.regions == s.regions &&
      t.classes == s.classes &&
    bs7.Keys == ms7.Keys && TagsCleared(ms6, ms7, s.bigs) &&
    t.bodies == bs7 - InRegion(bs7, s.working.id) && t.metas == ms7 - InRegion(bs7, s.working.id)
  }

  function Grown(olds: seq<OldChunk>, top: nat): (r: seq<OldChunk>)
    ensures |r| == |olds|
  {
    seq(|olds|, k requires 0 <= k < |olds| => OldChunk(olds[k].id, if k == |olds| - 1 then top
      else olds[k].top, olds[k].visited, Absent))
  }

  function GrownLay(lays: seq<seq<Block>>, lay: seq<Block>): seq<seq<Block>>
    requires lays != []
  {
    lays[|lays| - 1 := lays[|lays| - 1] + lay]
  }

  lemma TiledConcat(id: nat, start: nat, xs: seq<Block>, ys: seq<Block>)
    requires Tiled(id, start, xs) && Tiled(id, Top(start, xs), ys)
    ensures Tiled(id, start, xs + ys) && Top(start, xs + ys) == Top(Top(start, xs), ys)
  {
    var zs := xs + ys;
    var n := |xs|;
    if xs != [] { TopAbove(id, start, xs, 0); }
    forall j, k | 0 <= j && Before(j, k) && k < |zs|
      ensures End(zs[j]) <= zs[k].at.off && (k == j + 1 ==> End(zs[j]) == zs[k].at.off) {
      if j < n && n <= k { TopAbove(id, start, xs, j); }
      if n <= j { assert Before(j - n, k - n); }
    }
  }

  lemma GrownAddrsOf(lays: seq<seq<Block>>, lay: seq<Block>)
    requires lays != []
    ensures OldAddrs(GrownLay(lays, lay)) == OldAddrs(lays) + AddrsOf(lay)
  {
    var n := |lays| - 1;
    var lays' := GrownLay(lays, lay);
    forall x | x in OldAddrs(lays) + AddrsOf(lay) ensures x in OldAddrs(lays') {
      if x in OldAddrs(lays) {
        var i, j :| 0 <= i < |lays| && 0 <= j < |lays[i]| && lays[i][j].at == x;
        assert lays'[i][j] == lays[i][j];
      } else {
        var j :| 0 <= j < |lay| && lay[j].at == x;
        assert lays'[n][|lays[n]| + j] == lay[j];
      }
    }
    forall x | x in OldAddrs(lays') ensures x in OldAddrs(lays) + AddrsOf(lay) {
      var i, j :| 0 <= i < |lays'| && 0 <= j < |lays'[i]| && lays'[i][j].at == x;
      if i < n || j < |lays[n]| { assert lays[i][j] == lays'[i][j]; } else { assert lay[j - |lays[n]|] == lays'[i][j]; }
    }
  }

  /** Old objects keep their metas, but for the has-young bit of big ones. */
  lemma OldMetaKept(s: State, t: State, ms1: Metas, src: Metas, plan: Plan, ms6: Metas, bs6: Bodies, ms7: Metas,
      bs7: Bodies, a: Addr)
    requires Copied(s, ms1, src, plan, ms6, bs6) && FastSettled(s, t, plan, ms6, ms7, bs7) && bs7.Keys == bs6.Keys &&
      a in OldSet(s.metas)
    ensures a in t.metas && a in t.bodies && a in s.metas && t.metas[a] == if a in s.bigs then s.metas[a].(tag := false)
      else s.metas[a]
  {
    hide ValidGraph, ValidStorage, ValidFlags, CopyState, RememberedList, YoungClosedSet, Redirections, CopyTiled,
      PlanAssigned, InRegion;
    KeysLeft(s, ms1, src, plan, ms6, bs6, bs7);
    MarkReady(s);
    CopiedKeys(s, ms1, src, plan, ms6, bs6);
    MarkedAreYoung(s, ms1);
    UnscannedMeta(ms1, src, plan, AddrsOf(s.workLay), a);
    assert MarkedFrom(s.metas[a], ms1[a]) && a !in MarkedSet(ms1);
    assert bs6[a] == bs6[a];
    assert ms7[a] == t.metas[a];
  }

  lemma UnscannedMeta(ms1: Metas, src: Metas, plan: Plan, scanned: set<Addr>, a: Addr)
    requires Redirections(ms1, src, plan, scanned) && a in src && a !in scanned
    ensures a in ms1 && src[a] == ms1[a]
  {
  }

  /** Copies have the meta of their space. */
  lemma CopyMeta(s: State, t: State, ms1: Metas, src: Metas, plan: Plan, ms6: Metas, bs6: Bodies, ms7: Metas,
      bs7: Bodies, d: Addr)
    requires Copied(s, ms1, src, plan, ms6, bs6) && FastSettled(s, t, plan, ms6, ms7, bs7) && bs7.Keys == bs6.Keys &&
      d in plan.from
    ensures d in t.metas && d in t.bodies && t.metas[d] == FinalMeta(s.free.id, d)
  {
    hide ValidGraph, ValidFlags, CopyState, RememberedList, YoungMarked, Redirections, CopyTiled, PlanAssigned,
      InRegion;
    KeysLeft(s, ms1, src, plan, ms6, bs6, bs7);
    CopiedKeys(s, ms1, src, plan, ms6, bs6);
    assert plan.from[d] in s.bodies;
    assert d !in s.bigs by {
      forall k | 0 <= k < |s.bigs| ensures s.bigs[k] in s.bodies { assert s.bigs[k] in BigAddrs(s.bigs); }
    }
    assert ms7[d] == t.metas[d];
  }

  /** Sizes do not change. */
  lemma SizesKept(s: State, t: State, ms1: Metas, src: Metas, plan: Plan, ms6: Metas, bs6: Bodies, ms7: Metas,
      bs7: Bodies, done: set<Addr>)
    requires Copied(s, ms1, src, plan, ms6, bs6) && FastSettled(s, t, plan, ms6, ms7, bs7) &&
      Renewed(ms6, bs6, bs7, done)
    ensures forall a {:trigger t.bodies[a]} ::
      a in OldSet(s.metas) ==> a in t.bodies && a in s.bodies && Size(t.bodies[a]) == Size(s.bodies[a])
    ensures forall d {:trigger plan.from[d]} :: d in plan.from ==>
      d in t.bodies && plan.from[d] in s.bodies && Size(t.bodies[d]) == Size(s.bodies[plan.from[d]])
  {
    hide Copied, Renewed, RenewSetting, InRegion, Redirections, CopyTiled, PlanAssigned, TagsCleared, Grown, GrownLay,
      OldSet, SameButTags;
    CopiedReady(s, ms1, src, plan, ms6, bs6);
    KeysDuringRenew(ms6, bs6, bs7, done);
    CopiedKeys(s, ms1, src, plan, ms6, bs6);
    KeysLeft(s, ms1, src, plan, ms6, bs6, bs7);
    OldsIn(s, ms1, src, plan, ms6, bs6);
    forall a | a in OldSet(s.metas) ensures a in t.bodies && a in s.bodies && Size(t.bodies[a]) == Size(s.bodies[a]) {
      SizeDuringRenew(ms6, bs6, bs7, done, a);
      assert bs7[a] == t.bodies[a] && bs6[a] == s.bodies[a];
    }
    forall d | d in plan.from
      ensures d in t.bodies && plan.from[d] in s.bodies && Size(t.bodies[d]) == Size(s.bodies[plan.from[d]]) {
      SizeDuringRenew(ms6, bs6, bs7, done, d);
      assert bs7[d] == t.bodies[d] && bs6[d] == s.bodies[plan.from[d]];
    }
  }

  lemma OldsIn(s: State, ms1: Metas, src: Metas, plan: Plan, ms6: Metas, bs6: Bodies)
    requires Copied(s, ms1, src, plan, ms6, bs6)
    ensures OldSet(s.metas) <= s.bodies.Keys
  {
    MarkReady(s);
  }

  /** `lay` is storage of copies. */
  ghost predicate CopyBlocks(s: State, t: State, src: Metas, from: map<Addr, Addr>, lay: seq<Block>)
  {
    forall j {:trigger lay[j]} :: 0 <= j < |lay| ==>
      lay[j].at in from && lay[j].at in t.bodies && lay[j].at in t.metas &&
        Size(t.bodies[lay[j].at]) == lay[j].size <= MAX_SMALL &&
      t.metas[lay[j].at] == FinalMeta(s.free.id, lay[j].at)
  }

  lemma CopyBlocksHold(s: State, t: State, ms1: Metas, src: Metas, plan: Plan, ms6: Metas, bs6: Bodies, ms7: Metas,
      bs7: Bodies, done: set<Addr>,
      lay: seq<Block>)
    requires Copied(s, ms1, src, plan, ms6, bs6) && FastSettled(s, t, plan, ms6, ms7, bs7) &&
      Renewed(ms6, bs6, bs7, done)
    requires AllAssigned(src, s.bodies, plan.from, lay)
    ensures CopyBlocks(s, t, src, plan.from, lay)
  {
    hide Copied, FastSettled, Renewed, Redirections, CopyTiled, PlanAssigned, ValidFlags, ValidGraph, YoungMarked;
    SizesKept(s, t, ms1, src, plan, ms6, bs6, ms7, bs7, done);
    CopiedValid(s, ms1, src, plan, ms6, bs6);
    RenewedKeys(ms6, bs6, bs7, done);
    forall j | 0 <= j < |lay|
      ensures lay[j].at in plan.from && lay[j].at in t.bodies && lay[j].at in t.metas &&
        Size(t.bodies[lay[j].at]) == lay[j].size <= MAX_SMALL
      ensures t.metas[lay[j].at] == FinalMeta(s.free.id, lay[j].at)
    {
      var d := lay[j].at;
      assert Assigned(src, s.bodies, plan.from, lay[j]);
      assert plan.from[d] == plan.from[d];
      CopySource(s, ms1, src, plan, ms6, bs6, d);
      MarkedAreYoung(s, ms1);
      SmallSizes(s, plan.from[d]);
      CopyMeta(s, t, ms1, src, plan, ms6, bs6, ms7, bs7, d);
    }
  }

  lemma CopiedValid(s: State, ms1: Metas, src: Metas, plan: Plan, ms6: Metas, bs6: Bodies)
    requires Copied(s, ms1, src, plan, ms6, bs6)
    ensures Valid(s) && YoungMarked(s, ms1)
  {
  }

  lemma RenewedKeys(ms: Metas, bs0: Bodies, bs: Bodies, done: set<Addr>)
    requires Renewed(ms, bs0, bs, done)
    ensures bs.Keys == bs0.Keys
  {
  }

  /** New space after the collection: the copies in to-space. */
  lemma FastNewSpace(s: State, t: State, ms1: Metas, src: Metas, plan: Plan, ms6: Metas, bs6: Bodies, ms7: Metas,
      bs7: Bodies, done: set<Addr>)
    requires Copied(s, ms1, src, plan, ms6, bs6) && FastSettled(s, t, plan, ms6, ms7, bs7) &&
      Renewed(ms6, bs6, bs7, done)
    ensures WorkingStored(t.bodies, t.working, t.workLay) && YoungFlags(t.metas, t.workLay)
  {
    hide Copied, Renewed, Redirections, YoungMarked, Valid, SpaceFree, TagsCleared, InRegion, Grown, GrownLay;
    CopiedKeys(s, ms1, src, plan, ms6, bs6);
    CopyBlocksHold(s, t, ms1, src, plan, ms6, bs6, ms7, bs7, done, plan.toLay);
  }

  /** An old chunk holds what it held, with the has-young bits gone. */
  lemma OldChunkKept(s: State, t: State, ms1: Metas, src: Metas, plan: Plan, ms6: Metas, bs6: Bodies, ms7: Metas,
      bs7: Bodies, done: set<Addr>, i: nat)
    requires Copied(s, ms1, src, plan, ms6, bs6) && FastSettled(s, t, plan, ms6, ms7, bs7) &&
      Renewed(ms6, bs6, bs7, done) && i < |s.olds|
    ensures i < |s.oldLay| && Stored(t.bodies, s.olds[i].id, META_SIZE, s.olds[i].top, OLD_END, s.oldLay[i]) &&
      OldFlags(t.metas, s.olds[i].id, s.oldLay[i])
  {
    hide Copied, FastSettled, Renewed, YoungMarked, ValidGraph, Tiled, Regions, WorkingStored, NoMarks, BigList,
      YoungFlags, AllRememberedStored;
    CopiedValid(s, ms1, src, plan, ms6, bs6);
    RenewedKeys(ms6, bs6, bs7, done);
    SizesKept(s, t, ms1, src, plan, ms6, bs6, ms7, bs7, done);
    StoredAt(s.bodies, s.olds, s.oldLay, i);
    assert OldFlags(s.metas, s.olds[i].id, s.oldLay[i]);
    forall j | 0 <= j < |s.oldLay[i]|
      ensures s.oldLay[i][j].at in t.bodies && s.oldLay[i][j].at in s.bodies &&
        Size(t.bodies[s.oldLay[i][j].at]) == Size(s.bodies[s.oldLay[i][j].at])
      ensures s.oldLay[i][j].at in t.metas &&
        t.metas[s.oldLay[i][j].at] == Meta(Old, false, false, Addr(s.olds[i].id, 0), false)
    {
      var a := s.oldLay[i][j].at;
      assert s.metas[a].gen.Old?;
      assert a in OldSet(s.metas);
      OldMetaKept(s, t, ms1, src, plan, ms6, bs6, ms7, bs7, a);
      assert t.bodies[a] == t.bodies[a];
    }
    StillStored(s.bodies, t.bodies, s.olds[i].id, META_SIZE, s.olds[i].top, OLD_END, s.oldLay[i]);
  }

  /** Old space after the collection: the last chunk has grown. */
  lemma FastOldSpace(s: State, t: State, ms1: Metas, src: Metas, plan: Plan, ms6: Metas, bs6: Bodies, ms7: Metas,
      bs7: Bodies, done: set<Addr>)
    requires Copied(s, ms1, src, plan, ms6, bs6) && FastSettled(s, t, plan, ms6, ms7, bs7) &&
      Renewed(ms6, bs6, bs7, done)
    ensures OldsStored(t.bodies, t.olds, t.oldLay) && AllOldFlags(t.metas, t.olds, t.oldLay)
  {
    hide Copied, Renewed, Redirections, YoungMarked, Valid, SpaceFree, TagsCleared, InRegion, Tiled, Occupied,
      SmallBlocks;
    CopiedKeys(s, ms1, src, plan, ms6, bs6);
    var n, lay := |s.olds| - 1, plan.oldLay[0];
    assert AllAssigned(src, s.bodies, plan.from, lay);
    CopyBlocksHold(s, t, ms1, src, plan, ms6, bs6, ms7, bs7, done, lay);
    forall i | 0 <= i < |t.olds|
      ensures Stored(t.bodies, t.olds[i].id, META_SIZE, t.olds[i].top, OLD_END, t.oldLay[i]) &&
        OldFlags(t.metas, t.olds[i].id, t.oldLay[i])
    {
      OldChunkKept(s, t, ms1, src, plan, ms6, bs6, ms7, bs7, done, i);
      if i == n { LastChunkGrown(s, t, src, plan, n, lay); }
    }
  }

  lemma LastChunkGrown(s: State, t: State, src: Metas, plan: Plan, n: nat, lay: seq<Block>)
    requires s.olds != [] && n == |s.olds| - 1 && n < |s.oldLay|
    requires Stored(t.bodies, s.olds[n].id, META_SIZE, s.olds[n].top, OLD_END, s.oldLay[n]) &&
      OldFlags(t.metas, s.olds[n].id, s.oldLay[n])
    requires CopyTiled(TargetOf(s), plan) && lay == plan.oldLay[0] && CopyBlocks(s, t, src, plan.from, lay) &&
      Top(TargetOf(s).top, lay) < OLD_END
    ensures Stored(t.bodies, s.olds[n].id, META_SIZE, Top(TargetOf(s).top, lay), OLD_END, s.oldLay[n] + lay)
    ensures OldFlags(t.metas, s.olds[n].id, s.oldLay[n] + lay)
  {
    TiledConcat(s.olds[n].id, META_SIZE, s.oldLay[n], lay);
  }

  lemma FastRegions(s: State, t: State, plan: Plan, ms6: Metas, ms7: Metas, bs7: Bodies)
    requires ValidStorage(s) && FastSettled(s, t, plan, ms6, ms7, bs7)
    ensures Regions(t.working.id, t.free.id, t.olds, t.bigs, t.regions) && Idle(t.olds)
    ensures forall i {:trigger t.olds[i]} :: 0 <= i < |t.olds| ==> t.olds[i].remembered == Absent
  {
    hide WorkingStored, OldsStored, AllRememberedStored, TagsCleared, InRegion;
    assert |t.olds| == |s.olds| && forall i {:trigger t.olds[i]} {:trigger s.olds[i]} ::
      0 <= i < |t.olds| ==> t.olds[i].id == s.olds[i].id;
  }

  lemma FastBigs(s: State, t: State, ms1: Metas, src: Metas, plan: Plan, ms6: Metas, bs6: Bodies, ms7: Metas,
      bs7: Bodies, done: set<Addr>)
    requires Copied(s, ms1, src, plan, ms6, bs6) && FastSettled(s, t, plan, ms6, ms7, bs7) &&
      Renewed(ms6, bs6, bs7, done)
    ensures BigList(t.metas, t.bigFirst, t.bigs) && NoMarks(t.metas) && t.bigAllocated == TotalSizeOf(t.bodies, t.bigs)
    ensures forall k {:trigger t.bigs[k]} :: 0 <= k < |t.bigs| ==> t.bigs[k] in t.metas && !t.metas[t.bigs[k]].tag
  {
    hide Copied, FastSettled, Renewed, YoungMarked, ValidGraph, Regions, WorkingStored, OldsStored, AllRememberedStored,
      YoungFlags, AllOldFlags, TotalSizeOf;
    CopiedValid(s, ms1, src, plan, ms6, bs6);
    RenewedKeys(ms6, bs6, bs7, done);
    SizesKept(s, t, ms1, src, plan, ms6, bs6, ms7, bs7, done);
    BigsSettled(s, t, plan, ms6, ms7, bs7);
    forall k | 0 <= k < |s.bigs|
      ensures s.bigs[k] in t.metas && s.bigs[k] in s.bodies && t.metas[s.bigs[k]] == s.metas[s.bigs[k]].(tag := false)
      ensures s.bigs[k] in t.bodies && Size(t.bodies[s.bigs[k]]) == Size(s.bodies[s.bigs[k]])
    {
      assert s.bigs[k] in OldSet(s.metas);
      OldMetaKept(s, t, ms1, src, plan, ms6, bs6, ms7, bs7, s.bigs[k]);
      assert t.bodies[s.bigs[k]] == t.bodies[s.bigs[k]];
    }
    SameTotal(s.bodies, t.bodies, s.bigs);
    KeysLeftIn(s, t, ms1, src, plan, ms6, bs6, ms7, bs7);
    forall a | a in t.metas ensures !t.metas[a].mrk {
      if a in OldSet(s.metas) {
        OldMetaKept(s, t, ms1, src, plan, ms6, bs6, ms7, bs7, a);
      } else {
        CopyMeta(s, t, ms1, src, plan, ms6, bs6, ms7, bs7, a);
      }
    }
  }

  lemma BigsSettled(s: State, t: State, plan: Plan, ms6: Metas, ms7: Metas, bs7: Bodies)
    requires FastSettled(s, t, plan, ms6, ms7, bs7)
    ensures t.bigs == s.bigs && t.bigFirst == s.bigFirst && t.bigAllocated == s.bigAllocated
  {
  }

  lemma SameTotal(bs: Bodies, bs': Bodies, bigs: seq<Addr>)
    requires forall k {:trigger bigs[k]} ::
      0 <= k < |bigs| ==> bigs[k] in bs && bigs[k] in bs' && Size(bs'[bigs[k]]) == Size(bs[bigs[k]])
    ensures TotalSizeOf(bs', bigs) == TotalSizeOf(bs, bigs)
  {
    TotalSizeSame(bs, bs', bigs);
  }

  lemma KeysLeftIn(s: State, t: State, ms1: Metas, src: Metas, plan: Plan, ms6: Metas, bs6: Bodies, ms7: Metas,
      bs7: Bodies)
    requires Copied(s, ms1, src, plan, ms6, bs6) && FastSettled(s, t, plan, ms6, ms7, bs7) && bs7.Keys == bs6.Keys
    ensures t.metas.Keys == t.bodies.Keys == plan.from.Keys + OldSet(s.metas)
  {
    hide Copied, InRegion;
    KeysLeft(s, ms1, src, plan, ms6, bs6, bs7);
  }

  lemma FastStorage(s: State, t: State, ms1: Metas, src: Metas, plan: Plan, ms6: Metas, bs6: Bodies, ms7: Metas,
      bs7: Bodies, done: set<Addr>)
    requires Copied(s, ms1, src, plan, ms6, bs6) && FastSettled(s, t, plan, ms6, ms7, bs7) &&
      Renewed(ms6, bs6, bs7, done)
    ensures ValidStorage(t) && ValidFlags(t) && RememberedList(t) == []
  {
    hide Copied, Renewed, YoungMarked, Valid, Regions, WorkingStored, OldsStored, YoungFlags, AllOldFlags, BigList,
      NoMarks, TotalSizeOf, InRegion,
      TagsCleared, Grown, GrownLay, AddrsOf, OldAddrs, BigAddrs, OldSet, CopyTiled, Redirections;
    CopiedValid(s, ms1, src, plan, ms6, bs6);
    RenewedKeys(ms6, bs6, bs7, done);
    StorageOf(s);
    FastRegions(s, t, plan, ms6, ms7, bs7);
    FastNewSpace(s, t, ms1, src, plan, ms6, bs6, ms7, bs7, done);
    FastOldSpace(s, t, ms1, src, plan, ms6, bs6, ms7, bs7, done);
    FastBigs(s, t, ms1, src, plan, ms6, bs6, ms7, bs7, done);
    KeysLeftIn(s, t, ms1, src, plan, ms6, bs6, ms7, bs7);
    CopiedKeys(s, ms1, src, plan, ms6, bs6);
    OldObjects(s);
    GrownAddrsOf(s.oldLay, plan.oldLay[0]);
    OneChunk(plan);
    OldsStoredCount(t.bodies, t.olds, t.oldLay);
    NoneRemembered(t);
  }

  lemma StorageOf(s: State)
    requires Valid(s)
    ensures ValidStorage(s) && ValidFlags(s) && ValidGraph(s)
  {
  }

  lemma OneChunk(plan: Plan)
    requires |plan.oldLay| == 1
    ensures OldAddrs(plan.oldLay) == AddrsOf(plan.oldLay[0])
  {
    assert plan.oldLay == [plan.oldLay[0]];
    forall x | x in AddrsOf(plan.oldLay[0]) ensures x in OldAddrs(plan.oldLay) {
      var j :| 0 <= j < |plan.oldLay[0]| && plan.oldLay[0][j].at == x;
    }
  }

  lemma NoneRemembered(t: State)
    requires forall i {:trigger t.olds[i]} :: 0 <= i < |t.olds| ==> t.olds[i].remembered == Absent
    requires forall k {:trigger t.bigs[k]} :: 0 <= k < |t.bigs| ==> t.bigs[k] in t.metas && !t.metas[t.bigs[k]].tag
    ensures RememberedList(t) == [] && (|t.oldLay| == |t.olds| ==> AllRememberedStored(t.olds, t.oldLay))
  {
    if InOldSpace(t.olds) != [] {
      var x := InOldSpace(t.olds)[0];
      OldListMembers(t.olds, x);
    }
    if InBigSpace(t.metas, t.bigs) != [] {
      var x := InBigSpace(t.metas, t.bigs)[0];
      BigListMembers(t.metas, t.bigs, x);
    }
  }

  /** A fast collection leaves a valid heap in which the program finds what it had. */
  lemma FastCollectionDone(s: State, t: State, ms1: Metas, src: Metas, plan: Plan, ms6: Metas, bs6: Bodies, ms7: Metas,
      bs7: Bodies, done: set<Addr>)
    requires FastFinished(s, ms1, src, plan, ms6, bs6, bs7, done) && FastSettled(s, t, plan, ms6, ms7, bs7) &&
      ForwardedValues(ms6, s.roots, t.roots)
    ensures Kept1(s, ms1) <= src.Keys && Valid(t) && RememberedList(t) == [] &&
      YoungPreserved(s, t, NewPlaces(src, Kept1(s, ms1)))
  {
    hide Copied, Renewed, YoungMarked, Valid, ValidStorage, ValidFlags, ValidGraph, InRegion, TagsCleared, Grown,
      RememberedList, Isomorphic, ForwardedValues,
      NewPlaces, Generational, OldSet, MarkedSet, FastSettled;
    BodiesSettled(s, t, plan, ms6, ms7, bs7);
    FastIsomorphic(s, ms1, src, plan, ms6, bs6, bs7, done, t.bodies, t.roots);
    var f := NewPlaces(src, Kept1(s, ms1));
    FastStorage(s, t, ms1, src, plan, ms6, bs6, ms7, bs7, done);
    CopiedValid(s, ms1, src, plan, ms6, bs6);
    StorageOf(s);
    NewPlacesKeys(src, Kept1(s, ms1));
    ClassesStayFirst(s, t, plan, ms6, ms7, bs7, f);
    GraphAfter(s, t, f);
    ValidFrom(t);
  }

  lemma BodiesSettled(s: State, t: State, plan: Plan, ms6: Metas, ms7: Metas, bs7: Bodies)
    requires FastSettled(s, t, plan, ms6, ms7, bs7)
    ensures t.bodies == bs7 - InRegion(bs7, s.working.id) && t.classes == s.classes
  {
  }

  lemma ValidFrom(t: State)
    requires ValidStorage(t) && ValidFlags(t) && ValidGraph(t)
    ensures Valid(t)
  {
  }

  lemma ClassesStayFirst(s: State, t: State, plan: Plan, ms6: Metas, ms7: Metas, bs7: Bodies, f: map<Addr, Addr>)
    requires Valid(s) && FastSettled(s, t, plan, ms6, ms7, bs7)
    requires forall a :: a in OldSet(s.metas) ==> a in f && f[a] == a
    ensures t.oldLay != [] && s.oldLay != [] && s.classes <= |t.oldLay[0]| && s.classes <= |s.oldLay[0]|
    ensures forall j {:trigger t.oldLay[0][j]} :: 0 <= j < s.classes ==>
      t.oldLay[0][j] == s.oldLay[0][j] && t.oldLay[0][j].at in f && f[t.oldLay[0][j].at] == t.oldLay[0][j].at
  {
    hide ValidStorage, ValidFlags, Closed, AllSized, TagsCleared, InRegion;
    OldObjects(s);
    forall j | 0 <= j < s.classes
      ensures t.oldLay[0][j] == s.oldLay[0][j] && t.oldLay[0][j].at in f && f[t.oldLay[0][j].at] == t.oldLay[0][j].at
    {
      assert t.oldLay[0][j] == s.oldLay[0][j];
      assert s.oldLay[0][j].at in OldAddrs(s.oldLay);
    }
  }

  // ----- Between the phases -------------------------------------------------

  lemma ListParts(s: State)
    requires ListIn(RememberedList(s), s.bodies.Keys)
    ensures ListIn(InOldSpace(s.olds), s.bodies.Keys) && ListIn(InBigSpace(s.metas, s.bigs), s.bodies.Keys)
  {
    ListInPart(InOldSpace(s.olds), InBigSpace(s.metas, s.bigs), RememberedList(s), s.bodies.Keys);
  }

  /** Marking leaves the list of big objects alone. */
  lemma {:induction false} BigsUntouched(s: State, r1: Metas, r2: Metas)
    requires Valid(s) && r1 == VisitAll(s.metas, s.bodies, s.roots, RecY) && ListIn(InOldSpace(s.olds), s.bodies.Keys)
    requires r2 == MarkRemembered(r1, s.bodies, InOldSpace(s.olds))
    ensures r2.Keys == s.bodies.Keys && BigList(r2, s.bigFirst, s.bigs) &&
      InBigSpace(r2, s.bigs) == InBigSpace(s.metas, s.bigs)
  {
    MarkReady(s);
    hide ValidStorage, ValidGraph, YoungFlags, AllOldFlags, NoMarks;
    VisitOnlyMarks(s.metas, s.bodies, s.roots, RecY);
    RememberedOnlyMarks(r1, s.bodies, InOldSpace(s.olds));
    forall k | 0 <= k < |s.bigs| ensures s.bigs[k] in r2 && SameBig(s.metas[s.bigs[k]], r2[s.bigs[k]]) {
      var a := s.bigs[k];
      assert a in s.metas;
      assert MarkedFrom(s.metas[a], r1[a]) && MarkedFrom(r1[a], r2[a]);
    }
    SameBigs(s.metas, r2, s.bigFirst, s.bigs);
  }

  /** The bits by which big objects are linked and remembered. */
  predicate SameBig(m: Meta, m': Meta)
  {
    m'.gen == m.gen && m'.mid == m.mid && m'.ptr == m.ptr && m'.tag == m.tag
  }

  lemma {:induction false} SameBigs(ms: Metas, ms': Metas, first: Addr, bigs: seq<Addr>)
    requires BigList(ms, first, bigs) && forall k {:trigger bigs[k]} ::
      0 <= k < |bigs| ==> bigs[k] in ms' && SameBig(ms[bigs[k]], ms'[bigs[k]])
    ensures BigList(ms', first, bigs) && InBigSpace(ms', bigs) == InBigSpace(ms, bigs)
  {
    SameBigTags(ms, ms', bigs);
  }

  lemma {:induction false} SameBigTags(ms: Metas, ms': Metas, bigs: seq<Addr>)
    requires forall k {:trigger bigs[k]} ::
      0 <= k < |bigs| ==> bigs[k] in ms && bigs[k] in ms' && ms'[bigs[k]].tag == ms[bigs[k]].tag
    ensures InBigSpace(ms', bigs) == InBigSpace(ms, bigs)
  {
    if bigs != [] { SameBigTags(ms, ms', bigs[..|bigs| - 1]); }
  }

  lemma FastReady(s: State)
    requires Valid(s)
    ensures ListIn(RememberedList(s), s.bodies.Keys) && AllSized(s.bodies) &&
      WorkingStored(s.bodies, s.working, s.workLay)
    ensures s.metas.Keys == s.bodies.Keys && |s.oldLay| == |s.olds|
  {
    RememberedIsOld(s);
    hide Regions, ClassPrefix, ValidFlags, Closed;
    forall x | x in RememberedList(s) ensures x in s.bodies.Keys { assert x in OldSet(s.metas); }
  }

  lemma NowCopied(s: State, ms1: Metas, src: Metas, plan: Plan, ms6: Metas, bs6: Bodies)
    requires Valid(s) && YoungMarked(s, ms1) && s.olds != []
    requires CopyState(ms1, src, s.bodies, TargetOf(s), plan, AddrsOf(s.workLay), ms6, bs6)
    ensures Copied(s, ms1, src, plan, ms6, bs6)
  {
  }

  lemma CopiedLayout(s: State, ms1: Metas, src: Metas, plan: Plan, ms6: Metas, bs6: Bodies)
    requires Copied(s, ms1, src, plan, ms6, bs6)
    ensures CopyTiled(TargetOf(s), plan) && Occupied(bs6, plan.toLay) && Occupied(bs6, plan.oldLay[0])
    ensures plan.from.Keys == AddrsOf(plan.toLay) + AddrsOf(plan.oldLay[0])
  {
    hide Valid, YoungMarked, Redirections, SpaceFree, Tiled;
    CopiedKeys(s, ms1, src, plan, ms6, bs6);
    OneChunk(plan);
    assert AllAssigned(src, s.bodies, plan.from, plan.oldLay[0]);
    OccupiedByCopies(s, src, plan.from, bs6, plan.toLay);
    OccupiedByCopies(s, src, plan.from, bs6, plan.oldLay[0]);
  }

  lemma OccupiedByCopies(s: State, src: Metas, from: map<Addr, Addr>, bs6: Bodies, lay: seq<Block>)
    requires AllAssigned(src, s.bodies, from, lay) && from.Keys <= bs6.Keys
    requires forall d {:trigger from[d]} :: d in from ==> from[d] in s.bodies && bs6[d] == s.bodies[from[d]]
    ensures Occupied(bs6, lay)
  {
    forall j | 0 <= j < |lay| ensures lay[j].at in bs6 && Size(bs6[lay[j].at]) == lay[j].size {
      assert Assigned(src, s.bodies, from, lay[j]);
    }
  }

  lemma {:induction false} CopiedRemembered(s: State, ms1: Metas, src: Metas, plan: Plan, ms6: Metas, bs6: Bodies)
    requires Copied(s, ms1, src, plan, ms6, bs6)
    ensures ListIn(InOldSpace(s.olds), bs6.Keys) && BigList(ms6, s.bigFirst, s.bigs) && DistinctRegions(s.bigs)
    ensures InBigSpace(ms6, s.bigs) == InBigSpace(s.metas, s.bigs)
  {
    hide CopyState, ValidGraph, WorkingStored, OldsStored, YoungFlags, AllOldFlags, NoMarks, RememberedList,
      YoungClosedSet;
    FastReady(s);
    ListParts(s);
    CopiedKeys(s, ms1, src, plan, ms6, bs6);
    forall x | x in InOldSpace(s.olds) ensures x in bs6.Keys { assert x in s.bodies.Keys; }
    forall k | 0 <= k < |s.bigs| ensures s.bigs[k] in ms6 && SameBig(s.metas[s.bigs[k]], ms6[s.bigs[k]]) {
      BigMetaThen(s, ms1, src, plan, ms6, bs6, k);
    }
    SameBigs(s.metas, ms6, s.bigFirst, s.bigs);
  }

  lemma BigMetaThen(s: State, ms1: Metas, src: Metas, plan: Plan, ms6: Metas, bs6: Bodies, k: nat)
    requires Copied(s, ms1, src, plan, ms6, bs6) && k < |s.bigs|
    ensures s.bigs[k] in ms6 && s.bigs[k] in s.metas && SameBig(s.metas[s.bigs[k]], ms6[s.bigs[k]])
  {
    hide CopyState, ValidGraph, ValidStorage, YoungFlags, AllOldFlags, NoMarks, RememberedList, YoungClosedSet;
    var a := s.bigs[k];
    assert a in s.metas && a in OldSet(s.metas);
    CopiedKeys(s, ms1, src, plan, ms6, bs6);
    MarkedAreYoung(s, ms1);
    UnscannedMeta(ms1, src, plan, AddrsOf(s.workLay), a);
    assert bs6[a] == bs6[a];
    assert MarkedFrom(s.metas[a], ms1[a]);
  }

  lemma {:induction false} WalkFacts(g: Target, plan: Plan, to: Chunk, olds0: seq<OldChunk>, olds: seq<OldChunk>)
    requires CopyWalk(g, plan, to, olds0, olds)
    ensures |plan.oldLay| == 1 && to == Chunk(g.toId, Top(0, plan.toLay)) && |olds| == |olds0| > 0
    ensures olds[|olds| - 1].id == g.lastId && olds[|olds| - 1].top == Top(g.top, plan.oldLay[0])
    ensures InOldSpace(olds) == InOldSpace(olds0) && Present(olds) == Present(olds0)
  {
    var n := |olds| - 1;
    assert olds[..n] == olds0[..n];
    assert InChunk(olds[n]) == InChunk(olds0[n]);
  }

  lemma {:induction false} AllDone(s: State, ms1: Metas, src: Metas, plan: Plan, ms6: Metas, bs6: Bodies,
      olds6: seq<OldChunk>, done: set<Addr>)
    requires |plan.oldLay| == 1 && plan.from.Keys == AddrsOf(plan.toLay) + AddrsOf(plan.oldLay[0])
    requires InOldSpace(olds6) == InOldSpace(s.olds) && InBigSpace(ms6, s.bigs) == InBigSpace(s.metas, s.bigs)
    requires AddrsOf(plan.toLay) + AddrsOf(plan.oldLay[0]) + Elems(InOldSpace(olds6)) +
      Elems(InBigSpace(ms6, s.bigs)) <= done
    ensures plan.from.Keys + Elems(RememberedList(s)) <= done
  {
    ElemsAppend(InOldSpace(s.olds), InBigSpace(s.metas, s.bigs));
  }

  lemma GrownNow(g: Target, plan: Plan, to: Chunk, olds0: seq<OldChunk>, olds6: seq<OldChunk>, olds: seq<OldChunk>)
    requires CopyWalk(g, plan, to, olds0, olds6)
    requires |olds| == |olds6| && forall k {:trigger olds[k]} ::
      0 <= k < |olds| ==> olds[k] == olds6[k].(remembered := Absent)
    ensures olds == Grown(olds0, Top(g.top, plan.oldLay[0]))
  {
    var r := Grown(olds0, Top(g.top, plan.oldLay[0]));
    forall k | 0 <= k < |olds| ensures olds[k] == r[k] {
      assert olds6[k] == if k == |olds0| - 1 then olds0[k].(top := Top(g.top, plan.oldLay[0])) else olds0[k];
    }
  }

  lemma RootsThere(s: State, ms1: Metas, src: Metas, plan: Plan, ms6: Metas, bs6: Bodies, ms7: Metas)
    requires Copied(s, ms1, src, plan, ms6, bs6) && TagsCleared(ms6, ms7, s.bigs)
    ensures ValuesIn(s.roots, ms7.Keys)
  {
    hide CopyState, YoungMarked;
    CopiedKeys(s, ms1, src, plan, ms6, bs6);
    MarkReady(s);
  }

  lemma ForwardedRoots(ms6: Metas, ms7: Metas, bigs: seq<Addr>, roots: seq<Value>, roots7: seq<Value>)
    requires TagsCleared(ms6, ms7, bigs) && ForwardedValues(ms7, roots, roots7)
    ensures ForwardedValues(ms6, roots, roots7)
  {
    forall v ensures Forwarded(ms6, v) == Forwarded(ms7, v) {
      if v.Ref? && v.at in ms7 { assert ms7[v.at].mrk == ms6[v.at].mrk; }
    }
  }

  lemma LayoutsKnown(s: State, ms1: Metas, src: Metas, plan: Plan, ms6: Metas, bs6: Bodies, bs7: Bodies, ms7: Metas,
      done: set<Addr>)
    requires FastFinished(s, ms1, src, plan, ms6, bs6, bs7, done) && TagsCleared(ms6, ms7, s.bigs)
    ensures s.olds != [] && |s.oldLay| == |s.olds| && bs7.Keys == ms7.Keys
  {
    hide Valid, YoungMarked, CopyState, Generational, Elems, RememberedList;
    CopiedKeys(s, ms1, src, plan, ms6, bs6);
    FastReady(s);
  }

  lemma FastSettledNow(s: State, t: State, plan: Plan, ms6: Metas, ms7: Metas, bs7: Bodies)
    requires s.olds != [] && |s.oldLay| == |s.olds| && |plan.oldLay| == 1
    requires t.working == Chunk(s.free.id, Top(0, plan.toLay)) && t.working.top < NEW_END && t.free == s.working &&
      t.workLay == plan.toLay
    requires t.olds == Grown(s.olds, Top(TargetOf(s).top, plan.oldLay[0])) &&
      Top(TargetOf(s).top, plan.oldLay[0]) < OLD_END
    requires t.oldLay == GrownLay(s.oldLay, plan.oldLay[0])
    requires t.bigs == s.bigs && t.bigFirst == s.bigFirst && t.bigAllocated == s.bigAllocated &&
      t.regions == s.regions && t.classes == s.classes
    requires bs7.Keys == ms7.Keys && TagsCleared(ms6, ms7, s.bigs)
    requires t.bodies == bs7 - InRegion(bs7, s.working.id) && t.metas == ms7 - InRegion(bs7, s.working.id)
    ensures FastSettled(s, t, plan, ms6, ms7, bs7)
  {
  }
}
