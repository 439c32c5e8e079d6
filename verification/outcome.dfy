/** What a full collection leaves behind: an isomorphic heap, stored as it should be. */
module Outcome {
  import opened ObjectHeap
  import opened Layout
  import opened Marking
  import opened Spaces
  import opened BigSpace
  import opened Relocation
  import opened Updating
  import opened Moving
  import opened Invariant
  import opened FullCollection

  // ----- The isomorphism ----------------------------------------------------

  /** Where the survivors are now. */
  function NewPlaces(ms: Metas, marked: set<Addr>): map<Addr, Addr>
    requires marked <= ms.Keys
  {
    map a | a in marked :: if ms[a].mrk then ms[a].ptr else a
  }

  /** What is known of the survivors: the small ones, still marked, have exactly one new
      place each; the big ones stay; all of them have been redirected and have arrived. */
  ghost predicate Transferred(bs: Bodies, marked: set<Addr>, big: set<Addr>, ms3: Metas, from: map<Addr, Addr>,
      bs4: Bodies, bs5: Bodies)
  {
    marked <= ms3.Keys && marked <= bs.Keys && marked <= bs4.Keys && big <= marked && from.Keys !! big &&
    (forall a {:trigger ms3[a].mrk} :: a in marked ==> (ms3[a].mrk <==> a !in big)) &&
    (forall d {:trigger from[d]} :: d in from ==> from[d] in marked - big && ms3[from[d]].ptr == d) &&
    (forall a {:trigger Relocated(ms3, from, a)} :: a in marked - big ==> Relocated(ms3, from, a)) &&
    (forall a {:trigger bs4[a]} :: a in marked ==> ForwardedBody(ms3, bs[a], bs4[a])) &&
    bs5.Keys == from.Keys + big &&
    (forall d {:trigger from[d]} :: d in from ==> bs5[d] == bs4[from[d]]) &&
    (forall a {:trigger bs5[a]} :: a in big ==> bs5[a] == bs4[a])
  }

  lemma PlaceOf(bs: Bodies, marked: set<Addr>, big: set<Addr>, ms3: Metas, from: map<Addr, Addr>, bs4: Bodies,
      bs5: Bodies, a: Addr)
    requires Transferred(bs, marked, big, ms3, from, bs4, bs5) && a in marked
    ensures
      var d := NewPlaces(ms3, marked)[a];
      && d in bs5 && bs5[d] == bs4[a] && (d in big <==> a in big)
      && (d in big ==> d == a) && (d !in big ==> d in from && from[d] == a)
    ensures Forwarded(ms3, Ref(a)) == Ref(NewPlaces(ms3, marked)[a])
  {
    if a !in big { assert Relocated(ms3, from, a); }
  }

  lemma ForwardedIsMapped(ms: Metas, marked: set<Addr>, vs: seq<Value>, vs': seq<Value>)
    requires marked <= ms.Keys && ValuesIn(vs, marked) && ForwardedValues(ms, vs, vs')
    ensures MappedValues(NewPlaces(ms, marked), vs, vs')
  {
    forall i | 0 <= i < |vs| ensures vs'[i] == MapValue(NewPlaces(ms, marked), vs[i]) {
      assert vs[i] in vs;
      assert vs'[i] == Forwarded(ms, vs[i]);
    }
  }

  /** The collection carries everything reachable, and nothing else, to the new heap. */
  lemma TransferIsomorphic(bs: Bodies, roots: seq<Value>, marked: set<Addr>, big: set<Addr>, ms3: Metas,
      from: map<Addr, Addr>,
      bs4: Bodies, bs5: Bodies, roots5: seq<Value>)
    requires Transferred(bs, marked, big, ms3, from, bs4, bs5) && ClosedSet(bs, roots, marked) &&
      ForwardedValues(ms3, roots, roots5)
    ensures Isomorphic(bs, roots, bs5, roots5, NewPlaces(ms3, marked))
    ensures NewPlaces(ms3, marked).Keys == marked && NewPlaces(ms3, marked).Values == bs5.Keys
  {
    var f := NewPlaces(ms3, marked);
    assert f.Keys == marked;
    ForwardedIsMapped(ms3, marked, roots, roots5);
    forall a | a in f ensures f[a] in bs5 && MappedBody(f, bs[a], bs5[f[a]]) {
      PlaceOf(bs, marked, big, ms3, from, bs4, bs5, a);
      assert BodyIn(bs[a], marked) && ForwardedBody(ms3, bs[a], bs4[a]);
      ForwardedIsMapped(ms3, marked, bs[a].fields, bs4[a].fields);
      PlaceOf(bs, marked, big, ms3, from, bs4, bs5, bs[a].cls);
    }
    forall a, b | a in f && b in f && Apart(a, b) ensures f[a] != f[b] {
      PlaceOf(bs, marked, big, ms3, from, bs4, bs5, a);
      PlaceOf(bs, marked, big, ms3, from, bs4, bs5, b);
    }
    forall d | d in bs5 ensures d in f.Values {
      var a := if d in big then d else from[d];
      PlaceOf(bs, marked, big, ms3, from, bs4, bs5, a);
      assert f[a] == d;
    }
  }

  // ----- What an isomorphism onto the new heap keeps ------------------------

  /** Nothing dangles in the new heap, and every object has a class of its size. */
  lemma IsomorphicClosed(bs: Bodies, roots: seq<Value>, bs': Bodies, roots': seq<Value>, f: map<Addr, Addr>)
    requires Isomorphic(bs, roots, bs', roots', f) && f.Values == bs'.Keys && AllSized(bs)
    ensures Closed(bs') && ValuesIn(roots', bs'.Keys) && AllSized(bs')
  {
    MappedIn(f, roots, roots');
    forall d | d in bs' ensures BodyIn(bs'[d], bs'.Keys) && Sized(bs', d) {
      var a :| a in f && f[a] == d;
      assert BodyIn(bs[a], f.Keys) && Sized(bs, a);
      MappedIn(f, bs[a].fields, bs'[d].fields);
      var c := bs[a].cls;
      assert f[c] in bs' && MappedBody(f, bs[c], bs'[f[c]]);
    }
  }

  lemma MappedIn(f: map<Addr, Addr>, vs: seq<Value>, vs': seq<Value>)
    requires ValuesIn(vs, f.Keys) && MappedValues(f, vs, vs')
    ensures ValuesIn(vs', f.Values)
  {
    forall v | v in vs' && v.Ref? ensures v.at in f.Values {
      var i :| 0 <= i < |vs'| && vs'[i] == v;
      assert vs[i] in vs;
    }
  }

  // ----- Classes ------------------------------------------------------------

  /** The storage given out at the start of old space is that of the class objects. */
  lemma {:induction false} PrefixKept(ms: Metas, bs: Bodies, toId: nat, ids: seq<nat>, rank: map<nat, nat>, plan: Plan,
      lay: seq<Block>, n: nat, j: nat)
    requires PlanTiled(toId, ids, rank, plan) && PlanAssigned(ms, bs, plan)
    requires ids != [] && Tiled(ids[0], META_SIZE, lay) && Occupied(bs, lay)
    requires AllMarked(ms, lay, n) && InPlace(ms, lay, n) && j < n
    requires forall k {:trigger lay[k]} :: 0 <= k < n ==> lay[k].at in ms && Relocated(ms, plan.from, lay[k].at)
    ensures plan.oldLay != [] && j < |plan.oldLay[0]| && plan.oldLay[0][j] == lay[j]
  {
    hide Tiled, Occupied, AllAssigned, OldAddrs, AddrsOf;
    var k := FirstLookup(ms, bs, toId, ids, rank, plan, lay, n, j);
    if j > 0 { PrefixKept(ms, bs, toId, ids, rank, plan, lay, n, j - 1); }
    assert Tiled(ids[0], META_SIZE, plan.oldLay[0]);
    SameNumber(ids[0], lay, plan.oldLay[0], j, k);
  }

  /** The storage of a class object is that of an object of the same size in the first chunk. */
  lemma {:induction false} FirstLookup(ms: Metas, bs: Bodies, toId: nat, ids: seq<nat>, rank: map<nat, nat>, plan: Plan,
      lay: seq<Block>, n: nat, j: nat)
    returns (k: nat)
    requires PlanTiled(toId, ids, rank, plan) && PlanAssigned(ms, bs, plan)
    requires ids != [] && Tiled(ids[0], META_SIZE, lay) && Occupied(bs, lay)
    requires AllMarked(ms, lay, n) && InPlace(ms, lay, n) && j < n
    requires forall k {:trigger lay[k]} :: 0 <= k < n ==> lay[k].at in ms && Relocated(ms, plan.from, lay[k].at)
    ensures plan.oldLay != [] && k < |plan.oldLay[0]| && plan.oldLay[0][k] == lay[j]
  {
    hide PlanTiled, PlanAssigned;
    var c := lay[j].at;
    assert ms[c].ptr == c && Relocated(ms, plan.from, c) && c.chunk == ids[0];
    NotToSpace(toId, ids, rank, plan);
    var i: nat;
    i, k := PlanLookup(ms, bs, toId, ids, rank, plan, c);
    assert Assigned(ms, bs, plan.from, plan.oldLay[i][k]);
    SameChunk(toId, ids, rank, plan, i);
  }

  lemma {:induction false} NotToSpace(toId: nat, ids: seq<nat>, rank: map<nat, nat>, plan: Plan)
    requires PlanTiled(toId, ids, rank, plan) && ids != []
    ensures ids[0] != toId
  {
    assert ids[0] in rank;
  }

  lemma {:induction false} SameChunk(toId: nat, ids: seq<nat>, rank: map<nat, nat>, plan: Plan, i: nat)
    requires PlanTiled(toId, ids, rank, plan) && i < |plan.oldLay| && ids[i] == ids[0]
    ensures i == 0
  {
    assert rank[ids[i]] == i && rank[ids[0]] == 0;
  }

  /** Blocks that tile a chunk and agree up to number `j` agree about where number `j` is. */
  lemma SameNumber(id: nat, lay: seq<Block>, lay': seq<Block>, j: nat, k: nat)
    requires Tiled(id, META_SIZE, lay) && Tiled(id, META_SIZE, lay') && j < |lay| && k < |lay'| && lay'[k] == lay[j]
    requires j > 0 ==> j <= |lay'| && lay'[j - 1] == lay[j - 1]
    ensures k == j
  {
    if j == 0 {
      if k > 0 { TiledDisjoint(id, META_SIZE, lay', 0, k); }
    } else {
      assert Before(j - 1, j);
      assert (Before(k, j - 1) <==> k < j - 1) && (Before(j, k) <==> j < k) && (Before(j - 1, k) <==> j - 1 < k);
    }
  }

  // ----- All phases ---------------------------------------------------------

  /** All phases of a full collection of `s`, up to the moves. */
  ghost predicate Finished(s: State, ms1: Metas, ms2: Metas, bs2: Bodies, first2: Addr, bigs2: seq<Addr>,
      ms3: Metas, ids: seq<nat>, rank: map<nat, nat>, plan: Plan, olds3: seq<OldChunk>, lays3: seq<seq<Block>>,
        bs4: Bodies,
      ms5: Metas, bs5: Bodies)
  {
    Prepared(s, ms1, ms2, bs2, first2, bigs2, ms3, ids, rank, plan, olds3, lays3) && Updated(ms3, bs2, bs4, ms3.Keys) &&
    MoveState(ms3, bs4, s.free.id, plan.from, ms5, bs5, BigAddrs(bigs2))
  }

  /** The old chunks that are left, with the storage given out in them. */
  function Truncated(olds: seq<OldChunk>, lays: seq<seq<Block>>): (r: seq<OldChunk>)
    requires |lays| <= |olds|
  {
    seq(|lays|, i requires 0 <= i < |lays| => OldChunk(olds[i].id, Top(META_SIZE, lays[i]), 0, Absent))
  }

  /** Every piece of storage given out holds its object, small as before. */
  ghost predicate Arrivals(ms3: Metas, bs4: Bodies, toId: nat, from: map<Addr, Addr>, ms5: Metas, bs5: Bodies)
  {
    forall d {:trigger from[d]} :: d in from ==>
      d in bs5 && d in ms5 && from[d] in bs4 && bs5[d] == bs4[from[d]] && Size(bs5[d]) <= MAX_SMALL &&
        ms5[d] == FinalMeta(toId, d)
  }

  lemma SmallSizes(s: State, a: Addr)
    requires ValidStorage(s) && a in SmallAddrs(s)
    ensures a in s.bodies && Size(s.bodies[a]) <= MAX_SMALL
  {
    hide Tiled, Regions, Idle, AllRememberedStored, TotalSizeOf, BigAddrs;
    if a in AddrsOf(s.workLay) {
      var j :| 0 <= j < |s.workLay| && s.workLay[j].at == a;
      assert SmallBlocks(s.workLay) && Occupied(s.bodies, s.workLay);
    } else {
      var i, j :| 0 <= i < |s.oldLay| && 0 <= j < |s.oldLay[i]| && s.oldLay[i][j].at == a;
      assert Stored(s.bodies, s.olds[i].id, META_SIZE, s.olds[i].top, OLD_END, s.oldLay[i]);
      assert SmallBlocks(s.oldLay[i]) && Occupied(s.bodies, s.oldLay[i]);
    }
  }

  lemma ArrivalsHold(s: State, bs2: Bodies, bigs2: seq<Addr>, ms3: Metas, plan: Plan, bs4: Bodies, ms5: Metas,
      bs5: Bodies)
    requires ValidStorage(s) && MoveState(ms3, bs4, s.free.id, plan.from, ms5, bs5, BigAddrs(bigs2))
    requires forall d {:trigger plan.from[d]} :: d in plan.from ==> plan.from[d] in SmallAddrs(s)
    requires SmallAddrs(s) !! BigAddrs(bigs2) && SmallAddrs(s) <= bs2.Keys && SameSizes(bs2, bs4)
    requires forall a {:trigger bs2[a]} :: a in bs2 ==> a in s.bodies && bs2[a] == s.bodies[a]
    ensures Arrivals(ms3, bs4, s.free.id, plan.from, ms5, bs5)
  {
    hide ValidStorage, SmallAddrs, BigAddrs;
    forall d | d in plan.from
      ensures d in bs5 && d in ms5 && plan.from[d] in bs4 && bs5[d] == bs4[plan.from[d]] && Size(bs5[d]) <= MAX_SMALL &&
        ms5[d] == FinalMeta(s.free.id, d)
    {
      assert Arrived(bs4, s.free.id, plan.from, ms5, bs5, d);
      SmallSizes(s, plan.from[d]);
      assert Size(bs4[plan.from[d]]) == Size(bs2[plan.from[d]]);
    }
  }

  /** The layout of the storage given out is that of the spaces after the collection. */
  lemma ArrivalsStored(ms3: Metas, bs4: Bodies, toId: nat, ids: seq<nat>, rank: map<nat, nat>, plan: Plan, ms5: Metas,
      bs5: Bodies,
      olds: seq<OldChunk>)
    requires PlanTiled(toId, ids, rank, plan) && PlanAssigned(ms3, bs4, plan) &&
      Arrivals(ms3, bs4, toId, plan.from, ms5, bs5)
    requires IdsOf(olds, ids) && Top(0, plan.toLay) < NEW_END
    requires forall i {:trigger plan.oldLay[i]} :: 0 <= i < |plan.oldLay| ==> Top(META_SIZE, plan.oldLay[i]) < OLD_END
    ensures WorkingStored(bs5, Chunk(toId, Top(0, plan.toLay)), plan.toLay) && YoungFlags(ms5, plan.toLay)
    ensures OldsStored(bs5, Truncated(olds, plan.oldLay), plan.oldLay) &&
      AllOldFlags(ms5, Truncated(olds, plan.oldLay), plan.oldLay)
  {
    hide OldAddrs, AddrsOf;
    StoredPart(ms3, bs4, toId, plan.from, ms5, bs5, toId, 0, plan.toLay);
    assert YoungFlags(ms5, plan.toLay);
    var olds5 := Truncated(olds, plan.oldLay);
    forall i | 0 <= i < |olds5|
      ensures Stored(bs5, olds5[i].id, META_SIZE, olds5[i].top, OLD_END, plan.oldLay[i]) &&
        OldFlags(ms5, olds5[i].id, plan.oldLay[i])
    {
      assert ids[i] in rank && AllAssigned(ms3, bs4, plan.from, plan.oldLay[i]);
      StoredPart(ms3, bs4, toId, plan.from, ms5, bs5, ids[i], META_SIZE, plan.oldLay[i]);
    }
  }

  lemma StoredPart(ms3: Metas, bs4: Bodies, toId: nat, from: map<Addr, Addr>, ms5: Metas, bs5: Bodies, id: nat,
      start: nat, lay: seq<Block>)
    requires Tiled(id, start, lay) && AllAssigned(ms3, bs4, from, lay) && Arrivals(ms3, bs4, toId, from, ms5, bs5)
    ensures SmallBlocks(lay) && Occupied(bs5, lay)
    ensures forall j {:trigger lay[j]} ::
      0 <= j < |lay| ==> lay[j].at.chunk == id && lay[j].at in ms5 && ms5[lay[j].at] == FinalMeta(toId, lay[j].at)
  {
    forall j | 0 <= j < |lay|
      ensures lay[j].at in bs5 && Size(bs5[lay[j].at]) == lay[j].size <= MAX_SMALL && lay[j].at in ms5 &&
        ms5[lay[j].at] == FinalMeta(toId, lay[j].at)
    {
      assert Assigned(ms3, bs4, from, lay[j]);
      assert from[lay[j].at] == from[lay[j].at];
    }
  }

  /** After the moves the heap holds what has arrived, and the big objects. */
  lemma AllArrived(ms3: Metas, bs4: Bodies, toId: nat, from: map<Addr, Addr>, ms5: Metas, bs5: Bodies, small: set<Addr>,
      big: set<Addr>)
    requires MoveState(ms3, bs4, toId, from, ms5, bs5, big) && small !! big
    requires forall d {:trigger from[d]} :: d in from ==> from[d] in small
    ensures bs5.Keys == from.Keys + big && from.Keys !! big
    ensures forall d {:trigger from[d]} :: d in from ==> from[d] in bs4 && bs5[d] == bs4[from[d]]
    ensures forall a {:trigger bs5[a]} :: a in big ==> a in bs4 && bs5[a] == bs4[a]
  {
    forall d | d in from ensures d in bs5 && from[d] in bs4 && bs5[d] == bs4[from[d]] && d !in big {
      assert Arrived(bs4, toId, from, ms5, bs5, d);
    }
    forall x ensures x in bs5 <==> x in from.Keys + big {
    }
  }

  /** The marks tell small survivors, big survivors and the dead apart. */
  lemma MarksTell(s: State, ms1: Metas, bigs2: seq<Addr>, ms3: Metas)
    requires MetasThen(s, ms1, ms3, bigs2) && ms3.Keys == SmallAddrs(s) + BigAddrs(bigs2) &&
      SmallAddrs(s) !! BigAddrs(bigs2)
    ensures forall a {:trigger ms3[a].mrk} :: a in SmallAddrs(s) ==> a in ms3 && (ms3[a].mrk <==> a in MarkedSet(ms1))
    ensures forall a {:trigger ms3[a].mrk} :: a in BigAddrs(bigs2) ==> a in ms3 && !ms3[a].mrk && a in MarkedSet(ms1)
  {
    hide SmallAddrs, BigAddrs;
  }

  lemma TransferredHolds(s: State, ms1: Metas, bs2: Bodies, bigs2: seq<Addr>, ms3: Metas, plan: Plan, bs4: Bodies,
      ms5: Metas, bs5: Bodies)
    requires MetasThen(s, ms1, ms3, bigs2) && MarkedSet(ms1) <= bs2.Keys &&
      ms3.Keys == bs2.Keys == SmallAddrs(s) + BigAddrs(bigs2)
    requires SmallAddrs(s) !! BigAddrs(bigs2)
    requires forall a {:trigger bs2[a]} :: a in bs2 ==> a in s.bodies && bs2[a] == s.bodies[a]
    requires Updated(ms3, bs2, bs4, ms3.Keys) && MoveState(ms3, bs4, s.free.id, plan.from, ms5, bs5, BigAddrs(bigs2))
    requires forall d {:trigger plan.from[d]} ::
      d in plan.from ==> plan.from[d] in SmallAddrs(s) && ms3[plan.from[d]].mrk && ms3[plan.from[d]].ptr == d
    requires AllRelocated(ms3, plan.from, SmallAddrs(s))
    ensures Transferred(s.bodies, MarkedSet(ms1), BigAddrs(bigs2), ms3, plan.from, bs4, bs5)
  {
    hide SmallAddrs, BigAddrs, MetasThen, MoveState, MarkedSet, ForwardedBody;
    var marked, big := MarkedSet(ms1), BigAddrs(bigs2);
    AllArrived(ms3, bs4, s.free.id, plan.from, ms5, bs5, SmallAddrs(s), big);
    MarksTell(s, ms1, bigs2, ms3);
    forall a | a in marked - big ensures Relocated(ms3, plan.from, a) {
      assert a in SmallAddrs(s) && ms3[a].mrk;
    }
    forall a | a in marked ensures ForwardedBody(ms3, s.bodies[a], bs4[a]) {
      assert bs2[a] == s.bodies[a] && bs4[a] == bs4[a] && (ms3[a].mrk || a in big);
      LiveIsMarked(s, ms1, ms3, bigs2, a);
    }
  }

  /** Where the facts about the sources of the storage come from. */
  lemma SourcesKnown(s: State, ms2: Metas, ms3: Metas, bs4: Bodies, toId: nat, ids: seq<nat>, rank: map<nat, nat>,
      plan: Plan)
    requires Redirections(ms2, ms3, plan, SmallAddrs(s)) && PlanTiled(toId, ids, rank, plan) &&
      PlanAssigned(ms3, bs4, plan)
    ensures forall d {:trigger plan.from[d]} :: d in plan.from ==>
      plan.from[d] in SmallAddrs(s) && plan.from[d] in ms3 && ms3[plan.from[d]].mrk && ms3[plan.from[d]].ptr == d
  {
    hide SmallAddrs, PlanTiled, PlanAssigned;
    forall d | d in plan.from
      ensures plan.from[d] in SmallAddrs(s) && plan.from[d] in ms3 && ms3[plan.from[d]].mrk &&
      ms3[plan.from[d]].ptr == d {
      SourceOnce(ms3, bs4, toId, ids, rank, plan, d);
    }
  }

  /** Chunks and big objects are still different regions. */
  lemma RegionsAfter(s: State, ids: seq<nat>, rank: map<nat, nat>, plan: Plan, olds3: seq<OldChunk>, bigs2: seq<Addr>,
      regions: nat)
    requires ValidStorage(s) && IdsOf(olds3, ids) && Ranked(ids, rank) && RankBelow(rank, regions) &&
      s.regions <= regions && 0 !in rank
    requires |plan.oldLay| <= |olds3| && s.free.id !in rank && s.working.id !in rank
    requires forall k {:trigger s.bigs[k]} :: 0 <= k < |s.bigs| ==> s.bigs[k].chunk !in rank
    requires BigAddrs(bigs2) <= BigAddrs(s.bigs) && DistinctRegions(bigs2)
    ensures Regions(s.free.id, s.working.id, Truncated(olds3, plan.oldLay), bigs2, regions)
  {
    var olds := Truncated(olds3, plan.oldLay);
    forall i | 0 <= i < |olds| ensures 0 < olds[i].id <= regions && olds[i].id in rank && rank[olds[i].id] == i {
      assert ids[i] in rank;
      assert olds3[i].id == ids[i];
    }
    forall k | 0 <= k < |bigs2|
      ensures 0 < bigs2[k].chunk <= regions && bigs2[k].chunk != s.working.id && bigs2[k].chunk != s.free.id &&
        bigs2[k].chunk !in rank
    {
      assert bigs2[k] in BigAddrs(bigs2);
      var m :| 0 <= m < |s.bigs| && s.bigs[m] == bigs2[k];
    }
  }

  // ----- The theorem --------------------------------------------------------

  /** What a full collection does for the program: `f` takes the reachable objects, all of
      them and no others, to their new places; the new heap holds nothing else. */
  ghost predicate HeapPreserved(s: State, t: State, f: map<Addr, Addr>)
  {
    ReachableSet(s.bodies, s.roots, f.Keys) && f.Values == t.bodies.Keys &&
    Isomorphic(s.bodies, s.roots, t.bodies, t.roots, f)
  }

  /** The state after the pointers of the chunks have been set. */
  ghost predicate Settled(s: State, t: State, first2: Addr, bigs2: seq<Addr>, bs2: Bodies, ids: seq<nat>,
      rank: map<nat, nat>, plan: Plan,
      olds3: seq<OldChunk>)
  {
    t.working == Chunk(s.free.id, Top(0, plan.toLay)) && t.working.top < NEW_END && t.free == s.working &&
    |plan.oldLay| <= |olds3| && t.olds == Truncated(olds3, plan.oldLay) && t.workLay == plan.toLay &&
      t.oldLay == plan.oldLay &&
    (forall i {:trigger plan.oldLay[i]} :: 0 <= i < |plan.oldLay| ==> Top(META_SIZE, plan.oldLay[i]) < OLD_END) &&
    t.bigs == bigs2 && t.bigFirst == first2 && BigAddrs(bigs2) <= bs2.Keys &&
      t.bigAllocated == TotalSizeOf(bs2, bigs2) &&
    t.classes == s.classes && s.regions <= t.regions && RankBelow(rank, t.regions) && 0 !in rank
  }

  lemma CollectionIsomorphic(s: State, ms1: Metas, ms2: Metas, bs2: Bodies, first2: Addr, bigs2: seq<Addr>,
      ms3: Metas, ids: seq<nat>, rank: map<nat, nat>, plan: Plan, olds3: seq<OldChunk>, lays3: seq<seq<Block>>,
        bs4: Bodies,
      ms5: Metas, bs5: Bodies, roots5: seq<Value>)
    requires Finished(s, ms1, ms2, bs2, first2, bigs2, ms3, ids, rank, plan, olds3, lays3, bs4, ms5, bs5)
    requires ForwardedValues(ms3, s.roots, roots5)
    ensures MarkedSet(ms1) <= ms3.Keys && bs5.Keys == plan.from.Keys + BigAddrs(bigs2)
    ensures Isomorphic(s.bodies, s.roots, bs5, roots5, NewPlaces(ms3, MarkedSet(ms1))) &&
      NewPlaces(ms3, MarkedSet(ms1)).Values == bs5.Keys
    ensures Arrivals(ms3, bs4, s.free.id, plan.from, ms5, bs5) && SameSizes(bs2, bs4)
  {
    hide Prepared, Updated, MoveState, UpdateSetting, SmallAddrs, BigAddrs, MetasThen, MarkedSet, PlanTiled,
      PlanAssigned, AllRelocated, Redirections,
      ValidStorage, SlidDown, InPlace, AllPromoted, WorkingStored, OldsStored, ChunksTiled, OldMoveSetting,
        NotInRegions, Transferred, Isomorphic,
      ForwardedValues, ClosedSet, Arrivals, SameSizes, NewPlaces, BigList, DistinctRegions, AllSized, ValidGraph,
        OldAddrs, AddrsOf, ClassesAnchored,
      SmallOnly, Sweep, Replanned, Progress;
    UpdateReady(s, ms1, ms2, bs2, first2, bigs2, ms3, ids, rank, plan, olds3, lays3);
    UpdateReady2(s, ms1, ms2, bs2, first2, bigs2, ms3, ids, rank, plan, olds3, lays3);
    MoveReady(s, ms1, ms2, bs2, first2, bigs2, ms3, ids, rank, plan, olds3, lays3, bs4);
    PreparedParts(s, ms1, ms2, bs2, first2, bigs2, ms3, ids, rank, plan, olds3, lays3);
    PreparedFacts(s, ms1, ms2, bs2, first2, bigs2, ms3, ids, rank, plan, olds3, lays3);
    SourcesKnown(s, ms2, ms3, bs4, s.free.id, ids, rank, plan);
    UpdatedSameSizes(ms3, bs2, bs4, ms3.Keys);
    TransferredHolds(s, ms1, bs2, bigs2, ms3, plan, bs4, ms5, bs5);
    ArrivalsHold(s, bs2, bigs2, ms3, plan, bs4, ms5, bs5);
    TransferIsomorphic(s.bodies, s.roots, MarkedSet(ms1), BigAddrs(bigs2), ms3, plan.from, bs4, bs5, roots5);
    TransferredKeys(s.bodies, MarkedSet(ms1), BigAddrs(bigs2), ms3, plan.from, bs4, bs5);
  }

  lemma TransferredKeys(bs: Bodies, marked: set<Addr>, big: set<Addr>, ms3: Metas, from: map<Addr, Addr>, bs4: Bodies,
      bs5: Bodies)
    requires Transferred(bs, marked, big, ms3, from, bs4, bs5)
    ensures marked <= ms3.Keys && bs5.Keys == from.Keys + big
  {
  }

  lemma PreparedFacts(s: State, ms1: Metas, ms2: Metas, bs2: Bodies, first2: Addr, bigs2: seq<Addr>,
      ms3: Metas, ids: seq<nat>, rank: map<nat, nat>, plan: Plan, olds3: seq<OldChunk>, lays3: seq<seq<Block>>)
    requires Prepared(s, ms1, ms2, bs2, first2, bigs2, ms3, ids, rank, plan, olds3, lays3)
    ensures Valid(s) && MarkedSet(ms1) <= bs2.Keys && ReachableSet(s.bodies, s.roots, MarkedSet(ms1))
    ensures forall a {:trigger bs2[a]} :: a in bs2 ==> a in s.bodies && bs2[a] == s.bodies[a]
    ensures Redirections(ms2, ms3, plan, SmallAddrs(s)) && BigAddrs(bigs2) <= BigAddrs(s.bigs)
    ensures IdsOf(olds3, ids) && Ranked(ids, rank) && s.free.id !in rank && |plan.oldLay| <= |olds3|
  {
    hide SlidDown, InPlace, AllPromoted, OldsStored, ValidStorage, ValidFlags, ValidGraph, Sweep, OnlyMarks,
      ReachableSet, Redirections, PlanAssigned,
      MarkedSet, SmallAddrs, BigAddrs, ChunksTiled, Tiled, Ranked;
    SweepLeaves(s, ms1, ms2, bs2, first2, bigs2);
    MarkedStay(s, ms1, ms2, bs2, first2, bigs2);
  }

  /** The class objects are still the first objects of old space, and roots. */
  lemma ClassesAfter(s: State, f: map<Addr, Addr>, bs5: Bodies, lays5: seq<seq<Block>>, roots5: seq<Value>)
    requires ValidGraph(s) && Isomorphic(s.bodies, s.roots, bs5, roots5, f) && f.Values == bs5.Keys
    requires lays5 != [] && s.classes <= |lays5[0]|
    requires forall j {:trigger lays5[0][j]} :: 0 <= j < s.classes ==>
      lays5[0][j] == s.oldLay[0][j] && lays5[0][j].at in f && f[lays5[0][j].at] == lays5[0][j].at
    ensures ClassPrefix(bs5, lays5, roots5, s.classes)
  {
    forall j | 0 <= j < s.classes ensures roots5[j] == Ref(lays5[0][j].at) {
      assert s.roots[j] == Ref(s.oldLay[0][j].at);
      assert lays5[0][j] == s.oldLay[0][j];
    }
    forall d | d in bs5 ensures ClassInPrefix(bs5[d], lays5[0], s.classes) {
      var a :| a in f && f[a] == d;
      assert MappedBody(f, s.bodies[a], bs5[d]);
      assert ClassInPrefix(s.bodies[a], s.oldLay[0], s.classes);
      var j :| 0 <= j < s.classes && j < |s.oldLay[0]| && s.oldLay[0][j].at == s.bodies[a].cls;
      assert lays5[0][j] == s.oldLay[0][j];
      assert bs5[d].cls == lays5[0][j].at;
    }
  }

  lemma FirstChunk(s: State, bs2: Bodies, bs4: Bodies)
    requires ValidStorage(s) && s.olds != [] && SmallAddrs(s) <= bs2.Keys && SameSizes(bs2, bs4)
    requires forall a {:trigger bs2[a]} :: a in bs2 ==> a in s.bodies && bs2[a] == s.bodies[a]
    ensures s.oldLay != [] && Tiled(s.olds[0].id, META_SIZE, s.oldLay[0]) && Occupied(bs4, s.oldLay[0])
  {
    hide Tiled, Regions;
    assert Stored(s.bodies, s.olds[0].id, META_SIZE, s.olds[0].top, OLD_END, s.oldLay[0]);
    forall j | 0 <= j < |s.oldLay[0]|
      ensures s.oldLay[0][j].at in bs4 && Size(bs4[s.oldLay[0][j].at]) == s.oldLay[0][j].size {
      var a := s.oldLay[0][j].at;
      assert a in OldAddrs(s.oldLay);
      assert bs2[a] == s.bodies[a] && Size(bs4[a]) == Size(bs2[a]);
    }
  }

  lemma ClassMarks(s: State, ms1: Metas, ms3: Metas, bigs2: seq<Addr>, j: nat)
    requires ValidGraph(s) && MetasThen(s, ms1, ms3, bigs2) && AllMarked(ms3, s.oldLay[0], s.classes) && j < s.classes
    ensures s.oldLay[0][j].at in MarkedSet(ms1)
  {
    ClassIsSmall(s, j);
    assert ms3[s.oldLay[0][j].at].mrk;
  }

  lemma ClassesFixed(s: State, ms1: Metas, ms2: Metas, bs2: Bodies, first2: Addr, bigs2: seq<Addr>,
      ms3: Metas, ids: seq<nat>, rank: map<nat, nat>, plan: Plan, olds3: seq<OldChunk>, lays3: seq<seq<Block>>,
        bs4: Bodies)
    requires Prepared(s, ms1, ms2, bs2, first2, bigs2, ms3, ids, rank, plan, olds3, lays3) &&
      Updated(ms3, bs2, bs4, ms3.Keys)
    ensures plan.oldLay != [] && s.oldLay != [] && s.classes <= |plan.oldLay[0]| && s.classes <= |s.oldLay[0]| &&
      MarkedSet(ms1) <= ms3.Keys
    ensures forall j {:trigger plan.oldLay[0][j]} :: 0 <= j < s.classes ==>
      plan.oldLay[0][j] == s.oldLay[0][j] && plan.oldLay[0][j].at in MarkedSet(ms1) &&
      NewPlaces(ms3, MarkedSet(ms1))[plan.oldLay[0][j].at] == plan.oldLay[0][j].at
  {
    hide Updated, Replanned, Swept1, FullyMarked, ValidStorage, ValidFlags, MoveState, OldMoveSetting, NotInRegions,
      SlidDown, AllPromoted, UpdateSetting, MetasThen, Redirections,
      Occupied, PlanTiled, PlanAssigned, Tiled, SmallAddrs, AddrsOf, OldAddrs, BigAddrs, AllSized, Closed,
        WorkingStored, OldsStored, SameSizes;
    PreparedFacts(s, ms1, ms2, bs2, first2, bigs2, ms3, ids, rank, plan, olds3, lays3);
    UpdateReady(s, ms1, ms2, bs2, first2, bigs2, ms3, ids, rank, plan, olds3, lays3);
    UpdateReady2(s, ms1, ms2, bs2, first2, bigs2, ms3, ids, rank, plan, olds3, lays3);
    MoveReady(s, ms1, ms2, bs2, first2, bigs2, ms3, ids, rank, plan, olds3, lays3, bs4);
    ReplannedParts(s, ms2, bs2, ms3, ids, rank, plan, olds3, lays3);
    ClassesMarked(s, ms1, ms2, bs2, first2, bigs2);
    ClassesMarkedStill(s, ms2, ms3, plan);
    UpdatedSameSizes(ms3, bs2, bs4, ms3.Keys);
    SweepLeaves(s, ms1, ms2, bs2, first2, bigs2);
    FirstChunk(s, bs2, bs4);
    forall j | 0 <= j < s.classes
      ensures plan.oldLay != [] && j < |plan.oldLay[0]| && plan.oldLay[0][j] == s.oldLay[0][j] &&
        s.oldLay[0][j].at in MarkedSet(ms1)
    {
      ClassMarks(s, ms1, ms3, bigs2, j);
      forall k | 0 <= k < s.classes ensures s.oldLay[0][k].at in ms3 && Relocated(ms3, plan.from, s.oldLay[0][k].at) {
        ClassIsSmall(s, k);
        assert s.oldLay[0][k].at in ms3 && ms3[s.oldLay[0][k].at].mrk;
      }
      PrefixKept(ms3, bs4, s.free.id, ids, rank, plan, s.oldLay[0], s.classes, j);
    }
    assert s.oldLay[0][s.classes - 1].at in MarkedSet(ms1);
  }

  /** Big objects are still a list, unmarked, and nothing else is marked either. */
  lemma FlagsAfter(ms3: Metas, bs4: Bodies, toId: nat, plan: Plan, ms5: Metas, bs5: Bodies, first2: Addr,
      bigs2: seq<Addr>)
    requires BigList(ms3, first2, bigs2) &&
      (forall a {:trigger a in BigAddrs(bigs2)} {:trigger ms3[a]} :: a in BigAddrs(bigs2) ==> a in ms3 && Reset(ms3[a]))
    requires MoveState(ms3, bs4, toId, plan.from, ms5, bs5, BigAddrs(bigs2)) &&
      bs5.Keys == plan.from.Keys + BigAddrs(bigs2)
    requires Arrivals(ms3, bs4, toId, plan.from, ms5, bs5)
    ensures BigList(ms5, first2, bigs2) && NoMarks(ms5) && ms5.Keys == bs5.Keys
    ensures forall a {:trigger a in BigAddrs(bigs2)} ::
      a in BigAddrs(bigs2) ==> a in bs5 && a in bs4 && bs5[a] == bs4[a]
  {
    forall k | 0 <= k < |bigs2| ensures bigs2[k] in ms5 && ms5[bigs2[k]] == ms3[bigs2[k]] {
      assert bigs2[k] in BigAddrs(bigs2);
    }
    forall a | a in ms5 ensures !ms5[a].mrk {
      if a in BigAddrs(bigs2) {
        assert ms5[a] == ms3[a];
      } else {
        assert plan.from[a] == plan.from[a];
      }
    }
  }

  lemma SizesAfter(bs2: Bodies, bs4: Bodies, bs5: Bodies, bigs2: seq<Addr>)
    requires SameSizes(bs2, bs4) && BigAddrs(bigs2) <= bs2.Keys
    requires forall a {:trigger a in BigAddrs(bigs2)} ::
      a in BigAddrs(bigs2) ==> a in bs5 && a in bs4 && bs5[a] == bs4[a]
    ensures TotalSizeOf(bs5, bigs2) == TotalSizeOf(bs2, bigs2)
  {
    forall k | 0 <= k < |bigs2|
      ensures bigs2[k] in bs2 && bigs2[k] in bs5 && Size(bs2[bigs2[k]]) == Size(bs5[bigs2[k]]) {
      assert bigs2[k] in BigAddrs(bigs2);
      assert bs5[bigs2[k]] == bs4[bigs2[k]];
    }
    TotalSizeSame(bs2, bs5, bigs2);
  }

  lemma StorageAfter(s: State, t: State, ms3: Metas, bs2: Bodies, bs4: Bodies, ids: seq<nat>, rank: map<nat, nat>,
      plan: Plan, olds3: seq<OldChunk>,
      first2: Addr, bigs2: seq<Addr>)
    requires Settled(s, t, first2, bigs2, bs2, ids, rank, plan, olds3) && SameSizes(bs2, bs4)
    requires PlanTiled(s.free.id, ids, rank, plan) && PlanAssigned(ms3, bs4, plan) &&
      Arrivals(ms3, bs4, s.free.id, plan.from, t.metas, t.bodies)
    requires MoveState(ms3, bs4, s.free.id, plan.from, t.metas, t.bodies, BigAddrs(bigs2)) &&
      t.bodies.Keys == plan.from.Keys + BigAddrs(bigs2)
    requires BigList(ms3, first2, bigs2) &&
      (forall a {:trigger a in BigAddrs(bigs2)} {:trigger ms3[a]} :: a in BigAddrs(bigs2) ==> a in ms3 && Reset(ms3[a]))
    requires ValidStorage(s) && IdsOf(olds3, ids) && s.working.id !in rank
    requires forall k {:trigger s.bigs[k]} :: 0 <= k < |s.bigs| ==> s.bigs[k].chunk !in rank
    requires BigAddrs(bigs2) <= BigAddrs(s.bigs) && DistinctRegions(bigs2)
    ensures ValidStorage(t) && ValidFlags(t)
  {
    hide MoveState, Arrivals, BigList, OldAddrs, AddrsOf, BigAddrs, AllAssigned, Tiled, SameSizes, DistinctRegions,
      Reset, Ranked, NoMarks, Stored,
      WorkingStored, OldsStored, AllOldFlags, YoungFlags, TotalSizeOf, RankBelow, ValidStorage, Regions;
    RegionsAfter(s, ids, rank, plan, olds3, bigs2, t.regions);
    ArrivalsStored(ms3, bs4, s.free.id, ids, rank, plan, t.metas, t.bodies, olds3);
    FlagsAfter(ms3, bs4, s.free.id, plan, t.metas, t.bodies, first2, bigs2);
    SizesAfter(bs2, bs4, t.bodies, bigs2);
    Assembled(t, ids, plan, olds3);
  }

  lemma Assembled(t: State, ids: seq<nat>, plan: Plan, olds3: seq<OldChunk>)
    requires |plan.oldLay| <= |olds3| && t.olds == Truncated(olds3, plan.oldLay) && t.oldLay == plan.oldLay
    requires Regions(t.working.id, t.free.id, t.olds, t.bigs, t.regions)
    requires WorkingStored(t.bodies, t.working, t.workLay) && OldsStored(t.bodies, t.olds, t.oldLay)
    requires t.metas.Keys == t.bodies.Keys && t.bigAllocated == TotalSizeOf(t.bodies, t.bigs)
    requires t.bodies.Keys == AddrsOf(t.workLay) + OldAddrs(t.oldLay) + BigAddrs(t.bigs)
    ensures ValidStorage(t)
  {
    hide Regions, WorkingStored, OldsStored, TotalSizeOf, AddrsOf, OldAddrs, BigAddrs;
  }

  lemma GraphAfter(s: State, t: State, f: map<Addr, Addr>)
    requires ValidGraph(s) && Isomorphic(s.bodies, s.roots, t.bodies, t.roots, f) && f.Values == t.bodies.Keys &&
      t.classes == s.classes
    requires t.oldLay != [] && s.classes <= |t.oldLay[0]|
    requires forall j {:trigger t.oldLay[0][j]} :: 0 <= j < s.classes ==>
      t.oldLay[0][j] == s.oldLay[0][j] && t.oldLay[0][j].at in f && f[t.oldLay[0][j].at] == t.oldLay[0][j].at
    ensures ValidGraph(t)
  {
    ClassesAfter(s, f, t.bodies, t.oldLay, t.roots);
    hide ClassPrefix, Isomorphic;
    IsomorphicClosed(s.bodies, s.roots, t.bodies, t.roots, f);
  }

  /** A full collection leaves a valid heap that is the reachable part of the old one. */
  lemma FullCollectionDone(s: State, t: State, ms1: Metas, ms2: Metas, bs2: Bodies, first2: Addr, bigs2: seq<Addr>,
      ms3: Metas, ids: seq<nat>, rank: map<nat, nat>, plan: Plan, olds3: seq<OldChunk>, lays3: seq<seq<Block>>,
        bs4: Bodies)
    requires Finished(s, ms1, ms2, bs2, first2, bigs2, ms3, ids, rank, plan, olds3, lays3, bs4, t.metas, t.bodies)
    requires Settled(s, t, first2, bigs2, bs2, ids, rank, plan, olds3) && ForwardedValues(ms3, s.roots, t.roots)
    ensures MarkedSet(ms1) <= ms3.Keys && Valid(t) && HeapPreserved(s, t, NewPlaces(ms3, MarkedSet(ms1)))
  {
    hide Prepared, Updated, Replanned, Swept1, FullyMarked, ValidStorage, ValidFlags, ValidGraph, MoveState,
      OldMoveSetting, NotInRegions, SlidDown, AllPromoted, UpdateSetting,
      MetasThen, Redirections, Occupied, PlanTiled, PlanAssigned, Tiled, SmallAddrs, AddrsOf, OldAddrs, BigAddrs,
        AllSized, Closed, WorkingStored,
      OldsStored, SameSizes, Settled, Isomorphic, ReachableSet, NewPlaces, MarkedSet, ForwardedValues, Arrivals,
        BigList, DistinctRegions, AllRelocated;
    CollectionIsomorphic(s, ms1, ms2, bs2, first2, bigs2, ms3, ids, rank, plan, olds3, lays3, bs4, t.metas, t.bodies,
      t.roots);
    PreparedFacts(s, ms1, ms2, bs2, first2, bigs2, ms3, ids, rank, plan, olds3, lays3);
    UpdateReady2(s, ms1, ms2, bs2, first2, bigs2, ms3, ids, rank, plan, olds3, lays3);
    MoveReady(s, ms1, ms2, bs2, first2, bigs2, ms3, ids, rank, plan, olds3, lays3, bs4);
    ReplannedPartsOf(s, ms1, ms2, bs2, first2, bigs2, ms3, ids, rank, plan, olds3, lays3);
    ResetOf(s, ms1, ms3, bigs2);
    StorageAfter(s, t, ms3, bs2, bs4, ids, rank, plan, olds3, first2, bigs2);
    ClassesFixed(s, ms1, ms2, bs2, first2, bigs2, ms3, ids, rank, plan, olds3, lays3, bs4);
    SettledParts(s, t, first2, bigs2, bs2, ids, rank, plan, olds3);
    NewPlacesKeys(ms3, MarkedSet(ms1));
    GraphAfter(s, t, NewPlaces(ms3, MarkedSet(ms1)));
  }

  lemma NewPlacesKeys(ms: Metas, marked: set<Addr>)
    requires marked <= ms.Keys
    ensures NewPlaces(ms, marked).Keys == marked
  {
  }

  lemma SettledParts(s: State, t: State, first2: Addr, bigs2: seq<Addr>, bs2: Bodies, ids: seq<nat>,
      rank: map<nat, nat>, plan: Plan,
      olds3: seq<OldChunk>)
    requires Settled(s, t, first2, bigs2, bs2, ids, rank, plan, olds3)
    ensures t.oldLay == plan.oldLay && t.classes == s.classes
  {
  }

  lemma ResetOf(s: State, ms1: Metas, ms3: Metas, bigs2: seq<Addr>)
    requires MetasThen(s, ms1, ms3, bigs2)
    ensures forall a {:trigger a in BigAddrs(bigs2)} {:trigger ms3[a]} ::
      a in BigAddrs(bigs2) ==> a in ms3 && Reset(ms3[a])
  {
    forall a | a in BigAddrs(bigs2) ensures a in ms3 && Reset(ms3[a]) {
      LiveIsMarked(s, ms1, ms3, bigs2, a);
      assert ms3[a] == ms3[a];
    }
  }

  lemma ReplannedPartsOf(s: State, ms1: Metas, ms2: Metas, bs2: Bodies, first2: Addr, bigs2: seq<Addr>,
      ms3: Metas, ids: seq<nat>, rank: map<nat, nat>, plan: Plan, olds3: seq<OldChunk>, lays3: seq<seq<Block>>)
    requires Prepared(s, ms1, ms2, bs2, first2, bigs2, ms3, ids, rank, plan, olds3, lays3)
    ensures s.working.id !in rank && forall k {:trigger s.bigs[k]} :: 0 <= k < |s.bigs| ==> s.bigs[k].chunk !in rank
  {
  }

  lemma MarkReady(s: State)
    requires Valid(s)
    ensures s.metas.Keys == s.bodies.Keys && Closed(s.bodies) && ValuesIn(s.roots, s.bodies.Keys)
  {
    hide AddrsOf, OldAddrs, BigAddrs, Regions, OldsStored, WorkingStored, AllOldFlags;
  }

  lemma SettledNow(s: State, t: State, ms1: Metas, ms2: Metas, bs2: Bodies, ids: seq<nat>, rank: map<nat, nat>,
      plan: Plan, olds3: seq<OldChunk>,
      it: Iterator)
    requires Valid(s) && Swept1(s, ms1, ms2, bs2, t.bigFirst, t.bigs)
    requires t.working == Chunk(s.free.id, Top(0, plan.toLay)) && t.working.top < NEW_END && t.free == s.working
    requires IterAt(it, olds3, plan.oldLay) && t.olds == Truncated(olds3, plan.oldLay) && t.workLay == plan.toLay &&
      t.oldLay == plan.oldLay
    requires BigAddrs(t.bigs) <= bs2.Keys ==> t.bigAllocated == TotalSizeOf(bs2, t.bigs)
    requires t.classes == s.classes && s.regions <= t.regions && RankBelow(rank, t.regions) && 0 !in rank
    ensures Settled(s, t, t.bigFirst, t.bigs, bs2, ids, rank, plan, olds3)
  {
    hide Sweep, Swept1, ValidStorage, ValidFlags, ValidGraph, SmallAddrs, BigAddrs, TotalSizeOf, RankBelow, Tiled;
    SweepLeaves(s, ms1, ms2, bs2, t.bigFirst, t.bigs);
    forall i | 0 <= i < |plan.oldLay| ensures Top(META_SIZE, plan.oldLay[i]) < OLD_END {
      assert olds3[i].visited < OLD_END;
    }
  }
}
