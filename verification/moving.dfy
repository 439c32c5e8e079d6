/** Moving the survivors to their new storage, where it may overlap the old one. */
module Moving {
  import opened ObjectHeap
  import opened Layout
  import opened Spaces
  import opened Relocation

  /** The meta of an object that has been moved to `d`. */
  function FinalMeta(toId: nat, d: Addr): Meta
  {
    if d.chunk == toId then Meta(Young, true, false, NULL, false)
    else Meta(Old, false, false, Addr(d.chunk, 0), false)
  }

  /** The object meant for `d` has arrived there in one piece. */
  ghost predicate Arrived(bs0: Bodies, toId: nat, from: map<Addr, Addr>, ms: Metas, bs: Bodies, d: Addr)
    requires d in from
  {
    d in ms && d in bs && from[d] in bs0 && bs[d] == bs0[from[d]] && ms[d] == FinalMeta(toId, d)
  }

  /** The objects `intact` have not been touched since the moving began; all others that
      have new storage have arrived there, and there are no other objects. */
  ghost predicate MoveState(ms0: Metas, bs0: Bodies, toId: nat, from: map<Addr, Addr>, ms: Metas, bs: Bodies,
      intact: set<Addr>)
  {
    ms.Keys == bs.Keys &&
    (forall a {:trigger a in intact} :: a in intact ==>
      a in bs && a in ms && a in bs0 && a in ms0 && bs[a] == bs0[a] && ms[a] == ms0[a]) &&
    (forall d {:trigger Arrived(bs0, toId, from, ms, bs, d)} :: d in from && from[d] !in intact ==>
      Arrived(bs0, toId, from, ms, bs, d) && d !in intact) &&
    (forall x {:trigger x in bs} :: x in bs ==> x in intact || (x in from && from[x] !in intact))
  }

  /** Writing `n` bytes at `d` destroys none of the objects `s`. */
  ghost predicate Spares(bs: Bodies, d: Addr, n: nat, s: set<Addr>)
  {
    forall x {:trigger x in s} :: x in s && x in bs ==> !Overlap(d, n, x, Size(bs[x]))
  }

  /** The marked object `a` moves to `d`; whatever is still needed survives. */
  lemma MoveStep(ms0: Metas, bs0: Bodies, toId: nat, ids: seq<nat>, rank: map<nat, nat>, plan: Plan, ms: Metas,
      bs: Bodies, intact: set<Addr>,
      a: Addr, d: Addr, ms': Metas, bs': Bodies)
    requires PlanTiled(toId, ids, rank, plan) && PlanAssigned(ms0, bs0, plan)
    requires MoveState(ms0, bs0, toId, plan.from, ms, bs, intact) && a in intact
    requires a in ms0 && a in bs0 && d == ms0[a].ptr && Relocated(ms0, plan.from, a)
    requires Spares(bs0, d, Size(bs0[a]), intact - {a})
    requires bs' == PutBody(bs - {a}, d, bs0[a])
    requires ms' == PutMeta(ms - {a}, bs - {a}, d, FinalMeta(toId, d), Size(bs0[a]))
    ensures MoveState(ms0, bs0, toId, plan.from, ms', bs', intact - {a})
  {
    hide PlanTiled, PlanAssigned, PutBody, PutMeta, Spares, Overlap, Size;
    forall x | x in intact - {a}
      ensures x in bs' && x in ms' && x in bs0 && x in ms0 && bs'[x] == bs0[x] && ms'[x] == ms0[x] && x != d
    {
      StillIntact(bs, ms, intact, bs0, ms0, a, d, x, FinalMeta(toId, d));
    }
    Landed(bs - {a}, ms - {a}, d, bs0[a], FinalMeta(toId, d));
    forall e | e in plan.from && plan.from[e] !in intact - {a}
      ensures Arrived(bs0, toId, plan.from, ms', bs', e) && e !in intact - {a} {
      if e != d {
        assert plan.from[e] != a by { SourceOnce(ms0, bs0, toId, ids, rank, plan, e); }
        assert Arrived(bs0, toId, plan.from, ms, bs, e);
        PlanDisjoint(ms0, bs0, toId, ids, rank, plan, e, d);
        OverlapSym(e, Size(bs0[plan.from[e]]), d, Size(bs0[a]));
        NotHit(bs - {a}, ms - {a}, d, bs0[a], FinalMeta(toId, d), e);
      }
    }
  }

  /** What a store does not overlap stays. */
  lemma NotHit(bs: Bodies, ms: Metas, d: Addr, b: Body, m: Meta, x: Addr)
    requires x in bs && x in ms && x != d && !Overlap(d, Size(b), x, Size(bs[x]))
    ensures x in PutBody(bs, d, b) && PutBody(bs, d, b)[x] == bs[x]
    ensures x in PutMeta(ms, bs, d, m, Size(b)) && PutMeta(ms, bs, d, m, Size(b))[x] == ms[x]
  {
    OverlapSym(d, Size(b), x, Size(bs[x]));
  }

  /** A store leaves the new object and some of those there were. */
  lemma Landed(bs: Bodies, ms: Metas, d: Addr, b: Body, m: Meta)
    requires ms.Keys == bs.Keys
    ensures PutBody(bs, d, b).Keys == PutMeta(ms, bs, d, m, Size(b)).Keys <= bs.Keys + {d}
    ensures d in PutBody(bs, d, b) && PutBody(bs, d, b)[d] == b && PutMeta(ms, bs, d, m, Size(b))[d] == m
  {
  }

  lemma StillIntact(bs: Bodies, ms: Metas, intact: set<Addr>, bs0: Bodies, ms0: Metas, a: Addr, d: Addr, x: Addr,
      m: Meta)
    requires a in bs0 && x in intact - {a} && x in bs && x in ms && x in bs0 && x in ms0 && bs[x] == bs0[x] &&
      ms[x] == ms0[x]
    requires Spares(bs0, d, Size(bs0[a]), intact - {a})
    ensures
      var bs', ms' := PutBody(bs - {a}, d, bs0[a]), PutMeta(ms - {a}, bs - {a}, d, m, Size(bs0[a]));
      x != d && x in bs' && x in ms' && bs'[x] == bs0[x] && ms'[x] == ms0[x]
  {
    hide PutBody, PutMeta, Overlap;
    assert d != x by { SelfOverlap(d, Size(bs0[a]), Size(bs0[x])); }
    NotHit(bs - {a}, ms - {a}, d, bs0[a], m, x);
  }

  lemma OverlapSym(a: Addr, n: nat, b: Addr, m: nat)
    ensures Overlap(a, n, b, m) <==> Overlap(b, m, a, n)
  {
  }

  lemma SelfOverlap(a: Addr, n: nat, m: nat)
    requires n > 0 && m > 0
    ensures Overlap(a, n, a, m)
  {
  }

  /** An object has only one new storage. */
  lemma SourceOnce(ms: Metas, bs: Bodies, toId: nat, ids: seq<nat>, rank: map<nat, nat>, plan: Plan, e: Addr)
    requires PlanTiled(toId, ids, rank, plan) && PlanAssigned(ms, bs, plan) && e in plan.from
    ensures plan.from[e] in ms && ms[plan.from[e]].ptr == e && ms[plan.from[e]].mrk
  {
    var i, j := PlanLookup(ms, bs, toId, ids, rank, plan, e);
  }

  /** An object that stays where it is only gets its meta. */
  lemma StayStep(ms0: Metas, bs0: Bodies, toId: nat, ids: seq<nat>, rank: map<nat, nat>, plan: Plan, ms: Metas,
      bs: Bodies, intact: set<Addr>, a: Addr)
    requires PlanTiled(toId, ids, rank, plan) && PlanAssigned(ms0, bs0, plan)
    requires MoveState(ms0, bs0, toId, plan.from, ms, bs, intact) && a in intact
    requires a in ms0 && a in bs0 && a == ms0[a].ptr && Relocated(ms0, plan.from, a)
    ensures MoveState(ms0, bs0, toId, plan.from, ms[a := FinalMeta(toId, a)], bs, intact - {a})
  {
    hide PlanTiled, PlanAssigned;
    var ms' := ms[a := FinalMeta(toId, a)];
    assert a in bs && bs[a] == bs0[a];
    forall e | e in plan.from && plan.from[e] !in intact - {a}
      ensures Arrived(bs0, toId, plan.from, ms', bs, e) && e !in intact - {a} {
      if e != a {
        assert plan.from[e] != a by { SourceOnce(ms0, bs0, toId, ids, rank, plan, e); }
        assert Arrived(bs0, toId, plan.from, ms, bs, e);
      }
    }
  }

  /** A dead object is left behind. */
  lemma DeadStep(ms0: Metas, bs0: Bodies, toId: nat, ids: seq<nat>, rank: map<nat, nat>, plan: Plan, ms: Metas,
      bs: Bodies, intact: set<Addr>, a: Addr)
    requires PlanTiled(toId, ids, rank, plan) && PlanAssigned(ms0, bs0, plan)
    requires MoveState(ms0, bs0, toId, plan.from, ms, bs, intact) && a in intact && a in ms0 && !ms0[a].mrk
    ensures MoveState(ms0, bs0, toId, plan.from, ms - {a}, bs - {a}, intact - {a})
  {
    forall e | e in plan.from && plan.from[e] !in intact - {a}
      ensures Arrived(bs0, toId, plan.from, ms - {a}, bs - {a}, e) && e !in intact - {a} {
      SourceOnce(ms0, bs0, toId, ids, rank, plan, e);
      assert plan.from[e] != a;
      assert Arrived(bs0, toId, plan.from, ms, bs, e);
    }
  }

  // ----- What the moves rely on ---------------------------------------------

  /** The class of `b` is an object that stays where it is. */
  predicate ClassAnchored(from: map<Addr, Addr>, b: Body)
  {
    b.cls in from && from[b.cls] == b.cls
  }

  ghost predicate ClassesAnchored(bs: Bodies, from: map<Addr, Addr>)
  {
    forall a {:trigger ClassAnchored(from, bs[a])} :: a in bs ==> ClassAnchored(from, bs[a])
  }

  /** Every marked object of `small` has new storage. */
  ghost predicate AllRelocated(ms: Metas, from: map<Addr, Addr>, small: set<Addr>)
  {
    forall a {:trigger Relocated(ms, from, a)} :: a in small && a in ms && ms[a].mrk ==> Relocated(ms, from, a)
  }

  ghost predicate MoveSetting(ms: Metas, bs: Bodies, toId: nat, ids: seq<nat>, rank: map<nat, nat>, plan: Plan,
      small: set<Addr>)
  {
    PlanTiled(toId, ids, rank, plan) && PlanAssigned(ms, bs, plan) && AllSized(bs) && ms.Keys == bs.Keys &&
    ClassesAnchored(bs, plan.from) && AllRelocated(ms, plan.from, small)
  }

  /** The size of an object that has not been reached yet can still be read. */
  lemma SizedDuringMove(ms0: Metas, bs0: Bodies, toId: nat, ids: seq<nat>, rank: map<nat, nat>, plan: Plan,
      small: set<Addr>,
      ms: Metas, bs: Bodies, intact: set<Addr>, a: Addr)
    requires MoveSetting(ms0, bs0, toId, ids, rank, plan, small)
    requires MoveState(ms0, bs0, toId, plan.from, ms, bs, intact) && a in intact
    ensures a in bs && a in ms && a in bs0 && a in ms0 && bs[a] == bs0[a] && ms[a] == ms0[a]
    ensures bs[a].cls in bs && Sized(bs, a)
  {
    assert Sized(bs0, a) && ClassAnchored(plan.from, bs0[a]);
    var c := bs0[a].cls;
    if c in intact {
    } else {
      assert Arrived(bs0, toId, plan.from, ms, bs, c);
    }
  }

  // ----- No move hits what is still needed ----------------------------------

  /** `x` lies behind the `n` bytes at `a` in the order of the walk, or outside old space. */
  predicate Behind(rank: map<nat, nat>, a: Addr, n: nat, x: Addr)
  {
    x.chunk !in rank || (a.chunk in rank && rank[x.chunk] > rank[a.chunk]) || (x.chunk == a.chunk && x.off >= a.off + n)
  }

  ghost predicate AllBehind(rank: map<nat, nat>, a: Addr, n: nat, s: set<Addr>)
  {
    forall x {:trigger x in s} :: x in s ==> Behind(rank, a, n, x)
  }

  lemma SlidingSpares(bs: Bodies, ids: seq<nat>, rank: map<nat, nat>, a: Addr, n: nat, d: Addr, s: set<Addr>)
    requires AllBehind(rank, a, n, s) && NotAhead(rank, a, d)
    requires Ranked(ids, rank)
    ensures Spares(bs, d, n, s)
  {
    forall x | x in s && x in bs ensures !Overlap(d, n, x, Size(bs[x])) {
      assert Behind(rank, a, n, x);
    }
  }

  lemma OtherRegionSpares(bs: Bodies, d: Addr, n: nat, s: set<Addr>)
    requires forall x :: x in s ==> x.chunk != d.chunk
    ensures Spares(bs, d, n, s)
  {
  }

  lemma AlreadyDone(lays: seq<seq<Block>>, i: nat, j: nat, k: nat, m: nat)
    requires i < |lays| && j < |lays[i]| && k < |lays| && m < |lays[k]|
    ensures k < i ==> lays[k][m].at in OldAddrs(lays[..i])
    ensures k == i && m < j ==> lays[k][m].at in AddrsOf(lays[i][..j])
  {
    if k < i { assert lays[..i][k][m] == lays[k][m]; }
    if k == i && m < j { assert lays[i][..j][m] == lays[k][m]; }
  }

  /** The objects that a walk through old space reaches after block `j` of chunk `i`, and
      those outside old space, are behind that block. */
  lemma RestIsBehind(ids: seq<nat>, rank: map<nat, nat>, lays: seq<seq<Block>>, i: nat, j: nat, others: set<Addr>)
    requires ChunksTiled(ids, rank, lays) && i < |lays| && j < |lays[i]|
    requires forall x :: x in others ==> x.chunk !in rank
    ensures
      var b := lays[i][j];
      var done := OldAddrs(lays[..i]) + AddrsOf(lays[i][..j]);
      AllBehind(rank, b.at, b.size, OldAddrs(lays) + others - done - {b.at})
  {
    var b := lays[i][j];
    var done := OldAddrs(lays[..i]) + AddrsOf(lays[i][..j]);
    BlockFacts(ids, rank, lays, i, j);
    forall x | x in OldAddrs(lays) + others - done - {b.at} ensures Behind(rank, b.at, b.size, x) {
      if x in OldAddrs(lays) {
        var k, m :| 0 <= k < |lays| && 0 <= m < |lays[k]| && lays[k][m].at == x;
        BlockFacts(ids, rank, lays, k, m);
        assert rank[ids[i]] == i && rank[ids[k]] == k;
        if k == i && m > j {
          assert Tiled(ids[i], META_SIZE, lays[i]) && Before(j, m);
        }
        AlreadyDone(lays, i, j, k, m);
      }
    }
  }

  // ----- Putting it together ------------------------------------------------

  /** The walk through old space: survivors slide down, everything else is elsewhere. */
  ghost predicate OldMoveSetting(ms: Metas, ids: seq<nat>, rank: map<nat, nat>, lays: seq<seq<Block>>, small: set<Addr>,
      others: set<Addr>)
  {
    ChunksTiled(ids, rank, lays) && OldAddrs(lays) <= small && SlidDown(ms, rank, OldAddrs(lays)) &&
    (forall x :: x in others ==> x.chunk !in rank)
  }

  lemma OldBlockIntact(ms: Metas, ids: seq<nat>, rank: map<nat, nat>, lays: seq<seq<Block>>, small: set<Addr>,
      others: set<Addr>, i: nat, j: nat)
    requires OldMoveSetting(ms, ids, rank, lays, small, others) && i < |lays| && j < |lays[i]|
    ensures lays[i][j].at in OldAddrs(lays) + others - (OldAddrs(lays[..i]) + AddrsOf(lays[i][..j])) &&
      lays[i][j].at in small
  {
    NotYetScanned(ids, rank, lays, i, j);
    assert lays[i][j].at in OldAddrs(lays);
  }

  lemma OldMoveSpares(ms: Metas, bs: Bodies, toId: nat, ids: seq<nat>, rank: map<nat, nat>, plan: Plan,
      lays: seq<seq<Block>>,
      small: set<Addr>, others: set<Addr>, i: nat, j: nat)
    requires MoveSetting(ms, bs, toId, ids, rank, plan, small) && OldMoveSetting(ms, ids, rank, lays, small, others)
    requires i < |lays| && j < |lays[i]| && lays[i][j].at in ms && lays[i][j].at in bs && ms[lays[i][j].at].mrk
    requires Size(bs[lays[i][j].at]) == lays[i][j].size
    ensures
      var a := lays[i][j].at;
      var intact := OldAddrs(lays) + others - (OldAddrs(lays[..i]) + AddrsOf(lays[i][..j]));
      ms[a].ptr.chunk != toId && Spares(bs, ms[a].ptr, Size(bs[a]), intact - {a})
  {
    var a := lays[i][j].at;
    OldBlockIntact(ms, ids, rank, lays, small, others, i, j);
    assert a in OldAddrs(lays);
    RestIsBehind(ids, rank, lays, i, j, others);
    SlidingSpares(bs, ids, rank, a, lays[i][j].size, ms[a].ptr,
      OldAddrs(lays) + others - (OldAddrs(lays[..i]) + AddrsOf(lays[i][..j])) - {a});
  }

  lemma DeadMove(ms0: Metas, bs0: Bodies, toId: nat, ids: seq<nat>, rank: map<nat, nat>, plan: Plan, small: set<Addr>,
      ms: Metas, bs: Bodies, intact: set<Addr>, a: Addr)
    requires MoveSetting(ms0, bs0, toId, ids, rank, plan, small)
    requires MoveState(ms0, bs0, toId, plan.from, ms, bs, intact) && a in intact && a in ms0 && !ms0[a].mrk
    ensures MoveState(ms0, bs0, toId, plan.from, ms - {a}, bs - {a}, intact - {a})
  {
    DeadStep(ms0, bs0, toId, ids, rank, plan, ms, bs, intact, a);
  }

  /** The objects `s` are neither in old space nor in to-space. */
  ghost predicate NotInRegions(working: nat, rank: map<nat, nat>, toId: nat, s: set<Addr>)
  {
    working !in rank && working != toId && forall x {:trigger x in s} :: x in s ==> x.chunk !in rank && x.chunk != toId
  }

  lemma NewMoveSpares(ms: Metas, bs: Bodies, toId: nat, ids: seq<nat>, rank: map<nat, nat>, plan: Plan,
      small: set<Addr>,
      working: nat, s: set<Addr>, t: set<Addr>, a: Addr)
    requires MoveSetting(ms, bs, toId, ids, rank, plan, small) && NotInRegions(working, rank, toId, s) && t <= s
    requires a in small && a in ms && a in bs && ms[a].mrk
    ensures Spares(bs, ms[a].ptr, Size(bs[a]), t)
  {
    assert Relocated(ms, plan.from, a);
    var d := ms[a].ptr;
    var i, j := PlanLookup(ms, bs, toId, ids, rank, plan, d);
    assert d.chunk == toId || d.chunk in rank;
    forall x | x in t ensures x.chunk != d.chunk {
      assert x in s;
    }
    OtherRegionSpares(bs, d, Size(bs[a]), t);
  }
}
