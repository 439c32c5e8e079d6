/** New storage for the survivors of a collection, as the PTR words describe it. */
module Relocation {
  import opened ObjectHeap
  import opened Layout
  import opened Spaces

  /** The storage given out so far: in the to-space chunk, in the old chunks, and the
      object that each piece of storage is meant for. */
  datatype Plan = Plan(toLay: seq<Block>, oldLay: seq<seq<Block>>, from: map<Addr, Addr>)

  /** The block `b` is the new storage of a marked object, whose PTR says so. */
  ghost predicate Assigned(ms: Metas, bs: Bodies, from: map<Addr, Addr>, b: Block)
  {
    b.at in from && from[b.at] in ms && from[b.at] in bs && Size(bs[from[b.at]]) == b.size &&
    ms[from[b.at]].mrk && ms[from[b.at]].ptr == b.at
  }

  ghost predicate AllAssigned(ms: Metas, bs: Bodies, from: map<Addr, Addr>, lay: seq<Block>)
  {
    forall j {:trigger lay[j]} :: 0 <= j < |lay| ==> Assigned(ms, bs, from, lay[j])
  }

  /** The storage is laid out like a space: tiled in chunks that are all different. */
  ghost predicate PlanTiled(toId: nat, ids: seq<nat>, rank: map<nat, nat>, plan: Plan)
  {
    Ranked(ids, rank) && toId !in rank && |plan.oldLay| <= |ids| && Tiled(toId, 0, plan.toLay) &&
    forall i {:trigger plan.oldLay[i]} :: 0 <= i < |plan.oldLay| ==> Tiled(ids[i], META_SIZE, plan.oldLay[i])
  }

  ghost predicate PlanAssigned(ms: Metas, bs: Bodies, plan: Plan)
  {
    plan.from.Keys == AddrsOf(plan.toLay) + OldAddrs(plan.oldLay) &&
    AllAssigned(ms, bs, plan.from, plan.toLay) &&
    forall i {:trigger plan.oldLay[i]} :: 0 <= i < |plan.oldLay| ==> AllAssigned(ms, bs, plan.from, plan.oldLay[i])
  }

  /** Only the PTR word of a meta differs. */
  predicate Redirected(m: Meta, m': Meta)
  {
    m'.gen == m.gen && m'.mid == m.mid && m'.mrk == m.mrk
  }

  predicate Relocated(ms: Metas, from: map<Addr, Addr>, a: Addr)
    requires a in ms
  {
    ms[a].ptr in from && from[ms[a].ptr] == a
  }

  /** The marked objects among `scanned`, and no others, have new storage. */
  ghost predicate Redirections(ms0: Metas, ms: Metas, plan: Plan, scanned: set<Addr>)
  {
    ms.Keys == ms0.Keys && scanned <= ms.Keys &&
    (forall a {:trigger ms[a]} ::
      a in ms ==> if a in scanned && ms[a].mrk then Redirected(ms0[a], ms[a]) else ms[a] == ms0[a]) &&
    (forall a {:trigger Relocated(ms, plan.from, a)} :: a in scanned && ms[a].mrk ==> Relocated(ms, plan.from, a)) &&
    (forall d {:trigger plan.from[d]} :: d in plan.from ==> plan.from[d] in scanned)
  }

  // ----- Giving out one more piece of storage -------------------------------

  function Redirect(m: Meta, d: Addr): Meta
  {
    m.(ptr := d, tag := false)
  }

  function ToPlan(plan: Plan, b: Block, a: Addr): Plan
  {
    Plan(plan.toLay + [b], plan.oldLay, plan.from[b.at := a])
  }

  /** `opens`: the storage is the first of the next chunk. */
  function AddOld(lays: seq<seq<Block>>, opens: bool, b: Block): seq<seq<Block>>
    requires opens || lays != []
  {
    if opens then lays + [[b]] else lays[|lays| - 1 := lays[|lays| - 1] + [b]]
  }

  function OldPlan(plan: Plan, opens: bool, b: Block, a: Addr): Plan
    requires opens || plan.oldLay != []
  {
    Plan(plan.toLay, AddOld(plan.oldLay, opens, b), plan.from[b.at := a])
  }

  lemma AssignedStays(ms: Metas, bs: Bodies, from: map<Addr, Addr>, lay: seq<Block>, a: Addr, d: Addr)
    requires AllAssigned(ms, bs, from, lay) && a in ms
    requires d !in from && forall x {:trigger from[x]} :: x in from ==> from[x] != a
    ensures AllAssigned(ms[a := Redirect(ms[a], d)], bs, from[d := a], lay)
  {
    var ms', from' := ms[a := Redirect(ms[a], d)], from[d := a];
    forall j | 0 <= j < |lay| ensures Assigned(ms', bs, from', lay[j]) {
      assert Assigned(ms, bs, from, lay[j]);
    }
  }

  lemma AssignedAppend(ms: Metas, bs: Bodies, from: map<Addr, Addr>, lay: seq<Block>, b: Block)
    requires AllAssigned(ms, bs, from, lay) && Assigned(ms, bs, from, b)
    ensures AllAssigned(ms, bs, from, lay + [b])
  {
  }

  lemma RedirectionsStep(ms0: Metas, ms: Metas, plan: Plan, plan': Plan, scanned: set<Addr>, a: Addr, d: Addr)
    requires Redirections(ms0, ms, plan, scanned) && a in ms && a !in scanned && ms[a].mrk
    requires d !in plan.from && plan'.from == plan.from[d := a]
    ensures Redirections(ms0, ms[a := Redirect(ms[a], d)], plan', scanned + {a})
  {
    var ms' := ms[a := Redirect(ms[a], d)];
    forall x | x in scanned + {a} && ms'[x].mrk ensures Relocated(ms', plan'.from, x) {
      if x != a { assert Relocated(ms, plan.from, x); }
    }
  }

  lemma RedirectionsSkip(ms0: Metas, ms: Metas, plan: Plan, scanned: set<Addr>, a: Addr)
    requires Redirections(ms0, ms, plan, scanned) && a in ms && !ms[a].mrk
    ensures Redirections(ms0, ms, plan, scanned + {a})
  {
  }

  lemma NewToAddress(toId: nat, ids: seq<nat>, rank: map<nat, nat>, plan: Plan)
    requires PlanTiled(toId, ids, rank, plan)
    ensures Addr(toId, Top(0, plan.toLay)) !in AddrsOf(plan.toLay) + OldAddrs(plan.oldLay)
  {
    var d := Addr(toId, Top(0, plan.toLay));
    forall x | x in AddrsOf(plan.toLay) ensures x != d {
      var j :| 0 <= j < |plan.toLay| && plan.toLay[j].at == x;
      TopAbove(toId, 0, plan.toLay, j);
    }
    forall x | x in OldAddrs(plan.oldLay) ensures x != d {
      var i, j :| 0 <= i < |plan.oldLay| && 0 <= j < |plan.oldLay[i]| && plan.oldLay[i][j].at == x;
      assert Tiled(ids[i], META_SIZE, plan.oldLay[i]);
    }
  }

  lemma NewOldAddress(toId: nat, ids: seq<nat>, rank: map<nat, nat>, plan: Plan, opens: bool, d: Addr)
    requires PlanTiled(toId, ids, rank, plan)
    requires if opens then |plan.oldLay| < |ids| else plan.oldLay != []
    requires d == if opens then Addr(ids[|plan.oldLay|], META_SIZE)
      else Addr(ids[|plan.oldLay| - 1], Top(META_SIZE, plan.oldLay[|plan.oldLay| - 1]))
    ensures d !in AddrsOf(plan.toLay) + OldAddrs(plan.oldLay)
  {
    assert d.chunk in rank;
    forall x | x in AddrsOf(plan.toLay) ensures x != d {
      var j :| 0 <= j < |plan.toLay| && plan.toLay[j].at == x;
    }
    forall x | x in OldAddrs(plan.oldLay) ensures x != d {
      var i, j :| 0 <= i < |plan.oldLay| && 0 <= j < |plan.oldLay[i]| && plan.oldLay[i][j].at == x;
      assert Tiled(ids[i], META_SIZE, plan.oldLay[i]) && ids[i] == x.chunk;
      assert rank[ids[i]] == i;
      TopAbove(ids[i], META_SIZE, plan.oldLay[i], j);
    }
  }

  /** The next free place of to-space becomes the new storage of `a`. */
  lemma ExtendTo(ms: Metas, bs: Bodies, toId: nat, ids: seq<nat>, rank: map<nat, nat>, plan: Plan, a: Addr, b: Block)
    requires PlanTiled(toId, ids, rank, plan) && PlanAssigned(ms, bs, plan)
    requires a in ms && a in bs && ms[a].mrk && forall x {:trigger plan.from[x]} :: x in plan.from ==> plan.from[x] != a
    requires b == Block(Addr(toId, Top(0, plan.toLay)), Size(bs[a]))
    ensures b.at !in plan.from
    ensures PlanTiled(toId, ids, rank, ToPlan(plan, b, a))
    ensures PlanAssigned(ms[a := Redirect(ms[a], b.at)], bs, ToPlan(plan, b, a))
  {
    NewToAddress(toId, ids, rank, plan);
    TiledAppend(toId, 0, plan.toLay, b.size);
    AddrsAppend(plan.toLay, b);
    var ms', plan' := ms[a := Redirect(ms[a], b.at)], ToPlan(plan, b, a);
    AssignedStays(ms, bs, plan.from, plan.toLay, a, b.at);
    AssignedAppend(ms', bs, plan'.from, plan.toLay, b);
    forall i | 0 <= i < |plan.oldLay| ensures AllAssigned(ms', bs, plan'.from, plan.oldLay[i]) {
      AssignedStays(ms, bs, plan.from, plan.oldLay[i], a, b.at);
    }
  }

  lemma AddOldAddrs(lays: seq<seq<Block>>, opens: bool, b: Block)
    requires opens || lays != []
    ensures OldAddrs(AddOld(lays, opens, b)) == OldAddrs(lays) + {b.at}
  {
    var lays' := AddOld(lays, opens, b);
    var n := if opens then |lays| else |lays| - 1;
    var m := if opens then 0 else |lays[n]|;
    assert lays'[n][m] == b;
    forall x | x in OldAddrs(lays) ensures x in OldAddrs(lays') {
      var i, j :| 0 <= i < |lays| && 0 <= j < |lays[i]| && lays[i][j].at == x;
      assert lays'[i][j] == lays[i][j];
    }
    forall x | x in OldAddrs(lays') ensures x in OldAddrs(lays) + {b.at} {
      var i, j :| 0 <= i < |lays'| && 0 <= j < |lays'[i]| && lays'[i][j].at == x;
      if i != n || j != m { assert lays'[i][j] == lays[i][j]; }
    }
  }

  lemma Redirecting(m: Meta, d: Addr)
    ensures Redirect(m, d).mrk == m.mrk && Redirect(m, d).ptr == d
  {
  }

  /** The next free place of old space becomes the new storage of `a`. */
  lemma ExtendOld(ms: Metas, bs: Bodies, toId: nat, ids: seq<nat>, rank: map<nat, nat>, plan: Plan, opens: bool,
      a: Addr, b: Block)
    requires PlanTiled(toId, ids, rank, plan) && PlanAssigned(ms, bs, plan)
    requires a in ms && a in bs && ms[a].mrk && forall x {:trigger plan.from[x]} :: x in plan.from ==> plan.from[x] != a
    requires if opens then |plan.oldLay| < |ids| else plan.oldLay != []
    requires b.size == Size(bs[a])
    requires b.at == if opens then Addr(ids[|plan.oldLay|], META_SIZE)
      else Addr(ids[|plan.oldLay| - 1], Top(META_SIZE, plan.oldLay[|plan.oldLay| - 1]))
    ensures b.at !in plan.from
    ensures PlanTiled(toId, ids, rank, OldPlan(plan, opens, b, a))
    ensures PlanAssigned(ms[a := Redirect(ms[a], b.at)], bs, OldPlan(plan, opens, b, a))
  {
    hide Tiled, AddrsOf, OldAddrs, AllAssigned, Redirect, Ranked;
    NewOldAddress(toId, ids, rank, plan, opens, b.at);
    AddOldAddrs(plan.oldLay, opens, b);
    AddOldTiled(ids, plan.oldLay, opens, b);
    assert Redirect(ms[a], b.at).mrk && Redirect(ms[a], b.at).ptr == b.at by { Redirecting(ms[a], b.at); }
    var ms', plan' := ms[a := Redirect(ms[a], b.at)], OldPlan(plan, opens, b, a);
    AssignedStays(ms, bs, plan.from, plan.toLay, a, b.at);
    forall i | 0 <= i < |plan'.oldLay| ensures AllAssigned(ms', bs, plan'.from, plan'.oldLay[i]) {
      if i < |plan.oldLay| { AssignedStays(ms, bs, plan.from, plan.oldLay[i], a, b.at); }
      if i == |plan'.oldLay| - 1 {
        var lay := if opens then [] else plan.oldLay[i];
        assert plan'.oldLay[i] == lay + [b];
        AssignedAppend(ms', bs, plan'.from, lay, b);
      }
    }
  }

  lemma AddOldTiled(ids: seq<nat>, lays: seq<seq<Block>>, opens: bool, b: Block)
    requires |lays| <= |ids| && forall i {:trigger lays[i]} :: 0 <= i < |lays| ==> Tiled(ids[i], META_SIZE, lays[i])
    requires if opens then |lays| < |ids| else lays != []
    requires b.size >= HEAD_SIZE
    requires b.at == if opens then Addr(ids[|lays|], META_SIZE)
      else Addr(ids[|lays| - 1], Top(META_SIZE, lays[|lays| - 1]))
    ensures
      var lays' := AddOld(lays, opens, b);
      |lays'| <= |ids| && forall i {:trigger lays'[i]} :: 0 <= i < |lays'| ==> Tiled(ids[i], META_SIZE, lays'[i])
  {
    var n := if opens then |lays| else |lays| - 1;
    var lay := if opens then [] else lays[n];
    TiledAppend(ids[n], META_SIZE, lay, b.size);
    assert AddOld(lays, opens, b)[n] == lay + [b];
  }

  // ----- What a finished plan gives -----------------------------------------

  /** No two pieces of storage given out overlap. */
  lemma PlanDisjoint(ms: Metas, bs: Bodies, toId: nat, ids: seq<nat>, rank: map<nat, nat>, plan: Plan, d: Addr, e: Addr)
    requires PlanTiled(toId, ids, rank, plan) && PlanAssigned(ms, bs, plan)
    requires d in plan.from && e in plan.from && d != e
    ensures plan.from[d] in bs && plan.from[e] in bs
    ensures !Overlap(d, Size(bs[plan.from[d]]), e, Size(bs[plan.from[e]]))
  {
    var x, n := PlanLookup(ms, bs, toId, ids, rank, plan, d);
    var y, m := PlanLookup(ms, bs, toId, ids, rank, plan, e);
    if d.chunk == e.chunk {
      if d.chunk == toId {
        TiledDisjoint(toId, 0, plan.toLay, n, m);
      } else {
        assert x == y;
        TiledDisjoint(ids[x], META_SIZE, plan.oldLay[x], n, m);
      }
    }
  }

  /** Where in the plan a piece of storage is: to-space, or the old chunk number `i`. */
  lemma PlanLookup(ms: Metas, bs: Bodies, toId: nat, ids: seq<nat>, rank: map<nat, nat>, plan: Plan, d: Addr)
    returns (i: nat, j: nat)
    requires PlanTiled(toId, ids, rank, plan) && PlanAssigned(ms, bs, plan) && d in plan.from
    ensures d.chunk == toId ==> j < |plan.toLay| && plan.toLay[j].at == d && Assigned(ms, bs, plan.from, plan.toLay[j])
    ensures d.chunk != toId ==>
      i < |plan.oldLay| && j < |plan.oldLay[i]| && plan.oldLay[i][j].at == d && ids[i] == d.chunk
    ensures d.chunk != toId ==> Assigned(ms, bs, plan.from, plan.oldLay[i][j])
  {
    if d in AddrsOf(plan.toLay) {
      j :| 0 <= j < |plan.toLay| && plan.toLay[j].at == d;
      i := 0;
      assert Assigned(ms, bs, plan.from, plan.toLay[j]);
    } else {
      assert d in OldAddrs(plan.oldLay);
      i, j :| 0 <= i < |plan.oldLay| && 0 <= j < |plan.oldLay[i]| && plan.oldLay[i][j].at == d;
      assert AllAssigned(ms, bs, plan.from, plan.oldLay[i]);
      assert Assigned(ms, bs, plan.from, plan.oldLay[i][j]);
      assert Tiled(ids[i], META_SIZE, plan.oldLay[i]);
    }
  }

  // ----- The reallocation iterator ------------------------------------------

  /** The iterator stands behind the storage given out in old space, and every chunk it
      has left knows where that storage ends. */
  ghost predicate IterAt(it: Iterator, olds: seq<OldChunk>, lays: seq<seq<Block>>)
  {
    it.index == |lays| - 1 && |lays| <= |olds| &&
    (it.index >= 0 ==> it.point == Top(META_SIZE, lays[it.index]) < OLD_END) &&
    forall k {:trigger olds[k]} :: 0 <= k < |olds| ==>
      olds[k].visited == (if k < it.index then Top(META_SIZE, lays[k]) else 0) && olds[k].visited < OLD_END
  }

  ghost predicate IdsOf(olds: seq<OldChunk>, ids: seq<nat>)
  {
    |ids| == |olds| && forall k {:trigger olds[k]} {:trigger ids[k]} :: 0 <= k < |olds| ==> olds[k].id == ids[k]
  }

  /** The chunks are still there, with what they hold. */
  ghost predicate ChunksKept(olds: seq<OldChunk>, olds': seq<OldChunk>)
  {
    |olds| <= |olds'| &&
    forall k {:trigger olds'[k]} {:trigger olds[k]} :: 0 <= k < |olds| ==>
      olds'[k].id == olds[k].id && olds'[k].top == olds[k].top && olds'[k].remembered == olds[k].remembered
  }

  /** The chunks are the same, whatever has been recorded in them. */
  ghost predicate SamePlaces(olds: seq<OldChunk>, olds': seq<OldChunk>)
  {
    |olds| <= |olds'| &&
    forall k {:trigger olds'[k]} {:trigger olds[k]} ::
      0 <= k < |olds| ==> olds'[k].id == olds[k].id && olds'[k].top == olds[k].top
  }

  lemma KeptTrans(olds: seq<OldChunk>, olds1: seq<OldChunk>, olds2: seq<OldChunk>)
    requires ChunksKept(olds, olds1) && ChunksKept(olds1, olds2)
    ensures ChunksKept(olds, olds2)
  {
    forall k | 0 <= k < |olds|
      ensures olds2[k].id == olds[k].id && olds2[k].top == olds[k].top && olds2[k].remembered == olds[k].remembered
    {
      assert olds1[k].id == olds[k].id;
    }
  }

  lemma KeptAt(olds: seq<OldChunk>, olds': seq<OldChunk>, i: nat)
    requires ChunksKept(olds, olds') && i < |olds|
    ensures olds'[i].id == olds[i].id && olds'[i].top == olds[i].top && olds'[i].remembered == olds[i].remembered
  {
  }

  lemma SamePlacesTrans(olds: seq<OldChunk>, olds1: seq<OldChunk>, olds2: seq<OldChunk>)
    requires SamePlaces(olds, olds1) && |olds1| == |olds2|
    requires forall k {:trigger olds2[k]} ::
      0 <= k < |olds1| ==> olds2[k] == olds1[k].(remembered := olds2[k].remembered)
    ensures SamePlaces(olds, olds2)
  {
    forall k | 0 <= k < |olds| ensures olds2[k].id == olds[k].id && olds2[k].top == olds[k].top {
      assert olds1[k].id == olds[k].id;
    }
  }

  lemma KeptIsSamePlaces(olds: seq<OldChunk>, olds1: seq<OldChunk>, olds2: seq<OldChunk>)
    requires SamePlaces(olds, olds1) && ChunksKept(olds1, olds2)
    ensures SamePlaces(olds, olds2)
  {
    forall k | 0 <= k < |olds| ensures olds2[k].id == olds[k].id && olds2[k].top == olds[k].top {
      assert olds1[k].id == olds[k].id;
    }
  }

  lemma OldStoredAt(bs: Bodies, olds: seq<OldChunk>, olds': seq<OldChunk>, lays: seq<seq<Block>>, i: nat)
    requires OldsStored(bs, olds, lays) && SamePlaces(olds, olds') && i < |olds|
    ensures Stored(bs, olds'[i].id, META_SIZE, olds'[i].top, OLD_END, lays[i])
    ensures SamePlaces(olds, olds)
  {
    assert Stored(bs, olds[i].id, META_SIZE, olds[i].top, OLD_END, lays[i]);
  }

  /** At most one chunk has been added: an empty one, in a region of its own. */
  ghost predicate ChunksAdded(regions: nat, regions': nat, olds: seq<OldChunk>, olds': seq<OldChunk>,
      lays: seq<seq<Block>>, lays': seq<seq<Block>>, rank: map<nat, nat>, rank': map<nat, nat>)
  {
    if regions' == regions then |olds'| == |olds| && lays' == lays && rank' == rank
    else
      regions' == regions + 1 && |olds'| == |olds| + 1 && lays' == lays + [[]] && rank' == rank[regions' := |olds|] &&
      olds'[|olds|].id == regions' && olds'[|olds|].top == META_SIZE && olds'[|olds|].remembered == Absent
  }

  /** The storage does not fit behind the iterator in its chunk. */
  predicate OpensChunk(it: Iterator, size: nat)
  {
    it.index < 0 || it.point + size >= OLD_END
  }

  // ----- The whole state of a reallocation ----------------------------------

  /** `plan` is the new storage of the marked objects among `scanned`. */
  ghost predicate Progress(ms0: Metas, ms: Metas, bs: Bodies, toId: nat, ids: seq<nat>, rank: map<nat, nat>, plan: Plan,
      scanned: set<Addr>)
  {
    PlanTiled(toId, ids, rank, plan) && PlanAssigned(ms, bs, plan) && Redirections(ms0, ms, plan, scanned)
  }

  lemma ProgressSkip(ms0: Metas, ms: Metas, bs: Bodies, toId: nat, ids: seq<nat>, rank: map<nat, nat>, plan: Plan,
      scanned: set<Addr>, a: Addr)
    requires Progress(ms0, ms, bs, toId, ids, rank, plan, scanned) && a in ms && !ms[a].mrk
    ensures Progress(ms0, ms, bs, toId, ids, rank, plan, scanned + {a})
  {
    RedirectionsSkip(ms0, ms, plan, scanned, a);
  }

  /** The sources of the storage given out are scanned objects. */
  lemma SourcesScanned(ms0: Metas, ms: Metas, plan: Plan, scanned: set<Addr>, a: Addr)
    requires Redirections(ms0, ms, plan, scanned) && a !in scanned
    ensures forall x {:trigger plan.from[x]} :: x in plan.from ==> plan.from[x] != a
  {
  }

  lemma ProgressTo(ms0: Metas, ms: Metas, bs: Bodies, toId: nat, ids: seq<nat>, rank: map<nat, nat>, plan: Plan,
      scanned: set<Addr>, a: Addr, b: Block)
    requires Progress(ms0, ms, bs, toId, ids, rank, plan, scanned)
    requires a in ms && a in bs && ms[a].mrk && a !in scanned
    requires b == Block(Addr(toId, Top(0, plan.toLay)), Size(bs[a]))
    ensures Progress(ms0, ms[a := Redirect(ms[a], b.at)], bs, toId, ids, rank, ToPlan(plan, b, a), scanned + {a})
  {
    SourcesScanned(ms0, ms, plan, scanned, a);
    ExtendTo(ms, bs, toId, ids, rank, plan, a, b);
    RedirectionsStep(ms0, ms, plan, ToPlan(plan, b, a), scanned, a, b.at);
  }

  lemma ProgressOld(ms0: Metas, ms: Metas, bs: Bodies, toId: nat, ids: seq<nat>, rank: map<nat, nat>, plan: Plan,
      scanned: set<Addr>,
      opens: bool, a: Addr, b: Block)
    requires Progress(ms0, ms, bs, toId, ids, rank, plan, scanned)
    requires a in ms && a in bs && ms[a].mrk && a !in scanned
    requires if opens then |plan.oldLay| < |ids| else plan.oldLay != []
    requires b.size == Size(bs[a])
    requires b.at == if opens then Addr(ids[|plan.oldLay|], META_SIZE)
      else Addr(ids[|plan.oldLay| - 1], Top(META_SIZE, plan.oldLay[|plan.oldLay| - 1]))
    ensures Progress(ms0, ms[a := Redirect(ms[a], b.at)], bs, toId, ids, rank, OldPlan(plan, opens, b, a), scanned +
      {a})
  {
    SourcesScanned(ms0, ms, plan, scanned, a);
    ExtendOld(ms, bs, toId, ids, rank, plan, opens, a, b);
    RedirectionsStep(ms0, ms, plan, OldPlan(plan, opens, b, a), scanned, a, b.at);
  }

  /** A chunk that was just added changes nothing. */
  lemma ProgressNewChunk(ms0: Metas, ms: Metas, bs: Bodies, toId: nat, ids: seq<nat>, rank: map<nat, nat>, plan: Plan,
      scanned: set<Addr>, id: nat)
    requires Progress(ms0, ms, bs, toId, ids, rank, plan, scanned) && id !in rank && id != toId
    ensures Progress(ms0, ms, bs, toId, ids + [id], rank[id := |ids|], plan, scanned)
  {
    forall i | 0 <= i < |ids + [id]|
      ensures (ids + [id])[i] in rank[id := |ids|] && rank[id := |ids|][(ids + [id])[i]] == i
    {
      if i < |ids| { assert ids[i] in rank; }
    }
    assert forall i {:trigger plan.oldLay[i]} :: 0 <= i < |plan.oldLay| ==> (ids + [id])[i] == ids[i];
  }

  // ----- Old space slides down ----------------------------------------------

  /** `p` does not lie behind `a` in old space. */
  predicate NotAhead(rank: map<nat, nat>, a: Addr, p: Addr)
  {
    p.chunk in rank && a.chunk in rank &&
    (rank[p.chunk] < rank[a.chunk] || (p.chunk == a.chunk && p.off <= a.off))
  }

  ghost predicate SlidDown(ms: Metas, rank: map<nat, nat>, scanned: set<Addr>)
  {
    forall a {:trigger ms[a]} :: a in scanned && a in ms && ms[a].mrk ==> NotAhead(rank, a, ms[a].ptr)
  }

  /** The first `n` blocks keep their addresses. */
  ghost predicate InPlace(ms: Metas, lay: seq<Block>, n: nat)
  {
    forall j {:trigger lay[j]} :: 0 <= j < n && j < |lay| ==> lay[j].at in ms && ms[lay[j].at].ptr == lay[j].at
  }

  /** The first `n` blocks are live. */
  ghost predicate AllMarked(ms: Metas, lay: seq<Block>, n: nat)
  {
    n <= |lay| && forall j {:trigger lay[j]} :: 0 <= j < n ==> lay[j].at in ms && ms[lay[j].at].mrk
  }

  /** The iterator has not passed the position (`i`, `off`) of the scan. */
  predicate NotPassed(it: Iterator, i: nat, off: nat)
  {
    it.index < i || (it.index == i && it.point <= off)
  }

  /** As long as everything scanned was live, the iterator is where the scan is. */
  predicate InStep(it: Iterator, j: nat, off: nat)
  {
    it.index == (if j == 0 then -1 else 0) && (j > 0 ==> it.point == off)
  }

  lemma SlidDownStep(ms: Metas, rank: map<nat, nat>, scanned: set<Addr>, a: Addr, p: Addr)
    requires SlidDown(ms, rank, scanned) && a in ms && a !in scanned && NotAhead(rank, a, p)
    ensures SlidDown(ms[a := Redirect(ms[a], p)], rank, scanned + {a})
  {
  }

  lemma InPlaceStep(ms: Metas, lay: seq<Block>, n: nat, a: Addr, p: Addr, id: nat, start: nat)
    requires Tiled(id, start, lay) && InPlace(ms, lay, n) && a in ms
    requires n < |lay| ==> a == lay[n].at && p == a
    ensures n < |lay| ==> InPlace(ms[a := Redirect(ms[a], p)], lay, n + 1)
  {
    var ms' := ms[a := Redirect(ms[a], p)];
    if n < |lay| {
      forall j | 0 <= j < n + 1 ensures lay[j].at in ms' && ms'[lay[j].at].ptr == lay[j].at {
        if j < n { TiledDisjoint(id, start, lay, j, n); }
      }
    }
  }

  lemma InPlaceLater(ms: Metas, lay: seq<Block>, n: nat, j: nat, a: Addr, p: Addr, id: nat, start: nat)
    requires Tiled(id, start, lay) && InPlace(ms, lay, n) && a in ms && n <= j < |lay| && a == lay[j].at
    ensures InPlace(ms[a := Redirect(ms[a], p)], lay, n)
  {
    forall k | 0 <= k < n ensures lay[k].at != a {
      TiledDisjoint(id, start, lay, k, j);
    }
  }

  lemma InPlaceOther(ms: Metas, lays: seq<seq<Block>>, n: nat, i: nat, scanned: set<Addr>, a: Addr, p: Addr)
    requires 0 < i <= |lays| && InPlace(ms, lays[0], n) && OldAddrs(lays[..i]) <= scanned && a !in scanned && a in ms
    ensures InPlace(ms[a := Redirect(ms[a], p)], lays[0], n)
  {
    forall j | 0 <= j < n && j < |lays[0]| ensures lays[0][j].at != a {
      assert lays[..i][0][j].at == lays[0][j].at;
    }
  }

  /** A piece of storage at the iterator is not ahead of the scan, nor is the iterator then. */
  lemma StepNotAhead(it: Iterator, size: nat, i: nat, a: Addr, ids: seq<nat>, rank: map<nat, nat>)
    requires i < |ids| && Ranked(ids, rank) && -1 <= it.index && a.chunk == ids[i]
    requires NotPassed(it, i, a.off) && META_SIZE <= a.off && a.off + size < OLD_END
    ensures
      var index := if OpensChunk(it, size) then it.index + 1 else it.index;
      var off := if OpensChunk(it, size) then META_SIZE else it.point;
      && 0 <= index <= i
      && NotAhead(rank, a, Addr(ids[index], off))
      && NotPassed(Iterator(index, off + size), i, a.off + size)
  {
    var index := if OpensChunk(it, size) then it.index + 1 else it.index;
    assert rank[ids[i]] == i && rank[ids[index]] == index;
  }

  // ----- The state of a walk through old space ------------------------------

  /** The walk is at offset `off` of chunk number `i`. */
  ghost predicate OldScan(ms0: Metas, ms: Metas, bs: Bodies, toId: nat, ids: seq<nat>, rank: map<nat, nat>, plan: Plan,
      scanned: set<Addr>, it: Iterator, olds: seq<OldChunk>, i: nat, off: nat)
  {
    Progress(ms0, ms, bs, toId, ids, rank, plan, scanned) && ms.Keys == bs.Keys && IdsOf(olds, ids) &&
    SlidDown(ms, rank, scanned) && IterAt(it, olds, plan.oldLay) && NotPassed(it, i, off) && plan.toLay == []
  }

  /** At block `j` of chunk `i`: those of the first `n` live blocks seen so far stay. */
  ghost predicate PrefixScan(ms: Metas, lays: seq<seq<Block>>, n: nat, i: nat, j: nat, it: Iterator, off: nat)
    requires lays != []
  {
    if i > 0 then InPlace(ms, lays[0], n)
    else AllMarked(ms, lays[0], n) && InPlace(ms, lays[0], if j < n then j else n) && (j <= n ==> InStep(it, j, off))
  }

  /** What a walk through old space relies on. */
  ghost predicate ScanSetting(bs: Bodies, toId: nat, ids: seq<nat>, rank: map<nat, nat>, lays: seq<seq<Block>>,
      regions: nat)
  {
    AllSized(bs) && ChunksTiled(ids, rank, lays) && lays != [] && |lays| == |ids| &&
    toId <= regions && RankBelow(rank, regions)
  }

  ghost predicate RankBelow(rank: map<nat, nat>, regions: nat)
  {
    forall id :: id in rank ==> id <= regions
  }

  lemma PrefixStep(ms: Metas, ms': Metas, ids: seq<nat>, rank: map<nat, nat>, lays: seq<seq<Block>>, n: nat, i: nat,
      j: nat,
      it: Iterator, it': Iterator, a: Addr, size: nat, scanned: set<Addr>)
    requires ChunksTiled(ids, rank, lays) && i < |lays| && j < |lays[i]| && lays[i][j].at == a && a in ms
    requires PrefixScan(ms, lays, n, i, j, it, a.off) && OldAddrs(lays[..i]) <= scanned && a !in scanned
    requires META_SIZE <= a.off && a.off + size < OLD_END && (j == 0 ==> a.off == META_SIZE)
    requires if ms[a].mrk then
        it'.index == (if OpensChunk(it, size) then it.index + 1 else it.index) &&
        it'.point == (if OpensChunk(it, size) then META_SIZE else it.point) + size &&
        0 <= it'.index < |ids| &&
        ms' == ms[a := Redirect(ms[a], Addr(ids[it'.index], if OpensChunk(it, size) then META_SIZE else it.point))]
      else ms' == ms && it' == it
    ensures PrefixScan(ms', lays, n, i, j + 1, it', a.off + size)
  {
    var lay0 := lays[0];
    assert Tiled(ids[0], META_SIZE, lay0);
    assert Tiled(ids[i], META_SIZE, lays[i]);
    if ms[a].mrk {
      if i > 0 {
        InPlaceOther(ms, lays, n, i, scanned, a, ms'[a].ptr);
      } else if j < n {
        InPlaceStep(ms, lay0, j, a, a, ids[0], META_SIZE);
      } else {
        InPlaceLater(ms, lay0, n, j, a, ms'[a].ptr, ids[0], META_SIZE);
      }
    }
  }

  lemma SlidDownSkip(ms: Metas, rank: map<nat, nat>, scanned: set<Addr>, a: Addr)
    requires SlidDown(ms, rank, scanned) && a in ms && !ms[a].mrk
    ensures SlidDown(ms, rank, scanned + {a})
  {
  }

  /** At the end of chunk `i` the walk goes on with the next one. */
  lemma ScanDone(ms0: Metas, ms: Metas, bs: Bodies, toId: nat, ids: seq<nat>, rank: map<nat, nat>, plan: Plan,
      scanned: set<Addr>, it: Iterator, olds: seq<OldChunk>, i: nat, off: nat, lays: seq<seq<Block>>, n: nat, j: nat)
    requires OldScan(ms0, ms, bs, toId, ids, rank, plan, scanned, it, olds, i, off)
    requires i < |lays| && j == |lays[i]| && PrefixScan(ms, lays, n, i, j, it, off)
    ensures OldScan(ms0, ms, bs, toId, ids, rank, plan, scanned, it, olds, i + 1, META_SIZE)
    ensures InPlace(ms, lays[0], n)
  {
  }

  lemma PrefixLater(ms: Metas, lays: seq<seq<Block>>, n: nat, i: nat, it: Iterator, off: nat)
    requires lays != [] && InPlace(ms, lays[0], n) && i > 0
    ensures PrefixScan(ms, lays, n, i, 0, it, off)
  {
  }

  lemma PrefixEnd(ms: Metas, lays: seq<seq<Block>>, n: nat, i: nat, it: Iterator, off: nat)
    requires lays != [] && i > 0 && PrefixScan(ms, lays, n, i, 0, it, off)
    ensures InPlace(ms, lays[0], n)
  {
  }

  lemma ProgressStart(ms: Metas, bs: Bodies, toId: nat, ids: seq<nat>, rank: map<nat, nat>)
    requires Ranked(ids, rank) && toId !in rank
    ensures Progress(ms, ms, bs, toId, ids, rank, Plan([], [], map[]), {})
  {
  }

  // ----- The state of a walk through new space ------------------------------

  ghost predicate NewScan(ms0: Metas, ms: Metas, bs: Bodies, to: Chunk, ids: seq<nat>, rank: map<nat, nat>, plan: Plan,
      scanned: set<Addr>, it: Iterator, olds: seq<OldChunk>, lays: seq<seq<Block>>, regions: nat)
  {
    Progress(ms0, ms, bs, to.id, ids, rank, plan, scanned) && ms.Keys == bs.Keys && IdsOf(olds, ids) &&
    IterAt(it, olds, plan.oldLay) && |lays| == |olds| && to.top == Top(0, plan.toLay) &&
    to.id <= regions && RankBelow(rank, regions)
  }

  /** Chunks have been added to old space, empty and in new regions. */
  ghost predicate SpaceGrown(regions: nat, regions': nat, olds: seq<OldChunk>, olds': seq<OldChunk>,
      lays: seq<seq<Block>>, lays': seq<seq<Block>>, rank: map<nat, nat>, rank': map<nat, nat>)
  {
    regions <= regions' && ChunksKept(olds, olds') && |lays'| == |olds'| && |lays| == |olds| &&
    (forall i {:trigger lays'[i]} {:trigger olds'[i]} :: 0 <= i < |lays'| ==>
      if i < |lays| then lays'[i] == lays[i]
      else
        lays'[i] == [] && olds'[i].top == META_SIZE && olds'[i].remembered == Absent &&
        regions < olds'[i].id <= regions') &&
    (forall id {:trigger id in rank'} :: id in rank' ==> id in rank || regions < id) &&
    (forall id {:trigger id in rank} :: id in rank ==> id in rank' && rank'[id] == rank[id])
  }

  lemma GrownByOne(regions: nat, regions1: nat, regions2: nat, olds: seq<OldChunk>, olds1: seq<OldChunk>,
      olds2: seq<OldChunk>,
      lays: seq<seq<Block>>, lays1: seq<seq<Block>>, lays2: seq<seq<Block>>, rank: map<nat, nat>, rank1: map<nat, nat>,
        rank2: map<nat, nat>)
    requires SpaceGrown(regions, regions1, olds, olds1, lays, lays1, rank, rank1)
    requires ChunksAdded(regions1, regions2, olds1, olds2, lays1, lays2, rank1, rank2) && ChunksKept(olds1, olds2)
    requires RankBelow(rank1, regions1)
    ensures SpaceGrown(regions, regions2, olds, olds2, lays, lays2, rank, rank2)
  {
    forall i | 0 <= i < |lays2|
      ensures if i < |lays| then lays2[i] == lays[i]
        else
          lays2[i] == [] && olds2[i].top == META_SIZE && olds2[i].remembered == Absent &&
          regions < olds2[i].id <= regions2
    {
      if i < |lays1| { assert lays2[i] == lays1[i] && olds2[i].id == olds1[i].id; }
    }
    forall k | 0 <= k < |olds|
      ensures olds2[k].id == olds[k].id && olds2[k].top == olds[k].top && olds2[k].remembered == olds[k].remembered
    {
      assert olds1[k].id == olds[k].id;
    }
  }

  lemma GrownByNone(regions: nat, olds: seq<OldChunk>, lays: seq<seq<Block>>, rank: map<nat, nat>)
    requires |lays| == |olds|
    ensures SpaceGrown(regions, regions, olds, olds, lays, lays, rank, rank)
  {
  }

  lemma AddedNone(regions: nat, olds: seq<OldChunk>, lays: seq<seq<Block>>, rank: map<nat, nat>)
    ensures ChunksAdded(regions, regions, olds, olds, lays, lays, rank, rank)
  {
  }

  lemma KeptSame(olds: seq<OldChunk>)
    ensures ChunksKept(olds, olds)
  {
  }

  ghost predicate SameOutside(ms: Metas, ms': Metas, s: set<Addr>)
  {
    ms'.Keys == ms.Keys && forall a {:trigger ms'[a]} :: a in ms' && a !in s ==> ms'[a] == ms[a]
  }

  lemma SameOutsideAll(ms: Metas, s: set<Addr>)
    ensures SameOutside(ms, ms, s)
  {
  }

  lemma SameOutsideUpdate(ms: Metas, a: Addr, m: Meta)
    requires a in ms
    ensures SameOutside(ms, ms[a := m], {a}) && SameOutside(ms, ms, {a})
  {
  }

  lemma SameOutsideStep(ms: Metas, ms1: Metas, ms2: Metas, s: set<Addr>, a: Addr)
    requires SameOutside(ms, ms1, s) && a in s && SameOutside(ms1, ms2, {a})
    ensures SameOutside(ms, ms2, s)
  {
  }

  lemma NotYetInChunk(id: nat, start: nat, lay: seq<Block>, j: nat, s: set<Addr>)
    requires Tiled(id, start, lay) && j < |lay| && AddrsOf(lay) !! s
    ensures lay[j].at !in s + AddrsOf(lay[..j]) && lay[j].at in AddrsOf(lay)
    ensures AddrsOf(lay[..j + 1]) == AddrsOf(lay[..j]) + {lay[j].at}
  {
    forall x | x in AddrsOf(lay[..j]) ensures x != lay[j].at {
      var m :| 0 <= m < j && lay[..j][m].at == x;
      TiledDisjoint(id, start, lay, m, j);
    }
    assert lay[..j + 1] == lay[..j] + [lay[j]];
    AddrsAppend(lay[..j], lay[j]);
  }

  lemma OldScanStart(ms: Metas, bs: Bodies, toId: nat, ids: seq<nat>, rank: map<nat, nat>, olds: seq<OldChunk>,
      lays: seq<seq<Block>>,
      n: nat, regions: nat)
    requires ScanSetting(bs, toId, ids, rank, lays, regions) && toId !in rank && IdsOf(olds, ids) && Idle(olds)
    requires ms.Keys == bs.Keys && AllMarked(ms, lays[0], n)
    ensures OldScan(ms, ms, bs, toId, ids, rank, Plan([], [], map[]), {}, Iterator(-1, META_SIZE), olds, 0, META_SIZE)
    ensures {} == OldAddrs(lays[..0]) && PrefixScan(ms, lays, n, 0, 0, Iterator(-1, META_SIZE), META_SIZE)
    ensures SamePlaces(olds, olds) && |lays| == |olds| && |olds| > 0
  {
    ProgressStart(ms, bs, toId, ids, rank);
  }

  lemma ForgetKeepsScan(ms0: Metas, ms: Metas, bs: Bodies, toId: nat, ids: seq<nat>, rank: map<nat, nat>, plan: Plan,
      scanned: set<Addr>, it: Iterator, olds: seq<OldChunk>, i: nat)
    requires OldScan(ms0, ms, bs, toId, ids, rank, plan, scanned, it, olds, i, META_SIZE) && i < |olds|
    ensures OldScan(ms0, ms, bs, toId, ids, rank, plan, scanned, it, olds[i := olds[i].(remembered := Absent)], i,
      META_SIZE)
  {
  }

  /** An object of new space goes to old space exactly if its MID bit is set. */
  predicate Promoted(m: Meta, toId: nat)
  {
    m.mrk ==> (m.ptr.chunk == toId <==> !m.mid)
  }

  ghost predicate AllPromoted(ms: Metas, toId: nat, s: set<Addr>)
  {
    forall a {:trigger ms[a]} :: a in s && a in ms ==> Promoted(ms[a], toId)
  }

  lemma PromotedStep(ms: Metas, ms': Metas, toId: nat, s: set<Addr>, a: Addr)
    requires AllPromoted(ms, toId, s) && a in ms' && Promoted(ms'[a], toId) && SameOutside(ms, ms', {a})
    ensures AllPromoted(ms', toId, s + {a})
  {
  }

  lemma OldIsNotTo(ms0: Metas, ms: Metas, bs: Bodies, toId: nat, ids: seq<nat>, rank: map<nat, nat>, plan: Plan,
      scanned: set<Addr>, k: nat)
    requires Progress(ms0, ms, bs, toId, ids, rank, plan, scanned) && k < |ids|
    ensures ids[k] != toId
  {
    assert ids[k] in rank;
  }

  lemma RankOf(ms0: Metas, ms: Metas, bs: Bodies, to: Chunk, ids: seq<nat>, rank: map<nat, nat>, plan: Plan,
      scanned: set<Addr>, it: Iterator, olds: seq<OldChunk>, lays: seq<seq<Block>>, regions: nat)
    requires NewScan(ms0, ms, bs, to, ids, rank, plan, scanned, it, olds, lays, regions)
    ensures RankBelow(rank, regions)
  {
  }
}
