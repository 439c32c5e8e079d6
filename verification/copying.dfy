/** Copying young survivors in a fast collection: into to-space, or onto the end of old
    space, while the originals stay behind as forwarding pointers. */
module Copying {
  import opened ObjectHeap
  import opened Layout
  import opened Spaces
  import opened Relocation
  import opened Moving

  /** Copies go to the chunk `toId` and, from offset `top` on, to the old chunk `lastId`;
      `plan.oldLay` has one entry, what is appended there. */
  datatype Target = Target(toId: nat, lastId: nat, top: nat)

  ghost predicate CopyTiled(g: Target, plan: Plan)
  {
    g.toId != g.lastId && Tiled(g.toId, 0, plan.toLay) && |plan.oldLay| == 1 && Tiled(g.lastId, g.top, plan.oldLay[0])
  }

  /** Nothing lies where the copies go. */
  ghost predicate SpaceFree(bs: Bodies, g: Target)
  {
    forall x {:trigger x in bs} ::
      x in bs ==> x.chunk != g.toId && (x.chunk == g.lastId ==> x.off + Size(bs[x]) <= g.top)
  }

  /** The memory during the copying: the originals, of which only the PTR words change,
      and the copies made so far. */
  ghost predicate CopyMemory(src: Metas, bs0: Bodies, toId: nat, from: map<Addr, Addr>, ms: Metas, bs: Bodies)
  {
    from.Keys !! bs0.Keys && src.Keys == bs0.Keys && ms.Keys == bs.Keys == bs0.Keys + from.Keys &&
    (forall a {:trigger bs0[a]} {:trigger src[a]} :: a in bs0 ==> bs[a] == bs0[a] && ms[a] == src[a]) &&
    (forall d {:trigger from[d]} ::
      d in from ==> from[d] in bs0 && bs[d] == bs0[from[d]] && ms[d] == FinalMeta(toId, d))
  }

  /** `scanned` has been walked over; `src` are the metas of the originals. */
  ghost predicate CopyState(ms1: Metas, src: Metas, bs0: Bodies, g: Target, plan: Plan, scanned: set<Addr>, ms: Metas,
      bs: Bodies)
  {
    CopyTiled(g, plan) && PlanAssigned(src, bs0, plan) && Redirections(ms1, src, plan, scanned) && SpaceFree(bs0, g) &&
    CopyMemory(src, bs0, g.toId, plan.from, ms, bs)
  }

  lemma CopyStart(ms1: Metas, bs0: Bodies, g: Target)
    requires ms1.Keys == bs0.Keys && g.toId != g.lastId && SpaceFree(bs0, g)
    ensures CopyState(ms1, ms1, bs0, g, Plan([], [[]], map[]), {}, ms1, bs0)
  {
  }

  lemma OneOld(g: Target, plan: Plan)
    requires CopyTiled(g, plan)
    ensures |plan.oldLay| == 1
  {
  }

  lemma KeysKnown(src: Metas, bs0: Bodies, toId: nat, from: map<Addr, Addr>, ms: Metas, bs: Bodies)
    requires CopyMemory(src, bs0, toId, from, ms, bs)
    ensures from.Keys <= bs.Keys && ms.Keys == bs.Keys
  {
  }

  lemma CopySkip(ms1: Metas, src: Metas, bs0: Bodies, g: Target, plan: Plan, scanned: set<Addr>, ms: Metas, bs: Bodies,
      a: Addr)
    requires CopyState(ms1, src, bs0, g, plan, scanned, ms, bs) && a in src && !src[a].mrk
    ensures CopyState(ms1, src, bs0, g, plan, scanned + {a}, ms, bs)
  {
    hide PlanAssigned, CopyTiled, SpaceFree, CopyMemory;
    RedirectionsSkip(ms1, src, plan, scanned, a);
  }

  // ----- One more copy ------------------------------------------------------

  /** The next free place of to-space, or of the last old chunk. */
  function NextPlace(g: Target, plan: Plan, inOld: bool): Addr
    requires |plan.oldLay| == 1
  {
    if inOld then Addr(g.lastId, Top(g.top, plan.oldLay[0])) else Addr(g.toId, Top(0, plan.toLay))
  }

  function CopyPlan(plan: Plan, inOld: bool, b: Block, a: Addr): Plan
    requires |plan.oldLay| == 1
  {
    if inOld then OldPlan(plan, false, b, a) else ToPlan(plan, b, a)
  }

  lemma PlanAddr(plan: Plan, x: Addr) returns (inOld: bool, j: nat)
    requires |plan.oldLay| == 1 && x in AddrsOf(plan.toLay) + OldAddrs(plan.oldLay)
    ensures if inOld then j < |plan.oldLay[0]| && plan.oldLay[0][j].at == x
      else j < |plan.toLay| && plan.toLay[j].at == x
  {
    if x in AddrsOf(plan.toLay) {
      inOld := false;
      j :| 0 <= j < |plan.toLay| && plan.toLay[j].at == x;
    } else {
      inOld := true;
      var i :| 0 <= i < 1 && exists k :: 0 <= k < |plan.oldLay[i]| && plan.oldLay[i][k].at == x;
      j :| 0 <= j < |plan.oldLay[0]| && plan.oldLay[0][j].at == x;
    }
  }

  /** Every copy ends before the next free place. */
  lemma CopiesBefore(src: Metas, bs0: Bodies, g: Target, plan: Plan, x: Addr)
    requires CopyTiled(g, plan) && PlanAssigned(src, bs0, plan) && x in plan.from
    ensures plan.from[x] in bs0 && (x.chunk == g.toId || x.chunk == g.lastId)
    ensures x.off + Size(bs0[plan.from[x]]) <= NextPlace(g, plan, x.chunk == g.lastId).off
    ensures x.chunk == g.lastId ==> g.top <= x.off
  {
    var inOld, j := PlanAddr(plan, x);
    if inOld {
      assert AllAssigned(src, bs0, plan.from, plan.oldLay[0]);
      assert Assigned(src, bs0, plan.from, plan.oldLay[0][j]);
      TopAbove(g.lastId, g.top, plan.oldLay[0], j);
    } else {
      assert Assigned(src, bs0, plan.from, plan.toLay[j]);
      TopAbove(g.toId, 0, plan.toLay, j);
    }
  }

  /** The next place is free: nothing is destroyed by storing there. */
  lemma NextPlaceFree(ms1: Metas, src: Metas, bs0: Bodies, g: Target, plan: Plan, scanned: set<Addr>, ms: Metas,
      bs: Bodies, inOld: bool, n: nat)
    requires CopyState(ms1, src, bs0, g, plan, scanned, ms, bs)
    ensures |plan.oldLay| == 1 && NextPlace(g, plan, inOld) !in bs && Clobbered(bs, NextPlace(g, plan, inOld), n) == {}
  {
    hide PlanAssigned, Redirections;
    var d := NextPlace(g, plan, inOld);
    assert g.top <= Top(g.top, plan.oldLay[0]) by {
      if plan.oldLay[0] != [] { TopAbove(g.lastId, g.top, plan.oldLay[0], 0); }
    }
    forall x | x in bs ensures !Overlap(x, Size(bs[x]), d, n) && x != d {
      if x in bs0 {
        assert bs[x] == bs0[x];
      } else {
        CopiesBefore(src, bs0, g, plan, x);
        assert bs[x] == bs0[plan.from[x]];
      }
    }
  }

  lemma CopyTiledStep(g: Target, plan: Plan, inOld: bool, b: Block, a: Addr)
    requires CopyTiled(g, plan) && b.at == NextPlace(g, plan, inOld) && b.size >= HEAD_SIZE
    ensures CopyTiled(g, CopyPlan(plan, inOld, b, a))
  {
    if inOld { TiledAppend(g.lastId, g.top, plan.oldLay[0], b.size); } else {
      TiledAppend(g.toId, 0, plan.toLay, b.size);
    }
  }

  lemma CopyAssignedStep(src: Metas, bs0: Bodies, plan: Plan, inOld: bool, a: Addr, b: Block)
    requires |plan.oldLay| == 1 && PlanAssigned(src, bs0, plan) && b.at !in plan.from
    requires a in src && a in bs0 && src[a].mrk && b.size == Size(bs0[a]) && forall x {:trigger plan.from[x]} ::
      x in plan.from ==> plan.from[x] != a
    ensures PlanAssigned(src[a := Redirect(src[a], b.at)], bs0, CopyPlan(plan, inOld, b, a))
  {
    hide AddrsOf, OldAddrs;
    var src', plan' := src[a := Redirect(src[a], b.at)], CopyPlan(plan, inOld, b, a);
    AssignedStays(src, bs0, plan.from, plan.toLay, a, b.at);
    AssignedStays(src, bs0, plan.from, plan.oldLay[0], a, b.at);
    assert Assigned(src', bs0, plan'.from, b);
    if inOld {
      AddOldAddrs(plan.oldLay, false, b);
      AssignedAppend(src', bs0, plan'.from, plan.oldLay[0], b);
    } else {
      AddrsAppend(plan.toLay, b);
      AssignedAppend(src', bs0, plan'.from, plan.toLay, b);
    }
  }

  lemma PutNowhere(ms: Metas, bs: Bodies, d: Addr, m: Meta, b: Body)
    requires Clobbered(bs, d, Size(b)) == {}
    ensures PutBody(bs, d, b) == bs[d := b] && PutMeta(ms, bs, d, m, Size(b)) == ms[d := m]
  {
    assert bs - {} == bs && ms - {} == ms;
  }

  lemma CopyMemoryStep(src: Metas, bs0: Bodies, toId: nat, from: map<Addr, Addr>, ms: Metas, bs: Bodies, a: Addr,
      d: Addr)
    requires CopyMemory(src, bs0, toId, from, ms, bs) && a in bs0 && d !in bs
    ensures a in ms && a in src
    ensures CopyMemory(src[a := Redirect(src[a], d)], bs0, toId, from[d := a],
      ms[d := FinalMeta(toId, d)][a := Redirect(ms[a], d)], bs[d := bs0[a]])
  {
    var src', from' := src[a := Redirect(src[a], d)], from[d := a];
    var ms', bs' := ms[d := FinalMeta(toId, d)][a := Redirect(ms[a], d)], bs[d := bs0[a]];
    forall x | x in bs0 ensures bs'[x] == bs0[x] && ms'[x] == src'[x] {
      assert ms[x] == src[x];
    }
    forall e | e in from' ensures from'[e] in bs0 && bs'[e] == bs0[from'[e]] && ms'[e] == FinalMeta(toId, e) {
      if e != d { assert from[e] == from'[e]; }
    }
  }

  /** The marked original `a` has been copied to the next place. */
  lemma CopyStep(ms1: Metas, src: Metas, bs0: Bodies, g: Target, plan: Plan, scanned: set<Addr>, ms: Metas, bs: Bodies,
      inOld: bool, a: Addr, ms': Metas, bs': Bodies)
    requires CopyState(ms1, src, bs0, g, plan, scanned, ms, bs) && a in bs0 && a in src && src[a].mrk && a !in scanned
    requires
      var d := NextPlace(g, plan, inOld);
      && bs' == PutBody(bs, d, bs0[a])
      && ms' == PutMeta(ms, bs, d, FinalMeta(g.toId, d), Size(bs0[a]))[a := Redirect(ms[a], d)]
    ensures
      var b := Block(NextPlace(g, plan, inOld), Size(bs0[a]));
      CopyState(ms1, src[a := Redirect(src[a], b.at)], bs0, g, CopyPlan(plan, inOld, b, a), scanned + {a}, ms', bs')
  {
    hide CopyTiled, PlanAssigned, Redirections, SpaceFree, NextPlace, CopyMemory, PutBody, PutMeta, Clobbered;
    OneOld(g, plan);
    var b := Block(NextPlace(g, plan, inOld), Size(bs0[a]));
    NextPlaceFree(ms1, src, bs0, g, plan, scanned, ms, bs, inOld, b.size);
    KeysKnown(src, bs0, g.toId, plan.from, ms, bs);
    SourcesScanned(ms1, src, plan, scanned, a);
    CopyTiledStep(g, plan, inOld, b, a);
    CopyAssignedStep(src, bs0, plan, inOld, a, b);
    PutNowhere(ms, bs, b.at, FinalMeta(g.toId, b.at), bs0[a]);
    CopyMemoryStep(src, bs0, g.toId, plan.from, ms, bs, a, b.at);
    RedirectionsStep(ms1, src, plan, CopyPlan(plan, inOld, b, a), scanned, a, b.at);
  }

  // ----- The walk through new space -----------------------------------------

  /** Objects without MID are copied to to-space, the others to old space unless it is full. */
  ghost predicate AgedPlaces(src: Metas, toId: nat, scanned: set<Addr>, full: bool)
  {
    forall a {:trigger src[a]} :: a in scanned && a in src && src[a].mrk ==>
      (!src[a].mid ==> src[a].ptr.chunk == toId) && (src[a].mid && !full ==> src[a].ptr.chunk != toId)
  }

  function LastTop(olds: seq<OldChunk>): nat
    requires olds != []
  {
    olds[|olds| - 1].top
  }

  /** The last old chunk could not take all of new space. */
  predicate NoRoom(olds: seq<OldChunk>, working: Chunk)
    requires olds != []
  {
    LastTop(olds) + working.top >= OLD_END
  }

  /** The chunks have grown by what has been copied. */
  ghost predicate CopyWalk(g: Target, plan: Plan, to: Chunk, olds0: seq<OldChunk>, olds: seq<OldChunk>)
  {
    |plan.oldLay| == 1 && to == Chunk(g.toId, Top(0, plan.toLay)) &&
    olds0 != [] && g.lastId == olds0[|olds0| - 1].id && g.top == olds0[|olds0| - 1].top &&
      Top(g.top, plan.oldLay[0]) < OLD_END &&
    olds == olds0[|olds0| - 1 := olds0[|olds0| - 1].(top := Top(g.top, plan.oldLay[0]))]
  }

  lemma CopyWalkStep(g: Target, plan: Plan, to: Chunk, olds0: seq<OldChunk>, olds: seq<OldChunk>, inOld: bool, b: Block,
      a: Addr)
    requires CopyWalk(g, plan, to, olds0, olds) && CopyTiled(g, plan) && b.at == NextPlace(g, plan, inOld) &&
      b.size >= HEAD_SIZE
    requires inOld ==> Top(g.top, plan.oldLay[0]) + b.size < OLD_END
    ensures
      if inOld then CopyWalk(g, CopyPlan(plan, inOld, b, a), to, olds0,
        olds[|olds| - 1 := olds[|olds| - 1].(top := olds[|olds| - 1].top + b.size)])
      else CopyWalk(g, CopyPlan(plan, inOld, b, a), to.(top := to.top + b.size), olds0, olds)
  {
    if inOld { TiledAppend(g.lastId, g.top, plan.oldLay[0], b.size); } else {
      TiledAppend(g.toId, 0, plan.toLay, b.size);
    }
  }

  lemma AgedStep(src: Metas, toId: nat, scanned: set<Addr>, full: bool, full': bool, a: Addr, d: Addr)
    requires AgedPlaces(src, toId, scanned, full) && a in src && a !in scanned && (full ==> full')
    requires (!src[a].mid ==> d.chunk == toId) && (src[a].mid && !full' ==> d.chunk != toId)
    ensures AgedPlaces(src[a := Redirect(src[a], d)], toId, scanned + {a}, full')
  {
  }

  lemma AgedSkip(src: Metas, toId: nat, scanned: set<Addr>, full: bool, a: Addr)
    requires AgedPlaces(src, toId, scanned, full) && a in src && !src[a].mrk
    ensures AgedPlaces(src, toId, scanned + {a}, full)
  {
  }

  /** An original that has not been reached. */
  lemma Original(ms1: Metas, src: Metas, bs0: Bodies, g: Target, plan: Plan, scanned: set<Addr>, ms: Metas, bs: Bodies,
      a: Addr)
    requires CopyState(ms1, src, bs0, g, plan, scanned, ms, bs) && a in bs0 && AllSized(bs0)
    ensures a in bs && a in ms && a in src && a in ms1 && bs[a] == bs0[a] && ms[a] == src[a] && bs0[a].cls in bs &&
      Sized(bs, a)
    ensures a !in scanned ==> src[a] == ms1[a]
  {
    assert Sized(bs0, a);
    var c := bs0[a].cls;
    assert bs[a] == bs0[a] && src[a] == src[a] && bs[c] == bs0[c];
  }

  lemma BlockSize(bs: Bodies, c: Chunk, lay: seq<Block>, j: nat)
    requires WorkingStored(bs, c, lay) && j < |lay|
    ensures lay[j].at in bs && Size(bs[lay[j].at]) == lay[j].size && HEAD_SIZE <= lay[j].size
    ensures lay[j].at.off + lay[j].size <= c.top < NEW_END
  {
    TopAbove(c.id, 0, lay, j);
  }

  lemma CopyTiledOf(ms1: Metas, src: Metas, bs0: Bodies, g: Target, plan: Plan, scanned: set<Addr>, ms: Metas,
      bs: Bodies)
    requires CopyState(ms1, src, bs0, g, plan, scanned, ms, bs)
    ensures CopyTiled(g, plan)
  {
  }

  lemma WalkStart(g: Target, to: Chunk, olds: seq<OldChunk>, ms1: Metas)
    requires to == Chunk(g.toId, 0) && olds != [] && g.lastId == olds[|olds| - 1].id &&
      g.top == olds[|olds| - 1].top < OLD_END
    ensures CopyWalk(g, Plan([], [[]], map[]), to, olds, olds) && AgedPlaces(ms1, g.toId, {}, false)
  {
  }
}
