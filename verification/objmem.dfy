/** The memory context: allocation, write barrier and the two collections. */
module ObjMem {
  import opened ObjectHeap
  import opened Layout
  import opened Marking
  import opened Spaces
  import opened BigSpace
  import opened Relocation
  import opened Updating
  import opened Moving
  import opened Invariant
  import opened FullCollection
  import opened Outcome
  import opened RememberedObjects
  import opened Copying
  import opened FastCollection
  import opened FastOutcome
  import opened Generations
  import opened Mutator
  import opened Promotion

  /** What a caller asks for, and what has been done. */
  datatype Request = Auto | Fast | Full
  datatype Done = Nothing | FastDone | FullDone

  class Context {
    // the memory
    var metas: Metas
    var bodies: Bodies
    var regions: nat            // regions handed out so far by the operating system
    // the spaces
    var working: Chunk
    var free: Chunk
    var olds: seq<OldChunk>
    var bigFirst: Addr
    var bigAllocated: nat
    var bigThreshold: nat
    // the roots, the flag that the next collection must be full, the calls that forbid any
    var roots: seq<Value>
    var forceFull: bool
    var noGcCount: nat
    var classes: nat            // how many of the roots are the class objects
    // the layout of the chunks, the order of the big space list
    ghost var workLay: seq<Block>
    ghost var oldLay: seq<seq<Block>>
    ghost var bigs: seq<Addr>

    ghost function Snapshot(): State
      reads this
    {
      State(metas, bodies, working, free, olds, bigFirst, bigAllocated, roots, regions,
        workLay, oldLay, bigs, classes)
    }

    // ----- Marking ----------------------------------------------------------

    /** Visit one value: mark it and what it refers to, unless the visit skips it. */
    method VisitObject(v: Value, mode: Mode)
      requires metas.Keys == bodies.Keys && Closed(bodies) && ValuesIn([v], bodies.Keys)
      modifies this`metas
      ensures metas == VisitAll(old(metas), bodies, [v], mode)
      decreases |Unmarked(metas)|, 0
    {
      if v.SmallInt? { return; }
      assert v in [v];
      var m := metas[v.at];
      if Skips(m, mode) { return; }
      assert BodyIn(bodies[v.at], bodies.Keys);
      UnmarkedShrinks(metas, v.at, SetMark(m, mode));
      metas := metas[v.at := SetMark(m, mode)];
      MarkFields(v.at, FieldMode(m, mode));
    }

    /** Visit the fields of an object, and its class if the visit is a plain full one. */
    method MarkFields(a: Addr, mode: Mode)
      requires metas.Keys == bodies.Keys && Closed(bodies) && a in bodies
      requires ValuesIn(Children(bodies[a], mode), bodies.Keys)
      modifies this`metas
      ensures metas == VisitAll(old(metas), bodies, Children(bodies[a], mode), mode)
      decreases |Unmarked(metas)|, 1
    {
      ghost var kids := Children(bodies[a], mode);
      if mode.Rec? {
        VisitHead(metas, bodies, kids, mode);
        VisitObject(Ref(bodies[a].cls), mode);
        assert kids[1..] == bodies[a].fields;
        SmallerSet(Unmarked(metas), Unmarked(old(metas)));
      }
      VisitValues(bodies[a].fields, mode);
    }

    /** Visit a range of values in order: the fields of an object, or the roots. */
    method VisitValues(vs: seq<Value>, mode: Mode)
      requires metas.Keys == bodies.Keys && Closed(bodies) && ValuesIn(vs, bodies.Keys)
      modifies this`metas
      ensures metas == VisitAll(old(metas), bodies, vs, mode)
      decreases |Unmarked(metas)|, 1, 0
    {
      var i := 0;
      while i < |vs|
        invariant 0 <= i <= |vs|
        invariant metas.Keys == bodies.Keys && Unmarked(metas) <= Unmarked(old(metas))
        invariant VisitAll(metas, bodies, vs[i..], mode) == VisitAll(old(metas), bodies, vs, mode)
      {
        VisitHead(metas, bodies, vs[i..], mode);
        SmallerSet(Unmarked(metas), Unmarked(old(metas)));
        VisitObject(vs[i], mode);
        assert vs[i..][1..] == vs[i + 1..];
        i := i + 1;
      }
    }

    // ----- Full collection: big space ---------------------------------------

    /** The object after `prev` in the big space list; NULL stands for the list head. */
    function NextInBigSpace(prev: Addr): Addr
      requires prev == NULL || prev in metas
      reads this`metas, this`bigFirst
    {
      if prev == NULL then bigFirst else metas[prev].ptr
    }

    /** Store a PTR word without the has-young bit into the list node `prev`. */
    method LinkInBigSpace(prev: Addr, next: Addr)
      requires prev == NULL || prev in metas
      modifies this`metas, this`bigFirst
      ensures prev == NULL ==> bigFirst == next && metas == old(metas)
      ensures prev != NULL ==>
        bigFirst == old(bigFirst) && metas == old(metas)[prev := old(metas)[prev].(ptr := next, tag := false)]
    {
      if prev == NULL {
        bigFirst := next;
      } else {
        metas := metas[prev := metas[prev].(ptr := next, tag := false)];
      }
    }

    /** Delete the unmarked big objects while walking the list; clear the mark and the
        remembered flag of the others. */
    method SweepBigSpace()
      requires metas.Keys == bodies.Keys && BigList(metas, bigFirst, bigs) && DistinctRegions(bigs)
      requires forall k {:trigger bigs[k]} :: 0 <= k < |bigs| ==> BigSized(bodies, bigs, bigs[k])
      requires bigAllocated == TotalSize(bodies, bigs)
      modifies this`metas, this`bodies, this`bigFirst, this`bigAllocated, this`bigs
      ensures Sweep(old(metas), old(bodies), old(bigs), metas, bodies, bigFirst, bigs)
      ensures bigAllocated == TotalSizeOf(bodies, bigs)
    {
      ghost var i, done: seq<Addr> := 0, [];
      ghost var ms0, bs0, list := metas, bodies, bigs;
      hide SweepPoint, BigAddrs, Sweep, DistinctRegions, Kept, BigSized, DroppedSize, TotalSize, TotalSizeOf, Swept,
        BigList;
      ListHead(ms0, bs0, bigFirst, list);
      SweepStart(ms0, bs0, list);
      var deleted := 0;
      var prev := NULL;
      var this_ := bigFirst;
      while this_ != NULL
        invariant bigs == list && bigAllocated == old(bigAllocated)
        invariant i <= |list| && SweepPoint(ms0, bs0, list, i, metas, bodies, done)
        invariant prev == Last(done) && (prev == NULL || prev in metas) && (done != [] ==> bigFirst == done[0])
        invariant this_ == NextInBigSpace(prev) == (if i < |list| then list[i] else NULL)
        invariant BigAddrs(list[..i]) <= bs0.Keys && deleted == DroppedSize(ms0, bs0, list[..i])
        decreases |list| - i
      {
        this_, prev, deleted, done := SweepBigObject(this_, prev, deleted, ms0, bs0, list, i, done);
        i := i + 1;
      }
      assert list[..i] == list;
      LastThere(ms0, bs0, list, i, metas, bodies, done);
      SweepDone(ms0, bs0, list, metas, bodies, done, bigFirst);
      TotalOfAll(bodies, done);
      bigAllocated := bigAllocated - deleted;
      bigs := done;
    }

    /** One step of the sweep: keep or delete the object `this_`, whose predecessor in the
        list is `prev`, and go on to the object after it. */
    method SweepBigObject(this_: Addr, prev: Addr, deleted: nat, ghost ms0: Metas, ghost bs0: Bodies,
        ghost list: seq<Addr>,
        ghost i: nat, ghost done: seq<Addr>)
        returns (next: Addr, prev': Addr, deleted': nat, ghost done': seq<Addr>)
      requires ms0.Keys == bs0.Keys && BigAddrs(list) <= ms0.Keys && DistinctRegions(list) && i < |list|
      requires BigList(ms0, if list == [] then NULL else list[0], list) && BigSized(bs0, list, list[i])
      requires SweepPoint(ms0, bs0, list, i, metas, bodies, done)
      requires prev == Last(done) && (prev == NULL || prev in metas) && (done != [] ==> bigFirst == done[0])
      requires this_ == NextInBigSpace(prev) == list[i]
      requires BigAddrs(list[..i]) <= bs0.Keys && deleted == DroppedSize(ms0, bs0, list[..i])
      modifies this`metas, this`bodies, this`bigFirst
      ensures SweepPoint(ms0, bs0, list, i + 1, metas, bodies, done')
      ensures prev' == Last(done') && (prev' == NULL || prev' in metas) && (done' != [] ==> bigFirst == done'[0])
      ensures next == NextInBigSpace(prev') == (if i + 1 < |list| then list[i + 1] else NULL)
      ensures BigAddrs(list[..i + 1]) <= bs0.Keys && deleted' == DroppedSize(ms0, bs0, list[..i + 1])
    {
      hide DistinctRegions, DroppedSize, Kept, BigSized, SizeThroughClass, BigAddrs, Swept;
      SweepNext(ms0, list, i);
      AddrsPrefix(list, i + 1, bs0.Keys);
      DroppedAppend(ms0, bs0, list[..i], list[i]);
      assert list[i] in metas && metas[list[i]] == ms0[list[i]];
      ghost var ms, bs := metas, bodies;
      prev', deleted', done' := prev, deleted, done;
      if metas[this_].mrk {
        metas := metas[this_ := metas[this_].(mrk := false)];
        if metas[this_].tag {
          metas := metas[this_ := metas[this_].(tag := false)];
        }
        SweepKeep(ms0, bs0, list, i, ms, bs, done, metas);
        prev', done' := this_, done + [this_];
      } else {
        next := metas[this_].ptr;
        SweepClass(ms0, bs0, list, i, bs);
        deleted' := deleted + SizeThroughClass(bodies, this_);
        metas, bodies := metas - {this_}, bodies - {this_};
        if prev != NULL { LastKept(ms0, list, i); NotInList(done, this_, |done| - 1); }
        LinkInBigSpace(prev, next);
        SweepDrop(ms0, bs0, list, i, ms, bs, done, metas);
      }
      next := NextInBigSpace(prev');
    }

    // ----- Full collection: new storage -------------------------------------

    /** Append a chunk to old space. */
    method AddOldChunk()
      modifies this`olds, this`regions, this`oldLay
      ensures regions == old(regions) + 1 && oldLay == old(oldLay) + [[]]
      ensures olds == old(olds) + [OldChunk(regions, META_SIZE, 0, Absent)]
    {
      regions := regions + 1;
      olds := olds + [OldChunk(regions, META_SIZE, 0, Absent)];
      oldLay := oldLay + [[]];
    }

    /** Move the iterator forward `size` bytes, to the next chunk if need be.  Fails at the
        end of the last chunk. */
    method Forward(it: Iterator, size: nat) returns (ok: bool, it': Iterator, at: Addr)
      requires -1 <= it.index < |olds| && META_SIZE + size < OLD_END && it.point >= 0
      requires it.index >= 0 ==> olds[it.index].visited == 0
      modifies this`olds
      ensures ok == (!OpensChunk(it, size) || it.index + 1 < |old(olds)|)
      ensures !ok ==> olds == old(olds) && it' == it
      ensures !OpensChunk(it, size) ==>
        olds == old(olds) && it' == Iterator(it.index, it.point + size) && at == Addr(olds[it.index].id, it.point)
      ensures ok && OpensChunk(it, size) ==>
        it' == Iterator(it.index + 1, META_SIZE + size) && at == Addr(old(olds)[it.index + 1].id, META_SIZE)
      ensures ok && OpensChunk(it, size) && it.index < 0 ==> olds == old(olds)
      ensures ok && OpensChunk(it, size) && it.index >= 0 ==>
        olds == old(olds)[it.index := old(olds)[it.index].(visited := it.point)]
    {
      it', at, ok := it, NULL, true;
      var point := it.point;
      var end := if it.index < 0 then 0 else OLD_END;
      var newPoint := point + size;
      if newPoint >= end {
        if it.index + 1 == |olds| {
          ok := false;
          return;
        }
        if it.index >= 0 {
          olds := olds[it.index := olds[it.index].(visited := point)];
        }
        point := META_SIZE;
        newPoint := point + size;
        it' := it'.(index := it.index + 1);
      }
      it' := it'.(point := newPoint);
      at := Addr(olds[it'.index].id, point);
    }

    /** Reserve storage in old space at the iterator, adding a chunk when all are used up. */
    method FakeAlloc(it: Iterator, size: nat, ghost lays: seq<seq<Block>>) returns (it': Iterator, at: Addr)
      requires IterAt(it, olds, lays) && HEAD_SIZE <= size <= MAX_SMALL && |oldLay| == |olds|
      modifies this`olds, this`regions, this`oldLay
      ensures it.index + 1 < |old(olds)| || !OpensChunk(it, size) ==>
        regions == old(regions) && oldLay == old(oldLay) && |olds| == |old(olds)|
      ensures !(it.index + 1 < |old(olds)| || !OpensChunk(it, size)) ==>
        regions == old(regions) + 1 && oldLay == old(oldLay) + [[]] && |olds| == |old(olds)| + 1 &&
          olds[|old(olds)|] == OldChunk(regions, META_SIZE, 0, Absent)
      ensures ChunksKept(old(olds), olds) && |olds| == |oldLay| &&
        it'.index == (if OpensChunk(it, size) then it.index + 1 else it.index)
      ensures 0 <= it'.index < |olds| && at == Addr(olds[it'.index].id,
        if OpensChunk(it, size) then META_SIZE else it.point)
      ensures OpensChunk(it, size) || lays != []
      ensures IterAt(it', olds, AddOld(lays, OpensChunk(it, size), Block(at, size)))
    {
      var ok;
      ok, it', at := Forward(it, size);
      if !ok {
        AddOldChunk();
        ok, it', at := Forward(it', size);
      }
    }

    /** Give the marked object `a` new storage in old space and say so in its PTR word. */
    method ReallocInOld(a: Addr, size: nat, it: Iterator,
        ghost ms0: Metas, ghost ids: seq<nat>, ghost rank: map<nat, nat>, ghost plan: Plan, ghost scanned: set<Addr>)
        returns (it': Iterator, ghost ids': seq<nat>, ghost rank': map<nat, nat>, ghost plan': Plan)
      requires Progress(ms0, metas, bodies, free.id, ids, rank, plan, scanned)
      requires a in metas && a in bodies && metas[a].mrk && a !in scanned &&
        HEAD_SIZE <= size == Size(bodies[a]) <= MAX_SMALL
      requires IterAt(it, olds, plan.oldLay) && IdsOf(olds, ids) && |oldLay| == |olds|
      requires free.id <= regions && RankBelow(rank, regions)
      modifies this`metas, this`olds, this`regions, this`oldLay
      ensures Progress(ms0, metas, bodies, free.id, ids', rank', plan', scanned + {a})
      ensures IterAt(it', olds, plan'.oldLay) && IdsOf(olds, ids') && |oldLay| == |olds|
      ensures ChunksKept(old(olds), olds) && ids <= ids' && RankBelow(rank', regions) && old(regions) <= regions
      ensures ChunksAdded(old(regions), regions, old(olds), olds, old(oldLay), oldLay, rank, rank')
      ensures it.index + 1 < |old(olds)| || !OpensChunk(it, size) ==>
        regions == old(regions) && oldLay == old(oldLay) && |olds| == |old(olds)| && ids' == ids && rank' == rank
      ensures it'.index == (if OpensChunk(it, size) then it.index + 1 else it.index)
      ensures it'.point == (if OpensChunk(it, size) then META_SIZE else it.point) + size
      ensures metas == old(metas)[a := Redirect(old(metas)[a], metas[a].ptr)]
      ensures plan'.toLay == plan.toLay
      ensures 0 <= it'.index < |ids'| && metas[a].ptr == Addr(ids'[it'.index],
        if OpensChunk(it, size) then META_SIZE else it.point)
    {
      hide Progress;
      var at;
      ghost var opens := OpensChunk(it, size);
      ghost var m, n := metas, |olds|;
      it', at := FakeAlloc(it, size, plan.oldLay);
      ids', rank' := ids, rank;
      if |olds| > n {
        ids', rank' := ids + [olds[n].id], rank[olds[n].id := n];
        ProgressNewChunk(ms0, metas, bodies, free.id, ids, rank, plan, scanned, olds[n].id);
      }
      ghost var b := Block(at, size);
      assert |plan.oldLay| == it.index + 1;
      assert ids'[it'.index] == olds[it'.index].id;
      plan' := OldPlan(plan, opens, b, a);
      ProgressOld(ms0, metas, bodies, free.id, ids', rank', plan, scanned, opens, a, b);
      metas := metas[a := metas[a].(ptr := at, tag := false)];
    }

    /** Reallocate the survivors of the old chunk number `i`.  `n` objects at the start of
        old space are known to be live. */
    method ReallocOldChunk(i: nat, it: Iterator,
        ghost ms0: Metas, ghost ids: seq<nat>, ghost rank: map<nat, nat>, ghost plan: Plan, ghost scanned: set<Addr>,
        ghost n: nat)
        returns (it': Iterator, ghost plan': Plan, ghost scanned': set<Addr>)
      requires ScanSetting(bodies, free.id, ids, rank, oldLay, regions) && i < |olds| == |oldLay|
      requires Stored(bodies, olds[i].id, META_SIZE, olds[i].top, OLD_END, oldLay[i])
      requires OldScan(ms0, metas, bodies, free.id, ids, rank, plan, scanned, it, olds, i, META_SIZE)
      requires scanned == OldAddrs(oldLay[..i]) && PrefixScan(metas, oldLay, n, i, 0, it, META_SIZE)
      modifies this`metas, this`olds, this`regions, this`oldLay
      ensures regions == old(regions) && oldLay == old(oldLay) && |olds| == |old(olds)| && ChunksKept(old(olds), olds)
      ensures OldScan(ms0, metas, bodies, free.id, ids, rank, plan', scanned', it', olds, i + 1, META_SIZE)
      ensures scanned' == OldAddrs(old(oldLay)[..i + 1]) && InPlace(metas, old(oldLay)[0], n)
    {
      hide OldScan, PrefixScan, ScanSetting, Tiled, OldAddrs, AddrsOf, ChunksKept, Occupied;
      it', plan', scanned' := it, plan, scanned;
      ghost var lays, lay, j := oldLay, oldLay[i], 0;
      var id, top := olds[i].id, olds[i].top;
      var off := META_SIZE;
      OffsetInside(id, META_SIZE, lay, 0);
      assert AddrsOf(lay[..0]) == {} by { assert lay[..0] == []; AddrsNone(); }
      KeptSame(olds);
      while off < top
        invariant j <= |lay| && off == OffsetAt(META_SIZE, lay, j)
        invariant oldLay == lays && regions == old(regions) && |olds| == |old(olds)| && ChunksKept(old(olds), olds)
        invariant olds[i].id == id && olds[i].top == top
        invariant OldScan(ms0, metas, bodies, free.id, ids, rank, plan', scanned', it', olds, i, off)
        invariant scanned' == OldAddrs(lays[..i]) + AddrsOf(lay[..j])
        invariant PrefixScan(metas, lays, n, i, j, it', off)
        decreases |lay| - j
      {
        OffsetInside(id, META_SIZE, lay, j);
        OffsetNext(id, META_SIZE, lay, j);
        var a := Addr(id, off);
        var size;
        ghost var olds1 := olds;
        it', size, plan', scanned' := ReallocOldObject(i, j, a, it', ms0, ids, rank, plan', scanned', n);
        KeptTrans(old(olds), olds1, olds);
        KeptAt(old(olds), olds, i);
        off := off + size;
        j := j + 1;
      }
      OffsetInside(id, META_SIZE, lay, j);
      assert lay[..j] == lay;
      ScanChunk(lays, i);
      ScanDone(ms0, metas, bodies, free.id, ids, rank, plan', scanned', it', olds, i, off, lays, n, j);
    }

    /** Read the size of the object at `a`, block number `j` of a chunk. */
    method SizeOf(a: Addr, ghost lay: seq<Block>, ghost j: nat) returns (size: nat)
      requires AllSized(bodies) && j < |lay| && Occupied(bodies, lay) && a == lay[j].at
      ensures a in bodies && size == lay[j].size == Size(bodies[a])
    {
      assert Sized(bodies, a);
      size := SizeThroughClass(bodies, a);
    }

    /** One object of a walk through old space: new storage if it is marked. */
    method ReallocOldObject(ghost i: nat, ghost j: nat, a: Addr, it: Iterator,
        ghost ms0: Metas, ghost ids: seq<nat>, ghost rank: map<nat, nat>, ghost plan: Plan, ghost scanned: set<Addr>,
        ghost n: nat)
        returns (it': Iterator, size: nat, ghost plan': Plan, ghost scanned': set<Addr>)
      requires ScanSetting(bodies, free.id, ids, rank, oldLay, regions) && i < |olds| == |oldLay|
      requires Stored(bodies, olds[i].id, META_SIZE, olds[i].top, OLD_END, oldLay[i]) && j < |oldLay[i]| &&
        a == oldLay[i][j].at
      requires OldScan(ms0, metas, bodies, free.id, ids, rank, plan, scanned, it, olds, i, a.off)
      requires scanned == OldAddrs(oldLay[..i]) + AddrsOf(oldLay[i][..j]) &&
        PrefixScan(metas, oldLay, n, i, j, it, a.off)
      modifies this`metas, this`olds, this`regions, this`oldLay
      ensures regions == old(regions) && oldLay == old(oldLay) && |olds| == |old(olds)| && ChunksKept(old(olds), olds)
      ensures size == old(oldLay)[i][j].size
      ensures OldScan(ms0, metas, bodies, free.id, ids, rank, plan', scanned', it', olds, i, a.off + size)
      ensures scanned' == OldAddrs(old(oldLay)[..i]) + AddrsOf(old(oldLay)[i][..j + 1])
      ensures PrefixScan(metas, old(oldLay), n, i, j + 1, it', a.off + size)
    {
      hide Progress, Tiled, PrefixScan, OldAddrs, AddrsOf, Occupied, AllSized, SlidDown, ChunksKept, ChunksTiled,
        ChunksAdded;
      size := SizeOf(a, oldLay[i], j);
      KeptSame(olds); AddedNone(regions, olds, oldLay, rank);
      BlockFacts(ids, rank, oldLay, i, j);
      NotYetScanned(ids, rank, oldLay, i, j);
      ScanBlock(oldLay, i, j);
      TopAbove(olds[i].id, META_SIZE, oldLay[i], j);
      StepNotAhead(it, size, i, a, ids, rank);
      it', plan', scanned' := it, plan, scanned + {a};
      ghost var ms, lays := metas, oldLay;
      if metas[a].mrk {
        ghost var ids', rank';
        it', ids', rank', plan' := ReallocInOld(a, size, it, ms0, ids, rank, plan, scanned);
        SlidDownStep(ms, rank, scanned, a, metas[a].ptr);
      } else {
        ProgressSkip(ms0, metas, bodies, free.id, ids, rank, plan, scanned, a);
        SlidDownSkip(metas, rank, scanned, a);
      }
      PrefixStep(ms, metas, ids, rank, lays, n, i, j, it, it', a, size, scanned);
    }

    /** Reallocate the survivors of old space and forget the remembered objects. */
    method ReallocOldSpace(ghost ids: seq<nat>, ghost rank: map<nat, nat>, ghost n: nat)
        returns (it: Iterator, ghost plan: Plan, ghost scanned: set<Addr>)
      requires ScanSetting(bodies, free.id, ids, rank, oldLay, regions) && free.id !in rank
      requires OldsStored(bodies, olds, oldLay) && IdsOf(olds, ids) && Idle(olds)
      requires metas.Keys == bodies.Keys && AllMarked(metas, oldLay[0], n)
      modifies this`metas, this`olds, this`regions, this`oldLay
      ensures regions == old(regions) && oldLay == old(oldLay) && |olds| == |old(olds)| && SamePlaces(old(olds), olds)
      ensures forall i {:trigger olds[i]} :: 0 <= i < |olds| ==> olds[i].remembered == Absent
      ensures OldScan(old(metas), metas, bodies, free.id, ids, rank, plan, scanned, it, olds, |olds|, META_SIZE)
      ensures scanned == OldAddrs(oldLay) && InPlace(metas, oldLay[0], n)
    {
      hide Progress, OldAddrs, Tiled, Occupied, SlidDown, Redirections, ScanSetting, PrefixScan, ChunksTiled, OldScan,
        OldsStored, SamePlaces;
      it := Iterator(-1, META_SIZE);
      plan, scanned := Plan([], [], map[]), {};
      ghost var ms0, lays, olds0 := metas, oldLay, olds;
      var i := 0;
      OldScanStart(metas, bodies, free.id, ids, rank, olds, lays, n, regions);
      OldStoredAt(bodies, olds0, olds, lays, 0);
      while i < |olds|
        invariant 0 <= i <= |olds| == |olds0| && oldLay == lays && regions == old(regions) && SamePlaces(olds0, olds)
        invariant forall k {:trigger olds[k]} :: 0 <= k < i ==> olds[k].remembered == Absent
        invariant OldScan(ms0, metas, bodies, free.id, ids, rank, plan, scanned, it, olds, i, META_SIZE)
        invariant scanned == OldAddrs(lays[..i]) && PrefixScan(metas, lays, n, i, 0, it, META_SIZE)
      {
        OldStoredAt(bodies, olds0, olds, lays, i);
        ghost var olds1 := olds;
        olds := olds[i := olds[i].(remembered := Absent)];
        ForgetKeepsScan(ms0, metas, bodies, free.id, ids, rank, plan, scanned, it, olds1, i);
        SamePlacesTrans(olds0, olds1, olds);
        ghost var olds2 := olds;
        it, plan, scanned := ReallocOldChunk(i, it, ms0, ids, rank, plan, scanned, n);
        KeptIsSamePlaces(olds0, olds2, olds);
        i := i + 1;
        PrefixLater(metas, lays, n, i, it, META_SIZE);
      }
      assert lays[..i] == lays;
      PrefixEnd(metas, lays, n, i, it, META_SIZE);
    }

    /** Allocate from the to-space chunk: fails when the storage would reach the end. */
    method AllocInToSpace(size: nat) returns (ok: bool, at: Addr)
      modifies this`free
      ensures ok == (old(free).top + size < NEW_END)
      ensures ok ==> at == Addr(free.id, old(free).top) && free == old(free).(top := old(free).top + size)
      ensures !ok ==> free == old(free)
    {
      at, ok := NULL, free.top + size < NEW_END;
      if ok {
        at := Addr(free.id, free.top);
        free := free.(top := free.top + size);
      }
    }

    /** One object of the walk through new space: new storage in to-space, or in old space
        if it has survived before or an old object refers to it. */
    method ReallocNewObject(ghost j: nat, a: Addr, it: Iterator,
        ghost ms0: Metas, ghost ids: seq<nat>, ghost rank: map<nat, nat>, ghost plan: Plan, ghost scanned: set<Addr>)
        returns (it': Iterator, size: nat, ghost ids': seq<nat>, ghost rank': map<nat, nat>, ghost plan': Plan)
      requires AllSized(bodies) && WorkingStored(bodies, working, workLay) && j < |workLay| && a == workLay[j].at
      requires NewScan(ms0, metas, bodies, free, ids, rank, plan, scanned, it, olds, oldLay, regions)
      requires a !in scanned && free.top <= a.off
      modifies this`metas, this`olds, this`regions, this`oldLay, this`free
      ensures size == workLay[j].size && free.id == old(free).id && free.top <= a.off + size
      ensures ChunksKept(old(olds), olds) && ids <= ids'
      ensures ChunksAdded(old(regions), regions, old(olds), olds, old(oldLay), oldLay, rank, rank')
      ensures NewScan(ms0, metas, bodies, free, ids', rank', plan', scanned + {a}, it', olds, oldLay, regions)
      ensures SameOutside(old(metas), metas, {a}) && a in metas && Promoted(metas[a], free.id)
    {
      hide Progress, Tiled, Occupied, AllSized, IterAt, ChunksKept, SameOutside, ChunksAdded;
      size := SizeOf(a, workLay, j);
      TopAbove(working.id, 0, workLay, j);
      it', ids', rank', plan' := it, ids, rank, plan;
      ghost var ms := metas;
      if !metas[a].mrk {
        ProgressSkip(ms0, metas, bodies, free.id, ids, rank, plan, scanned, a);
        KeptSame(olds); AddedNone(regions, olds, oldLay, rank);
      } else if !metas[a].mid {
        var ok, at := AllocInToSpace(size);
        assert ok;
        ghost var b := Block(at, size);
        ProgressTo(ms0, metas, bodies, free.id, ids, rank, plan, scanned, a, b);
        plan' := ToPlan(plan, b, a);
        metas := metas[a := metas[a].(ptr := at, tag := false)];
        KeptSame(olds); AddedNone(regions, olds, oldLay, rank);
      } else {
        it', ids', rank', plan' := ReallocInOld(a, size, it, ms0, ids, rank, plan, scanned);
      }
      SameOutsideUpdate(ms, a, metas[a]);
      assert free.id == old(free).id;
      if metas[a].mrk && metas[a].mid {
        OldIsNotTo(ms0, metas, bodies, free.id, ids', rank', plan', scanned + {a}, it'.index);
      }
    }

    /** Reallocate the survivors of new space. */
    method ReallocNewSpace(it: Iterator, ghost ms0: Metas, ghost ids: seq<nat>, ghost rank: map<nat, nat>,
        ghost plan: Plan, ghost scanned: set<Addr>)
        returns (it': Iterator, ghost ids': seq<nat>, ghost rank': map<nat, nat>, ghost plan': Plan)
      requires AllSized(bodies) && WorkingStored(bodies, working, workLay) && plan.toLay == [] && |oldLay| == |olds|
      requires NewScan(ms0, metas, bodies, free.(top := 0), ids, rank, plan, scanned, it, olds, oldLay, regions)
      requires AddrsOf(workLay) !! scanned
      modifies this`metas, this`olds, this`regions, this`oldLay, this`free
      ensures free.id == old(free).id && ids <= ids' && free.top < NEW_END
      ensures SpaceGrown(old(regions), regions, old(olds), olds, old(oldLay), oldLay, rank, rank')
      ensures NewScan(ms0, metas, bodies, free, ids', rank', plan', scanned + AddrsOf(workLay), it', olds, oldLay,
        regions)
      ensures SameOutside(old(metas), metas, AddrsOf(workLay)) && AllPromoted(metas, free.id, AddrsOf(workLay))
    {
      hide NewScan, SpaceGrown, Tiled, Occupied, AllSized, AddrsOf, ChunksKept, ChunksAdded, SameOutside, Promoted;
      free := free.(top := 0);
      it', ids', rank', plan' := it, ids, rank, plan;
      ghost var lay, j, done := workLay, 0, scanned;
      var off := 0;
      OffsetInside(working.id, 0, lay, 0);
      AddrsNone();
      assert lay[..0] == [] && scanned + {} == scanned;
      SameOutsideAll(metas, AddrsOf(lay));
      GrownByNone(regions, olds, oldLay, rank);
      while off < working.top
        invariant j <= |lay| && off == OffsetAt(0, lay, j) && lay == workLay
        invariant free.id == old(free).id && ids <= ids' && free.top <= off
        invariant SpaceGrown(old(regions), regions, old(olds), olds, old(oldLay), oldLay, rank, rank')
        invariant NewScan(ms0, metas, bodies, free, ids', rank', plan', done, it', olds, oldLay, regions)
        invariant done == scanned + AddrsOf(lay[..j])
        invariant SameOutside(old(metas), metas, AddrsOf(lay)) && AllPromoted(metas, free.id, AddrsOf(lay[..j]))
        decreases |lay| - j
      {
        OffsetInside(working.id, 0, lay, j);
        OffsetNext(working.id, 0, lay, j);
        var a := Addr(working.id, off);
        NotYetInChunk(working.id, 0, lay, j, scanned);
        ghost var regions1, olds1, lays1, rank1, metas1 := regions, olds, oldLay, rank', metas;
        RankOf(ms0, metas, bodies, free, ids', rank', plan', done, it', olds, oldLay, regions);
        var size;
        it', size, ids', rank', plan' := ReallocNewObject(j, a, it', ms0, ids', rank', plan', done);
        GrownByOne(old(regions), regions1, regions, old(olds), olds1, olds, old(oldLay), lays1, oldLay, rank, rank1,
          rank');
        PromotedStep(metas1, metas, free.id, AddrsOf(lay[..j]), a);
        SameOutsideStep(old(metas), metas1, metas, AddrsOf(lay), a);
        done := done + {a};
        off := off + size;
        j := j + 1;
      }
      OffsetInside(working.id, 0, lay, j);
      assert lay[..j] == lay;
    }

    // ----- Updating references ----------------------------------------------

    /** Redirect one reference if its target has moved. */
    method UpdateValue(v: Value) returns (v': Value)
      requires v.Ref? ==> v.at in metas
      ensures v' == Forwarded(metas, v)
    {
      v' := v;
      if v.Ref? && metas[v.at].mrk {
        v' := Ref(metas[v.at].ptr);
      }
    }

    /** Redirect a range of references, the fields of an object or the roots. */
    method UpdateValues(vs: seq<Value>) returns (vs': seq<Value>)
      requires ValuesIn(vs, metas.Keys)
      ensures ForwardedValues(metas, vs, vs')
    {
      vs' := vs;
      var i := 0;
      while i < |vs|
        invariant 0 <= i <= |vs| == |vs'|
        invariant forall k {:trigger vs'[k]} :: 0 <= k < i ==> vs'[k] == Forwarded(metas, vs[k])
        invariant forall k {:trigger vs'[k]} :: i <= k < |vs| ==> vs'[k] == vs[k]
      {
        assert vs[i] in vs;
        var v := UpdateValue(vs[i]);
        vs' := vs'[i := v];
        i := i + 1;
      }
    }

    /** Redirect the class pointer and the fields of the object at `a`. */
    method UpdateObject(a: Addr)
      requires a in bodies && BodyIn(bodies[a], metas.Keys)
      modifies this`bodies
      ensures a in bodies && bodies == old(bodies)[a := bodies[a]]
      ensures ForwardedBody(metas, old(bodies)[a], bodies[a])
    {
      var b := bodies[a];
      var c := UpdateValue(Ref(b.cls));
      var fields := UpdateValues(b.fields);
      bodies := bodies[a := b.(cls := c.at, fields := fields)];
    }

    /** Update the marked objects of the chunk `id`, whose blocks are `lay`. */
    method UpdateMarkedInChunk(id: nat, start: nat, top: nat, ghost end: nat, ghost lay: seq<Block>, ghost bs0: Bodies,
        ghost done: set<Addr>)
      requires UpdateSetting(metas, bs0) && Stored(bs0, id, start, top, end, lay)
      requires Updated(metas, bs0, bodies, done) && AddrsOf(lay) !! done && SmallOnly(metas, AddrsOf(lay))
      modifies this`bodies
      ensures Updated(metas, bs0, bodies, done + AddrsOf(lay))
    {
      hide Tiled, AddrsOf, Occupied, Updated, UpdateSetting, AllSized, SmallOnly;
      ghost var j, done' := 0, done;
      var off := start;
      OffsetInside(id, start, lay, 0);
      AddrsNone();
      assert lay[..0] == [] && done + {} == done;
      while off < top
        invariant j <= |lay| && off == OffsetAt(start, lay, j)
        invariant Updated(metas, bs0, bodies, done') && done' == done + AddrsOf(lay[..j])
        decreases |lay| - j
      {
        OffsetInside(id, start, lay, j);
        OffsetNext(id, start, lay, j);
        NotYetInChunk(id, start, lay, j, done);
        var size := UpdateIfMarked(Addr(id, off), lay, j, bs0, done');
        done' := done' + {lay[j].at};
        off := off + size;
        j := j + 1;
      }
      OffsetInside(id, start, lay, j);
      assert lay[..j] == lay;
    }

    method UpdateIfMarked(a: Addr, ghost lay: seq<Block>, ghost j: nat, ghost bs0: Bodies, ghost done: set<Addr>)
        returns (size: nat)
      requires UpdateSetting(metas, bs0) && Occupied(bs0, lay) && j < |lay| && a == lay[j].at
      requires Updated(metas, bs0, bodies, done) && a !in done && a in AddrsOf(lay) && SmallOnly(metas, AddrsOf(lay))
      modifies this`bodies
      ensures size == lay[j].size && Updated(metas, bs0, bodies, done + {a})
    {
      hide AddrsOf, Updated;
      SettingKeys(metas, bs0, bodies, done);
      OccupiedDuringUpdate(metas, bs0, bodies, done, lay);
      size := SizeOf(a, lay, j);
      ghost var bs := bodies;
      assert !IsBig(metas[a]);
      if metas[a].mrk {
        NotYetUpdated(metas, bs0, bodies, done, a);
        UpdateObject(a);
      }
      assert bodies == bs[a := bodies[a]];
      UpdatedStep(metas, bs0, bs, done, a, bodies[a]);
    }

    method UpdateMarkedInNewSpace(ghost bs0: Bodies, ghost done: set<Addr>)
      requires UpdateSetting(metas, bs0) && WorkingStored(bs0, working, workLay)
      requires Updated(metas, bs0, bodies, done) && AddrsOf(workLay) !! done && SmallOnly(metas, AddrsOf(workLay))
      modifies this`bodies
      ensures Updated(metas, bs0, bodies, done + AddrsOf(workLay))
    {
      UpdateMarkedInChunk(working.id, 0, working.top, NEW_END, workLay, bs0, done);
    }

    method UpdateMarkedInOldSpace(ghost bs0: Bodies, ghost done: set<Addr>, ghost ids: seq<nat>,
        ghost rank: map<nat, nat>)
      requires UpdateSetting(metas, bs0) && OldsStored(bs0, olds, oldLay) && ChunksTiled(ids, rank, oldLay)
      requires Updated(metas, bs0, bodies, done) && OldAddrs(oldLay) !! done && SmallOnly(metas, OldAddrs(oldLay))
      modifies this`bodies
      ensures Updated(metas, bs0, bodies, done + OldAddrs(oldLay))
    {
      hide Updated, UpdateSetting, OldsStored, OldAddrs, AddrsOf, SmallOnly, ChunksTiled, Stored;
      ghost var lays, done' := oldLay, done;
      OldsStoredCount(bs0, olds, oldLay);
      ScanNone(lays);
      assert done + {} == done;
      var i := 0;
      while i < |olds|
        invariant 0 <= i <= |olds| == |lays|
        invariant Updated(metas, bs0, bodies, done') && done' == done + OldAddrs(lays[..i])
      {
        StoredAt(bs0, olds, lays, i);
        ScanChunk(lays, i);
        ChunkApart(ids, rank, lays, i, done);
        SmallSubset(metas, OldAddrs(lays), AddrsOf(lays[i]));
        UpdateMarkedInChunk(olds[i].id, META_SIZE, olds[i].top, OLD_END, lays[i], bs0, done');
        done' := done' + AddrsOf(lays[i]);
        i := i + 1;
      }
      assert lays[..i] == lays;
    }

    /** Update all the objects in the big space list. */
    method UpdateBigSpace(ghost bs0: Bodies, ghost done: set<Addr>)
      requires UpdateSetting(metas, bs0) && BigList(metas, bigFirst, bigs) && DistinctRegions(bigs)
      requires Updated(metas, bs0, bodies, done) && BigAddrs(bigs) !! done
      modifies this`bodies
      ensures Updated(metas, bs0, bodies, done + BigAddrs(bigs))
    {
      hide Updated, UpdateSetting, BigAddrs;
      ghost var i, done' := 0, done;
      BigNone();
      assert bigs[..0] == [] && done + {} == done;
      var obj := bigFirst;
      while obj != NULL
        invariant i <= |bigs| && obj == (if i < |bigs| then bigs[i] else NULL)
        invariant Updated(metas, bs0, bodies, done') && done' == done + BigAddrs(bigs[..i])
        decreases |bigs| - i
      {
        BigStep(bigs, i, done);
        SettingKeys(metas, bs0, bodies, done');
        assert bigs[i] in metas;
        var next := metas[obj].ptr;
        NotYetUpdated(metas, bs0, bodies, done', obj);
        ghost var bs := bodies;
        UpdateObject(obj);
        UpdatedStep(metas, bs0, bs, done', obj, bodies[obj]);
        done' := done' + {obj};
        obj := next;
        i := i + 1;
      }
      assert bigs[..i] == bigs;
    }

    method UpdateRoots()
      requires ValuesIn(roots, metas.Keys)
      modifies this`roots
      ensures ForwardedValues(metas, old(roots), roots)
    {
      roots := UpdateValues(roots);
    }

    // ----- Full collection: moving ------------------------------------------

    /** What is at `a` is no object any more, only storage. */
    method Vacate(a: Addr)
      modifies this`metas, this`bodies
      ensures metas == old(metas) - {a} && bodies == old(bodies) - {a}
    {
      metas, bodies := metas - {a}, bodies - {a};
    }

    /** Copy the object at `a` to `d`; objects whose storage it overlaps are no more. */
    method MoveTo(a: Addr, d: Addr, m: Meta)
      requires a in metas && a in bodies
      modifies this`metas, this`bodies
      ensures metas == PutMeta(old(metas) - {a}, old(bodies) - {a}, d, m, Size(old(bodies)[a]))
      ensures bodies == PutBody(old(bodies) - {a}, d, old(bodies)[a])
    {
      var b := bodies[a];
      Vacate(a);
      var gone := Clobbered(bodies, d, Size(b));
      metas := (metas - gone)[d := m];
      bodies := (bodies - gone)[d := b];
    }

    /** Move the old object at `a` to its new storage, unless it stays where it is. */
    method MoveOldObject(a: Addr, ghost ms0: Metas, ghost bs0: Bodies, ghost ids: seq<nat>, ghost rank: map<nat, nat>,
        ghost plan: Plan,
        ghost small: set<Addr>, ghost intact: set<Addr>)
      requires MoveSetting(ms0, bs0, free.id, ids, rank, plan, small) &&
        MoveState(ms0, bs0, free.id, plan.from, metas, bodies, intact)
      requires a in intact && a in small && a in metas && a in bodies && a in ms0 && a in bs0 && metas[a].mrk &&
        metas[a] == ms0[a]
      requires bodies[a] == bs0[a] && ms0[a].ptr.chunk != free.id && Spares(bs0, ms0[a].ptr, Size(bs0[a]), intact - {a})
      modifies this`metas, this`bodies
      ensures MoveState(ms0, bs0, free.id, plan.from, metas, bodies, intact - {a})
    {
      hide MoveState, Spares, PlanTiled, PlanAssigned, AllSized;
      ghost var ms, bs := metas, bodies;
      metas := metas[a := metas[a].(mrk := false)];
      var d := metas[a].ptr;
      assert Relocated(ms0, plan.from, a);
      if a == d {
        metas := metas[a := Meta(Old, false, false, Addr(a.chunk, 0), false)];
        StayStep(ms0, bs0, free.id, ids, rank, plan, ms, bs, intact, a);
        assert metas == ms[a := FinalMeta(free.id, a)];
      } else {
        MoveTo(a, d, Meta(Old, false, false, Addr(d.chunk, 0), false));
        MoveStep(ms0, bs0, free.id, ids, rank, plan, ms, bs, intact, a, d, metas, bodies);
      }
    }

    /** Move the young object at `a`: to to-space, or to old space if its MID bit is set. */
    method MoveNewObject(a: Addr, ghost ms0: Metas, ghost bs0: Bodies, ghost ids: seq<nat>, ghost rank: map<nat, nat>,
        ghost plan: Plan,
        ghost small: set<Addr>, ghost intact: set<Addr>)
      requires MoveSetting(ms0, bs0, free.id, ids, rank, plan, small) &&
        MoveState(ms0, bs0, free.id, plan.from, metas, bodies, intact)
      requires a in intact && a in small && a in metas && a in bodies && a in ms0 && a in bs0 && metas[a].mrk &&
        metas[a] == ms0[a]
      requires bodies[a] == bs0[a] && Promoted(ms0[a], free.id) && Spares(bs0, ms0[a].ptr, Size(bs0[a]), intact - {a})
      modifies this`metas, this`bodies
      ensures MoveState(ms0, bs0, free.id, plan.from, metas, bodies, intact - {a})
    {
      hide MoveState, Spares, PlanTiled, PlanAssigned, AllSized;
      ghost var ms, bs := metas, bodies;
      metas := metas[a := metas[a].(mrk := false)];
      var d := metas[a].ptr;
      assert Relocated(ms0, plan.from, a);
      if !metas[a].mid {
        MoveTo(a, d, Meta(Young, true, false, NULL, false));
      } else {
        MoveTo(a, d, Meta(Old, false, false, Addr(d.chunk, 0), false));
      }
      MoveStep(ms0, bs0, free.id, ids, rank, plan, ms, bs, intact, a, d, metas, bodies);
    }

    /** Move the survivors of the old chunk number `i`. */
    method MoveOldChunk(i: nat, ghost ms0: Metas, ghost bs0: Bodies, ghost ids: seq<nat>, ghost rank: map<nat, nat>,
        ghost plan: Plan,
        ghost small: set<Addr>, ghost others: set<Addr>, ghost intact: set<Addr>)
      requires MoveSetting(ms0, bs0, free.id, ids, rank, plan, small) &&
        MoveState(ms0, bs0, free.id, plan.from, metas, bodies, intact)
      requires OldMoveSetting(ms0, ids, rank, oldLay, small, others) && i < |olds| == |oldLay|
      requires Stored(bs0, olds[i].id, META_SIZE, olds[i].top, OLD_END, oldLay[i])
      requires intact == OldAddrs(oldLay) + others - OldAddrs(oldLay[..i])
      modifies this`metas, this`bodies
      ensures MoveState(ms0, bs0, free.id, plan.from, metas, bodies, OldAddrs(oldLay) +
        others - OldAddrs(oldLay[..i + 1]))
    {
      hide MoveSetting, MoveState, OldMoveSetting, Tiled, OldAddrs, AddrsOf, Occupied;
      ghost var lay, j, all, before := oldLay[i], 0, OldAddrs(oldLay) + others, OldAddrs(oldLay[..i]);
      var id, top := olds[i].id, olds[i].top;
      var off := META_SIZE;
      OffsetInside(id, META_SIZE, lay, 0);
      AddrsNone();
      assert lay[..0] == [] && before + {} == before;
      while off < top
        invariant j <= |lay| && off == OffsetAt(META_SIZE, lay, j)
        invariant MoveState(ms0, bs0, free.id, plan.from, metas, bodies, all - (before + AddrsOf(lay[..j])))
        decreases |lay| - j
      {
        OffsetInside(id, META_SIZE, lay, j);
        OffsetNext(id, META_SIZE, lay, j);
        var size := MoveIfMarkedOld(i, j, Addr(id, off), ms0, bs0, ids, rank, plan, small, others,
          all - (before + AddrsOf(lay[..j])));
        ScanBlock(oldLay, i, j);
        assert all - (before + AddrsOf(lay[..j])) - {lay[j].at} == all - (before + AddrsOf(lay[..j + 1]));
        off := off + size;
        j := j + 1;
      }
      OffsetInside(id, META_SIZE, lay, j);
      assert lay[..j] == lay;
      ScanChunk(oldLay, i);
    }

    method MoveIfMarkedOld(ghost i: nat, ghost j: nat, a: Addr, ghost ms0: Metas, ghost bs0: Bodies,
        ghost ids: seq<nat>, ghost rank: map<nat, nat>,
        ghost plan: Plan, ghost small: set<Addr>, ghost others: set<Addr>, ghost intact: set<Addr>)
        returns (size: nat)
      requires MoveSetting(ms0, bs0, free.id, ids, rank, plan, small) &&
        MoveState(ms0, bs0, free.id, plan.from, metas, bodies, intact)
      requires OldMoveSetting(ms0, ids, rank, oldLay, small, others) && i < |oldLay| && j < |oldLay[i]|
      requires Occupied(bs0, oldLay[i]) && a == oldLay[i][j].at
      requires intact == OldAddrs(oldLay) + others - (OldAddrs(oldLay[..i]) + AddrsOf(oldLay[i][..j]))
      modifies this`metas, this`bodies
      ensures size == oldLay[i][j].size
      ensures MoveState(ms0, bs0, free.id, plan.from, metas, bodies, intact - {a})
    {
      hide MoveSetting, MoveState, OldMoveSetting, Tiled, OldAddrs, AddrsOf, Spares;
      OldBlockIntact(ms0, ids, rank, oldLay, small, others, i, j);
      SizedDuringMove(ms0, bs0, free.id, ids, rank, plan, small, metas, bodies, intact, a);
      size := SizeThroughClass(bodies, a);
      if metas[a].mrk {
        OldMoveSpares(ms0, bs0, free.id, ids, rank, plan, oldLay, small, others, i, j);
        MoveOldObject(a, ms0, bs0, ids, rank, plan, small, intact);
      } else {
        DeadMove(ms0, bs0, free.id, ids, rank, plan, small, metas, bodies, intact, a);
        Vacate(a);
      }
    }

    method MoveOldSpace(ghost ms0: Metas, ghost bs0: Bodies, ghost ids: seq<nat>, ghost rank: map<nat, nat>,
        ghost plan: Plan,
        ghost small: set<Addr>, ghost others: set<Addr>)
      requires MoveSetting(ms0, bs0, free.id, ids, rank, plan, small) &&
        OldMoveSetting(ms0, ids, rank, oldLay, small, others)
      requires MoveState(ms0, bs0, free.id, plan.from, metas, bodies, OldAddrs(oldLay) + others)
      requires OldsStored(bs0, olds, oldLay) && OldAddrs(oldLay) !! others
      modifies this`metas, this`bodies
      ensures MoveState(ms0, bs0, free.id, plan.from, metas, bodies, others)
    {
      hide MoveSetting, MoveState, OldMoveSetting, OldsStored, OldAddrs, Stored;
      ghost var lays := oldLay;
      OldsStoredCount(bs0, olds, oldLay);
      ScanNone(lays);
      ghost var all := OldAddrs(lays) + others;
      assert all - {} == all;
      var i := 0;
      while i < |olds|
        invariant 0 <= i <= |olds| == |lays|
        invariant MoveState(ms0, bs0, free.id, plan.from, metas, bodies, all - OldAddrs(lays[..i]))
      {
        StoredAt(bs0, olds, lays, i);
        MoveOldChunk(i, ms0, bs0, ids, rank, plan, small, others, all - OldAddrs(lays[..i]));
        i := i + 1;
      }
      assert lays[..i] == lays;
      assert all - OldAddrs(lays) == others;
    }

    /** Move the survivors of new space. */
    method MoveNewSpace(ghost ms0: Metas, ghost bs0: Bodies, ghost ids: seq<nat>, ghost rank: map<nat, nat>,
        ghost plan: Plan,
        ghost small: set<Addr>, ghost others: set<Addr>)
      requires MoveSetting(ms0, bs0, free.id, ids, rank, plan, small) && AllPromoted(ms0, free.id, AddrsOf(workLay))
      requires MoveState(ms0, bs0, free.id, plan.from, metas, bodies, AddrsOf(workLay) + others)
      requires WorkingStored(bs0, working, workLay) && AddrsOf(workLay) !! others && AddrsOf(workLay) <= small
      requires NotInRegions(working.id, rank, free.id, AddrsOf(workLay) + others)
      modifies this`metas, this`bodies
      ensures MoveState(ms0, bs0, free.id, plan.from, metas, bodies, others)
    {
      hide MoveSetting, MoveState, AllPromoted, NotInRegions, Tiled, AddrsOf, Occupied;
      ghost var lay, j, all := workLay, 0, AddrsOf(workLay) + others;
      var off := 0;
      OffsetInside(working.id, 0, lay, 0);
      AddrsNone();
      assert lay[..0] == [] && all - {} == all;
      while off < working.top
        invariant j <= |lay| && off == OffsetAt(0, lay, j)
        invariant MoveState(ms0, bs0, free.id, plan.from, metas, bodies, all - AddrsOf(lay[..j]))
        decreases |lay| - j
      {
        OffsetInside(working.id, 0, lay, j);
        OffsetNext(working.id, 0, lay, j);
        NotYetInChunk(working.id, 0, lay, j, {});
        var size := MoveIfMarkedNew(j, Addr(working.id, off), ms0, bs0, ids, rank, plan, small, others,
          all - AddrsOf(lay[..j]));
        assert all - AddrsOf(lay[..j]) - {lay[j].at} == all - AddrsOf(lay[..j + 1]);
        off := off + size;
        j := j + 1;
      }
      OffsetInside(working.id, 0, lay, j);
      assert lay[..j] == lay;
      assert all - AddrsOf(lay) == others;
    }

    method MoveIfMarkedNew(ghost j: nat, a: Addr, ghost ms0: Metas, ghost bs0: Bodies, ghost ids: seq<nat>,
        ghost rank: map<nat, nat>,
        ghost plan: Plan, ghost small: set<Addr>, ghost others: set<Addr>, ghost intact: set<Addr>)
        returns (size: nat)
      requires MoveSetting(ms0, bs0, free.id, ids, rank, plan, small) &&
        MoveState(ms0, bs0, free.id, plan.from, metas, bodies, intact)
      requires AllPromoted(ms0, free.id, AddrsOf(workLay)) && AddrsOf(workLay) <= small
      requires j < |workLay| && Occupied(bs0, workLay) && a == workLay[j].at && a in AddrsOf(workLay) && a in intact
      requires NotInRegions(working.id, rank, free.id, AddrsOf(workLay) + others) && intact <= AddrsOf(workLay) + others
      modifies this`metas, this`bodies
      ensures size == workLay[j].size
      ensures MoveState(ms0, bs0, free.id, plan.from, metas, bodies, intact - {a})
    {
      hide MoveSetting, MoveState, NotInRegions, AddrsOf, Spares;
      SizedDuringMove(ms0, bs0, free.id, ids, rank, plan, small, metas, bodies, intact, a);
      size := SizeThroughClass(bodies, a);
      if metas[a].mrk {
        NewMoveSpares(ms0, bs0, free.id, ids, rank, plan, small, working.id, AddrsOf(workLay) + others, intact - {a},
          a);
        MoveNewObject(a, ms0, bs0, ids, rank, plan, small, intact);
      } else {
        DeadMove(ms0, bs0, free.id, ids, rank, plan, small, metas, bodies, intact, a);
        Vacate(a);
      }
    }

    // ----- Full collection --------------------------------------------------

    /** Give new storage to the survivors of both spaces, old space first. */
    method ReallocSurvivors(ghost s: State, ghost ms1: Metas)
        returns (it: Iterator, ghost ids: seq<nat>, ghost rank: map<nat, nat>, ghost plan: Plan)
      requires Valid(s) && FullyMarked(s, ms1) && Swept1(s, ms1, metas, bodies, bigFirst, bigs)
      requires working == s.working && free == s.free && olds == s.olds && regions == s.regions
      requires workLay == s.workLay && oldLay == s.oldLay && classes == s.classes
      modifies this`metas, this`olds, this`regions, this`oldLay, this`free
      ensures Replanned(s, old(metas), bodies, metas, ids, rank, plan, olds, oldLay)
      ensures IterAt(it, olds, plan.oldLay) && free.id == s.free.id && free.top == Top(0, plan.toLay) < NEW_END
      ensures forall i {:trigger olds[i]} :: 0 <= i < |olds| ==> olds[i].remembered == Absent
      ensures s.regions <= regions && RankBelow(rank, regions) && 0 !in rank
    {
      hide Sweep, Swept1, FullyMarked, ValidFlags, Progress, OldAddrs, AddrsOf, BigAddrs, Tiled, Occupied, SlidDown,
        InPlace, AllPromoted, SameOutside, Sized,
        PrefixScan, SmallBlocks;
      ghost var ms2, bs2 := metas, bodies;
      StoredAfterSweep(s, ms1, metas, bodies, bigFirst, bigs);
      SizedAfterSweep(s, ms1, metas, bodies, bigFirst, bigs);
      ClassesMarked(s, ms1, metas, bodies, bigFirst, bigs);
      SweepLeaves(s, ms1, metas, bodies, bigFirst, bigs);
      SmallNotBig(s);
      ids, rank := MakeRank(s.working.id, s.free.id, s.olds, s.bigs, s.regions);
      OldChunksTiled(s, ids, rank);
      ghost var scanned;
      it, plan, scanned := ReallocOldSpace(ids, rank, classes);
      ghost var msA, oldsA, itA, idsA, planA, rankA := metas, olds, it, ids, plan, rank;
      it, ids, rank, plan := ReallocNewSpace(it, ms2, ids, rank, plan, scanned);
      ReplanDone(s, ms2, bs2, msA, oldsA, rankA, itA, idsA, planA, metas, ids, rank, plan, free, it, olds, oldLay,
        regions);
    }

    /** Redirect all references of the survivors, and the roots. */
    method UpdateReferences(ghost s: State, ghost ms1: Metas, ghost ms2: Metas, ghost ids: seq<nat>,
        ghost rank: map<nat, nat>, ghost plan: Plan)
      requires Prepared(s, ms1, ms2, bodies, bigFirst, bigs, metas, ids, rank, plan, olds, oldLay)
      requires working == s.working && workLay == s.workLay && roots == s.roots
      modifies this`bodies, this`roots
      ensures Updated(metas, old(bodies), bodies, metas.Keys) && ForwardedValues(metas, s.roots, roots)
    {
      hide Prepared, Updated, UpdateSetting, SmallOnly, BigList, DistinctRegions, OldsStored, WorkingStored,
        ChunksTiled, MetasThen, AddrsOf, OldAddrs,
        BigAddrs, ForwardedValues;
      ghost var bs2 := bodies;
      UpdateReady(s, ms1, ms2, bodies, bigFirst, bigs, metas, ids, rank, plan, olds, oldLay);
      UpdateReady2(s, ms1, ms2, bodies, bigFirst, bigs, metas, ids, rank, plan, olds, oldLay);
      UpdatedStart(metas, bodies);
      UpdateMarkedInNewSpace(bs2, {});
      assert {} + AddrsOf(workLay) == AddrsOf(workLay);
      UpdateMarkedInOldSpace(bs2, AddrsOf(workLay), ids, rank);
      UpdateBigSpace(bs2, AddrsOf(workLay) + OldAddrs(oldLay));
      assert AddrsOf(workLay) + OldAddrs(oldLay) + BigAddrs(bigs) == metas.Keys;
      UpdateRoots();
    }

    /** Move the survivors of both spaces to their new storage, old space first. */
    method MoveSurvivors(ghost s: State, ghost ms1: Metas, ghost ms2: Metas, ghost bs2: Bodies, ghost ids: seq<nat>,
        ghost rank: map<nat, nat>,
        ghost plan: Plan)
      requires Prepared(s, ms1, ms2, bs2, bigFirst, bigs, metas, ids, rank, plan, olds, oldLay) &&
        Updated(metas, bs2, bodies, metas.Keys)
      requires working == s.working && workLay == s.workLay && free.id == s.free.id
      modifies this`metas, this`bodies
      ensures MoveState(old(metas), old(bodies), s.free.id, plan.from, metas, bodies, BigAddrs(bigs))
    {
      hide Prepared, Updated, MoveSetting, OldMoveSetting, NotInRegions, OldsStored, WorkingStored, MoveState,
        AllPromoted, AddrsOf, OldAddrs, BigAddrs;
      ghost var ms3, bs4, small := metas, bodies, SmallAddrs(s);
      MoveReady(s, ms1, ms2, bs2, bigFirst, bigs, metas, ids, rank, plan, olds, oldLay, bodies);
      UpdateReady2(s, ms1, ms2, bs2, bigFirst, bigs, metas, ids, rank, plan, olds, oldLay);
      MoveOldSpace(ms3, bs4, ids, rank, plan, small, AddrsOf(workLay) + BigAddrs(bigs));
      MoveNewSpace(ms3, bs4, ids, rank, plan, small, BigAddrs(bigs));
    }

    method SwapChunks()
      modifies this`working, this`free
      ensures working == old(free) && free == old(working)
    {
      working, free := free, working;
    }

    /** Delete the chunks behind the iterator and let the others end where it has left them. */
    method Truncate(it: Iterator, ghost lays: seq<seq<Block>>)
      requires IterAt(it, olds, lays) && lays != []
      requires forall i {:trigger olds[i]} :: 0 <= i < |olds| ==> olds[i].remembered == Absent
      modifies this`olds
      ensures |lays| <= |old(olds)| && olds == Truncated(old(olds), lays)
    {
      ghost var olds0 := olds;
      olds := olds[..it.index + 1];
      olds := olds[it.index := olds[it.index].(visited := it.point)];
      var i := 0;
      while i < |olds|
        invariant 0 <= i <= |olds| == |lays|
        invariant forall k {:trigger olds[k]} :: 0 <= k < |olds| ==>
          olds[k] == OldChunk(olds0[k].id, if k < i then Top(META_SIZE, lays[k])
            else olds0[k].top, if k < i then 0 else Top(META_SIZE, lays[k]), Absent)
      {
        olds := olds[i := olds[i].(top := olds[i].visited, visited := 0)];
        i := i + 1;
      }
      assert olds == Truncated(olds0, lays);
    }

    /** Swap the chunks of new space, truncate old space: the collection is over. */
    method FinishFull(it: Iterator, ghost s: State, ghost ms1: Metas, ghost ms2: Metas, ghost bs2: Bodies,
        ghost ms3: Metas, ghost bs4: Bodies,
        ghost ids: seq<nat>, ghost rank: map<nat, nat>, ghost plan: Plan)
        returns (ghost f: map<Addr, Addr>)
      requires Finished(s, ms1, ms2, bs2, bigFirst, bigs, ms3, ids, rank, plan, olds, oldLay, bs4, metas, bodies)
      requires ForwardedValues(ms3, s.roots, roots) && IterAt(it, olds, plan.oldLay) && working == s.working &&
        classes == s.classes
      requires free.id == s.free.id && free.top == Top(0, plan.toLay) < NEW_END &&
        bigAllocated == TotalSizeOf(bs2, bigs)
      requires forall i {:trigger olds[i]} :: 0 <= i < |olds| ==> olds[i].remembered == Absent
      requires s.regions <= regions && RankBelow(rank, regions) && 0 !in rank
      modifies this`working, this`free, this`olds, this`workLay, this`oldLay
      ensures Valid(Snapshot()) && HeapPreserved(s, Snapshot(), f) && ClassesKept(s, Snapshot())
      ensures Generational(Snapshot()) <==> NoGap(ms1, s.bodies, MarkedSet(ms1))
      ensures AgedBecomeOld(ms1, Snapshot(), f) && RememberedList(Snapshot()) == []
      ensures AllMid(Snapshot()) && (AllMid(s) ==> workLay == [])
    {
      hide Generational, NoGap, AllMid, AgedBecomeOld, RememberedList, ClassesKept, Settled, Valid, HeapPreserved,
        FullyMarked, Swept1, Replanned, IterAt, Updated, ForwardedValues, MoveState, Truncated, RankBelow, NewPlaces,
        MarkedSet, TotalSizeOf;
      ghost var olds3, lays3 := olds, oldLay;
      ClassesFixed(s, ms1, ms2, bs2, bigFirst, bigs, ms3, ids, rank, plan, olds, oldLay, bs4);
      SwapChunks();
      Truncate(it, plan.oldLay);
      workLay, oldLay := plan.toLay, plan.oldLay;
      SettledNow(s, Snapshot(), ms1, ms2, bs2, ids, rank, plan, olds3, it);
      FullCollectionDone(s, Snapshot(), ms1, ms2, bs2, bigFirst, bigs, ms3, ids, rank, plan, olds3, lays3, bs4);
      FullGenerational(s, Snapshot(), ms1, ms2, bs2, bigFirst, bigs, ms3, ids, rank, plan, olds3, lays3, bs4);
      FullAgeing(s, Snapshot(), ms1, ms2, bs2, bigFirst, bigs, ms3, ids, rank, plan, olds3, lays3, bs4);
      FullClassesKept(s, Snapshot(), ms1, ms2, bs2, bigFirst, bigs, ms3, ids, rank, plan, olds3, lays3, bs4);
      f := NewPlaces(ms3, MarkedSet(ms1));
    }

    /** A full collection: mark, sweep big space, slide old space down, copy new space.
        Afterwards the heap is valid again and is exactly the reachable part of what it was.
        Class objects have not moved.  No old object refers to a young one iff the marking
        left no gap.  Everything in new space has MID, and if that was so before, then new
        space is empty. */
    method GcFull() returns (ghost f: map<Addr, Addr>)
      requires Valid(Snapshot())
      modifies this`metas, this`bodies, this`regions, this`working, this`free, this`olds, this`bigFirst,
        this`bigAllocated, this`roots,
        this`workLay, this`oldLay, this`bigs
      ensures Valid(Snapshot()) && HeapPreserved(old(Snapshot()), Snapshot(), f) &&
        ClassesKept(old(Snapshot()), Snapshot())
      ensures Generational(Snapshot()) <==>
        NoGap(FullMarks(old(Snapshot())), old(bodies), MarkedSet(FullMarks(old(Snapshot()))))
      ensures AgedBecomeOld(FullMarks(old(Snapshot())), Snapshot(), f) && RememberedList(Snapshot()) == []
      ensures YoungWereHeld(old(Snapshot()), Snapshot(), f)
      ensures AllMid(Snapshot()) && (AllMid(old(Snapshot())) ==> workLay == [])
    {
      hide YoungWereHeld, Generational, NoGap, AllMid, AgedBecomeOld, RememberedList, ClassesKept, Valid, HeapPreserved,
        FullyMarked,
        Sweep, Replanned, IterAt, Updated, ForwardedValues, MoveState, BigList, DistinctRegions, BigAddrs,
        VisitAll, Closed, ValuesIn, TotalSize, BigSized, RankBelow, MarkedSet, SmallAddrs;
      ghost var s := Snapshot();
      MarkReady(s);
      VisitValues(roots, Rec);
      ghost var ms1 := metas;
      MarkingDone(s, ms1);
      SweepReady(s, ms1);
      SweepBigSpace();
      ghost var ms2, bs2 := metas, bodies;
      ghost var ids, rank, plan;
      var it;
      it, ids, rank, plan := ReallocSurvivors(s, ms1);
      ghost var ms3 := metas;
      UpdateReferences(s, ms1, ms2, ids, rank, plan);
      ghost var bs4 := bodies;
      MoveSurvivors(s, ms1, ms2, bs2, ids, rank, plan);
      f := FinishFull(it, s, ms1, ms2, bs2, ms3, bs4, ids, rank, plan);
      assert ms1 == FullMarks(s);
      FullStaysYoung(s, Snapshot(), f);
    }

    // ----- Fast collection: marking -----------------------------------------

    /** Visit the young fields of the remembered objects of old space.  The result is the
        number of chunks that have such objects. */
    method MarkRememberedInOldSpace() returns (count: nat)
      requires metas.Keys == bodies.Keys && Closed(bodies) && ListIn(InOldSpace(olds), bodies.Keys)
      modifies this`metas
      ensures metas == MarkRemembered(old(metas), bodies, InOldSpace(olds)) && count == Present(olds)
    {
      count := 0;
      var i := 0;
      while i < |olds|
        invariant 0 <= i <= |olds| && metas.Keys == bodies.Keys && ListIn(InOldSpace(olds[..i]), bodies.Keys)
        invariant metas == MarkRemembered(old(metas), bodies, InOldSpace(olds[..i])) && count == Present(olds[..i])
      {
        NextChunkList(olds, i);
        ListInPart(InOldSpace(olds[..i]), InChunk(olds[i]), InOldSpace(olds), bodies.Keys);
        MarkRememberedSplit(old(metas), bodies, InOldSpace(olds[..i]), InChunk(olds[i]));
        if olds[i].remembered.Offsets? {
          count := count + 1;
          MarkRememberedInChunk(olds[i]);
        }
        i := i + 1;
      }
      assert olds[..i] == olds;
    }

    method MarkRememberedInChunk(c: OldChunk)
      requires metas.Keys == bodies.Keys && Closed(bodies) && ListIn(InChunk(c), bodies.Keys) && c.remembered.Offsets?
      modifies this`metas
      ensures metas == MarkRemembered(old(metas), bodies, InChunk(c))
    {
      ghost var xs := InChunk(c);
      var k := 0;
      while k < |c.remembered.list|
        invariant 0 <= k <= |c.remembered.list| == |xs| && metas.Keys == bodies.Keys && ListIn(xs[..k], bodies.Keys)
        invariant metas == MarkRemembered(old(metas), bodies, xs[..k])
      {
        var a := Addr(c.id, c.remembered.list[k]);
        MarkRememberedNext(old(metas), bodies, xs, k);
        VisitValues(bodies[a].fields, O2Y);
        k := k + 1;
      }
      assert xs[..k] == xs;
    }

    /** Visit the young fields of the remembered big objects.  The result is their number. */
    method MarkRememberedInBigSpace() returns (count: nat)
      requires metas.Keys == bodies.Keys && Closed(bodies) && BigList(metas, bigFirst, bigs) &&
        ListIn(InBigSpace(metas, bigs), bodies.Keys)
      modifies this`metas
      ensures metas == MarkRemembered(old(metas), bodies, InBigSpace(old(metas), bigs)) &&
        count == |InBigSpace(old(metas), bigs)|
    {
      hide MarkRemembered, VisitAll, Closed, InBigSpace;
      count := 0;
      ghost var i := 0;
      MarkRememberedNone(metas, bodies, bigs);
      assert bigs[..0] == [];
      var obj := bigFirst;
      while obj != NULL
        invariant i <= |bigs| && obj == (if i < |bigs| then bigs[i] else NULL)
        invariant metas.Keys == bodies.Keys && ListIn(InBigSpace(old(metas), bigs[..i]), bodies.Keys)
        invariant metas == MarkRemembered(old(metas), bodies, InBigSpace(old(metas), bigs[..i])) &&
          count == |InBigSpace(old(metas), bigs[..i])|
        decreases |bigs| - i
      {
        BigStillThere(old(metas), metas, bodies, bigFirst, bigs, i);
        var next, hasYoung := metas[obj].ptr, metas[obj].tag;
        if hasYoung {
          count := count + 1;
          VisitValues(bodies[obj].fields, O2Y);
        }
        obj := next;
        i := i + 1;
      }
      assert bigs[..i] == bigs;
    }

    // ----- Fast collection: copying -----------------------------------------

    /** Allocate at the end of old space: fails when the last chunk is full. */
    method AllocInOldSpace(size: nat) returns (ok: bool, at: Addr)
      requires olds != []
      modifies this`olds
      ensures ok == (old(olds)[|old(olds)| - 1].top + size < OLD_END)
      ensures
        var last := old(olds)[|old(olds)| - 1];
        if ok then at == Addr(last.id, last.top) && olds == old(olds)[|old(olds)| - 1 := last.(top := last.top + size)]
          else olds == old(olds)
    {
      var last := olds[|olds| - 1];
      at, ok := NULL, last.top + size < OLD_END;
      if ok {
        at := Addr(last.id, last.top);
        olds := olds[|olds| - 1 := last.(top := last.top + size)];
      }
    }

    /** Copy the object at `a` to `d` and leave a forwarding pointer. */
    method CopyTo(a: Addr, d: Addr, m: Meta)
      requires a in metas && a in bodies
      modifies this`metas, this`bodies
      ensures metas == PutMeta(old(metas), old(bodies), d, m, Size(old(bodies)[a]))[a := Redirect(old(metas)[a], d)]
      ensures bodies == PutBody(old(bodies), d, old(bodies)[a])
    {
      var m0, b := metas[a], bodies[a];
      var gone := Clobbered(bodies, d, Size(b));
      metas := (metas - gone)[d := m];
      bodies := (bodies - gone)[d := b];
      metas := metas[a := m0.(ptr := d, tag := false)];
    }

    /** One object of the walk through new space: copied if it is marked.  A promotion fails only
        if the last old chunk could not take all of new space. */
    method CopySurvivor(ghost j: nat, a: Addr, full: bool, ghost olds0: seq<OldChunk>, ghost ms1: Metas,
        ghost src: Metas, ghost bs0: Bodies,
        ghost g: Target, ghost plan: Plan, ghost scanned: set<Addr>)
        returns (size: nat, full': bool, ghost src': Metas, ghost plan': Plan)
      requires CopyState(ms1, src, bs0, g, plan, scanned, metas, bodies) && CopyWalk(g, plan, free, olds0, olds) &&
        AgedPlaces(src, g.toId, scanned, full)
      requires AllSized(bs0) && WorkingStored(bs0, working, workLay) && j < |workLay| && a == workLay[j].at &&
        a !in scanned && free.top <= a.off
      requires olds != [] && olds0 != [] && LastTop(olds) <= LastTop(olds0) + a.off && (full ==> NoRoom(olds0, working))
      modifies this`metas, this`bodies, this`free, this`olds
      ensures size == workLay[j].size && free.top <= a.off + size && (full ==> full')
      ensures CopyState(ms1, src', bs0, g, plan', scanned + {a}, metas, bodies) && CopyWalk(g, plan', free, olds0, olds)
      ensures AgedPlaces(src', g.toId, scanned + {a}, full')
      ensures olds != [] && LastTop(olds) <= LastTop(olds0) + a.off + size && (full' ==> NoRoom(olds0, working))
    {
      hide CopyState, AgedPlaces, AllSized, Tiled, Occupied, PutBody, PutMeta;
      full', src', plan' := full, src, plan;
      BlockSize(bs0, working, workLay, j);
      Original(ms1, src, bs0, g, plan, scanned, metas, bodies, a);
      CopyTiledOf(ms1, src, bs0, g, plan, scanned, metas, bodies);
      size := SizeThroughClass(bodies, a);
      if !metas[a].mrk {
        CopySkip(ms1, src, bs0, g, plan, scanned, metas, bodies, a);
        AgedSkip(src, g.toId, scanned, full, a);
      } else {
        var ok, at, inOld := false, NULL, false;
        if metas[a].mid && !full {
          ok, at := AllocInOldSpace(size);
          inOld, full' := ok, !ok;
        }
        if !ok {
          ok, at := AllocInToSpace(size);
        }
        ghost var b := Block(at, size);
        assert ok && at == NextPlace(g, plan, inOld);
        CopyWalkStep(g, plan, Chunk(g.toId, Top(0, plan.toLay)), olds0,
          olds0[|olds0| - 1 := olds0[|olds0| - 1].(top := Top(g.top, plan.oldLay[0]))], inOld, b, a);
        ghost var ms, bs := metas, bodies;
        CopyTo(a, at, if inOld then Meta(Old, false, false, Addr(at.chunk, 0), false)
          else Meta(Young, true, false, NULL, false));
        CopyStep(ms1, src, bs0, g, plan, scanned, ms, bs, inOld, a, metas, bodies);
        AgedStep(src, g.toId, scanned, full, full', a, at);
        src', plan' := src[a := Redirect(src[a], at)], CopyPlan(plan, inOld, b, a);
      }
    }

    /** Copy the survivors of new space.  The result says whether old space was full. */
    method CopySurvivors(ghost ms1: Metas, ghost g: Target) returns (full: bool, ghost src: Metas, ghost plan: Plan)
      requires metas == ms1 && ms1.Keys == bodies.Keys && AllSized(bodies) && WorkingStored(bodies, working, workLay)
      requires SpaceFree(bodies, g) && g.toId == free.id != g.lastId
      requires olds != [] && g.lastId == olds[|olds| - 1].id && META_SIZE <= g.top == olds[|olds| - 1].top < OLD_END
      modifies this`metas, this`bodies, this`free, this`olds
      ensures CopyState(ms1, src, old(bodies), g, plan, AddrsOf(workLay), metas, bodies)
      ensures CopyWalk(g, plan, free, old(olds), olds) && AgedPlaces(src, g.toId, AddrsOf(workLay), full) &&
        free.top < NEW_END
      ensures full ==> NoRoom(old(olds), working)
    {
      hide CopyState, CopyWalk, AgedPlaces, AllSized, Tiled, Occupied, AddrsOf, SpaceFree;
      ghost var olds0, bs0, lay, j := olds, bodies, workLay, 0;
      free := free.(top := 0);
      full, src, plan := false, ms1, Plan([], [[]], map[]);
      CopyStart(ms1, bs0, g);
      WalkStart(g, free, olds, ms1);
      OffsetInside(working.id, 0, lay, 0);
      AddrsNone();
      assert lay[..0] == [];
      var off := 0;
      while off < working.top
        invariant j <= |lay| && off == OffsetAt(0, lay, j)
        invariant CopyState(ms1, src, bs0, g, plan, AddrsOf(lay[..j]), metas, bodies) &&
          CopyWalk(g, plan, free, olds0, olds)
        invariant AgedPlaces(src, g.toId, AddrsOf(lay[..j]), full) && free.top <= off
        invariant olds != [] && LastTop(olds) <= LastTop(olds0) + off && (full ==> NoRoom(olds0, working))
        decreases |lay| - j
      {
        OffsetInside(working.id, 0, lay, j);
        OffsetNext(working.id, 0, lay, j);
        NotYetInChunk(working.id, 0, lay, j, {});
        var size;
        size, full, src, plan := CopySurvivor(j, Addr(working.id, off), full, olds0, ms1, src, bs0, g, plan,
          AddrsOf(lay[..j]));
        off := off + size;
        j := j + 1;
      }
      OffsetInside(working.id, 0, lay, j);
      assert lay[..j] == lay;
    }

    // ----- Fast collection: updating references -----------------------------

    /** Update the object at `a`, which may have been updated before. */
    method RenewObject(a: Addr, ghost ms0: Metas, ghost bs0: Bodies, ghost done: set<Addr>)
      requires RenewSetting(ms0, bs0) && Renewed(ms0, bs0, bodies, done) && SameButTags(ms0, metas) && a in bodies
      modifies this`bodies
      ensures Renewed(ms0, bs0, bodies, done + {a})
    {
      hide RenewSetting, ForwardedBody, Renewed, BodyIn;
      ghost var bs := bodies;
      BodyDuringRenew(ms0, bs0, bodies, done, a);
      UpdateObject(a);
      ForwardedSame(ms0, metas, bs[a], bodies[a]);
      RenewedStep(ms0, bs0, bs, done, a, bodies[a]);
    }

    /** Update all objects of a chunk from the offset `start` on. */
    method RenewChunk(id: nat, start: nat, top: nat, ghost lay: seq<Block>, ghost bs0: Bodies, ghost done: set<Addr>)
      requires RenewSetting(metas, bs0) && Renewed(metas, bs0, bodies, done)
      requires Tiled(id, start, lay) && Occupied(bs0, lay) && top == Top(start, lay)
      modifies this`bodies
      ensures Renewed(metas, bs0, bodies, done + AddrsOf(lay))
    {
      hide Tiled, AddrsOf, RenewSetting, Renewed, AllSized, SameButTags, Occupied;
      ghost var j, done' := 0, done;
      var off := start;
      OffsetInside(id, start, lay, 0);
      AddrsNone();
      assert lay[..0] == [] && done + {} == done;
      while off < top
        invariant j <= |lay| && off == OffsetAt(start, lay, j)
        invariant Renewed(metas, bs0, bodies, done') && done' == done + AddrsOf(lay[..j])
        decreases |lay| - j
      {
        OffsetInside(id, start, lay, j);
        OffsetNext(id, start, lay, j);
        NotYetInChunk(id, start, lay, j, {});
        OccupiedDuringRenew(metas, bs0, bodies, done', lay);
        KeysDuringRenew(metas, bs0, bodies, done');
        var a := Addr(id, off);
        var size := SizeOf(a, lay, j);
        RenewObject(a, metas, bs0, done');
        done' := done' + {a};
        off := off + size;
        j := j + 1;
      }
      OffsetInside(id, start, lay, j);
      assert lay[..j] == lay;
    }

    /** Update the objects of old space behind a position in its last chunk. */
    method RenewOldSpaceFrom(it: Iterator, ghost lay: seq<Block>, ghost bs0: Bodies, ghost done: set<Addr>)
      requires RenewSetting(metas, bs0) && Renewed(metas, bs0, bodies, done)
      requires 0 <= it.index == |olds| - 1 && olds[it.index].top == Top(it.point, lay) &&
        Tiled(olds[it.index].id, it.point, lay) && Occupied(bs0, lay)
      modifies this`bodies
      ensures Renewed(metas, bs0, bodies, done + AddrsOf(lay))
    {
      hide Tiled, Occupied, AddrsOf, RenewSetting, Renewed;
      var i, start := it.index, it.point;
      while i < |olds|
        invariant it.index <= i <= |olds|
        invariant if i < |olds| then start == it.point && Renewed(metas, bs0, bodies, done)
          else Renewed(metas, bs0, bodies, done + AddrsOf(lay))
      {
        RenewChunk(olds[i].id, start, olds[i].top, lay, bs0, done);
        start := META_SIZE;
        i := i + 1;
      }
    }

    /** Update the remembered objects of old space and forget them.  `hint` is the number
        of chunks that have any. */
    method RenewRememberedInOldSpace(hint: nat, ghost bs0: Bodies, ghost done: set<Addr>)
      requires RenewSetting(metas, bs0) && Renewed(metas, bs0, bodies, done)
      requires ListIn(InOldSpace(olds), bs0.Keys) && hint == Present(olds)
      modifies this`bodies, this`olds
      ensures Renewed(metas, bs0, bodies, done + Elems(InOldSpace(old(olds))))
      ensures |olds| == |old(olds)| && forall k {:trigger olds[k]} ::
        0 <= k < |olds| ==> olds[k] == old(olds)[k].(remembered := Absent)
    {
      hide RenewSetting, Renewed, InChunk, Elems, ListIn, InOldSpace, Present;
      ghost var olds0, done' := olds, done;
      var count := 0;
      var i := 0;
      NoneOfList(olds0);
      ElemsNone();
      assert olds0[..0] == [] && done + Elems([]) == done;
      while i < |olds|
        invariant 0 <= i <= |olds| == |olds0|
        invariant forall k {:trigger olds[k]} ::
          0 <= k < |olds| ==> olds[k] == if k < i then olds0[k].(remembered := Absent) else olds0[k]
        invariant Renewed(metas, bs0, bodies, done') && done' == done + Elems(InOldSpace(olds0[..i])) &&
          count == Present(olds0[..i])
      {
        PrefixOfList(olds0, i);
        if count >= hint { break; }
        NextChunkList(olds0, i);
        if olds[i].remembered.Offsets? {
          count := count + 1;
          ListInPart(InOldSpace(olds0[..i]), InChunk(olds0[i]), InOldSpace(olds0), bs0.Keys);
          RenewRememberedInChunk(olds[i], bs0, done');
          olds := olds[i := olds[i].(remembered := Absent)];
          ElemsAppend(InOldSpace(olds0[..i]), InChunk(olds0[i]));
          done' := done' + Elems(InChunk(olds0[i]));
        } else {
          assert InChunk(olds0[i]) == [] by { NoneInChunk(olds0[i]); }
          assert InOldSpace(olds0[..i]) + InChunk(olds0[i]) == InOldSpace(olds0[..i]);
        }
        i := i + 1;
      }
      PrefixOfList(olds0, i);
      assert i == |olds| ==> olds0[..i] == olds0;
    }

    method RenewRememberedInChunk(c: OldChunk, ghost bs0: Bodies, ghost done: set<Addr>)
      requires RenewSetting(metas, bs0) && Renewed(metas, bs0, bodies, done)
      requires ListIn(InChunk(c), bs0.Keys) && c.remembered.Offsets?
      modifies this`bodies
      ensures Renewed(metas, bs0, bodies, done + Elems(InChunk(c)))
    {
      hide RenewSetting, Renewed;
      ghost var xs, done' := InChunk(c), done;
      assert xs[..0] == [] && done + Elems([]) == done;
      var k := 0;
      while k < |c.remembered.list|
        invariant 0 <= k <= |c.remembered.list| == |xs|
        invariant Renewed(metas, bs0, bodies, done') && done' == done + Elems(xs[..k])
      {
        var a := Addr(c.id, c.remembered.list[k]);
        assert xs[k] == a && a in xs;
        KeysDuringRenew(metas, bs0, bodies, done');
        RenewObject(a, metas, bs0, done');
        assert xs[..k + 1] == xs[..k] + [a];
        ElemsAppend(xs[..k], [a]);
        assert Elems([a]) == {a};
        done' := done' + {a};
        k := k + 1;
      }
      assert xs[..k] == xs;
    }

    /** Update the remembered big objects and clear their has-young bits. */
    method RenewRememberedInBigSpace(hint: nat, ghost bs0: Bodies, ghost done: set<Addr>)
      requires RenewSetting(metas, bs0) && Renewed(metas, bs0, bodies, done) && BigList(metas, bigFirst, bigs) &&
        DistinctRegions(bigs)
      requires hint == |InBigSpace(metas, bigs)|
      modifies this`metas, this`bodies
      ensures Renewed(old(metas), bs0, bodies, done + Elems(InBigSpace(old(metas), bigs)))
      ensures TagsCleared(old(metas), metas, bigs)
    {
      hide RenewSetting, Renewed, TagsCleared, BigList, DistinctRegions, InBigSpace, SameButTags;
      NoneInBigSpace(metas);
      ghost var ms0, i, done' := metas, 0, done;
      assert bigs[..0] == [] && done + Elems([]) == done;
      ClearStart(ms0, bigFirst, bigs);
      var count := 0;
      var obj := bigFirst;
      while obj != NULL
        invariant i <= |bigs| && obj == (if i < |bigs| then bigs[i] else NULL)
        invariant TagsCleared(ms0, metas, bigs[..i]) && count == |InBigSpace(ms0, bigs[..i])|
        invariant Renewed(ms0, bs0, bodies, done') && done' == done + Elems(InBigSpace(ms0, bigs[..i]))
        decreases |bigs| - i
      {
        PrefixOfBigs(ms0, bigs, i);
        if count >= hint { break; }
        ClearNext(ms0, metas, bigFirst, bigs, i);
        KeysDuringRenew(ms0, bs0, bodies, done');
        var next, hasYoung := metas[obj].ptr, metas[obj].tag;
        if hasYoung {
          count := count + 1;
          RenewObject(obj, ms0, bs0, done');
          metas := metas[obj := metas[obj].(tag := false)];
          ElemsAppend(InBigSpace(ms0, bigs[..i]), [obj]);
          assert Elems([obj]) == {obj};
          done' := done' + {obj};
        }
        obj := next;
        i := i + 1;
      }
      PrefixOfBigs(ms0, bigs, i);
      assert i == |bigs| ==> bigs[..i] == bigs;
      ClearDone(ms0, metas, bigFirst, bigs, i);
    }

    // ----- Fast collection --------------------------------------------------

    /** Mark the young objects that are needed: from the roots, then from the remembered
        objects.  The results say how many chunks and big objects were involved. */
    method MarkYoungObjects() returns (chunkCount: nat, bigCount: nat)
      requires Valid(Snapshot())
      modifies this`metas
      ensures metas == FastMarks(old(Snapshot())) && HeldArePlain(old(Snapshot()), metas)
      ensures chunkCount == Present(olds) && bigCount == |InBigSpace(old(metas), bigs)|
    {
      hide Valid, ListIn, MarkRemembered, VisitAll, InOldSpace, InBigSpace, BigList, Closed, ValuesIn, HeldArePlain;
      ghost var s := Snapshot();
      MarkReady(s); FastReady(s);
      FastHeld(s);
      ListParts(s);
      VisitValues(roots, RecY);
      ghost var r1 := metas;
      chunkCount := MarkRememberedInOldSpace();
      ghost var r2 := metas;
      BigsUntouched(s, r1, r2);
      bigCount := MarkRememberedInBigSpace();
      MarkRememberedSplit(r1, bodies, InOldSpace(olds), InBigSpace(s.metas, bigs));
    }

    /** From-space holds no objects any more. */
    method ReleaseFromSpace()
      modifies this`metas, this`bodies
      ensures bodies == old(bodies) - InRegion(old(bodies), free.id) &&
        metas == old(metas) - InRegion(old(bodies), free.id)
    {
      var gone := set a | a in bodies && a.chunk == free.id;
      assert gone == InRegion(bodies, free.id);
      metas, bodies := metas - gone, bodies - gone;
    }

    /** Update the references of the copies, the remembered objects and the roots. */
    method RenewReferences(it: Iterator, chunkCount: nat, bigCount: nat, ghost s: State, ghost ms1: Metas,
        ghost src: Metas, ghost plan: Plan)
        returns (ghost done: set<Addr>)
      requires Copied(s, ms1, src, plan, metas, bodies) && CopyWalk(TargetOf(s), plan, working, s.olds, olds)
      requires it == Iterator(|s.olds| - 1, s.olds[|s.olds| - 1].top) && chunkCount == Present(s.olds) &&
        bigCount == |InBigSpace(s.metas, s.bigs)|
      requires roots == s.roots && bigFirst == s.bigFirst && bigs == s.bigs
      modifies this`metas, this`bodies, this`olds, this`roots
      ensures Renewed(old(metas), old(bodies), bodies, done) && plan.from.Keys + Elems(RememberedList(s)) <= done
      ensures TagsCleared(old(metas), metas, s.bigs) && ForwardedValues(old(metas), s.roots, roots)
      ensures olds == Grown(s.olds, Top(TargetOf(s).top, plan.oldLay[0]))
    {
      hide Copied, CopyWalk, RenewSetting, Renewed, BigList, DistinctRegions, TagsCleared, ForwardedValues, Tiled,
        Occupied, RememberedList, InOldSpace, InBigSpace,
        Elems, ListIn, AddrsOf, OldAddrs, Present, Grown, SameButTags;
      ghost var ms6, bs6 := metas, bodies;
      CopiedReady(s, ms1, src, plan, ms6, bs6);
      CopiedLayout(s, ms1, src, plan, ms6, bs6);
      CopiedRemembered(s, ms1, src, plan, ms6, bs6);
      WalkFacts(TargetOf(s), plan, working, s.olds, olds);
      RenewChunk(working.id, 0, working.top, plan.toLay, bs6, {});
      RenewOldSpaceFrom(it, plan.oldLay[0], bs6, {} + AddrsOf(plan.toLay));
      ghost var olds6 := olds;
      RenewRememberedInOldSpace(chunkCount, bs6, {} + AddrsOf(plan.toLay) + AddrsOf(plan.oldLay[0]));
      RenewRememberedInBigSpace(bigCount, bs6, {} + AddrsOf(plan.toLay) + AddrsOf(plan.oldLay[0]) +
        Elems(InOldSpace(olds6)));
      done := {} + AddrsOf(plan.toLay) + AddrsOf(plan.oldLay[0]) + Elems(InOldSpace(olds6)) +
        Elems(InBigSpace(ms6, bigs));
      AllDone(s, ms1, src, plan, ms6, bs6, olds6, done);
      GrownNow(TargetOf(s), plan, working, s.olds, olds6, olds);
      RootsThere(s, ms1, src, plan, ms6, bs6, metas);
      UpdateRoots();
      ForwardedRoots(ms6, metas, s.bigs, s.roots, roots);
    }

    /** Release from-space: the collection is over. */
    method FinishFast(ghost full: bool, ghost s: State, ghost ms1: Metas, ghost src: Metas, ghost plan: Plan,
        ghost ms6: Metas, ghost bs6: Bodies, ghost done: set<Addr>)
        returns (ghost f: map<Addr, Addr>)
      requires FastFinished(s, ms1, src, plan, ms6, bs6, bodies, done) && TagsCleared(ms6, metas, s.bigs) &&
        ForwardedValues(ms6, s.roots, roots)
      requires |plan.oldLay| == 1 && working == Chunk(s.free.id, Top(0, plan.toLay)) && working.top < NEW_END &&
        free == s.working
      requires AgedPlaces(src, s.free.id, AddrsOf(s.workLay), full)
      requires olds == Grown(s.olds, Top(TargetOf(s).top, plan.oldLay[0])) &&
        Top(TargetOf(s).top, plan.oldLay[0]) < OLD_END
      requires oldLay == s.oldLay && bigs == s.bigs && bigFirst == s.bigFirst && bigAllocated == s.bigAllocated &&
        regions == s.regions && classes == s.classes
      modifies this`metas, this`bodies, this`workLay, this`oldLay
      ensures Valid(Snapshot()) && YoungPreserved(s, Snapshot(), f) && ClassesKept(s, Snapshot())
      ensures !full ==>
        (Generational(Snapshot()) <==> NoGap(ms1, s.bodies, Kept1(s, ms1))) && AgedBecomeOld(ms1, Snapshot(), f)
      ensures f.Keys == Kept1(s, ms1) && RememberedList(Snapshot()) == []
      ensures AllMid(Snapshot()) && (AllMid(s) && !full ==> workLay == [])
    {
      hide NoGap, AllMid, AgedBecomeOld, ClassesKept, AgedPlaces, AddrsOf, FastSettled, Valid, Copied, Renewed,
        ForwardedValues, RememberedList, YoungPreserved, Generational, Elems, Grown, InRegion, TagsCleared;
      ghost var ms7, bs7 := metas, bodies;
      LayoutsKnown(s, ms1, src, plan, ms6, bs6, bodies, metas, done);
      ReleaseFromSpace();
      workLay, oldLay := plan.toLay, GrownLay(oldLay, plan.oldLay[0]);
      assert FastSettled(s, Snapshot(), plan, ms6, ms7, bs7) by {
        FastSettledNow(s, Snapshot(), plan, ms6, ms7, bs7);
      }
      FastCollectionDone(s, Snapshot(), ms1, src, plan, ms6, bs6, ms7, bs7, done);
      RenewedKeys(ms6, bs6, bs7, done);
      if !full { FastGenerational(s, Snapshot(), ms1, src, plan, ms6, bs6, ms7, bs7, full); }
      FastAgeing(s, Snapshot(), ms1, src, plan, ms6, bs6, ms7, bs7, full);
      CopiedValid(s, ms1, src, plan, ms6, bs6);
      FastClassesKept(s, Snapshot(), plan, ms6, ms7, bs7);
      NewPlacesAre(src, Kept1(s, ms1));
      f := NewPlaces(src, Kept1(s, ms1));
    }

    /** Mark and copy the young objects that are needed. */
    method EvacuateYoung() returns (full: bool, chunkCount: nat, bigCount: nat, ghost src: Metas, ghost plan: Plan)
      requires Valid(Snapshot()) && olds != []
      modifies this`metas, this`bodies, this`free, this`olds
      ensures Copied(old(Snapshot()), FastMarks(old(Snapshot())), src, plan, metas, bodies)
      ensures CopyWalk(TargetOf(old(Snapshot())), plan, free, old(olds), olds) && free.top < NEW_END
      ensures AgedPlaces(src, old(free).id, AddrsOf(workLay), full) &&
        (full ==> old(olds) != [] && NoRoom(old(olds), working))
      ensures chunkCount == Present(old(olds)) && bigCount == |InBigSpace(old(metas), bigs)|
    {
      hide Valid, Copied, YoungMarked, ListIn, AllSized, WorkingStored, SpaceFree, CopyState, AgedPlaces, Present,
        InBigSpace, CopyWalk, FastMarks;
      ghost var s := Snapshot();
      FastReady(s);
      TargetFree(s);
      chunkCount, bigCount := MarkYoungObjects();
      FastMarksDone(s);
      ghost var ms1 := metas;
      full, src, plan := CopySurvivors(ms1, TargetOf(s));
      NowCopied(s, ms1, src, plan, metas, bodies);
    }

    /** A fast collection: mark the young objects that are needed, copy them, update the
        references of whatever may refer to them.  Old objects stay where they are.  The
        heap is valid again, provided every old object that refers to a young one was
        remembered.  Unless old space was full, which forces the next collection to be a full
        one, no old object refers to a young one afterwards iff the marking left no gap. */
    method GcFast() returns (full: bool, ghost f: map<Addr, Addr>)
      requires Valid(Snapshot()) && Generational(Snapshot())
      modifies this`metas, this`bodies, this`working, this`free, this`olds, this`roots, this`forceFull, this`workLay,
        this`oldLay
      ensures Valid(Snapshot()) && YoungPreserved(old(Snapshot()), Snapshot(), f) &&
        ClassesKept(old(Snapshot()), Snapshot())
      ensures forceFull == (old(forceFull) || full) && (full ==> old(olds) != [] && NoRoom(old(olds), old(working)))
      ensures !full ==> AgedBecomeOld(FastMarks(old(Snapshot())), Snapshot(), f)
      ensures !full ==> HeldStayYoung(old(Snapshot()), Snapshot(), f)
      ensures RememberedList(Snapshot()) == [] && f.Keys == Kept1(old(Snapshot()), FastMarks(old(Snapshot())))
      ensures !full ==>
        (Generational(Snapshot()) <==>
        NoGap(FastMarks(old(Snapshot())), old(bodies), Kept1(old(Snapshot()), FastMarks(old(Snapshot())))))
      ensures AllMid(Snapshot()) && (AllMid(old(Snapshot())) && !full ==> workLay == [])
    {
      hide NoGap, FastMarks, AllMid, AgedBecomeOld, ClassesKept, Isomorphic, Valid, Generational, Copied, Renewed,
        TagsCleared, ForwardedValues, RememberedList,
        AgedPlaces, Elems, Grown, Present, InBigSpace, YoungPreserved, AddrsOf, HeldStayYoung, Kept1;
      ghost var s := Snapshot();
      TargetFree(s);
      var it := Iterator(|olds| - 1, olds[|olds| - 1].top);
      var chunkCount, bigCount;
      ghost var src, plan;
      full, chunkCount, bigCount, src, plan := EvacuateYoung();
      if full {
        forceFull := true;
      }
      ghost var ms1, ms6, bs6 := FastMarks(s), metas, bodies;
      SwapChunks();
      ghost var done := RenewReferences(it, chunkCount, bigCount, s, ms1, src, plan);
      f := FinishFast(full, s, ms1, src, plan, ms6, bs6, done);
      if !full { FastStaysYoung(s, Snapshot(), f); }
    }

    // ----- The mutator ------------------------------------------------------

    /** Remember the old object at `a`. */
    method RecordYoungReference(a: Addr)
      requires Valid(Snapshot()) && a in bodies && a in metas && metas[a].gen.Old?
      modifies this`metas, this`olds
      ensures Valid(Snapshot()) && OneMoreRemembered(old(Snapshot()), Snapshot(), a)
      ensures metas.Keys == old(metas).Keys && forall x {:trigger metas[x]} ::
        x in metas ==> metas[x].(tag := old(metas)[x].tag) == old(metas)[x]
    {
      hide Valid, OneMoreRemembered;
      ghost var s := Snapshot();
      OldPlaces(s, a);
      if metas[a].mid {
        ghost var m := metas[a].(tag := true);
        if !metas[a].tag {
          metas := metas[a := metas[a].(tag := true)];
        }
        assert metas == s.metas[a := m];
        RecordedBig(s, Snapshot(), a);
      } else {
        var id := metas[a].ptr.chunk;
        var i := 0;
        while olds[i].id != id
          invariant 0 <= i < |olds| && exists k :: i <= k < |olds| && olds[k].id == id
          decreases |olds| - i
        {
          i := i + 1;
        }
        var list := if olds[i].remembered.Offsets? then olds[i].remembered.list else [];
        olds := olds[i := olds[i].(remembered := Offsets(Record(list, a.off)))];
        RecordedSmall(s, Snapshot(), i, a);
      }
    }

    /** The write barrier, after one of `vals` has been stored into the object at `a`. */
    method WriteBarrier(a: Addr, vals: seq<Value>)
      requires Valid(Snapshot()) && a in bodies && a in metas && ValuesIn(vals, metas.Keys)
      modifies this`metas, this`olds
      ensures Valid(Snapshot())
      ensures
        if old(metas)[a].gen.Old? && exists k :: 0 <= k < |vals| && vals[k].Ref? && old(metas)[vals[k].at].gen.Young?
        then OneMoreRemembered(old(Snapshot()), Snapshot(), a) else Snapshot() == old(Snapshot())
      ensures metas.Keys == old(metas).Keys && forall x {:trigger metas[x]} ::
        x in metas ==> metas[x].(tag := old(metas)[x].tag) == old(metas)[x]
    {
      hide Valid, OneMoreRemembered;
      if !metas[a].gen.Old? { return; }
      var k := 0;
      while k < |vals|
        invariant 0 <= k <= |vals|
        invariant forall m :: 0 <= m < k ==> !(vals[m].Ref? && metas[vals[m].at].gen.Young?)
        invariant metas == old(metas) && Snapshot() == old(Snapshot())
      {
        assert vals[k] in vals;
        if vals[k].Ref? && !metas[vals[k].at].gen.Old? {
          RecordYoungReference(a);
          return;
        }
        k := k + 1;
      }
    }

    /** Store a value into a field.  The heap stays valid, and every old object that refers
        to a young one stays remembered. */
    method SetField(a: Addr, i: nat, v: Value)
      requires Valid(Snapshot()) && a in bodies && i < |bodies[a].fields| && (v.Ref? ==> v.at in bodies)
      modifies this`metas, this`bodies, this`olds
      ensures Valid(Snapshot()) && (Generational(old(Snapshot())) ==> Generational(Snapshot()))
      ensures bodies == old(bodies)[a := old(bodies)[a].(fields := old(bodies)[a].fields[i := v])]
      ensures a in old(metas) && (v.Ref? ==> v.at in old(metas)) &&
        if old(metas)[a].gen.Old? && v.Ref? && old(metas)[v.at].gen.Young?
        then OneMoreRemembered(old(Snapshot()), Snapshot(), a) else Snapshot() == FieldSet(old(Snapshot()), a, i, v)
    {
      hide Valid, Generational, OneMoreRemembered, RememberedList;
      ghost var s := Snapshot();
      MarkReady(s);
      FieldSetValid(s, a, i, v);
      bodies := bodies[a := bodies[a].(fields := bodies[a].fields[i := v])];
      ghost var s1 := Snapshot();
      assert [v][0] == v && metas.Keys == bodies.Keys;
      WriteBarrier(a, [v]);
      RememberedSame(s, s1, Snapshot(), a);
      RememberedAtLeast(s, s1, Snapshot(), a, v);
      if Generational(s) { FieldSetGenerational(s, Snapshot(), a, i, v); }
    }

    // ----- Allocation -------------------------------------------------------

    /** Allocate a young object; fails if the working chunk has no room. */
    method TryAllocYoung(b: Body) returns (ok: bool, at: Addr)
      requires Valid(Snapshot()) && NewBody(Snapshot(), b) && IsClass(Snapshot(), b.cls) && Size(b) <= MAX_SMALL
      modifies this`metas, this`bodies, this`working, this`workLay
      ensures ok == (old(working).top + Size(b) < NEW_END) && (!ok ==> Snapshot() == old(Snapshot()))
      ensures ok ==>
        at == Addr(old(working).id, old(working).top) && at !in old(bodies) &&
        Snapshot() == GrownYoung(old(Snapshot()), b)
      ensures Valid(Snapshot()) && (Generational(old(Snapshot())) ==> Generational(Snapshot()))
    {
      hide Valid, Generational, IsClass, NewBody;
      ghost var s := Snapshot();
      at, ok := NULL, working.top + Size(b) < NEW_END;
      if ok {
        GrownYoungValid(s, b);
        at := Addr(working.id, working.top);
        working := working.(top := working.top + Size(b));
        metas := metas[at := Meta(Young, false, false, NULL, false)];
        bodies := bodies[at := b];
        workLay := workLay + [Block(at, Size(b))];
      }
    }

    /** Allocate an object that is expected to live long; fails if the last chunk is full. */
    method TryAllocOld(b: Body) returns (ok: bool, at: Addr)
      requires Valid(Snapshot()) && NewBody(Snapshot(), b) && IsClass(Snapshot(), b.cls) && Size(b) <= MAX_SMALL
      requires olds != [] && |oldLay| == |olds|
      modifies this`metas, this`bodies, this`olds, this`oldLay
      ensures ok == (old(olds)[|old(olds)| - 1].top + Size(b) < OLD_END) && (!ok ==> Snapshot() == old(Snapshot()))
      ensures ok ==>
        at == Addr(old(olds)[|old(olds)| - 1].id, old(olds)[|old(olds)| - 1].top) && at !in old(bodies) &&
        Snapshot() == GrownOld(old(Snapshot()), b)
      ensures Valid(Snapshot()) && (Generational(old(Snapshot())) ==> Generational(Snapshot()))
    {
      hide Valid, Generational, IsClass, NewBody;
      ghost var s := Snapshot();
      ok, at := AllocInOldSpace(Size(b));
      if ok {
        GrownOldValid(s, b);
        metas := metas[at := Meta(Old, false, false, Addr(at.chunk, 0), false)];
        bodies := bodies[at := b];
        oldLay := oldLay[|oldLay| - 1 := oldLay[|oldLay| - 1] + [Block(at, Size(b))]];
      }
    }

    /** Allocate a big object in a region of its own; fails above the threshold. */
    method TryAllocBig(b: Body) returns (ok: bool, at: Addr)
      requires Valid(Snapshot()) && NewBody(Snapshot(), b) && IsClass(Snapshot(), b.cls)
      modifies this`metas, this`bodies, this`regions, this`bigFirst, this`bigAllocated, this`bigs
      ensures ok == (old(bigAllocated) + Size(b) <= bigThreshold) && (!ok ==> Snapshot() == old(Snapshot()))
      ensures ok ==> at == Addr(old(regions) + 1, 0) && at !in old(bodies) && Snapshot() == GrownBig(old(Snapshot()), b)
      ensures Valid(Snapshot()) && (Generational(old(Snapshot())) ==> Generational(Snapshot()))
    {
      hide Valid, Generational, IsClass, NewBody, Size;
      ghost var s := Snapshot();
      at, ok := NULL, bigAllocated + Size(b) <= bigThreshold;
      if ok {
        GrownBigValid(s, b);
        bigAllocated := bigAllocated + Size(b);
        regions := regions + 1;
        at := Addr(regions, 0);
        metas := metas[at := Meta(Old, true, false, bigFirst, false)];
        bodies := bodies[at := b];
        bigFirst := at;
        bigs := [at] + bigs;
      }
    }

    // ----- Collections ------------------------------------------------------

    /** What a collection can rely on: every old object that refers to a young one is
        remembered, or the collection is going to be a full one. */
    ghost predicate Safe()
      reads this
    {
      Valid(Snapshot()) && (forceFull || Generational(Snapshot()))
    }

    /** Run a collection, unless that is forbidden at the moment.  Any program finds the
        same heap afterwards.  Things are safe again iff the marking left no gap, or old
        space was full so that the next collection is a full one. */
    method Gc(request: Request) returns (done: Done, ghost f: map<Addr, Addr>)
      requires Safe()
      modifies this`metas, this`bodies, this`regions, this`working, this`free, this`olds, this`bigFirst,
        this`bigAllocated, this`roots,
        this`forceFull, this`workLay, this`oldLay, this`bigs
      ensures done ==
        (if noGcCount > 0 then Nothing else if old(forceFull) || request == Full then FullDone else FastDone)
      ensures done == Nothing ==> Snapshot() == old(Snapshot()) && forceFull == old(forceFull)
      ensures Valid(Snapshot()) && ClassesKept(old(Snapshot()), Snapshot())
      ensures done == FullDone ==> HeapPreserved(old(Snapshot()), Snapshot(), f) && !forceFull
      ensures done == FastDone ==> YoungPreserved(old(Snapshot()), Snapshot(), f)
      ensures done == FullDone ==>
        (Safe() <==> NoGap(FullMarks(old(Snapshot())), old(bodies), MarkedSet(FullMarks(old(Snapshot())))))
      ensures done == FastDone ==>
        (Safe() <==>
          forceFull || NoGap(FastMarks(old(Snapshot())), old(bodies),
          Kept1(old(Snapshot()), FastMarks(old(Snapshot())))))
      ensures done == FullDone ==> AgedBecomeOld(FullMarks(old(Snapshot())), Snapshot(), f)
      ensures done == FullDone ==> YoungWereHeld(old(Snapshot()), Snapshot(), f)
      ensures done == FastDone ==>
        if forceFull then old(olds) != [] && NoRoom(old(olds), old(working))
        else AgedBecomeOld(FastMarks(old(Snapshot())), Snapshot(), f) && HeldStayYoung(old(Snapshot()), Snapshot(), f)
      ensures done != Nothing ==> RememberedList(Snapshot()) == []
      ensures done == FullDone ==> AllMid(Snapshot()) && (AllMid(old(Snapshot())) ==> workLay == [])
      ensures done == FastDone ==> AllMid(Snapshot()) && (AllMid(old(Snapshot())) ==> workLay == [] || forceFull)
    {
      hide Valid, Generational, NoGap, HeapPreserved, YoungPreserved, AllMid, AgedBecomeOld, RememberedList, NoRoom,
        FullMarks, FastMarks, MarkedSet, Kept1, HeldStayYoung, YoungWereHeld;
      f := map[];
      var type_ := request;
      if noGcCount > 0 {
        SameClasses(Snapshot());
        done := Nothing;
        return;
      }
      if forceFull {
        forceFull := false;
        type_ := Full;
      } else if type_ == Auto {
        type_ := Fast;
      }
      if type_ == Fast {
        var full;
        full, f := GcFast();
        done := FastDone;
      } else {
        f := GcFull();
        done := FullDone;
      }
    }
  }
}
