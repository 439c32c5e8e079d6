/** Redirecting references to new storage. */
module Updating {
  import opened ObjectHeap
  import opened Layout
  import opened Spaces
  import opened BigSpace

  /** What the move visit makes of a reference: the PTR of a marked target is followed. */
  function Forwarded(ms: Metas, v: Value): Value
  {
    if v.Ref? && v.at in ms && ms[v.at].mrk then Ref(ms[v.at].ptr) else v
  }

  ghost predicate ForwardedValues(ms: Metas, vs: seq<Value>, vs': seq<Value>)
  {
    |vs'| == |vs| && forall i {:trigger vs'[i]} :: 0 <= i < |vs| ==> vs'[i] == Forwarded(ms, vs[i])
  }

  ghost predicate ForwardedBody(ms: Metas, b: Body, b': Body)
  {
    b'.data == b.data && b'.count == b.count && Ref(b'.cls) == Forwarded(ms, Ref(b.cls)) &&
    ForwardedValues(ms, b.fields, b'.fields)
  }

  /** The survivors: marked objects, and the big objects that are left after the sweep. */
  predicate Live(m: Meta)
  {
    m.mrk || IsBig(m)
  }

  /** OLD with the bit that means MID in a young object. */
  predicate IsBig(m: Meta)
  {
    m.gen.Old? && m.mid
  }

  ghost predicate SmallOnly(ms: Metas, s: set<Addr>)
  {
    forall a {:trigger ms[a]} :: a in s && a in ms ==> !IsBig(ms[a])
  }

  /** The survivors refer to objects that are still there. */
  ghost predicate LiveClosed(ms: Metas, bs: Bodies)
  {
    ms.Keys == bs.Keys &&
    forall a {:trigger BodyIn(bs[a], ms.Keys)} :: a in bs && Live(ms[a]) ==> BodyIn(bs[a], ms.Keys)
  }

  /** The class of `b` keeps its address. */
  predicate ClassStays(ms: Metas, b: Body)
  {
    Forwarded(ms, Ref(b.cls)) == Ref(b.cls)
  }

  ghost predicate ClassesStay(ms: Metas, bs: Bodies)
  {
    forall a {:trigger ClassStays(ms, bs[a])} :: a in bs ==> ClassStays(ms, bs[a])
  }

  /** The survivors among `done` have been updated, once; nothing else has changed. */
  ghost predicate Updated(ms: Metas, bs0: Bodies, bs: Bodies, done: set<Addr>)
  {
    bs.Keys == bs0.Keys &&
    forall a {:trigger bs[a]} :: a in bs ==>
      if a in done && a in ms && Live(ms[a]) then ForwardedBody(ms, bs0[a], bs[a]) else bs[a] == bs0[a]
  }

  /** What the updates rely on. */
  ghost predicate UpdateSetting(ms: Metas, bs: Bodies)
  {
    LiveClosed(ms, bs) && AllSized(bs) && ClassesStay(ms, bs)
  }

  lemma UpdatedStart(ms: Metas, bs: Bodies)
    ensures Updated(ms, bs, bs, {})
  {
  }

  lemma UpdatedStep(ms: Metas, bs0: Bodies, bs: Bodies, done: set<Addr>, a: Addr, b: Body)
    requires Updated(ms, bs0, bs, done) && a in bs && a in ms && a !in done
    requires if Live(ms[a]) then ForwardedBody(ms, bs[a], b) else b == bs[a]
    ensures Updated(ms, bs0, bs[a := b], done + {a})
  {
  }

  /** Sizes can be read all the time, because classes neither move nor change. */
  lemma SizedDuringUpdate(ms: Metas, bs0: Bodies, bs: Bodies, done: set<Addr>)
    requires UpdateSetting(ms, bs0) && Updated(ms, bs0, bs, done)
    ensures AllSized(bs)
    ensures forall a {:trigger bs[a]} :: a in bs ==> Size(bs[a]) == Size(bs0[a])
  {
    forall a | a in bs ensures Sized(bs, a) {
      SizedAfterUpdate(ms, bs0, bs, done, a);
    }
  }

  lemma SizedAfterUpdate(ms: Metas, bs0: Bodies, bs: Bodies, done: set<Addr>, a: Addr)
    requires AllSized(bs0) && ClassesStay(ms, bs0) && Updated(ms, bs0, bs, done) && a in bs
    ensures Sized(bs, a)
  {
    assert Sized(bs0, a) && ClassStays(ms, bs0[a]);
    var c := bs0[a].cls;
    assert bs[a].cls == c;
    assert bs[c].data == bs0[c].data;
  }

  lemma OccupiedDuringUpdate(ms: Metas, bs0: Bodies, bs: Bodies, done: set<Addr>, lay: seq<Block>)
    requires UpdateSetting(ms, bs0) && Updated(ms, bs0, bs, done) && Occupied(bs0, lay)
    ensures Occupied(bs, lay) && AllSized(bs)
  {
    SizedDuringUpdate(ms, bs0, bs, done);
  }

  /** The references of an object that has not been updated yet. */
  lemma NotYetUpdated(ms: Metas, bs0: Bodies, bs: Bodies, done: set<Addr>, a: Addr)
    requires UpdateSetting(ms, bs0) && Updated(ms, bs0, bs, done) && a in bs && a !in done && Live(ms[a])
    ensures BodyIn(bs[a], ms.Keys)
  {
    assert BodyIn(bs0[a], ms.Keys);
  }

  lemma SettingKeys(ms: Metas, bs0: Bodies, bs: Bodies, done: set<Addr>)
    requires UpdateSetting(ms, bs0) && Updated(ms, bs0, bs, done)
    ensures ms.Keys == bs0.Keys == bs.Keys
  {
  }

  lemma SmallSubset(ms: Metas, s: set<Addr>, t: set<Addr>)
    requires SmallOnly(ms, s) && t <= s
    ensures SmallOnly(ms, t)
  {
  }

  lemma OldsStoredCount(bs: Bodies, olds: seq<OldChunk>, lays: seq<seq<Block>>)
    requires OldsStored(bs, olds, lays)
    ensures |lays| == |olds|
  {
  }

  lemma StoredAt(bs: Bodies, olds: seq<OldChunk>, lays: seq<seq<Block>>, i: nat)
    requires OldsStored(bs, olds, lays) && i < |olds|
    ensures i < |lays| && Stored(bs, olds[i].id, META_SIZE, olds[i].top, OLD_END, lays[i])
  {
  }

  /** The objects of chunk `i` are not among those of the chunks before it. */
  lemma ChunkApart(ids: seq<nat>, rank: map<nat, nat>, lays: seq<seq<Block>>, i: nat, done: set<Addr>)
    requires ChunksTiled(ids, rank, lays) && i < |lays| && OldAddrs(lays) !! done
    ensures AddrsOf(lays[i]) !! done + OldAddrs(lays[..i]) && AddrsOf(lays[i]) <= OldAddrs(lays)
  {
    forall a | a in AddrsOf(lays[i]) ensures a !in OldAddrs(lays[..i]) && a in OldAddrs(lays) {
      var j :| 0 <= j < |lays[i]| && lays[i][j].at == a;
      NotYetScanned(ids, rank, lays, i, j);
    }
  }

  lemma ScanNone(lays: seq<seq<Block>>)
    ensures OldAddrs(lays[..0]) == {}
  {
  }

  lemma BigNone()
    ensures BigAddrs([]) == {}
  {
  }

  lemma BigStep(bigs: seq<Addr>, i: nat, done: set<Addr>)
    requires i < |bigs| && BigAddrs(bigs) !! done && DistinctRegions(bigs)
    ensures BigAddrs(bigs[..i + 1]) == BigAddrs(bigs[..i]) + {bigs[i]} && bigs[i] !in done + BigAddrs(bigs[..i])
  {
    var a := bigs[i];
    assert a in BigAddrs(bigs);
    forall x | x in BigAddrs(bigs[..i]) ensures x != a {
      var k :| 0 <= k < i && bigs[..i][k] == x;
      Different(bigs, k, i);
    }
    assert bigs[..i + 1] == bigs[..i] + [a];
    forall x ensures x in BigAddrs(bigs[..i + 1]) <==> x in BigAddrs(bigs[..i]) || x == a {
      BigAddrsAppend(bigs[..i], a, x);
    }
  }
}
