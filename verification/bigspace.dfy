/** Big space: what a sweep of its list keeps. */
module BigSpace {
  import opened ObjectHeap
  import opened Layout
  import opened Spaces

  /** The marked objects, in list order. */
  function Kept(ms: Metas, bigs: seq<Addr>): (r: seq<Addr>)
    requires forall k {:trigger bigs[k]} :: 0 <= k < |bigs| ==> bigs[k] in ms
  {
    if bigs == [] then []
    else if ms[bigs[0]].mrk then [bigs[0]] + Kept(ms, bigs[1..])
    else Kept(ms, bigs[1..])
  }

  /** The marked ones are kept, all of them and no others. */
  lemma {:induction false} KeptMembers(ms: Metas, bigs: seq<Addr>, a: Addr)
    requires forall k {:trigger bigs[k]} :: 0 <= k < |bigs| ==> bigs[k] in ms
    ensures a in BigAddrs(Kept(ms, bigs)) <==> a in BigAddrs(bigs) && ms[a].mrk
  {
    if bigs != [] {
      KeptMembers(ms, bigs[1..], a);
      var rest := Kept(ms, bigs[1..]);
      BigAddrsHead(bigs, a);
      if ms[bigs[0]].mrk {
        assert Kept(ms, bigs)[1..] == rest;
        BigAddrsHead(Kept(ms, bigs), a);
      }
    }
  }

  lemma BigAddrsHead(bigs: seq<Addr>, a: Addr)
    requires bigs != []
    ensures a in BigAddrs(bigs) <==> a == bigs[0] || a in BigAddrs(bigs[1..])
  {
    if a in BigAddrs(bigs) && a != bigs[0] {
      var k :| 0 <= k < |bigs| && bigs[k] == a;
      assert bigs[1..][k - 1] == a;
    }
    if a in BigAddrs(bigs[1..]) {
      var k :| 0 <= k < |bigs[1..]| && bigs[1..][k] == a;
      assert bigs[k + 1] == a;
    }
  }

  ghost predicate DistinctRegions(bigs: seq<Addr>)
  {
    forall j, k {:trigger Before(j, k)} :: 0 <= j && Before(j, k) && k < |bigs| ==> bigs[j].chunk != bigs[k].chunk
  }

  lemma {:induction false} KeptDistinct(ms: Metas, bigs: seq<Addr>)
    requires forall k {:trigger bigs[k]} :: 0 <= k < |bigs| ==> bigs[k] in ms
    requires DistinctRegions(bigs)
    ensures DistinctRegions(Kept(ms, bigs))
  {
    if bigs != [] {
      var rest := bigs[1..];
      forall j, k | 0 <= j && Before(j, k) && k < |rest| ensures rest[j].chunk != rest[k].chunk {
        assert Before(j + 1, k + 1);
      }
      KeptDistinct(ms, rest);
      var kept := Kept(ms, bigs);
      if ms[bigs[0]].mrk {
        forall j, k | 0 <= j && Before(j, k) && k < |kept| ensures kept[j].chunk != kept[k].chunk {
          if j == 0 {
            var a := kept[k];
            assert a == Kept(ms, rest)[k - 1] && a in BigAddrs(Kept(ms, rest));
            KeptMembers(ms, rest, a);
            var i :| 0 <= i < |rest| && rest[i] == a;
            assert Before(0, i + 1);
          } else {
            assert Before(j - 1, k - 1);
          }
        }
      }
    }
  }

  lemma {:induction false} KeptAppend(ms: Metas, bigs: seq<Addr>, a: Addr)
    requires forall k {:trigger bigs[k]} :: 0 <= k < |bigs| ==> bigs[k] in ms
    requires a in ms
    ensures forall k {:trigger (bigs + [a])[k]} :: 0 <= k < |bigs + [a]| ==> (bigs + [a])[k] in ms
    ensures Kept(ms, bigs + [a]) == Kept(ms, bigs) + (if ms[a].mrk then [a] else [])
  {
    if bigs == [] {
    } else {
      assert (bigs + [a])[1..] == bigs[1..] + [a];
      KeptAppend(ms, bigs[1..], a);
    }
  }

  /** The bytes the objects of a list occupy together. */
  function TotalSize(bs: Bodies, bigs: seq<Addr>): nat
    requires forall k {:trigger bigs[k]} :: 0 <= k < |bigs| ==> bigs[k] in bs
  {
    if bigs == [] then 0 else Size(bs[bigs[0]]) + TotalSize(bs, bigs[1..])
  }

  lemma {:induction false} TotalSizeAppend(bs: Bodies, xs: seq<Addr>, ys: seq<Addr>)
    requires forall k {:trigger xs[k]} :: 0 <= k < |xs| ==> xs[k] in bs
    requires forall k {:trigger ys[k]} :: 0 <= k < |ys| ==> ys[k] in bs
    ensures forall k {:trigger (xs + ys)[k]} :: 0 <= k < |xs + ys| ==> (xs + ys)[k] in bs
    ensures TotalSize(bs, xs + ys) == TotalSize(bs, xs) + TotalSize(bs, ys)
  {
    if xs == [] {
      assert xs + ys == ys;
    } else {
      assert (xs + ys)[1..] == xs[1..] + ys;
      TotalSizeAppend(bs, xs[1..], ys);
    }
  }

  lemma {:induction false} TotalSizeSame(bs: Bodies, bs': Bodies, bigs: seq<Addr>)
    requires forall k {:trigger bigs[k]} ::
      0 <= k < |bigs| ==> bigs[k] in bs && bigs[k] in bs' && Size(bs[bigs[k]]) == Size(bs'[bigs[k]])
    ensures TotalSize(bs, bigs) == TotalSize(bs', bigs)
  {
    if bigs != [] { TotalSizeSame(bs, bs', bigs[1..]); }
  }

  /** The size of `a` can be read through a class that is not a big object itself. */
  predicate BigSized(bs: Bodies, bigs: seq<Addr>, a: Addr)
  {
    a in bs && Sized(bs, a) && bs[a].cls !in BigAddrs(bigs)
  }

  /** The unmarked objects of the list. */
  function Swept(ms: Metas, bigs: seq<Addr>): set<Addr>
  {
    set a | a in BigAddrs(bigs) && a in ms && !ms[a].mrk
  }

  /** The meta of a big object that a sweep has passed and kept. */
  predicate Reset(m: Meta)
  {
    m.gen.Old? && m.mid && !m.mrk && !m.tag
  }

  /** The objects `done` are reset and linked up; the link of the last one is left open. */
  ghost predicate Chained(ms: Metas, done: seq<Addr>)
  {
    forall k {:trigger done[k]} :: 0 <= k < |done| ==>
      done[k] in ms && done[k] != NULL && Reset(ms[done[k]]) &&
      (k < |done| - 1 ==> ms[done[k]].ptr == done[k + 1])
  }

  /** Between two steps of the sweep over `bigs`, of which `i` objects are done: the kept
      ones are chained, the others are as they were. */
  ghost predicate SweepPoint(ms0: Metas, bs0: Bodies, bigs: seq<Addr>, i: nat, ms: Metas, bs: Bodies, done: seq<Addr>)
    requires ms0.Keys == bs0.Keys && BigAddrs(bigs) <= ms0.Keys
    requires i <= |bigs|
  {
    KeptUpTo(ms0, bigs, i, done) &&
    bs == bs0 - Swept(ms0, bigs[..i]) && ms.Keys == bs.Keys &&
    (forall k {:trigger bigs[k]} :: i <= k < |bigs| ==> bigs[k] in ms && ms[bigs[k]] == ms0[bigs[k]]) &&
    Chained(ms, done) &&
    (forall a {:trigger ms[a]} :: a in ms && a !in BigAddrs(bigs) ==> ms[a] == ms0[a])
  }

  ghost predicate KeptUpTo(ms: Metas, bigs: seq<Addr>, i: nat, done: seq<Addr>)
    requires i <= |bigs|
  {
    (forall k {:trigger bigs[..i][k]} :: 0 <= k < i ==> bigs[..i][k] in ms) && done == Kept(ms, bigs[..i])
  }

  function Last(done: seq<Addr>): Addr
  {
    if done == [] then NULL else done[|done| - 1]
  }

  lemma SweepKeep(ms0: Metas, bs0: Bodies, bigs: seq<Addr>, i: nat, ms: Metas, bs: Bodies, done: seq<Addr>, ms': Metas)
    requires ms0.Keys == bs0.Keys && BigAddrs(bigs) <= ms0.Keys && i < |bigs| && DistinctRegions(bigs)
    requires SweepPoint(ms0, bs0, bigs, i, ms, bs, done) && ms0[bigs[i]].mrk
    requires ms0[bigs[i]].gen.Old? && ms0[bigs[i]].mid && bigs[i] != NULL
    requires done != [] ==> ms[Last(done)].ptr == bigs[i]
    requires ms' == ms[bigs[i] := ms0[bigs[i]].(mrk := false, tag := false)]
    ensures SweepPoint(ms0, bs0, bigs, i + 1, ms', bs, done + [bigs[i]])
  {
    var a := bigs[i];
    SweepNext(ms0, bigs, i);
    forall k | i + 1 <= k < |bigs| ensures bigs[k] in ms' && ms'[bigs[k]] == ms0[bigs[k]] {
      assert Before(i, k);
    }
    var done' := done + [a];
    forall k | 0 <= k < |done'|
      ensures done'[k] in ms' && done'[k] != NULL && Reset(ms'[done'[k]])
      ensures k < |done'| - 1 ==> ms'[done'[k]].ptr == done'[k + 1]
    {
      if k < |done| { NotInList(done, a, k); assert done[k] in ms; }
    }
  }

  lemma SweepDrop(ms0: Metas, bs0: Bodies, bigs: seq<Addr>, i: nat, ms: Metas, bs: Bodies, done: seq<Addr>, ms': Metas)
    requires ms0.Keys == bs0.Keys && BigAddrs(bigs) <= ms0.Keys && i < |bigs| && DistinctRegions(bigs)
    requires SweepPoint(ms0, bs0, bigs, i, ms, bs, done) && !ms0[bigs[i]].mrk
    requires done == [] ==> ms' == ms - {bigs[i]}
    requires done != [] ==>
      Last(done) in ms && ms' == (ms - {bigs[i]})[Last(done) := ms[Last(done)].(ptr := ms0[bigs[i]].ptr, tag := false)]
    ensures SweepPoint(ms0, bs0, bigs, i + 1, ms', bs - {bigs[i]}, done)
  {
    hide Chained, Kept, BigAddrs, DistinctRegions;
    var a := bigs[i];
    SweepNext(ms0, bigs, i);
    assert a in ms && ms[a] == ms0[a];
    if done != [] {
      LastKept(ms0, bigs, i);
      NotInList(done, a, |done| - 1);
    }
    SliceDistinct(bigs, i);
    KeptDistinct(ms0, bigs[..i]);
    ChainedDrop(ms, done, a, ms0[a].ptr, ms');
    forall k | i + 1 <= k < |bigs| ensures bigs[k] in ms' && ms'[bigs[k]] == ms0[bigs[k]] {
      Different(bigs, i, k);
      if done != [] { LaterNotKept(ms0, bigs, i, k); }
    }
    assert bs - {a} == bs0 - Swept(ms0, bigs[..i + 1]);
  }

  lemma Different(bigs: seq<Addr>, i: nat, k: nat)
    requires DistinctRegions(bigs) && i < k < |bigs|
    ensures bigs[i] != bigs[k]
  {
    assert Before(i, k);
  }

  lemma ChainedDrop(ms: Metas, done: seq<Addr>, a: Addr, next: Addr, ms': Metas)
    requires Chained(ms, done) && a !in BigAddrs(done) && DistinctRegions(done)
    requires done == [] ==> ms' == ms - {a}
    requires done != [] ==>
      Last(done) in ms && ms' == (ms - {a})[Last(done) := ms[Last(done)].(ptr := next, tag := false)]
    ensures Chained(ms', done)
  {
    forall k | 0 <= k < |done|
      ensures done[k] in ms' && done[k] != NULL && Reset(ms'[done[k]])
      ensures k < |done| - 1 ==> ms'[done[k]].ptr == done[k + 1]
    {
      NotInList(done, a, k);
      assert done[k] in ms;
      if k < |done| - 1 { Different(done, k, |done| - 1); }
    }
  }

  lemma SliceDistinct(bigs: seq<Addr>, i: nat)
    requires i <= |bigs| && DistinctRegions(bigs)
    ensures DistinctRegions(bigs[..i])
  {
  }

  lemma {:induction false} LastKept(ms: Metas, bigs: seq<Addr>, i: nat)
    requires i <= |bigs| && (forall k {:trigger bigs[..i][k]} :: 0 <= k < i ==> bigs[..i][k] in ms)
    requires Kept(ms, bigs[..i]) != []
    ensures Last(Kept(ms, bigs[..i])) in BigAddrs(bigs)
  {
    var a := Last(Kept(ms, bigs[..i]));
    KeptMembers(ms, bigs[..i], a);
    var k :| 0 <= k < i && bigs[..i][k] == a;
    assert bigs[k] == a;
  }

  lemma {:induction false} LaterNotKept(ms: Metas, bigs: seq<Addr>, i: nat, k: nat)
    requires i <= k < |bigs| && DistinctRegions(bigs)
    requires forall j {:trigger bigs[..i][j]} :: 0 <= j < i ==> bigs[..i][j] in ms
    requires Kept(ms, bigs[..i]) != []
    ensures Last(Kept(ms, bigs[..i])) != bigs[k]
  {
    var a := Last(Kept(ms, bigs[..i]));
    KeptMembers(ms, bigs[..i], a);
    var j :| 0 <= j < i && bigs[..i][j] == a;
    Different(bigs, j, k);
  }

  lemma AddrsPrefix(bigs: seq<Addr>, i: nat, s: set<Addr>)
    requires BigAddrs(bigs) <= s && i <= |bigs|
    ensures BigAddrs(bigs[..i]) <= s
  {
    forall a | a in BigAddrs(bigs[..i]) ensures a in s {
      var k :| 0 <= k < i && bigs[..i][k] == a;
      assert bigs[k] == a && a in BigAddrs(bigs);
    }
  }

  lemma {:induction false} SweepNext(ms: Metas, bigs: seq<Addr>, i: nat)
    requires BigAddrs(bigs) <= ms.Keys && i < |bigs| && DistinctRegions(bigs)
    ensures bigs[..i + 1] == bigs[..i] + [bigs[i]]
    ensures forall k {:trigger bigs[..i][k]} :: 0 <= k < i ==> bigs[..i][k] in ms
    ensures forall k {:trigger bigs[..i + 1][k]} :: 0 <= k < i + 1 ==> bigs[..i + 1][k] in ms
    ensures Kept(ms, bigs[..i + 1]) == Kept(ms, bigs[..i]) + (if ms[bigs[i]].mrk then [bigs[i]] else [])
    ensures Swept(ms, bigs[..i + 1]) == Swept(ms, bigs[..i]) + (if ms[bigs[i]].mrk then {} else {bigs[i]})
    ensures bigs[i] !in BigAddrs(bigs[..i]) && bigs[i] !in BigAddrs(Kept(ms, bigs[..i]))
    ensures bigs[i] in BigAddrs(bigs)
  {
    var a := bigs[i];
    assert bigs[..i + 1] == bigs[..i] + [a];
    assert forall k {:trigger bigs[..i + 1][k]} :: 0 <= k < i + 1 ==> bigs[..i + 1][k] == bigs[k];
    assert forall k {:trigger bigs[..i][k]} :: 0 <= k < i ==> bigs[..i][k] == bigs[k];
    KeptAppend(ms, bigs[..i], a);
    forall x | x in BigAddrs(bigs[..i]) ensures x != a {
      var k :| 0 <= k < i && bigs[..i][k] == x;
      Different(bigs, k, i);
    }
    KeptMembers(ms, bigs[..i], a);
    forall x ensures x in BigAddrs(bigs[..i + 1]) <==> x in BigAddrs(bigs[..i]) || x == a {
      BigAddrsAppend(bigs[..i], a, x);
    }
  }

  lemma BigAddrsAppend(bigs: seq<Addr>, a: Addr, x: Addr)
    ensures x in BigAddrs(bigs + [a]) <==> x in BigAddrs(bigs) || x == a
  {
    assert (bigs + [a])[|bigs|] == a;
    if x in BigAddrs(bigs) {
      var k :| 0 <= k < |bigs| && bigs[k] == x;
      assert (bigs + [a])[k] == x;
    }
  }

  lemma NotInList(xs: seq<Addr>, a: Addr, k: nat)
    requires a !in BigAddrs(xs) && k < |xs|
    ensures xs[k] != a
  {
  }

  /** The bytes of the unmarked objects of a list. */
  function DroppedSize(ms: Metas, bs: Bodies, bigs: seq<Addr>): nat
    requires BigAddrs(bigs) <= ms.Keys && BigAddrs(bigs) <= bs.Keys
  {
    if bigs == [] then 0
    else
      assert bigs[0] in BigAddrs(bigs);
      TailIn(bigs, ms.Keys); TailIn(bigs, bs.Keys);
      (if ms[bigs[0]].mrk then 0 else Size(bs[bigs[0]])) + DroppedSize(ms, bs, bigs[1..])
  }

  lemma TailIn(bigs: seq<Addr>, s: set<Addr>)
    requires BigAddrs(bigs) <= s && bigs != []
    ensures BigAddrs(bigs[1..]) <= s
  {
    forall a | a in BigAddrs(bigs[1..]) ensures a in s { BigAddrsHead(bigs, a); }
  }

  lemma {:induction false} DroppedAppend(ms: Metas, bs: Bodies, bigs: seq<Addr>, a: Addr)
    requires BigAddrs(bigs + [a]) <= ms.Keys && BigAddrs(bigs + [a]) <= bs.Keys && BigAddrs(bigs) <= ms.Keys &&
      BigAddrs(bigs) <= bs.Keys
    requires a in ms && a in bs
    ensures DroppedSize(ms, bs, bigs + [a]) == DroppedSize(ms, bs, bigs) + (if ms[a].mrk then 0 else Size(bs[a]))
  {
    if bigs == [] {
      assert bigs + [a] == [a] && [a][1..] == [];
    } else {
      assert (bigs + [a])[1..] == bigs[1..] + [a];
      TailIn(bigs + [a], ms.Keys); TailIn(bigs + [a], bs.Keys); TailIn(bigs, ms.Keys); TailIn(bigs, bs.Keys);
      DroppedAppend(ms, bs, bigs[1..], a);
    }
  }

  /** What is kept and what is dropped add up. */
  lemma {:induction false} SizesAddUp(ms: Metas, bs: Bodies, bigs: seq<Addr>)
    requires forall k {:trigger bigs[k]} :: 0 <= k < |bigs| ==> bigs[k] in ms && bigs[k] in bs
    ensures BigAddrs(bigs) <= ms.Keys && BigAddrs(bigs) <= bs.Keys
    ensures forall k {:trigger Kept(ms, bigs)[k]} :: 0 <= k < |Kept(ms, bigs)| ==> Kept(ms, bigs)[k] in bs
    ensures TotalSize(bs, Kept(ms, bigs)) + DroppedSize(ms, bs, bigs) == TotalSize(bs, bigs)
  {
    if bigs != [] {
      SizesAddUp(ms, bs, bigs[1..]);
      if ms[bigs[0]].mrk { assert Kept(ms, bigs)[1..] == Kept(ms, bigs[1..]); }
    }
  }

  /** The class of an object that is about to be deleted is still there. */
  lemma SweepClass(ms0: Metas, bs0: Bodies, bigs: seq<Addr>, i: nat, bs: Bodies)
    requires i < |bigs| && BigSized(bs0, bigs, bigs[i]) && BigAddrs(bigs) <= ms0.Keys
    requires bs == bs0 - Swept(ms0, bigs[..i]) && bigs[i] in bs
    ensures bs[bigs[i]].cls in bs && Sized(bs, bigs[i])
    ensures SizeThroughClass(bs, bigs[i]) == Size(bs0[bigs[i]])
  {
    forall x | x in Swept(ms0, bigs[..i]) ensures x in BigAddrs(bigs) {
      var k :| 0 <= k < i && bigs[..i][k] == x;
      assert bigs[k] == x;
    }
  }

  /** The effect of a sweep: the marked objects stay, in their old order, reset and linked;
      the others are gone; nothing else is touched. */
  ghost predicate Sweep(ms: Metas, bs: Bodies, bigs: seq<Addr>, ms': Metas, bs': Bodies, first': Addr, bigs': seq<Addr>)
    requires BigAddrs(bigs) <= ms.Keys && ms.Keys == bs.Keys
  {
    (forall k {:trigger bigs[k]} :: 0 <= k < |bigs| ==> bigs[k] in ms) &&
    bigs' == Kept(ms, bigs) && bs' == bs - Swept(ms, bigs) && ms'.Keys == bs'.Keys &&
    BigList(ms', first', bigs') && DistinctRegions(bigs') &&
    (forall k {:trigger bigs'[k]} :: 0 <= k < |bigs'| ==> bigs'[k] in ms' && Reset(ms'[bigs'[k]])) &&
    (forall a {:trigger ms'[a]} :: a in ms' && a !in BigAddrs(bigs) ==> ms'[a] == ms[a])
  }

  lemma {:induction false} ListHead(ms: Metas, bs: Bodies, first: Addr, bigs: seq<Addr>)
    requires ms.Keys == bs.Keys && BigList(ms, first, bigs)
    ensures BigAddrs(bigs) <= ms.Keys && first == (if bigs == [] then NULL else bigs[0])
    ensures forall k {:trigger bigs[k]} :: 0 <= k < |bigs| ==> bigs[k] != NULL
    ensures BigAddrs(bigs[..0]) == {} && DroppedSize(ms, bs, bigs[..0]) == 0
  {
  }

  lemma SweepStart(ms: Metas, bs: Bodies, bigs: seq<Addr>)
    requires ms.Keys == bs.Keys && BigAddrs(bigs) <= ms.Keys
    ensures SweepPoint(ms, bs, bigs, 0, ms, bs, [])
  {
    assert Swept(ms, bigs[..0]) == {};
    assert bs - {} == bs;
    assert forall k {:trigger bigs[k]} :: 0 <= k < |bigs| ==> bigs[k] in BigAddrs(bigs);
  }

  lemma {:induction false} LastThere(ms: Metas, bs: Bodies, bigs: seq<Addr>, i: nat, ms': Metas, bs': Bodies,
      bigs': seq<Addr>)
    requires ms.Keys == bs.Keys && BigAddrs(bigs) <= ms.Keys && i <= |bigs| &&
      SweepPoint(ms, bs, bigs, i, ms', bs', bigs')
    ensures bigs' != [] ==> Last(bigs') in ms' && Last(bigs') != NULL
  {
    hide Kept, Swept, BigAddrs;
  }

  lemma {:induction false} SweepDone(ms: Metas, bs: Bodies, bigs: seq<Addr>, ms': Metas, bs': Bodies, bigs': seq<Addr>,
      first': Addr)
    requires ms.Keys == bs.Keys && BigAddrs(bigs) <= ms.Keys && DistinctRegions(bigs) && bigs[..|bigs|] == bigs
    requires SweepPoint(ms, bs, bigs, |bigs|, ms', bs', bigs')
    requires first' == if bigs' == [] then NULL else bigs'[0]
    requires bigs' != [] ==> Last(bigs') in ms' && ms'[Last(bigs')].ptr == NULL
    ensures Sweep(ms, bs, bigs, ms', bs', first', bigs')
    ensures BigAddrs(bigs) <= bs.Keys
    ensures BigAddrs(bigs') <= bs.Keys && BigAddrs(bigs') <= bs'.Keys
    ensures TotalSize(bs', bigs') + DroppedSize(ms, bs, bigs) == TotalSize(bs, bigs)
  {
    assert forall k {:trigger bigs[k]} :: 0 <= k < |bigs| ==> bigs[..|bigs|][k] in ms;
    KeptDistinct(ms, bigs);
    SizesAddUp(ms, bs, bigs);
    TotalSizeSame(bs, bs', bigs');
  }
}
