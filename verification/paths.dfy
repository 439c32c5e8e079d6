/** Which survivors a collection promotes, in terms of paths through the heap. */
module YoungPaths {
  import opened ObjectHeap
  import opened Marking

  /** Young, and without MID: the object has survived no collection yet. */
  predicate Plain(m: Meta)
  {
    m.gen.Young? && !m.mid
  }

  /** A path that begins at a root and leads through the fields of plain objects only. */
  ghost predicate PlainPath(ms: Metas, bs: Bodies, roots: seq<Value>, path: seq<Addr>)
    decreases |path|
  {
    path != [] &&
    var n := |path| - 1;
    path[n] in ms && path[n] in bs && Plain(ms[path[n]]) &&
    if n == 0 then Ref(path[n]) in roots
    else PlainPath(ms, bs, roots, path[..n]) && path[n - 1] in bs && Ref(path[n]) in bs[path[n - 1]].fields
  }

  ghost predicate PlainlyReached(ms: Metas, bs: Bodies, roots: seq<Value>, a: Addr)
  {
    exists path :: PlainPath(ms, bs, roots, path) && path[|path| - 1] == a
  }

  /** A young object with MID that a root refers to, or a plain object so reached. */
  ghost predicate Crossed(ms: Metas, bs: Bodies, roots: seq<Value>, a: Addr)
  {
    a in ms && ms[a].gen.Young? && ms[a].mid &&
    (Ref(a) in roots || exists b :: b in bs && PlainlyReached(ms, bs, roots, b) && Ref(a) in bs[b].fields)
  }

  /** No path through plain objects leads to a young object that has survived a collection; this is
      so wherever no young object has MID. */
  ghost predicate Uncrossed(ms: Metas, bs: Bodies, roots: seq<Value>)
  {
    forall a :: !Crossed(ms, bs, roots, a)
  }

  ghost function PlainSet(ms: Metas, bs: Bodies, roots: seq<Value>): set<Addr>
  {
    set a | a in bs && PlainlyReached(ms, bs, roots, a)
  }

  lemma {:induction false} FromRoot(ms: Metas, bs: Bodies, roots: seq<Value>, a: Addr)
    requires Ref(a) in roots && a in ms && a in bs && Plain(ms[a])
    ensures PlainlyReached(ms, bs, roots, a)
  {
    assert PlainPath(ms, bs, roots, [a]);
  }

  lemma {:induction false} OneFurther(ms: Metas, bs: Bodies, roots: seq<Value>, b: Addr, a: Addr)
    requires PlainlyReached(ms, bs, roots, b) && b in bs && Ref(a) in bs[b].fields
    requires a in ms && a in bs && Plain(ms[a])
    ensures PlainlyReached(ms, bs, roots, a)
  {
    var path :| PlainPath(ms, bs, roots, path) && path[|path| - 1] == b;
    assert (path + [a])[..|path|] == path;
    assert PlainPath(ms, bs, roots, path + [a]);
  }

  // ----- What a visit leaves plain ------------------------------------------

  /** The plain ones among the objects that `vs` refers to lie in `q`. */
  ghost predicate PlainIn(ms: Metas, vs: seq<Value>, q: set<Addr>)
  {
    forall v :: v in vs && v.Ref? && v.at in ms && Plain(ms[v.at]) ==> v.at in q
  }

  ghost predicate PlainClosed(ms: Metas, bs: Bodies, q: set<Addr>)
  {
    forall a {:trigger PlainIn(ms, bs[a].fields, q)} :: a in q && a in bs ==> PlainIn(ms, bs[a].fields, q)
  }

  /** Class objects are not plain. */
  ghost predicate ClassNotPlain(ms: Metas, b: Body)
  {
    b.cls in ms ==> !Plain(ms[b.cls])
  }

  ghost predicate ClassesNotPlain(ms: Metas, bs: Bodies)
  {
    forall a {:trigger ClassNotPlain(ms, bs[a])} :: a in bs ==> ClassNotPlain(ms, bs[a])
  }

  /** What has been marked between `ms` and `r` and is plain still lies in `q`. */
  ghost predicate LeftPlain(ms: Metas, r: Metas, q: set<Addr>)
  {
    forall a {:trigger r[a]} :: a in ms && a in r && !ms[a].mrk && r[a].mrk && Plain(r[a]) ==> a in q
  }

  lemma LeftPlainTrans(ms: Metas, ms1: Metas, r: Metas, q: set<Addr>)
    requires OnlyMarks(ms, ms1) && OnlyMarks(ms1, r) && LeftPlain(ms, ms1, q) && LeftPlain(ms1, r, q)
    ensures LeftPlain(ms, r, q) && OnlyMarks(ms, r)
  {
    forall a | a in ms ensures MarkedFrom(ms[a], r[a]) {
      assert MarkedFrom(ms[a], ms1[a]) && MarkedFrom(ms1[a], r[a]);
    }
    forall a | a in ms && !ms[a].mrk && r[a].mrk && Plain(r[a]) ensures a in q {
      assert MarkedFrom(ms1[a], r[a]);
      assert ms1[a].mrk ==> Plain(ms1[a]);
    }
  }

  /** A visit leaves only such objects plain as are plainly reached from where it began; one that
      comes from an old object leaves none. */
  lemma {:induction false} VisitLeavesPlain(ms0: Metas, ms: Metas, bs: Bodies, vs: seq<Value>, mode: Mode, q: set<Addr>)
    requires ms.Keys == bs.Keys && Closed(bs) && ValuesIn(vs, bs.Keys) && OnlyMarks(ms0, ms)
    requires PlainClosed(ms0, bs, q) && (!FromOld(mode) ==> PlainIn(ms0, vs, q))
    requires mode.Rec? ==> ClassesNotPlain(ms0, bs)
    ensures LeftPlain(ms, VisitAll(ms, bs, vs, mode), q)
    decreases |Unmarked(ms)|, |vs|
  {
    hide VisitAll, Closed, PlainClosed, ClassesNotPlain, LeftPlain, OnlyMarks;
    VisitSkip(ms, bs, vs, mode);
    NoneLeft(ms, q);
    if vs == [] {
    } else if vs[0].SmallInt? || Skips(ms[vs[0].at], mode) {
      VisitLeavesPlain(ms0, ms, bs, vs[1..], mode, q);
    } else {
      var a := vs[0].at;
      var ms1, ms2, fm := VisitUnfold(ms, bs, vs, mode);
      var kids := Children(bs[a], fm);
      assert vs[0] in vs && a in ms0 by { MarkedKeys(ms0, ms); }
      MarkLeaves(ms0, ms, ms1, bs, a, mode, q);
      VisitLeavesPlain(ms0, ms1, bs, kids, fm, q);
      VisitOnlyMarks(ms1, bs, kids, fm);
      LeftPlainTrans(ms, ms1, ms2, q);
      MarksTrans(ms0, ms, ms2);
      VisitLeavesPlain(ms0, ms2, bs, vs[1..], mode, q);
      VisitOnlyMarks(ms2, bs, vs[1..], mode);
      LeftPlainTrans(ms, ms2, VisitAll(ms2, bs, vs[1..], mode), q);
    }
  }

  lemma MarkedKeys(ms: Metas, r: Metas)
    requires OnlyMarks(ms, r)
    ensures r.Keys == ms.Keys
  {
  }

  lemma NoneLeft(ms: Metas, q: set<Addr>)
    ensures LeftPlain(ms, ms, q)
  {
  }

  lemma MarksTrans(ms: Metas, ms1: Metas, r: Metas)
    requires OnlyMarks(ms, ms1) && OnlyMarks(ms1, r)
    ensures OnlyMarks(ms, r)
  {
    forall a | a in ms ensures MarkedFrom(ms[a], r[a]) {
      assert MarkedFrom(ms[a], ms1[a]) && MarkedFrom(ms1[a], r[a]);
    }
  }

  lemma MarkLeaves(ms0: Metas, ms: Metas, ms1: Metas, bs: Bodies, a: Addr, mode: Mode, q: set<Addr>)
    requires ms.Keys == bs.Keys && OnlyMarks(ms0, ms) && a in ms && !Skips(ms[a], mode)
    requires ms1 == ms[a := SetMark(ms[a], mode)]
    requires PlainClosed(ms0, bs, q) && (mode.Rec? ==> ClassesNotPlain(ms0, bs))
    requires !FromOld(mode) && Plain(ms0[a]) ==> a in q
    ensures OnlyMarks(ms, ms1) && OnlyMarks(ms0, ms1) && LeftPlain(ms, ms1, q)
    ensures
      var fm := FieldMode(ms[a], mode);
      (fm.Rec? ==> mode.Rec?) && (!FromOld(fm) ==> PlainIn(ms0, Children(bs[a], fm), q))
  {
    assert MarkedFrom(ms0[a], ms[a]) && MarkedFrom(ms[a], ms1[a]);
    MarksTrans(ms0, ms, ms1);
    if !FromOld(FieldMode(ms[a], mode)) {
      assert PlainIn(ms0, bs[a].fields, q);
      assert mode.Rec? ==> ClassNotPlain(ms0, bs[a]);
    }
  }

  lemma {:induction false} RememberedLeavesNone(ms: Metas, bs: Bodies, rem: seq<Addr>)
    requires ms.Keys == bs.Keys && Closed(bs) && forall a :: a in rem ==> a in bs
    ensures LeftPlain(ms, MarkRemembered(ms, bs, rem), {}) && OnlyMarks(ms, MarkRemembered(ms, bs, rem))
    decreases |rem|
  {
    hide VisitAll, LeftPlain, OnlyMarks;
    NoneLeft(ms, {});
    SameMarks(ms);
    if rem != [] {
      assert BodyIn(bs[rem[0]], bs.Keys);
      var r := VisitAll(ms, bs, bs[rem[0]].fields, O2Y);
      VisitLeavesPlain(ms, ms, bs, bs[rem[0]].fields, O2Y, {});
      VisitOnlyMarks(ms, bs, bs[rem[0]].fields, O2Y);
      RememberedLeavesNone(r, bs, rem[1..]);
      LeftPlainTrans(ms, r, MarkRemembered(r, bs, rem[1..]), {});
    }
  }

  lemma SameMarks(ms: Metas)
    ensures OnlyMarks(ms, ms)
  {
  }

  lemma PlainSetClosed(ms: Metas, bs: Bodies, roots: seq<Value>)
    requires ms.Keys == bs.Keys
    ensures PlainIn(ms, roots, PlainSet(ms, bs, roots)) && PlainClosed(ms, bs, PlainSet(ms, bs, roots))
  {
    hide PlainlyReached;
    var q := PlainSet(ms, bs, roots);
    forall v | v in roots && v.Ref? && v.at in ms && Plain(ms[v.at]) ensures v.at in q {
      FromRoot(ms, bs, roots, v.at);
    }
    forall a | a in q && a in bs ensures PlainIn(ms, bs[a].fields, q) {
      forall v | v in bs[a].fields && v.Ref? && v.at in ms && Plain(ms[v.at]) ensures v.at in q {
        OneFurther(ms, bs, roots, a, v.at);
      }
    }
  }

  /** Whatever a full collection marks and leaves plain is plainly reached from the roots. */
  lemma {:induction false} FullLeavesPlain(ms: Metas, bs: Bodies, roots: seq<Value>, a: Addr)
    requires ms.Keys == bs.Keys && Closed(bs) && ValuesIn(roots, bs.Keys) && NoMarks(ms) && ClassesNotPlain(ms, bs)
    requires a in bs && VisitAll(ms, bs, roots, Rec)[a].mrk && Plain(VisitAll(ms, bs, roots, Rec)[a])
    ensures PlainlyReached(ms, bs, roots, a)
  {
    hide VisitAll, PlainlyReached, PlainClosed, ClassesNotPlain, OnlyMarks;
    PlainSetClosed(ms, bs, roots);
    SameMarks(ms);
    VisitLeavesPlain(ms, ms, bs, roots, Rec, PlainSet(ms, bs, roots));
  }

  // ----- The fast collection ------------------------------------------------

  ghost predicate AllPlain(ms: Metas, s: set<Addr>)
  {
    forall a :: a in s ==> a in ms && Plain(ms[a])
  }

  ghost predicate SameMid(ms: Metas, r: Metas)
  {
    r.Keys == ms.Keys && forall a {:trigger r[a]} :: a in ms ==> r[a].mid == ms[a].mid && r[a].gen == ms[a].gen
  }

  lemma SameMidTrans(ms: Metas, ms1: Metas, r: Metas)
    requires SameMid(ms, ms1) && SameMid(ms1, r)
    ensures SameMid(ms, r)
  {
    forall a | a in ms ensures r[a].mid == ms[a].mid && r[a].gen == ms[a].gen {
      assert ms1[a].mid == ms[a].mid;
    }
  }

  lemma {:induction false} VisitKeepsMid(ms: Metas, bs: Bodies, vs: seq<Value>, olds: set<Addr>, q: set<Addr>)
    requires ms.Keys == bs.Keys && Closed(bs) && ValuesIn(vs, bs.Keys) && ValuesIn(vs, q + olds)
    requires olds == OldSet(ms) && AllPlain(ms, q) && YoungClosed(bs, olds, q)
    ensures SameMid(ms, VisitAll(ms, bs, vs, RecY))
    decreases |Unmarked(ms)|, |vs|
  {
    hide VisitAll, Closed, YoungClosed, SameMid, AllPlain;
    VisitSkip(ms, bs, vs, RecY);
    SameItself(ms);
    if vs == [] {
    } else if vs[0].SmallInt? || Skips(ms[vs[0].at], RecY) {
      VisitKeepsMid(ms, bs, vs[1..], olds, q);
    } else {
      var a := vs[0].at;
      var ms1, ms2, fm := VisitUnfold(ms, bs, vs, RecY);
      assert vs[0] in vs && a in q;
      PlainMark(ms, ms1, a, q);
      FieldsStay(bs, olds, q, a);
      SameOlds(ms, ms1, q);
      VisitKeepsMid(ms1, bs, Children(bs[a], fm), olds, q);
      SameMidTrans(ms, ms1, ms2);
      SameOlds(ms, ms2, q);
      VisitKeepsMid(ms2, bs, vs[1..], olds, q);
      SameMidTrans(ms, ms2, VisitAll(ms2, bs, vs[1..], RecY));
    }
  }

  lemma FieldsStay(bs: Bodies, olds: set<Addr>, q: set<Addr>, a: Addr)
    requires YoungClosed(bs, olds, q) && a in q && a in bs
    ensures ValuesIn(bs[a].fields, q + olds)
  {
    assert StaysIn(bs[a], RecY, q, olds);
  }

  lemma SameOlds(ms: Metas, r: Metas, q: set<Addr>)
    requires SameMid(ms, r) && AllPlain(ms, q)
    ensures OldSet(r) == OldSet(ms) && AllPlain(r, q)
  {
  }

  lemma SameItself(ms: Metas)
    ensures SameMid(ms, ms)
  {
  }

  lemma PlainMark(ms: Metas, ms1: Metas, a: Addr, q: set<Addr>)
    requires AllPlain(ms, q) && a in q && a in ms && ms1 == ms[a := SetMark(ms[a], RecY)]
    ensures SameMid(ms, ms1) && FieldMode(ms[a], RecY) == RecY
  {
  }

  lemma UncrossedClosed(ms: Metas, bs: Bodies, roots: seq<Value>)
    requires ms.Keys == bs.Keys && Closed(bs) && ValuesIn(roots, bs.Keys) && Uncrossed(ms, bs, roots)
    ensures
      var q, olds := PlainSet(ms, bs, roots), OldSet(ms);
      ValuesIn(roots, q + olds) && YoungClosed(bs, olds, q) && AllPlain(ms, q)
  {
    hide PlainlyReached, PlainClosed, PlainIn;
    var q, olds := PlainSet(ms, bs, roots), OldSet(ms);
    forall v | v in roots && v.Ref? ensures v.at in q + olds {
      assert !Crossed(ms, bs, roots, v.at);
      if Plain(ms[v.at]) { FromRoot(ms, bs, roots, v.at); }
    }
    forall a | a in q && a in bs ensures StaysIn(bs[a], RecY, q, olds) {
      assert BodyIn(bs[a], bs.Keys);
      forall v | v in bs[a].fields && v.Ref? ensures v.at in q + olds {
        assert !Crossed(ms, bs, roots, v.at);
        if Plain(ms[v.at]) { OneFurther(ms, bs, roots, a, v.at); }
      }
    }
    forall a | a in q ensures a in ms && Plain(ms[a]) { ReachedIsPlain(ms, bs, roots, a); }
  }

  lemma {:induction false} ReachedIsPlain(ms: Metas, bs: Bodies, roots: seq<Value>, a: Addr)
    requires PlainlyReached(ms, bs, roots, a)
    ensures a in ms && a in bs && Plain(ms[a])
  {
    var path :| PlainPath(ms, bs, roots, path) && path[|path| - 1] == a;
  }

  /** What is plainly reached is marked. */
  lemma {:induction false} PathMarked(ms: Metas, r: Metas, bs: Bodies, roots: seq<Value>, path: seq<Addr>)
    requires ms.Keys == bs.Keys && NoMarks(ms) && OnlyMarks(ms, r)
    requires AllCovered(r, roots, true) && NewlyCovered(ms, r, bs, true)
    requires PlainPath(ms, bs, roots, path)
    ensures path[|path| - 1] in r && r[path[|path| - 1]].mrk
    decreases |path|
  {
    hide NewlyCovered, AllCovered;
    var n := |path| - 1;
    assert MarkedFrom(ms[path[n]], r[path[n]]);
    if n == 0 {
      TargetCovered(r, roots, path[n]);
    } else {
      PathMarked(ms, r, bs, roots, path[..n]);
      FieldsCovered(ms, r, bs, path[n - 1]);
      TargetCovered(r, bs[path[n - 1]].fields, path[n]);
    }
  }

  lemma FieldsCovered(ms: Metas, r: Metas, bs: Bodies, b: Addr)
    requires NoMarks(ms) && NewlyCovered(ms, r, bs, true) && b in ms && b in bs && b in r && r[b].mrk
    ensures AllCovered(r, bs[b].fields, true)
  {
    assert !ms[b].mrk;
  }

  lemma TargetCovered(r: Metas, vs: seq<Value>, a: Addr)
    requires AllCovered(r, vs, true) && Ref(a) in vs
    ensures a in r && (r[a].mrk || r[a].gen.Old?)
  {
    var i :| 0 <= i < |vs| && vs[i] == Ref(a);
    assert Covered(r, vs[i], true);
  }

  /** What a fast collection marks and leaves plain is plainly reached from the roots. What is
      plainly reached is marked, and it is left plain, whatever the remembered objects refer to, if
      no path through plain objects crosses a survivor of an earlier collection. */
  lemma {:induction false} FastLeavesPlain(ms: Metas, bs: Bodies, roots: seq<Value>, rem: seq<Addr>, a: Addr)
    requires ms.Keys == bs.Keys && Closed(bs) && ValuesIn(roots, bs.Keys) && NoMarks(ms)
    requires (forall x :: x in rem ==> x in bs) && a in bs
    ensures
      var m := MarkYoung(ms, bs, roots, rem)[a];
      && (m.mrk && Plain(m) ==> PlainlyReached(ms, bs, roots, a))
      && (PlainlyReached(ms, bs, roots, a) ==> m.mrk && (Uncrossed(ms, bs, roots) ==> Plain(m)))
  {
    hide VisitAll, MarkRemembered, PlainlyReached, Uncrossed, PlainClosed, PlainIn, NewlyCovered, AllCovered;
    var q := PlainSet(ms, bs, roots);
    var r1 := VisitAll(ms, bs, roots, RecY);
    var r := MarkRemembered(r1, bs, rem);
    PlainSetClosed(ms, bs, roots);
    SameMarks(ms);
    VisitLeavesPlain(ms, ms, bs, roots, RecY, q);
    RememberedLeavesNone(r1, bs, rem);
    VisitOnlyMarks(ms, bs, roots, RecY);
    VisitComplete(ms, bs, roots, RecY);
    assert MarkedFrom(ms[a], r1[a]) && MarkedFrom(r1[a], r[a]);
    if PlainlyReached(ms, bs, roots, a) {
      ReachedMarked(ms, r1, bs, roots, a);
      ReachedIsPlain(ms, bs, roots, a);
      if Uncrossed(ms, bs, roots) {
        UncrossedClosed(ms, bs, roots);
        VisitKeepsMid(ms, bs, roots, OldSet(ms), q);
      }
    }
  }

  lemma {:induction false} ReachedMarked(ms: Metas, r: Metas, bs: Bodies, roots: seq<Value>, a: Addr)
    requires ms.Keys == bs.Keys && NoMarks(ms) && OnlyMarks(ms, r)
    requires AllCovered(r, roots, true) && NewlyCovered(ms, r, bs, true) && PlainlyReached(ms, bs, roots, a)
    ensures a in r && r[a].mrk
  {
    var path :| PlainPath(ms, bs, roots, path) && path[|path| - 1] == a;
    PathMarked(ms, r, bs, roots, path);
  }
}
