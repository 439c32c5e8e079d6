/** Marking: the recursive visits of the collector, as a function of the meta words. */
module Marking {
  import opened ObjectHeap

  /** The four marking operations: everything or young objects only, each with a
      variant for objects referred to by an old object. */
  datatype Mode = Rec | RecY | O2X | O2Y

  predicate YoungOnly(mode: Mode) { mode.RecY? || mode.O2Y? }

  predicate FromOld(mode: Mode) { mode.O2X? || mode.O2Y? }

  /** The visit returns at once: already marked, or old while only young objects count. */
  predicate Skips(m: Meta, mode: Mode)
  {
    m.mrk || (YoungOnly(mode) && m.gen.Old?)
  }

  /** Set MRK, and MID on a young object that an old one refers to. */
  function SetMark(m: Meta, mode: Mode): Meta
  {
    m.(mrk := true, mid := m.mid || (FromOld(mode) && !m.gen.Old?))
  }

  /** The operation used for the fields of an object that had meta `m`. */
  function FieldMode(m: Meta, mode: Mode): Mode
  {
    match mode
    case Rec => if m.gen.Old? || m.mid then O2X else Rec
    case RecY => if m.mid then O2Y else RecY
    case O2X => O2X
    case O2Y => O2Y
  }

  /** What is visited inside an object; only the plain full visit includes the class. */
  function Children(b: Body, mode: Mode): seq<Value>
  {
    if mode.Rec? then [Ref(b.cls)] + b.fields else b.fields
  }

  function Unmarked(ms: Metas): set<Addr>
  {
    set a | a in ms && !ms[a].mrk
  }

  lemma UnmarkedShrinks(ms: Metas, a: Addr, m: Meta)
    requires a in ms && !ms[a].mrk && m.mrk
    ensures Unmarked(ms[a := m]) == Unmarked(ms) - {a}
    ensures |Unmarked(ms[a := m])| < |Unmarked(ms)|
  {
    assert Unmarked(ms[a := m]) == Unmarked(ms) - {a};
  }

  lemma SmallerSet<T>(s: set<T>, t: set<T>)
    requires s <= t
    ensures |s| <= |t|
  {
    assert t == s + (t - s);
  }

  /** Visit the values `vs` in order, depth first.  Cyclic graphs are no problem: each
      visit that does not return at once leaves one unmarked object less. */
  function VisitAll(ms: Metas, bs: Bodies, vs: seq<Value>, mode: Mode): (r: Metas)
    requires ms.Keys == bs.Keys && Closed(bs) && ValuesIn(vs, bs.Keys)
    ensures r.Keys == ms.Keys && Unmarked(r) <= Unmarked(ms)
    decreases |Unmarked(ms)|, |vs|
  {
    if vs == [] then ms
    else if vs[0].SmallInt? || Skips(ms[vs[0].at], mode) then VisitAll(ms, bs, vs[1..], mode)
    else
      var a := vs[0].at;
      var m := ms[a];
      assert BodyIn(bs[a], bs.Keys);
      UnmarkedShrinks(ms, a, SetMark(m, mode));
      var ms1 := ms[a := SetMark(m, mode)];
      var fm := FieldMode(m, mode);
      var ms2 := VisitAll(ms1, bs, Children(bs[a], fm), fm);
      SmallerSet(Unmarked(ms2), Unmarked(ms1));
      VisitAll(ms2, bs, vs[1..], mode)
  }

  /** Marking touches nothing but MRK and MID, sets them only, and on unmarked objects only;
      an object that is old keeps even its BIG bit, which shares a bit with MID. */
  predicate MarkedFrom(m: Meta, m': Meta)
  {
    m'.gen == m.gen && m'.ptr == m.ptr && m'.tag == m.tag &&
    (m.mrk ==> m'.mrk) && (m.mid ==> m'.mid) &&
    (m.mrk || m.gen.Old? || !m'.mrk ==> m'.mid == m.mid)
  }

  ghost predicate OnlyMarks(ms: Metas, r: Metas)
  {
    r.Keys == ms.Keys &&
    forall a {:trigger r[a]} :: a in ms ==> MarkedFrom(ms[a], r[a])
  }

  ghost predicate OldUntouched(ms: Metas, r: Metas)
  {
    forall a {:trigger r[a]} :: a in ms && a in r && ms[a].gen.Old? ==> r[a].mrk == ms[a].mrk
  }

  /** The two recursive visits that make up one visit that marks something. */
  lemma VisitUnfold(ms: Metas, bs: Bodies, vs: seq<Value>, mode: Mode) returns (ms1: Metas, ms2: Metas, fm: Mode)
    requires ms.Keys == bs.Keys && Closed(bs) && ValuesIn(vs, bs.Keys)
    requires vs != [] && vs[0].Ref? && !Skips(ms[vs[0].at], mode)
    ensures fm == FieldMode(ms[vs[0].at], mode)
    ensures ms1 == ms[vs[0].at := SetMark(ms[vs[0].at], mode)]
    ensures ms1.Keys == bs.Keys && ms2.Keys == bs.Keys
    ensures ValuesIn(Children(bs[vs[0].at], fm), bs.Keys) && ValuesIn(vs[1..], bs.Keys)
    ensures ms2 == VisitAll(ms1, bs, Children(bs[vs[0].at], fm), fm)
    ensures VisitAll(ms, bs, vs, mode) == VisitAll(ms2, bs, vs[1..], mode)
    ensures |Unmarked(ms2)| <= |Unmarked(ms1)| < |Unmarked(ms)|
  {
    var a := vs[0].at;
    assert BodyIn(bs[a], bs.Keys);
    UnmarkedShrinks(ms, a, SetMark(ms[a], mode));
    ms1 := ms[a := SetMark(ms[a], mode)];
    fm := FieldMode(ms[a], mode);
    ms2 := VisitAll(ms1, bs, Children(bs[a], fm), fm);
    SmallerSet(Unmarked(ms2), Unmarked(ms1));
  }

  /** A visit that returns at once. */
  lemma {:induction false} VisitSkip(ms: Metas, bs: Bodies, vs: seq<Value>, mode: Mode)
    requires ms.Keys == bs.Keys && Closed(bs) && ValuesIn(vs, bs.Keys)
    ensures vs == [] ==> VisitAll(ms, bs, vs, mode) == ms
    ensures vs != [] ==> ValuesIn(vs[1..], bs.Keys)
    ensures vs != [] && vs[0].Ref? ==> vs[0].at in ms
    ensures vs != [] && (vs[0].SmallInt? || Skips(ms[vs[0].at], mode)) ==>
      VisitAll(ms, bs, vs, mode) == VisitAll(ms, bs, vs[1..], mode)
  {
  }

  /** Visiting a list is visiting its first value and then the others. */
  lemma {:induction false} VisitHead(ms: Metas, bs: Bodies, vs: seq<Value>, mode: Mode)
    requires ms.Keys == bs.Keys && Closed(bs) && ValuesIn(vs, bs.Keys) && vs != []
    ensures ValuesIn([vs[0]], bs.Keys) && ValuesIn(vs[1..], bs.Keys)
    ensures VisitAll(ms, bs, vs, mode) == VisitAll(VisitAll(ms, bs, [vs[0]], mode), bs, vs[1..], mode)
  {
    assert [vs[0]][1..] == [];
    if vs[0].Ref? { assert BodyIn(bs[vs[0].at], bs.Keys); }
  }

  lemma {:induction false} VisitOnlyMarks(ms: Metas, bs: Bodies, vs: seq<Value>, mode: Mode)
    requires ms.Keys == bs.Keys && Closed(bs) && ValuesIn(vs, bs.Keys)
    ensures OnlyMarks(ms, VisitAll(ms, bs, vs, mode))
    ensures YoungOnly(mode) ==> OldUntouched(ms, VisitAll(ms, bs, vs, mode))
    decreases |Unmarked(ms)|, |vs|
  {
    hide VisitAll;
    VisitSkip(ms, bs, vs, mode);
    if vs == [] {
    } else if vs[0].SmallInt? || Skips(ms[vs[0].at], mode) {
      VisitOnlyMarks(ms, bs, vs[1..], mode);
    } else {
      var ms1, ms2, fm := VisitUnfold(ms, bs, vs, mode);
      VisitOnlyMarks(ms1, bs, Children(bs[vs[0].at], fm), fm);
      VisitOnlyMarks(ms2, bs, vs[1..], mode);
    }
  }

  /** The targets a visit of this kind has to deal with are dealt with. */
  predicate Covered(ms: Metas, v: Value, young: bool)
  {
    v.SmallInt? || (v.at in ms && (ms[v.at].mrk || (young && ms[v.at].gen.Old?)))
  }

  ghost predicate AllCovered(ms: Metas, vs: seq<Value>, young: bool)
  {
    forall i :: 0 <= i < |vs| ==> Covered(ms, vs[i], young)
  }

  /** Everything in the objects that `r` marks and `ms` does not is dealt with. */
  ghost predicate NewlyCovered(ms: Metas, r: Metas, bs: Bodies, young: bool)
  {
    forall a {:trigger bs[a]} ::
      a in bs && a in r && a in ms && r[a].mrk && !ms[a].mrk ==> AllCovered(r, bs[a].fields, young)
  }

  lemma CoveredGrows(ms: Metas, r: Metas, vs: seq<Value>, young: bool)
    requires OnlyMarks(ms, r) && AllCovered(ms, vs, young)
    ensures AllCovered(r, vs, young)
  {
  }

  /** Completeness: a visit leaves no unvisited target, neither among the values it was
      given nor inside an object that it marked. */
  lemma {:induction false} VisitComplete(ms: Metas, bs: Bodies, vs: seq<Value>, mode: Mode)
    requires ms.Keys == bs.Keys && Closed(bs) && ValuesIn(vs, bs.Keys)
    ensures
      var r := VisitAll(ms, bs, vs, mode);
      && AllCovered(r, vs, YoungOnly(mode))
      && NewlyCovered(ms, r, bs, YoungOnly(mode))
    decreases |Unmarked(ms)|, |vs|
  {
    hide VisitAll;
    VisitSkip(ms, bs, vs, mode);
    if vs == [] {
    } else if vs[0].SmallInt? || Skips(ms[vs[0].at], mode) {
      VisitComplete(ms, bs, vs[1..], mode);
      VisitOnlyMarks(ms, bs, vs[1..], mode);
    } else {
      var a := vs[0].at;
      var ms1, ms2, fm := VisitUnfold(ms, bs, vs, mode);
      VisitComplete(ms1, bs, Children(bs[a], fm), fm);
      VisitOnlyMarks(ms1, bs, Children(bs[a], fm), fm);
      VisitComplete(ms2, bs, vs[1..], mode);
      VisitOnlyMarks(ms2, bs, vs[1..], mode);
      var r := VisitAll(ms2, bs, vs[1..], mode);
      VisitCompleteStep(ms, ms1, ms2, r, bs, a, ms1[a], fm, YoungOnly(mode));
      HeadCovered(ms1, ms2, r, vs, YoungOnly(mode));
    }
  }

  lemma HeadCovered(ms1: Metas, ms2: Metas, r: Metas, vs: seq<Value>, young: bool)
    requires vs != [] && vs[0].Ref? && vs[0].at in ms1 && ms1[vs[0].at].mrk && OnlyMarks(ms1, ms2) && OnlyMarks(ms2, r)
    requires AllCovered(r, vs[1..], young)
    ensures AllCovered(r, vs, young)
  {
    assert ms2[vs[0].at].mrk && r[vs[0].at].mrk;
    forall i | 0 <= i < |vs| ensures Covered(r, vs[i], young) {
      if i > 0 { assert vs[i] == vs[1..][i - 1]; }
    }
  }

  lemma VisitCompleteStep(ms: Metas, ms1: Metas, ms2: Metas, r: Metas, bs: Bodies, a: Addr, m: Meta, fm: Mode,
      young: bool)
    requires ms.Keys == bs.Keys && a in ms && OnlyMarks(ms2, r) && ms2.Keys == ms.Keys && ms1 == ms[a := m]
    requires AllCovered(ms2, Children(bs[a], fm), young)
    requires NewlyCovered(ms1, ms2, bs, young) && NewlyCovered(ms2, r, bs, young)
    ensures NewlyCovered(ms, r, bs, young)
  {
    forall b | b in r && b in bs && b in ms && r[b].mrk && !ms[b].mrk
      ensures AllCovered(r, bs[b].fields, young)
    {
      if ms2[b].mrk {
        if b == a {
          var kids := Children(bs[a], fm);
          forall i | 0 <= i < |bs[a].fields| ensures Covered(ms2, bs[a].fields[i], young) {
            assert bs[a].fields[i] == kids[if fm.Rec? then i + 1 else i];
          }
        }
        CoveredGrows(ms2, r, bs[b].fields, young);
      }
    }
  }

  /** The references of `b` stay in `s` or lead to the objects in `skip`. */
  ghost predicate StaysIn(b: Body, mode: Mode, s: set<Addr>, skip: set<Addr>)
  {
    (!YoungOnly(mode) ==> b.cls in s) && ValuesIn(b.fields, s + skip)
  }

  /** A visit ignores the objects of `skip`: old ones, when only young ones count. */
  ghost predicate Ignored(ms: Metas, mode: Mode, skip: set<Addr>)
  {
    forall a :: a in skip ==> YoungOnly(mode) && a in ms && ms[a].gen.Old?
  }

  /** Soundness: whatever gets marked lies in every set that contains the targets of the
      given values and is closed under fields (and, for a full visit, classes); a visit of
      young objects does not even follow the references out of old ones. */
  lemma {:induction false} VisitSound(ms: Metas, bs: Bodies, vs: seq<Value>, mode: Mode, s: set<Addr>, skip: set<Addr>)
    requires ms.Keys == bs.Keys && Closed(bs) && ValuesIn(vs, bs.Keys)
    requires ValuesIn(vs, s + skip) && Ignored(ms, mode, skip)
    requires forall a {:trigger StaysIn(bs[a], mode, s, skip)} :: a in s && a in bs ==> StaysIn(bs[a], mode, s, skip)
    ensures Unmarked(ms) - Unmarked(VisitAll(ms, bs, vs, mode)) <= s
    decreases |Unmarked(ms)|, |vs|
  {
    hide VisitAll;
    VisitSkip(ms, bs, vs, mode);
    if vs == [] {
    } else if vs[0].SmallInt? || Skips(ms[vs[0].at], mode) {
      VisitSound(ms, bs, vs[1..], mode, s, skip);
    } else {
      var a := vs[0].at;
      var ms1, ms2, fm := VisitUnfold(ms, bs, vs, mode);
      assert StaysIn(bs[a], mode, s, skip);
      VisitOnlyMarks(ms1, bs, Children(bs[a], fm), fm);
      forall b | b in s && b in bs ensures StaysIn(bs[b], fm, s, skip) {
        assert StaysIn(bs[b], mode, s, skip);
      }
      VisitSound(ms1, bs, Children(bs[a], fm), fm, s, skip);
      VisitSound(ms2, bs, vs[1..], mode, s, skip);
      assert Unmarked(ms) - Unmarked(ms1) == {a};
    }
  }

  // ----- Full collection ----------------------------------------------------

  function MarkedSet(ms: Metas): set<Addr>
  {
    set a | a in ms && ms[a].mrk
  }

  ghost predicate NoMarks(ms: Metas)
  {
    forall a {:trigger ms[a]} :: a in ms ==> !ms[a].mrk
  }

  ghost predicate ClassRooted(b: Body, roots: seq<Value>)
  {
    Ref(b.cls) in roots
  }

  /** Every class is a root of its own: the visits of fields referred to by old objects
      and of young fields leave the class pointer out. */
  ghost predicate ClassesRooted(bs: Bodies, roots: seq<Value>)
  {
    forall a {:trigger ClassRooted(bs[a], roots)} :: a in bs ==> ClassRooted(bs[a], roots)
  }

  /** The full visit of the roots marks exactly the reachable objects. */
  lemma {:induction false} FullMarkIsReachable(ms: Metas, bs: Bodies, roots: seq<Value>)
    requires ms.Keys == bs.Keys && Closed(bs) && ValuesIn(roots, bs.Keys) && NoMarks(ms)
    requires ClassesRooted(bs, roots)
    ensures ReachableSet(bs, roots, MarkedSet(VisitAll(ms, bs, roots, Rec)))
  {
    VisitComplete(ms, bs, roots, Rec);
    VisitOnlyMarks(ms, bs, roots, Rec);
    var r := VisitAll(ms, bs, roots, Rec);
    hide VisitAll;
    var s := MarkedSet(r);
    CoveredIn(r, roots, s);
    forall a | a in s ensures BodyIn(bs[a], s) {
      CoveredIn(r, bs[a].fields, s);
      assert ClassRooted(bs[a], roots);
    }
    forall t | ClosedSet(bs, roots, t) ensures s <= t {
      forall a | a in t && a in bs ensures StaysIn(bs[a], Rec, t, {}) {
        assert BodyIn(bs[a], t);
        assert t + {} == t;
      }
      assert t + {} == t;
      VisitSound(ms, bs, roots, Rec, t, {});
      assert s <= Unmarked(ms) - Unmarked(r);
    }
  }

  lemma CoveredIn(r: Metas, vs: seq<Value>, s: set<Addr>)
    requires AllCovered(r, vs, false) && s == MarkedSet(r)
    ensures ValuesIn(vs, s)
  {
    forall v | v in vs && v.Ref? ensures v.at in s {
      var i :| 0 <= i < |vs| && vs[i] == v;
      assert Covered(r, vs[i], false);
    }
  }

  // ----- Fast collection ----------------------------------------------------

  function OldSet(ms: Metas): set<Addr>
  {
    set a | a in ms && ms[a].gen.Old?
  }

  /** Visit the young objects that the remembered objects `rem` refer to, in order. */
  function MarkRemembered(ms: Metas, bs: Bodies, rem: seq<Addr>): (r: Metas)
    requires ms.Keys == bs.Keys && Closed(bs) && forall a :: a in rem ==> a in bs
    ensures r.Keys == ms.Keys
    decreases |rem|
  {
    if rem == [] then ms
    else
      assert BodyIn(bs[rem[0]], bs.Keys);
      MarkRemembered(VisitAll(ms, bs, bs[rem[0]].fields, O2Y), bs, rem[1..])
  }

  /** The marks a fast collection makes: from the roots, then from the remembered objects. */
  function MarkYoung(ms: Metas, bs: Bodies, roots: seq<Value>, rem: seq<Addr>): (r: Metas)
    requires ms.Keys == bs.Keys && Closed(bs) && ValuesIn(roots, bs.Keys)
    requires forall a :: a in rem ==> a in bs
    ensures r.Keys == ms.Keys
  {
    MarkRemembered(VisitAll(ms, bs, roots, RecY), bs, rem)
  }

  /** `s` holds the young objects that `roots` and the objects `rem` refer to and is closed
      under references between young objects. */
  ghost predicate YoungClosedSet(bs: Bodies, olds: set<Addr>, roots: seq<Value>, rem: seq<Addr>, s: set<Addr>)
  {
    ValuesIn(roots, s + olds) && FieldsIn(bs, rem, s + olds) && YoungClosed(bs, olds, s)
  }

  ghost predicate FieldsIn(bs: Bodies, rem: seq<Addr>, t: set<Addr>)
  {
    forall a :: a in rem && a in bs ==> ValuesIn(bs[a].fields, t)
  }

  ghost predicate YoungClosed(bs: Bodies, olds: set<Addr>, s: set<Addr>)
  {
    forall a {:trigger StaysIn(bs[a], RecY, s, olds)} :: a in s && a in bs ==> StaysIn(bs[a], RecY, s, olds)
  }

  /** What holds of a marking that visits young objects only, between two visits. */
  ghost predicate YoungMarking(ms: Metas, r: Metas, bs: Bodies)
  {
    OnlyMarks(ms, r) && OldUntouched(ms, r) && NewlyCovered(ms, r, bs, true)
  }

  lemma YoungMarkingTrans(ms: Metas, r: Metas, r': Metas, bs: Bodies)
    requires YoungMarking(ms, r, bs) && YoungMarking(r, r', bs) && ms.Keys == bs.Keys
    ensures YoungMarking(ms, r', bs)
  {
    forall a | a in r' && a in bs && a in ms && r'[a].mrk && !ms[a].mrk ensures AllCovered(r', bs[a].fields, true) {
      if r[a].mrk { CoveredGrows(r, r', bs[a].fields, true); }
    }
  }

  lemma {:induction false} VisitYoung(ms: Metas, bs: Bodies, vs: seq<Value>, mode: Mode)
    requires ms.Keys == bs.Keys && Closed(bs) && ValuesIn(vs, bs.Keys) && YoungOnly(mode)
    ensures YoungMarking(ms, VisitAll(ms, bs, vs, mode), bs)
    ensures AllCovered(VisitAll(ms, bs, vs, mode), vs, true)
  {
    VisitComplete(ms, bs, vs, mode);
    VisitOnlyMarks(ms, bs, vs, mode);
  }

  lemma {:induction false} RememberedComplete(ms: Metas, bs: Bodies, rem: seq<Addr>)
    requires ms.Keys == bs.Keys && Closed(bs) && forall a :: a in rem ==> a in bs
    ensures YoungMarking(ms, MarkRemembered(ms, bs, rem), bs)
    ensures forall a :: a in rem ==> AllCovered(MarkRemembered(ms, bs, rem), bs[a].fields, true)
    decreases |rem|
  {
    if rem != [] {
      assert BodyIn(bs[rem[0]], bs.Keys);
      var r := VisitAll(ms, bs, bs[rem[0]].fields, O2Y);
      VisitYoung(ms, bs, bs[rem[0]].fields, O2Y);
      hide VisitAll;
      RememberedComplete(r, bs, rem[1..]);
      var r' := MarkRemembered(r, bs, rem[1..]);
      YoungMarkingTrans(ms, r, r', bs);
      CoveredGrows(r, r', bs[rem[0]].fields, true);
      forall a | a in rem ensures AllCovered(r', bs[a].fields, true) {
        assert a == rem[0] || a in rem[1..];
      }
    }
  }

  lemma {:induction false} RememberedSound(ms: Metas, bs: Bodies, rem: seq<Addr>, olds: set<Addr>, s: set<Addr>)
    requires ms.Keys == bs.Keys && Closed(bs) && forall a :: a in rem ==> a in bs
    requires olds == OldSet(ms) && FieldsIn(bs, rem, s + olds) && YoungClosed(bs, olds, s)
    ensures Unmarked(ms) - Unmarked(MarkRemembered(ms, bs, rem)) <= s
    decreases |rem|
  {
    if rem != [] {
      assert BodyIn(bs[rem[0]], bs.Keys);
      var r := VisitAll(ms, bs, bs[rem[0]].fields, O2Y);
      YoungSound(ms, bs, bs[rem[0]].fields, O2Y, olds, s);
      hide VisitAll;
      RememberedSound(r, bs, rem[1..], olds, s);
    }
  }

  lemma {:induction false} YoungSound(ms: Metas, bs: Bodies, vs: seq<Value>, mode: Mode, olds: set<Addr>, s: set<Addr>)
    requires ms.Keys == bs.Keys && Closed(bs) && ValuesIn(vs, bs.Keys) && YoungOnly(mode)
    requires olds == OldSet(ms) && ValuesIn(vs, s + olds) && YoungClosed(bs, olds, s)
    ensures Unmarked(ms) - Unmarked(VisitAll(ms, bs, vs, mode)) <= s
    ensures OldSet(VisitAll(ms, bs, vs, mode)) == olds
  {
    forall a | a in s && a in bs ensures StaysIn(bs[a], mode, s, olds) {
      assert StaysIn(bs[a], RecY, s, olds);
    }
    VisitSound(ms, bs, vs, mode, s, olds);
    VisitOnlyMarks(ms, bs, vs, mode);
  }

  /** The marking of a fast collection marks exactly the young objects that can be reached
      from the roots and the remembered objects through young objects. */
  lemma YoungMarkIsReachable(ms: Metas, bs: Bodies, roots: seq<Value>, rem: seq<Addr>)
    requires ms.Keys == bs.Keys && Closed(bs) && ValuesIn(roots, bs.Keys) && NoMarks(ms)
    requires forall a :: a in rem ==> a in bs
    ensures
      var s := MarkedSet(MarkYoung(ms, bs, roots, rem));
      && s !! OldSet(ms)
      && YoungClosedSet(bs, OldSet(ms), roots, rem, s)
      && forall t :: YoungClosedSet(bs, OldSet(ms), roots, rem, t) ==> s <= t
    ensures YoungMarking(ms, MarkYoung(ms, bs, roots, rem), bs)
  {
    var olds := OldSet(ms);
    var r1 := VisitAll(ms, bs, roots, RecY);
    VisitYoung(ms, bs, roots, RecY);
    RememberedComplete(r1, bs, rem);
    var r := MarkYoung(ms, bs, roots, rem);
    YoungMarkingTrans(ms, r1, r, bs);
    CoveredGrows(r1, r, roots, true);
    var s := MarkedSet(r);
    forall t | YoungClosedSet(bs, olds, roots, rem, t) ensures s <= t {
      YoungSound(ms, bs, roots, RecY, olds, t);
      RememberedSound(r1, bs, rem, olds, t);
      assert s <= (Unmarked(ms) - Unmarked(r1)) + (Unmarked(r1) - Unmarked(r));
    }
    hide VisitAll, MarkRemembered, MarkYoung;
    CoveredInYoung(ms, r, roots, s);
    forall a | a in rem && a in bs ensures ValuesIn(bs[a].fields, s + olds) {
      CoveredInYoung(ms, r, bs[a].fields, s);
    }
    forall a | a in s && a in bs ensures StaysIn(bs[a], RecY, s, olds) {
      CoveredInYoung(ms, r, bs[a].fields, s);
    }
  }

  lemma CoveredInYoung(ms: Metas, r: Metas, vs: seq<Value>, s: set<Addr>)
    requires AllCovered(r, vs, true) && s == MarkedSet(r) && OnlyMarks(ms, r)
    ensures ValuesIn(vs, s + OldSet(ms))
  {
    forall v | v in vs && v.Ref? ensures v.at in s + OldSet(ms) {
      var i :| 0 <= i < |vs| && vs[i] == v;
      assert Covered(r, vs[i], true);
    }
  }
}
