/** What the program does to the heap between two collections. */
module Mutator {
  import opened ObjectHeap
  import opened Layout
  import opened Marking
  import opened Spaces
  import opened BigSpace
  import opened Invariant
  import opened Outcome
  import opened RememberedObjects
  import opened FastOutcome

  // ----- Roots --------------------------------------------------------------

  /** Any roots that are there will do, as long as the class objects come first. */
  lemma RootsSet(s: State, roots: seq<Value>)
    requires Valid(s) && ValuesIn(roots, s.bodies.Keys) && s.classes <= |roots| && s.classes <= |s.roots|
    requires roots[..s.classes] == s.roots[..s.classes]
    ensures
      var t := s.(roots := roots);
      Valid(t) && RememberedList(t) == RememberedList(s) && (Generational(t) <==> Generational(s))
  {
    hide ValidStorage, ValidFlags, Closed, AllSized, RememberedList, ValuesIn;
    var t := s.(roots := roots);
    forall j | 0 <= j < s.classes ensures roots[j] == Ref(s.oldLay[0][j].at) {
      assert roots[..s.classes][j] == s.roots[..s.classes][j];
    }
    RootsApart(s, t);
  }

  lemma RootsApart(s: State, t: State)
    requires t == s.(roots := t.roots)
    ensures ValidStorage(s) ==> ValidStorage(t)
    ensures ValidFlags(s) ==> ValidFlags(t)
    ensures RememberedList(t) == RememberedList(s)
  {
    hide Regions, WorkingStored, OldsStored, Idle, AllRememberedStored, TotalSizeOf, AddrsOf, OldAddrs, BigAddrs,
      YoungFlags, AllOldFlags, BigList, NoMarks;
  }

  // ----- Recording offsets --------------------------------------------------

  ghost predicate Increasing(list: seq<nat>)
  {
    forall j, k {:trigger Before(j, k)} :: 0 <= j && Before(j, k) && k < |list| ==> list[j] < list[k]
  }

  /** The recorded offsets of a chunk after one more has been recorded. */
  function Record(list: seq<nat>, off: nat): seq<nat>
  {
    if list == [] || off < list[0] then [off] + list
    else if off == list[0] then list
    else [list[0]] + Record(list[1..], off)
  }

  lemma {:induction false} RecordMembers(list: seq<nat>, off: nat, x: nat)
    ensures x in Record(list, off) <==> x in list || x == off
  {
    if list != [] && off > list[0] { RecordMembers(list[1..], off, x); }
  }

  lemma {:induction false} RecordIncreasing(list: seq<nat>, off: nat)
    requires Increasing(list)
    ensures Increasing(Record(list, off))
  {
    if list == [] {
    } else if off < list[0] {
      var r := [off] + list;
      forall j, k | 0 <= j && Before(j, k) && k < |r| ensures r[j] < r[k] {
        assert Before(j - 1, k - 1) && (k > 1 ==> Before(0, k - 1));
      }
    } else if off > list[0] {
      var rest := list[1..];
      forall j, k | 0 <= j && Before(j, k) && k < |rest| ensures rest[j] < rest[k] { assert Before(j + 1, k + 1); }
      RecordIncreasing(rest, off);
      var r := [list[0]] + Record(rest, off);
      forall j, k | 0 <= j && Before(j, k) && k < |r| ensures r[j] < r[k] {
        assert Before(j - 1, k - 1);
        if j == 0 {
          assert r[k] in Record(rest, off);
          RecordMembers(rest, off, r[k]);
          if r[k] in rest {
            var m :| 0 <= m < |rest| && rest[m] == r[k];
            assert Before(0, m + 1);
          }
        }
      }
    }
  }

  // ----- The write barrier --------------------------------------------------

  /** `a` is remembered now, and otherwise the same objects as before. */
  ghost predicate OneMoreRemembered(s: State, t: State, a: Addr)
  {
    forall x :: x in RememberedList(t) <==> x in RememberedList(s) || x == a
  }

  lemma RememberedSame(s: State, s': State, t: State, a: Addr)
    requires RememberedList(s') == RememberedList(s)
    ensures OneMoreRemembered(s', t, a) <==> OneMoreRemembered(s, t, a)
  {
    hide RememberedList;
  }

  /** An offset has been recorded in chunk number `i`. */
  function RecordedIn(olds: seq<OldChunk>, i: nat, off: nat): (r: seq<OldChunk>)
    requires i < |olds|
  {
    olds[i := olds[i].(remembered := Offsets(Record(if olds[i].remembered.Offsets? then olds[i].remembered.list
      else [], off)))]
  }

  lemma {:induction false} RecordedInChunk(c: OldChunk, off: nat, x: Addr)
    ensures
      var c' := c.(remembered := Offsets(Record(if c.remembered.Offsets? then c.remembered.list else [], off)));
      x in InChunk(c') <==> x in InChunk(c) || x == Addr(c.id, off)
  {
    var list := if c.remembered.Offsets? then c.remembered.list else [];
    var c' := c.(remembered := Offsets(Record(list, off)));
    RecordMembers(list, off, x.off);
    if x.chunk == c.id {
      ChunkListMembers(c, x.off);
      ChunkListMembers(c', x.off);
    } else {
      NotOfChunk(c, x); NotOfChunk(c', x);
    }
  }

  lemma NotOfChunk(c: OldChunk, x: Addr)
    requires x.chunk != c.id
    ensures x !in InChunk(c)
  {
  }

  /** Recording an old small object. */
  lemma RecordedSmall(s: State, t: State, i: nat, a: Addr)
    requires Valid(s) && i < |s.olds| && a in OldAddrs(s.oldLay) && a.chunk == s.olds[i].id
    requires t == s.(olds := RecordedIn(s.olds, i, a.off))
    ensures Valid(t) && OneMoreRemembered(s, t, a)
  {
    hide ValidGraph, InBigSpace;
    forall x ensures x in InOldSpace(t.olds) <==> x in InOldSpace(s.olds) || x == a {
      RecordedMember(s.olds, i, a.off, x);
    }
    RecordedValid(s, t, i, a);
  }

  lemma {:induction false} RecordedMember(olds: seq<OldChunk>, i: nat, off: nat, x: Addr)
    requires i < |olds|
    ensures x in InOldSpace(RecordedIn(olds, i, off)) <==> x in InOldSpace(olds) || x == Addr(olds[i].id, off)
  {
    var olds' := RecordedIn(olds, i, off);
    OldListMembers(olds, x);
    OldListMembers(olds', x);
    RecordedInChunk(olds[i], off, x);
    if k :| 0 <= k < |olds| && x in InChunk(olds[k]) { assert x in InChunk(olds'[k]); }
    if k :| 0 <= k < |olds'| && x in InChunk(olds'[k]) { assert k != i ==> x in InChunk(olds[k]); }
    if x == Addr(olds[i].id, off) { assert x in InChunk(olds'[i]); }
  }

  /** Only remembered sets differ. */
  ghost predicate SameChunks(olds: seq<OldChunk>, olds': seq<OldChunk>)
  {
    |olds'| == |olds| && forall k {:trigger olds'[k]} {:trigger olds[k]} ::
      0 <= k < |olds| ==> olds'[k] == olds[k].(remembered := olds'[k].remembered)
  }

  lemma RecordedValid(s: State, t: State, i: nat, a: Addr)
    requires Valid(s) && i < |s.olds| && a in OldAddrs(s.oldLay) && a.chunk == s.olds[i].id
    requires t == s.(olds := RecordedIn(s.olds, i, a.off))
    ensures Valid(t)
  {
    hide ValidGraph, WorkingStored, OldsStored, BigList, NoMarks, YoungFlags, AllOldFlags, Regions, Idle,
      AllRememberedStored, OldAddrs, AddrsOf, BigAddrs, TotalSizeOf, Record;
    SamePlace(s, i, a);
    GraphSame(s, t);
    SameChunksKeep(s, t.olds);
    RememberedAfter(s, i, a);
  }

  lemma GraphSame(s: State, t: State)
    requires ValidGraph(s) && t.bodies == s.bodies && t.roots == s.roots && t.oldLay == s.oldLay &&
      t.classes == s.classes
    ensures ValidGraph(t)
  {
  }

  lemma SameChunksKeep(s: State, olds: seq<OldChunk>)
    requires ValidStorage(s) && AllOldFlags(s.metas, s.olds, s.oldLay) && SameChunks(s.olds, olds)
    ensures OldsStored(s.bodies, olds, s.oldLay) && AllOldFlags(s.metas, olds, s.oldLay)
    ensures Regions(s.working.id, s.free.id, olds, s.bigs, s.regions) && Idle(olds)
  {
    hide WorkingStored, AllRememberedStored, Tiled, Occupied, SmallBlocks;
    forall k | 0 <= k < |olds| ensures OldFlags(s.metas, olds[k].id, s.oldLay[k]) && Stored(s.bodies, olds[k].id,
      META_SIZE, olds[k].top, OLD_END, s.oldLay[k]) {
      assert OldFlags(s.metas, s.olds[k].id, s.oldLay[k]) &&
        Stored(s.bodies, s.olds[k].id, META_SIZE, s.olds[k].top, OLD_END, s.oldLay[k]);
    }
    RegionsSame(s, s.(olds := olds));
  }

  lemma RememberedAfter(s: State, i: nat, a: Addr)
    requires AllRememberedStored(s.olds, s.oldLay) && i < |s.olds| && a in AddrsOf(s.oldLay[i]) &&
      a.chunk == s.olds[i].id
    ensures AllRememberedStored(RecordedIn(s.olds, i, a.off), s.oldLay)
  {
    hide AddrsOf, Record;
    var olds := RecordedIn(s.olds, i, a.off);
    forall k | 0 <= k < |olds| ensures RememberedStored(olds[k], s.oldLay[k]) {
      assert RememberedStored(s.olds[k], s.oldLay[k]);
      if k == i {
        forall x | x in InChunk(olds[i]) ensures x in AddrsOf(s.oldLay[i]) {
          RecordedInChunk(s.olds[i], a.off, x);
          ChunkListStored(s.olds[i], s.oldLay[i]);
        }
        StoredByList(olds[i], s.oldLay[i]);
      }
    }
  }

  lemma RegionsSame(s: State, t: State)
    requires Regions(s.working.id, s.free.id, s.olds, s.bigs, s.regions) && Idle(s.olds)
    requires t.working.id == s.working.id && t.free.id == s.free.id && t.bigs == s.bigs && t.regions == s.regions &&
      SameChunks(s.olds, t.olds)
    ensures Regions(t.working.id, t.free.id, t.olds, t.bigs, t.regions) && Idle(t.olds)
  {
    assert forall k {:trigger t.olds[k]} {:trigger s.olds[k]} ::
      0 <= k < |t.olds| ==> t.olds[k].id == s.olds[k].id && t.olds[k].visited == s.olds[k].visited;
  }

  lemma StoredByList(c: OldChunk, lay: seq<Block>)
    requires c.remembered.Offsets? && forall x :: x in InChunk(c) ==> x in AddrsOf(lay)
    ensures RememberedStored(c, lay)
  {
    forall k | 0 <= k < |c.remembered.list| ensures Addr(c.id, c.remembered.list[k]) in AddrsOf(lay) {
      assert InChunk(c)[k] == Addr(c.id, c.remembered.list[k]);
    }
  }

  /** The old object `a` lies in the chunk its region says. */
  lemma SamePlace(s: State, i: nat, a: Addr)
    requires ValidStorage(s) && i < |s.olds| && a in OldAddrs(s.oldLay) && a.chunk == s.olds[i].id
    ensures i < |s.oldLay| && a in AddrsOf(s.oldLay[i])
  {
    hide WorkingStored, AllRememberedStored, OldsStored, Regions, TotalSizeOf, Idle, BigAddrs;
    assert |s.oldLay| == |s.olds| by { SameNumber(s.bodies, s.olds, s.oldLay); }
    var k, j :| 0 <= k < |s.oldLay| && 0 <= j < |s.oldLay[k]| && s.oldLay[k][j].at == a;
    BlockOfChunk(s.bodies, s.olds, s.oldLay, k, j);
    ChunksApart(s.working.id, s.free.id, s.olds, s.bigs, s.regions, i, k);
  }

  lemma SameNumber(bs: Bodies, olds: seq<OldChunk>, lays: seq<seq<Block>>)
    requires OldsStored(bs, olds, lays)
    ensures |lays| == |olds|
  {
  }

  lemma BlockOfChunk(bs: Bodies, olds: seq<OldChunk>, lays: seq<seq<Block>>, k: nat, j: nat)
    requires OldsStored(bs, olds, lays) && k < |lays| && j < |lays[k]|
    ensures k < |olds| && lays[k][j].at.chunk == olds[k].id
  {
    assert Stored(bs, olds[k].id, META_SIZE, olds[k].top, OLD_END, lays[k]);
  }

  lemma ChunksApart(working: nat, free: nat, olds: seq<OldChunk>, bigs: seq<Addr>, regions: nat, i: nat, k: nat)
    requires Regions(working, free, olds, bigs, regions) && i < |olds| && k < |olds| && olds[i].id == olds[k].id
    ensures i == k
  {
    assert if k < i then Before(k, i) else if i < k then Before(i, k) else true;
  }

  /** Recording a big object. */
  lemma RecordedBig(s: State, t: State, a: Addr)
    requires Valid(s) && a in BigAddrs(s.bigs) && a in s.metas &&
      t == s.(metas := s.metas[a := s.metas[a].(tag := true)])
    ensures Valid(t) && OneMoreRemembered(s, t, a)
  {
    hide InOldSpace, InBigSpace, WorkingStored, OldsStored, Regions, ValidGraph, AllRememberedStored, ValidFlags,
      AddrsOf, OldAddrs, BigAddrs, TotalSizeOf, Idle;
    forall x ensures x in InBigSpace(t.metas, t.bigs) <==> x in InBigSpace(s.metas, s.bigs) || x == a {
      BigListMembers(s.metas, s.bigs, x);
      BigListMembers(t.metas, t.bigs, x);
    }
    SmallNotBigHere(s);
    GraphSame(s, t);
    FlagsApart(s, a, s.metas[a].(tag := true));
  }

  lemma FlagsApart(s: State, a: Addr, m: Meta)
    requires ValidFlags(s) && a in s.metas && a !in AddrsOf(s.workLay) + OldAddrs(s.oldLay) &&
      m == s.metas[a].(tag := m.tag)
    ensures ValidFlags(s.(metas := s.metas[a := m]))
  {
    var ms := s.metas[a := m];
    forall i | 0 <= i < |s.olds| ensures OldFlags(ms, s.olds[i].id, s.oldLay[i]) {
      assert OldFlags(s.metas, s.olds[i].id, s.oldLay[i]);
      forall j | 0 <= j < |s.oldLay[i]| ensures s.oldLay[i][j].at != a {
        assert s.oldLay[i][j].at in OldAddrs(s.oldLay);
      }
    }
    forall j | 0 <= j < |s.workLay| ensures s.workLay[j].at != a { assert s.workLay[j].at in AddrsOf(s.workLay); }
  }

  lemma SmallNotBigHere(s: State)
    requires Valid(s)
    ensures AddrsOf(s.workLay) + OldAddrs(s.oldLay) !! BigAddrs(s.bigs)
  {
    hide ValidFlags, ValidGraph;
    FullCollection.SmallNotBig(s);
  }
  // ----- Storing a field ----------------------------------------------------

  /** The state after `v` has been stored into field `i` of the object at `a`. */
  function FieldSet(s: State, a: Addr, i: nat, v: Value): State
    requires a in s.bodies && i < |s.bodies[a].fields|
  {
    s.(bodies := s.bodies[a := s.bodies[a].(fields := s.bodies[a].fields[i := v])])
  }

  lemma FieldSetValid(s: State, a: Addr, i: nat, v: Value)
    requires Valid(s) && a in s.bodies && i < |s.bodies[a].fields| && (v.Ref? ==> v.at in s.bodies)
    ensures Valid(FieldSet(s, a, i, v)) && RememberedList(FieldSet(s, a, i, v)) == RememberedList(s)
  {
    hide ValidFlags, ValidStorage, ValidGraph, RememberedList;
    BodySetStored(s, a, s.bodies[a].(fields := s.bodies[a].fields[i := v]));
    GraphLike(s, a, i, v);
    FlagsLike(s, FieldSet(s, a, i, v));
  }

  lemma FlagsLike(s: State, t: State)
    requires ValidFlags(s) && t == s.(bodies := t.bodies)
    ensures ValidFlags(t) && RememberedList(t) == RememberedList(s)
  {
  }

  /** The storage does not depend on what the fields hold. */
  lemma BodySetStored(s: State, a: Addr, b: Body)
    requires ValidStorage(s) && a in s.bodies && Size(b) == Size(s.bodies[a])
    ensures ValidStorage(s.(bodies := s.bodies[a := b]))
  {
    hide Tiled, Regions, AllRememberedStored, TotalSizeOf, WorkingStored, OldsStored, Idle;
    var bs := s.bodies[a := b];
    assert bs.Keys == s.bodies.Keys;
    FullCollection.StoredSameSizes(s.bodies, bs, s.olds, s.oldLay, s.working, s.workLay);
    BigsIn(s);
    SameTotal(s.bodies, bs, s.bigs);
  }

  lemma BigsIn(s: State)
    requires ValidStorage(s)
    ensures forall k {:trigger s.bigs[k]} :: 0 <= k < |s.bigs| ==> s.bigs[k] in s.bodies
  {
    hide Regions, WorkingStored, OldsStored, AllRememberedStored;
    forall k | 0 <= k < |s.bigs| ensures s.bigs[k] in s.bodies { assert s.bigs[k] in BigAddrs(s.bigs); }
  }

  lemma GraphLike(s: State, a: Addr, i: nat, v: Value)
    requires ValidGraph(s) && a in s.bodies && i < |s.bodies[a].fields| && (v.Ref? ==> v.at in s.bodies)
    ensures ValidGraph(FieldSet(s, a, i, v))
  {
    hide Closed, AllSized, ClassPrefix;
    var t := FieldSet(s, a, i, v);
    assert t.bodies.Keys == s.bodies.Keys;
    ClosedLike(s.bodies, a, i, v);
    SizedLike(s.bodies, a, t.bodies[a]);
    PrefixLike(s.bodies, a, t.bodies[a], s.oldLay, s.roots, s.classes);
  }

  lemma ClosedLike(bs: Bodies, a: Addr, i: nat, v: Value)
    requires Closed(bs) && a in bs && i < |bs[a].fields| && (v.Ref? ==> v.at in bs)
    ensures Closed(bs[a := bs[a].(fields := bs[a].fields[i := v])])
  {
    var b := bs[a].(fields := bs[a].fields[i := v]);
    assert bs[a := b].Keys == bs.Keys;
    assert BodyIn(bs[a], bs.Keys);
    assert BodyIn(b, bs.Keys);
  }

  lemma SizedLike(bs: Bodies, a: Addr, b: Body)
    requires AllSized(bs) && a in bs && b == bs[a].(fields := b.fields)
    ensures AllSized(bs[a := b])
  {
    forall x | x in bs ensures Sized(bs[a := b], x) { assert Sized(bs, x); }
  }

  lemma PrefixLike(bs: Bodies, a: Addr, b: Body, lays: seq<seq<Block>>, roots: seq<Value>, n: nat)
    requires ClassPrefix(bs, lays, roots, n) && a in bs && b == bs[a].(fields := b.fields)
    ensures ClassPrefix(bs[a := b], lays, roots, n)
  {
    forall x | x in bs ensures ClassInPrefix(bs[a := b][x], lays[0], n) { assert ClassInPrefix(bs[x], lays[0], n); }
  }

  /** A store keeps the generational invariant if the barrier has done its work. */
  lemma FieldSetGenerational(s: State, t: State, a: Addr, i: nat, v: Value)
    requires Valid(s) && Generational(s) && a in s.bodies && i < |s.bodies[a].fields| && (v.Ref? ==> v.at in s.bodies)
    requires t.bodies == FieldSet(s, a, i, v).bodies && t.metas.Keys == s.metas.Keys
    requires forall x {:trigger t.metas[x]} :: x in t.metas ==> t.metas[x].gen == s.metas[x].gen
    requires forall x :: x in RememberedList(s) ==> x in RememberedList(t)
    requires v.Ref? && s.metas[a].gen.Old? && s.metas[v.at].gen.Young? ==> a in RememberedList(t)
    ensures Generational(t)
  {
    hide Valid, RememberedList;
    MarkReady(s);
    forall x | x in t.bodies && x in OldSet(t.metas) && x !in RememberedList(t) ensures NoYoung(t.metas, t.bodies[x]) {
      assert x in OldSet(s.metas) && NoYoung(s.metas, s.bodies[x]);
      forall w | w in t.bodies[x].fields && w.Ref? && w.at in t.metas ensures t.metas[w.at].gen.Old? {
        assert t.metas[w.at].gen == s.metas[w.at].gen;
        if x == a && w !in s.bodies[x].fields {
          assert w == v;
        }
      }
    }
  }

  // ----- Allocation ---------------------------------------------------------

  /** A new object of a class `c`: its traced fields hold no references yet. */
  predicate NewBody(s: State, b: Body)
  {
    b.cls in s.bodies && (forall v :: v in b.fields ==> v.SmallInt?) &&
    match s.bodies[b.cls].data
    case Native(_) => false
    case ClassInfo(n, extra) => if extra then n <= b.count else n == b.count
  }

  /** `c` is one of the class objects. */
  ghost predicate IsClass(s: State, c: Addr)
  {
    s.oldLay != [] && InPrefix(s.oldLay[0], s.classes, c)
  }

  lemma GraphGrown(s: State, t: State, a: Addr, b: Body)
    requires ValidGraph(s) && a !in s.bodies && NewBody(s, b) && IsClass(s, b.cls)
    requires t.bodies == s.bodies[a := b] && t.roots == s.roots && t.classes == s.classes
    requires t.oldLay != [] && |s.oldLay[0]| <= |t.oldLay[0]| && t.oldLay[0][..|s.oldLay[0]|] == s.oldLay[0]
    ensures ValidGraph(t)
  {
    hide Closed, AllSized, ClassPrefix;
    ClosedGrown(s, a, b);
    SizedGrown(s, a, b);
    PrefixGrown(s, t, a, b);
    assert t.bodies.Keys == s.bodies.Keys + {a};
    forall v | v in t.roots && v.Ref? ensures v.at in t.bodies.Keys { assert v in s.roots; }
  }

  lemma ClosedGrown(s: State, a: Addr, b: Body)
    requires Closed(s.bodies) && a !in s.bodies && NewBody(s, b)
    ensures Closed(s.bodies[a := b])
  {
    var bs := s.bodies[a := b];
    assert bs.Keys == s.bodies.Keys + {a};
    forall x | x in bs ensures BodyIn(bs[x], bs.Keys) {
      if x != a { assert BodyIn(s.bodies[x], s.bodies.Keys); }
    }
  }

  lemma SizedGrown(s: State, a: Addr, b: Body)
    requires AllSized(s.bodies) && a !in s.bodies && NewBody(s, b)
    ensures AllSized(s.bodies[a := b])
  {
    var bs := s.bodies[a := b];
    forall x | x in bs ensures Sized(bs, x) {
      if x != a { assert Sized(s.bodies, x); }
    }
  }

  lemma PrefixGrown(s: State, t: State, a: Addr, b: Body)
    requires ClassPrefix(s.bodies, s.oldLay, s.roots, s.classes) && a !in s.bodies && IsClass(s, b.cls)
    requires t.bodies == s.bodies[a := b] && t.roots == s.roots && t.classes == s.classes
    requires t.oldLay != [] && |s.oldLay[0]| <= |t.oldLay[0]| && t.oldLay[0][..|s.oldLay[0]|] == s.oldLay[0]
    ensures ClassPrefix(t.bodies, t.oldLay, t.roots, t.classes)
  {
    forall j | 0 <= j < s.classes ensures t.roots[j] == Ref(t.oldLay[0][j].at) {
      assert s.roots[j] == Ref(s.oldLay[0][j].at) && t.oldLay[0][..|s.oldLay[0]|][j] == t.oldLay[0][j];
    }
    forall x | x in t.bodies ensures ClassInPrefix(t.bodies[x], t.oldLay[0], t.classes) {
      if x != a { assert ClassInPrefix(s.bodies[x], s.oldLay[0], s.classes); }
      var c := t.bodies[x].cls;
      var j :| 0 <= j < s.classes && j < |s.oldLay[0]| && s.oldLay[0][j].at == c;
      assert t.oldLay[0][..|s.oldLay[0]|][j] == t.oldLay[0][j];
    }
  }

  /** A new object at the end of new space. */
  function GrownYoung(s: State, b: Body): State
  {
    var a := Addr(s.working.id, s.working.top);
    s.(bodies := s.bodies[a := b], metas := s.metas[a := Meta(Young, false, false, NULL, false)],
       working := s.working.(top := s.working.top + Size(b)), workLay := s.workLay + [Block(a, Size(b))])
  }

  lemma GrownYoungValid(s: State, b: Body)
    requires Valid(s) && NewBody(s, b) && IsClass(s, b.cls) && Size(b) <= MAX_SMALL && s.working.top + Size(b) < NEW_END
    ensures Addr(s.working.id, s.working.top) !in s.bodies && Valid(GrownYoung(s, b))
    ensures Generational(s) ==> Generational(GrownYoung(s, b))
  {
    hide Regions, WorkingStored, OldsStored, AllRememberedStored, YoungFlags, AllOldFlags, BigList, NoMarks, ValidGraph,
      TotalSizeOf, AddrsOf, OldAddrs, BigAddrs,
      Idle, Generational, NewBody;
    var a, t := Addr(s.working.id, s.working.top), GrownYoung(s, b);
    YoungEndFree(s);
    AddrsAppend(s.workLay, Block(a, Size(b)));
    NewStorage(s, t, a, b);
    NewYoungStored(s, a, b);
    NewFlags(s, a, b, Meta(Young, false, false, NULL, false));
    PrefixHere(s);
    GraphGrown(s, t, a, b);
    RememberedGrown(s, t, a, Meta(Young, false, false, NULL, false));
    NewGenerational(s, t, a, b);
    RegionsTop(s, t);
  }

  lemma PrefixHere(s: State)
    requires ValidGraph(s)
    ensures s.oldLay != [] && s.oldLay[0][..|s.oldLay[0]|] == s.oldLay[0]
  {
  }

  lemma RegionsTop(s: State, t: State)
    requires Regions(s.working.id, s.free.id, s.olds, s.bigs, s.regions) && Idle(s.olds)
    requires t.working.id == s.working.id && t.free == s.free && t.olds == s.olds && t.bigs == s.bigs &&
      t.regions == s.regions
    ensures Regions(t.working.id, t.free.id, t.olds, t.bigs, t.regions) && Idle(t.olds)
  {
  }

  lemma YoungEndFree(s: State)
    requires Valid(s)
    ensures Addr(s.working.id, s.working.top) !in s.bodies
  {
    hide ValidFlags, ValidGraph, Tiled, Occupied;
    var a := Addr(s.working.id, s.working.top);
    TargetFree(s);
    forall x | x in s.bodies ensures x != a {
      if x.chunk == s.working.id {
        PlaceIn(s, x);
        var j :| 0 <= j < |s.workLay| && s.workLay[j].at == x;
        BlockEnd(s.working.id, 0, s.workLay, j);
        assert s.workLay[j].size >= HEAD_SIZE by { TiledSize(s.working.id, 0, s.workLay, j); }
      }
    }
  }

  lemma TiledSize(id: nat, start: nat, lay: seq<Block>, j: nat)
    requires Tiled(id, start, lay) && j < |lay|
    ensures lay[j].size >= HEAD_SIZE
  {
  }

  /** Adding an object leaves the storage of the others alone. */
  lemma NewStorage(s: State, t: State, a: Addr, b: Body)
    requires ValidStorage(s) && a !in s.bodies && t.bodies == s.bodies[a := b]
    ensures OldsStored(t.bodies, s.olds, s.oldLay) && WorkingStored(t.bodies, s.working, s.workLay) &&
      TotalSizeOf(t.bodies, s.bigs) == TotalSizeOf(s.bodies, s.bigs)
  {
    hide Regions, Tiled, SmallBlocks, TotalSizeOf, AllRememberedStored;
    FullCollection.StillStored(s.bodies, t.bodies, s.working.id, 0, s.working.top, NEW_END, s.workLay);
    forall i | 0 <= i < |s.olds| ensures Stored(t.bodies, s.olds[i].id, META_SIZE, s.olds[i].top, OLD_END,
      s.oldLay[i]) {
      assert Stored(s.bodies, s.olds[i].id, META_SIZE, s.olds[i].top, OLD_END, s.oldLay[i]);
      FullCollection.StillStored(s.bodies, t.bodies, s.olds[i].id, META_SIZE, s.olds[i].top, OLD_END, s.oldLay[i]);
    }
    BigsIn(s);
    SameTotal(s.bodies, t.bodies, s.bigs);
  }

  lemma NewYoungStored(s: State, a: Addr, b: Body)
    requires WorkingStored(s.bodies[a := b], s.working, s.workLay) && a == Addr(s.working.id, s.working.top)
    requires Size(b) <= MAX_SMALL && s.working.top + Size(b) < NEW_END
    ensures WorkingStored(s.bodies[a := b], s.working.(top := s.working.top + Size(b)), s.workLay + [Block(a, Size(b))])
  {
    TiledAppend(s.working.id, 0, s.workLay, Size(b));
  }

  lemma NewFlags(s: State, a: Addr, b: Body, m: Meta)
    requires Valid(s) && a !in s.bodies && m.gen.Young? && !m.mrk
    ensures YoungFlags(s.metas[a := m], s.workLay + [Block(a, Size(b))]) &&
      AllOldFlags(s.metas[a := m], s.olds, s.oldLay)
    ensures BigList(s.metas[a := m], s.bigFirst, s.bigs) && NoMarks(s.metas[a := m])
  {
    hide ValidStorage, ValidGraph, AllOldFlags, YoungFlags, BigList, NoMarks;
    MarkReady(s);
    OldFlagsGrown(s, a, m);
    YoungFlagsGrown(s.metas, s.workLay, a, Size(b), m);
    BigListGrown(s.metas, s.bigFirst, s.bigs, a, m);
    NoMarksGrown(s.metas, a, m);
  }

  lemma YoungFlagsGrown(ms: Metas, lay: seq<Block>, a: Addr, n: nat, m: Meta)
    requires YoungFlags(ms, lay) && a !in ms && m.gen.Young? && !m.mrk
    ensures YoungFlags(ms[a := m], lay + [Block(a, n)]) && YoungFlags(ms[a := m], lay)
  {
  }

  lemma BigListGrown(ms: Metas, first: Addr, bigs: seq<Addr>, a: Addr, m: Meta)
    requires BigList(ms, first, bigs) && a !in ms
    ensures BigList(ms[a := m], first, bigs) && InBigSpace(ms[a := m], bigs) == InBigSpace(ms, bigs)
  {
    SameBigTags(ms, ms[a := m], bigs);
  }

  lemma NoMarksGrown(ms: Metas, a: Addr, m: Meta)
    requires NoMarks(ms) && !m.mrk
    ensures NoMarks(ms[a := m])
  {
  }

  /** A new young object is not remembered. */
  lemma RememberedGrown(s: State, t: State, a: Addr, m: Meta)
    requires Valid(s) && a !in s.bodies && t.metas == s.metas[a := m] && InOldSpace(t.olds) == InOldSpace(s.olds) &&
      t.bigs == s.bigs
    ensures RememberedList(t) == RememberedList(s)
  {
    hide ValidStorage, ValidGraph, AllOldFlags, YoungFlags, BigList, NoMarks, InBigSpace, InOldSpace;
    MarkReady(s);
    BigListGrown(s.metas, s.bigFirst, s.bigs, a, m);
  }

  lemma OldFlagsGrown(s: State, a: Addr, m: Meta)
    requires Valid(s) && a !in s.bodies
    ensures AllOldFlags(s.metas[a := m], s.olds, s.oldLay)
  {
    hide Valid, AllOldFlags;
    MarkReady(s);
    OldFlagsHere(s);
    OldFlagsOther(s.metas, a, m, s.olds, s.oldLay);
  }

  lemma OldFlagsHere(s: State)
    requires Valid(s)
    ensures AllOldFlags(s.metas, s.olds, s.oldLay)
  {
    hide ValidStorage, ValidGraph, YoungFlags, BigList, NoMarks, AllOldFlags;
  }

  lemma OldFlagsOther(ms: Metas, a: Addr, m: Meta, olds: seq<OldChunk>, lays: seq<seq<Block>>)
    requires AllOldFlags(ms, olds, lays) && a !in ms
    ensures AllOldFlags(ms[a := m], olds, lays)
  {
    forall i | 0 <= i < |lays| && i < |olds| ensures OldFlags(ms[a := m], olds[i].id, lays[i]) {
      assert OldFlags(ms, olds[i].id, lays[i]);
    }
  }

  /** A new object refers to nothing, so it need not be remembered. */
  lemma NewGenerational(s: State, t: State, a: Addr, b: Body)
    requires Valid(s) && a !in s.bodies && NewBody(s, b) && t.bodies == s.bodies[a := b] &&
      t.metas.Keys == t.bodies.Keys
    requires forall x {:trigger t.metas[x]} :: x in s.metas ==> x in t.metas && t.metas[x].gen == s.metas[x].gen
    requires forall x :: x in RememberedList(s) ==> x in RememberedList(t)
    ensures Generational(s) ==> Generational(t)
  {
    hide Valid, RememberedList;
    MarkReady(s);
    if Generational(s) {
      forall x | x in t.bodies && x in OldSet(t.metas) && x !in RememberedList(t)
        ensures NoYoung(t.metas, t.bodies[x]) {
        if x != a {
          assert t.metas[x].gen == s.metas[x].gen;
          assert x in OldSet(s.metas) && NoYoung(s.metas, s.bodies[x]) && BodyIn(s.bodies[x], s.bodies.Keys);
          forall w | w in t.bodies[x].fields && w.Ref? && w.at in t.metas ensures t.metas[w.at].gen.Old? {
            assert t.metas[w.at].gen == s.metas[w.at].gen;
          }
        }
      }
    }
  }

  /** A new object at the end of old space. */
  function GrownOld(s: State, b: Body): State
    requires s.olds != [] && |s.oldLay| == |s.olds|
  {
    var n := |s.olds| - 1;
    var a := Addr(s.olds[n].id, s.olds[n].top);
    s.(bodies := s.bodies[a := b], metas := s.metas[a := Meta(Old, false, false, Addr(s.olds[n].id, 0), false)],
       olds := s.olds[n := s.olds[n].(top := s.olds[n].top + Size(b))],
         oldLay := s.oldLay[n := s.oldLay[n] + [Block(a, Size(b))]])
  }

  lemma GrownOldValid(s: State, b: Body)
    requires Valid(s) && s.olds != [] && |s.oldLay| == |s.olds|
    requires NewBody(s, b) && IsClass(s, b.cls) && Size(b) <= MAX_SMALL && s.olds[|s.olds| - 1].top + Size(b) < OLD_END
    ensures Addr(s.olds[|s.olds| - 1].id, s.olds[|s.olds| - 1].top) !in s.bodies && Valid(GrownOld(s, b))
    ensures Generational(s) ==> Generational(GrownOld(s, b))
  {
    hide Regions, WorkingStored, OldsStored, AllRememberedStored, YoungFlags, AllOldFlags, BigList, NoMarks, ValidGraph,
      TotalSizeOf, AddrsOf, OldAddrs, BigAddrs,
      Idle, Generational, NewBody, RememberedList;
    var n := |s.olds| - 1;
    var a, t := Addr(s.olds[n].id, s.olds[n].top), GrownOld(s, b);
    OldEndFree(s);
    GrownAddrsOf(s.oldLay, [Block(a, Size(b))]);
    OneAddr(Block(a, Size(b)));
    NewStorage(s, t, a, b);
    NewOldStored(s, t, n, a, b);
    NewOldFlags(s, t, n, a, b);
    PrefixHere(s);
    GraphGrown(s, t, a, b);
    RegionsOld(s, t, n, a, b);
    NewGenerational(s, t, a, b);
  }

  lemma OneAddr(b: Block)
    ensures AddrsOf([b]) == {b.at}
  {
    AddrsNone();
    AddrsAppend([], b);
    assert [] + [b] == [b];
  }

  lemma OldEndFree(s: State)
    requires Valid(s) && s.olds != []
    ensures Addr(s.olds[|s.olds| - 1].id, s.olds[|s.olds| - 1].top) !in s.bodies
  {
    hide ValidFlags, ValidGraph, Tiled, Occupied;
    forall x | x in s.bodies ensures x != Addr(s.olds[|s.olds| - 1].id, s.olds[|s.olds| - 1].top) { PlaceIn(s, x); }
  }

  lemma NewOldStored(s: State, t: State, n: nat, a: Addr, b: Body)
    requires |s.oldLay| == |s.olds| && n == |s.olds| - 1 && OldsStored(t.bodies, s.olds, s.oldLay) &&
      t == GrownOld(s, b)
    requires a == Addr(s.olds[n].id, s.olds[n].top) && Size(b) <= MAX_SMALL && s.olds[n].top + Size(b) < OLD_END
    ensures OldsStored(t.bodies, t.olds, t.oldLay)
  {
    hide Tiled;
    forall i | 0 <= i < |t.olds| ensures Stored(t.bodies, t.olds[i].id, META_SIZE, t.olds[i].top, OLD_END,
      t.oldLay[i]) {
      assert Stored(t.bodies, s.olds[i].id, META_SIZE, s.olds[i].top, OLD_END, s.oldLay[i]);
      if i == n { TiledAppend(s.olds[n].id, META_SIZE, s.oldLay[n], Size(b)); }
    }
  }

  lemma NewOldFlags(s: State, t: State, n: nat, a: Addr, b: Body)
    requires Valid(s) && |s.oldLay| == |s.olds| && n == |s.olds| - 1 && t == GrownOld(s, b) &&
      a == Addr(s.olds[n].id, s.olds[n].top) && a !in s.bodies
    ensures ValidFlags(t)
  {
    hide ValidStorage, ValidGraph, AllOldFlags, YoungFlags, BigList, NoMarks;
    MarkReady(s);
    var m := Meta(Old, false, false, Addr(s.olds[n].id, 0), false);
    OldFlagsGrown(s, a, m);
    OldFlagsAppended(s, t, n, a, b);
    YoungFlagsKept(s.metas, s.workLay, a, m);
    BigListGrown(s.metas, s.bigFirst, s.bigs, a, m);
    NoMarksGrown(s.metas, a, m);
  }

  lemma OldFlagsAppended(s: State, t: State, n: nat, a: Addr, b: Body)
    requires AllOldFlags(t.metas, s.olds, s.oldLay) && n == |s.olds| - 1 && n < |s.oldLay| && t == GrownOld(s, b) &&
      a == Addr(s.olds[n].id, s.olds[n].top)
    ensures AllOldFlags(t.metas, t.olds, t.oldLay)
  {
    forall i | 0 <= i < |t.olds| ensures OldFlags(t.metas, t.olds[i].id, t.oldLay[i]) {
      assert OldFlags(t.metas, s.olds[i].id, s.oldLay[i]);
    }
  }

  lemma YoungFlagsKept(ms: Metas, lay: seq<Block>, a: Addr, m: Meta)
    requires YoungFlags(ms, lay) && a !in ms
    ensures YoungFlags(ms[a := m], lay)
  {
  }

  lemma RegionsOld(s: State, t: State, n: nat, a: Addr, b: Body)
    requires Valid(s) && |s.oldLay| == |s.olds| && n == |s.olds| - 1 && t == GrownOld(s, b) &&
      a == Addr(s.olds[n].id, s.olds[n].top) && a !in s.bodies
    ensures Regions(t.working.id, t.free.id, t.olds, t.bigs, t.regions) && Idle(t.olds) &&
      AllRememberedStored(t.olds, t.oldLay)
    ensures RememberedList(t) == RememberedList(s)
  {
    hide ValidGraph, ValidFlags, WorkingStored, OldsStored, TotalSizeOf, RememberedList, Regions, Idle,
      AllRememberedStored, RememberedStored;
    RegionsKept(s, t);
    RememberedAppended(s.olds, s.oldLay, n, s.olds[n].(top := t.olds[n].top), Block(a, Size(b)));
    assert t.olds[..n] == s.olds[..n] && InChunk(t.olds[n]) == InChunk(s.olds[n]);
    RememberedGrown(s, t, a, Meta(Old, false, false, Addr(s.olds[n].id, 0), false));
  }

  lemma RegionsKept(s: State, t: State)
    requires Regions(s.working.id, s.free.id, s.olds, s.bigs, s.regions) && Idle(s.olds)
    requires t.working.id == s.working.id && t.free.id == s.free.id && t.bigs == s.bigs && t.regions == s.regions &&
      |t.olds| == |s.olds|
    requires forall k {:trigger t.olds[k]} {:trigger s.olds[k]} ::
      0 <= k < |t.olds| ==> t.olds[k].id == s.olds[k].id && t.olds[k].visited == s.olds[k].visited
    ensures Regions(t.working.id, t.free.id, t.olds, t.bigs, t.regions) && Idle(t.olds)
  {
  }

  lemma RememberedAppended(olds: seq<OldChunk>, lays: seq<seq<Block>>, n: nat, c: OldChunk, b: Block)
    requires AllRememberedStored(olds, lays) && n < |olds| && c == olds[n].(top := c.top)
    ensures AllRememberedStored(olds[n := c], lays[n := lays[n] + [b]])
  {
    hide AddrsOf;
    AddrsAppend(lays[n], b);
    var olds', lays' := olds[n := c], lays[n := lays[n] + [b]];
    forall i | 0 <= i < |olds| ensures RememberedStored(olds'[i], lays'[i]) {
      assert RememberedStored(olds[i], lays[i]);
    }
  }

  /** A new big object at the head of the list. */
  function GrownBig(s: State, b: Body): State
  {
    var a := Addr(s.regions + 1, 0);
    s.(bodies := s.bodies[a := b], metas := s.metas[a := Meta(Old, true, false, s.bigFirst, false)],
       regions := s.regions + 1, bigFirst := a, bigs := [a] + s.bigs, bigAllocated := s.bigAllocated + Size(b))
  }

  lemma GrownBigValid(s: State, b: Body)
    requires Valid(s) && NewBody(s, b) && IsClass(s, b.cls)
    ensures Addr(s.regions + 1, 0) !in s.bodies && Valid(GrownBig(s, b))
    ensures Generational(s) ==> Generational(GrownBig(s, b))
  {
    hide Regions, WorkingStored, OldsStored, AllRememberedStored, YoungFlags, AllOldFlags, BigList, NoMarks, ValidGraph,
      TotalSizeOf, AddrsOf, OldAddrs, BigAddrs,
      Idle, Generational, NewBody, RememberedList;
    var a, t := Addr(s.regions + 1, 0), GrownBig(s, b);
    NewRegionFree(s);
    NewStorage(s, t, a, b);
    NewTotal(s, t, a, b);
    NewBigFlags(s, t, a, b);
    PrefixHere(s);
    GraphGrown(s, t, a, b);
    RegionsBig(s, t, a, b);
    NewGenerational(s, t, a, b);
    forall x ensures x in BigAddrs(t.bigs) <==> x == a || x in BigAddrs(s.bigs) { BigAddrsHead(t.bigs, x); }
  }

  lemma NewRegionFree(s: State)
    requires Valid(s)
    ensures Addr(s.regions + 1, 0) !in s.bodies
  {
    hide ValidFlags, ValidGraph, Tiled, Occupied;
    forall x | x in s.bodies ensures x.chunk <= s.regions { RegionKnown(s, x); }
  }

  lemma RegionKnown(s: State, x: Addr)
    requires ValidStorage(s) && x in s.bodies
    ensures x.chunk <= s.regions
  {
    hide WorkingStored, OldsStored, AllRememberedStored;
    if x in AddrsOf(s.workLay) {
      YoungPlace(s, x);
    } else if x in OldAddrs(s.oldLay) {
      var i, j :| 0 <= i < |s.oldLay| && 0 <= j < |s.oldLay[i]| && s.oldLay[i][j].at == x;
      OldCount(s);
      OldRegion(s, i);
      BlockEnd(s.olds[i].id, META_SIZE, s.oldLay[i], j);
    } else {
      var k :| 0 <= k < |s.bigs| && s.bigs[k] == x;
    }
  }

  lemma NewTotal(s: State, t: State, a: Addr, b: Body)
    requires ValidStorage(s) && t == GrownBig(s, b) && a == Addr(s.regions + 1, 0) &&
      TotalSizeOf(t.bodies, s.bigs) == TotalSizeOf(s.bodies, s.bigs)
    ensures t.bigAllocated == TotalSizeOf(t.bodies, t.bigs)
  {
    hide Regions, WorkingStored, OldsStored, AllRememberedStored;
    BigsIn(s);
    assert t.bigs[1..] == s.bigs;
    forall k | 0 <= k < |t.bigs| ensures t.bigs[k] in t.bodies { assert k > 0 ==> t.bigs[k] == s.bigs[k - 1]; }
    assert forall k {:trigger s.bigs[k]} :: 0 <= k < |s.bigs| ==> s.bigs[k] in t.bodies;
  }

  lemma NewBigFlags(s: State, t: State, a: Addr, b: Body)
    requires Valid(s) && t == GrownBig(s, b) && a == Addr(s.regions + 1, 0) && a !in s.bodies
    ensures ValidFlags(t) && RememberedList(t) == RememberedList(s)
  {
    hide ValidStorage, ValidGraph, AllOldFlags, YoungFlags, BigList, NoMarks, InOldSpace;
    MarkReady(s);
    var m := Meta(Old, true, false, s.bigFirst, false);
    OldFlagsGrown(s, a, m);
    YoungFlagsKept(s.metas, s.workLay, a, m);
    BigListGrown(s.metas, s.bigFirst, s.bigs, a, m);
    NoMarksGrown(s.metas, a, m);
    BigListHead(t.metas, s.bigFirst, s.bigs, a);
    HeadUntagged(t.metas, s.bigs, a);
  }

  lemma BigListHead(ms: Metas, first: Addr, bigs: seq<Addr>, a: Addr)
    requires BigList(ms, first, bigs) && a in ms && a != NULL && ms[a].gen.Old? && ms[a].mid && ms[a].ptr == first
    ensures BigList(ms, a, [a] + bigs)
  {
    var l := [a] + bigs;
    forall k | 0 <= k < |l|
      ensures l[k] in ms && l[k] != NULL && ms[l[k]].gen.Old? && ms[l[k]].mid && ms[l[k]].ptr == NextBig(l, k) {
      if k > 0 { assert l[k] == bigs[k - 1]; }
    }
  }

  lemma {:induction false} HeadUntagged(ms: Metas, bigs: seq<Addr>, a: Addr)
    requires a in ms && !ms[a].tag
    ensures InBigSpace(ms, [a] + bigs) == InBigSpace(ms, bigs)
  {
    var l := [a] + bigs;
    if bigs == [] {
      assert l[..0] == [];
    } else {
      var n := |bigs| - 1;
      assert l[..|l| - 1] == [a] + bigs[..n] && l[|l| - 1] == bigs[n];
      HeadUntagged(ms, bigs[..n], a);
    }
  }

  lemma RegionsBig(s: State, t: State, a: Addr, b: Body)
    requires ValidStorage(s) && t == GrownBig(s, b) && a == Addr(s.regions + 1, 0)
    ensures Regions(t.working.id, t.free.id, t.olds, t.bigs, t.regions)
  {
    hide WorkingStored, OldsStored, AllRememberedStored, Idle, TotalSizeOf;
    assert forall k {:trigger t.bigs[k]} :: 0 <= k < |t.bigs| ==> t.bigs[k] == if k == 0 then a else s.bigs[k - 1];
    forall j, k | 0 <= j && Before(j, k) && k < |t.bigs| ensures t.bigs[j].chunk != t.bigs[k].chunk {
      if j > 0 { assert Before(j - 1, k - 1); }
    }
  }

  // ----- For the barrier ----------------------------------------------------

  /** Where the metas say an old object is. */
  lemma OldPlaces(s: State, a: Addr)
    requires Valid(s) && a in s.bodies && a in s.metas && s.metas[a].gen.Old?
    ensures s.metas[a].mid ==> a in BigAddrs(s.bigs)
    ensures !s.metas[a].mid ==>
      a in OldAddrs(s.oldLay) && s.metas[a].ptr == Addr(a.chunk, 0) && exists k ::
      0 <= k < |s.olds| && s.olds[k].id == a.chunk
  {
    hide ValidGraph, Regions, WorkingStored, NoMarks, AllRememberedStored, YoungFlags, OldsStored;
    OldObjects(s);
    assert a in OldSet(s.metas);
    if a in BigAddrs(s.bigs) {
      var k :| 0 <= k < |s.bigs| && s.bigs[k] == a;
    } else {
      var i, j :| 0 <= i < |s.oldLay| && 0 <= j < |s.oldLay[i]| && s.oldLay[i][j].at == a;
      OldCount(s);
      assert OldFlags(s.metas, s.olds[i].id, s.oldLay[i]);
      OldRegion(s, i);
      BlockEnd(s.olds[i].id, META_SIZE, s.oldLay[i], j);
    }
  }

  /** After the barrier `a` is remembered if need be, and nothing has been forgotten. */
  lemma RememberedAtLeast(s: State, s1: State, t: State, a: Addr, v: Value)
    requires RememberedList(s1) == RememberedList(s) && a in s.metas && s1.metas == s.metas &&
      (v.Ref? ==> v.at in s.metas)
    requires
      if s.metas[a].gen.Old? && exists k :: 0 <= k < |[v]| && [v][k].Ref? && s.metas[[v][k].at].gen.Young?
      then OneMoreRemembered(s1, t, a) else t == s1
    ensures forall x :: x in RememberedList(s) ==> x in RememberedList(t)
    ensures v.Ref? && s.metas[a].gen.Old? && s.metas[v.at].gen.Young? ==> a in RememberedList(t)
  {
    hide RememberedList;
    assert [v][0] == v;
  }
}
