/** The objects of the generational collector and the graph they form.

    An address is a pair (chunk, offset): every memory chunk, and every separately
    allocated big object, is its own region, so two objects can overlap only inside
    one region.  The words of an object are split in two maps with the same keys:
    its flag bits and `PTR` word (`Meta`) and everything that follows (`Body`). */
module ObjectHeap {

  datatype Addr = Addr(chunk: nat, off: nat)

  /** The null pointer: region 0 is never handed out. */
  const NULL := Addr(0, 0)

  /** A field holds a small int or the address of an object. */
  datatype Value = SmallInt(n: int) | Ref(at: Addr)

  /** Object meta.  `mid` is the shared MID/BIG bit.  `ptr` and `tag` together are the
      PTR word: chunk meta, next big object or new storage, and the has-young bit. */
  datatype Generation = Young | Old
  datatype Meta = Meta(gen: Generation, mid: bool, mrk: bool, ptr: Addr, tag: bool)

  /** Contents the collector does not trace.  Class objects hold the instance layout. */
  datatype Data = Native(bits: int) | ClassInfo(fieldCount: nat, hasExtra: bool)

  /** `count` is the number of field words; `fields` are the traced ones among them. */
  datatype Body = Body(cls: Addr, count: nat, fields: seq<Value>, data: Data)

  type Metas = map<Addr, Meta>
  type Bodies = map<Addr, Body>

  const HEAD_SIZE: nat := 16
  const WORD_SIZE: nat := 8

  /** The number of bytes an object occupies. */
  function Size(b: Body): nat
  {
    HEAD_SIZE + WORD_SIZE * b.count
  }

  /** The class of the object at `a` can be read and describes its size. */
  predicate Sized(bs: Bodies, a: Addr)
    requires a in bs
  {
    bs[a].cls in bs &&
    match bs[bs[a].cls].data
    case Native(_) => false
    case ClassInfo(n, extra) => if extra then n <= bs[a].count else n == bs[a].count
  }

  /** The size as the collector reads it, through the class object. */
  function SizeThroughClass(bs: Bodies, a: Addr): nat
    requires a in bs && bs[a].cls in bs && bs[bs[a].cls].data.ClassInfo?
  {
    var info := bs[bs[a].cls].data;
    HEAD_SIZE + WORD_SIZE * (if info.hasExtra then bs[a].count else info.fieldCount)
  }

  ghost predicate ValuesIn(vs: seq<Value>, dom: set<Addr>)
  {
    forall v :: v in vs && v.Ref? ==> v.at in dom
  }

  /** The class and all the references of an object lie in `dom`. */
  ghost predicate BodyIn(b: Body, dom: set<Addr>)
  {
    b.cls in dom && ValuesIn(b.fields, dom)
  }

  /** No dangling references and no broken class pointer. */
  ghost predicate Closed(bs: Bodies)
  {
    forall a {:trigger BodyIn(bs[a], bs.Keys)} :: a in bs ==> BodyIn(bs[a], bs.Keys)
  }

  /** `s` contains the targets of `roots` and is closed under fields and class pointers. */
  ghost predicate ClosedSet(bs: Bodies, roots: seq<Value>, s: set<Addr>)
  {
    s <= bs.Keys && ValuesIn(roots, s) &&
    forall a {:trigger BodyIn(bs[a], s)} :: a in s ==> BodyIn(bs[a], s)
  }

  /** The reachable objects: the least closed set. */
  ghost predicate ReachableSet(bs: Bodies, roots: seq<Value>, s: set<Addr>)
  {
    ClosedSet(bs, roots, s) &&
    forall t :: ClosedSet(bs, roots, t) ==> s <= t
  }

  // ----- Isomorphic object graphs -------------------------------------------

  function MapValue(f: map<Addr, Addr>, v: Value): Value
  {
    if v.Ref? && v.at in f then Ref(f[v.at]) else v
  }

  /** `vs'` is `vs` with every reference replaced by its image. */
  ghost predicate MappedValues(f: map<Addr, Addr>, vs: seq<Value>, vs': seq<Value>)
  {
    |vs'| == |vs| && forall i :: 0 <= i < |vs| ==> vs'[i] == MapValue(f, vs[i])
  }

  ghost predicate MappedBody(f: map<Addr, Addr>, b: Body, b': Body)
  {
    b'.data == b.data && b'.count == b.count &&
    b'.cls == (if b.cls in f then f[b.cls] else b.cls) &&
    MappedValues(f, b.fields, b'.fields)
  }

  /** Two different addresses; a name to instantiate `Injective` with. */
  predicate Apart(a: Addr, b: Addr) { a != b }

  ghost predicate Injective(f: map<Addr, Addr>)
  {
    forall a, b {:trigger Apart(a, b)} :: a in f && b in f && Apart(a, b) ==> f[a] != f[b]
  }

  /** `f` carries the part of the graph it is defined on, which contains everything
      reachable, over to the new heap without losing, merging or changing anything. */
  ghost predicate Isomorphic(bs: Bodies, roots: seq<Value>, bs': Bodies, roots': seq<Value>, f: map<Addr, Addr>)
  {
    ClosedSet(bs, roots, f.Keys) && Injective(f) &&
    MappedValues(f, roots, roots') &&
    forall a {:trigger bs[a]} :: a in f ==> f[a] in bs' && MappedBody(f, bs[a], bs'[f[a]])
  }

  // ----- What a program can see ---------------------------------------------

  /** One step of a program looking at the heap: to a field, or to the class. */
  datatype Step = ToField(index: nat) | ToClass

  function Follow(bs: Bodies, v: Value, path: seq<Step>): (r: Value)
    decreases |path|
  {
    if path == [] || v.SmallInt? || v.at !in bs then v
    else match path[0]
      case ToClass => Follow(bs, Ref(bs[v.at].cls), path[1..])
      case ToField(i) =>
        if i < |bs[v.at].fields| then Follow(bs, bs[v.at].fields[i], path[1..]) else v
  }

  /** In an isomorphic heap every access path leads to the corresponding object. */
  lemma {:induction false} FollowIsomorphic(bs: Bodies, roots: seq<Value>, bs': Bodies, roots': seq<Value>,
      f: map<Addr, Addr>, v: Value, path: seq<Step>)
    requires Isomorphic(bs, roots, bs', roots', f)
    requires v.Ref? ==> v.at in f
    ensures Follow(bs', MapValue(f, v), path) == MapValue(f, Follow(bs, v, path))
    ensures Follow(bs, v, path).Ref? ==> Follow(bs, v, path).at in f
    decreases |path|
  {
    if path != [] && v.Ref? {
      var b := bs[v.at];
      assert BodyIn(b, f.Keys);
      match path[0]
      case ToClass => FollowIsomorphic(bs, roots, bs', roots', f, Ref(b.cls), path[1..]);
      case ToField(i) =>
        if i < |b.fields| {
          FollowIsomorphic(bs, roots, bs', roots', f, b.fields[i], path[1..]);
        }
    }
  }

  predicate SameContents(b: Body, b': Body)
  {
    b'.data == b.data && b'.count == b.count && |b'.fields| == |b.fields|
  }

  /** A program cannot tell the two heaps apart: the values and untraced contents at the
      end of two access paths agree, and the paths meet in one heap iff in the other. */
  lemma {:induction false} Indistinguishable(bs: Bodies, roots: seq<Value>, bs': Bodies, roots': seq<Value>,
      f: map<Addr, Addr>, i: nat, p: seq<Step>, j: nat, q: seq<Step>)
    requires Isomorphic(bs, roots, bs', roots', f)
    requires i < |roots| && j < |roots|
    ensures
      var x, x' := Follow(bs, roots[i], p), Follow(bs', roots'[i], p);
      var y, y' := Follow(bs, roots[j], q), Follow(bs', roots'[j], q);
      && (x == y <==> x' == y')
      && (x.SmallInt? ==> x' == x)
      && (x.Ref? ==> (x'.Ref? && x.at in bs && x'.at in bs' && SameContents(bs[x.at], bs'[x'.at])))
  {
    FollowIsomorphic(bs, roots, bs', roots', f, roots[i], p);
    FollowIsomorphic(bs, roots, bs', roots', f, roots[j], q);
    var x, y := Follow(bs, roots[i], p), Follow(bs, roots[j], q);
    assert x.Ref? && y.Ref? ==> (Apart(x.at, y.at) <==> x.at != y.at);
  }
}
