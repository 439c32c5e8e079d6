/** The globals of a module: an array of values, and a map from names to indices. */
module ModuleObjects {
  import opened Language
  import opened Emission
  import opened Labelled

  /** Setting a global by name: a new name is appended, the value of a known one replaced. */
  function SetByName(names: seq<string>, globals: seq<Value>, x: string, v: Value): (r: (seq<string>, seq<Value>))
    requires |names| == |globals|
    ensures |r.0| == |r.1| && r.0 == AddName(names, x)
  {
    if x in names then (names, globals[IndexOf(names, x) := v]) else (names + [x], globals + [v])
  }

  /** A table of names: each has its position as index. */
  ghost predicate Table(indices: map<string, nat>, names: seq<string>)
  {
    && |indices| == |names| && Distinct(names)
    && (forall x {:trigger x in indices} {:trigger x in names} :: x in indices <==> x in names)
    && (forall x {:trigger x in indices} :: x in indices ==> indices[x] == IndexOf(names, x))
  }

  lemma TableDistinct(indices: map<string, nat>, names: seq<string>)
    requires Table(indices, names)
    ensures Distinct(names)
  {
  }

  lemma {:induction false} AppendedIndex(names: seq<string>, x: string, y: string)
    requires x !in names && (y in names || y == x)
    ensures IndexOf(names + [x], y) == if y == x then |names| else IndexOf(names, y)
  {
    var all := names + [x];
    var i := IndexOf(all, y);
    assert all[|names|] == x;
    forall k | 0 <= k < |names| ensures all[k] == names[k] {}
  }

  /** A name that is not in the table gets the next index. */
  lemma {:induction false} TableGrows(indices: map<string, nat>, names: seq<string>, x: string)
    requires Table(indices, names) && x !in names
    ensures Table(indices[x := |names|], names + [x]) && IndexOf(names + [x], x) == |names|
  {
    var more := indices[x := |names|];
    AppendedIndex(names, x, x);
    forall y | y in more ensures more[y] == IndexOf(names + [x], y) { AppendedIndex(names, x, y); }
  }

  function Nils(n: nat): (r: seq<Value>)
    ensures |r| == n && forall k :: 0 <= k < n ==> r[k] == Nil
  {
    seq(n, _ => Nil)
  }

  /** What a compilation does to the globals of a module: new names are nil, and the function
      that runs the module is stored under the empty name. */
  function Published(names0: seq<string>, globals0: seq<Value>, names: seq<string>, func: Value): (seq<string>,
      seq<Value>)
    requires |names0| == |globals0| && |names0| <= |names|
  {
    SetByName(names, globals0 + Nils(|names| - |names0|), "", func)
  }

  class ModuleObj {
    var globals: seq<Value>
    var globalsMap: map<string, nat>
    ghost var names: seq<string>

    ghost predicate Valid()
      reads this
    {
      |globals| == |names| && Table(globalsMap, names)
    }

    constructor ()
      ensures Valid() && names == [] && globals == []
    {
      globals, globalsMap, names := [], map[], [];
    }

    /** The index of a global, or -1. */
    method FindGlobal(x: string) returns (index: int)
      requires Valid()
      ensures index == if x in names then IndexOf(names, x) else -1
    {
      index := if x in globalsMap then globalsMap[x] else -1;
    }

    method GetGlobal(index: nat) returns (v: Option<Value>)
      requires Valid()
      ensures v == if index < |globals| then Some(globals[index]) else Option.None
    {
      v := if index >= |globals| then Option.None else Some(globals[index]);
    }

    method GetGlobalByName(x: string) returns (v: Option<Value>)
      requires Valid()
      ensures v == if x in names then Some(globals[IndexOf(names, x)]) else Option.None
    {
      v := if x in globalsMap then Some(globals[globalsMap[x]]) else Option.None;
    }

    method SetGlobal(index: nat, v: Value) returns (done: bool)
      requires Valid()
      modifies this
      ensures Valid() && names == old(names) && done == (index < |old(globals)|)
      ensures globals == if done then old(globals)[index := v] else old(globals)
    {
      if index >= |globals| { return false; }
      globals := globals[index := v];
      done := true;
    }

    method SetGlobalByName(x: string, v: Value) returns (index: nat)
      requires Valid()
      modifies this
      ensures Valid() && (names, globals) == SetByName(old(names), old(globals), x, v)
      ensures index == IndexOf(names, x)
    {
      hide Table, Distinct;
      var found := FindGlobal(x);
      if found == -1 {
        TableGrows(globalsMap, names, x);
        index := |globals|;
        globals := globals + [v];
        globalsMap := globalsMap[x := index];
        names := names + [x];
      } else {
        index := found;
        globals := globals[index := v];
      }
    }

    /** All names, each at its index. */
    method GlobalNames() returns (out: seq<string>)
      requires Valid()
      ensures out == names
    {
      out := ByIndex(globalsMap, names);
    }
  }

  lemma TableSize(indices: map<string, nat>, names: seq<string>)
    requires Table(indices, names)
    ensures |indices| == |names|
    ensures forall k {:trigger names[k]} :: 0 <= k < |names| ==> names[k] in indices
  {
    hide Distinct, IndexOf;
  }

  lemma TableAt(indices: map<string, nat>, names: seq<string>, x: string)
    requires Table(indices, names) && x in indices
    ensures indices[x] < |names| && names[indices[x]] == x
    ensures forall k {:trigger names[k]} :: 0 <= k < |names| && names[k] == x ==> k == indices[x]
  {
  }

  /** The names of a table by index, collected in whatever order the map is walked. */
  method ByIndex(indices: map<string, nat>, ghost names: seq<string>) returns (out: seq<string>)
    requires Table(indices, names)
    ensures out == names
  {
    hide Table, Distinct, IndexOf;
    TableSize(indices, names);
    var found := new string[|indices|](_ => "");
    var left := indices.Keys;
    while left != {}
      invariant left <= indices.Keys
      invariant forall k {:trigger found[k]} :: 0 <= k < |names| && names[k] !in left ==> found[k] == names[k]
      decreases |left|
    {
      var x :| x in left;
      TableAt(indices, names, x);
      found[indices[x]] := x;
      left := left - {x};
    }
    out := found[..];
  }
}
