/** Compiled modules: the bytes mean what the source means. */
module Compiled {
  import opened Language
  import opened Bytecode
  import opened Emission
  import opened Labelled
  import opened Assembling
  import opened ByteMachine
  import opened Wellformed
  import opened Correctness
  import opened ModuleObjects

  // ----- The whole module, with labels --------------------------------------

  /** The answer of the source, and the state of the machine after `n` steps. */
  ghost predicate Matches(names: seq<string>, answer: Answer, fuel: nat, vm: Vm, n: nat, globals': seq<Value>)
  {
    |globals'| == |names| &&
    match answer
    case Value(v, st) => st == StoreOf(names, globals') && vm == Finished(v, globals')
    case Exception(e, st) => st == StoreOf(names, globals') && vm == Threw(e, globals')
    case NoMeaning => vm == Crashed
    case Unfinished => vm.Running? && n > fuel
  }

  /** What follows the statements of a module: return the last value, or nil. */
  lemma EndRuns(rt: Runtime, names0: seq<string>, m: Module, names: seq<string>, globals: seq<Value>, stack: seq<Value>,
      vm: Vm, n: nat)
    returns (k: nat, globals': seq<Value>)
    requires |globals| == |names| && Distinct(names) &&
      Extends(CompileModule(names0, m).prog, names, CompileModule(names0, m))
    requires Steps(rt, CompileModule(names0, m).prog, names, vm, n) ==
      Running(|Statements(names0, m).prog.instrs|, stack, globals)
    ensures |globals'| == |names|
    ensures
      var end := Steps(rt, CompileModule(names0, m).prog, names, vm, k);
      if m.last.None? then globals' == globals && end == Finished(Nil, globals)
      else match Eval(rt, StoreOf(names, globals), m.last.value)
        case Ok(v, st) => st == StoreOf(names, globals') && end == Finished(v, globals')
        case Raised(e, st) => st == StoreOf(names, globals') && end == Threw(e, globals')
        case Stuck => end == Crashed
  {
    hide Extends, Distinct, StoreOf, Steps, Step, Grown;
    var c := Statements(names0, m);
    var whole := CompileModule(names0, m);
    var p := whole.prog;
    if m.last.None? {
      AtEmit(p, names, c, RET_NIL, 0);
      ThenPlain(rt, p, names, vm, n, |c.prog.instrs|, stack, globals, RET_NIL, 0);
      k, globals' := n + 1, globals;
    } else {
      var d := CompileExpr(c, m.last.value, Push);
      var d1 := Emit(d, RET, 0);
      EmitGrows(d1, RET_NIL, 0, Push);
      ExtendsEarlier(p, names, d1, whole);
      EmitGrows(d, RET, 0, Push);
      ExtendsEarlier(p, names, d, d1);
      k, globals' := ExprCorrect(rt, p, names, c, m.last.value, Push, stack, globals);
      StepsAdd(rt, p, names, vm, n, k);
      k := n + k;
      var res := Eval(rt, StoreOf(names, globals), m.last.value);
      if res.Ok? {
        AtEmit(p, names, d, RET, 0);
        ThenPlain(rt, p, names, vm, k, |d.prog.instrs|, stack + [res.v], globals', RET, 0);
        k := k + 1;
      }
    }
  }

  /** The state of the generator behind the statements of a module. */
  function Statements(names0: seq<string>, m: Module): Code
  {
    CompileBlock(Code(Program([], [], []), names0, Fine), m.code)
  }

  lemma StatementsExtended(names0: seq<string>, m: Module, names: seq<string>)
    requires CompileModule(names0, m).names <= names
    ensures Extends(CompileModule(names0, m).prog, names, CompileModule(names0, m))
    ensures Extends(CompileModule(names0, m).prog, names, Statements(names0, m))
  {
    var c := Statements(names0, m);
    var whole := CompileModule(names0, m);
    if m.last.Some? { CompileExprGrows(c, m.last.value, Push); }
    ExtendsEarlier(whole.prog, names, c, whole);
  }

  /** Running the code of a module from its beginning, on any stack. */
  lemma ModuleRuns(rt: Runtime, names0: seq<string>, m: Module, names: seq<string>, globals: seq<Value>,
      stack: seq<Value>, fuel: nat)
    returns (n: nat, globals': seq<Value>)
    requires |globals| == |names| && Distinct(names) && CompileModule(names0, m).names <= names
    ensures Matches(names, ExecModule(rt, StoreOf(names, globals), m, fuel), fuel,
                    Steps(rt, CompileModule(names0, m).prog, names, Running(0, stack, globals), n), n, globals')
  {
    hide Extends, Distinct, StoreOf, Steps, Step, Grown;
    var p := CompileModule(names0, m).prog;
    StatementsExtended(names0, m, names);
    n, globals' := BlockCorrect(rt, p, names, Code(Program([], [], []), names0, Fine), m.code, fuel, stack, globals);
    if ExecBlock(rt, StoreOf(names, globals), m.code, fuel).Normal? {
      n, globals' := EndRuns(rt, names0, m, names, globals', stack, Running(0, stack, globals), n);
    }
  }

  // ----- The whole module, as bytes -----------------------------------------

  /** The bytes of a module. */
  ghost function Bytes(names0: seq<string>, m: Module): seq<Byte>
    requires Encodable(CompileModule(names0, m).prog)
  {
    Assembled(CompileModule(names0, m).prog)
  }

  /** The machine after `n` instructions of the module, started with the given globals. */
  ghost function After(rt: Runtime, names0: seq<string>, m: Module, names: seq<string>, globals: seq<Value>,
      stack: seq<Value>, n: nat): Vm
    requires Encodable(CompileModule(names0, m).prog)
  {
    ByteSteps(rt, Bytes(names0, m), CompileModule(names0, m).prog.symbols, names, Running(0, stack, globals), n)
  }

  /** Compiler correctness: for every module, every store and every bound on loop iterations,
      the bytes come to what the source comes to. */
  lemma ModuleCorrect(rt: Runtime, names0: seq<string>, m: Module, names: seq<string>, globals: seq<Value>,
      stack: seq<Value>, fuel: nat)
    returns (n: nat, globals': seq<Value>)
    requires |globals| == |names| && Distinct(names)
    requires Encodable(CompileModule(names0, m).prog) && CompileModule(names0, m).names <= names
    ensures Matches(names, ExecModule(rt, StoreOf(names, globals), m, fuel), fuel,
      After(rt, names0, m, names, globals, stack, n), n, globals')
  {
    hide Distinct, StoreOf, CompileModule, ExecModule, Encodable, Steps, ByteSteps, Assembled;
    var p := CompileModule(names0, m).prog;
    n, globals' := ModuleRuns(rt, names0, m, names, globals, stack, fuel);
    StepsSimulated(rt, p, names, Running(0, stack, globals), n);
  }

  /** And conversely: whatever the bytes come to is what the source comes to. */
  lemma ModuleExact(rt: Runtime, names0: seq<string>, m: Module, names: seq<string>, globals: seq<Value>,
      stack: seq<Value>, n: nat)
    requires |globals| == |names| && Distinct(names)
    requires Encodable(CompileModule(names0, m).prog) && CompileModule(names0, m).names <= names
    ensures
      match After(rt, names0, m, names, globals, stack, n)
      case Running(_, _, _) => true
      case Finished(v, g) =>
        |g| == |names| && ExecModule(rt, StoreOf(names, globals), m, n) == Answer.Value(v, StoreOf(names, g))
      case Threw(e, g) =>
        |g| == |names| && ExecModule(rt, StoreOf(names, globals), m, n) == Exception(e, StoreOf(names, g))
      case Crashed => ExecModule(rt, StoreOf(names, globals), m, n) == NoMeaning
  {
    hide Distinct, StoreOf, CompileModule, ExecModule, Encodable, ByteSteps, Bytes;
    var k, globals' := ModuleCorrect(rt, names0, m, names, globals, stack, n);
    SameEnd(rt, Bytes(names0, m), CompileModule(names0, m).prog.symbols, names, Running(0, stack, globals), k, n);
  }

  /** Of two states of one run, the later one decides. */
  lemma {:induction false} SameEnd(rt: Runtime, code: seq<Byte>, symbols: seq<string>, names: seq<string>, vm: Vm,
      m: nat, n: nat)
    ensures
      var a, b := ByteSteps(rt, code, symbols, names, vm, m), ByteSteps(rt, code, symbols, names, vm, n);
      && (!a.Running? && !b.Running? ==> a == b)
      && (n <= m && !b.Running? ==> a == b)
      && (m <= n && !a.Running? ==> a == b)
  {
    hide ByteSteps;
    if m <= n && !ByteSteps(rt, code, symbols, names, vm, m).Running? { Stopped(rt, code, symbols, names, vm, m, n); }
    if n <= m && !ByteSteps(rt, code, symbols, names, vm, n).Running? { Stopped(rt, code, symbols, names, vm, n, m); }
  }

  /** The machine runs for ever exactly if the source does. */
  lemma ModuleDiverges(rt: Runtime, names0: seq<string>, m: Module, names: seq<string>, globals: seq<Value>,
      stack: seq<Value>)
    requires |globals| == |names| && Distinct(names)
    requires Encodable(CompileModule(names0, m).prog) && CompileModule(names0, m).names <= names
    ensures (forall n: nat :: After(rt, names0, m, names, globals, stack, n).Running?) <==>
            (forall fuel: nat :: ExecModule(rt, StoreOf(names, globals), m, fuel) == Unfinished)
  {
    hide Distinct, StoreOf, CompileModule, ExecModule, Encodable, After;
    if forall n: nat :: After(rt, names0, m, names, globals, stack, n).Running? {
      forall fuel: nat ensures ExecModule(rt, StoreOf(names, globals), m, fuel) == Unfinished {
        var k, globals' := ModuleCorrect(rt, names0, m, names, globals, stack, fuel);
      }
    } else {
      var n: nat :| !After(rt, names0, m, names, globals, stack, n).Running?;
      ModuleExact(rt, names0, m, names, globals, stack, n);
    }
  }

  // ----- Names and globals --------------------------------------------------

  /** Compiling a module that has the globals `names0` registers exactly the names assigned in
      it, behind those that exist: no earlier index changes. */
  lemma {:induction false} GlobalIndices(names0: seq<string>, m: Module)
    requires Distinct(names0)
    ensures
      var names := CompileModule(names0, m).names;
      && names0 <= names && Distinct(names)
      && (forall x :: x in names <==> x in names0 || x in AssignedModule(m))
      && (forall x :: x in names0 ==> IndexOf(names, x) == IndexOf(names0, x))
  {
    ModuleRegisters(names0, m);
    var names := CompileModule(names0, m).names;
    forall x ensures x in names <==> x in names0 || x in AssignedModule(m) {
      assert x in names <==> x in Members(names);
      assert x in names0 <==> x in Members(names0);
    }
    forall x | x in names0 ensures IndexOf(names, x) == IndexOf(names0, x) { SameIndex(names0, names, x); }
  }

  /** The store before a module runs: what was there, and nil for every name that is assigned
      anywhere in the module and did not exist. */
  lemma StoreBefore(names0: seq<string>, m: Module, globals0: seq<Value>)
    requires Distinct(names0) && |globals0| == |names0|
    ensures
      var names := CompileModule(names0, m).names;
      var st0 := StoreOf(names0, globals0);
      && |names0| <= |names|
      && StoreOf(names, globals0 + Nils(|names| - |names0|)) ==
           (map x | x in Members(names0) + AssignedModule(m) :: if x in st0 then st0[x] else Nil)
  {
    hide CompileModule, AssignedModule, Distinct, StoreOf, Nils, IndexOf;
    GlobalIndices(names0, m);
    var names := CompileModule(names0, m).names;
    var globals := globals0 + Nils(|names| - |names0|);
    var st0 := StoreOf(names0, globals0);
    StoreKeys(names0, globals0);
    StoreKeys(names, globals);
    forall x | x in names ensures StoreOf(names, globals)[x] == if x in st0 then st0[x] else Nil {
      StoreExtended(names0, names, globals0, x);
    }
    assert StoreOf(names, globals).Keys == Members(names0) + AssignedModule(m);
  }

  lemma StoreKeys(names: seq<string>, globals: seq<Value>)
    requires |globals| == |names|
    ensures StoreOf(names, globals).Keys == Members(names)
  {
  }

  lemma StoreExtended(names0: seq<string>, names: seq<string>, globals0: seq<Value>, x: string)
    requires |globals0| == |names0| && names0 <= names && Distinct(names) && x in names
    ensures
      var st0 := StoreOf(names0, globals0);
      StoreOf(names, globals0 + Nils(|names| - |names0|))[x] == if x in st0 then st0[x] else Nil
  {
    var i := IndexOf(names, x);
    if i < |names0| {
      assert names0[i] == x;
      SameIndex(names0, names, x);
    }
  }

  /** After a compilation the store holds what it held, nil for new names, and the function. */
  lemma PublishedStore(names0: seq<string>, m: Module, globals0: seq<Value>, func: Value)
    requires Distinct(names0) && |globals0| == |names0|
    ensures
      var names := CompileModule(names0, m).names;
      && |names0| <= |names|
      && var (names1, globals1) := Published(names0, globals0, names, func);
         && names <= names1 && Distinct(names1)
         && StoreOf(names1, globals1) == StoreOf(names, globals0 + Nils(|names| - |names0|))["" := func]
  {
    GlobalIndices(names0, m);
    var names := CompileModule(names0, m).names;
    var globals := globals0 + Nils(|names| - |names0|);
    if "" in names {
      StoreUpdate(names, globals, "", func);
    } else {
      StoreAppended(names, globals, "", func);
    }
  }

  lemma StoreAppended(names: seq<string>, globals: seq<Value>, x: string, v: Value)
    requires |globals| == |names| && x !in names
    ensures StoreOf(names + [x], globals + [v]) == StoreOf(names, globals)[x := v]
  {
    AppendedIndex(names, x, x);
    forall y | y in names ensures IndexOf(names + [x], y) == IndexOf(names, y) { AppendedIndex(names, x, y); }
    assert forall y :: y in names + [x] <==> y in names || y == x;
  }

  /** Compiling one piece of a module after the other; a piece with an error changes nothing. */
  function Session(names: seq<string>, globals: seq<Value>, pieces: seq<(Module, Value)>): (seq<string>, seq<Value>)
    requires |names| == |globals|
    decreases |pieces|
  {
    if pieces == [] then (names, globals)
    else
      var (m, func) := pieces[0];
      var c := CompileModule(names, m);
      if !c.status.Fine? || |c.names| < |names| then Session(names, globals, pieces[1..])
      else
        var (names1, globals1) := Published(names, globals, c.names, func);
        Session(names1, globals1, pieces[1..])
  }

  /** Over any number of compilations indices stay what they are, and so do the values of all
      globals but the function that runs the module. */
  lemma {:induction false} SessionKeeps(names: seq<string>, globals: seq<Value>, pieces: seq<(Module, Value)>)
    requires |names| == |globals| && Distinct(names)
    ensures
      var (names1, globals1) := Session(names, globals, pieces);
      && |names1| == |globals1| && names <= names1 && Distinct(names1)
      && (forall i {:trigger names[i]} :: 0 <= i < |names| && names[i] != "" ==> globals1[i] == globals[i])
    decreases |pieces|
  {
    if pieces != [] {
      var (m, func) := pieces[0];
      var c := CompileModule(names, m);
      GlobalIndices(names, m);
      if !c.status.Fine? {
        SessionKeeps(names, globals, pieces[1..]);
      } else {
        var (names1, globals1) := Published(names, globals, c.names, func);
        PublishedStore(names, m, globals, func);
        forall i | 0 <= i < |names| && names[i] != "" ensures globals1[i] == globals[i] {
          assert names1[i] == names[i] == c.names[i];
        }
        SessionKeeps(names1, globals1, pieces[1..]);
        var (names2, globals2) := Session(names1, globals1, pieces[1..]);
        forall i | 0 <= i < |names| && names[i] != "" ensures globals2[i] == globals[i] {
          assert names1[i] == names[i];
        }
      }
    }
  }
}
