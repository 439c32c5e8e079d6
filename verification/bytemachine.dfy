/** The machine at the level of bytes, and why it does the same as the one with labels. */
module ByteMachine {
  import opened Language
  import opened Bytecode
  import opened Emission
  import opened Labelled
  import opened Assembling

  /** One instruction of the dispatch loop; `vm.pc` is the offset of the opcode byte, to which
      jump offsets are relative. */
  function ByteStep(rt: Runtime, code: seq<Byte>, symbols: seq<string>, names: seq<string>, vm: Vm): Vm
  {
    if !vm.Running? then vm
    else if vm.pc >= |code| then Crashed
    else
      var op := code[vm.pc];
      var t := OperandOf(op);
      var next := vm.pc + 1 + WidthOf(t);
      if next > |code| then Crashed
      else
        var n := ReadOperand(t, code, vm.pc + 1);
        if JumpOf(op).IsA? then
          match Decide(JumpOf(op).base, vm.stack)
          case Take(stack) => if vm.pc + n >= 0 then Running(vm.pc + n, stack, vm.globals) else Crashed
          case Pass(stack) => Running(next, stack, vm.globals)
          case Refuse => Threw(rt.notBoolean, vm.globals)
          case NoCondition => Crashed
        else
          match Execute(rt, names, symbols, op, n, vm.stack, vm.globals)
          case Next(stack, globals) => Running(next, stack, globals)
          case Return(v) => Finished(v, vm.globals)
          case Throw(e) => Threw(e, vm.globals)
          case Wrong => Crashed
  }

  function ByteSteps(rt: Runtime, code: seq<Byte>, symbols: seq<string>, names: seq<string>, vm: Vm, n: nat): Vm
    decreases n
  {
    if n == 0 then vm else ByteSteps(rt, code, symbols, names, ByteStep(rt, code, symbols, names, vm), n - 1)
  }

  /** The state of the byte machine that corresponds to one of the label machine. */
  ghost function AtAddress(p: Program, vm: Vm): Vm
    requires GoodInstrs(p) && (vm.Running? ==> vm.pc <= |p.instrs|)
  {
    if vm.Running? then vm.(pc := Address(p, vm.pc)) else vm
  }

  /** One step of the label machine is one step of the byte machine. */
  lemma StepSimulated(rt: Runtime, p: Program, names: seq<string>, vm: Vm)
    requires Encodable(p) && (vm.Running? ==> vm.pc <= |p.instrs|)
    ensures
      var vm' := Step(rt, p, names, vm);
      && (vm'.Running? ==> vm'.pc <= |p.instrs|)
      && AtAddress(p, vm') == ByteStep(rt, Assembled(p), p.symbols, names, AtAddress(p, vm))
  {
    hide Execute, Decide, Assembled, CodeBytes, ReadOperand, OperandOf, FinalOp;
    if vm.Running? {
      var i := vm.pc;
      if i < |p.instrs| {
        assert GoodInstr(p, p.instrs[i]);
        ReadBack(p, i);
        FinalOps(p, i);
      } else {
        AtEnd(p);
      }
    }
  }

  lemma {:induction false} AtEnd(p: Program)
    requires Encodable(p)
    ensures |Assembled(p)| == Address(p, |p.instrs|)
  {
    FitsAll(p, |p.instrs|);
    CodeLength(p, |p.instrs|);
  }

  lemma FinalOps(p: Program, i: nat)
    requires GoodInstrs(p) && i < |p.instrs|
    ensures p.instrs[i].ToLabel? ==> JumpOf(FinalOp(p, i)) == IsA(p.instrs[i].op)
    ensures p.instrs[i].Plain? ==> FinalOp(p, i) == p.instrs[i].op && JumpOf(FinalOp(p, i)).NoJump?
  {
    assert GoodInstr(p, p.instrs[i]);
  }

  /** The byte machine follows the label machine, step by step. */
  lemma {:induction false} StepsSimulated(rt: Runtime, p: Program, names: seq<string>, vm: Vm, n: nat)
    requires Encodable(p) && (vm.Running? ==> vm.pc <= |p.instrs|)
    ensures
      var vm' := Steps(rt, p, names, vm, n);
      && (vm'.Running? ==> vm'.pc <= |p.instrs|)
      && ByteSteps(rt, Assembled(p), p.symbols, names, AtAddress(p, vm), n) == AtAddress(p, vm')
    decreases n
  {
    hide Assembled, ByteStep, Step, Encodable;
    if n > 0 {
      StepSimulated(rt, p, names, vm);
      StepsSimulated(rt, p, names, Step(rt, p, names, vm), n - 1);
    }
  }

  /** A machine that has stopped stays as it is. */
  lemma {:induction false} Stopped(rt: Runtime, code: seq<Byte>, symbols: seq<string>, names: seq<string>, vm: Vm,
      m: nat, n: nat)
    requires m <= n && !ByteSteps(rt, code, symbols, names, vm, m).Running?
    ensures ByteSteps(rt, code, symbols, names, vm, n) == ByteSteps(rt, code, symbols, names, vm, m)
    decreases n
  {
    if m > 0 {
      Stopped(rt, code, symbols, names, ByteStep(rt, code, symbols, names, vm), m - 1, n - 1);
    } else if n > 0 {
      Stopped(rt, code, symbols, names, vm, 0, n - 1);
    }
  }
}
