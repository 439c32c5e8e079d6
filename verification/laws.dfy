/** Laws of the source language, and one program for which they add up. */
module Laws {
  import opened Language

  /** Both sides evaluated one after the other: and, or. The right side is left alone when the left
      one decides. */
  lemma {:induction false} LogicalLaw(rt: Runtime, st: Store, l: Expr, r: Expr, a: bool, st1: Store, b: bool,
      st2: Store)
    requires Eval(rt, st, l) == Ok(Bool(a), st1) && Eval(rt, st1, r) == Ok(Bool(b), st2)
    ensures Eval(rt, st, And(l, r)) == Ok(Bool(a && b), if a then st2 else st1)
    ensures Eval(rt, st, Or(l, r)) == Ok(Bool(a || b), if a then st1 else st2)
  {
  }

  /** Whatever an assignment evaluates to is what the name holds afterwards; other names keep what
      the right side left in them. */
  lemma {:induction false} AssignLaw(rt: Runtime, st: Store, x: string, r: Expr)
    requires Eval(rt, st, Assign(x, r)).Ok?
    ensures
      var done, right := Eval(rt, st, Assign(x, r)), Eval(rt, st, r);
      && right.Ok? && done.v == right.v && Lookup(rt, done.st, x) == right.v
      && forall y :: y != x ==> Lookup(rt, done.st, y) == Lookup(rt, right.st, y)
  {
  }

  /** A condition decides between two blocks, and nothing else is run. */
  lemma IfLaw(rt: Runtime, st: Store, c: Expr, yes: Block, no: Block, a: bool, st1: Store, fuel: nat)
    requires Eval(rt, st, c) == Ok(Bool(a), st1)
    ensures Exec(rt, st, If(Branch(c, yes, Else(no))), fuel) == ExecBlock(rt, st1, if a then yes else no, fuel)
    ensures Exec(rt, st, If(Branch(c, yes, NoElse)), fuel) == if a then ExecBlock(rt, st1, yes, fuel) else Normal(st1)
  {
    assert ExecBranches(rt, st1, Else(no), fuel) == ExecBlock(rt, st1, no, fuel);
    assert ExecBranches(rt, st1, NoElse, fuel) == Normal(st1);
  }

  /** A loop ends normally only when its condition has just been found false. */
  lemma {:induction false} WhileLaw(rt: Runtime, st: Store, c: Expr, body: Block, fuel: nat)
    requires Exec(rt, st, While(c, body), fuel).Normal?
    ensures exists st1 :: Eval(rt, st1, c) == Ok(Bool(false), Exec(rt, st, While(c, body), fuel).st)
    decreases fuel
  {
    match Eval(rt, st, c)
    case Ok(Bool(true), st1) => WhileLaw(rt, ExecBlock(rt, st1, body, fuel).st, c, body, fuel - 1);
    case _ =>
  }

  // ----- The sum of the first numbers ---------------------------------------

  const COUNTER := Name("i")

  /** `i += 1`, then `s += i`. */
  const ADD_NEXT := Then(ExprStmt(OpAssign(Add, "i", IntLit(1))), Then(ExprStmt(OpAssign(Add, "s", COUNTER)), Done))

  function Summing(n: int): Stmt
  {
    While(Bin(Lt, COUNTER, IntLit(n)), ADD_NEXT)
  }

  /** Set both names to 0, repeat this while `i` is less than `n`, and return `s`. */
  function SumTo(n: int): Module
  {
    Module(Then(ExprStmt(Assign("s", IntLit(0))), Then(ExprStmt(Assign("i", IntLit(0))), Then(Summing(n), Done))),
      Option.Some(Name("s")))
  }

  /** The counter and the sum. */
  predicate Counted(st: Store, k: int, sum: int)
  {
    "i" in st && "s" in st && st["i"] == Int(k) && st["s"] == Int(sum)
  }

  /** One round of the loop. */
  lemma {:induction false} OneRound(rt: Runtime, st: Store, k: nat, sum: nat, fuel: nat)
    requires Counted(st, k, sum) && k < 32767 && sum <= 0x4000_0000
    ensures ExecBlock(rt, st, ADD_NEXT, fuel) == Normal(st["i" := Int(k + 1)]["s" := Int(sum + k + 1)])
  {
    var st1 := st["i" := Int(k + 1)];
    var st2 := st1["s" := Int(sum + (k + 1))];
    var add := ExprStmt(OpAssign(Add, "s", COUNTER));
    assert Eval(rt, st, IntLit(1)) == Ok(Int(1), st);
    assert Eval(rt, st, OpAssign(Add, "i", IntLit(1))) == Ok(Int(k + 1), st1);
    assert Eval(rt, st1, COUNTER) == Ok(Int(k + 1), st1);
    assert Eval(rt, st1, OpAssign(Add, "s", COUNTER)) == Ok(Int(sum + (k + 1)), st2);
    LastStmt(rt, st1, add, st2, fuel);
    assert Exec(rt, st, ADD_NEXT.first, fuel) == Normal(st1);
    assert ADD_NEXT.rest == Then(add, Done);
  }

  lemma {:induction false} LastStmt(rt: Runtime, st: Store, s: Stmt, st1: Store, fuel: nat)
    requires Exec(rt, st, s, fuel) == Normal(st1)
    ensures ExecBlock(rt, st, Then(s, Done), fuel) == Normal(st1)
  {
    assert ExecBlock(rt, st1, Done, fuel) == Normal(st1);
  }

  lemma {:induction false} Rounds(rt: Runtime, st: Store, n: nat, k: nat, sum: nat, fuel: nat) returns (total: nat)
    requires Counted(st, k, sum) && k <= n <= 32767 && fuel >= n - k
    requires 2 * sum == k * (k + 1) && sum <= 32768 * k
    ensures 2 * total == n * (n + 1)
    ensures Exec(rt, st, Summing(n), fuel) == Normal(st["i" := Int(n)]["s" := Int(total)])
    decreases n - k
  {
    assert Eval(rt, st, Bin(Lt, COUNTER, IntLit(n))) == Ok(Bool(k < n), st) by {
      assert Eval(rt, st, COUNTER) == Ok(Int(k), st) && Eval(rt, st, IntLit(n)) == Ok(Int(n), st);
    }
    if k == n {
      total := sum;
      assert st == st["i" := Int(n)]["s" := Int(sum)];
    } else {
      OneRound(rt, st, k, sum, fuel);
      var next := st["i" := Int(k + 1)]["s" := Int(sum + k + 1)];
      total := Rounds(rt, next, n, k + 1, sum + k + 1, fuel - 1);
      assert next["i" := Int(n)]["s" := Int(total)] == st["i" := Int(n)]["s" := Int(total)];
    }
  }

  /** For every number: the program returns the sum of the first `n` numbers, after that many rounds. */
  lemma {:induction false} SumIs(rt: Runtime, st: Store, n: nat, fuel: nat) returns (total: nat)
    requires n <= 32767 && fuel >= n
    ensures 2 * total == n * (n + 1)
    ensures ExecModule(rt, st, SumTo(n), fuel) == Answer.Value(Int(total), st["i" := Int(n)]["s" := Int(total)])
  {
    hide Exec;
    var st1 := st["s" := Int(0)];
    var st2 := st1["i" := Int(0)];
    SetsZero(rt, st, "s", fuel);
    SetsZero(rt, st1, "i", fuel);
    total := Rounds(rt, st2, n, 0, 0, fuel);
    var st3 := st["i" := Int(n)]["s" := Int(total)];
    assert st3 == st2["i" := Int(n)]["s" := Int(total)];
    LastStmt(rt, st2, Summing(n), st3, fuel);
    assert ExecBlock(rt, st1, Then(ExprStmt(Assign("i", IntLit(0))), Then(Summing(n), Done)), fuel) == Normal(st3);
    assert Eval(rt, st3, Name("s")) == Ok(Int(total), st3);
  }

  lemma {:induction false} SetsZero(rt: Runtime, st: Store, x: string, fuel: nat)
    ensures Exec(rt, st, ExprStmt(Assign(x, IntLit(0))), fuel) == Normal(st[x := Int(0)])
  {
    assert Eval(rt, st, IntLit(0)) == Ok(Int(0), st);
  }
}
