/** The expression parser as an object: a stack of operators and a stack of operands. */
module ParserObject {
  import opened Grammar
  import opened Parsing

  class ExprParser {
    var operators: seq<Op>
    var operands: seq<Tree>

    /** The stacks as the specification has them, as long as no error has been thrown. */
    function Stacks(): State
      reads this
    {
      State(operators, operands)
    }

    constructor ()
      ensures Stacks() == State([], [])
    {
      operators, operands := [], [];
    }

    method Clear()
      modifies this
      ensures Stacks() == State([], [])
    {
      operators, operands := [], [];
    }

    /** Make a node of the operator on top and its operands; there may be too few of them. */
    method GenOpExpr() returns (ok: bool)
      requires operators != []
      modifies this
      ensures ok <==> Reduce(old(Stacks())).State?
      ensures ok ==> Stacks() == Reduce(old(Stacks()))
    {
      var op := operators[|operators| - 1];
      var n := |operands|;
      if IsPrefix(op) {
        if n < 1 { return false; }
        operands := operands[..n - 1] + [Prefixed(op, operands[n - 1])];
      } else if IsSuffix(op) {
        if n < 2 || !operands[n - 1].Pending? { return false; }
        operands := operands[..n - 2] + [Suffixed(operands[n - 2], op, operands[n - 1].content)];
      } else {
        if n < 2 { return false; }
        operands := operands[..n - 2] + [Infix(operands[n - 2], op, operands[n - 1])];
      }
      operators := operators[..|operators| - 1];
      ok := true;
    }

    /** An operator, once all those that bind at least as tightly have been reduced; the two kinds
        of associativity are told apart, and then treated alike. */
    method InputOperator(op: Op) returns (ok: bool)
      modifies this
      ensures ok <==> Parsing.InputOperator(old(Stacks()), op).State?
      ensures ok ==> Stacks() == Parsing.InputOperator(old(Stacks()), op)
    {
      var precedence := Precedence(op);
      if precedence > 0 {
        while operators != [] && Level(operators[|operators| - 1]) <= precedence
          invariant ReduceWhile(Stacks(), Level(op)) == ReduceWhile(old(Stacks()), Level(op))
          decreases |operators|
        {
          ok := GenOpExpr();
          if !ok { return; }
        }
      } else {
        precedence := -precedence;
        while operators != [] && Level(operators[|operators| - 1]) <= precedence
          invariant ReduceWhile(Stacks(), Level(op)) == ReduceWhile(old(Stacks()), Level(op))
          decreases |operators|
        {
          ok := GenOpExpr();
          if !ok { return; }
        }
      }
      operators := operators + [op];
      ok := true;
    }

    method InputOperand(t: Tree)
      modifies this
      ensures Stacks() == Parsing.InputOperand(old(Stacks()), t)
    {
      operands := operands + [t];
    }

    /** Reduce what is left; exactly one operand must remain. */
    method OutputExpression() returns (r: Parsed)
      modifies this
      ensures r == Result(old(Stacks()))
    {
      while operators != []
        invariant ReduceWhile(Stacks(), ALL) == ReduceWhile(old(Stacks()), ALL)
        decreases |operators|
      {
        var ok := GenOpExpr();
        if !ok { return Rejected; }
      }
      r := if |operands| == 1 then Accepted(operands[0]) else Rejected;
    }

    /** One token, after an operand or not. */
    method InputToken(tok: Token, last: bool) returns (ok: bool)
      modifies this
      ensures ok <==> Input(old(Stacks()), tok, last).State?
      ensures ok ==> Stacks() == Input(old(Stacks()), tok, last)
    {
      ok := true;
      match tok
      case Value(_) => InputOperand(Leaf(tok));
      case Operator(op) =>
        var meant := op;
        if op == Add {
          if !last { meant := Pos; }
        } else if op == Sub {
          if !last { meant := Neg; }
        }
        ok := InputOperator(meant);
      case Bracket(square, content) =>
        if last {
          ok := InputOperator(BracketOp(square));
          if ok { InputOperand(Pending(BracketOp(square), content)); }
        } else {
          InputOperand(Leaf(tok));
        }
      case Braces(_) =>
        if last { ok := false; } else { InputOperand(Leaf(tok)); }
    }

    /** The tokens of an expression, one after the other. What comes out is the tree of the grammar,
        row by row, that is written so; and any other tree, or none, for an irregular stream. */
    method ParseExpr(tokens: seq<Token>) returns (r: Parsed)
      modifies this
      ensures r == Parse(tokens)
      ensures Regular(tokens, Wants(true)) <==> r.Accepted? && Reads(tokens, r.tree)
      ensures forall t :: Reads(tokens, t) ==> r == Accepted(t)
    {
      hide Input, Regular, Reads;
      Clear();
      ParsesGrammar(tokens);
      var last := false;
      var i := 0;
      while i < |tokens|
        invariant 0 <= i <= |tokens|
        invariant Feed(Stacks(), tokens[i..], last) == Feed(State([], []), tokens, false)
      {
        assert tokens[i..][1..] == tokens[i + 1..];
        var ok := InputToken(tokens[i], last);
        if !ok {
          FeedFailed(tokens[i + 1..], !tokens[i].Operator?);
          return Rejected;
        }
        last := !tokens[i].Operator?;
        i := i + 1;
      }
      r := OutputExpression();
    }
  }

  lemma {:induction false} FeedFailed(tokens: seq<Token>, last: bool)
    ensures Feed(Failed, tokens, last) == Failed
    decreases |tokens|
  {
    if tokens != [] { FeedFailed(tokens[1..], !tokens[0].Operator?); }
  }
}
