/** Operator-precedence parsing: what the two stacks do, and which trees they build. */
module Parsing {

  // ----- Operators ----------------------------------------------------------

  datatype Op =
    | Add | Sub | Mul | Div | Rem | Shl | Shr | BitAnd | BitOr | BitXor
    | Eql | AddEql | SubEql | MulEql | DivEql | RemEql | ShlEql | ShrEql | BitAndEql | BitOrEql | BitXorEql
    | Eq | Ne | Lt | Le | Gt | Ge | And | Or | Period | Colon | Call | Subscript
    | Pos | Neg | BitNot | Not

  /** The table of precedences. A smaller number binds tighter; the sign is meant to say that an
      operator groups to the right. */
  function Precedence(op: Op): int
  {
    match op
    case Period | Colon => 1
    case Call | Subscript => 2
    case Pos | Neg | BitNot | Not => -3
    case Mul | Div | Rem => 4
    case Add | Sub => 5
    case Shl | Shr => 6
    case Lt | Le | Gt | Ge => 8
    case Eq | Ne => 9
    case BitAnd => 10
    case BitXor => 11
    case BitOr => 12
    case And => 13
    case Or => 14
    case _ => -15
  }

  const ALL := 127                 // as large as any precedence

  function Level(op: Op): (p: nat)
    ensures 1 <= p <= 15
  {
    if Precedence(op) > 0 then Precedence(op) else -Precedence(op)
  }

  predicate IsPrefix(op: Op) { op in {Pos, Neg, BitNot, Not} }
  predicate IsSuffix(op: Op) { op in {Call, Subscript} }
  predicate IsInfix(op: Op) { !IsPrefix(op) && !IsSuffix(op) }
  predicate IsAssignment(op: Op) { Level(op) == 15 }

  // ----- Tokens and trees ---------------------------------------------------

  /** Literals, names and functions; operators; what stands in brackets or in braces, which has
      been parsed on its own. */
  datatype Token = Value(id: int) | Operator(op: Op) | Bracket(square: bool, content: int) | Braces(content: int)

  datatype Tree =
    | Leaf(token: Token)
    | Prefixed(op: Op, arg: Tree)
    | Infix(lhs: Tree, op: Op, rhs: Tree)
    | Suffixed(obj: Tree, op: Op, content: int)
    | Pending(op: Op, content: int)     // a call or subscript that has not got its object yet

  function BracketOp(square: bool): Op
  {
    if square then Subscript else Call
  }

  /** The scanner does not tell the sign of a number from the operation. */
  function PrefixToken(op: Op): Token
  {
    Operator(if op == Pos then Add else if op == Neg then Sub else op)
  }

  function Yield(t: Tree): seq<Token>
  {
    match t
    case Leaf(tok) => [tok]
    case Prefixed(op, u) => [PrefixToken(op)] + Yield(u)
    case Infix(l, op, r) => Yield(l) + [Operator(op)] + Yield(r)
    case Suffixed(o, op, c) => Yield(o) + [Bracket(op == Subscript, c)]
    case Pending(op, c) => [Bracket(op == Subscript, c)]
  }

  function Top(t: Tree): nat
  {
    match t
    case Leaf(_) => 0
    case Pending(_, _) => 0
    case Prefixed(op, _) => Level(op)
    case Infix(_, op, _) => Level(op)
    case Suffixed(_, op, _) => Level(op)
  }

  /** Operators bind as their precedences say, and all of them group to the left. */
  predicate Proper(t: Tree)
  {
    match t
    case Leaf(tok) => !tok.Operator?
    case Pending(_, _) => false
    case Prefixed(op, u) => IsPrefix(op) && Proper(u) && Top(u) < Level(op)
    case Infix(l, op, r) => IsInfix(op) && Proper(l) && Proper(r) && Top(l) <= Level(op) && Top(r) < Level(op)
    case Suffixed(o, op, _) => IsSuffix(op) && Proper(o) && Top(o) <= Level(op)
  }

  // ----- The two stacks -----------------------------------------------------

  datatype State = State(operators: seq<Op>, operands: seq<Tree>) | Failed

  /** Take the operator on top and its operands, and push the tree. */
  function Reduce(s: State): State
    requires s.State? && s.operators != []
  {
    var n, k := |s.operators|, |s.operands|;
    var op := s.operators[n - 1];
    if IsPrefix(op) then
      if k < 1 then Failed else State(s.operators[..n - 1], s.operands[..k - 1] + [Prefixed(op, s.operands[k - 1])])
    else if k < 2 then Failed
    else if IsSuffix(op) then
      if !s.operands[k - 1].Pending? then Failed
      else State(s.operators[..n - 1], s.operands[..k - 2] +
        [Suffixed(s.operands[k - 2], op, s.operands[k - 1].content)])
    else State(s.operators[..n - 1], s.operands[..k - 2] + [Infix(s.operands[k - 2], op, s.operands[k - 1])])
  }

  /** As long as the operator on top does not bind weaker than `level`, reduce. */
  function ReduceWhile(s: State, level: nat): State
    decreases if s.State? then |s.operators| else 0
  {
    if s.Failed? || s.operators == [] || Level(s.operators[|s.operators| - 1]) > level then s
    else ReduceWhile(Reduce(s), level)
  }

  function InputOperator(s: State, op: Op): State
  {
    var s1 := ReduceWhile(s, Level(op));
    if s1.Failed? then Failed else State(s1.operators + [op], s1.operands)
  }

  function InputOperand(s: State, t: Tree): State
  {
    if s.Failed? then Failed else State(s.operators, s.operands + [t])
  }

  /** A plus or minus sign that does not follow an operand is a prefix operator. */
  function Meant(op: Op, last: bool): Op
  {
    if !last && op == Add then Pos else if !last && op == Sub then Neg else op
  }

  /** One token; `last` says whether the one before was an operand. */
  function Input(s: State, tok: Token, last: bool): State
  {
    match tok
    case Value(_) => InputOperand(s, Leaf(tok))
    case Operator(op) => InputOperator(s, Meant(op, last))
    case Bracket(square, c) =>
      if last then InputOperand(InputOperator(s, BracketOp(square)), Pending(BracketOp(square), c))
        else InputOperand(s, Leaf(tok))
    case Braces(_) => if last then Failed else InputOperand(s, Leaf(tok))
  }

  function Feed(s: State, tokens: seq<Token>, last: bool): State
    decreases |tokens|
  {
    if tokens == [] then s else Feed(Input(s, tokens[0], last), tokens[1..], !tokens[0].Operator?)
  }

  datatype Parsed = Accepted(tree: Tree) | Rejected

  function Result(s: State): Parsed
  {
    var s1 := ReduceWhile(s, ALL);
    if s1.State? && |s1.operands| == 1 then Accepted(s1.operands[0]) else Rejected
  }

  /** The expression that the tokens up to the first one that cannot continue it stand for. */
  function Parse(tokens: seq<Token>): Parsed
  {
    Result(Feed(State([], []), tokens, false))
  }

  // ----- Every proper tree is built from its tokens -------------------------

  /** No operator on the stack can be reduced before one of level `level` or less is in. */
  predicate Holds(operators: seq<Op>, level: nat)
  {
    operators == [] || Level(operators[|operators| - 1]) > level
  }

  /** Once it is closed, `s` is as if the tree `t` had been one operand. */
  ghost predicate Closes(s: State, operators: seq<Op>, operands: seq<Tree>, t: Tree)
  {
    s.State? && forall p: nat :: p >= Top(t) ==> ReduceWhile(s, p) == ReduceWhile(State(operators, operands + [t]), p)
  }

  lemma {:induction false} FeedOne(s: State, tok: Token, rest: seq<Token>, last: bool)
    ensures Feed(s, [tok] + rest, last) == Feed(Input(s, tok, last), rest, !tok.Operator?)
  {
    assert ([tok] + rest)[1..] == rest;
  }

  lemma {:induction false} YieldPrefixed(op: Op, u: Tree, rest: seq<Token>)
    ensures Yield(Prefixed(op, u)) + rest == [PrefixToken(op)] + (Yield(u) + rest)
  {
  }

  lemma {:induction false} YieldInfix(l: Tree, op: Op, r: Tree, rest: seq<Token>)
    ensures Yield(Infix(l, op, r)) + rest == Yield(l) + ([Operator(op)] + (Yield(r) + rest))
  {
  }

  lemma {:induction false} YieldSuffixed(o: Tree, op: Op, c: int, rest: seq<Token>)
    ensures Yield(Suffixed(o, op, c)) + rest == Yield(o) + ([Bracket(op == Subscript, c)] + rest)
  {
  }

  lemma {:induction false} FeedYield(t: Tree, operators: seq<Op>, operands: seq<Tree>, rest: seq<Token>)
      returns (s: State)
    requires Proper(t) && Holds(operators, Top(t))
    ensures Feed(State(operators, operands), Yield(t) + rest, false) == Feed(s, rest, true)
    ensures Closes(s, operators, operands, t)
    decreases t
  {
    hide Feed, Input, ReduceWhile, Yield, Closes, Level;
    var s0 := State(operators, operands);
    match t
    case Leaf(tok) =>
      s := State(operators, operands + [t]);
      assert Yield(t) == [tok] by { YieldLeaf(tok); }
      FeedOne(s0, tok, rest, false);
      InputLeaf(s0, tok);
      CloseLeaf(operators, operands, t);
    case Prefixed(op, u) =>
      YieldPrefixed(op, u, rest);
      FeedOne(s0, PrefixToken(op), Yield(u) + rest, false);
      InputPrefix(operators, operands, op);
      s := FeedYield(u, operators + [op], operands, rest);
      ClosePrefix(s, operators, operands, op, u);
    case Infix(l, op, r) =>
      YieldInfix(l, op, r, rest);
      var s1 := FeedYield(l, operators, operands, [Operator(op)] + (Yield(r) + rest));
      FeedOne(s1, Operator(op), Yield(r) + rest, true);
      InputInfix(s1, operators, operands, l, op);
      s := FeedYield(r, operators + [op], operands + [l], rest);
      CloseInfix(s, operators, operands, l, op, r);
    case Suffixed(o, op, c) =>
      var tok := Bracket(op == Subscript, c);
      YieldSuffixed(o, op, c, rest);
      var s1 := FeedYield(o, operators, operands, [tok] + rest);
      FeedOne(s1, tok, rest, true);
      s := State(operators + [op], operands + [o] + [Pending(op, c)]);
      InputSuffix(s1, operators, operands, o, op, c);
      CloseSuffix(operators, operands, o, op, c);
  }

  lemma {:induction false} YieldLeaf(tok: Token)
    ensures Yield(Leaf(tok)) == [tok]
  {
  }

  lemma CloseLeaf(operators: seq<Op>, operands: seq<Tree>, t: Tree)
    ensures Closes(State(operators, operands + [t]), operators, operands, t)
  {
  }

  lemma InputLeaf(s: State, tok: Token)
    requires s.State? && !tok.Operator?
    ensures Input(s, tok, false) == State(s.operators, s.operands + [Leaf(tok)])
  {
  }

  lemma InputPrefix(operators: seq<Op>, operands: seq<Tree>, op: Op)
    requires IsPrefix(op) && Holds(operators, Level(op))
    ensures Input(State(operators, operands), PrefixToken(op), false) == State(operators + [op], operands)
  {
  }

  lemma InputInfix(s: State, operators: seq<Op>, operands: seq<Tree>, l: Tree, op: Op)
    requires Closes(s, operators, operands, l) && Top(l) <= Level(op) && Holds(operators, Level(op))
    ensures Input(s, Operator(op), true) == State(operators + [op], operands + [l])
  {
    assert ReduceWhile(State(operators, operands + [l]), Level(op)) == State(operators, operands + [l]);
  }

  lemma InputSuffix(s: State, operators: seq<Op>, operands: seq<Tree>, o: Tree, op: Op, c: int)
    requires Closes(s, operators, operands, o) && IsSuffix(op) && Top(o) <= Level(op) && Holds(operators, Level(op))
    ensures Input(s, Bracket(op == Subscript, c), true) == State(operators + [op], operands + [o] + [Pending(op, c)])
  {
    assert ReduceWhile(State(operators, operands + [o]), Level(op)) == State(operators, operands + [o]);
  }

  lemma ClosePrefix(s: State, operators: seq<Op>, operands: seq<Tree>, op: Op, u: Tree)
    requires Closes(s, operators + [op], operands, u) && IsPrefix(op) && Top(u) < Level(op)
    ensures Closes(s, operators, operands, Prefixed(op, u))
  {
    forall p: nat | p >= Level(op)
      ensures ReduceWhile(s, p) == ReduceWhile(State(operators, operands + [Prefixed(op, u)]), p) {
      var before := State(operators + [op], operands + [u]);
      assert (operators + [op])[..|operators|] == operators && (operands + [u])[..|operands|] == operands;
      assert ReduceWhile(s, p) == ReduceWhile(before, p) == ReduceWhile(Reduce(before), p);
    }
  }

  lemma CloseInfix(s: State, operators: seq<Op>, operands: seq<Tree>, l: Tree, op: Op, r: Tree)
    requires Closes(s, operators + [op], operands + [l], r) && IsInfix(op) && Top(r) < Level(op)
    ensures Closes(s, operators, operands, Infix(l, op, r))
  {
    forall p: nat | p >= Level(op)
      ensures ReduceWhile(s, p) == ReduceWhile(State(operators, operands + [Infix(l, op, r)]), p) {
      var before := State(operators + [op], operands + [l] + [r]);
      assert (operators + [op])[..|operators|] == operators && (operands + [l] + [r])[..|operands|] == operands;
      assert ReduceWhile(s, p) == ReduceWhile(before, p) == ReduceWhile(Reduce(before), p);
    }
  }

  lemma CloseSuffix(operators: seq<Op>, operands: seq<Tree>, o: Tree, op: Op, c: int)
    requires IsSuffix(op)
    ensures Closes(State(operators + [op], operands + [o] + [Pending(op, c)]), operators, operands, Suffixed(o, op, c))
  {
    var before := State(operators + [op], operands + [o] + [Pending(op, c)]);
    assert (operators + [op])[..|operators|] == operators &&
      (operands + [o] + [Pending(op, c)])[..|operands|] == operands;
    assert Reduce(before) == State(operators, operands + [Suffixed(o, op, c)]);
  }

  /** The parser gives back every proper tree from its tokens; so no two have the same. */
  lemma {:induction false} ParseYield(t: Tree)
    requires Proper(t)
    ensures Parse(Yield(t)) == Accepted(t)
  {
    var s := FeedYield(t, [], [], []);
    assert Yield(t) + [] == Yield(t);
    assert Feed(s, [], true) == s;
    TopBounded(t);
    assert ReduceWhile(s, ALL) == ReduceWhile(State([], [] + [t]), ALL) == State([], [t]);
  }

  lemma TopBounded(t: Tree)
    ensures Top(t) <= 15
  {
  }

  lemma {:induction false} ProperUnique(t: Tree, u: Tree)
    requires Proper(t) && Proper(u) && Yield(t) == Yield(u)
    ensures t == u
  {
    ParseYield(t);
    ParseYield(u);
  }

  // ----- Every regular stream has a proper tree -----------------------------

  /** Whether an operand is wanted, and may have a prefix operator; or is there, and has ended in
      a call or subscript. */
  datatype Place = Wants(prefix: bool) | Has(suffixed: bool)

  /** Operands with at most one prefix operator each, joined by infix operators; no prefix operator
      and nothing but an operand after `.` or `:`, and these not after a call or subscript. */
  predicate Regular(tokens: seq<Token>, place: Place)
    decreases |tokens|
  {
    if tokens == [] then place.Has?
    else Goes(tokens[0], place).Some? && Regular(tokens[1..], Goes(tokens[0], place).place)
  }

  datatype Move = Some(place: Place) | No

  function Goes(tok: Token, place: Place): Move
  {
    match place
    case Wants(prefix) =>
      if !tok.Operator? then Some(Has(false))
      else if prefix && tok.op in {Add, Sub, BitNot, Not} then Some(Wants(false))
      else No
    case Has(suffixed) =>
      match tok
      case Bracket(_, _) => Some(Has(true))
      case Operator(op) => if IsInfix(op) && !(suffixed && Level(op) == 1) then Some(Wants(Level(op) > 3)) else No
      case _ => No
  }

  /** The tree with one more infix operator and operand at its right edge. */
  function Extend(t: Tree, op: Op, f: Tree): Tree
  {
    if Top(t) <= Level(op) then Infix(t, op, f)
    else match t
      case Infix(l, q, r) => Infix(l, q, Extend(r, op, f))
      case Prefixed(q, u) => Prefixed(q, Extend(u, op, f))
      case _ => t
  }

  /** And with one more call or subscript. */
  function Suffix(t: Tree, op: Op, c: int): Tree
  {
    if Top(t) <= Level(op) then Suffixed(t, op, c)
    else match t
      case Infix(l, q, r) => Infix(l, q, Suffix(r, op, c))
      case Prefixed(q, u) => Prefixed(q, Suffix(u, op, c))
      case _ => t
  }

  function EndsInSuffix(t: Tree): bool
  {
    match t
    case Infix(_, _, r) => EndsInSuffix(r)
    case Prefixed(_, u) => EndsInSuffix(u)
    case Suffixed(_, _, _) => true
    case _ => false
  }

  function Max(a: nat, b: nat): nat { if a >= b then a else b }

  lemma LevelKinds(op: Op)
    ensures IsSuffix(op) ==> Level(op) == 2
    ensures IsPrefix(op) ==> Level(op) == 3
    ensures IsInfix(op) ==> Level(op) == 1 || Level(op) >= 4
  {
  }

  lemma Regroup(a: seq<Token>, b: seq<Token>, c: seq<Token>, d: seq<Token>, e: seq<Token>)
    ensures a + b + (c + d + e) == a + b + c + d + e
  {
  }

  lemma {:induction false} ExtendProper(t: Tree, op: Op, f: Tree)
    requires Proper(t) && IsInfix(op) && Proper(f) && Top(f) < Level(op) && (Level(op) == 1 ==> !EndsInSuffix(t))
    ensures Proper(Extend(t, op, f)) && Yield(Extend(t, op, f)) == Yield(t) + [Operator(op)] + Yield(f)
    ensures Top(Extend(t, op, f)) == Max(Top(t), Level(op)) && EndsInSuffix(Extend(t, op, f)) == EndsInSuffix(f)
    decreases t
  {
    hide Level, IsPrefix, IsSuffix, IsInfix, Yield, EndsInSuffix;
    ExtendYield(t, op, f);
    ExtendTop(t, op, f);
    if Top(t) > Level(op) {
      match t
      case Infix(_, _, r) =>
        LastEnds(t);
        ExtendProper(r, op, f);
      case Prefixed(_, u) =>
        LastEnds(t);
        ExtendProper(u, op, f);
      case Suffixed(_, q, _) =>
        LevelKinds(q);
        LevelKinds(op);
        LastEnds(t);
    }
  }

  /** How a tree ends. */
  lemma {:induction false} LastEnds(t: Tree)
    ensures t.Infix? ==> EndsInSuffix(t) == EndsInSuffix(t.rhs)
    ensures t.Prefixed? ==> EndsInSuffix(t) == EndsInSuffix(t.arg)
    ensures t.Suffixed? ==> EndsInSuffix(t)
  {
  }

  lemma {:induction false} ExtendTop(t: Tree, op: Op, f: Tree)
    requires Proper(t) && IsInfix(op) && Top(f) < Level(op) && (Level(op) == 1 ==> !EndsInSuffix(t))
    ensures Top(Extend(t, op, f)) == Max(Top(t), Level(op)) && EndsInSuffix(Extend(t, op, f)) == EndsInSuffix(f)
    decreases t
  {
    hide Level, IsPrefix, IsSuffix, IsInfix;
    LevelKinds(op);
    if Top(t) > Level(op) {
      match t
      case Infix(_, _, r) => ExtendTop(r, op, f);
      case Prefixed(_, u) => ExtendTop(u, op, f);
      case Suffixed(_, q, _) => LevelKinds(q);
    }
  }

  lemma {:induction false} ExtendYield(t: Tree, op: Op, f: Tree)
    requires Proper(t) && IsInfix(op) && (Level(op) == 1 ==> !EndsInSuffix(t))
    ensures Yield(Extend(t, op, f)) == Yield(t) + [Operator(op)] + Yield(f)
    decreases t
  {
    hide Level, IsPrefix, IsSuffix, IsInfix, PrefixToken;
    LevelKinds(op);
    if Top(t) > Level(op) {
      match t
      case Infix(l, q, r) =>
        ExtendYield(r, op, f);
        Regroup(Yield(l), [Operator(q)], Yield(r), [Operator(op)], Yield(f));
      case Prefixed(q, u) =>
        ExtendYield(u, op, f);
        Regroup([], [PrefixToken(q)], Yield(u), [Operator(op)], Yield(f));
      case Suffixed(_, q, _) => LevelKinds(q);
    }
  }

  lemma {:induction false} SuffixProper(t: Tree, op: Op, c: int)
    requires Proper(t) && IsSuffix(op)
    ensures Proper(Suffix(t, op, c)) && Yield(Suffix(t, op, c)) == Yield(t) + [Bracket(op == Subscript, c)]
    ensures Top(Suffix(t, op, c)) == Max(Top(t), Level(op)) && EndsInSuffix(Suffix(t, op, c))
    decreases t
  {
    hide Level, IsPrefix, IsSuffix, IsInfix;
    LevelKinds(op);
    var tok := Bracket(op == Subscript, c);
    if Top(t) > Level(op) {
      match t
      case Infix(l, q, r) =>
        SuffixProper(r, op, c);
        assert Yield(l) + [Operator(q)] + (Yield(r) + [tok]) == Yield(t) + [tok];
      case Prefixed(q, u) =>
        SuffixProper(u, op, c);
        assert [PrefixToken(q)] + (Yield(u) + [tok]) == Yield(t) + [tok];
      case Suffixed(_, q, _) => LevelKinds(q);
    }
  }

  /** The next operand, with its prefix operator if it has one. */
  lemma Factor(tokens: seq<Token>, prefix: bool) returns (f: Tree, n: nat)
    requires Regular(tokens, Wants(prefix))
    ensures 1 <= n <= |tokens| && Proper(f) && Yield(f) == tokens[..n] && Regular(tokens[n..], Has(false))
    ensures !EndsInSuffix(f) && Top(f) <= (if prefix then 3 else 0)
  {
    if !tokens[0].Operator? {
      f, n := Leaf(tokens[0]), 1;
    } else {
      hide Regular, Goes;
      FactorTokens(tokens, prefix);
      f := PrefixedLeaf(tokens[0].op, tokens[1]);
      n := 2;
      assert tokens[..2] == [tokens[0], tokens[1]];
    }
  }

  lemma {:induction false} FactorTokens(tokens: seq<Token>, prefix: bool)
    requires Regular(tokens, Wants(prefix)) && tokens[0].Operator?
    ensures prefix && tokens[0].op in {Add, Sub, BitNot, Not} && |tokens| >= 2 && !tokens[1].Operator?
    ensures Regular(tokens[2..], Has(false))
  {
    assert Regular(tokens[1..], Wants(false));
    assert tokens[1..][1..] == tokens[2..];
  }

  /** A prefix operator and its operand, from their tokens. */
  lemma {:induction false} PrefixedLeaf(op: Op, tok: Token) returns (f: Tree)
    requires op in {Add, Sub, BitNot, Not} && !tok.Operator?
    ensures Proper(f) && Yield(f) == [Operator(op), tok] && !EndsInSuffix(f) && Top(f) == 3
  {
    f := Prefixed(if op == Add then Pos else if op == Sub then Neg else op, Leaf(tok));
    assert Yield(Leaf(tok)) == [tok] && Top(Leaf(tok)) == 0 && Proper(Leaf(tok)) && !EndsInSuffix(Leaf(tok));
  }

  /** One more call or subscript, or one more infix operator with its operand. */
  lemma GrowOnce(t: Tree, tokens: seq<Token>, suffixed: bool) returns (u: Tree, n: nat, ends: bool)
    requires Proper(t) && tokens != [] && Regular(tokens, Has(suffixed)) && (EndsInSuffix(t) ==> suffixed)
    ensures 1 <= n <= |tokens| && Proper(u) && Yield(u) == Yield(t) + tokens[..n]
    ensures Regular(tokens[n..], Has(ends)) && (EndsInSuffix(u) ==> ends)
  {
    hide Level, IsInfix, Proper, EndsInSuffix, Yield, IsPrefix, Extend, Suffix;
    match tokens[0] {
      case Bracket(square, c) =>
        SuffixProper(t, BracketOp(square), c);
        u, n, ends := Suffix(t, BracketOp(square), c), 1, true;
        assert tokens[..1] == [tokens[0]];
      case Operator(op) =>
        var f, k := Factor(tokens[1..], Level(op) > 3);
        LevelKinds(op);
        ExtendProper(t, op, f);
        u, n, ends := Extend(t, op, f), k + 1, false;
        assert tokens[..k + 1] == [tokens[0]] + tokens[1..][..k];
        assert tokens[1..][k..] == tokens[k + 1..];
    }
  }

  lemma {:induction false} Grow(t: Tree, tokens: seq<Token>, suffixed: bool) returns (u: Tree)
    requires Proper(t) && Regular(tokens, Has(suffixed)) && (EndsInSuffix(t) ==> suffixed)
    ensures Proper(u) && Yield(u) == Yield(t) + tokens
    decreases |tokens|
  {
    hide Proper, EndsInSuffix, Yield, Regular;
    if tokens == [] {
      u := t;
    } else {
      var v, n, ends := GrowOnce(t, tokens, suffixed);
      u := Grow(v, tokens[n..], ends);
      assert tokens == tokens[..n] + tokens[n..];
    }
  }

  /** Every regular stream is accepted, and its tree is the one proper tree with these tokens. */
  lemma ParseRegular(tokens: seq<Token>) returns (t: Tree)
    requires Regular(tokens, Wants(true))
    ensures Parse(tokens) == Accepted(t) && Proper(t) && Yield(t) == tokens
    ensures forall u :: Proper(u) && Yield(u) == tokens ==> u == t
  {
    hide Parse, Proper, Regular;
    var f, n := Factor(tokens, true);
    t := Grow(f, tokens[n..], false);
    assert tokens[..n] + tokens[n..] == tokens;
    ParseYield(t);
    forall u | Proper(u) && Yield(u) == tokens ensures u == t { ProperUnique(t, u); }
  }

  lemma {:induction false} NoSuffix(t: Tree)
    requires Proper(t) && Top(t) <= 1
    ensures !EndsInSuffix(t)
    decreases t
  {
    match t
    case Leaf(_) =>
    case Infix(_, _, r) => NoSuffix(r);
    case Prefixed(op, _) => LevelKinds(op);
    case Suffixed(_, op, _) => LevelKinds(op);
  }

  lemma {:induction false} YieldRegular(t: Tree, prefix: bool, rest: seq<Token>)
    requires Proper(t) && (prefix || Top(t) < 3) && Regular(rest, Has(EndsInSuffix(t)))
    ensures Regular(Yield(t) + rest, Wants(prefix))
    decreases t
  {
    hide Level, Yield;
    match t
    case Leaf(tok) =>
      YieldLeaf(tok);
      RegularOne(tok, rest, Wants(prefix));
    case Prefixed(op, u) =>
      LevelKinds(op);
      YieldRegular(u, false, rest);
      YieldPrefixed(op, u, rest);
      RegularOne(PrefixToken(op), Yield(u) + rest, Wants(prefix));
    case Infix(l, op, r) =>
      LevelKinds(op);
      if Level(op) == 1 { NoSuffix(l); }
      YieldRegular(r, Level(op) > 3, rest);
      RegularOne(Operator(op), Yield(r) + rest, Has(EndsInSuffix(l)));
      YieldRegular(l, prefix, [Operator(op)] + (Yield(r) + rest));
      YieldInfix(l, op, r, rest);
    case Suffixed(o, op, c) =>
      LevelKinds(op);
      RegularOne(Bracket(op == Subscript, c), rest, Has(EndsInSuffix(o)));
      YieldRegular(o, prefix, [Bracket(op == Subscript, c)] + rest);
      YieldSuffixed(o, op, c, rest);
  }

  lemma {:induction false} RegularOne(tok: Token, rest: seq<Token>, place: Place)
    requires Goes(tok, place).Some? && Regular(rest, Goes(tok, place).place)
    ensures Regular([tok] + rest, place)
  {
    assert ([tok] + rest)[1..] == rest;
  }

  /** The regular streams are exactly the tokens of proper trees, and exactly those from which the
      parser builds a proper tree with these tokens. */
  lemma {:induction false} RegularIffProper(tokens: seq<Token>)
    ensures Regular(tokens, Wants(true)) <==> exists t :: Proper(t) && Yield(t) == tokens
    ensures Regular(tokens, Wants(true)) <==>
      Parse(tokens).Accepted? && Proper(Parse(tokens).tree) && Yield(Parse(tokens).tree) == tokens
  {
    hide Regular, Proper, Yield, Parse;
    if Regular(tokens, Wants(true)) {
      var t := ParseRegular(tokens);
    }
    forall t | Proper(t) && Yield(t) == tokens ensures Regular(tokens, Wants(true)) {
      EmptyRegular(EndsInSuffix(t));
      YieldRegular(t, true, []);
      assert Yield(t) + [] == tokens;
    }
  }

  lemma EmptyRegular(suffixed: bool)
    ensures Regular([], Has(suffixed))
  {
  }

  // ----- Grouping to the right ----------------------------------------------

  /** The documented grouping: assignments group to the right, all other infix operators to the left. */
  predicate Documented(t: Tree)
  {
    match t
    case Leaf(tok) => !tok.Operator?
    case Pending(_, _) => false
    case Prefixed(op, u) => IsPrefix(op) && Documented(u) && Top(u) <= Level(op)
    case Infix(l, op, r) =>
      IsInfix(op) && Documented(l) && Documented(r) &&
      if IsAssignment(op) then Top(l) < Level(op) && Top(r) <= Level(op) else Top(l) <= Level(op) && Top(r) < Level(op)
    case Suffixed(o, op, _) => IsSuffix(op) && Documented(o) && Top(o) <= Level(op)
  }

  function Assignments(tokens: seq<Token>): nat
  {
    if tokens == [] then 0
      else (if tokens[0].Operator? && IsAssignment(tokens[0].op) then 1 else 0) + Assignments(tokens[1..])
  }

  lemma {:induction false} AssignmentsAdd(a: seq<Token>, b: seq<Token>)
    ensures Assignments(a + b) == Assignments(a) + Assignments(b)
    decreases |a|
  {
    if a == [] {
      assert a + b == b;
    } else {
      assert (a + b)[1..] == a[1..] + b;
      AssignmentsAdd(a[1..], b);
    }
  }

  lemma {:induction false} AssignmentsTop(t: Tree)
    requires Proper(t)
    ensures Assignments(Yield(t)) > 0 <==> Top(t) == 15
    ensures t.Infix? ==>
      Assignments(Yield(t)) == Assignments(Yield(t.lhs)) + (if IsAssignment(t.op) then 1 else 0) +
      Assignments(Yield(t.rhs))
    decreases t
  {
    hide Level;
    match t
    case Leaf(_) =>
    case Prefixed(op, u) =>
      LevelKinds(op);
      AssignmentsTop(u);
      AssignmentsAdd([PrefixToken(op)], Yield(u));
      PrefixNoAssignment(op);
    case Infix(l, op, r) =>
      AssignmentsTop(l); AssignmentsTop(r);
      AssignmentsAdd(Yield(l), [Operator(op)]);
      AssignmentsAdd(Yield(l) + [Operator(op)], Yield(r));
    case Suffixed(o, op, c) =>
      LevelKinds(op);
      AssignmentsTop(o);
      AssignmentsAdd(Yield(o), [Bracket(op == Subscript, c)]);
  }

  lemma PrefixNoAssignment(op: Op)
    requires IsPrefix(op)
    ensures Assignments([PrefixToken(op)]) == 0
  {
  }

  /** The tree that is built is the documented one if, and only if, there is at most one
      assignment operator: of two, the first is reduced first. */
  lemma {:induction false} DocumentedIffOneAssignment(t: Tree)
    requires Proper(t)
    ensures Documented(t) <==> Assignments(Yield(t)) <= 1
    decreases t
  {
    hide Level;
    AssignmentsTop(t);
    match t
    case Leaf(_) =>
    case Prefixed(op, u) =>
      LevelKinds(op);
      AssignmentsTop(u);
      DocumentedIffOneAssignment(u);
    case Infix(l, op, r) =>
      AssignmentsTop(l); AssignmentsTop(r);
      DocumentedIffOneAssignment(l); DocumentedIffOneAssignment(r);
    case Suffixed(o, op, _) =>
      LevelKinds(op);
      AssignmentsTop(o);
      DocumentedIffOneAssignment(o);
      AssignmentsAdd(Yield(o), [Bracket(op == Subscript, t.content)]);
  }

  /** For two assignments in a row, as in `a = b = c`, the parser builds a tree that is not the
      documented one, although that has the same tokens. */
  lemma {:induction false} TwoAssignments(a: int, op: Op, b: int, op': Op, c: int)
    requires IsAssignment(op) && IsAssignment(op')
    ensures
      var tokens := [Value(a), Operator(op), Value(b), Operator(op'), Value(c)];
      var x, y, z := Leaf(Value(a)), Leaf(Value(b)), Leaf(Value(c));
      var left, right := Infix(Infix(x, op, y), op', z), Infix(x, op, Infix(y, op', z));
      && Regular(tokens, Wants(true)) && Parse(tokens) == Accepted(left) && !Documented(left)
      && Documented(right) && Yield(right) == tokens
  {
    var tokens := [Value(a), Operator(op), Value(b), Operator(op'), Value(c)];
    var x, y, z := Leaf(Value(a)), Leaf(Value(b)), Leaf(Value(c));
    var left, right := Infix(Infix(x, op, y), op', z), Infix(x, op, Infix(y, op', z));
    AssignmentKinds(op);
    AssignmentKinds(op');
    LeafKinds(a);
    LeafKinds(b);
    LeafKinds(c);
    assert Proper(Infix(x, op, y)) && Yield(Infix(x, op, y)) == [Value(a), Operator(op), Value(b)];
    assert Proper(left) && Yield(left) == tokens;
    assert Yield(Infix(y, op', z)) == [Value(b), Operator(op'), Value(c)];
    assert Yield(right) == tokens && Documented(Infix(y, op', z));
    RegularIffProper(tokens);
    ParseYield(left);
  }

  lemma LeafKinds(id: int)
    ensures
      var t := Leaf(Value(id));
      Proper(t) && Documented(t) && Top(t) == 0 && Yield(t) == [Value(id)]
  {
  }

  lemma AssignmentKinds(op: Op)
    requires IsAssignment(op)
    ensures IsInfix(op) && Level(op) == 15
  {
  }

  /** Why there may be no two prefix operators in a row: the second one makes the first apply to
      the operand before it, if there is one. */
  lemma SecondPrefix(operators: seq<Op>, operands: seq<Tree>, first: Op, second: Op)
    requires IsPrefix(first) && IsPrefix(second)
    ensures
      var k := |operands|;
      Input(State(operators + [first], operands), PrefixToken(second), false) ==
        if k == 0 then Failed
        else Input(State(operators, operands[..k - 1] + [Prefixed(first, operands[k - 1])]), PrefixToken(second), false)
  {
    LevelKinds(first);
    LevelKinds(second);
    var s := State(operators + [first], operands);
    assert s.operators[..|s.operators| - 1] == operators;
    assert ReduceWhile(s, Level(second)) == ReduceWhile(Reduce(s), Level(second));
  }
}
