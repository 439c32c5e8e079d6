/** The documented table of operators as a grammar, row by row, and the trees that the parser builds. */
module Grammar {
  import opened Parsing

  // ----- One predicate for each row -----------------------------------------
  //
  // With `right`, prefix operators and assignments group to the right, as documented; without it,
  // everything groups to the left.

  predicate Operand(t: Tree)
  {
    t.Leaf? && !t.token.Operator?
  }

  /** Members of objects and of modules. */
  predicate Member(t: Tree)
  {
    Operand(t) || (t.Infix? && t.op in {Period, Colon} && Member(t.lhs) && Operand(t.rhs))
  }

  /** Calls and subscripts. */
  predicate Applied(t: Tree)
  {
    Member(t) || (t.Suffixed? && t.op in {Call, Subscript} && Applied(t.obj))
  }

  /** Prefix operators. */
  predicate Unary(t: Tree, right: bool)
  {
    Applied(t) ||
    (t.Prefixed? && t.op in {Pos, Neg, BitNot, Not} && if right then Unary(t.arg, right) else Applied(t.arg))
  }

  /** Multiplication and division. */
  predicate Product(t: Tree, right: bool)
  {
    Unary(t, right) || (t.Infix? && t.op in {Mul, Div, Rem} && Product(t.lhs, right) && Unary(t.rhs, right))
  }

  /** Addition and subtraction. */
  predicate Sum(t: Tree, right: bool)
  {
    Product(t, right) || (t.Infix? && t.op in {Add, Sub} && Sum(t.lhs, right) && Product(t.rhs, right))
  }

  /** Shifts. */
  predicate Shift(t: Tree, right: bool)
  {
    Sum(t, right) || (t.Infix? && t.op in {Shl, Shr} && Shift(t.lhs, right) && Sum(t.rhs, right))
  }

  /** Comparisons of order. */
  predicate Relation(t: Tree, right: bool)
  {
    Shift(t, right) || (t.Infix? && t.op in {Lt, Le, Gt, Ge} && Relation(t.lhs, right) && Shift(t.rhs, right))
  }

  /** Comparisons for equality. */
  predicate Equality(t: Tree, right: bool)
  {
    Relation(t, right) || (t.Infix? && t.op in {Eq, Ne} && Equality(t.lhs, right) && Relation(t.rhs, right))
  }

  /** Bitwise and. */
  predicate Mask(t: Tree, right: bool)
  {
    Equality(t, right) || (t.Infix? && t.op in {BitAnd} && Mask(t.lhs, right) && Equality(t.rhs, right))
  }

  /** Bitwise exclusive or. */
  predicate Difference(t: Tree, right: bool)
  {
    Mask(t, right) || (t.Infix? && t.op in {BitXor} && Difference(t.lhs, right) && Mask(t.rhs, right))
  }

  /** Bitwise or. */
  predicate Union(t: Tree, right: bool)
  {
    Difference(t, right) || (t.Infix? && t.op in {BitOr} && Union(t.lhs, right) && Difference(t.rhs, right))
  }

  /** Logical and. */
  predicate Conjunction(t: Tree, right: bool)
  {
    Union(t, right) || (t.Infix? && t.op in {And} && Conjunction(t.lhs, right) && Union(t.rhs, right))
  }

  /** Logical or. */
  predicate Disjunction(t: Tree, right: bool)
  {
    Conjunction(t, right) || (t.Infix? && t.op in {Or} && Disjunction(t.lhs, right) && Conjunction(t.rhs, right))
  }

  const ASSIGNMENTS := {Eql, AddEql, SubEql, MulEql, DivEql, RemEql, ShlEql, ShrEql, BitAndEql, BitOrEql, BitXorEql}

  /** Assignments. */
  predicate Assignment(t: Tree, right: bool)
  {
    Disjunction(t, right) ||
    (t.Infix? && t.op in ASSIGNMENTS &&
      if right then Disjunction(t.lhs, right) && Assignment(t.rhs, right)
      else Assignment(t.lhs, right) && Disjunction(t.rhs, right))
  }

  // ----- The rows and the precedences ---------------------------------------

  /** Which operators have which precedence. */
  lemma Rows(op: Op)
    ensures op in {Period, Colon} <==> Level(op) == 1
    ensures op in {Call, Subscript} <==> Level(op) == 2
    ensures op in {Pos, Neg, BitNot, Not} <==> Level(op) == 3
    ensures op in {Mul, Div, Rem} <==> Level(op) == 4
    ensures op in {Add, Sub} <==> Level(op) == 5
    ensures op in {Shl, Shr} <==> Level(op) == 6
    ensures op in {Lt, Le, Gt, Ge} <==> Level(op) == 8
    ensures op in {Eq, Ne} <==> Level(op) == 9
    ensures op in {BitAnd} <==> Level(op) == 10
    ensures op in {BitXor} <==> Level(op) == 11
    ensures op in {BitOr} <==> Level(op) == 12
    ensures op in {And} <==> Level(op) == 13
    ensures op in {Or} <==> Level(op) == 14
    ensures op in ASSIGNMENTS <==> Level(op) == 15
    ensures Level(op) != 7
    ensures IsPrefix(op) <==> Level(op) == 3
    ensures IsSuffix(op) <==> Level(op) == 2
  {
    hide Level;
    TightRows(op);
    MiddleRows(op);
    LooseRows(op);
    LastRow(op);
  }

  lemma TightRows(op: Op)
    ensures op in {Period, Colon} <==> Level(op) == 1
    ensures op in {Call, Subscript} <==> Level(op) == 2
    ensures op in {Pos, Neg, BitNot, Not} <==> Level(op) == 3
    ensures op in {Mul, Div, Rem} <==> Level(op) == 4
    ensures op in {Add, Sub} <==> Level(op) == 5
  {
  }

  lemma MiddleRows(op: Op)
    ensures op in {Shl, Shr} <==> Level(op) == 6
    ensures op in {Lt, Le, Gt, Ge} <==> Level(op) == 8
    ensures op in {Eq, Ne} <==> Level(op) == 9
    ensures op in {BitAnd} <==> Level(op) == 10
    ensures op in {BitXor} <==> Level(op) == 11
    ensures Level(op) != 7
  {
  }

  lemma LooseRows(op: Op)
    ensures op in {BitOr} <==> Level(op) == 12
    ensures op in {And} <==> Level(op) == 13
    ensures op in {Or} <==> Level(op) == 14
  {
  }

  lemma LastRow(op: Op)
    ensures op in ASSIGNMENTS <==> Level(op) == 15
  {
    hide Level;
    TightRows(op);
    MiddleRows(op);
    LooseRows(op);
    LevelBound(op);
  }

  /** The trees of one grouping or the other. */
  predicate Grouped(t: Tree, right: bool)
  {
    if right then Documented(t) else Proper(t)
  }

  lemma {:induction false} MemberRow(t: Tree, right: bool)
    ensures Member(t) <==> Grouped(t, right) && Top(t) <= 1
    decreases t
  {
    hide Level, IsPrefix, IsSuffix;
    match t
    case Infix(l, op, r) =>
      Rows(op);
      MemberRow(l, right);
      OperandRow(r, right);
    case Prefixed(op, _) => Rows(op);
    case Suffixed(_, op, _) => Rows(op);
    case _ =>
  }

  lemma {:induction false} OperandRow(t: Tree, right: bool)
    ensures Operand(t) <==> Grouped(t, right) && Top(t) < 1
  {
  }

  lemma {:induction false} AppliedRow(t: Tree, right: bool)
    ensures Applied(t) <==> Grouped(t, right) && Top(t) <= 2
    decreases t
  {
    hide Level, IsPrefix, IsSuffix, Member;
    MemberRow(t, right);
    match t
    case Suffixed(o, op, _) =>
      Rows(op);
      AppliedRow(o, right);
    case Prefixed(op, _) => Rows(op);
    case Infix(_, op, _) => Rows(op);
    case _ =>
  }

  lemma {:induction false} UnaryRow(t: Tree, right: bool)
    ensures Unary(t, right) <==> Grouped(t, right) && Top(t) <= 3
    decreases t
  {
    hide Level, IsPrefix, IsSuffix, Applied;
    AppliedRow(t, right);
    match t
    case Prefixed(op, u) =>
      Rows(op);
      AppliedRow(u, right);
      UnaryRow(u, right);
    case Suffixed(_, op, _) => Rows(op);
    case Infix(_, op, _) => Rows(op);
    case _ =>
  }

  lemma {:induction false} ProductRow(t: Tree, right: bool)
    ensures Product(t, right) <==> Grouped(t, right) && Top(t) <= 4
    decreases t
  {
    hide Level, IsPrefix, IsSuffix, Unary;
    UnaryRow(t, right);
    match t
    case Infix(l, op, r) =>
      Rows(op);
      ProductRow(l, right);
      UnaryRow(r, right);
    case Prefixed(op, _) => Rows(op);
    case Suffixed(_, op, _) => Rows(op);
    case _ =>
  }

  lemma {:induction false} SumRow(t: Tree, right: bool)
    ensures Sum(t, right) <==> Grouped(t, right) && Top(t) <= 5
    decreases t
  {
    hide Level, IsPrefix, IsSuffix, Product;
    ProductRow(t, right);
    match t
    case Infix(l, op, r) =>
      Rows(op);
      SumRow(l, right);
      ProductRow(r, right);
    case Prefixed(op, _) => Rows(op);
    case Suffixed(_, op, _) => Rows(op);
    case _ =>
  }

  lemma {:induction false} ShiftRow(t: Tree, right: bool)
    ensures Shift(t, right) <==> Grouped(t, right) && Top(t) <= 6
    decreases t
  {
    hide Level, IsPrefix, IsSuffix, Sum;
    SumRow(t, right);
    match t
    case Infix(l, op, r) =>
      Rows(op);
      ShiftRow(l, right);
      SumRow(r, right);
    case Prefixed(op, _) => Rows(op);
    case Suffixed(_, op, _) => Rows(op);
    case _ =>
  }

  lemma {:induction false} RelationRow(t: Tree, right: bool)
    ensures Relation(t, right) <==> Grouped(t, right) && Top(t) <= 8
    decreases t
  {
    hide Level, IsPrefix, IsSuffix, Shift;
    ShiftRow(t, right);
    match t
    case Infix(l, op, r) =>
      Rows(op);
      RelationRow(l, right);
      ShiftRow(r, right);
      NoneSeventh(r);
    case Prefixed(op, _) => Rows(op);
    case Suffixed(_, op, _) => Rows(op);
    case _ =>
  }

  lemma NoneSeventh(t: Tree)
    ensures Top(t) != 7
  {
  }

  lemma {:induction false} EqualityRow(t: Tree, right: bool)
    ensures Equality(t, right) <==> Grouped(t, right) && Top(t) <= 9
    decreases t
  {
    hide Level, IsPrefix, IsSuffix, Relation;
    RelationRow(t, right);
    match t
    case Infix(l, op, r) =>
      Rows(op);
      EqualityRow(l, right);
      RelationRow(r, right);
    case Prefixed(op, _) => Rows(op);
    case Suffixed(_, op, _) => Rows(op);
    case _ =>
  }

  lemma {:induction false} MaskRow(t: Tree, right: bool)
    ensures Mask(t, right) <==> Grouped(t, right) && Top(t) <= 10
    decreases t
  {
    hide Level, IsPrefix, IsSuffix, Equality;
    EqualityRow(t, right);
    match t
    case Infix(l, op, r) =>
      Rows(op);
      MaskRow(l, right);
      EqualityRow(r, right);
    case Prefixed(op, _) => Rows(op);
    case Suffixed(_, op, _) => Rows(op);
    case _ =>
  }

  lemma {:induction false} DifferenceRow(t: Tree, right: bool)
    ensures Difference(t, right) <==> Grouped(t, right) && Top(t) <= 11
    decreases t
  {
    hide Level, IsPrefix, IsSuffix, Mask;
    MaskRow(t, right);
    match t
    case Infix(l, op, r) =>
      Rows(op);
      DifferenceRow(l, right);
      MaskRow(r, right);
    case Prefixed(op, _) => Rows(op);
    case Suffixed(_, op, _) => Rows(op);
    case _ =>
  }

  lemma {:induction false} UnionRow(t: Tree, right: bool)
    ensures Union(t, right) <==> Grouped(t, right) && Top(t) <= 12
    decreases t
  {
    hide Level, IsPrefix, IsSuffix, Difference;
    DifferenceRow(t, right);
    match t
    case Infix(l, op, r) =>
      Rows(op);
      UnionRow(l, right);
      DifferenceRow(r, right);
    case Prefixed(op, _) => Rows(op);
    case Suffixed(_, op, _) => Rows(op);
    case _ =>
  }

  lemma {:induction false} ConjunctionRow(t: Tree, right: bool)
    ensures Conjunction(t, right) <==> Grouped(t, right) && Top(t) <= 13
    decreases t
  {
    hide Level, IsPrefix, IsSuffix, Union;
    UnionRow(t, right);
    match t
    case Infix(l, op, r) =>
      Rows(op);
      ConjunctionRow(l, right);
      UnionRow(r, right);
    case Prefixed(op, _) => Rows(op);
    case Suffixed(_, op, _) => Rows(op);
    case _ =>
  }

  lemma {:induction false} DisjunctionRow(t: Tree, right: bool)
    ensures Disjunction(t, right) <==> Grouped(t, right) && Top(t) <= 14
    decreases t
  {
    hide Level, IsPrefix, IsSuffix, Conjunction;
    ConjunctionRow(t, right);
    match t
    case Infix(l, op, r) =>
      Rows(op);
      DisjunctionRow(l, right);
      ConjunctionRow(r, right);
    case Prefixed(op, _) => Rows(op);
    case Suffixed(_, op, _) => Rows(op);
    case _ =>
  }

  /** The grammar describes exactly the trees of its grouping. */
  lemma {:induction false} AssignmentRow(t: Tree, right: bool)
    ensures Assignment(t, right) <==> Grouped(t, right)
    decreases t
  {
    hide Level, IsPrefix, IsSuffix, Disjunction;
    DisjunctionRow(t, right);
    match t
    case Infix(l, op, r) =>
      Rows(op);
      LevelBound(op);
      AssignmentRow(l, right);
      AssignmentRow(r, right);
      DisjunctionRow(l, right);
      DisjunctionRow(r, right);
      TopBound(l);
      TopBound(r);
    case Prefixed(op, _) => Rows(op);
    case Suffixed(_, op, _) => Rows(op);
    case _ =>
  }

  lemma LevelBound(op: Op)
    ensures 1 <= Level(op) <= 15
  {
  }

  lemma TopBound(t: Tree)
    ensures Top(t) <= 15
  {
  }

  // ----- What the parser builds ---------------------------------------------

  /** How a tree is written: the signs of numbers are written like the operations, and brackets are
      round for calls and square for subscripts. */
  function Written(t: Tree): seq<Token>
  {
    match t
    case Leaf(tok) => [tok]
    case Prefixed(Pos, u) => [Operator(Add)] + Written(u)
    case Prefixed(Neg, u) => [Operator(Sub)] + Written(u)
    case Prefixed(op, u) => [Operator(op)] + Written(u)
    case Infix(l, op, r) => Written(l) + [Operator(op)] + Written(r)
    case Suffixed(o, op, c) => Written(o) + [Bracket(op != Call, c)]
    case Pending(op, c) => [Bracket(op != Call, c)]
  }

  lemma {:induction false} WrittenYield(t: Tree)
    requires Proper(t)
    ensures Written(t) == Yield(t)
    decreases t
  {
    hide Level;
    match t
    case Prefixed(_, u) => WrittenYield(u);
    case Infix(l, _, r) =>
      WrittenYield(l);
      WrittenYield(r);
    case Suffixed(o, _, _) => WrittenYield(o);
    case _ =>
  }

  /** A tree of the grammar with everything grouping to the left, written as these tokens. */
  predicate Reads(tokens: seq<Token>, t: Tree)
  {
    Assignment(t, false) && Written(t) == tokens
  }

  lemma {:induction false} ReadsProper(tokens: seq<Token>, t: Tree)
    ensures Reads(tokens, t) <==> Proper(t) && Yield(t) == tokens
  {
    hide Assignment, Proper, Written, Yield;
    AssignmentRow(t, false);
    if Proper(t) { WrittenYield(t); }
  }

  /** From a regular stream the parser builds the one tree of the grammar that is written so; and the
      regular streams are those of the grammar. */
  lemma {:induction false} ParsesGrammar(tokens: seq<Token>)
    ensures Regular(tokens, Wants(true)) <==> exists t :: Reads(tokens, t)
    ensures forall t :: Reads(tokens, t) ==> Parse(tokens) == Accepted(t)
  {
    hide Regular, Proper, Yield, Parse, Reads;
    RegularIffProper(tokens);
    forall t: Tree ensures Reads(tokens, t) <==> Proper(t) && Yield(t) == tokens { ReadsProper(tokens, t); }
    forall t | Reads(tokens, t) ensures Parse(tokens) == Accepted(t) { ParseYield(t); }
  }

  /** The rows of infix operators, from those that bind tightest to those that bind least. */
  function Row(i: nat): set<Op>
  {
    match i
    case 0 => {Period, Colon}
    case 1 => {Mul, Div, Rem}
    case 2 => {Add, Sub}
    case 3 => {Shl, Shr}
    case 4 => {Lt, Le, Gt, Ge}
    case 5 => {Eq, Ne}
    case 6 => {BitAnd}
    case 7 => {BitXor}
    case 8 => {BitOr}
    case 9 => {And}
    case 10 => {Or}
    case 11 => ASSIGNMENTS
    case _ => {}
  }

  /** For any two infix operators, in whichever rows: the first one takes the operand between them
      unless the second one is in a row that binds tighter. */
  lemma {:induction false} TwoOperators(x: Token, i: nat, op: Op, y: Token, j: nat, op': Op, z: Token)
    requires op in Row(i) && op' in Row(j) && x.Value? && y.Value? && z.Value?
    ensures Parse([x, Operator(op), y, Operator(op'), z]) ==
      Accepted(if i <= j then Infix(Infix(Leaf(x), op, Leaf(y)), op', Leaf(z))
        else Infix(Leaf(x), op, Infix(Leaf(y), op', Leaf(z))))
  {
    hide Level, Parse, Proper, Yield, Row;
    InfixRow(i, op);
    InfixRow(j, op');
    RowsAscend(i, op, j, op');
    ProperLeaf(x);
    ProperLeaf(y);
    ProperLeaf(z);
    if i <= j {
      ProperInfix(Leaf(x), op, Leaf(y));
      ProperInfix(Infix(Leaf(x), op, Leaf(y)), op', Leaf(z));
      ParseYield(Infix(Infix(Leaf(x), op, Leaf(y)), op', Leaf(z)));
      assert [x] + [Operator(op)] + [y] + [Operator(op')] + [z] == [x, Operator(op), y, Operator(op'), z];
    } else {
      ProperInfix(Leaf(y), op', Leaf(z));
      ProperInfix(Leaf(x), op, Infix(Leaf(y), op', Leaf(z)));
      ParseYield(Infix(Leaf(x), op, Infix(Leaf(y), op', Leaf(z))));
      assert [x] + [Operator(op)] + ([y] + [Operator(op')] + [z]) == [x, Operator(op), y, Operator(op'), z];
    }
  }

  lemma {:induction false} ProperLeaf(tok: Token)
    requires tok.Value?
    ensures Proper(Leaf(tok)) && Yield(Leaf(tok)) == [tok] && Top(Leaf(tok)) == 0
  {
  }

  lemma {:induction false} ProperInfix(l: Tree, op: Op, r: Tree)
    requires IsInfix(op) && Proper(l) && Proper(r) && Top(l) <= Level(op) && Top(r) < Level(op)
    ensures Proper(Infix(l, op, r)) && Yield(Infix(l, op, r)) == Yield(l) + [Operator(op)] + Yield(r)
    ensures Top(Infix(l, op, r)) == Level(op)
  {
  }

  lemma InfixRow(i: nat, op: Op)
    requires op in Row(i)
    ensures IsInfix(op) && Level(op) == RowLevel(i) > 0
  {
    hide Level, IsPrefix, IsSuffix;
    Rows(op);
  }

  function RowLevel(i: nat): nat
  {
    if i == 0 then 1 else if i <= 3 then i + 3 else if i <= 10 then i + 4 else 15
  }

  lemma RowsAscend(i: nat, op: Op, j: nat, op': Op)
    requires op in Row(i) && op' in Row(j)
    ensures i <= j <==> Level(op) <= Level(op')
  {
    hide Level, Row;
    RowBound(i, op);
    RowBound(j, op');
    InfixRow(i, op);
    InfixRow(j, op');
  }

  lemma RowBound(i: nat, op: Op)
    requires op in Row(i)
    ensures i <= 11
  {
  }
}
