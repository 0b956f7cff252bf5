// The operator-precedence expression parser of src/parser.rs: a loop
// over the tokens with an operand stack and an operator stack, and a
// one-level tree rotation that makes `*` and `/` bind tighter than the
// other operators.

module Parser {
  import opened Wrappers
  import L = Lexer

  /** The tokens this parser reads: the older three-variant token of the
      generation `parse` was written against. Floats are kept as their
      literal text. */
  datatype Token =
    | LiteralInteger(value: int)
    | LiteralFloat(text: string)
    | Op(op: L.Operator)

  datatype Expr =
    | IntegerValue(i: int)
    | FloatValue(f: string)
    | BinaryOperation(lhs: Expr, op: L.Operator, rhs: Expr)
    | Parenthesized(inner: Expr)

  /** `precedence`: two levels. */
  function Precedence(o: L.Operator): (p: nat)
    ensures p == 100 <==> o == L.Multiply || o == L.Divide
    ensures p == 1 <==> !(o == L.Multiply || o == L.Divide)
  {
    match o
    case Multiply => 100
    case Divide => 100
    case _ => 1
  }

  /** The leaf an operand token is pushed as. */
  function Operand(t: Token): Expr
    requires !t.Op?
  {
    match t
    case LiteralInteger(i) => IntegerValue(i)
    case LiteralFloat(f) => FloatValue(f)
  }

  /** The combine step of `parse`: build `lhs op rhs`, then rotate when
      the left operand's root binds less tightly than `op`, then (the
      second `if let`) do the mirror rotation on the right operand. */
  function Combine(lhs: Expr, op: L.Operator, rhs: Expr): Expr
  {
    var afterLeft :=
      if lhs.BinaryOperation? && Precedence(op) > Precedence(lhs.op) then
        BinaryOperation(lhs.lhs, lhs.op, BinaryOperation(lhs.rhs, op, rhs))
      else BinaryOperation(lhs, op, rhs);
    if rhs.BinaryOperation? && Precedence(op) > Precedence(rhs.op) then
      BinaryOperation(rhs.lhs, rhs.op, BinaryOperation(rhs.rhs, op, lhs))
    else afterLeft
  }

  /** The combine step with only the left-operand rotation. */
  function CombineLeft(lhs: Expr, op: L.Operator, rhs: Expr): Expr
  {
    if lhs.BinaryOperation? && Precedence(op) > Precedence(lhs.op) then
      BinaryOperation(lhs.lhs, lhs.op, BinaryOperation(lhs.rhs, op, rhs))
    else BinaryOperation(lhs, op, rhs)
  }

  datatype Stacks = Stacks(operands: seq<Expr>, operators: seq<L.Operator>)

  /** One pass of the `for tok in tokens` loop: push the token, then, if
      it was an operand and there are two operands and an operator, pop
      two operands and an operator and push their combination. */
  function Feed(s: Stacks, t: Token): Stacks
  {
    if t.Op? then Stacks(s.operands, s.operators + [t.op])
    else
      var operands := s.operands + [Operand(t)];
      if |operands| > 1 && |s.operators| > 0 then
        var n := |operands|;
        var m := |s.operators|;
        Stacks(operands[..n - 2] + [Combine(operands[n - 2], s.operators[m - 1], operands[n - 1])],
               s.operators[..m - 1])
      else Stacks(operands, s.operators)
  }

  /** The stacks after the loop has read all of `ts`. */
  function Fed(ts: seq<Token>): Stacks
  {
    if ts == [] then Stacks([], [])
    else Feed(Fed(ts[..|ts| - 1]), ts[|ts| - 1])
  }

  /** The checks after the loop: None is one of the three panics
      (operators left, operands left, nothing parsed). */
  function Finish(s: Stacks): Option<Expr>
  {
    if |s.operators| > 0 then None
    else if |s.operands| > 1 then None
    else if |s.operands| == 0 then None
    else Some(s.operands[0])
  }

  /** `parse(tokens)`; None stands for its panics. */
  function Parse(ts: seq<Token>): Option<Expr>
  {
    Finish(Fed(ts))
  }

  /** `parse`, as the loop over the two stacks it is. */
  method ParseTokens(tokens: seq<Token>) returns (r: Option<Expr>)
    ensures r == Parse(tokens)
  {
    var operatorStack: seq<L.Operator> := [];
    var operandStack: seq<Expr> := [];
    for k := 0 to |tokens|
      invariant Stacks(operandStack, operatorStack) == Fed(tokens[..k])
    {
      assert tokens[..k + 1][..k] == tokens[..k];
      operandStack, operatorStack := FeedToken(operandStack, operatorStack, tokens[k]);
    }
    assert tokens[..|tokens|] == tokens;
    if |operatorStack| > 0 {
      return None;
    }
    if |operandStack| > 1 {
      return None;
    }
    if |operandStack| == 0 {
      return None;
    }
    r := Some(operandStack[0]);
  }

  /** One pass of the loop body over the two stacks. */
  method FeedToken(operands: seq<Expr>, operators: seq<L.Operator>, tok: Token)
    returns (operandStack: seq<Expr>, operatorStack: seq<L.Operator>)
    ensures Stacks(operandStack, operatorStack) == Feed(Stacks(operands, operators), tok)
  {
    operandStack, operatorStack := operands, operators;
    var wasOperand := false;
    match tok {
      case LiteralInteger(i) =>
        operandStack := operandStack + [IntegerValue(i)];
        wasOperand := true;
      case LiteralFloat(f) =>
        operandStack := operandStack + [FloatValue(f)];
        wasOperand := true;
      case Op(o) =>
        operatorStack := operatorStack + [o];
    }
    if wasOperand && |operandStack| > 1 && |operatorStack| > 0 {
      var rhsRoot := operandStack[|operandStack| - 1];
      var lhsRoot := operandStack[|operandStack| - 2];
      var op := operatorStack[|operatorStack| - 1];
      operandStack := operandStack[..|operandStack| - 2];
      operatorStack := operatorStack[..|operatorStack| - 1];
      var binOp := CombineRoots(lhsRoot, op, rhsRoot);
      operandStack := operandStack + [binOp];
    }
  }

  /** The combine step of the loop body, with both rotations as the
      source writes them. */
  method CombineRoots(lhsRoot: Expr, op: L.Operator, rhsRoot: Expr) returns (binOp: Expr)
    ensures binOp == Combine(lhsRoot, op, rhsRoot)
  {
    binOp := BinaryOperation(lhsRoot, op, rhsRoot);
    match lhsRoot {
      case BinaryOperation(lhsDown, opDown, rhsDown) =>
        if Precedence(op) > Precedence(opDown) {
          binOp := BinaryOperation(lhsDown, opDown, BinaryOperation(rhsDown, op, rhsRoot));
        }
      case _ =>
    }
    match rhsRoot {
      case BinaryOperation(lhsDown, opDown, rhsDown) =>
        if Precedence(op) > Precedence(opDown) {
          binOp := BinaryOperation(lhsDown, opDown, BinaryOperation(rhsDown, op, lhsRoot));
        }
      case _ =>
    }
  }

  // ---------------------------------------------------------------------
  // The right-operand rotation is dead code
  // ---------------------------------------------------------------------

  /** A leaf right operand leaves only the left rotation. */
  lemma CombineLeafRight(lhs: Expr, op: L.Operator, rhs: Expr)
    requires !rhs.BinaryOperation?
    ensures Combine(lhs, op, rhs) == CombineLeft(lhs, op, rhs)
  {
  }

  /** At combine time the right operand is the leaf just pushed, so every
      step of the loop is the same with the second rotation removed. */
  lemma FeedUsesLeftRotationOnly(s: Stacks, t: Token)
    requires !t.Op? && |s.operands| > 0 && |s.operators| > 0
    ensures Feed(s, t) ==
            Stacks(s.operands[..|s.operands| - 1] +
                     [CombineLeft(s.operands[|s.operands| - 1], s.operators[|s.operators| - 1], Operand(t))],
                   s.operators[..|s.operators| - 1])
  {
    var operands := s.operands + [Operand(t)];
    var n := |operands|;
    assert operands[n - 1] == Operand(t);
    assert operands[n - 2] == s.operands[|s.operands| - 1];
    assert operands[..n - 2] == s.operands[..|s.operands| - 1];
    CombineLeafRight(operands[n - 2], s.operators[|s.operators| - 1], Operand(t));
  }

  // ---------------------------------------------------------------------
  // Stack balance and the panics
  // ---------------------------------------------------------------------

  function CountOperands(ts: seq<Token>): nat
  {
    if ts == [] then 0
    else CountOperands(ts[..|ts| - 1]) + (if ts[|ts| - 1].Op? then 0 else 1)
  }

  function CountOperators(ts: seq<Token>): nat
  {
    if ts == [] then 0
    else CountOperators(ts[..|ts| - 1]) + (if ts[|ts| - 1].Op? then 1 else 0)
  }

  /** Every operand pushes one operand, every operator one operator, and
      every combine pops one of each. */
  lemma {:induction false} StackBalance(ts: seq<Token>)
    ensures |Fed(ts).operands| - |Fed(ts).operators| == CountOperands(ts) - CountOperators(ts)
  {
    if ts != [] {
      StackBalance(ts[..|ts| - 1]);
    }
  }

  /** A successful parse read exactly one more operand than operators. */
  lemma ParsedBalance(ts: seq<Token>)
    requires Parse(ts).Some?
    ensures CountOperands(ts) == CountOperators(ts) + 1
  {
    StackBalance(ts);
  }

  /** Nothing to parse: the `Empty operand stack` panic. */
  lemma EmptyPanics()
    ensures Parse([]) == None
  {
  }

  /** A trailing operator is never popped: the `Unparsed operators`
      panic. */
  lemma TrailingOperatorPanics(ts: seq<Token>, o: L.Operator)
    ensures Parse(ts + [Op(o)]) == None
  {
    assert (ts + [Op(o)])[..|ts|] == ts;
    assert |Fed(ts + [Op(o)]).operators| > 0;
  }

  // ---------------------------------------------------------------------
  // Infix input and the reference grammar
  // ---------------------------------------------------------------------

  /** An operator and the operand after it. */
  datatype Pair = Pair(op: L.Operator, operand: Token)

  predicate Operands(first: Token, pairs: seq<Pair>)
  {
    !first.Op? && forall k :: 0 <= k < |pairs| ==> !pairs[k].operand.Op?
  }

  /** The infix token list `first op1 x1 op2 x2 …`. */
  function Tokens(first: Token, pairs: seq<Pair>): (ts: seq<Token>)
    ensures |ts| == 2 * |pairs| + 1
  {
    if pairs == [] then [first]
    else
      var p := pairs[|pairs| - 1];
      Tokens(first, pairs[..|pairs| - 1]) + [Op(p.op), p.operand]
  }

  predicate Low(p: Pair)
  {
    Precedence(p.op) == 1
  }

  /** The index of the last pair with a low-precedence operator, or -1. */
  function LastLow(pairs: seq<Pair>): (k: int)
    ensures -1 <= k < |pairs|
    ensures k >= 0 ==> Low(pairs[k])
    ensures forall j :: k < j < |pairs| ==> !Low(pairs[j])
  {
    if pairs == [] then -1
    else if Low(pairs[|pairs| - 1]) then |pairs| - 1
    else LastLow(pairs[..|pairs| - 1])
  }

  /** Term := Term mulop Factor | Factor, read left-associatively. */
  function RefTerm(first: Token, pairs: seq<Pair>): Expr
    requires Operands(first, pairs)
  {
    if pairs == [] then Operand(first)
    else
      var p := pairs[|pairs| - 1];
      BinaryOperation(RefTerm(first, pairs[..|pairs| - 1]), p.op, Operand(p.operand))
  }

  /** Expr := Expr addop Term | Term: the tree of the usual two-level
      grammar, split at the last low-precedence operator. */
  function Ref(first: Token, pairs: seq<Pair>): Expr
    requires Operands(first, pairs)
    decreases |pairs|
  {
    var k := LastLow(pairs);
    if k < 0 then RefTerm(first, pairs)
    else
      BinaryOperation(Ref(first, pairs[..k]), pairs[k].op, RefTerm(pairs[k].operand, pairs[k + 1..]))
  }

  /** A term's root is a leaf or a high-precedence operator. */
  lemma RefTermRoot(first: Token, pairs: seq<Pair>)
    requires Operands(first, pairs) && LastLow(pairs) < 0
    ensures var e := Ref(first, pairs);
            e == RefTerm(first, pairs) && (e.BinaryOperation? ==> Precedence(e.op) == 100)
  {
  }

  /** Appending `op x` to the input changes the reference tree exactly as
      one combine step of `parse` changes the operand on the stack. */
  lemma RefSnoc(first: Token, pairs: seq<Pair>, p: Pair)
    requires Operands(first, pairs + [p])
    ensures Operands(first, pairs) && !p.operand.Op?
    ensures Ref(first, pairs + [p]) == CombineLeft(Ref(first, pairs), p.op, Operand(p.operand))
  {
    var ps := pairs + [p];
    assert ps[|pairs|] == p;
    assert ps[..|pairs|] == pairs;
    assert forall k :: 0 <= k < |pairs| ==> pairs[k] == ps[k];
    if Low(p) {
      assert LastLow(ps) == |pairs|;
    } else if LastLow(pairs) < 0 {
      RefSnocTerm(first, pairs, p);
    } else {
      RefSnocRotate(first, pairs, p);
    }
  }

  /** No low operator before a high one: the term grows by one factor. */
  lemma RefSnocTerm(first: Token, pairs: seq<Pair>, p: Pair)
    requires Operands(first, pairs) && !p.operand.Op? && Operands(first, pairs + [p])
    requires !Low(p) && LastLow(pairs) < 0
    ensures Ref(first, pairs + [p]) == CombineLeft(Ref(first, pairs), p.op, Operand(p.operand))
  {
    var ps := pairs + [p];
    assert ps[..|pairs|] == pairs;
    assert LastLow(ps) < 0;
    RefTermRoot(first, pairs);
    assert RefTerm(first, ps) == BinaryOperation(RefTerm(first, pairs), p.op, Operand(p.operand));
  }

  /** A high operator after the last low one: the tree rotates, and the
      last term grows by one factor. */
  lemma RefSnocRotate(first: Token, pairs: seq<Pair>, p: Pair)
    requires Operands(first, pairs) && !p.operand.Op? && Operands(first, pairs + [p])
    requires !Low(p) && LastLow(pairs) >= 0
    ensures Ref(first, pairs + [p]) == CombineLeft(Ref(first, pairs), p.op, Operand(p.operand))
  {
    var ps := pairs + [p];
    var k := LastLow(pairs);
    assert ps[..|pairs|] == pairs;
    assert LastLow(ps) == k;
    assert ps[..k] == pairs[..k];
    assert ps[k] == pairs[k];
    var tail := pairs[k + 1..];
    assert ps[k + 1..] == tail + [p];
    var x := pairs[k].operand;
    RefTermSnoc(x, tail, p);
  }

  lemma RefTermSnoc(x: Token, tail: seq<Pair>, p: Pair)
    requires Operands(x, tail) && !p.operand.Op? && Operands(x, tail + [p])
    ensures RefTerm(x, tail + [p]) == BinaryOperation(RefTerm(x, tail), p.op, Operand(p.operand))
  {
    assert (tail + [p])[..|tail|] == tail;
  }

  /** Reading infix input leaves the reference tree alone on the operand
      stack and no operator. */
  lemma {:induction false} FedInfix(first: Token, pairs: seq<Pair>)
    requires Operands(first, pairs)
    ensures Fed(Tokens(first, pairs)) == Stacks([Ref(first, pairs)], [])
    decreases |pairs|
  {
    if pairs != [] {
      var init := pairs[..|pairs| - 1];
      var p := pairs[|pairs| - 1];
      assert pairs == init + [p];
      RefSnoc(first, init, p);
      FedInfix(first, init);
      var ts := Tokens(first, init);
      FedPair(ts, p.op, p.operand);
      assert Feed(Fed(ts), Op(p.op)) == Stacks([Ref(first, init)], [p.op]);
      FeedUsesLeftRotationOnly(Stacks([Ref(first, init)], [p.op]), p.operand);
    } else {
      assert Tokens(first, pairs)[..0] == [];
    }
  }

  /** Reading an operator and an operand: two passes of the loop. */
  lemma FedPair(ts: seq<Token>, o: L.Operator, x: Token)
    ensures Fed(ts + [Op(o), x]) == Feed(Feed(Fed(ts), Op(o)), x)
  {
    var all := ts + [Op(o), x];
    assert all[..|all| - 1] == ts + [Op(o)];
    assert (ts + [Op(o)])[..|ts|] == ts;
  }

  /** `parse` reads every infix token list as the usual two-level
      precedence grammar does: `*` and `/` bind tighter, and operators of
      equal precedence associate to the left. */
  lemma ParseInfix(first: Token, pairs: seq<Pair>)
    requires Operands(first, pairs)
    ensures Parse(Tokens(first, pairs)) == Some(Ref(first, pairs))
  {
    FedInfix(first, pairs);
  }

  // ---------------------------------------------------------------------
  // Scenarios
  // ---------------------------------------------------------------------

  /** `1 + 2 * 3` gives `1 + (2 * 3)`. */
  lemma MulBindsRight()
    ensures Parse([LiteralInteger(1), Op(L.Plus), LiteralInteger(2), Op(L.Multiply), LiteralInteger(3)]) ==
            Some(BinaryOperation(IntegerValue(1), L.Plus,
                   BinaryOperation(IntegerValue(2), L.Multiply, IntegerValue(3))))
  {
    var one, two, three := LiteralInteger(1), LiteralInteger(2), LiteralInteger(3);
    var pairs := [Pair(L.Plus, two), Pair(L.Multiply, three)];
    ParseInfix(one, pairs);
    assert pairs[..1][..0] == [] && pairs[..1] == [Pair(L.Plus, two)];
    assert Tokens(one, pairs[..1]) == [one, Op(L.Plus), two];
    assert Tokens(one, pairs) == [one, Op(L.Plus), two, Op(L.Multiply), three];
    assert LastLow(pairs) == 0;
    assert pairs[1..][..0] == [] && pairs[1..] == [Pair(L.Multiply, three)];
    assert RefTerm(two, pairs[1..]) == BinaryOperation(IntegerValue(2), L.Multiply, IntegerValue(3));
  }

  /** `1 * 2 + 3` gives `(1 * 2) + 3`. */
  lemma MulBindsLeft()
    ensures Parse([LiteralInteger(1), Op(L.Multiply), LiteralInteger(2), Op(L.Plus), LiteralInteger(3)]) ==
            Some(BinaryOperation(BinaryOperation(IntegerValue(1), L.Multiply, IntegerValue(2)),
                   L.Plus, IntegerValue(3)))
  {
    var one, two, three := LiteralInteger(1), LiteralInteger(2), LiteralInteger(3);
    var pairs := [Pair(L.Multiply, two), Pair(L.Plus, three)];
    ParseInfix(one, pairs);
    assert pairs[..1][..0] == [] && pairs[..1] == [Pair(L.Multiply, two)];
    assert Tokens(one, pairs[..1]) == [one, Op(L.Multiply), two];
    assert Tokens(one, pairs) == [one, Op(L.Multiply), two, Op(L.Plus), three];
    assert LastLow(pairs[..1][..0]) == -1;
    assert LastLow(pairs) == 1 && LastLow(pairs[..1]) == -1;
    assert pairs[2..] == [];
    assert RefTerm(one, pairs[..1]) == BinaryOperation(IntegerValue(1), L.Multiply, IntegerValue(2));
    assert Ref(one, pairs[..1]) == BinaryOperation(IntegerValue(1), L.Multiply, IntegerValue(2));
  }

  /** `1 + 2 + 3` gives `(1 + 2) + 3`. */
  lemma PlusAssociatesLeft()
    ensures Parse([LiteralInteger(1), Op(L.Plus), LiteralInteger(2), Op(L.Plus), LiteralInteger(3)]) ==
            Some(BinaryOperation(BinaryOperation(IntegerValue(1), L.Plus, IntegerValue(2)),
                   L.Plus, IntegerValue(3)))
  {
    var one, two, three := LiteralInteger(1), LiteralInteger(2), LiteralInteger(3);
    var pairs := [Pair(L.Plus, two), Pair(L.Plus, three)];
    ParseInfix(one, pairs);
    assert pairs[..1][..0] == [] && pairs[..1] == [Pair(L.Plus, two)];
    assert Tokens(one, pairs[..1]) == [one, Op(L.Plus), two];
    assert Tokens(one, pairs) == [one, Op(L.Plus), two, Op(L.Plus), three];
    assert LastLow(pairs) == 1 && LastLow(pairs[..1]) == 0;
    assert pairs[2..] == [] && pairs[1..] == [Pair(L.Plus, three)];
    assert Ref(one, pairs[..1]) == BinaryOperation(IntegerValue(1), L.Plus, IntegerValue(2));
  }

  /** The loop never checks that operands and operators alternate:
      the prefix form `+ 1 2` parses as `1 + 2`. */
  lemma PrefixAccepted()
    ensures Parse([Op(L.Plus), LiteralInteger(1), LiteralInteger(2)]) ==
            Some(BinaryOperation(IntegerValue(1), L.Plus, IntegerValue(2)))
  {
    var ts := [Op(L.Plus), LiteralInteger(1), LiteralInteger(2)];
    assert ts[..2][..1] == [Op(L.Plus)];
    assert ts[..2][..1][..0] == [];
    assert Fed(ts[..1]) == Stacks([], [L.Plus]);
    assert Fed(ts[..2]) == Stacks([IntegerValue(1)], [L.Plus]);
  }
}
