// The tree evaluator of src/interpreter.rs: integers and floats, with the
// integer operand of a mixed pair coerced to float and `/` always done on
// floats. Results travel as `Box<dyn Any>`, read back by `from_dyn`.
// Floating point is kept symbolic: a float is the term that computes it.

module TreeInterpreter {
  import opened Wrappers
  import opened Decimal
  import opened Int128
  import L = Lexer
  import P = Parser

  datatype InterpreterError =
    | NumberConversionError
    | OperationOnUncoercedTypes
    /** `unimplemented!()`: an operator or expression with no case. */
    | Unimplemented
    /** The `i128` arithmetic panics: overflow or a zero divisor. */
    | ArithmeticPanic

  /** An `f64`, as the term that computes it. */
  datatype FloatTerm =
    | FloatLit(text: string)
    | IntAsFloat(i: int)
    | FloatOp(lhs: FloatTerm, op: L.Operator, rhs: FloatTerm)

  /** What a `Box<dyn Any>` holds: an `i128`, an `f64`, or anything else. */
  datatype Dyn = DynInt(i: int) | DynFloat(f: FloatTerm) | DynOther

  datatype Number = Integer(i: int) | Float(f: FloatTerm)

  /** `Number::from_dyn`: the number in the box, or the conversion error
      for a box holding neither `i128` nor `f64`. */
  function FromDyn(d: Dyn): Result<Number, InterpreterError>
  {
    match d
    case DynInt(i) => Ok(Integer(i))
    case DynFloat(f) => Ok(Float(f))
    case DynOther => Err(NumberConversionError)
  }

  /** Boxing a number, the inverse of FromDyn. */
  function ToDyn(n: Number): Dyn
  {
    match n
    case Integer(i) => DynInt(i)
    case Float(f) => DynFloat(f)
  }

  lemma FromDynToDyn(n: Number)
    ensures FromDyn(ToDyn(n)) == Ok(n)
  {
  }

  /** `from_dyn` fails exactly on a box that is neither kind of number. */
  lemma FromDynFails(d: Dyn)
    ensures FromDyn(d).Err? <==> d == DynOther
    ensures FromDyn(d).Ok? ==> ToDyn(FromDyn(d).value) == d
  {
  }

  /** `Number::coerce_types`. */
  function CoerceTypes(n1: Number, n2: Number): (Number, Number)
  {
    match (n1, n2)
    case (Integer(i), Float(f)) => (Float(IntAsFloat(i)), Float(f))
    case (Float(f), Integer(i)) => (Float(f), Float(IntAsFloat(i)))
    case _ => (n1, n2)
  }

  /** After coercion both sides are of one kind: both float when exactly
      one side was, both as they were otherwise. */
  lemma CoerceTypesSpec(n1: Number, n2: Number)
    ensures var (c1, c2) := CoerceTypes(n1, n2);
            c1.Float? == c2.Float? &&
            (n1.Float? == n2.Float? ==> c1 == n1 && c2 == n2) &&
            (n1.Float? != n2.Float? ==> c1.Float? && c2.Float?)
  {
  }

  /** `Number::float_op`. */
  function FloatOpOf(lhs: FloatTerm, rhs: FloatTerm, op: L.Operator): Result<FloatTerm, InterpreterError>
  {
    match op
    case Plus => Ok(FloatOp(lhs, op, rhs))
    case Multiply => Ok(FloatOp(lhs, op, rhs))
    case Divide => Ok(FloatOp(lhs, op, rhs))
    case Minus => Ok(FloatOp(lhs, op, rhs))
    case _ => Err(Unimplemented)
  }

  /** `Number::integer_op` on `i128`. */
  function IntegerOp(lhs: int, rhs: int, op: L.Operator): (r: Result<int, InterpreterError>)
  {
    match op
    case Plus => FromChecked(CheckedAdd(lhs, rhs))
    case Multiply => FromChecked(CheckedMul(lhs, rhs))
    case Divide => FromChecked(CheckedDiv(lhs, rhs))
    case Minus => FromChecked(CheckedSub(lhs, rhs))
    case _ => Err(Unimplemented)
  }

  function FromChecked(r: Option<int>): Result<int, InterpreterError>
  {
    if r.Some? then Ok(r.value) else Err(ArithmeticPanic)
  }

  /** On `+`, `-`, `*` the integer operation is the arithmetic one while
      it stays within `i128`. */
  lemma IntegerOpArith(lhs: int, rhs: int, op: L.Operator)
    requires op == L.Plus || op == L.Minus || op == L.Multiply
    ensures var v := Arith(lhs, op, rhs);
            IntegerOp(lhs, rhs, op) == if InI128(v) then Ok(v) else Err(ArithmeticPanic)
  {
  }

  /** `Number::run_operation`: `/` on two integers goes to the float
      operation too; a mixed pair is the uncoerced-types error. */
  function RunOperation(n1: Number, n2: Number, op: L.Operator): Result<Dyn, InterpreterError>
  {
    if op == L.Divide then
      match (n1, n2)
      case (Float(f1), Float(f2)) => FloatResult(FloatOpOf(f1, f2, op))
      case (Integer(i1), Integer(i2)) => FloatResult(FloatOpOf(IntAsFloat(i1), IntAsFloat(i2), op))
      case _ => Err(OperationOnUncoercedTypes)
    else
      match (n1, n2)
      case (Float(f1), Float(f2)) => FloatResult(FloatOpOf(f1, f2, op))
      case (Integer(i1), Integer(i2)) => IntResult(IntegerOp(i1, i2, op))
      case _ => Err(OperationOnUncoercedTypes)
  }

  function FloatResult(r: Result<FloatTerm, InterpreterError>): Result<Dyn, InterpreterError>
  {
    match r
    case Ok(f) => Ok(DynFloat(f))
    case Err(e) => Err(e)
  }

  function IntResult(r: Result<int, InterpreterError>): Result<Dyn, InterpreterError>
  {
    match r
    case Ok(i) => Ok(DynInt(i))
    case Err(e) => Err(e)
  }

  /** Division of two integers is a float division of their conversions. */
  lemma DivideIsFloat(i1: int, i2: int)
    ensures RunOperation(Integer(i1), Integer(i2), L.Divide) ==
            Ok(DynFloat(FloatOp(IntAsFloat(i1), L.Divide, IntAsFloat(i2))))
  {
  }

  /** Once coerced, the operands never meet the uncoerced-types error. */
  lemma CoercedOperands(n1: Number, n2: Number, op: L.Operator)
    ensures var (c1, c2) := CoerceTypes(n1, n2);
            RunOperation(c1, c2, op) != Err(OperationOnUncoercedTypes)
  {
  }

  /** `eval`. */
  function Eval(e: P.Expr): Result<Dyn, InterpreterError>
    decreases e, 0
  {
    match e
    case IntegerValue(i) => Ok(DynInt(i))
    case FloatValue(f) => Ok(DynFloat(FloatLit(f)))
    case BinaryOperation(lhs, op, rhs) => EvalBinary(Eval(lhs), op, rhs)
    case Parenthesized(_) => Err(Unimplemented)
  }

  /** The binary case of `eval` once the left operand is evaluated: the
      left `from_dyn(..).unwrap()`, then the right operand, then
      coercion and the operation. */
  function EvalBinary(l: Result<Dyn, InterpreterError>, op: L.Operator, rhs: P.Expr): Result<Dyn, InterpreterError>
    decreases rhs, 1
  {
    if l.Err? then Err(l.error)
    else if FromDyn(l.value).Err? then Err(FromDyn(l.value).error)
    else
      var ln := FromDyn(l.value).value;
      var r := Eval(rhs);
      if r.Err? then Err(r.error)
      else if FromDyn(r.value).Err? then Err(FromDyn(r.value).error)
      else
        var (c1, c2) := CoerceTypes(ln, FromDyn(r.value).value);
        RunOperation(c1, c2, op)
  }

  // ---------------------------------------------------------------------
  // Integer arithmetic evaluates as arithmetic
  // ---------------------------------------------------------------------

  function Arith(a: int, op: L.Operator, b: int): int
    requires op == L.Plus || op == L.Minus || op == L.Multiply
  {
    match op
    case Plus => a + b
    case Minus => a - b
    case Multiply => a * b
  }

  /** A tree of `i128` literals under `+`, `-` and `*`. */
  predicate IntArith(e: P.Expr)
  {
    match e
    case IntegerValue(i) => InI128(i)
    case BinaryOperation(lhs, op, rhs) =>
      (op == L.Plus || op == L.Minus || op == L.Multiply) && IntArith(lhs) && IntArith(rhs)
    case _ => false
  }

  /** Its mathematical value. */
  function Value(e: P.Expr): int
    requires IntArith(e)
  {
    match e
    case IntegerValue(i) => i
    case BinaryOperation(lhs, op, rhs) => Arith(Value(lhs), op, Value(rhs))
  }

  /** Every subtree's value is an `i128`. */
  predicate NoOverflow(e: P.Expr)
    requires IntArith(e)
  {
    InI128(Value(e)) &&
    match e
    case IntegerValue(_) => true
    case BinaryOperation(lhs, _, rhs) => NoOverflow(lhs) && NoOverflow(rhs)
  }

  /** `eval` computes the value of an integer tree, and panics exactly
      when some subtree leaves `i128`. */
  lemma {:induction false} EvalIntArith(e: P.Expr)
    requires IntArith(e)
    ensures NoOverflow(e) ==> Eval(e) == Ok(DynInt(Value(e)))
    ensures !NoOverflow(e) ==> Eval(e) == Err(ArithmeticPanic)
  {
    match e
    case IntegerValue(_) =>
    case BinaryOperation(lhs, op, rhs) =>
      EvalIntArith(lhs);
      EvalIntArith(rhs);
      if NoOverflow(lhs) && NoOverflow(rhs) {
        IntegerOpArith(Value(lhs), Value(rhs), op);
      }
  }

  /** `1 + 2 * 3`, parsed and evaluated, is 7. */
  lemma OnePlusTwoTimesThree(tokens: seq<P.Token>)
    requires tokens == [P.LiteralInteger(1), P.Op(L.Plus), P.LiteralInteger(2),
                        P.Op(L.Multiply), P.LiteralInteger(3)]
    ensures P.Parse(tokens).Some? && Eval(P.Parse(tokens).value) == Ok(DynInt(7))
  {
    P.MulBindsRight();
    var product := P.BinaryOperation(P.IntegerValue(2), L.Multiply, P.IntegerValue(3));
    var e := P.BinaryOperation(P.IntegerValue(1), L.Plus, product);
    assert P.Parse(tokens) == Some(e);
    assert IntArith(product) && Value(product) == 6 && NoOverflow(product);
    assert IntArith(e) && Value(e) == 7 && NoOverflow(e);
    EvalIntArith(e);
  }

  /** Parenthesized expressions have no case in `eval`. */
  lemma ParenthesizedUnimplemented(inner: P.Expr)
    ensures Eval(P.Parenthesized(inner)) == Err(Unimplemented)
  {
  }
}
