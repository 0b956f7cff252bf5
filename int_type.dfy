/*
 * The builtin `int` type (src/builtin_types/int_type.rs): its comparison,
 * arithmetic and unary methods, its conversions, and its registration.
 *
 * Each native method is a function of the heap and of its call: the
 * arguments arrive with the receiver first, as `as_method` splits them.
 * Comparisons return one of the two shared boolean objects; arithmetic
 * allocates its result. Arithmetic on `i128` panics on overflow and on a
 * zero divisor, and `%` truncates toward zero, so the remainder takes the
 * sign of the receiver.
 */
module IntType {

  import opened Wrappers
  import opened RuntimeDataModel
  import opened Decimal
  import opened UnsafeMemory
  import opened Frames
  import opened ObjectSpace
  import opened Handlers
  import opened PyRuntime
  import opened Natives
  import Vm

  /** The native functions the type binds, one per Rust function the
      macros of int_type.rs generate. `Comparison(op)` is the comparison
      macro instantiated with the comparison `op`. */
  datatype IntMethod =
    | Comparison(op: CompareOp)
    | Arithmetic(arith: ArithOp)
    | TrueDivision
    | Negation
    | Positive
    | ToBoolean
    | ToInt
    | ToFloat
    | ToStr
    | Repr

  function CompareIndex(op: CompareOp): nat
  {
    match op
    case GtOp => 0
    case GeOp => 1
    case LtOp => 2
    case LeOp => 3
    case EqOp => 4
    case NeOp => 5
  }

  function ArithIndex(op: ArithOp): nat
  {
    match op
    case AddOp => 0
    case ModOp => 1
    case SubOp => 2
    case MulOp => 3
  }

  /** The code under which each native function is stored in its
      callable object. */
  function Code(f: IntMethod): NativeCode
  {
    match f
    case Comparison(op) => 100 + CompareIndex(op)
    case Arithmetic(op) => 106 + ArithIndex(op)
    case TrueDivision => 110
    case Negation => 111
    case Positive => 112
    case ToBoolean => 113
    case ToInt => 114
    case ToFloat => 115
    case ToStr => 116
    case Repr => 117
  }

  /** The native function a code stands for, if it is one of this type's. */
  function Decode(code: NativeCode): Option<IntMethod>
  {
    if 100 <= code < 106 then
      Some(Comparison([GtOp, GeOp, LtOp, LeOp, EqOp, NeOp][code - 100]))
    else if 106 <= code < 110 then
      Some(Arithmetic([AddOp, ModOp, SubOp, MulOp][code - 106]))
    else if code == 110 then Some(TrueDivision)
    else if code == 111 then Some(Negation)
    else if code == 112 then Some(Positive)
    else if code == 113 then Some(ToBoolean)
    else if code == 114 then Some(ToInt)
    else if code == 115 then Some(ToFloat)
    else if code == 116 then Some(ToStr)
    else if code == 117 then Some(Repr)
    else None
  }

  /** Every native function is told apart by its code. */
  lemma DecodeCode(f: IntMethod)
    ensures Decode(Code(f)) == Some(f)
  {
    match f
    case Comparison(op) =>
      match op {
        case GtOp =>
        case GeOp =>
        case LtOp =>
        case LeOp =>
        case EqOp =>
        case NeOp =>
      }
    case Arithmetic(op) =>
      match op {
        case AddOp =>
        case ModOp =>
        case SubOp =>
        case MulOp =>
      }
    case _ =>
  }

  // ---------------------------------------------------------------------
  // The native methods
  // ---------------------------------------------------------------------

  /** `create_compare_function!`: two arguments counting the receiver; an
      int or bool other is compared as an integer, a float other as a
      float, and anything else is unequal to everything (`False`). */
  function CompareIn(m: MemState, env: NativeEnv, c: Vm.CallParams, op: CompareOp): (r: Result<Outcome, Panic>)
    ensures |c.params| != 2 ==> r == Err(ArgumentCount(2, |c.params|))
    ensures r.Ok? ==> r.value.mem == m &&
                      (r.value.returned == env.types.trueVal || r.value.returned == env.types.falseVal)
  {
    var _ :- CheckParams(2, |c.params|);
    var call := Vm.AsMethod(c).value;
    var other := c.params[1];
    var otherType :- TypeAddrIn(m, other);
    var a :- IntOf(m, call.boundPyobj);
    if otherType == env.types.booleanType || otherType == env.types.intType then
      var b :- IntOf(m, other);
      Ok(Existing(m, TruthValue(env, IntCompare(op, a, b))))
    else if otherType == env.types.floatType then
      var d :- RawDataIn(m, other);
      var _ :- TakeFloat(d);
      Ok(Existing(m, TruthValue(env, env.floats.compare(op, Int(a), d))))
    else
      Ok(Existing(m, env.types.falseVal))
  }

  /** `create_binop_function!`: an int other gives a new int, a float
      other a new float, anything else `NotImplemented`. A bool other is
      not an int here: its type is `bool`. */
  function BinopIn(m: MemState, env: NativeEnv, c: Vm.CallParams, op: ArithOp): (r: Result<Outcome, Panic>)
    ensures |c.params| != 2 ==> r == Err(ArgumentCount(2, |c.params|))
  {
    var _ :- CheckParams(2, |c.params|);
    var call := Vm.AsMethod(c).value;
    var other := c.params[1];
    var otherData :- RawDataIn(m, other);
    var otherType :- TypeAddrIn(m, other);
    var a :- IntOf(m, call.boundPyobj);
    if otherType == env.types.intType then
      var b :- TakeInt(otherData);
      var v :- IntArith(op, a, b);
      AllocateRawIn(m, env.types.intType, Int(v))
    else if otherType == env.types.floatType then
      var _ :- TakeFloat(otherData);
      AllocateRawIn(m, env.types.floatType, BuiltInTypeData.Float(env.floats.arith(op, Int(a), otherData)))
    else
      var notImplemented :- NotImplementedIn(env);
      Ok(Existing(m, notImplemented))
  }

  /** `truediv`: dispatched on the other operand's type name; the quotient
      is always a float. */
  function TrueDivIn(m: MemState, env: NativeEnv, c: Vm.CallParams): (r: Result<Outcome, Panic>)
    ensures |c.params| != 2 ==> r == Err(ArgumentCount(2, |c.params|))
  {
    var _ :- CheckParams(2, |c.params|);
    var call := Vm.AsMethod(c).value;
    var other := c.params[1];
    var otherName :- PyobjTypeNameIn(m, other);
    var a :- IntOf(m, call.boundPyobj);
    if otherName == "int" then
      var b :- IntOf(m, other);
      AllocateRawIn(m, env.types.floatType, BuiltInTypeData.Float(env.floats.divide(Int(a), Int(b))))
    else if otherName == "float" then
      var d :- RawDataIn(m, other);
      var _ :- TakeFloat(d);
      AllocateRawIn(m, env.types.floatType, BuiltInTypeData.Float(env.floats.divide(Int(a), d)))
    else
      var notImplemented :- NotImplementedIn(env);
      Ok(Existing(m, notImplemented))
  }

  /** `negation` (`a * -1`, which overflows for the least `i128`). */
  function NegationIn(m: MemState, env: NativeEnv, c: Vm.CallParams): (r: Result<Outcome, Panic>)
  {
    var a :- ReceiverInt(m, c, 0);
    var v :- IntArith(MulOp, a, -1);
    AllocateRawIn(m, env.types.intType, Int(v))
  }

  /** `positive`: a new int with the same value. */
  function PositiveIn(m: MemState, env: NativeEnv, c: Vm.CallParams): (r: Result<Outcome, Panic>)
  {
    var a :- ReceiverInt(m, c, 0);
    AllocateRawIn(m, env.types.intType, Int(a))
  }

  /** `int`: the receiver itself, whatever it holds. */
  function ToIntIn(m: MemState, c: Vm.CallParams): (r: Result<Outcome, Panic>)
    ensures r.Ok? <==> |c.params| == 1
    ensures r.Ok? ==> r.value == Outcome(m, c.params[0])
  {
    var call :- Vm.AsMethod(c);
    var _ :- CheckParams(0, |call.params|);
    Ok(Existing(m, call.boundPyobj))
  }

  /** `float`: a new float of the same value. */
  function ToFloatIn(m: MemState, env: NativeEnv, c: Vm.CallParams): (r: Result<Outcome, Panic>)
  {
    var a :- ReceiverInt(m, c, 0);
    AllocateRawIn(m, env.types.floatType, BuiltInTypeData.Float(env.intToFloat(a)))
  }

  /** `to_str`: a new str holding the decimal text. */
  function ToStrIn(m: MemState, env: NativeEnv, c: Vm.CallParams): (r: Result<Outcome, Panic>)
  {
    var a :- ReceiverInt(m, c, 0);
    AllocateRawIn(m, env.types.stringType, String(IntText(a)))
  }

  /** `repr`: the same text as `to_str`, but it expects one argument
      besides the receiver. */
  function ReprIn(m: MemState, env: NativeEnv, c: Vm.CallParams): (r: Result<Outcome, Panic>)
  {
    var a :- ReceiverInt(m, c, 1);
    AllocateRawIn(m, env.types.stringType, String(IntText(a)))
  }

  /** `to_boolean`: `True` only for exactly 1, and it also expects one
      argument besides the receiver. */
  function ToBooleanIn(m: MemState, env: NativeEnv, c: Vm.CallParams): (r: Result<Outcome, Panic>)
  {
    var a :- ReceiverInt(m, c, 1);
    Ok(Existing(m, TruthValue(env, a == 1)))
  }

  /** What calling the native function does. */
  function Invoke(f: IntMethod, m: MemState, env: NativeEnv, c: Vm.CallParams): Result<Outcome, Panic>
  {
    match f
    case Comparison(op) => CompareIn(m, env, c, op)
    case Arithmetic(op) => BinopIn(m, env, c, op)
    case TrueDivision => TrueDivIn(m, env, c)
    case Negation => NegationIn(m, env, c)
    case Positive => PositiveIn(m, env, c)
    case ToBoolean => ToBooleanIn(m, env, c)
    case ToInt => ToIntIn(m, c)
    case ToFloat => ToFloatIn(m, env, c)
    case ToStr => ToStrIn(m, env, c)
    case Repr => ReprIn(m, env, c)
  }

  // ---------------------------------------------------------------------
  // What the methods compute
  // ---------------------------------------------------------------------

  /** A call with receiver `self` and the single argument `other`. */
  function Call2(callee: Addr, self: Addr, other: Addr): Vm.CallParams
  {
    Vm.CallParams(callee, None, [self, other])
  }

  /** Against an int or bool, a comparison returns the shared boolean
      for the integer comparison and allocates nothing; against a type
      that is neither a number nor a bool it returns `False`. */
  lemma CompareSpec(m: MemState, env: NativeEnv, callee: Addr, self: Addr, other: Addr, op: CompareOp, a: int)
    requires IntOf(m, self) == Ok(a) && Readable(m, other)
    ensures var t := m.heap[other].typeAddr;
            var r := CompareIn(m, env, Call2(callee, self, other), op);
            ((t == env.types.booleanType || t == env.types.intType) && IntOf(m, other).Ok? ==>
               r == Ok(Outcome(m, TruthValue(env, IntCompare(op, a, IntOf(m, other).value))))) &&
            (t != env.types.booleanType && t != env.types.intType && t != env.types.floatType ==>
               r == Ok(Outcome(m, env.types.falseVal)))
  {
  }

  /** Against an int, an arithmetic method allocates a fresh int holding
      `self op other` on `i128`, the receiver on the left; it panics when
      that overflows or divides by zero. Against anything but an int or a
      float it returns `NotImplemented` and allocates nothing. */
  lemma BinopSpec(m: MemState, env: NativeEnv, callee: Addr, self: Addr, other: Addr, op: ArithOp, a: int)
    requires WellFormed(m) && IntOf(m, self) == Ok(a) && Readable(m, other) && m.heap[other].structure.Object?
    ensures var t := m.heap[other].typeAddr;
            var r := BinopIn(m, env, Call2(callee, self, other), op);
            (t == env.types.intType && IntOf(m, other).Ok? ==>
               var v := IntArith(op, a, IntOf(m, other).value);
               (v.Err? ==> r == Err(v.error)) &&
               (v.Ok? ==> r.Ok? && FreshObject(m, r.value, env.types.intType, Int(v.value)))) &&
            (t != env.types.intType && t != env.types.floatType ==>
               (NotImplementedValue in env.special ==> r == Ok(Outcome(m, env.special[NotImplementedValue]))) &&
               (NotImplementedValue !in env.special ==> r == Err(MissingSpecialValue)))
  {
    var t := m.heap[other].typeAddr;
    if t == env.types.intType && IntOf(m, other).Ok? {
      var v := IntArith(op, a, IntOf(m, other).value);
      if v.Ok? {
        AllocateRawSpec(m, env.types.intType, Int(v.value));
      }
    }
  }

  /** Negation allocates the negated value and panics only for the least
      `i128`, whose negation does not fit; `__pos__` allocates a copy. */
  lemma UnarySpec(m: MemState, env: NativeEnv, callee: Addr, self: Addr, a: int)
    requires WellFormed(m) && IntOf(m, self) == Ok(a) && InI128(a)
    ensures var r := NegationIn(m, env, Vm.CallParams(callee, None, [self]));
            (a == I128Min ==> r == Err(Overflow)) &&
            (a != I128Min ==> r.Ok? && FreshObject(m, r.value, env.types.intType, Int(-a)))
    ensures var r := PositiveIn(m, env, Vm.CallParams(callee, None, [self]));
            r.Ok? && FreshObject(m, r.value, env.types.intType, Int(a))
  {
    if a != I128Min {
      AllocateRawSpec(m, env.types.intType, Int(-a));
    }
    AllocateRawSpec(m, env.types.intType, Int(a));
  }

  /** `__str__` allocates the decimal text of the value, which `__int__`
      of str parses back to the same value; `__repr__` gives the same text
      but only when given one argument besides the receiver. */
  lemma TextSpec(m: MemState, env: NativeEnv, callee: Addr, self: Addr, extra: Addr, a: int)
    requires WellFormed(m) && IntOf(m, self) == Ok(a) && InI128(a)
    ensures var r := ToStrIn(m, env, Vm.CallParams(callee, None, [self]));
            r.Ok? && FreshObject(m, r.value, env.types.stringType, String(IntText(a))) &&
            ParseI128(IntText(a)) == Some(a)
    ensures ReprIn(m, env, Vm.CallParams(callee, None, [self])) == Err(ArgumentCount(1, 0))
    ensures var r := ReprIn(m, env, Vm.CallParams(callee, None, [self, extra]));
            r.Ok? && FreshObject(m, r.value, env.types.stringType, String(IntText(a)))
  {
    AllocateRawSpec(m, env.types.stringType, String(IntText(a)));
    ParseIntText(a);
  }

  /** `__bool__` is `True` exactly for the value 1 (so 2 is false), and
      like `__repr__` it demands one argument besides the receiver. */
  lemma ToBooleanSpec(m: MemState, env: NativeEnv, callee: Addr, self: Addr, extra: Addr, a: int)
    requires IntOf(m, self) == Ok(a)
    ensures ToBooleanIn(m, env, Vm.CallParams(callee, None, [self, extra])) ==
            Ok(Outcome(m, if a == 1 then env.types.trueVal else env.types.falseVal))
    ensures ToBooleanIn(m, env, Vm.CallParams(callee, None, [self])) == Err(ArgumentCount(1, 0))
  {
  }

  // ---------------------------------------------------------------------
  // Registration
  // ---------------------------------------------------------------------

  /** The methods `register_int_type` binds, in its order, with the
      native function bound under `__ge__` left as a parameter. */
  function Table(greaterEquals: CompareOp): MethodTable
  {
    [("__eq__", Code(Comparison(EqOp))),
     ("__gt__", Code(Comparison(GtOp))),
     ("__ge__", Code(Comparison(greaterEquals))),
     ("__lt__", Code(Comparison(LtOp))),
     ("__le__", Code(Comparison(LeOp))),
     ("__ne__", Code(Comparison(NeOp))),
     ("__add__", Code(Arithmetic(AddOp))),
     ("__mod__", Code(Arithmetic(ModOp))),
     ("__sub__", Code(Arithmetic(SubOp))),
     ("__mul__", Code(Arithmetic(MulOp))),
     ("__truediv__", Code(TrueDivision)),
     ("__neg__", Code(Negation)),
     ("__pos__", Code(Positive)),
     ("__bool__", Code(ToBoolean)),
     ("__int__", Code(ToInt)),
     ("__float__", Code(ToFloat)),
     ("__str__", Code(ToStr)),
     ("__repr__", Code(Repr))]
  }

  /** As written, `greater_equals` is the comparison macro instantiated
      with `a <= b`, the same comparison as `less_equals`. */
  const AsWrittenMethods: MethodTable := Table(LeOp)

  /** The table as intended: `__ge__` compares with `>=`. */
  const IntMethods: MethodTable := Table(GeOp)

  lemma TableNamesDistinct(greaterEquals: CompareOp)
    ensures DistinctNames(Table(greaterEquals))
  {
  }

  /** The position of each comparison in the table. */
  function ComparePosition(op: CompareOp): nat
  {
    match op
    case EqOp => 0
    case GtOp => 1
    case GeOp => 2
    case LtOp => 3
    case LeOp => 4
    case NeOp => 5
  }

  /** As written, `__ge__` is bound to the native function of `__le__`,
      which on the ints 1 and 2 answers `True`, though 1 >= 2 is false. */
  lemma GreaterEqualsAsWritten(m: MemState, env: NativeEnv, callee: Addr, self: Addr, other: Addr)
    requires IntOf(m, self) == Ok(1) && IntOf(m, other) == Ok(2) && m.heap[other].typeAddr == env.types.intType
    ensures AsWrittenMethods[2] == ("__ge__", Code(Comparison(LeOp)))
    ensures AsWrittenMethods[4] == ("__le__", Code(Comparison(LeOp)))
    ensures CompareIn(m, env, Call2(callee, self, other), LeOp) == Ok(Outcome(m, env.types.trueVal))
    ensures !IntCompare(GeOp, 1, 2)
  {
    CompareSpec(m, env, callee, self, other, LeOp, 1);
  }

  /** In the intended table every comparison dunder is bound to the
      native function of its own comparison. */
  lemma IntMethodsBindTheirComparisons(op: CompareOp)
    ensures ComparePosition(op) < |IntMethods|
    ensures IntMethods[ComparePosition(op)] == (CompareDunder(op), Code(Comparison(op)))
    ensures Decode(Code(Comparison(op))) == Some(Comparison(op))
  {
    DecodeCode(Comparison(op));
  }

  /** `register_int_type`, with the intended table: the type `int` is
      created in the builtin module with no supertype and binds every
      method of the table, and `builtin_type_addrs.int` is set to it.
      On a runtime with the type and callable types and no `int` yet, it
      does not panic. */
  method RegisterIntType(rt: Runtime) returns (r: Result<Addr, Panic>)
    requires rt.Valid()
    modifies rt, rt.memory
    ensures rt.Valid()
    ensures rt.frames == old(rt.frames) && rt.specialValues == old(rt.specialValues) &&
            rt.modules == old(rt.modules) && rt.builtinNames == old(rt.builtinNames)
    ensures rt.builtinTypeAddrs == if r.Ok? then old(rt.builtinTypeAddrs).(intType := r.value) else old(rt.builtinTypeAddrs)
    ensures (TypeValue in rt.specialValues && CallableType in rt.specialValues &&
             old(FindInModuleIn(rt.memory.State(), rt.modules, BUILTIN_MODULE, "int")) == Ok(None)) ==> r.Ok?
    ensures r.Ok? ==> TypeValue in rt.specialValues && CallableType in rt.specialValues &&
                      InstalledType(rt.memory.State(), rt.modules, rt.specialValues[TypeValue], "int", r.value, None) &&
                      Binds(rt.memory.State(), rt.specialValues[CallableType], r.value, IntMethods)
    ensures r.Ok? ==> !old(Readable(rt.memory.State(), r.value)) && BUILTIN_MODULE in rt.modules &&
                      forall b :: b != r.value && b != rt.modules[BUILTIN_MODULE] && old(Readable(rt.memory.State(), b)) ==>
                        GetIn(rt.memory.State(), b) == old(GetIn(rt.memory.State(), b))
  {
    TableNamesDistinct(GeOp);
    r := CreateBuiltinType(rt, "int", None, IntMethods);
    if r.Ok? {
      rt.builtinTypeAddrs := rt.builtinTypeAddrs.(intType := r.value);
    }
  }
}
