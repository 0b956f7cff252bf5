/*
 * The builtin `bool` type (src/builtin_types/boolean_type.rs), a subtype
 * of `int` whose only values are the two shared objects holding the
 * integers 1 (`True`) and 0 (`False`).
 *
 * `and`, `or` and `xor` against another bool follow the truth table on
 * "the payload is not 0". Against any other object they ask it for
 * `__bool__` (else `__len__`), call the receiver's own operator again
 * with that answer, and return one of the two operands according to
 * whether the second answer holds 1. Those calls back into the runtime
 * are the `callMethod` of the environment.
 */
module BooleanType {

  import opened Wrappers
  import opened RuntimeDataModel
  import opened UnsafeMemory
  import opened Frames
  import opened ObjectSpace
  import opened Handlers
  import opened PyRuntime
  import opened Natives
  import Vm

  datatype LogicOp = And | Or | Xor

  /** The native functions the type binds. */
  datatype BoolMethod =
    | Logic(op: LogicOp)
    | Not
    | Negation
    | ToBoolean
    | ToStr
    | Repr
    | ToInt
    | ToFloat

  function Code(f: BoolMethod): NativeCode
  {
    match f
    case Logic(And) => 200
    case Logic(Or) => 201
    case Logic(Xor) => 202
    case Not => 203
    case Negation => 204
    case ToBoolean => 205
    case ToStr => 206
    case Repr => 207
    case ToInt => 208
    case ToFloat => 209
  }

  function Decode(code: NativeCode): Option<BoolMethod>
  {
    if code == 200 then Some(Logic(And))
    else if code == 201 then Some(Logic(Or))
    else if code == 202 then Some(Logic(Xor))
    else if code == 203 then Some(Not)
    else if code == 204 then Some(Negation)
    else if code == 205 then Some(ToBoolean)
    else if code == 206 then Some(ToStr)
    else if code == 207 then Some(Repr)
    else if code == 208 then Some(ToInt)
    else if code == 209 then Some(ToFloat)
    else None
  }

  /** Every native function is told apart by its code. */
  lemma DecodeCode(f: BoolMethod)
    ensures Decode(Code(f)) == Some(f)
  {
  }

  /** `AND_STR`, `OR_STR`, `XOR_STR`. */
  function Dunder(op: LogicOp): string
  {
    match op
    case And => "__and__"
    case Or => "__or__"
    case Xor => "__xor__"
  }

  /** The truth table of the operator. */
  function Table(op: LogicOp, a: bool, b: bool): bool
  {
    match op
    case And => a && b
    case Or => a || b
    case Xor => a != b
  }

  // ---------------------------------------------------------------------
  // The native methods
  // ---------------------------------------------------------------------

  /** `and_method`, `or_method`, `xor_method`: one argument besides the
      receiver. */
  function LogicIn(m: MemState, env: NativeEnv, c: Vm.CallParams, op: LogicOp): (r: Result<Outcome, Panic>)
  {
    var a :- ReceiverInt(m, c, 1);
    var self := c.params[0];
    var other := c.params[1];
    var otherType :- TypeAddrIn(m, other);
    if otherType == env.types.booleanType then
      var b :- IntOf(m, other);
      Ok(Existing(m, TruthValue(env, Table(op, a != 0, b != 0))))
    else
      var viaBool :- env.callMethod(m, other, "__bool__", []);
      if viaBool.Some? then Recompute(env, op, self, other, viaBool.value)
      else
        var viaLen :- env.callMethod(m, other, "__len__", []);
        if viaLen.Some? then Recompute(env, op, self, other, viaLen.value)
        else
          var notImplemented :- NotImplementedIn(env);
          Ok(Existing(m, notImplemented))
  }

  /** The receiver's operator called again with the other operand's
      answer `truth` (its `unwrap` panics if the receiver has no such
      method): a result holding 1 picks the other operand for `and` and
      the receiver for `or` and `xor`; anything else the reverse. */
  function Recompute(env: NativeEnv, op: LogicOp, self: Addr, other: Addr, truth: Outcome): (r: Result<Outcome, Panic>)
    ensures r.Ok? ==> r.value.returned == self || r.value.returned == other
  {
    var again :- env.callMethod(truth.mem, self, Dunder(op), [truth.returned]);
    if again.None? then Err(MethodMissing(Dunder(op)))
    else
      var result :- IntOf(again.value.mem, again.value.returned);
      var picksOther := (result == 1) == (op == And);
      Ok(Outcome(again.value.mem, if picksOther then other else self))
  }

  /** `not_method`: `True` exactly for 0. */
  function NotIn(m: MemState, env: NativeEnv, c: Vm.CallParams): (r: Result<Outcome, Panic>)
  {
    var a :- ReceiverInt(m, c, 0);
    Ok(Existing(m, TruthValue(env, a == 0)))
  }

  /** The text of a bool: `False` for 0, `True` for anything else. */
  function Text(a: int): string
  {
    if a == 0 then "False" else "True"
  }

  /** `to_str`: no arity check; a new str, of the type found by name. */
  function ToStrIn(m: MemState, env: NativeEnv, c: Vm.CallParams): (r: Result<Outcome, Panic>)
  {
    var call :- Vm.AsMethod(c);
    var a :- IntOf(m, call.boundPyobj);
    AllocateByNameIn(m, env.modules, "str", String(Text(a)))
  }

  /** `repr`: as `to_str`, with no argument besides the receiver. */
  function ReprIn(m: MemState, env: NativeEnv, c: Vm.CallParams): (r: Result<Outcome, Panic>)
  {
    var a :- ReceiverInt(m, c, 0);
    AllocateByNameIn(m, env.modules, "str", String(Text(a)))
  }

  /** `to_boolean`: the receiver itself. */
  function ToBooleanIn(m: MemState, c: Vm.CallParams): (r: Result<Outcome, Panic>)
    ensures r.Ok? <==> |c.params| == 1
    ensures r.Ok? ==> r.value == Outcome(m, c.params[0])
  {
    var call :- Vm.AsMethod(c);
    var _ :- CheckParams(0, |call.params|);
    Ok(Existing(m, call.boundPyobj))
  }

  /** `to_int`: a new int, 0 or 1, of the type found by name. */
  function ToIntIn(m: MemState, env: NativeEnv, c: Vm.CallParams): (r: Result<Outcome, Panic>)
  {
    var a :- ReceiverInt(m, c, 0);
    AllocateByNameIn(m, env.modules, "int", Int(if a == 0 then 0 else 1))
  }

  /** `to_float`: a new float, 0.0 or 1.0, of the type found by name. */
  function ToFloatIn(m: MemState, env: NativeEnv, c: Vm.CallParams): (r: Result<Outcome, Panic>)
  {
    var a :- ReceiverInt(m, c, 0);
    AllocateByNameIn(m, env.modules, "float", BuiltInTypeData.Float(env.intToFloat(if a == 0 then 0 else 1)))
  }

  /** `negation`: a new int, 0 for 1 and 1 for anything else. */
  function NegationIn(m: MemState, env: NativeEnv, c: Vm.CallParams): (r: Result<Outcome, Panic>)
  {
    var a :- ReceiverInt(m, c, 0);
    AllocateRawIn(m, env.types.intType, Int(if a == 1 then 0 else 1))
  }

  /** What calling the native function does. */
  function Invoke(f: BoolMethod, m: MemState, env: NativeEnv, c: Vm.CallParams): Result<Outcome, Panic>
  {
    match f
    case Logic(op) => LogicIn(m, env, c, op)
    case Not => NotIn(m, env, c)
    case Negation => NegationIn(m, env, c)
    case ToBoolean => ToBooleanIn(m, c)
    case ToStr => ToStrIn(m, env, c)
    case Repr => ReprIn(m, env, c)
    case ToInt => ToIntIn(m, env, c)
    case ToFloat => ToFloatIn(m, env, c)
  }

  // ---------------------------------------------------------------------
  // What the methods compute
  // ---------------------------------------------------------------------

  /** Against another bool, `and`, `or` and `xor` return the shared
      boolean of the truth table over "not 0", and allocate nothing. */
  lemma LogicOnBools(m: MemState, env: NativeEnv, callee: Addr, self: Addr, other: Addr, op: LogicOp, a: int, b: int)
    requires IntOf(m, self) == Ok(a) && IntOf(m, other) == Ok(b) && m.heap[other].typeAddr == env.types.booleanType
    ensures LogicIn(m, env, Vm.CallParams(callee, None, [self, other]), op) ==
            Ok(Outcome(m, TruthValue(env, Table(op, a != 0, b != 0))))
  {
  }

  /** Against an object that is not a bool and has neither `__bool__`
      nor `__len__`, the result is `NotImplemented`. */
  lemma LogicNotImplemented(m: MemState, env: NativeEnv, callee: Addr, self: Addr, other: Addr, op: LogicOp, a: int)
    requires IntOf(m, self) == Ok(a) && Readable(m, other) && m.heap[other].typeAddr != env.types.booleanType
    requires env.callMethod(m, other, "__bool__", []) == Ok(None) && env.callMethod(m, other, "__len__", []) == Ok(None)
    requires NotImplementedValue in env.special
    ensures LogicIn(m, env, Vm.CallParams(callee, None, [self, other]), op) ==
            Ok(Outcome(m, env.special[NotImplementedValue]))
  {
  }

  /** The shared booleans hold 1 and 0, and the receiver's operator, when
      called again with the bool `__bool__` answered, runs the truth-table
      branch: then `and` returns the other operand exactly when both
      operands are true, and `or` and `xor` return the receiver exactly
      when the table gives true. */
  lemma LogicThroughBool(m: MemState, env: NativeEnv, callee: Addr, self: Addr, other: Addr, op: LogicOp,
                         a: int, truth: Outcome, t: int)
    requires IntOf(m, self) == Ok(a) && Readable(m, other) && m.heap[other].typeAddr != env.types.booleanType
    requires env.callMethod(m, other, "__bool__", []) == Ok(Some(truth))
    requires IntOf(truth.mem, truth.returned) == Ok(t) && truth.mem.heap[truth.returned].typeAddr == env.types.booleanType
    requires IntOf(truth.mem, self) == Ok(a)
    requires IntOf(truth.mem, env.types.trueVal) == Ok(1) && IntOf(truth.mem, env.types.falseVal) == Ok(0)
    requires env.callMethod(truth.mem, self, Dunder(op), [truth.returned]) ==
             Found(LogicIn(truth.mem, env, Vm.CallParams(callee, None, [self, truth.returned]), op))
    ensures var r := LogicIn(m, env, Vm.CallParams(callee, None, [self, other]), op);
            r.Ok? && r.value.mem == truth.mem &&
            (op == And ==> (r.value.returned == if a != 0 && t != 0 then other else self)) &&
            (op != And ==> (r.value.returned == if Table(op, a != 0, t != 0) then self else other))
  {
    LogicOnBools(truth.mem, env, callee, self, truth.returned, op, a, t);
  }

  /** `__not__` is `True` exactly for 0; `__neg__` gives a new int, 0 for
      1 and 1 otherwise. */
  lemma NotAndNegationSpec(m: MemState, env: NativeEnv, callee: Addr, self: Addr, a: int)
    requires WellFormed(m) && IntOf(m, self) == Ok(a)
    ensures NotIn(m, env, Vm.CallParams(callee, None, [self])) == Ok(Outcome(m, TruthValue(env, a == 0)))
    ensures var r := NegationIn(m, env, Vm.CallParams(callee, None, [self]));
            r.Ok? && FreshObject(m, r.value, env.types.intType, Int(if a == 1 then 0 else 1))
  {
    AllocateRawSpec(m, env.types.intType, Int(if a == 1 then 0 else 1));
  }

  /** `__str__` and `__repr__` give a new `False` for 0 and `True`
      otherwise, of the type bound to `str`; `__str__` takes any number of
      arguments, `__repr__` none. `__int__` gives a new 0 or 1. */
  lemma ConversionsSpec(m: MemState, env: NativeEnv, callee: Addr, self: Addr, extra: Addr, a: int, strType: Addr, intType: Addr)
    requires WellFormed(m) && IntOf(m, self) == Ok(a)
    requires FindInModuleIn(m, env.modules, BUILTIN_MODULE, "str") == Ok(Some(strType))
    requires FindInModuleIn(m, env.modules, BUILTIN_MODULE, "int") == Ok(Some(intType))
    ensures var r := ToStrIn(m, env, Vm.CallParams(callee, None, [self, extra]));
            r.Ok? && FreshObject(m, r.value, strType, String(if a == 0 then "False" else "True"))
    ensures ReprIn(m, env, Vm.CallParams(callee, None, [self])) == ToStrIn(m, env, Vm.CallParams(callee, None, [self]))
    ensures ReprIn(m, env, Vm.CallParams(callee, None, [self, extra])) == Err(ArgumentCount(0, 1))
    ensures var r := ToIntIn(m, env, Vm.CallParams(callee, None, [self]));
            r.Ok? && FreshObject(m, r.value, intType, Int(if a == 0 then 0 else 1))
  {
    AllocateByNameSpec(m, env.modules, "str", String(Text(a)));
    AllocateByNameSpec(m, env.modules, "int", Int(if a == 0 then 0 else 1));
  }

  // ---------------------------------------------------------------------
  // Registration
  // ---------------------------------------------------------------------

  /** The methods `register_boolean_type` binds, in its order. */
  const BoolMethods: MethodTable :=
    [("__and__", Code(Logic(And))),
     ("__or__", Code(Logic(Or))),
     ("__xor__", Code(Logic(Xor))),
     ("__not__", Code(Not)),
     ("__neg__", Code(Negation)),
     ("__bool__", Code(ToBoolean)),
     ("__str__", Code(ToStr)),
     ("__repr__", Code(Repr)),
     ("__int__", Code(ToInt)),
     ("__float__", Code(ToFloat))]

  /** The allocation of `True` and `False` as objects of the type bound
      to `bool`, both then made const; nothing else changes. */
  method AllocateTruthValues(rt: Runtime, boolType: Addr) returns (trueVal: Addr, falseVal: Addr)
    requires rt.Valid() && FindInModuleIn(rt.memory.State(), rt.modules, BUILTIN_MODULE, "bool") == Ok(Some(boolType))
    modifies rt.memory
    ensures rt.Valid() && trueVal != falseVal
    ensures GetIn(rt.memory.State(), trueVal) == Ok(BuiltinObject(boolType, Int(1)).(isConst := true))
    ensures GetIn(rt.memory.State(), falseVal) == Ok(BuiltinObject(boolType, Int(0)).(isConst := true))
    ensures forall n :: FindInModuleIn(rt.memory.State(), rt.modules, BUILTIN_MODULE, n) ==
                        old(FindInModuleIn(rt.memory.State(), rt.modules, BUILTIN_MODULE, n))
    ensures forall b :: old(Readable(rt.memory.State(), b)) ==> GetIn(rt.memory.State(), b) == old(GetIn(rt.memory.State(), b))
  {
    ghost var m1 := rt.memory.State();
    AllocateByNameSpec(m1, rt.modules, "bool", Int(1));
    var trueAllocated := AllocateBuiltinByName(rt, "bool", Int(1));
    trueVal := trueAllocated.value;
    ghost var m2 := rt.memory.State();
    BuiltinModuleKept(m1, m2, rt.modules);
    AllocateByNameSpec(m2, rt.modules, "bool", Int(0));
    var falseAllocated := AllocateBuiltinByName(rt, "bool", Int(0));
    falseVal := falseAllocated.value;
    ghost var m3 := rt.memory.State();
    BuiltinModuleKept(m2, m3, rt.modules);

    MakeConstPreserves(m3, trueVal);
    var _ := rt.MakeConst(trueVal);
    ghost var m4 := rt.memory.State();
    MakeConstPreserves(m4, falseVal);
    var _ := rt.MakeConst(falseVal);
    ghost var m5 := rt.memory.State();
    BuiltinModuleKept(m3, m5, rt.modules);
  }

  /** `register_boolean_type`: `int` must already be in the builtin
      module (else the `expect` panics); `bool` is created with it as
      supertype and binds every method of the table; then the two values
      `True` (holding 1) and `False` (holding 0) are allocated as `bool`
      objects, recorded, and made const; last, `bool` itself is recorded.
      On a runtime with the type and callable types, `int` and no `bool`
      yet, it does not panic. */
  method RegisterBooleanType(rt: Runtime) returns (r: Result<Addr, Panic>)
    requires rt.Valid()
    modifies rt, rt.memory
    ensures rt.Valid()
    ensures rt.frames == old(rt.frames) && rt.specialValues == old(rt.specialValues) &&
            rt.modules == old(rt.modules) && rt.builtinNames == old(rt.builtinNames)
    ensures r.Err? ==> rt.builtinTypeAddrs == old(rt.builtinTypeAddrs)
    ensures (TypeValue in rt.specialValues && CallableType in rt.specialValues &&
             old(FindInModuleIn(rt.memory.State(), rt.modules, BUILTIN_MODULE, "int")).Ok? &&
             old(FindInModuleIn(rt.memory.State(), rt.modules, BUILTIN_MODULE, "int")).value.Some? &&
             old(FindInModuleIn(rt.memory.State(), rt.modules, BUILTIN_MODULE, "bool")) == Ok(None)) ==> r.Ok?
    ensures r.Ok? ==> TypeValue in rt.specialValues && CallableType in rt.specialValues &&
                      old(FindInModuleIn(rt.memory.State(), rt.modules, BUILTIN_MODULE, "int")).Ok? &&
                      InstalledType(rt.memory.State(), rt.modules, rt.specialValues[TypeValue], "bool", r.value,
                                    old(FindInModuleIn(rt.memory.State(), rt.modules, BUILTIN_MODULE, "int")).value) &&
                      Binds(rt.memory.State(), rt.specialValues[CallableType], r.value, BoolMethods)
    ensures r.Ok? ==> var types := rt.builtinTypeAddrs;
                      types == old(rt.builtinTypeAddrs).(booleanType := r.value, trueVal := types.trueVal, falseVal := types.falseVal) &&
                      types.trueVal != types.falseVal &&
                      GetIn(rt.memory.State(), types.trueVal) == Ok(BuiltinObject(r.value, Int(1)).(isConst := true)) &&
                      GetIn(rt.memory.State(), types.falseVal) == Ok(BuiltinObject(r.value, Int(0)).(isConst := true))
    ensures r.Ok? ==> BUILTIN_MODULE in rt.modules &&
                      forall b :: b != rt.modules[BUILTIN_MODULE] && old(Readable(rt.memory.State(), b)) ==>
                        GetIn(rt.memory.State(), b) == old(GetIn(rt.memory.State(), b))
  {
    var intFound := rt.FindInModule(BUILTIN_MODULE, "int");
    if intFound.Err? {
      return Err(intFound.error);
    }
    if intFound.value.None? {
      return Err(NameMissing("int"));
    }
    var created := CreateBuiltinType(rt, "bool", intFound.value, BoolMethods);
    if created.Err? {
      return Err(created.error);
    }
    var t := created.value;

    var trueVal, falseVal := AllocateTruthValues(rt, t);
    rt.builtinTypeAddrs := rt.builtinTypeAddrs.(trueVal := trueVal, falseVal := falseVal);
    rt.builtinTypeAddrs := rt.builtinTypeAddrs.(booleanType := t);
    return Ok(t);
  }
}
