/*
 * The builtin `str` type (src/builtin_types/string_type.rs): concatenation,
 * equality, the conversions to int and to text, the constructor
 * `str(x)`, and the registration of the type.
 *
 * The file is written against the `VM` generation of the runtime: the
 * arguments arrive with the receiver first, and `as_method` splits it
 * off before the arity is checked. `__new__` is an unbound function of
 * the type, called with the constructor's arguments alone.
 */
module StringType {

  import opened Wrappers
  import opened RuntimeDataModel
  import opened Decimal
  import opened UnsafeMemory
  import opened Frames
  import opened ObjectSpace
  import opened Handlers
  import opened PyRuntime
  import opened Natives
  import Vm

  /** The native functions the type binds. `ToFloat`, `Lower` and `Upper`
      are bound but not modelled (see `Invoke`). */
  datatype StrMethod =
    | New
    | Concat
    | Equals
    | NotEquals
    | ToInt
    | ToFloat
    | Repr
    | ToStr
    | Lower
    | Upper

  function Code(f: StrMethod): NativeCode
  {
    match f
    case New => 300
    case Concat => 301
    case Equals => 302
    case NotEquals => 303
    case ToInt => 304
    case ToFloat => 305
    case Repr => 306
    case ToStr => 307
    case Lower => 308
    case Upper => 309
  }

  function Decode(code: NativeCode): Option<StrMethod>
  {
    if code == 300 then Some(New)
    else if code == 301 then Some(Concat)
    else if code == 302 then Some(Equals)
    else if code == 303 then Some(NotEquals)
    else if code == 304 then Some(ToInt)
    else if code == 305 then Some(ToFloat)
    else if code == 306 then Some(Repr)
    else if code == 307 then Some(ToStr)
    else if code == 308 then Some(Lower)
    else if code == 309 then Some(Upper)
    else None
  }

  /** Every native function is told apart by its code. */
  lemma DecodeCode(f: StrMethod)
    ensures Decode(Code(f)) == Some(f)
  {
  }

  // ---------------------------------------------------------------------
  // The native methods
  // ---------------------------------------------------------------------

  /** `create_concat`: a new str holding the receiver's text followed by
      the other's; an operand that is not a str panics with its type's
      name. */
  function ConcatIn(m: MemState, env: NativeEnv, c: Vm.CallParams): (r: Result<Outcome, Panic>)
    ensures c.params != [] && |c.params| != 2 ==> r == Err(ArgumentCount(1, |c.params| - 1))
  {
    var call :- Vm.AsMethod(c);
    var _ :- CheckParams(1, |call.params|);
    var s :- StringOf(m, call.boundPyobj);
    var otherName :- PyobjTypeNameIn(m, call.params[0]);
    if otherName == "str" then
      var t :- StringOf(m, call.params[0]);
      AllocateByNameIn(m, env.modules, "str", String(s + t))
    else
      Err(TypeMismatch(otherName))
  }

  /** `create_eq`: the payloads are compared when the other operand's type
      is named `str`; anything else is unequal. */
  function EqIn(m: MemState, env: NativeEnv, c: Vm.CallParams): (r: Result<Outcome, Panic>)
    ensures c.params != [] && |c.params| != 2 ==> r == Err(ArgumentCount(1, |c.params| - 1))
    ensures r.Ok? ==> r.value.mem == m &&
                      (r.value.returned == env.types.trueVal || r.value.returned == env.types.falseVal)
  {
    var call :- Vm.AsMethod(c);
    var _ :- CheckParams(1, |call.params|);
    var selfData :- RawDataIn(m, call.boundPyobj);
    var otherName :- PyobjTypeNameIn(m, call.params[0]);
    if otherName == "str" then
      var otherData :- RawDataIn(m, call.params[0]);
      Ok(Existing(m, TruthValue(env, selfData == otherData)))
    else
      Ok(Existing(m, env.types.falseVal))
  }

  /** `create_neq`: the opposite of `create_eq` between strs, but `False`
      against anything else, as `create_eq` is. */
  function NeqIn(m: MemState, env: NativeEnv, c: Vm.CallParams): (r: Result<Outcome, Panic>)
    ensures c.params != [] && |c.params| != 2 ==> r == Err(ArgumentCount(1, |c.params| - 1))
    ensures r.Ok? ==> r.value.mem == m &&
                      (r.value.returned == env.types.trueVal || r.value.returned == env.types.falseVal)
  {
    var call :- Vm.AsMethod(c);
    var _ :- CheckParams(1, |call.params|);
    var selfData :- RawDataIn(m, call.boundPyobj);
    var otherName :- PyobjTypeNameIn(m, call.params[0]);
    if otherName == "str" then
      var otherData :- RawDataIn(m, call.params[0]);
      Ok(Existing(m, TruthValue(env, selfData != otherData)))
    else
      Ok(Existing(m, env.types.falseVal))
  }

  /** `create_to_int`: the text parsed as a decimal `i128`, which panics
      when it is not one. The arity check asks for one argument besides
      the receiver. */
  function ToIntIn(m: MemState, env: NativeEnv, c: Vm.CallParams): (r: Result<Outcome, Panic>)
    ensures c.params != [] && |c.params| != 2 ==> r == Err(ArgumentCount(1, |c.params| - 1))
  {
    var call :- Vm.AsMethod(c);
    var _ :- CheckParams(1, |call.params|);
    var s :- StringOf(m, call.boundPyobj);
    var v := ParseI128(s);
    if v.None? then Err(Unparsable(s))
    else AllocateByNameIn(m, env.modules, "int", Int(v.value))
  }

  /** The text in single quotes, as `format!("'{}'", s)` writes it. */
  function Quoted(s: string): (r: string)
    ensures |r| == |s| + 2 && r[0] == '\'' && r[|r| - 1] == '\''
    ensures r[1..|r| - 1] == s
  {
    ['\''] + s + ['\'']
  }

  /** `create_repr`: a new str holding the text in single quotes. */
  function ReprIn(m: MemState, env: NativeEnv, c: Vm.CallParams): (r: Result<Outcome, Panic>)
    ensures c.params != [] && |c.params| != 1 ==> r == Err(ArgumentCount(0, |c.params| - 1))
  {
    var call :- Vm.AsMethod(c);
    var _ :- CheckParams(0, |call.params|);
    var s :- StringOf(m, call.boundPyobj);
    AllocateByNameIn(m, env.modules, "str", String(Quoted(s)))
  }

  /** `create_to_str`: the receiver itself, whatever it holds. */
  function ToStrIn(m: MemState, c: Vm.CallParams): (r: Result<Outcome, Panic>)
    ensures r.Ok? <==> |c.params| == 1
    ensures r.Ok? ==> r.value == Outcome(m, c.params[0])
  {
    var call :- Vm.AsMethod(c);
    var _ :- CheckParams(0, |call.params|);
    Ok(Existing(m, call.boundPyobj))
  }

  /** `call_method(args[0], "__str__", &[])`, a missing method panicking;
      an empty argument list panics on the index. */
  function StrOfFirst(m: MemState, env: NativeEnv, args: seq<Addr>): (r: Result<Outcome, Panic>)
    ensures args == [] ==> r == Err(IndexOutOfBounds(0))
    ensures args != [] && env.callMethod(m, args[0], "__str__", []) == Ok(None) ==> r == Err(MethodMissing("__str__"))
    ensures args != [] && env.callMethod(m, args[0], "__str__", []).Ok? &&
            env.callMethod(m, args[0], "__str__", []).value.Some? ==>
              r == Ok(env.callMethod(m, args[0], "__str__", []).value.value)
  {
    if args == [] then Err(IndexOutOfBounds(0))
    else
      var found :- env.callMethod(m, args[0], "__str__", []);
      if found.None? then Err(MethodMissing("__str__")) else Ok(found.value)
  }

  /** `create_new` as written: no argument gives `""`; one argument is
      checked, but `as_method` then takes that argument as the receiver,
      so the `__str__` call indexes an empty argument list. */
  function NewAsWrittenIn(m: MemState, env: NativeEnv, c: Vm.CallParams): (r: Result<Outcome, Panic>)
  {
    if |c.params| == 0 then AllocateByNameIn(m, env.modules, "str", String(""))
    else
      var _ :- CheckParams(1, |c.params|);
      var call := Vm.AsMethod(c).value;
      StrOfFirst(m, env, call.params)
  }

  /** `create_new` as intended: one argument gives that argument's
      `__str__`. */
  function NewIn(m: MemState, env: NativeEnv, c: Vm.CallParams): (r: Result<Outcome, Panic>)
    ensures |c.params| > 1 ==> r == Err(ArgumentCount(1, |c.params|))
  {
    if |c.params| == 0 then AllocateByNameIn(m, env.modules, "str", String(""))
    else
      var _ :- CheckParams(1, |c.params|);
      StrOfFirst(m, env, c.params)
  }

  /** What calling a native function of the type does; `__float__`
      (a float parse), `lower` and `upper` (Unicode case mapping) are
      outside the model. */
  function Invoke(f: StrMethod, m: MemState, env: NativeEnv, c: Vm.CallParams): Option<Result<Outcome, Panic>>
  {
    match f
    case New => Some(NewIn(m, env, c))
    case Concat => Some(ConcatIn(m, env, c))
    case Equals => Some(EqIn(m, env, c))
    case NotEquals => Some(NeqIn(m, env, c))
    case ToInt => Some(ToIntIn(m, env, c))
    case Repr => Some(ReprIn(m, env, c))
    case ToStr => Some(ToStrIn(m, c))
    case ToFloat => None
    case Lower => None
    case Upper => None
  }

  // ---------------------------------------------------------------------
  // What the methods compute
  // ---------------------------------------------------------------------

  /** A call with receiver `self` and the single argument `other`. */
  function Call2(callee: Addr, self: Addr, other: Addr): Vm.CallParams
  {
    Vm.CallParams(callee, None, [self, other])
  }

  /** `+` between strs allocates a new str whose text is the receiver's
      followed by the other's, each recoverable from it; a non-str other
      panics with the name of its type. */
  lemma ConcatSpec(m: MemState, env: NativeEnv, callee: Addr, self: Addr, other: Addr, s: string)
    requires WellFormed(m) && StringOf(m, self) == Ok(s)
    requires FindInModuleIn(m, env.modules, BUILTIN_MODULE, "str").Ok? &&
             FindInModuleIn(m, env.modules, BUILTIN_MODULE, "str").value.Some?
    requires PyobjTypeNameIn(m, other).Ok?
    ensures var r := ConcatIn(m, env, Call2(callee, self, other));
            var name := PyobjTypeNameIn(m, other).value;
            (name != "str" ==> r == Err(TypeMismatch(name))) &&
            (name == "str" && StringOf(m, other).Ok? ==>
               var t := StringOf(m, other).value;
               r.Ok? &&
               FreshObject(m, r.value, FindInModuleIn(m, env.modules, BUILTIN_MODULE, "str").value.value, String(s + t)) &&
               (s + t)[..|s|] == s && (s + t)[|s|..] == t)
  {
    var name := PyobjTypeNameIn(m, other).value;
    if name == "str" && StringOf(m, other).Ok? {
      AllocateByNameSpec(m, env.modules, "str", String(s + StringOf(m, other).value));
    }
  }

  /** Between two strs, `__eq__` answers whether the texts are equal and
      `__neq__` the opposite; against an object whose type is not named
      `str` both answer `False`. Neither allocates. */
  lemma EqualitySpec(m: MemState, env: NativeEnv, callee: Addr, self: Addr, other: Addr, s: string)
    requires StringOf(m, self) == Ok(s) && PyobjTypeNameIn(m, other).Ok?
    ensures var name := PyobjTypeNameIn(m, other).value;
            name == "str" && StringOf(m, other).Ok? ==>
              EqIn(m, env, Call2(callee, self, other)) == Ok(Outcome(m, TruthValue(env, s == StringOf(m, other).value))) &&
              NeqIn(m, env, Call2(callee, self, other)) == Ok(Outcome(m, TruthValue(env, s != StringOf(m, other).value)))
    ensures PyobjTypeNameIn(m, other).value != "str" ==>
              EqIn(m, env, Call2(callee, self, other)) == Ok(Outcome(m, env.types.falseVal)) &&
              NeqIn(m, env, Call2(callee, self, other)) == Ok(Outcome(m, env.types.falseVal))
  {
  }

  /** The decimal text an int's `__str__` writes parses back to the same
      number: `__int__` (given the one extra argument its arity check
      demands) allocates an int holding it. Without that argument it
      panics. */
  lemma ToIntRoundTrip(m: MemState, env: NativeEnv, callee: Addr, self: Addr, extra: Addr, a: int)
    requires WellFormed(m) && StringOf(m, self) == Ok(IntText(a)) && InI128(a)
    requires FindInModuleIn(m, env.modules, BUILTIN_MODULE, "int").Ok? &&
             FindInModuleIn(m, env.modules, BUILTIN_MODULE, "int").value.Some?
    ensures var r := ToIntIn(m, env, Call2(callee, self, extra));
            r.Ok? && FreshObject(m, r.value, FindInModuleIn(m, env.modules, BUILTIN_MODULE, "int").value.value, Int(a))
    ensures ToIntIn(m, env, Vm.CallParams(callee, None, [self])) == Err(ArgumentCount(1, 0))
  {
    ParseIntText(a);
    AllocateByNameSpec(m, env.modules, "int", Int(a));
  }

  /** Text that is not a decimal `i128` panics with that text. */
  lemma ToIntUnparsable(m: MemState, env: NativeEnv, callee: Addr, self: Addr, extra: Addr, s: string)
    requires StringOf(m, self) == Ok(s) && ParseI128(s).None?
    ensures ToIntIn(m, env, Call2(callee, self, extra)) == Err(Unparsable(s))
  {
  }

  /** `__repr__` allocates the text in quotes, from which the text is
      recovered by dropping the first and last character. */
  lemma ReprSpec(m: MemState, env: NativeEnv, callee: Addr, self: Addr, s: string)
    requires WellFormed(m) && StringOf(m, self) == Ok(s)
    requires FindInModuleIn(m, env.modules, BUILTIN_MODULE, "str").Ok? &&
             FindInModuleIn(m, env.modules, BUILTIN_MODULE, "str").value.Some?
    ensures var r := ReprIn(m, env, Vm.CallParams(callee, None, [self]));
            r.Ok? && FreshObject(m, r.value, FindInModuleIn(m, env.modules, BUILTIN_MODULE, "str").value.value, String(Quoted(s))) &&
            Quoted(s)[1..|s| + 1] == s
  {
    AllocateByNameSpec(m, env.modules, "str", String(Quoted(s)));
  }

  /** As written, `str(x)` panics for every `x`: the single argument
      passes the arity check, becomes the receiver, and the argument list
      that is then indexed is empty. */
  lemma NewAsWrittenPanics(m: MemState, env: NativeEnv, callee: Addr, x: Addr)
    ensures NewAsWrittenIn(m, env, Vm.CallParams(callee, None, [x])) == Err(IndexOutOfBounds(0))
  {
  }

  /** As intended, `str()` allocates the empty str, `str(x)` is what
      `x.__str__()` returns (and panics when `x` has none), and on a str
      whose `__str__` is the native one `str(s)` is `s` itself with the
      heap untouched. */
  lemma NewSpec(m: MemState, env: NativeEnv, callee: Addr, strCallee: Addr, x: Addr)
    requires WellFormed(m)
    requires FindInModuleIn(m, env.modules, BUILTIN_MODULE, "str").Ok? &&
             FindInModuleIn(m, env.modules, BUILTIN_MODULE, "str").value.Some?
    ensures var r := NewIn(m, env, Vm.CallParams(callee, None, []));
            r.Ok? && FreshObject(m, r.value, FindInModuleIn(m, env.modules, BUILTIN_MODULE, "str").value.value, String(""))
    ensures env.callMethod(m, x, "__str__", []) == Ok(None) ==>
              NewIn(m, env, Vm.CallParams(callee, None, [x])) == Err(MethodMissing("__str__"))
    ensures env.callMethod(m, x, "__str__", []) == Found(ToStrIn(m, Vm.CallParams(strCallee, None, [x]))) ==>
              NewIn(m, env, Vm.CallParams(callee, None, [x])) == Ok(Outcome(m, x))
  {
    AllocateByNameSpec(m, env.modules, "str", String(""));
  }

  // ---------------------------------------------------------------------
  // Registration
  // ---------------------------------------------------------------------

  /** The methods `register_string_type` binds with
      `register_bounded_func_on_addr`, in its order, with the name the
      not-equals method is bound under left as a parameter. */
  function Table(notEquals: string): MethodTable
  {
    [("__add__", Code(Concat)),
     ("__eq__", Code(Equals)),
     (notEquals, Code(NotEquals)),
     ("__int__", Code(ToInt)),
     ("__float__", Code(ToFloat)),
     ("__repr__", Code(Repr)),
     ("__str__", Code(ToStr)),
     ("lower", Code(Lower)),
     ("upper", Code(Upper))]
  }

  /** As written, the not-equals method is bound under `__neq__`. */
  const AsWrittenMethods: MethodTable := Table("__neq__")

  /** The table as intended: under `__ne__`, the name `!=` looks up. */
  const StrMethods: MethodTable := Table(CompareDunder(NeOp))

  /** As written, no method of the table is bound under the name `!=`
      looks up, so `!=` between strs never reaches `create_neq`. */
  lemma NotEqualsAsWritten()
    ensures forall j :: 0 <= j < |AsWrittenMethods| ==> AsWrittenMethods[j].0 != CompareDunder(NeOp)
    ensures AsWrittenMethods[2] == ("__neq__", Code(NotEquals))
  {
  }

  /** In the intended table `__ne__` is bound to `create_neq`, and the
      names are distinct. */
  lemma StrMethodsBindNotEquals()
    ensures StrMethods[2] == (CompareDunder(NeOp), Code(NotEquals)) && Decode(StrMethods[2].1) == Some(NotEquals)
    ensures DistinctNames(StrMethods)
  {
  }

  /** `register_string_type`, with the intended table: the type `str` is
      created in the builtin module with no supertype, `__new__` is bound
      among its functions, every method of the table among its methods,
      and `builtin_type_addrs.string` is set to it. The source binds the
      methods by address; they are bound here by the name the type was
      just created under, which finds the same type. On a runtime with
      the type and callable types and no `str` yet, it does not panic. */
  method RegisterStringType(rt: Runtime) returns (r: Result<Addr, Panic>)
    requires rt.Valid()
    modifies rt, rt.memory
    ensures rt.Valid()
    ensures rt.frames == old(rt.frames) && rt.specialValues == old(rt.specialValues) &&
            rt.modules == old(rt.modules) && rt.builtinNames == old(rt.builtinNames)
    ensures rt.builtinTypeAddrs == if r.Ok? then old(rt.builtinTypeAddrs).(stringType := r.value) else old(rt.builtinTypeAddrs)
    ensures (TypeValue in rt.specialValues && CallableType in rt.specialValues &&
             old(FindInModuleIn(rt.memory.State(), rt.modules, BUILTIN_MODULE, "str")) == Ok(None)) ==> r.Ok?
    ensures r.Ok? ==> TypeValue in rt.specialValues && CallableType in rt.specialValues &&
                      InstalledType(rt.memory.State(), rt.modules, rt.specialValues[TypeValue], "str", r.value, None) &&
                      Binds(rt.memory.State(), rt.specialValues[CallableType], r.value, StrMethods)
    ensures r.Ok? ==> "__new__" in rt.memory.heap[r.value].structure.functions &&
                      GetIn(rt.memory.State(), rt.memory.heap[r.value].structure.functions["__new__"]) ==
                        Ok(CallableObject(rt.specialValues[CallableType], Code(New), "__new__"))
    ensures r.Ok? ==> !old(Readable(rt.memory.State(), r.value)) && BUILTIN_MODULE in rt.modules &&
                      forall b :: b != r.value && b != rt.modules[BUILTIN_MODULE] && old(Readable(rt.memory.State(), b)) ==>
                        GetIn(rt.memory.State(), b) == old(GetIn(rt.memory.State(), b))
  {
    StrMethodsBindNotEquals();
    r := CreateStrWithNew(rt);
    if r.Err? {
      return;
    }
    var t := r.value;
    ghost var m1 := rt.memory.State();
    var _ := RegisterBoundedFuncs(rt, "str", t, StrMethods);
    ghost var f := m1.heap[t].structure.functions["__new__"];
    assert GetIn(m1, f).Ok? && f != t;
    rt.builtinTypeAddrs := rt.builtinTypeAddrs.(stringType := t);
  }

  /** `create_type(BUILTIN_MODULE, "str", None)` followed by the binding
      of `__new__` among the new type's functions. */
  method CreateStrWithNew(rt: Runtime) returns (r: Result<Addr, Panic>)
    requires rt.Valid()
    modifies rt.memory
    ensures rt.Valid()
    ensures (TypeValue in rt.specialValues && CallableType in rt.specialValues &&
             old(FindInModuleIn(rt.memory.State(), rt.modules, BUILTIN_MODULE, "str")) == Ok(None)) ==> r.Ok?
    ensures r.Ok? ==> TypeValue in rt.specialValues && CallableType in rt.specialValues &&
                      InstalledType(rt.memory.State(), rt.modules, rt.specialValues[TypeValue], "str", r.value, None)
    ensures r.Ok? ==> "__new__" in rt.memory.heap[r.value].structure.functions &&
                      GetIn(rt.memory.State(), rt.memory.heap[r.value].structure.functions["__new__"]) ==
                        Ok(CallableObject(rt.specialValues[CallableType], Code(New), "__new__"))
    ensures r.Ok? ==> !old(Readable(rt.memory.State(), r.value)) && BUILTIN_MODULE in rt.modules &&
                      forall b :: b != r.value && b != rt.modules[BUILTIN_MODULE] && old(Readable(rt.memory.State(), b)) ==>
                        GetIn(rt.memory.State(), b) == old(GetIn(rt.memory.State(), b))
  {
    ghost var m0 := rt.memory.State();
    if TypeValue in rt.specialValues {
      CreateTypeSpec(m0, rt.modules, rt.specialValues[TypeValue], BUILTIN_MODULE, "str", None);
    }
    var created := rt.CreateType(BUILTIN_MODULE, "str", None);
    if created.Err? {
      return Err(created.error);
    }
    var t := created.value;
    ghost var m1 := rt.memory.State();
    var ma := rt.modules[BUILTIN_MODULE];
    assert m1.heap[ma].structure.Module? && m1.heap[t].structure.Type?;
    var newFn := rt.RegisterTypeUnboundedFunc(BUILTIN_MODULE, "str", "__new__", Code(New));
    if newFn.Err? {
      return Err(newFn.error);
    }
    ghost var m2 := rt.memory.State();
    assert GetIn(m2, ma) == GetIn(m1, ma);
    BuiltinModuleKept(m1, m2, rt.modules);
    return Ok(t);
  }
}
