/*
 * The virtual machine of src/runtime/vm.rs: positional parameters, the
 * argument handling of `run_function`, and the `VM` object with its frame
 * stack, heap, builtin type addresses, special values and module table.
 *
 * The frame operations are those of module Frames and the heap operations
 * those of module ObjectSpace; the VM applies them to its own fields.
 * Running a callee (native code, or the interpreter on a user function's
 * code) is outside this module: the handlers that call take its outcome
 * as a parameter.
 */
module Vm {

  import opened Wrappers
  import opened RuntimeDataModel
  import opened UnsafeMemory
  import opened Frames
  import opened ObjectSpace
  import opened Sequences

  // ---------------------------------------------------------------------
  // Positional parameters and call parameters
  // ---------------------------------------------------------------------

  /** `PositionalParameters::from_stack_popped`: arguments popped off the
      stack, last argument first, back in call order. */
  function FromStackPopped(popped: seq<Addr>): (r: seq<Addr>)
  {
    Reverse(popped)
  }

  /** Arguments popped in pop order come out in push order: the
      parameters of `n` pops are the top `n` stack entries, deepest
      first. */
  lemma FromStackPoppedSpec(stack: seq<Addr>, n: nat)
    requires n <= |stack|
    ensures FromStackPopped(PoppedOrder(stack, n)) == stack[|stack| - n..]
  {
    PoppedOrderSpec(stack, n);
    ReverseSpec(PoppedOrder(stack, n));
  }

  /** `PositionalParameters::empty` and `single`. */
  const EmptyParameters: seq<Addr> := []

  function SingleParameter(a: Addr): (r: seq<Addr>)
    ensures |r| == 1 && r[0] == a
  {
    [a]
  }

  /** `CallParams`. */
  datatype CallParams = CallParams(funcAddress: Addr, funcName: Option<string>, params: seq<Addr>)

  datatype MethodCallParams = MethodCallParams(boundPyobj: Addr, params: seq<Addr>)

  /** `as_method`: the first parameter is the bound object, the rest are
      the arguments; no parameter at all panics on the index. */
  function AsMethod(c: CallParams): (r: Result<MethodCallParams, Panic>)
    ensures r.Ok? <==> c.params != []
    ensures r.Ok? ==> [r.value.boundPyobj] + r.value.params == c.params
  {
    if c.params == [] then Err(IndexOutOfBounds(0))
    else Ok(MethodCallParams(c.params[0], c.params[1..]))
  }

  /** `as_function`: every parameter is an argument. */
  function AsFunction(c: CallParams): (r: seq<Addr>)
    ensures r == c.params
  {
    c.params[..]
  }

  // ---------------------------------------------------------------------
  // Arguments of a user-defined function
  // ---------------------------------------------------------------------

  /** Each default in turn inserted at index 0 of `params`. */
  function InsertEachAtFront(defaults: seq<Addr>, params: seq<Addr>): seq<Addr>
    decreases |defaults|
  {
    if defaults == [] then params else InsertEachAtFront(defaults[1..], [defaults[0]] + params)
  }

  /** Inserting each at the front reverses them in front of the
      arguments. */
  lemma {:induction false} InsertEachAtFrontSpec(defaults: seq<Addr>, params: seq<Addr>)
    ensures InsertEachAtFront(defaults, params) == Reverse(defaults) + params
    decreases |defaults|
  {
    if defaults != [] {
      InsertEachAtFrontSpec(defaults[1..], [defaults[0]] + params);
      assert Reverse(defaults[1..]) + ([defaults[0]] + params) == (Reverse(defaults[1..]) + [defaults[0]]) + params;
    }
  }

  /** The number of arguments `run_function` expects: the parameter count,
      one fewer when a bound object takes the first slot. The subtraction
      is on `usize` and panics below zero. */
  function ExpectedArgs(paramCount: nat, bound: bool): Result<nat, Panic>
  {
    if bound && paramCount == 0 then Err(Overflow)
    else Ok(if bound then paramCount - 1 else paramCount)
  }

  /** The arguments `run_function` binds, as the code is written: without
      defaults the count must match; with defaults the count must reach
      the non-default parameters, and then the defaults after the first
      `|params|` are inserted one by one at index 0. */
  function ArgumentsAsWritten(paramCount: nat, bound: bool, defaults: seq<Addr>, params: seq<Addr>): Result<seq<Addr>, Panic>
  {
    match ExpectedArgs(paramCount, bound)
    case Err(e) => Err(e)
    case Ok(expected) =>
      if |defaults| == 0 then
        if expected != |params| then Err(ArgumentCount(expected, |params|)) else Ok(params)
      else if expected < |defaults| then Err(Overflow)
      else if expected - |defaults| > |params| then Err(ArgumentCount(expected, |params|))
      else
        var skipped := if |params| <= |defaults| then defaults[|params|..] else [];
        Ok(InsertEachAtFront(skipped, params))
  }

  /** The arguments as intended: the given ones in order, followed by as
      many trailing defaults as there are missing parameters; too few or
      too many arguments panic. */
  function ArgumentsCorrected(paramCount: nat, bound: bool, defaults: seq<Addr>, params: seq<Addr>): (r: Result<seq<Addr>, Panic>)
  {
    match ExpectedArgs(paramCount, bound)
    case Err(e) => Err(e)
    case Ok(expected) =>
      if expected < |defaults| then Err(Overflow)
      else if |params| > expected || expected - |defaults| > |params| then Err(ArgumentCount(expected, |params|))
      else Ok(params + defaults[|defaults| - (expected - |params|)..])
  }

  /** The corrected arguments fill every parameter: the given arguments
      first, then the last defaults; they are accepted exactly when the
      count lies between the non-default count and the parameter count. */
  lemma ArgumentsCorrectedSpec(paramCount: nat, bound: bool, defaults: seq<Addr>, params: seq<Addr>)
    requires ExpectedArgs(paramCount, bound).Ok?
    ensures var expected := ExpectedArgs(paramCount, bound).value;
            ArgumentsCorrected(paramCount, bound, defaults, params).Ok? <==>
              |defaults| <= expected && expected - |defaults| <= |params| <= expected
    ensures var expected := ExpectedArgs(paramCount, bound).value;
            var r := ArgumentsCorrected(paramCount, bound, defaults, params);
            r.Ok? ==> |r.value| == expected && r.value[..|params|] == params &&
                      r.value[|params|..] == defaults[|defaults| - (expected - |params|)..]
  {
  }

  /** Without defaults the code as written and the corrected one agree. */
  lemma ArgumentsAgreeWithoutDefaults(paramCount: nat, bound: bool, params: seq<Addr>)
    ensures ArgumentsAsWritten(paramCount, bound, [], params) == ArgumentsCorrected(paramCount, bound, [], params)
  {
    var empty: seq<Addr> := [];
    assert params + empty[0..] == params;
  }

  /** With defaults the code as written binds too few arguments, in the
      wrong order: `def f(a, b=d1, c=d2)` called as `f(x)` binds `d2` to
      `a` and `x` to `b`, and leaves `c` unbound. */
  lemma ArgumentsAsWrittenMisplacesDefaults(x: Addr, d1: Addr, d2: Addr)
    ensures ArgumentsAsWritten(3, false, [d1, d2], [x]) == Ok([d2, x])
    ensures ArgumentsCorrected(3, false, [d1, d2], [x]) == Ok([x, d1, d2])
  {
    assert [d1, d2][1..] == [d2];
    assert [d2][1..] == [];
    assert InsertEachAtFront([d2], [x]) == InsertEachAtFront([], [d2, x]);
    assert [x] + [d1, d2][0..] == [x, d1, d2];
  }

  /** The local slots of a user function's fresh frame: the bound object
      in slot 0 if there is one, then the arguments. */
  function EntryLocals(bound: Option<Addr>, args: seq<Addr>): (r: seq<Addr>)
    ensures |r| == |args| + (if bound.Some? then 1 else 0)
  {
    (if bound.Some? then [bound.value] else []) + args
  }

  // ---------------------------------------------------------------------
  // The VM object
  // ---------------------------------------------------------------------

  /** The outcome of running a callee as `run_function` reports it: the
      heap afterwards (whatever the callee changed, and the returned
      value's count raised by one), the address returned and the
      exception left on the callee's popped frame. */
  datatype CallResult = CallResult(mem: MemState, returned: Addr, exception: Option<Addr>)

  /** A callee keeps a well-formed heap well formed, as every operation
      of the runtime does. */
  ghost predicate KeepsWellFormed(run: (MemState, Addr, Option<Addr>, seq<Addr>) -> CallResult)
  {
    forall m, f, bound, args :: WellFormed(m) ==> WellFormed(run(m, f, bound, args).mem)
  }

  /** `run_function` on the heap, the callee's address, the bound object
      and the arguments. */
  type Runner = run: (MemState, Addr, Option<Addr>, seq<Addr>) -> CallResult | KeepsWellFormed(run)
    witness (m: MemState, f: Addr, bound: Option<Addr>, args: seq<Addr>) => CallResult(m, f, None)

  /** `call_method` on a heap: nothing when the receiver's type chain has
      no such method in `functions`; otherwise the outcome of running the
      method with the receiver bound. An unreadable receiver panics. */
  function CallMethodIn(m: MemState, receiver: Addr, name: string, params: seq<Addr>,
                        run: Runner): (r: Result<Option<CallResult>, Panic>)
    ensures r.Ok? ==> Readable(m, receiver)
    ensures r.Ok? ==> (r.value.None? <==> MethodLookup(m, m.heap[receiver].typeAddr, name, Functions, |m.heap|) == Ok(None))
    ensures r.Ok? && r.value.Some? ==>
              exists ma :: MethodLookup(m, m.heap[receiver].typeAddr, name, Functions, |m.heap|) == Ok(Some(ma)) &&
                           r.value.value == run(m, ma, Some(receiver), params)
  {
    var obj :- GetIn(m, receiver);
    var found :- MethodLookup(m, obj.typeAddr, name, Functions, |m.heap|);
    if found.None? then Ok(None) else Ok(Some(run(m, found.value, Some(receiver), params)))
  }

  class VM {
    /** `stack`: the frame stack, the current frame last. */
    var frames: seq<StackFrame>
    const memory: UnsafeMemory
    var builtinTypeAddrs: BuiltinTypeAddresses
    var specialValues: map<SpecialValue, Addr>
    var modules: map<string, Addr>

    /** Everything but the frames and the heap. */
    function Registry(): (BuiltinTypeAddresses, map<SpecialValue, Addr>, map<string, Addr>)
      reads this
    {
      (builtinTypeAddrs, specialValues, modules)
    }

    ghost predicate Valid()
      reads this, memory
    {
      memory.Valid()
    }

    /** `VM::new`: one `__main__` frame; the type of types, const; the
        module type with the builtin and main modules; the types `None`,
        `NotImplemented` and `StopIteration` registered in the builtin
        module with their single values; the callable type; and every
        special value recorded. */
    constructor ()
      ensures Valid() && fresh(memory)
      ensures frames == [NewFrame(MAIN_MODULE)]
      ensures builtinTypeAddrs == NullTypeAddresses
      ensures modules.Keys == {BUILTIN_MODULE, MAIN_MODULE}
      ensures forall v: SpecialValue :: v in specialValues
      ensures FindInModuleIn(memory.State(), modules, BUILTIN_MODULE, "None") == Ok(Some(specialValues[NoneType]))
      ensures FindInModuleIn(memory.State(), modules, BUILTIN_MODULE, "NotImplemented") == Ok(Some(specialValues[NotImplementedType]))
      ensures FindInModuleIn(memory.State(), modules, BUILTIN_MODULE, "StopIteration") == Ok(Some(specialValues[StopIterationType]))
    {
      frames := [NewFrame(MAIN_MODULE)];
      memory := new UnsafeMemory();
      builtinTypeAddrs := NullTypeAddresses;
      specialValues := map[];
      modules := map[];
      new;
      var typeType, moduleType, mainModule := InstallModules();

      var noneType, noneValue, notImplementedType, notImplementedValue, stopIterationType, stopIterationValue, callableType :=
        InstallSingletons(typeType);

      // The builtin module itself is not made const.
      MakeConstants([noneType, noneValue, notImplementedType, notImplementedValue,
                     stopIterationType, stopIterationValue, callableType, moduleType, mainModule]);

      assert specialValues == map[TypeValue := typeType];
      specialValues := specialValues[NoneType := noneType][NoneValue := noneValue]
                                    [NotImplementedType := notImplementedType][NotImplementedValue := notImplementedValue]
                                    [StopIterationType := stopIterationType][StopIterationValue := stopIterationValue]
                                    [CallableType := callableType][ModuleType := moduleType];
      forall v: SpecialValue
        ensures v in specialValues
      {
        match v
        case TypeValue =>
        case NoneType =>
        case NoneValue =>
        case NotImplementedType =>
        case NotImplementedValue =>
        case StopIterationType =>
        case StopIterationValue =>
        case CallableType =>
        case ModuleType =>
      }
    }

    /** The first part of `VM::new`: the type of types, made const and
        recorded; the module type; and the builtin and main modules,
        registered, with nothing bound in them yet. */
    method InstallModules() returns (typeType: Addr, moduleType: Addr, mainModule: Addr)
      requires Valid() && modules == map[] && specialValues == map[]
      modifies this, memory
      ensures Valid() && frames == old(frames) && builtinTypeAddrs == old(builtinTypeAddrs)
      ensures specialValues == map[TypeValue := typeType]
      ensures modules.Keys == {BUILTIN_MODULE, MAIN_MODULE} && modules[MAIN_MODULE] == mainModule
      ensures forall n :: FindInModuleIn(memory.State(), modules, BUILTIN_MODULE, n) == Ok(None)
    {
      typeType := memory.AllocateAndWrite(PyObject(NULL, Type("type", map[], map[], None), map[], false));
      var _ := memory.MakeConst(typeType);
      specialValues := specialValues[TypeValue := typeType];

      moduleType := memory.AllocateAndWrite(PyObject(typeType, Type("module", map[], map[], None), map[], false));
      var builtinModule := memory.AllocateAndWrite(PyObject(moduleType, Module(BUILTIN_MODULE, map[]), map[], false));
      mainModule := memory.AllocateAndWrite(PyObject(moduleType, Module(MAIN_MODULE, map[]), map[], false));
      modules := modules[BUILTIN_MODULE := builtinModule];
      modules := modules[MAIN_MODULE := mainModule];
    }

    /** The middle part of `VM::new`: the types `None`, `NotImplemented`
        and `StopIteration` (a subtype of `type`) created in the builtin
        module, each with its single value, then the callable type. */
    method InstallSingletons(typeType: Addr)
      returns (noneType: Addr, noneValue: Addr, notImplementedType: Addr, notImplementedValue: Addr,
               stopIterationType: Addr, stopIterationValue: Addr, callableType: Addr)
      requires Valid() && TypeValue in specialValues && specialValues[TypeValue] == typeType
      requires BUILTIN_MODULE in modules
      requires forall n :: FindInModuleIn(memory.State(), modules, BUILTIN_MODULE, n) == Ok(None)
      modifies memory
      ensures Valid()
      ensures FindInModuleIn(memory.State(), modules, BUILTIN_MODULE, "None") == Ok(Some(noneType))
      ensures FindInModuleIn(memory.State(), modules, BUILTIN_MODULE, "NotImplemented") == Ok(Some(notImplementedType))
      ensures FindInModuleIn(memory.State(), modules, BUILTIN_MODULE, "StopIteration") == Ok(Some(stopIterationType))
    {
      noneType, noneValue := CreateBuiltinSingleton("None", None, NoneObj);
      notImplementedType, notImplementedValue := CreateBuiltinSingleton("NotImplemented", None, NotImplementedObj);
      // The source gives the StopIteration value a NotImplemented structure.
      stopIterationType, stopIterationValue := CreateBuiltinSingleton("StopIteration", Some(typeType), NotImplementedObj);

      ghost var m := memory.State();
      callableType := memory.AllocateAndWrite(PyObject(typeType, Type("function", map[], map[], None), map[], false));
      AllocateKeepsModules(m, PyObject(typeType, Type("function", map[], map[], None), map[], false), modules);
    }

    /** What `VM::new` does for `None`, `NotImplemented` and
        `StopIteration`: `create_type` in the builtin module, then the
        type's single value allocated. */
    method CreateBuiltinSingleton(name: string, supertype: Option<Addr>, structure: Structure) returns (t: Addr, v: Addr)
      requires Valid() && TypeValue in specialValues && BUILTIN_MODULE in modules
      requires FindInModuleIn(memory.State(), modules, BUILTIN_MODULE, name) == Ok(None)
      modifies memory
      ensures Valid()
      ensures FindInModuleIn(memory.State(), modules, BUILTIN_MODULE, name) == Ok(Some(t))
      ensures forall mn, n :: n != name && old(FindInModuleIn(memory.State(), modules, mn, n)).Ok? ==>
                FindInModuleIn(memory.State(), modules, mn, n) == old(FindInModuleIn(memory.State(), modules, mn, n))
      ensures memory.Get(v) == Ok(PyObject(t, structure, map[], false))
    {
      ghost var m := memory.State();
      var typeType := specialValues[TypeValue];
      CreateTypeSpec(m, modules, typeType, BUILTIN_MODULE, name, supertype);
      AddToModuleSpec(AllocateIn(m, EmptyType(typeType, name, supertype)).0, modules, BUILTIN_MODULE, name,
                      AllocateIn(m, EmptyType(typeType, name, supertype)).1);
      AllocateKeepsModules(m, EmptyType(typeType, name, supertype), modules);
      var created := CreateType(BUILTIN_MODULE, name, supertype);
      t := created.value;
      m := memory.State();
      v := memory.AllocateAndWrite(PyObject(t, structure, map[], false));
      AllocateKeepsModules(m, PyObject(t, structure, map[], false), modules);
    }

    /** `make_const`: no name of any module changes. */
    method MakeConst(a: Addr) returns (r: Result<(), Panic>)
      modifies memory
      ensures r.Ok? <==> old(a !in memory.recentlyDeallocatedAddr && a in memory.heap)
      ensures r.Ok? ==> memory.State() == MakeConstIn(old(memory.State()), a).value
      ensures r.Err? ==> memory.State() == old(memory.State())
      ensures old(Valid()) ==> Valid()
    {
      r := memory.MakeConst(a);
    }

    /** The run of `make_const` calls at the end of `VM::new`, one per
        address in order; no name of any module changes. */
    method MakeConstants(addrs: seq<Addr>)
      requires Valid()
      modifies memory
      ensures Valid()
      ensures forall mn, n :: FindInModuleIn(memory.State(), modules, mn, n) == old(FindInModuleIn(memory.State(), modules, mn, n))
    {
      var i := 0;
      while i < |addrs|
        invariant 0 <= i <= |addrs| && Valid()
        invariant forall mn, n :: FindInModuleIn(memory.State(), modules, mn, n) == old(FindInModuleIn(memory.State(), modules, mn, n))
      {
        MakeConstKeepsModules(memory.State(), addrs[i], modules);
        var _ := MakeConst(addrs[i]);
        i := i + 1;
      }
    }

    // --- frames, operand stack and program counter ---

    /** `new_stack_frame`. */
    method NewStackFrame(name: string)
      modifies this
      ensures frames == old(frames) + [NewFrame(name)]
      ensures Registry() == old(Registry())
    {
      frames := frames + [NewFrame(name)];
    }

    /** `pop_stack`. */
    method PopStack() returns (r: Result<Addr, Panic>)
      modifies this
      ensures r.Ok? <==> PopFrom(old(frames)).Ok?
      ensures r.Ok? ==> (frames, r.value) == PopFrom(old(frames)).value
      ensures r.Err? ==> frames == old(frames)
      ensures Registry() == old(Registry())
    {
      if frames == [] {
        return Err(NoFrame);
      }
      var top := Top(frames);
      if top.stack == [] {
        return Err(EmptyStack);
      }
      var v := top.stack[|top.stack| - 1];
      frames := WithTop(frames, top.(stack := top.stack[..|top.stack| - 1]));
      return Ok(v);
    }

    /** `push_onto_stack`. */
    method PushOntoStack(v: Addr) returns (r: Result<(), Panic>)
      modifies this
      ensures r.Ok? <==> old(frames) != []
      ensures r.Ok? ==> frames == PushOn(old(frames), v).value
      ensures r.Err? ==> frames == old(frames)
      ensures Registry() == old(Registry())
    {
      if frames == [] {
        return Err(NoFrame);
      }
      var top := Top(frames);
      frames := WithTop(frames, top.(stack := top.stack + [v]));
      return Ok(());
    }

    /** `get_stack_offset`. */
    function GetStackOffset(offset: int): (r: Result<Addr, Panic>)
      reads this
      ensures frames == [] ==> r == Err(NoFrame)
      ensures frames != [] ==> r == StackOffsetIn(Top(frames).stack, offset)
    {
      if frames == [] then Err(NoFrame) else StackOffsetIn(Top(frames).stack, offset)
    }

    /** `top_stack`: the last value pushed onto the current frame. */
    function TopStack(): (r: Result<Addr, Panic>)
      reads this
      ensures r.Ok? <==> frames != [] && Top(frames).stack != []
      ensures r.Ok? ==> r.value == Top(frames).stack[|Top(frames).stack| - 1]
      ensures r.Ok? ==> PopFrom(frames).Ok? && PopFrom(frames).value.1 == r.value
    {
      GetStackOffset(0)
    }

    /** `pop_stack_frame`: the frame is removed and every value left on
        its operand stack has its reference count decreased, bottom
        first. */
    method PopStackFrame() returns (r: Result<StackFrame, Panic>)
      modifies this, memory
      ensures r.Ok? <==> old(frames) != [] && DecreaseAll(old(memory.State()), Top(old(frames)).stack).Ok?
      ensures old(frames) != [] ==> frames == old(frames)[..|old(frames)| - 1]
      ensures r.Ok? ==> r.value == Top(old(frames)) &&
                        memory.State() == DecreaseAll(old(memory.State()), Top(old(frames)).stack).value
      ensures old(frames) == [] ==> frames == old(frames) && memory.State() == old(memory.State())
      ensures old(Valid()) ==> Valid()
      ensures Registry() == old(Registry())
    {
      if frames == [] {
        return Err(NoFrame);
      }
      var popped := Top(frames);
      frames := frames[..|frames| - 1];
      var d := DecreaseEach(memory, popped.stack);
      if d.Err? {
        return Err(d.error);
      }
      return Ok(popped);
    }

    /** `clear_stacks`: every frame is popped, decreasing the reference
        count of every value on it, and a single fresh `__main__` frame
        is left. */
    method ClearStacks() returns (r: Result<(), Panic>)
      modifies this, memory
      ensures r.Ok? <==> DecreaseAll(old(memory.State()), StacksTopDown(old(frames))).Ok?
      ensures r.Ok? ==> frames == [NewFrame(MAIN_MODULE)] &&
                        memory.State() == DecreaseAll(old(memory.State()), StacksTopDown(old(frames))).value
      ensures old(Valid()) ==> Valid()
      ensures Registry() == old(Registry())
    {
      while frames != []
        invariant DecreaseAll(old(memory.State()), StacksTopDown(old(frames))) ==
                  DecreaseAll(memory.State(), StacksTopDown(frames))
        invariant old(Valid()) ==> Valid()
        invariant Registry() == old(Registry())
        decreases |frames|
      {
        var popped := Top(frames);
        frames := frames[..|frames| - 1];
        DecreaseAllAppend(memory.State(), popped.stack, StacksTopDown(frames));
        var d := DecreaseEach(memory, popped.stack);
        if d.Err? {
          return Err(d.error);
        }
      }
      NewStackFrame(MAIN_MODULE);
      return Ok(());
    }

    /** `bind_local`. */
    method BindLocal(name: nat, addr: Addr) returns (r: Result<(), Panic>)
      modifies this
      ensures r.Ok? <==> old(frames) != []
      ensures r.Ok? ==> frames == WithTop(old(frames), Top(old(frames)).(locals := BindIn(Top(old(frames)).locals, name, addr)))
      ensures r.Err? ==> frames == old(frames)
      ensures Registry() == old(Registry())
    {
      if frames == [] {
        return Err(NoFrame);
      }
      var top := Top(frames);
      var slots := PadAndBind(top.locals, name, addr);
      frames := WithTop(frames, top.(locals := slots));
      return Ok(());
    }

    /** `get_local`. */
    function GetLocal(name: nat): (r: Result<Option<Addr>, Panic>)
      reads this
      ensures r.Ok? <==> frames != []
      ensures r.Ok? ==> r.value == GetLocalIn(Top(frames).locals, name)
    {
      if frames == [] then Err(NoFrame) else Ok(GetLocalIn(Top(frames).locals, name))
    }

    /** `get_pc`. */
    function GetPc(): (r: Result<nat, Panic>)
      reads this
      ensures r.Ok? <==> frames != []
      ensures r.Ok? ==> r.value == Top(frames).progCounter
    {
      if frames == [] then Err(NoFrame) else Ok(Top(frames).progCounter)
    }

    /** `set_pc`. */
    method SetPc(pc: nat) returns (r: Result<(), Panic>)
      modifies this
      ensures r.Ok? <==> old(frames) != []
      ensures r.Ok? ==> frames == WithTop(old(frames), Top(old(frames)).(progCounter := pc)) && GetPc() == Ok(pc)
      ensures r.Err? ==> frames == old(frames)
      ensures Registry() == old(Registry())
    {
      if frames == [] {
        return Err(NoFrame);
      }
      frames := WithTop(frames, Top(frames).(progCounter := pc));
      return Ok(());
    }

    /** `jump_pc`: `(pc as isize + delta) as usize`. */
    method JumpPc(delta: int) returns (r: Result<(), Panic>)
      modifies this
      ensures r.Ok? <==> old(frames) != []
      ensures r.Ok? ==> frames == WithTop(old(frames), Top(old(frames)).(progCounter := AsUsize(Top(old(frames)).progCounter + delta)))
      ensures r.Err? ==> frames == old(frames)
      ensures Registry() == old(Registry())
    {
      if frames == [] {
        return Err(NoFrame);
      }
      var pc := Top(frames).progCounter;
      frames := WithTop(frames, Top(frames).(progCounter := AsUsize(pc + delta)));
      return Ok(());
    }

    /** `raise_exception`: records the exception on the current frame. */
    method RaiseException(exception: Addr) returns (r: Result<(), Panic>)
      modifies this
      ensures r.Ok? <==> old(frames) != []
      ensures r.Ok? ==> frames == WithTop(old(frames), Top(old(frames)).(exception := Some(exception)))
      ensures r.Err? ==> frames == old(frames)
      ensures Registry() == old(Registry())
    {
      if frames == [] {
        return Err(NoFrame);
      }
      frames := WithTop(frames, Top(frames).(exception := Some(exception)));
      return Ok(());
    }

    /** `get_current_exception`. */
    function CurrentException(): (r: Result<Option<Addr>, Panic>)
      reads this
      ensures r.Ok? <==> frames != []
      ensures r.Ok? ==> r.value == Top(frames).exception
    {
      if frames == [] then Err(NoFrame) else Ok(Top(frames).exception)
    }

    // --- calls ---

    /** The frame `run_function` sets up for a user function: a new frame
        named after it, the bound object in slot 0 if there is one, and
        the arguments in the following slots, in order. */
    method EnterUserFunction(name: string, bound: Option<Addr>, args: seq<Addr>)
      modifies this
      ensures frames == old(frames) + [NewFrame(name).(locals := EntryLocals(bound, args))]
      ensures Registry() == old(Registry())
    {
      NewStackFrame(name);
      var first := 0;
      assert old(frames) + [NewFrame(name)] == old(frames) + [NewFrame(name).(locals := [])];
      if bound.Some? {
        AppendLocal(name, old(frames), [], 0, bound.value);
        first := 1;
      }
      assert args[..0] == [];
      assert EntryLocals(bound, args[..0]) == if bound.Some? then [] + [bound.value] else [];
      var i := 0;
      while i < |args|
        invariant 0 <= i <= |args|
        invariant frames == old(frames) + [NewFrame(name).(locals := EntryLocals(bound, args[..i]))]
        invariant first == |EntryLocals(bound, [])|
        invariant Registry() == old(Registry())
      {
        assert EntryLocals(bound, args[..i + 1]) == EntryLocals(bound, args[..i]) + [args[i]];
        AppendLocal(name, old(frames), EntryLocals(bound, args[..i]), first + i, args[i]);
        i := i + 1;
      }
      assert args[..|args|] == args;
    }

    /** One binding of the argument loop: the next slot of the fresh
        frame receives the next argument. */
    method AppendLocal(ghost name: string, ghost below: seq<StackFrame>, ghost locals: seq<Addr>, slot: nat, a: Addr)
      requires slot == |locals|
      requires frames == below + [NewFrame(name).(locals := locals)]
      modifies this
      ensures frames == below + [NewFrame(name).(locals := locals + [a])]
      ensures Registry() == old(Registry())
    {
      assert BindIn(locals, slot, a) == locals + [a];
      var _ := BindLocal(slot, a);
      assert frames == below + [NewFrame(name).(locals := locals + [a])];
    }

    /** The end of `run_function`: the top of the callee's stack is the
        result; its count is increased so that it survives the pop of the
        callee's frame, which decreases every value on that frame. */
    method ReturnFromCall() returns (r: Result<(Addr, StackFrame), Panic>)
      modifies this, memory
      ensures r.Ok? ==> old(frames) != [] && Top(old(frames)).stack != [] &&
                        r.value.0 == Top(old(frames)).stack[|Top(old(frames)).stack| - 1] &&
                        r.value.1 == Top(old(frames)) &&
                        frames == old(frames)[..|old(frames)| - 1] &&
                        IncreaseIn(old(memory.State()), r.value.0).Ok? &&
                        DecreaseAll(IncreaseIn(old(memory.State()), r.value.0).value, Top(old(frames)).stack).Ok? &&
                        memory.State() == DecreaseAll(IncreaseIn(old(memory.State()), r.value.0).value, Top(old(frames)).stack).value
      ensures old(frames) == [] || Top(old(frames)).stack == [] ==> r.Err?
      ensures old(Valid()) ==> Valid()
      ensures Registry() == old(Registry())
    {
      var result := TopStack();
      if result.Err? {
        return Err(result.error);
      }
      var inc := IncreaseRefcount(memory, result.value);
      if inc.Err? {
        return Err(inc.error);
      }
      var popped := PopStackFrame();
      if popped.Err? {
        return Err(popped.error);
      }
      return Ok((result.value, popped.value));
    }

    // --- heap, types and modules ---

    /** `get_refcount`. */
    function GetRefcount(a: Addr): (r: Result<int, Panic>)
      reads this, memory
      ensures r == RefcountIn(memory.State(), a)
    {
      RefcountIn(memory.State(), a)
    }

    /** `get_method_addr_byname`, over `functions`. */
    function GetMethodAddrByName(t: Addr, name: string): (r: Result<Option<Addr>, Panic>)
      reads this, memory
      ensures r == MethodLookup(memory.State(), t, name, Functions, |memory.heap|)
    {
      ObjectSpace.GetMethodAddrByName(memory, t, name, Functions)
    }

    /** `call_method`: the method found runs on this VM's heap, which is
        left as the callee leaves it; when there is no such method, or
        the lookup panics, nothing changes. */
    method CallMethod(receiver: Addr, name: string, params: seq<Addr>, run: Runner)
      returns (r: Result<Option<CallResult>, Panic>)
      modifies memory
      ensures r == old(CallMethodIn(memory.State(), receiver, name, params, run))
      ensures r.Ok? && r.value.Some? ==> memory.State() == r.value.value.mem
      ensures !(r.Ok? && r.value.Some?) ==> memory.State() == old(memory.State())
      ensures old(Valid()) ==> Valid()
    {
      r := CallMethodIn(memory.State(), receiver, name, params, run);
      if r.Ok? && r.value.Some? {
        memory.Replace(r.value.value.mem);
      }
    }

    /** `find_module`. */
    function FindModule(name: string): (r: Option<Addr>)
      reads this
      ensures r.Some? <==> name in modules
      ensures r.Some? ==> r.value == modules[name]
    {
      if name in modules then Some(modules[name]) else None
    }

    /** `find_in_module`. */
    function FindInModule(moduleName: string, name: string): (r: Result<Option<Addr>, Panic>)
      reads this, memory
      ensures r == FindInModuleIn(memory.State(), modules, moduleName, name)
    {
      FindInModuleIn(memory.State(), modules, moduleName, name)
    }

    /** `create_type`: a type of type `type`. */
    method CreateType(moduleName: string, name: string, supertype: Option<Addr>) returns (r: Result<Addr, Panic>)
      modifies memory
      ensures TypeValue !in specialValues ==> r == Err(MissingSpecialValue) && memory.State() == old(memory.State())
      ensures TypeValue in specialValues ==>
                (r.Ok? <==> CreateTypeIn(old(memory.State()), modules, specialValues[TypeValue], moduleName, name, supertype).Ok?)
      ensures TypeValue in specialValues && r.Ok? ==>
                (memory.State(), r.value) == CreateTypeIn(old(memory.State()), modules, specialValues[TypeValue], moduleName, name, supertype).value
      ensures old(Valid()) ==> Valid()
    {
      if TypeValue !in specialValues {
        return Err(MissingSpecialValue);
      }
      r := ObjectSpace.CreateType(memory, modules, specialValues[TypeValue], moduleName, name, supertype);
    }

    /** `add_to_module`. */
    method AddToModule(moduleName: string, name: string, addr: Addr) returns (r: Result<(), Panic>)
      modifies memory
      ensures r.Ok? <==> AddToModuleIn(old(memory.State()), modules, moduleName, name, addr).Ok?
      ensures r.Ok? ==> memory.State() == AddToModuleIn(old(memory.State()), modules, moduleName, name, addr).value
      ensures r.Err? ==> memory.State() == old(memory.State())
      ensures old(Valid()) ==> Valid()
    {
      r := ObjectSpace.AddToModule(memory, modules, moduleName, name, addr);
    }

    /** `register_method_addr_on_type`: into the type's `functions`; a
        non-type panics. */
    method RegisterMethodAddrOnType(t: Addr, name: string, callable: Addr) returns (r: Result<(), Panic>)
      modifies memory
      ensures r.Ok? <==> RegisterIn(old(memory.State()), t, name, callable, Functions).Ok?
      ensures r.Ok? ==> memory.State() == RegisterIn(old(memory.State()), t, name, callable, Functions).value
      ensures r.Ok? ==> GetMethodAddrByName(t, name) == Ok(Some(callable))
      ensures r.Err? ==> memory.State() == old(memory.State())
      ensures old(Valid()) ==> Valid()
    {
      if RegisterIn(memory.State(), t, name, callable, Functions).Ok? && WellFormed(memory.State()) {
        RegisterSpec(memory.State(), t, name, callable, Functions, |memory.heap|);
      }
      r := Register(memory, t, name, callable, Functions);
    }
  }
}
