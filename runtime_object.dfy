/*
 * The `Runtime` object of src/runtime/runtime.rs, the generation before
 * `VM`: the same frame stack, heap, special values and module table, plus
 * the `builtin_names` vector; method lookups consult a type's `methods`
 * rather than its `functions`.
 *
 * A native callable's code is outside the model: `call_method` takes
 * running it as a parameter, which is given the heap and gives back the
 * heap it leaves and the address it returns.
 */
module PyRuntime {

  import opened Wrappers
  import opened RuntimeDataModel
  import opened UnsafeMemory
  import opened Frames
  import opened ObjectSpace

  /** A native callable as `create_callable_pyobj` writes it. */
  function CallableObject(callableType: Addr, code: NativeCode, name: string): PyObject
  {
    PyObject(callableType, NativeCallable(code, Some(name), false), map[], false)
  }

  /** Native code keeps a well-formed heap well formed, as every
      operation of the runtime does. */
  ghost predicate NativeKeepsWellFormed(native: (MemState, NativeCode, Option<Addr>, seq<Addr>) -> Outcome)
  {
    forall m, code, bound, args :: WellFormed(m) ==> WellFormed(native(m, code, bound, args).mem)
  }

  /** Running a native callable's code on the heap, the bound object and
      the arguments. */
  type NativeRunner = native: (MemState, NativeCode, Option<Addr>, seq<Addr>) -> Outcome | NativeKeepsWellFormed(native)
    witness (m: MemState, code: NativeCode, bound: Option<Addr>, args: seq<Addr>) => Outcome(m, NULL)

  /** `call_method` on a heap: nothing when the receiver's type chain has
      no such method in `methods`; otherwise `callable_call` on the method
      found, with the receiver bound, which panics unless it is a native
      callable, and otherwise gives the heap the native code leaves and
      the address it returns. */
  function CallNativeMethodIn(m: MemState, receiver: Addr, name: string, params: seq<Addr>,
                              native: NativeRunner): (r: Result<Option<Outcome>, Panic>)
    ensures r.Ok? ==> Readable(m, receiver)
    ensures r.Ok? ==> (r.value.None? <==> MethodLookup(m, m.heap[receiver].typeAddr, name, Methods, |m.heap|) == Ok(None))
    ensures r.Ok? && r.value.Some? ==>
              exists ma :: MethodLookup(m, m.heap[receiver].typeAddr, name, Methods, |m.heap|) == Ok(Some(ma)) &&
                           Readable(m, ma) && m.heap[ma].structure.NativeCallable? &&
                           r.value.value == native(m, m.heap[ma].structure.code, Some(receiver), params)
  {
    var obj :- GetIn(m, receiver);
    var found :- MethodLookup(m, obj.typeAddr, name, Methods, |m.heap|);
    if found.None? then Ok(None)
    else
      var callee :- GetIn(m, found.value);
      if callee.structure.NativeCallable? then Ok(Some(native(m, callee.structure.code, Some(receiver), params)))
      else Err(NotCallable(found.value))
  }

  class Runtime {
    /** `stack`: the frame stack, the current frame last. */
    var frames: seq<StackFrame>
    const memory: UnsafeMemory
    var builtinTypeAddrs: BuiltinTypeAddresses
    var specialValues: map<SpecialValue, Addr>
    var modules: map<string, Addr>
    var builtinNames: seq<Addr>

    /** Everything but the frames and the heap. */
    function Registry(): (BuiltinTypeAddresses, map<SpecialValue, Addr>, map<string, Addr>, seq<Addr>)
      reads this
    {
      (builtinTypeAddrs, specialValues, modules, builtinNames)
    }

    ghost predicate Valid()
      reads this, memory
    {
      memory.Valid()
    }

    /** `Runtime::new`: one `__main__` frame; the type of types, the types
        `NoneType`, `NotImplemented`, `StopIteration`, `function` and
        `module` with the single values of the first three, all made
        const; every special value recorded; and the builtin and main
        modules registered, both empty. Unlike `VM::new`, no type is
        bound in the builtin module. */
    constructor ()
      ensures Valid() && fresh(memory)
      ensures frames == [NewFrame(MAIN_MODULE)]
      ensures builtinTypeAddrs == NullTypeAddresses && builtinNames == []
      ensures modules.Keys == {BUILTIN_MODULE, MAIN_MODULE}
      ensures forall v: SpecialValue :: v in specialValues
      ensures forall n :: FindInModuleIn(memory.State(), modules, BUILTIN_MODULE, n) == Ok(None)
      ensures forall n :: FindInModuleIn(memory.State(), modules, MAIN_MODULE, n) == Ok(None)
    {
      frames := [NewFrame(MAIN_MODULE)];
      memory := new UnsafeMemory();
      builtinTypeAddrs := NullTypeAddresses;
      specialValues := map[];
      modules := map[];
      builtinNames := [];
      new;
      var typeType, noneType, noneValue, notImplementedType, notImplementedValue,
          stopIterationType, stopIterationValue, callableType, moduleType := AllocateTypes();
      var mainModule := InstallModules(moduleType);

      // The builtin module itself is not made const.
      MakeConstants([typeType, noneType, noneValue, notImplementedType, notImplementedValue,
                     stopIterationType, stopIterationValue, callableType, moduleType, mainModule]);

      specialValues := map[TypeValue := typeType, NoneType := noneType, NoneValue := noneValue,
                           NotImplementedType := notImplementedType, NotImplementedValue := notImplementedValue,
                           StopIterationType := stopIterationType, StopIterationValue := stopIterationValue,
                           CallableType := callableType, ModuleType := moduleType];
      forall v: SpecialValue
        ensures v in specialValues
      {
        match v
        case TypeValue =>
        case NoneType =>
        case NoneValue =>
        case NotImplementedType =>
        case NotImplementedValue =>
        case StopIterationType =>
        case StopIterationValue =>
        case CallableType =>
        case ModuleType =>
      }
    }

    /** The allocations at the start of `Runtime::new`, in the source's
        order. */
    method AllocateTypes()
      returns (typeType: Addr, noneType: Addr, noneValue: Addr, notImplementedType: Addr, notImplementedValue: Addr,
               stopIterationType: Addr, stopIterationValue: Addr, callableType: Addr, moduleType: Addr)
      requires Valid()
      modifies memory
      ensures Valid()
    {
      typeType := memory.AllocateAndWrite(PyObject(NULL, Type("type", map[], map[], None), map[], false));
      noneType := memory.AllocateAndWrite(PyObject(typeType, Type("NoneType", map[], map[], None), map[], false));
      noneValue := memory.AllocateAndWrite(PyObject(noneType, NoneObj, map[], false));
      notImplementedType := memory.AllocateAndWrite(PyObject(typeType, Type("NotImplemented", map[], map[], None), map[], false));
      notImplementedValue := memory.AllocateAndWrite(PyObject(notImplementedType, NotImplementedObj, map[], false));
      stopIterationType := memory.AllocateAndWrite(PyObject(typeType, Type("StopIteration", map[], map[], None), map[], false));
      // The source gives the StopIteration value a NotImplemented structure.
      stopIterationValue := memory.AllocateAndWrite(PyObject(stopIterationType, NotImplementedObj, map[], false));
      callableType := memory.AllocateAndWrite(PyObject(typeType, Type("function", map[], map[], None), map[], false));
      moduleType := memory.AllocateAndWrite(PyObject(typeType, Type("module", map[], map[], None), map[], false));
    }

    /** The builtin and main modules of `Runtime::new`, registered with
        nothing bound in them. */
    method InstallModules(moduleType: Addr) returns (mainModule: Addr)
      requires Valid() && modules == map[]
      modifies this, memory
      ensures Valid() && frames == old(frames) && builtinTypeAddrs == old(builtinTypeAddrs)
      ensures specialValues == old(specialValues) && builtinNames == old(builtinNames)
      ensures modules.Keys == {BUILTIN_MODULE, MAIN_MODULE} && modules[MAIN_MODULE] == mainModule
      ensures forall n :: FindInModuleIn(memory.State(), modules, BUILTIN_MODULE, n) == Ok(None)
      ensures forall n :: FindInModuleIn(memory.State(), modules, MAIN_MODULE, n) == Ok(None)
    {
      var builtinModule := memory.AllocateAndWrite(PyObject(moduleType, Module(BUILTIN_MODULE, map[]), map[], false));
      mainModule := memory.AllocateAndWrite(PyObject(moduleType, Module(MAIN_MODULE, map[]), map[], false));
      modules := modules[BUILTIN_MODULE := builtinModule];
      modules := modules[MAIN_MODULE := mainModule];
    }

    /** `make_const`. */
    method MakeConst(a: Addr) returns (r: Result<(), Panic>)
      modifies memory
      ensures r.Ok? <==> old(a !in memory.recentlyDeallocatedAddr && a in memory.heap)
      ensures r.Ok? ==> memory.State() == MakeConstIn(old(memory.State()), a).value
      ensures r.Err? ==> memory.State() == old(memory.State())
      ensures old(Valid()) ==> Valid()
    {
      r := memory.MakeConst(a);
    }

    /** The run of `make_const` calls in `Runtime::new`, one per address in
        order; no name of any module changes. */
    method MakeConstants(addrs: seq<Addr>)
      requires Valid()
      modifies memory
      ensures Valid()
      ensures forall mn, n :: FindInModuleIn(memory.State(), modules, mn, n) == old(FindInModuleIn(memory.State(), modules, mn, n))
    {
      var i := 0;
      while i < |addrs|
        invariant 0 <= i <= |addrs| && Valid()
        invariant forall mn, n :: FindInModuleIn(memory.State(), modules, mn, n) == old(FindInModuleIn(memory.State(), modules, mn, n))
      {
        MakeConstKeepsModules(memory.State(), addrs[i], modules);
        var _ := MakeConst(addrs[i]);
        i := i + 1;
      }
    }

    // --- frames, operand stack and program counter ---

    /** `new_stack_frame`. */
    method NewStackFrame(name: string)
      modifies this
      ensures frames == old(frames) + [NewFrame(name)]
      ensures Registry() == old(Registry())
    {
      frames := frames + [NewFrame(name)];
    }

    /** `pop_stack`. */
    method PopStack() returns (r: Result<Addr, Panic>)
      modifies this
      ensures r.Ok? <==> PopFrom(old(frames)).Ok?
      ensures r.Ok? ==> (frames, r.value) == PopFrom(old(frames)).value
      ensures r.Err? ==> frames == old(frames)
      ensures Registry() == old(Registry())
    {
      if frames == [] {
        return Err(NoFrame);
      }
      var top := Top(frames);
      if top.stack == [] {
        return Err(EmptyStack);
      }
      var v := top.stack[|top.stack| - 1];
      frames := WithTop(frames, top.(stack := top.stack[..|top.stack| - 1]));
      return Ok(v);
    }

    /** `push_onto_stack`. */
    method PushOntoStack(v: Addr) returns (r: Result<(), Panic>)
      modifies this
      ensures r.Ok? <==> old(frames) != []
      ensures r.Ok? ==> frames == PushOn(old(frames), v).value
      ensures r.Err? ==> frames == old(frames)
      ensures Registry() == old(Registry())
    {
      if frames == [] {
        return Err(NoFrame);
      }
      var top := Top(frames);
      frames := WithTop(frames, top.(stack := top.stack + [v]));
      return Ok(());
    }

    /** `get_stack_offset`. */
    function GetStackOffset(offset: int): (r: Result<Addr, Panic>)
      reads this
      ensures frames == [] ==> r == Err(NoFrame)
      ensures frames != [] ==> r == StackOffsetIn(Top(frames).stack, offset)
    {
      if frames == [] then Err(NoFrame) else StackOffsetIn(Top(frames).stack, offset)
    }

    /** `top_stack`: the last value pushed onto the current frame. */
    function TopStack(): (r: Result<Addr, Panic>)
      reads this
      ensures r.Ok? <==> frames != [] && Top(frames).stack != []
      ensures r.Ok? ==> r.value == Top(frames).stack[|Top(frames).stack| - 1]
      ensures r.Ok? ==> PopFrom(frames).Ok? && PopFrom(frames).value.1 == r.value
    {
      GetStackOffset(0)
    }

    /** `pop_stack_frame`: the frame is removed and every value left on
        its operand stack has its reference count decreased, bottom first;
        no frame panics. */
    method PopStackFrame() returns (r: Result<(), Panic>)
      modifies this, memory
      ensures r.Ok? <==> old(frames) != [] && DecreaseAll(old(memory.State()), Top(old(frames)).stack).Ok?
      ensures old(frames) != [] ==> frames == old(frames)[..|old(frames)| - 1]
      ensures r.Ok? ==> memory.State() == DecreaseAll(old(memory.State()), Top(old(frames)).stack).value
      ensures old(frames) == [] ==> frames == old(frames) && memory.State() == old(memory.State())
      ensures old(Valid()) ==> Valid()
      ensures Registry() == old(Registry())
    {
      if frames == [] {
        return Err(NoFrame);
      }
      var popped := Top(frames);
      frames := frames[..|frames| - 1];
      r := DecreaseEach(memory, popped.stack);
    }

    /** `clear_stacks`: every frame is popped, decreasing the reference
        count of every value on it, and a single fresh `__main__` frame
        is left. */
    method ClearStacks() returns (r: Result<(), Panic>)
      modifies this, memory
      ensures r.Ok? <==> DecreaseAll(old(memory.State()), StacksTopDown(old(frames))).Ok?
      ensures r.Ok? ==> frames == [NewFrame(MAIN_MODULE)] &&
                        memory.State() == DecreaseAll(old(memory.State()), StacksTopDown(old(frames))).value
      ensures old(Valid()) ==> Valid()
      ensures Registry() == old(Registry())
    {
      while frames != []
        invariant DecreaseAll(old(memory.State()), StacksTopDown(old(frames))) ==
                  DecreaseAll(memory.State(), StacksTopDown(frames))
        invariant old(Valid()) ==> Valid()
        invariant Registry() == old(Registry())
        decreases |frames|
      {
        var popped := Top(frames);
        frames := frames[..|frames| - 1];
        DecreaseAllAppend(memory.State(), popped.stack, StacksTopDown(frames));
        var d := DecreaseEach(memory, popped.stack);
        if d.Err? {
          return Err(d.error);
        }
      }
      NewStackFrame(MAIN_MODULE);
      return Ok(());
    }

    /** `bind_local`. */
    method BindLocal(name: nat, addr: Addr) returns (r: Result<(), Panic>)
      modifies this
      ensures r.Ok? <==> old(frames) != []
      ensures r.Ok? ==> frames == WithTop(old(frames), Top(old(frames)).(locals := BindIn(Top(old(frames)).locals, name, addr)))
      ensures r.Err? ==> frames == old(frames)
      ensures Registry() == old(Registry())
    {
      if frames == [] {
        return Err(NoFrame);
      }
      var top := Top(frames);
      var slots := PadAndBind(top.locals, name, addr);
      frames := WithTop(frames, top.(locals := slots));
      return Ok(());
    }

    /** `get_local`. */
    function GetLocal(name: nat): (r: Result<Option<Addr>, Panic>)
      reads this
      ensures r.Ok? <==> frames != []
      ensures r.Ok? ==> r.value == GetLocalIn(Top(frames).locals, name)
    {
      if frames == [] then Err(NoFrame) else Ok(GetLocalIn(Top(frames).locals, name))
    }

    /** `get_pc`. */
    function GetPc(): (r: Result<nat, Panic>)
      reads this
      ensures r.Ok? <==> frames != []
      ensures r.Ok? ==> r.value == Top(frames).progCounter
    {
      if frames == [] then Err(NoFrame) else Ok(Top(frames).progCounter)
    }

    /** `set_pc`. */
    method SetPc(pc: nat) returns (r: Result<(), Panic>)
      modifies this
      ensures r.Ok? <==> old(frames) != []
      ensures r.Ok? ==> frames == WithTop(old(frames), Top(old(frames)).(progCounter := pc)) && GetPc() == Ok(pc)
      ensures r.Err? ==> frames == old(frames)
      ensures Registry() == old(Registry())
    {
      if frames == [] {
        return Err(NoFrame);
      }
      frames := WithTop(frames, Top(frames).(progCounter := pc));
      return Ok(());
    }

    /** `jump_pc`: `(pc as isize + delta) as usize`. */
    method JumpPc(delta: int) returns (r: Result<(), Panic>)
      modifies this
      ensures r.Ok? <==> old(frames) != []
      ensures r.Ok? ==> frames == WithTop(old(frames), Top(old(frames)).(progCounter := AsUsize(Top(old(frames)).progCounter + delta)))
      ensures r.Err? ==> frames == old(frames)
      ensures Registry() == old(Registry())
    {
      if frames == [] {
        return Err(NoFrame);
      }
      var pc := Top(frames).progCounter;
      frames := WithTop(frames, Top(frames).(progCounter := AsUsize(pc + delta)));
      return Ok(());
    }

    /** `raise_exception`: records the exception on the current frame. */
    method RaiseException(exception: Addr) returns (r: Result<(), Panic>)
      modifies this
      ensures r.Ok? <==> old(frames) != []
      ensures r.Ok? ==> frames == WithTop(old(frames), Top(old(frames)).(exception := Some(exception)))
      ensures r.Err? ==> frames == old(frames)
      ensures Registry() == old(Registry())
    {
      if frames == [] {
        return Err(NoFrame);
      }
      frames := WithTop(frames, Top(frames).(exception := Some(exception)));
      return Ok(());
    }

    // --- heap, types and modules ---

    /** `get_refcount`. */
    function GetRefcount(a: Addr): (r: Result<int, Panic>)
      reads this, memory
      ensures r == RefcountIn(memory.State(), a)
    {
      RefcountIn(memory.State(), a)
    }

    /** `increase_refcount`. */
    method IncreaseRefcount(a: Addr) returns (r: Result<(), Panic>)
      modifies memory
      ensures r.Ok? <==> old(Readable(memory.State(), a))
      ensures r.Ok? ==> memory.State() == IncreaseIn(old(memory.State()), a).value
      ensures r.Err? ==> memory.State() == old(memory.State())
      ensures old(Valid()) ==> Valid()
    {
      r := ObjectSpace.IncreaseRefcount(memory, a);
    }

    /** `decrease_refcount`. */
    method DecreaseRefcount(a: Addr) returns (r: Result<(), Panic>)
      modifies memory
      ensures r.Ok? <==> old(Readable(memory.State(), a))
      ensures r.Ok? ==> memory.State() == DecreaseIn(old(memory.State()), a).value
      ensures r.Err? ==> memory.State() == old(memory.State())
      ensures old(Valid()) ==> Valid()
    {
      r := ObjectSpace.DecreaseRefcount(memory, a);
    }

    /** `get_method_addr_byname`, over `methods`. */
    function GetMethodAddrByName(t: Addr, name: string): (r: Result<Option<Addr>, Panic>)
      reads this, memory
      ensures r == MethodLookup(memory.State(), t, name, Methods, |memory.heap|)
    {
      ObjectSpace.GetMethodAddrByName(memory, t, name, Methods)
    }

    /** `call_method`: the native code found runs on this runtime's heap,
        which is left as the code leaves it; when there is no such
        method, or the lookup panics, nothing changes. */
    method CallMethod(receiver: Addr, name: string, params: seq<Addr>, native: NativeRunner)
      returns (r: Result<Option<Outcome>, Panic>)
      modifies memory
      ensures r == old(CallNativeMethodIn(memory.State(), receiver, name, params, native))
      ensures r.Ok? && r.value.Some? ==> memory.State() == r.value.value.mem
      ensures !(r.Ok? && r.value.Some?) ==> memory.State() == old(memory.State())
      ensures old(Valid()) ==> Valid()
    {
      r := CallNativeMethodIn(memory.State(), receiver, name, params, native);
      if r.Ok? && r.value.Some? {
        memory.Replace(r.value.value.mem);
      }
    }

    /** `find_module`. */
    function FindModule(name: string): (r: Option<Addr>)
      reads this
      ensures r.Some? <==> name in modules
      ensures r.Some? ==> r.value == modules[name]
    {
      if name in modules then Some(modules[name]) else None
    }

    /** `find_in_module`. */
    function FindInModule(moduleName: string, name: string): (r: Result<Option<Addr>, Panic>)
      reads this, memory
      ensures r == FindInModuleIn(memory.State(), modules, moduleName, name)
    {
      FindInModuleIn(memory.State(), modules, moduleName, name)
    }

    /** `create_type`: a type of type `type`; a name already bound in the
        module panics. */
    method CreateType(moduleName: string, name: string, supertype: Option<Addr>) returns (r: Result<Addr, Panic>)
      modifies memory
      ensures TypeValue !in specialValues ==> r == Err(MissingSpecialValue) && memory.State() == old(memory.State())
      ensures TypeValue in specialValues ==>
                (r.Ok? <==> CreateTypeIn(old(memory.State()), modules, specialValues[TypeValue], moduleName, name, supertype).Ok?)
      ensures TypeValue in specialValues && r.Ok? ==>
                (memory.State(), r.value) == CreateTypeIn(old(memory.State()), modules, specialValues[TypeValue], moduleName, name, supertype).value
      ensures old(Valid()) ==> Valid()
    {
      if TypeValue !in specialValues {
        return Err(MissingSpecialValue);
      }
      r := ObjectSpace.CreateType(memory, modules, specialValues[TypeValue], moduleName, name, supertype);
    }

    /** `add_to_module`: a name already bound in the module panics. */
    method AddToModule(moduleName: string, name: string, addr: Addr) returns (r: Result<(), Panic>)
      modifies memory
      ensures r.Ok? <==> AddToModuleIn(old(memory.State()), modules, moduleName, name, addr).Ok?
      ensures r.Ok? ==> memory.State() == AddToModuleIn(old(memory.State()), modules, moduleName, name, addr).value
      ensures r.Err? ==> memory.State() == old(memory.State())
      ensures old(Valid()) ==> Valid()
    {
      r := ObjectSpace.AddToModule(memory, modules, moduleName, name, addr);
    }

    /** `create_callable_pyobj`: a native callable of the callable type,
        named. */
    method CreateCallablePyobj(code: NativeCode, name: string) returns (r: Result<Addr, Panic>)
      modifies memory
      ensures CallableType !in specialValues <==> r.Err?
      ensures r.Err? ==> r == Err(MissingSpecialValue) && memory.State() == old(memory.State())
      ensures r.Ok? ==> (memory.State(), r.value) == AllocateIn(old(memory.State()), CallableObject(specialValues[CallableType], code, name))
      ensures old(Valid()) ==> Valid()
    {
      if CallableType !in specialValues {
        return Err(MissingSpecialValue);
      }
      var f := memory.AllocateAndWrite(CallableObject(specialValues[CallableType], code, name));
      return Ok(f);
    }

    /** `register_bounded_func_on_addr`: a new native callable bound under
        `name` in the type's `methods`, where `get_method_addr_byname`
        finds it; a non-type panics. Returns the callable's address. */
    method RegisterBoundedFuncOnAddr(t: Addr, name: string, code: NativeCode) returns (r: Result<Addr, Panic>)
      requires Valid()
      modifies memory
      ensures Valid()
      ensures r.Ok? <==> CallableType in specialValues && old(Readable(memory.State(), t) && memory.heap[t].structure.Type?)
      ensures r.Ok? ==> memory.Get(r.value) == Ok(CallableObject(specialValues[CallableType], code, name))
      ensures r.Ok? ==> GetMethodAddrByName(t, name) == Ok(Some(r.value))
      ensures r.Ok? ==> Entries(memory.heap[t].structure, Functions) == old(Entries(memory.heap[t].structure, Functions))
      ensures r.Ok? ==> r.value != t && !old(Readable(memory.State(), r.value))
      ensures r.Ok? ==> memory.heap[t] == old(memory.heap[t]).(structure := WithEntry(old(memory.heap[t].structure), Methods, name, r.value))
      ensures r.Ok? ==> forall b :: b != t && old(Readable(memory.State(), b)) ==> GetIn(memory.State(), b) == old(GetIn(memory.State(), b))
    {
      var created := CreateCallablePyobj(code, name);
      if created.Err? {
        return Err(created.error);
      }
      var f := created.value;
      ghost var m := memory.State();
      if Readable(m, t) && m.heap[t].structure.Type? {
        RegisterSpec(m, t, name, f, Methods, |memory.heap|);
      }
      var reg := Register(memory, t, name, f, Methods);
      if reg.Err? {
        return Err(reg.error);
      }
      return Ok(f);
    }

    /** `register_bounded_func`: the type is looked up by name in the
        module first; a missing type panics. */
    method RegisterBoundedFunc(moduleName: string, typeName: string, name: string, code: NativeCode) returns (r: Result<Addr, Panic>)
      requires Valid()
      modifies memory
      ensures Valid()
      ensures r.Ok? ==> old(FindInModuleIn(memory.State(), modules, moduleName, typeName)).Ok? &&
                        old(FindInModuleIn(memory.State(), modules, moduleName, typeName)).value.Some?
      ensures r.Ok? ==> var t := old(FindInModuleIn(memory.State(), modules, moduleName, typeName)).value.value;
                        GetMethodAddrByName(t, name) == Ok(Some(r.value)) &&
                        CallableType in specialValues &&
                        GetIn(memory.State(), r.value) == Ok(CallableObject(specialValues[CallableType], code, name)) &&
                        old(Readable(memory.State(), t) && memory.heap[t].structure.Type?) &&
                        r.value != t && !old(Readable(memory.State(), r.value)) &&
                        Readable(memory.State(), t) && memory.State().heap[t] == old(memory.State().heap[t]).(structure := WithEntry(old(memory.State().heap[t].structure), Methods, name, r.value)) &&
                        (forall b :: b != t && old(Readable(memory.State(), b)) ==> GetIn(memory.State(), b) == old(GetIn(memory.State(), b)))
      ensures old(FindInModuleIn(memory.State(), modules, moduleName, typeName)) == Ok(None) ==>
                r == Err(NameMissing(typeName)) && memory.State() == old(memory.State())
      ensures (CallableType in specialValues &&
               old(var found := FindInModuleIn(memory.State(), modules, moduleName, typeName);
                   found.Ok? && found.value.Some? && Readable(memory.State(), found.value.value) &&
                   memory.heap[found.value.value].structure.Type?)) ==> r.Ok?
    {
      var found := FindInModule(moduleName, typeName);
      if found.Err? {
        return Err(found.error);
      }
      if found.value.None? {
        return Err(NameMissing(typeName));
      }
      r := RegisterBoundedFuncOnAddr(found.value.value, name, code);
    }

    /** `register_type_unbounded_func`: a new native callable bound under
        `name` in the `functions` of the type found by name in the
        module; the type's `methods`, which lookups consult, are left as
        they were. The callable is created before the type is looked up.
        Returns the callable's address. */
    method RegisterTypeUnboundedFunc(moduleName: string, typeName: string, name: string, code: NativeCode)
      returns (r: Result<Addr, Panic>)
      requires Valid()
      modifies memory
      ensures Valid()
      ensures r.Ok? ==> CallableType in specialValues &&
                        memory.Get(r.value) == Ok(CallableObject(specialValues[CallableType], code, name))
      ensures r.Ok? ==> old(FindInModuleIn(memory.State(), modules, moduleName, typeName)).Ok? &&
                        old(FindInModuleIn(memory.State(), modules, moduleName, typeName)).value.Some?
      ensures r.Ok? ==> var t := old(FindInModuleIn(memory.State(), modules, moduleName, typeName)).value.value;
                        old(Readable(memory.State(), t) && memory.heap[t].structure.Type?) &&
                        r.value != t && !old(Readable(memory.State(), r.value)) &&
                        Readable(memory.State(), t) &&
                        memory.State().heap[t] == old(memory.State().heap[t]).(structure := WithEntry(old(memory.State().heap[t].structure), Functions, name, r.value)) &&
                        Entries(memory.heap[t].structure, Methods) == old(Entries(memory.heap[t].structure, Methods)) &&
                        (forall b :: b != t && old(Readable(memory.State(), b)) ==> GetIn(memory.State(), b) == old(GetIn(memory.State(), b)))
      ensures (CallableType in specialValues &&
               old(var found := FindInModuleIn(memory.State(), modules, moduleName, typeName);
                   found.Ok? && found.value.Some? && Readable(memory.State(), found.value.value) &&
                   memory.heap[found.value.value].structure.Type?)) ==> r.Ok?
    {
      ghost var m0 := memory.State();
      var created := CreateCallablePyobj(code, name);
      if created.Err? {
        return Err(created.error);
      }
      var f := created.value;
      ghost var m1 := memory.State();
      AllocateKeepsModules(m0, CallableObject(specialValues[CallableType], code, name), modules);
      var found := FindInModule(moduleName, typeName);
      if found.Err? {
        return Err(found.error);
      }
      if found.value.None? {
        return Err(NameMissing(typeName));
      }
      var t := found.value.value;
      if Readable(m1, t) && m1.heap[t].structure.Type? {
        RegisterSpec(m1, t, name, f, Functions, 0);
      }
      var reg := Register(memory, t, name, f, Functions);
      if reg.Err? {
        return Err(reg.error);
      }
      assert Readable(m0, t) && m0.heap[t] == m1.heap[t];
      return Ok(f);
    }

    /** `get_raw_data_of_pyobj`: the payload of a builtin object; anything
        else panics. */
    function GetRawDataOfPyobj(a: Addr): (r: Result<BuiltInTypeData, Panic>)
      reads this, memory
      ensures r.Ok? <==> Readable(memory.State(), a) && memory.heap[a].structure.Object?
      ensures r.Ok? ==> TryGetBuiltin(memory.heap[a]) == Some(r.value)
    {
      match memory.Get(a)
      case Err(e) => Err(e)
      case Ok(obj) => if obj.structure.Object? then Ok(obj.structure.rawData) else Err(NotAnObject(a))
    }
  }
}
