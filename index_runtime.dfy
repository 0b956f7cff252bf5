/*
 * The first runtime of the interpreter (src/runtime.rs): an index-based heap
 * of cells with a LIFO free list, and the `Interpreter` that owns it, a stack
 * of frames, the module table and the program counter.
 *
 * A cell holds a `Box<dyn Any>`; here that is the `Datum` datatype, whose
 * variants are the payloads the interpreter stores (Python objects, raw
 * `i128`/`f64` values, native callables, and the "uninitialized" marker).
 * Every `panic!`, failed `unwrap()` and out-of-range index is an `Err`
 * carrying a `RuntimeError`. The `RefCell`/`UnsafeCell` interior mutability
 * becomes plain `modifies` clauses.
 */
module IndexRuntime {

  import opened Wrappers

  const BUILTIN_MODULE: string := "__builtin__"

  datatype Structure =
    | NoneObj
    | NotImplementedObj
    | Object(rawData: nat)
    | Callable(code: nat, callableName: Option<string>)
    | Type(name: string, boundedFunctions: map<string, nat>, unboundedFunctions: map<string, nat>)
    | Module(name: string, objects: map<string, nat>)

  datatype PyObject = PyObject(typeAddr: nat, structure: Structure)

  /** What a `Box<dyn Any>` in a cell holds. A native callable is known by
      the identity of its code. */
  datatype Datum =
    | Uninitialized
    | Obj(obj: PyObject)
    | RawInt(i: int)
    | RawFloat(f: string)
    | RawCallable(code: nat)

  datatype Cell = Cell(data: Datum, valid: bool)

  datatype RuntimeError =
    | OutOfBounds(address: nat)
    | InvalidCell(address: nat)
    | DoubleFree(address: nat)
    | Occupied(address: nat)
    | ModuleMissing(moduleName: string)
    | NotInMemory(address: nat)
    | NotAModule(moduleName: string)
    | NameExists(moduleName: string, name: string)
    | TypeNotFound(name: string)
    | NotAType(address: nat)
    | NotAnObject(address: nat)
    | NotCallable(address: nat)
    | NoNativeCode(address: nat)
    | MethodMissing(name: string)
    | FunctionMissing(name: string)
    | LocalMissing(name: string)
    | NoFrame
    | EmptyStack
    | ArgumentCount(func: string, expected: nat, received: nat)

  function Last<T>(s: seq<T>): T
    requires s != []
  {
    s[|s| - 1]
  }

  function DropLast<T>(s: seq<T>): seq<T>
    requires s != []
  {
    s[..|s| - 1]
  }

  // ---------------------------------------------------------------------
  // Memory
  // ---------------------------------------------------------------------

  /** The contents of a `Memory`: its cells and its free list. */
  datatype Heap = Heap(cells: seq<Cell>, recentlyDeallocated: seq<nat>)

  /** The free list names exactly the invalid cells, each of them once. */
  ghost predicate FreeListExact(cells: seq<Cell>, free: seq<nat>)
  {
    (forall k :: 0 <= k < |free| ==> free[k] < |cells| && !cells[free[k]].valid) &&
    (forall i :: 0 <= i < |cells| && !cells[i].valid ==> i in free) &&
    (forall j, k :: 0 <= j < k < |free| ==> free[j] != free[k])
  }

  class Memory {
    var cells: seq<Cell>
    /** `recently_deallocated_indexes`, most recent last. */
    var recentlyDeallocated: seq<nat>

    ghost predicate Valid()
      reads this
    {
      FreeListExact(cells, recentlyDeallocated)
    }

    function State(): (h: Heap)
      reads this
      ensures h.cells == cells && h.recentlyDeallocated == recentlyDeallocated
    {
      Heap(cells, recentlyDeallocated)
    }

    /** The heap as native code that ran on this memory left it. */
    method Replace(h: Heap)
      modifies this
      ensures State() == h
      ensures Valid() <==> FreeListExact(h.cells, h.recentlyDeallocated)
    {
      cells := h.cells;
      recentlyDeallocated := h.recentlyDeallocated;
    }

    predicate Live(address: nat)
      reads this
    {
      address < |cells| && cells[address].valid
    }

    constructor ()
      ensures cells == [] && recentlyDeallocated == []
      ensures Valid()
    {
      cells := [];
      recentlyDeallocated := [];
    }

    /** `get`: the data of a valid cell; reading past the last cell or an
        invalid cell panics. */
    function Get(address: nat): (r: Result<Datum, RuntimeError>)
      reads this
      ensures r.Ok? <==> Live(address)
    {
      if address >= |cells| then Err(OutOfBounds(address))
      else if !cells[address].valid then Err(InvalidCell(address))
      else Ok(cells[address].data)
    }

    /** `write`: replaces the data of a valid cell, and panics exactly where
        `get` would. */
    method Write(address: nat, data: Datum) returns (r: Result<(), RuntimeError>)
      modifies this
      ensures r.Ok? <==> old(Live(address))
      ensures cells == if r.Ok? then old(cells)[address := Cell(data, true)] else old(cells)
      ensures recentlyDeallocated == old(recentlyDeallocated)
      ensures r.Ok? ==> Get(address) == Ok(data)
      ensures old(Valid()) ==> Valid()
    {
      if address >= |cells| {
        return Err(OutOfBounds(address));
      }
      if !cells[address].valid {
        return Err(InvalidCell(address));
      }
      cells := cells[address := Cell(data, true)];
      return Ok(());
    }

    /** `deallocate`: invalidates a valid cell and records it for reuse; an
        address that is already invalid is a double free. */
    method Deallocate(address: nat) returns (r: Result<(), RuntimeError>)
      modifies this
      ensures r.Ok? <==> old(Live(address))
      ensures old(Live(address)) ==> r == Ok(())
      ensures address < old(|cells|) && !old(Live(address)) ==> r == Err(DoubleFree(address))
      ensures cells == if r.Ok? then old(cells)[address := Cell(Uninitialized, false)] else old(cells)
      ensures recentlyDeallocated ==
              if r.Ok? then old(recentlyDeallocated) + [address] else old(recentlyDeallocated)
      ensures old(Valid()) ==> Valid()
    {
      if address >= |cells| {
        return Err(OutOfBounds(address));
      }
      if !cells[address].valid {
        return Err(DoubleFree(address));
      }
      cells := cells[address := Cell(Uninitialized, false)];
      recentlyDeallocated := recentlyDeallocated + [address];
      return Ok(());
    }

    /** `allocate`: the most recently freed index is reused (LIFO) and panics
        if that cell is valid after all; with nothing freed a new valid cell
        is appended and its index returned. */
    method Allocate() returns (r: Result<nat, RuntimeError>)
      modifies this
      ensures old(recentlyDeallocated) == [] ==>
                r == Ok(|old(cells)|) &&
                cells == old(cells) + [Cell(Uninitialized, true)] &&
                recentlyDeallocated == []
      ensures old(recentlyDeallocated) != [] ==>
                var a := Last(old(recentlyDeallocated));
                recentlyDeallocated == DropLast(old(recentlyDeallocated)) &&
                (r.Ok? <==> a < |old(cells)| && !old(cells)[a].valid) &&
                (r.Ok? ==> r.value == a && cells == old(cells)[a := Cell(Uninitialized, true)])
      ensures r.Err? ==> cells == old(cells)
      ensures old(Valid()) ==> r.Ok? && Valid()
    {
      if recentlyDeallocated == [] {
        cells := cells + [Cell(Uninitialized, true)];
        return Ok(|cells| - 1);
      }
      ghost var oldFree := recentlyDeallocated;
      var address := recentlyDeallocated[|recentlyDeallocated| - 1];
      recentlyDeallocated := recentlyDeallocated[..|recentlyDeallocated| - 1];
      assert oldFree == recentlyDeallocated + [address];
      if address >= |cells| {
        return Err(OutOfBounds(address));
      }
      if cells[address].valid {
        return Err(Occupied(address));
      }
      cells := cells[address := Cell(Uninitialized, true)];
      return Ok(address);
    }

    /** `allocate_and_write`: an allocation followed by a write. The address
        handed out was not live before, `get` on it returns the data, and no
        other address changes. */
    method AllocateAndWrite(data: Datum) returns (r: Result<nat, RuntimeError>)
      modifies this
      ensures old(Valid()) ==> r.Ok? && Valid()
      ensures r.Ok? ==> !old(Live(r.value)) && Get(r.value) == Ok(data)
      ensures r.Ok? ==> forall a :: a != r.value ==> Get(a) == old(Get(a))
      ensures r.Ok? && old(recentlyDeallocated) == [] ==> cells == old(cells) + [Cell(data, true)]
      ensures r.Ok? && old(recentlyDeallocated) != [] ==>
                r.value < |old(cells)| && cells == old(cells)[r.value := Cell(data, true)]
      ensures old(recentlyDeallocated) == [] ==>
                r == Ok(|old(cells)|) && recentlyDeallocated == []
      ensures old(recentlyDeallocated) != [] && r.Ok? ==>
                r.value == Last(old(recentlyDeallocated)) &&
                recentlyDeallocated == DropLast(old(recentlyDeallocated))
    {
      r := Allocate();
      if r.Err? {
        return;
      }
      var w := Write(r.value, data);
    }
  }

  // ---------------------------------------------------------------------
  // Frames and the operand stack
  // ---------------------------------------------------------------------

  datatype StackFrame = StackFrame(values: map<string, nat>, stack: seq<nat>, currentFunction: nat)

  const EmptyFrame: StackFrame := StackFrame(map[], [], 0)

  /** `push_stack` on a stack of frames: onto the operand stack of the last
      frame; `last_mut().unwrap()` panics when there is no frame. */
  function PushOn(frames: seq<StackFrame>, v: nat): Result<seq<StackFrame>, RuntimeError>
  {
    if frames == [] then Err(NoFrame)
    else
      var top := Last(frames);
      Ok(DropLast(frames) + [top.(stack := top.stack + [v])])
  }

  /** `pop_stack`: the top of the last frame's operand stack and the frames
      without it; panics with no frame or an empty operand stack. */
  function PopFrom(frames: seq<StackFrame>): Result<(nat, seq<StackFrame>), RuntimeError>
  {
    if frames == [] then Err(NoFrame)
    else
      var top := Last(frames);
      if top.stack == [] then Err(EmptyStack)
      else Ok((Last(top.stack), DropLast(frames) + [top.(stack := DropLast(top.stack))]))
  }

  /** The operand stack that `push_stack` and `pop_stack` work on. */
  function TopStack(frames: seq<StackFrame>): seq<nat>
    requires frames != []
  {
    Last(frames).stack
  }

  /** Pushing grows only the current operand stack, by the value pushed;
      popping undoes it. */
  lemma PopAfterPush(frames: seq<StackFrame>, v: nat)
    ensures PushOn(frames, v).Ok? <==> frames != []
    ensures PushOn(frames, v).Ok? ==>
              var after := PushOn(frames, v).value;
              |after| == |frames| && DropLast(after) == DropLast(frames) &&
              TopStack(after) == TopStack(frames) + [v] &&
              PopFrom(after) == Ok((v, frames))
  {
    if frames != [] {
      var after := PushOn(frames, v).value;
      assert DropLast(after) == DropLast(frames);
      assert DropLast(TopStack(after)) == TopStack(frames);
      assert DropLast(after) + [Last(frames)] == frames;
    }
  }

  /** Popping fails exactly on a missing frame or an empty operand stack;
      otherwise it removes the top value, and pushing it back restores the
      frames. */
  lemma PushAfterPop(frames: seq<StackFrame>)
    ensures PopFrom(frames).Ok? <==> frames != [] && TopStack(frames) != []
    ensures PopFrom(frames).Ok? ==>
              var (v, after) := PopFrom(frames).value;
              |after| == |frames| && DropLast(after) == DropLast(frames) &&
              TopStack(after) + [v] == TopStack(frames) &&
              PushOn(after, v) == Ok(frames)
  {
    if frames != [] && TopStack(frames) != [] {
      var (v, after) := PopFrom(frames).value;
      assert DropLast(after) == DropLast(frames);
      assert TopStack(after) + [v] == TopStack(frames);
      assert DropLast(after) + [Last(frames)] == frames;
    }
  }

  /** `bind_local`: the name is bound in the last frame. */
  function BindIn(frames: seq<StackFrame>, name: string, addr: nat): Result<seq<StackFrame>, RuntimeError>
  {
    if frames == [] then Err(NoFrame)
    else
      var top := Last(frames);
      Ok(DropLast(frames) + [top.(values := top.values[name := addr])])
  }

  /** `get_local`: the binding in the last frame; `unwrap()` panics on an
      unbound name. */
  function LocalIn(frames: seq<StackFrame>, name: string): Result<nat, RuntimeError>
  {
    if frames == [] then Err(NoFrame)
    else if name !in Last(frames).values then Err(LocalMissing(name))
    else Ok(Last(frames).values[name])
  }

  /** A bound local reads back as bound; other names keep their binding. */
  lemma LocalAfterBind(frames: seq<StackFrame>, name: string, addr: nat, other: string)
    requires frames != []
    ensures LocalIn(BindIn(frames, name, addr).value, name) == Ok(addr)
    ensures other != name ==> LocalIn(BindIn(frames, name, addr).value, other) == LocalIn(frames, other)
  {
  }

  /** `check_builtin_func_params`: panics exactly when the argument count
      differs from the expected one. */
  function CheckBuiltinFuncParams(name: string, expected: nat, received: nat): (r: Result<(), RuntimeError>)
    ensures r.Ok? <==> expected == received
    ensures r.Err? ==> r.error == ArgumentCount(name, expected, received)
  {
    if expected != received then Err(ArgumentCount(name, expected, received)) else Ok(())
  }

  datatype SpecialValues = SpecialValues(
    typeType: nat,
    noneType: nat,
    noneValue: nat,
    notImplementedType: nat,
    notImplementedValue: nat,
    callableType: nat,
    moduleType: nat)

  /** What a native callable receives. */
  datatype CallParams = CallParams(
    boundPyobj: Option<nat>,
    funcAddress: nat,
    funcName: Option<string>,
    params: seq<nat>)

  /** What native code leaves behind: the heap and the address of its result. */
  datatype NativeResult = NativeResult(heap: Heap, returned: nat)

  /** Native code reaches the heap only through `Memory`'s operations, so it
      leaves a free list that is exact whenever it found one. */
  ghost predicate NativeKeepsValid(native: (Heap, nat, CallParams) -> NativeResult)
  {
    forall h: Heap, code: nat, params: CallParams :: FreeListExact(h.cells, h.recentlyDeallocated) ==>
      var after := native(h, code, params).heap;
      FreeListExact(after.cells, after.recentlyDeallocated)
  }

  /** The body of a `PyCallable`, known by its code identity: it runs on the
      heap it is given and returns the heap it leaves and the address of its
      result. */
  type Native = native: (Heap, nat, CallParams) -> NativeResult | NativeKeepsValid(native)
    witness (h: Heap, code: nat, params: CallParams) => NativeResult(h, 0)

  // ---------------------------------------------------------------------
  // The interpreter
  // ---------------------------------------------------------------------

  class Interpreter {
    var frames: seq<StackFrame>
    const memory: Memory
    var specialValues: SpecialValues
    var modules: map<string, nat>
    var progCounter: nat

    ghost predicate Valid()
      reads this, memory
    {
      memory.Valid()
    }

    /** `Interpreter::new`: one empty frame, pc 0, and the eight builtin
        objects in cells 0 to 7, the builtin module last. */
    constructor ()
      ensures Valid() && fresh(memory)
      ensures frames == [EmptyFrame] && progCounter == 0
      ensures specialValues == SpecialValues(0, 1, 2, 3, 4, 5, 6)
      ensures modules == map[BUILTIN_MODULE := 7]
      ensures |memory.cells| == 8 && memory.recentlyDeallocated == []
      ensures memory.Get(0) == Ok(Obj(PyObject(0, Type("type", map[], map[]))))
      ensures memory.Get(2) == Ok(Obj(PyObject(1, NoneObj)))
      ensures memory.Get(4) == Ok(Obj(PyObject(3, NotImplementedObj)))
      ensures memory.Get(7) == Ok(Obj(PyObject(6, Module(BUILTIN_MODULE, map[]))))
    {
      var m := new Memory();
      var typeType := m.AllocateAndWrite(Obj(PyObject(0, Type("type", map[], map[]))));
      var noneType := m.AllocateAndWrite(Obj(PyObject(typeType.value, Type("NoneType", map[], map[]))));
      var noneValue := m.AllocateAndWrite(Obj(PyObject(noneType.value, NoneObj)));
      var notImplementedType :=
        m.AllocateAndWrite(Obj(PyObject(typeType.value, Type("NotImplemented", map[], map[]))));
      var notImplementedValue := m.AllocateAndWrite(Obj(PyObject(notImplementedType.value, NotImplementedObj)));
      var callableType := m.AllocateAndWrite(Obj(PyObject(typeType.value, Type("function", map[], map[]))));
      var moduleType := m.AllocateAndWrite(Obj(PyObject(typeType.value, Type("module", map[], map[]))));
      var builtinModule := m.AllocateAndWrite(Obj(PyObject(moduleType.value, Module(BUILTIN_MODULE, map[]))));
      memory := m;
      frames := [EmptyFrame];
      progCounter := 0;
      specialValues := SpecialValues(typeType.value, noneType.value, noneValue.value, notImplementedType.value,
                                     notImplementedValue.value, callableType.value, moduleType.value);
      modules := map[BUILTIN_MODULE := builtinModule.value];
    }

    // --- the heap seen as Python objects ---

    /** `get_pyobj_byaddr`: `None` when the cell holds something other than
        a Python object; the underlying `get` panics on a dead address. */
    function GetPyObjByAddr(addr: nat): (r: Result<Option<PyObject>, RuntimeError>)
      reads memory
      ensures r.Err? <==> !memory.Live(addr)
      ensures r == Ok(None) <==> memory.Live(addr) && !memory.cells[addr].data.Obj?
    {
      var d := memory.Get(addr);
      if d.Err? then Err(d.error)
      else if d.value.Obj? then Ok(Some(d.value.obj))
      else Ok(None)
    }

    /** `find_module`. */
    function FindModule(moduleName: string): Result<Option<PyObject>, RuntimeError>
      reads this, memory
    {
      if moduleName !in modules then Ok(None) else GetPyObjByAddr(modules[moduleName])
    }

    /** `find_in_module`: `None` for a missing module or name; an entry of
        the module table that is not a module panics. */
    function FindInModule(moduleName: string, name: string): Result<Option<nat>, RuntimeError>
      reads this, memory
    {
      var m := FindModule(moduleName);
      if m.Err? then Err(m.error)
      else if m.value.None? then Ok(None)
      else if !m.value.value.structure.Module? then Err(NotAModule(moduleName))
      else if name in m.value.value.structure.objects then Ok(Some(m.value.value.structure.objects[name]))
      else Ok(None)
    }

    /** The namespace `create_type` and `add_to_module` insert into, or the
        panic they raise on the way: a missing module, a dead or non-object
        cell, an object that is not a module. */
    function ModuleObjects(moduleName: string): Result<map<string, nat>, RuntimeError>
      reads this, memory
    {
      if moduleName !in modules then Err(ModuleMissing(moduleName))
      else
        var o := GetPyObjByAddr(modules[moduleName]);
        if o.Err? then Err(o.error)
        else if o.value.None? then Err(NotInMemory(modules[moduleName]))
        else if !o.value.value.structure.Module? then Err(NotAModule(moduleName))
        else Ok(o.value.value.structure.objects)
    }

    /** Where a module's namespace is readable, `find_in_module` looks the
        name up in it. */
    lemma FindInModuleObjects(moduleName: string, name: string)
      requires ModuleObjects(moduleName).Ok?
      ensures FindInModule(moduleName, name) ==
              if name in ModuleObjects(moduleName).value then Ok(Some(ModuleObjects(moduleName).value[name]))
              else Ok(None)
    {
    }

    /** `get_type_method_addr_byname`: only the type's own
        `bounded_functions` are consulted. */
    function GetTypeMethodAddrByName(typeAddr: nat, methodName: string): (r: Result<Option<nat>, RuntimeError>)
      reads memory
      ensures r.Err? <==> !memory.Live(typeAddr)
      ensures r.Ok? && r.value.Some? ==>
                memory.cells[typeAddr].data.Obj? &&
                memory.cells[typeAddr].data.obj.structure.Type? &&
                methodName in memory.cells[typeAddr].data.obj.structure.boundedFunctions &&
                r.value.value == memory.cells[typeAddr].data.obj.structure.boundedFunctions[methodName]
    {
      var o := GetPyObjByAddr(typeAddr);
      if o.Err? then Err(o.error)
      else if o.value.None? then Ok(None)
      else
        match o.value.value.structure
        case Type(_, bounded, _) => if methodName in bounded then Ok(Some(bounded[methodName])) else Ok(None)
        case _ => Ok(None)
    }

    /** The type and the cell of a builtin type, as `get_pyobj_type_byname`
        on the builtin module finds it. */
    function BuiltinType(name: string): Result<nat, RuntimeError>
      reads this, memory
    {
      var f := FindInModule(BUILTIN_MODULE, name);
      if f.Err? then Err(f.error)
      else if f.value.None? then Err(TypeNotFound(name))
      else
        var o := GetPyObjByAddr(f.value.value);
        if o.Err? then Err(o.error)
        else if o.value.None? then Err(TypeNotFound(name))
        else Ok(f.value.value)
    }

    /** `get_raw_data_of_pyobj` (before its downcast): the payload an
        `Object` points to. */
    function RawDataOf(addr: nat): Result<Datum, RuntimeError>
      reads memory
    {
      var o := GetPyObjByAddr(addr);
      if o.Err? then Err(o.error)
      else if o.value.None? then Err(NotInMemory(addr))
      else if !o.value.value.structure.Object? then Err(NotAnObject(addr))
      else memory.Get(o.value.value.structure.rawData)
    }

    /** `callable_call` up to running the native code: the callable object
        and the identity of its code. */
    function CallableCode(callableAddr: nat): Result<(Option<string>, nat), RuntimeError>
      reads memory
    {
      var o := GetPyObjByAddr(callableAddr);
      if o.Err? then Err(o.error)
      else if o.value.None? then Err(NotInMemory(callableAddr))
      else if !o.value.value.structure.Callable? then Err(NotCallable(callableAddr))
      else
        var c := memory.Get(o.value.value.structure.code);
        if c.Err? then Err(c.error)
        else if !c.value.RawCallable? then Err(NoNativeCode(callableAddr))
        else Ok((o.value.value.structure.callableName, c.value.code))
    }

    /** `bounded_function_call_byaddr`: the receiver must be an object whose
        type is a type, the method a callable; the native code then runs
        with the receiver bound. */
    function BoundedFunctionCallByAddr(native: Native, boundObj: nat, methodAddr: nat, params: seq<nat>): (r: Result<NativeResult, RuntimeError>)
      reads memory
      ensures r.Ok? ==>
                CallableCode(methodAddr).Ok? &&
                r.value == native(memory.State(), CallableCode(methodAddr).value.1,
                                  CallParams(Some(boundObj), methodAddr, CallableCode(methodAddr).value.0, params))
    {
      var b := GetPyObjByAddr(boundObj);
      if b.Err? then Err(b.error)
      else if b.value.None? then Err(NotInMemory(boundObj))
      else
        var t := GetPyObjByAddr(b.value.value.typeAddr);
        if t.Err? then Err(t.error)
        else if t.value.None? then Err(NotInMemory(b.value.value.typeAddr))
        else if !t.value.value.structure.Type? then Err(NotAType(b.value.value.typeAddr))
        else
          var m := GetPyObjByAddr(methodAddr);
          if m.Err? then Err(m.error)
          else if m.value.None? then Err(NotInMemory(methodAddr))
          else if !m.value.value.structure.Callable? then Err(NotCallable(methodAddr))
          else
            var c := CallableCode(methodAddr);
            if c.Err? then Err(c.error)
            else Ok(native(memory.State(), c.value.1, CallParams(Some(boundObj), methodAddr, c.value.0, params)))
    }

    /** `unbounded_function_call_byaddr`: the function must be a callable;
        the native code runs with nothing bound. */
    function UnboundedFunctionCallByAddr(native: Native, functionAddr: nat, params: seq<nat>): (r: Result<NativeResult, RuntimeError>)
      reads memory
      ensures r.Ok? <==> CallableCode(functionAddr).Ok?
      ensures r.Ok? ==>
                r.value == native(memory.State(), CallableCode(functionAddr).value.1,
                                  CallParams(None, functionAddr, CallableCode(functionAddr).value.0, params))
    {
      var f := GetPyObjByAddr(functionAddr);
      if f.Err? then Err(f.error)
      else if f.value.None? then Err(NotInMemory(functionAddr))
      else if !f.value.value.structure.Callable? then Err(NotCallable(functionAddr))
      else
        var c := CallableCode(functionAddr);
        if c.Err? then Err(c.error)
        else Ok(native(memory.State(), c.value.1, CallParams(None, functionAddr, c.value.0, params)))
    }

    // --- module registration ---

    /** `add_to_module`: panics when the module cannot be read as a module or
        already binds the name, and inserts the name otherwise. Only the
        module's own cell changes. */
    method AddToModule(moduleName: string, name: string, pyobjectAddr: nat) returns (r: Result<(), RuntimeError>)
      requires Valid()
      modifies memory
      ensures Valid()
      ensures r.Ok? <==> old(ModuleObjects(moduleName)).Ok? && name !in old(ModuleObjects(moduleName)).value
      ensures r.Ok? ==> ModuleObjects(moduleName) == Ok(old(ModuleObjects(moduleName)).value[name := pyobjectAddr])
      ensures r.Ok? ==> forall a :: a != modules[moduleName] ==> memory.Get(a) == old(memory.Get(a))
      ensures r.Err? ==> memory.cells == old(memory.cells)
      ensures memory.recentlyDeallocated == old(memory.recentlyDeallocated)
    {
      if moduleName !in modules {
        return Err(ModuleMissing(moduleName));
      }
      var moduleAddr := modules[moduleName];
      var o := GetPyObjByAddr(moduleAddr);
      if o.Err? {
        return Err(o.error);
      }
      if o.value.None? {
        return Err(NotInMemory(moduleAddr));
      }
      var obj := o.value.value;
      if !obj.structure.Module? {
        return Err(NotAModule(moduleName));
      }
      if name in obj.structure.objects {
        return Err(NameExists(moduleName, name));
      }
      var objects := obj.structure.objects[name := pyobjectAddr];
      var updated := PyObject(obj.typeAddr, Module(obj.structure.name, objects));
      var w := memory.Write(moduleAddr, Obj(updated));
      return Ok(());
    }

    /** `create_type`: allocates the type object first, then registers it
        like `add_to_module`. Its methods are then found by
        `get_type_method_addr_byname`, its unbounded functions are not. */
    method CreateType(moduleName: string, name: string, methods: map<string, nat>, functions: map<string, nat>)
      returns (r: Result<nat, RuntimeError>)
      requires Valid()
      modifies memory
      ensures Valid()
      ensures r.Ok? <==> old(ModuleObjects(moduleName)).Ok? && name !in old(ModuleObjects(moduleName)).value
      ensures r.Ok? ==> !old(memory.Live(r.value))
      ensures r.Ok? ==> ModuleObjects(moduleName) == Ok(old(ModuleObjects(moduleName)).value[name := r.value])
      ensures r.Ok? ==> memory.Get(r.value) == Ok(Obj(PyObject(specialValues.typeType, Type(name, methods, functions))))
      ensures r.Ok? ==> forall m :: GetTypeMethodAddrByName(r.value, m) ==
                                    if m in methods then Ok(Some(methods[m])) else Ok(None)
    {
      var created := Obj(PyObject(specialValues.typeType, Type(name, methods, functions)));
      var t := memory.AllocateAndWrite(created);
      var typeAddress := t.value;
      if moduleName in modules && modules[moduleName] == typeAddress {
        // a dangling module entry whose cell was just reused for the type
        assert !old(memory.Live(modules[moduleName]));
        assert ModuleObjects(moduleName) == Err(NotAModule(moduleName));
      } else if moduleName in modules {
        assert memory.Get(modules[moduleName]) == old(memory.Get(modules[moduleName]));
      }
      var a := AddToModule(moduleName, name, typeAddress);
      if a.Err? {
        return Err(a.error);
      }
      return Ok(typeAddress);
    }

    /** `allocate_type_byname_raw`: the raw payload and an `Object` of the
        named builtin type pointing at it; panics if the builtin module has
        no such type. */
    method AllocateTypeByNameRaw(name: string, rawData: Datum) returns (r: Result<nat, RuntimeError>)
      requires Valid()
      modifies memory
      ensures Valid()
      ensures r.Ok? <==> old(BuiltinType(name)).Ok?
      ensures r.Ok? ==> !old(memory.Live(r.value))
      ensures r.Ok? ==> GetPyObjByAddr(r.value).Ok? && GetPyObjByAddr(r.value).value.Some? &&
                        GetPyObjByAddr(r.value).value.value.typeAddr == old(BuiltinType(name)).value
      ensures r.Ok? ==> RawDataOf(r.value) == Ok(rawData)
      ensures r.Ok? ==> forall a :: old(memory.Live(a)) ==> memory.Get(a) == old(memory.Get(a))
    {
      var typeAddr := BuiltinType(name);
      if typeAddr.Err? {
        return Err(typeAddr.error);
      }
      var rawPtr := memory.AllocateAndWrite(rawData);
      var obj := memory.AllocateAndWrite(Obj(PyObject(typeAddr.value, Object(rawPtr.value))));
      assert memory.Get(rawPtr.value) == Ok(rawData);
      return Ok(obj.value);
    }

    // --- frames, operand stack, locals, pc ---

    method NewStackFrame()
      modifies this
      ensures frames == old(frames) + [EmptyFrame]
      ensures progCounter == old(progCounter) && modules == old(modules) && specialValues == old(specialValues)
    {
      frames := frames + [EmptyFrame];
    }

    method PopStackFrame() returns (r: Result<StackFrame, RuntimeError>)
      modifies this
      ensures old(frames) == [] ==> r == Err(NoFrame) && frames == []
      ensures old(frames) != [] ==> r == Ok(Last(old(frames))) && frames == DropLast(old(frames))
      ensures progCounter == old(progCounter) && modules == old(modules) && specialValues == old(specialValues)
    {
      if frames == [] {
        return Err(NoFrame);
      }
      r := Ok(frames[|frames| - 1]);
      frames := frames[..|frames| - 1];
    }

    method PushStack(value: nat) returns (r: Result<(), RuntimeError>)
      modifies this
      ensures r.Ok? <==> PushOn(old(frames), value).Ok?
      ensures frames == if r.Ok? then PushOn(old(frames), value).value else old(frames)
      ensures progCounter == old(progCounter) && modules == old(modules) && specialValues == old(specialValues)
    {
      var p := PushOn(frames, value);
      if p.Err? {
        return Err(p.error);
      }
      frames := p.value;
      return Ok(());
    }

    method PopStack() returns (r: Result<nat, RuntimeError>)
      modifies this
      ensures r.Ok? <==> PopFrom(old(frames)).Ok?
      ensures r.Ok? ==> r.value == PopFrom(old(frames)).value.0 && frames == PopFrom(old(frames)).value.1
      ensures r.Err? ==> frames == old(frames)
      ensures progCounter == old(progCounter) && modules == old(modules) && specialValues == old(specialValues)
    {
      var p := PopFrom(frames);
      if p.Err? {
        return Err(p.error);
      }
      frames := p.value.1;
      return Ok(p.value.0);
    }

    method BindLocal(name: string, addr: nat) returns (r: Result<(), RuntimeError>)
      modifies this
      ensures r.Ok? <==> old(frames) != []
      ensures frames == if r.Ok? then BindIn(old(frames), name, addr).value else old(frames)
      ensures progCounter == old(progCounter) && modules == old(modules) && specialValues == old(specialValues)
    {
      var b := BindIn(frames, name, addr);
      if b.Err? {
        return Err(b.error);
      }
      frames := b.value;
      return Ok(());
    }

    method GetLocal(name: string) returns (r: Result<nat, RuntimeError>)
      ensures r == LocalIn(frames, name)
    {
      r := LocalIn(frames, name);
    }

    /** `jump_pc`: adds the delta and returns the new pc. */
    method JumpPc(delta: nat) returns (pc: nat)
      modifies this
      ensures progCounter == old(progCounter) + delta && pc == progCounter
      ensures frames == old(frames) && modules == old(modules) && specialValues == old(specialValues)
    {
      progCounter := progCounter + delta;
      pc := progCounter;
    }
  }
}
