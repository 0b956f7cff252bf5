/*
 * The instruction handlers and the fetch-execute loop of
 * src/bytecode/interpreter.rs, the older sibling of
 * src/runtime/interpreter.rs, run on the `Runtime` of
 * src/runtime/runtime.rs.
 *
 * The handlers both files write alike come from module Handlers; this
 * module states the ones this file writes its own way: a call pops the
 * callee's frame itself, an attribute load leaves the receiver on the
 * stack and pushes a method found on the type unbound, global and local
 * loads consult `builtin_names` first, an attribute store takes no
 * references, there is no `ForIter` or `PopTop`, and an exception left on
 * the frame does not end the code. Each handler is a function of the
 * frames and the heap, performed in place by a method on the `Runtime`.
 *
 * The file calls `run_function` and `set_attribute`, which
 * src/runtime/runtime.rs does not define: running a function is a
 * parameter that is given the heap and gives back the heap it leaves,
 * the address it returns and the frame it leaves on top, and an
 * attribute is set as `set_attribute` of src/runtime/vm.rs does.
 */
module BytecodeInterpreter {

  import opened Wrappers
  import opened RuntimeDataModel
  import opened UnsafeMemory
  import opened Frames
  import opened ObjectSpace
  import opened Program
  import opened Handlers
  import opened PyRuntime
  import Vm
  import Sequences

  /** What the handlers read of the runtime besides its frames and heap. */
  datatype Env = Env(types: BuiltinTypeAddresses, special: map<SpecialValue, Addr>, modules: map<string, Addr>,
                     builtinNames: seq<Addr>)

  /** What `run_function` leaves: the heap, the address it returns and
      the callee's frame, still on top of the frame stack. */
  datatype FunctionRun = FunctionRun(mem: MemState, returned: Addr, frame: StackFrame)

  /** A function run keeps a well-formed heap well formed. */
  ghost predicate RunKeepsWellFormed(run: (MemState, Addr, seq<Addr>) -> FunctionRun)
  {
    forall m, f, args :: WellFormed(m) ==> WellFormed(run(m, f, args).mem)
  }

  /** `run_function` on the heap, the function's address and the
      arguments in the order they were popped. */
  type FunctionRunner = run: (MemState, Addr, seq<Addr>) -> FunctionRun | RunKeepsWellFormed(run)
    witness (m: MemState, f: Addr, args: seq<Addr>) => FunctionRun(m, f, NewFrame(""))

  /** What the model leaves uninterpreted: running a function on its
      arguments, running native code (for `call_method`) and
      floating-point arithmetic. */
  datatype Callees = Callees(run: FunctionRunner, native: NativeRunner, floats: FloatOps)

  // ---------------------------------------------------------------------
  // Handlers as functions of the state
  // ---------------------------------------------------------------------

  /** `handle_function_call`: `n` arguments popped, then the function;
      the arguments, in the order they were popped, each hold one more
      reference while the function runs. The returned value must be
      referenced (a count of 0 panics) and gets one more reference; the
      arguments are released, the callee's frame is popped, which releases
      what is left on its stack, and the returned value is pushed. */
  function FunctionCallIn(s: Machine, n: nat, run: FunctionRunner): (r: Result<Machine, Panic>)
    ensures r.Ok? ==> SamePc(s, r.value)
  {
    var p :- PopN(s, n);
    var f :- Pop(p.0);
    var m1 :- IncreaseAll(f.0.mem, p.1);
    var c := run(m1, f.1, p.1);
    var rc :- RefcountIn(c.mem, c.returned);
    if rc == 0 then Err(ZeroRefcount(c.returned))
    else
      var m2 := IncreaseIn(c.mem, c.returned).value;
      var m3 :- DecreaseAll(m2, p.1);
      var m4 :- DecreaseAll(m3, c.frame.stack);
      Push(f.0.(mem := m4), c.returned)
  }

  /** `handle_load_attr`: the object stays on the stack. A class instance
      whose type has a method of that name gives the method bound to it;
      otherwise an own property of that name; otherwise a method on the
      object's type, pushed as it is; otherwise, for a module, its global;
      anything else panics. */
  function LoadAttrIn(s: Machine, special: map<SpecialValue, Addr>, attr: string): (r: Result<Machine, Panic>)
    ensures r.Ok? ==> SamePc(s, r.value)
  {
    var top :- TopIn(s);
    var obj :- GetIn(s.mem, top);
    var viaInstance :-
      if obj.structure.Object? && obj.structure.rawData.ClassInstance?
      then MethodLookup(s.mem, obj.typeAddr, attr, Methods, |s.mem.heap|)
      else Ok(None);
    if viaInstance.Some? then CurryIn(s, special, viaInstance.value, top)
    else if attr in obj.properties then Push(s, obj.properties[attr])
    else
      var onType :- MethodLookup(s.mem, obj.typeAddr, attr, Methods, |s.mem.heap|);
      if onType.Some? then Push(s, onType.value)
      else
        var inModule :- FindInModuleAddrIn(s.mem, top, attr);
        if inModule.None? then Err(NameMissing(attr)) else Push(s, inModule.value)
  }

  /** The entry of `builtin_names` a global load takes: none past the end
      of the vector or when it is the None object; comparing with the None
      object panics when there is none. */
  function BuiltinGlobal(env: Env, name: nat): (r: Result<Option<Addr>, Panic>)
  {
    if name >= |env.builtinNames| then Ok(None)
    else if NoneValue !in env.special then Err(MissingSpecialValue)
    else if env.builtinNames[name] == env.special[NoneValue] then Ok(None)
    else Ok(Some(env.builtinNames[name]))
  }

  /** `handle_load_global`: the `builtin_names` entry, then the name
      looked up in the builtin module, then the main module, then the
      module table; a name missing everywhere, or a name index past the
      names, panics. */
  function LoadGlobalIn(s: Machine, env: Env, code: CodeObjectContext, name: nat): (r: Result<Machine, Panic>)
    ensures r.Ok? ==> SamePc(s, r.value)
  {
    var names := code.code.names;
    var builtin :- BuiltinGlobal(env, name);
    var early :-
      if builtin.Some? then Ok(builtin)
      else if name < |names| then
        var b :- FindInModuleIn(s.mem, env.modules, BUILTIN_MODULE, names[name]);
        if b.Some? then Ok(b) else FindInModuleIn(s.mem, env.modules, MAIN_MODULE, names[name])
      else Ok(None);
    if early.Some? then Push(s, early.value)
    else if name >= |names| then Err(IndexOutOfBounds(name))
    else if names[name] in env.modules then Push(s, env.modules[names[name]])
    else Err(NameMissing(names[name]))
  }

  /** `handle_load_name`: the local slot, then any `builtin_names` entry,
      then the builtin module, then the main module; a name found nowhere,
      or a name index past the names, panics. */
  function LoadNameIn(s: Machine, env: Env, code: CodeObjectContext, name: nat): (r: Result<Machine, Panic>)
    ensures r.Ok? ==> SamePc(s, r.value)
  {
    var local :- LocalIn(s, name);
    if local.Some? then Push(s, local.value)
    else if name < |env.builtinNames| then Push(s, env.builtinNames[name])
    else if name >= |code.code.names| then Err(IndexOutOfBounds(name))
    else
      var n := code.code.names[name];
      var b :- FindInModuleIn(s.mem, env.modules, BUILTIN_MODULE, n);
      if b.Some? then Push(s, b.value)
      else
        var m :- FindInModuleIn(s.mem, env.modules, MAIN_MODULE, n);
        if m.Some? then Push(s, m.value) else Err(NameMissing(n))
  }

  /** `StoreAttr`: pops the object, then the value, and sets the property
      named by the index on the object; no reference count changes. */
  function StoreAttrIn(s: Machine, code: CodeObjectContext, attrName: nat): (r: Result<Machine, Panic>)
    ensures r.Ok? ==> SamePc(s, r.value)
  {
    var p :- Pop(s);
    var q :- Pop(p.0);
    if attrName >= |code.code.names| then Err(IndexOutOfBounds(attrName))
    else
      var m :- SetAttributeIn(q.0.mem, p.1, code.code.names[attrName], q.1);
      Ok(q.0.(mem := m))
  }

  /** The slow path of every operator: the deeper operand is pushed back,
      its dunder method loaded above it, the top operand pushed, and the
      method called with that one argument. */
  function FallbackIn(o: Operands, env: Env, dunder: string, run: FunctionRunner): (r: Result<Machine, Panic>)
    ensures r.Ok? ==> SamePc(o.rest, r.value)
  {
    var s1 :- Push(o.rest, o.tos1);
    var s2 :- LoadAttrIn(s1, env.special, dunder);
    FunctionCallIn(Push(s2, o.tos).value, 1, run)
  }

  /** `create_binary_operator!`. */
  function BinaryIn(s: Machine, env: Env, op: ArithOp, callees: Callees): (r: Result<Machine, Panic>)
    ensures r.Ok? ==> SamePc(s, r.value)
  {
    var o :- PopOperands(s);
    var fast := if Payloads(o).Some? then FastArith(op, Payloads(o).value.0, Payloads(o).value.1, callees.floats) else None;
    if fast.None? then FallbackIn(o, env, ArithDunder(op), callees.run)
    else
      var data :- fast.value;
      ArithResultIn(o, data, env.types)
  }

  /** `handle_binary_truediv`. */
  function TrueDivIn(s: Machine, env: Env, callees: Callees): (r: Result<Machine, Panic>)
    ensures r.Ok? ==> SamePc(s, r.value)
  {
    var o :- PopOperands(s);
    var fast := if Payloads(o).Some? then FastTrueDiv(Payloads(o).value.0, Payloads(o).value.1, callees.floats) else None;
    if fast.None? then FallbackIn(o, env, "__truediv__", callees.run)
    else ArithResultIn(o, fast.value, env.types)
  }

  /** The comparison each instance of `create_compare_operator!` in this
      file is generated from, as written: the `>=` and the `<=` handlers
      are both generated from `a > b`. */
  function GeneratedAsWritten(op: CompareOp): CompareOp
  {
    match op
    case GeOp => GtOp
    case LeOp => GtOp
    case _ => op
  }

  /** `create_compare_operator!` for the instruction `op`, generated from
      the comparison `generated` and falling back on `op`'s dunder
      method. */
  function CompareIn(s: Machine, env: Env, op: CompareOp, generated: CompareOp, callees: Callees): (r: Result<Machine, Panic>)
    ensures r.Ok? ==> SamePc(s, r.value)
  {
    var o :- PopOperands(s);
    var fast := if Payloads(o).Some? then FastCompare(generated, Payloads(o).value.0, Payloads(o).value.1, callees.floats) else None;
    if fast.None? then FallbackIn(o, env, CompareDunder(op), callees.run)
    else CompareResultIn(o, fast.value, env.types)
  }

  /** The comparison handlers as written. */
  function CompareAsWritten(s: Machine, env: Env, op: CompareOp, callees: Callees): (r: Result<Machine, Panic>)
    ensures r.Ok? ==> SamePc(s, r.value)
  {
    CompareIn(s, env, op, GeneratedAsWritten(op), callees)
  }

  /** The handler of an operator; each comparison is generated from its
      own operator, as the instruction's name intends. */
  function OperatorIn(s: Machine, env: Env, op: Operator, callees: Callees): (r: Result<Machine, Panic>)
    ensures r.Ok? ==> SamePc(s, r.value)
  {
    match op
    case Arith(a) => BinaryIn(s, env, a, callees)
    case Compare(c) => CompareIn(s, env, c, c, callees)
    case TrueDiv => TrueDivIn(s, env, callees)
  }

  /** `call_method(a, "__bool__", [])`, as the function the jump handler
      takes. */
  function BoolOfIn(native: NativeRunner): (MemState, Addr) -> Result<Option<Outcome>, Panic>
  {
    (m: MemState, a: Addr) => CallNativeMethodIn(m, a, "__bool__", [], native)
  }

  /** The pc moves on by one after every instruction that neither jumps
      nor ends the code. */
  predicate StraightLine(instruction: Instruction)
  {
    !(instruction.JumpIfFalseAndPopStack? || instruction.JumpUnconditional? || instruction.ReturnValue?)
  }

  /** The instructions that load or store a constant, a name or an
      attribute, or call a function. */
  predicate NameInstruction(instruction: Instruction)
  {
    || instruction.LoadConst? || instruction.CallFunction? || instruction.LoadName?
    || instruction.LoadGlobal? || instruction.LoadAttr? || instruction.StoreName?
    || instruction.StoreAttr?
  }

  /** The instructions that move the pc or end the code. */
  predicate FlowInstruction(instruction: Instruction)
  {
    instruction.JumpIfFalseAndPopStack? || instruction.JumpUnconditional? || instruction.ReturnValue?
  }

  /** The instructions that build, index or raise a value. */
  predicate ValueInstruction(instruction: Instruction)
  {
    instruction.BuildList? || instruction.IndexAccess? || instruction.Raise?
  }

  /** The arms of the `match` for names, constants and calls: handlers
      that leave the pc to advance. */
  function NameIn(s: Machine, env: Env, code: CodeObjectContext, callees: Callees, instruction: Instruction)
    : (r: Result<Machine, Panic>)
    requires NameInstruction(instruction)
    ensures r.Ok? ==> SamePc(s, r.value)
  {
    if instruction.LoadConst? then LoadConstIn(s, code.consts, instruction.index)
    else if instruction.CallFunction? then FunctionCallIn(s, instruction.numberArguments, callees.run)
    else if instruction.LoadName? then LoadNameIn(s, env, code, instruction.name)
    else if instruction.LoadGlobal? then LoadGlobalIn(s, env, code, instruction.name)
    else if instruction.LoadAttr? then LoadAttrIn(s, env.special, instruction.attr)
    else if instruction.StoreName? then StoreNameIn(s, instruction.name)
    else StoreAttrIn(s, code, instruction.attrName)
  }

  /** The arms of the `match` that move the pc, with whether it is still
      to advance. */
  function FlowIn(s: Machine, code: CodeObjectContext, callees: Callees, instruction: Instruction)
    : (r: Result<(Machine, bool), Panic>)
    requires FlowInstruction(instruction)
  {
    if instruction.JumpIfFalseAndPopStack? then
      var j :- JumpIfFalseIn(s, instruction.destination, BoolOfIn(callees.native));
      Ok((j.0, !j.1))
    else if instruction.JumpUnconditional? then
      var s1 :- JumpUnconditionalIn(s, instruction.destination);
      Ok((s1, false))
    else Advancing(ReturnValueIn(s, |code.code.instructions|))
  }

  /** The arms of the `match` that build, index or raise a value. */
  function ValueIn(s: Machine, env: Env, instruction: Instruction): (r: Result<Machine, Panic>)
    requires ValueInstruction(instruction)
    ensures r.Ok? ==> SamePc(s, r.value)
  {
    if instruction.BuildList? then BuildListIn(s, env.types.listType, instruction.numberElements)
    else if instruction.IndexAccess? then IndexAccessIn(s)
    else RaiseInstructionIn(s)
  }

  /** The `match` of `execute_next_instruction`: the handler for the
      instruction, with whether the pc is still to advance. `MakeFunction`
      and `MakeClass` are outside the model, and every instruction the
      match does not list panics. */
  function ExecuteIn(s: Machine, env: Env, code: CodeObjectContext, callees: Callees, instruction: Instruction)
    : (r: Result<(Machine, bool), Panic>)
    ensures r.Ok? && StraightLine(instruction) ==> r.value.1 && SamePc(s, r.value.0)
  {
    if OperatorOf(instruction).Some? then Advancing(OperatorIn(s, env, OperatorOf(instruction).value, callees))
    else if NameInstruction(instruction) then Advancing(NameIn(s, env, code, callees, instruction))
    else if FlowInstruction(instruction) then FlowIn(s, code, callees, instruction)
    else if ValueInstruction(instruction) then Advancing(ValueIn(s, env, instruction))
    else Err(Unsupported)
  }

  /** The end of `execute_next_instruction`: the pc advances by one
      unless the handler jumped. */
  function AdvanceIn(s: Machine, advance: bool): (r: Result<Machine, Panic>)
  {
    if advance then JumpPcIn(s, 1) else Ok(s)
  }

  /** `execute_next_instruction`: the instruction at the pc executed, then
      the pc advanced by one unless the handler jumped. */
  function StepIn(s: Machine, env: Env, code: CodeObjectContext, callees: Callees): (r: Result<Machine, Panic>)
  {
    var pc :- PcIn(s);
    if pc >= |code.code.instructions| then Err(IndexOutOfBounds(pc))
    else
      var e :- ExecuteIn(s, env, code, callees, code.code.instructions[pc]);
      AdvanceIn(e.0, e.1)
  }

  /** `execute_next_instruction` as the step function of the loop. */
  function StepOf(env: Env, code: CodeObjectContext, callees: Callees): Machine -> Result<Machine, Panic>
  {
    (t: Machine) => StepIn(t, env, code, callees)
  }

  /** `execute_code_object`, for at most `fuel` instructions. */
  function RunIn(s: Machine, env: Env, code: CodeObjectContext, callees: Callees, fuel: nat): (r: Result<(Machine, bool), Panic>)
  {
    RunWith(s, StepOf(env, code, callees), |code.code.instructions|, fuel)
  }

  // ---------------------------------------------------------------------
  // Properties
  // ---------------------------------------------------------------------

  /** The top frame's stack, for stating lemmas. */
  function StackOf(s: Machine): seq<Addr>
    requires s.frames != []
  {
    Top(s.frames).stack
  }

  /** `handle_function_call` runs the value `n + 1` places from the top on
      the `n` values above it, the topmost first; the callee's frame is
      gone afterwards, and in place of the `n + 1` values the returned one
      is left. */
  lemma FunctionCallSpec(s: Machine, n: nat, run: FunctionRunner)
    requires FunctionCallIn(s, n, run).Ok?
    ensures s.frames != [] && |StackOf(s)| >= n + 1
    ensures var st := StackOf(s);
            var args := PoppedOrder(st, n);
            IncreaseAll(s.mem, args).Ok? &&
            var c := run(IncreaseAll(s.mem, args).value, st[|st| - n - 1], args);
            var s' := FunctionCallIn(s, n, run).value;
            |args| == n && (forall i :: 0 <= i < n ==> args[i] == st[|st| - 1 - i]) &&
            |s'.frames| == |s.frames| && s'.frames[..|s.frames| - 1] == s.frames[..|s.frames| - 1] &&
            StackOf(s') == st[..|st| - n - 1] + [c.returned] &&
            Top(s'.frames).progCounter == Top(s.frames).progCounter &&
            Top(s'.frames).exception == Top(s.frames).exception
  {
    if |StackOf(s)| < n {
      PopNTooMany(s, n);
    }
    PopNSpec(s, n);
    var st := StackOf(s);
    assert Top(PopN(s, n).value.0.frames).stack == st[..|st| - n];
    PoppedOrderSpec(st, n);
    CallOperandsPopped(s, n);
    var p := PopN(s, n).value;
    var f := Pop(p.0).value;
    var c := run(IncreaseAll(f.0.mem, p.1).value, f.1, p.1);
    assert FunctionCallIn(s, n, run).value.frames == Push(f.0, c.returned).value.frames;
  }

  /** The heap side of `handle_function_call`: the callee runs on the heap
      in which each argument holds one more reference; the value it
      returns is still referenced in the heap it leaves and gets one more
      reference there; then the arguments are released, and then what is
      left on the callee's frame. */
  lemma FunctionCallHeap(s: Machine, n: nat, run: FunctionRunner)
    requires FunctionCallIn(s, n, run).Ok?
    ensures s.frames != [] && |StackOf(s)| >= n + 1
    ensures var st := StackOf(s);
            var args := PoppedOrder(st, n);
            var entry := IncreaseAll(s.mem, args);
            entry.Ok? &&
            var c := run(entry.value, st[|st| - n - 1], args);
            Readable(c.mem, c.returned) && RefcountIn(c.mem, c.returned).value != 0 &&
            var released := DecreaseAll(IncreaseIn(c.mem, c.returned).value, args);
            released.Ok? && DecreaseAll(released.value, c.frame.stack) == Ok(FunctionCallIn(s, n, run).value.mem)
  {
    if |StackOf(s)| < n {
      PopNTooMany(s, n);
    }
    PopNSpec(s, n);
    var st := StackOf(s);
    assert Top(PopN(s, n).value.0.frames).stack == st[..|st| - n];
    CallOperandsPopped(s, n);
    var p := PopN(s, n).value;
    var f := Pop(p.0).value;
    var c := run(IncreaseAll(f.0.mem, p.1).value, f.1, p.1);
    var m3 := DecreaseAll(IncreaseIn(c.mem, c.returned).value, p.1).value;
    assert FunctionCallIn(s, n, run).value.mem == DecreaseAll(m3, c.frame.stack).value;
  }

  /** A call with fewer than `n + 1` values on the stack panics. */
  lemma FunctionCallUnderflow(s: Machine, n: nat, run: FunctionRunner)
    requires s.frames != [] && |StackOf(s)| < n + 1
    ensures FunctionCallIn(s, n, run).Err?
  {
    if |StackOf(s)| < n {
      PopNTooMany(s, n);
    } else {
      PopNSpec(s, n);
    }
  }

  /** `handle_load_attr` leaves the receiver where it was and pushes the
      attribute above it. */
  lemma LoadAttrKeepsReceiver(s: Machine, special: map<SpecialValue, Addr>, attr: string)
    requires LoadAttrIn(s, special, attr).Ok?
    ensures s.frames != [] && StackOf(s) != []
    ensures var s' := LoadAttrIn(s, special, attr).value;
            |StackOf(s')| == |StackOf(s)| + 1 && StackOf(s')[..|StackOf(s)|] == StackOf(s)
  {
    var s' := LoadAttrIn(s, special, attr).value;
    assert StackOf(s')[..|StackOf(s)|] == StackOf(s);
  }

  /** A method found on the type of an object that is not a class
      instance, and is not one of its properties, is pushed as it is:
      nothing binds it to the receiver and the heap is unchanged. */
  lemma LoadAttrMethodUnbound(s: Machine, special: map<SpecialValue, Addr>, attr: string, found: Addr)
    requires s.frames != [] && StackOf(s) != []
    requires var obj := GetIn(s.mem, StackOf(s)[|StackOf(s)| - 1]);
             obj.Ok? && !(obj.value.structure.Object? && obj.value.structure.rawData.ClassInstance?) &&
             attr !in obj.value.properties &&
             MethodLookup(s.mem, obj.value.typeAddr, attr, Methods, |s.mem.heap|) == Ok(Some(found))
    ensures LoadAttrIn(s, special, attr).Ok?
    ensures var s' := LoadAttrIn(s, special, attr).value;
            StackOf(s') == StackOf(s) + [found] && s'.mem == s.mem
  {
  }

  /** `handle_load_global` takes a `builtin_names` entry that is not the
      None object first, then looks in the builtin module, then the main
      module, then the module table. */
  lemma LoadGlobalOrder(s: Machine, env: Env, code: CodeObjectContext, name: nat)
    requires s.frames != [] && NoneValue in env.special
    requires name < |code.code.names|
    requires FindInModuleIn(s.mem, env.modules, BUILTIN_MODULE, code.code.names[name]).Ok?
    requires FindInModuleIn(s.mem, env.modules, MAIN_MODULE, code.code.names[name]).Ok?
    ensures var n := code.code.names[name];
            var b := FindInModuleIn(s.mem, env.modules, BUILTIN_MODULE, n).value;
            var m := FindInModuleIn(s.mem, env.modules, MAIN_MODULE, n).value;
            LoadGlobalIn(s, env, code, name) ==
              if name < |env.builtinNames| && env.builtinNames[name] != env.special[NoneValue]
              then Push(s, env.builtinNames[name])
              else if b.Some? then Push(s, b.value)
              else if m.Some? then Push(s, m.value)
              else if n in env.modules then Push(s, env.modules[n])
              else Err(NameMissing(n))
  {
  }

  /** `handle_load_name` looks in the locals first, then takes any
      `builtin_names` entry, even the None object, then looks in the
      builtin module, then the main module. */
  lemma LoadNameOrder(s: Machine, env: Env, code: CodeObjectContext, name: nat)
    requires s.frames != []
    requires name < |code.code.names|
    requires FindInModuleIn(s.mem, env.modules, BUILTIN_MODULE, code.code.names[name]).Ok?
    requires FindInModuleIn(s.mem, env.modules, MAIN_MODULE, code.code.names[name]).Ok?
    ensures var local := GetLocalIn(Top(s.frames).locals, name);
            var b := FindInModuleIn(s.mem, env.modules, BUILTIN_MODULE, code.code.names[name]).value;
            var m := FindInModuleIn(s.mem, env.modules, MAIN_MODULE, code.code.names[name]).value;
            LoadNameIn(s, env, code, name) ==
              if local.Some? then Push(s, local.value)
              else if name < |env.builtinNames| then Push(s, env.builtinNames[name])
              else if b.Some? then Push(s, b.value)
              else if m.Some? then Push(s, m.value)
              else Err(NameMissing(code.code.names[name]))
  {
  }

  /** `StoreAttr` pops two values, sets the property, and touches no
      reference count: the object's count is what it was. */
  lemma StoreAttrSpec(s: Machine, code: CodeObjectContext, attrName: nat)
    requires StoreAttrIn(s, code, attrName).Ok?
    ensures s.frames != [] && |StackOf(s)| >= 2 && attrName < |code.code.names|
    ensures var st := StackOf(s);
            var obj := st[|st| - 1];
            var s' := StoreAttrIn(s, code, attrName).value;
            StackOf(s') == st[..|st| - 2] && Readable(s.mem, obj) &&
            GetIn(s'.mem, obj) == Ok(s.mem.heap[obj].(properties := s.mem.heap[obj].properties[code.code.names[attrName] := st[|st| - 2]]))
  {
    var st := StackOf(s);
    assert st[..|st| - 1][..|st| - 2] == st[..|st| - 2];
  }

  /** When the fast path does not apply, the operator handler leaves the
      deeper operand on the stack beneath the dunder method's result. */
  lemma FallbackKeepsLeftOperand(o: Operands, env: Env, dunder: string, run: FunctionRunner)
    requires FallbackIn(o, env, dunder, run).Ok?
    ensures o.rest.frames != []
    ensures var s' := FallbackIn(o, env, dunder, run).value;
            |StackOf(s')| == |StackOf(o.rest)| + 2 &&
            StackOf(s')[..|StackOf(o.rest)| + 1] == StackOf(o.rest) + [o.tos1]
  {
    var s1 := Push(o.rest, o.tos1).value;
    var s2 := LoadAttrIn(s1, env.special, dunder).value;
    LoadAttrKeepsReceiver(s1, env.special, dunder);
    var s3 := Push(s2, o.tos).value;
    FunctionCallSpec(s3, 1, run);
    var st := StackOf(s3);
    assert st[..|st| - 2] == StackOf(s2)[..|StackOf(s2)| - 1];
    assert StackOf(s2)[..|StackOf(s2)| - 1] == StackOf(s2)[..|StackOf(s1)|][..|StackOf(s1)|];
  }

  /** A comparison of two ints pushes the shared true object exactly when
      `tos1 cmp tos` holds, and the false object otherwise. */
  lemma CompareOnInts(s: Machine, env: Env, op: CompareOp, callees: Callees)
    requires s.frames != [] && |StackOf(s)| >= 2
    requires var o := PopOperands(s);
             o.Ok? && Payloads(o.value).Some? && Payloads(o.value).value.0.Int? && Payloads(o.value).value.1.Int? &&
             o.value.obj.structure.refcount > 0 && o.value.obj1.structure.refcount > 0
    ensures OperatorIn(s, env, Compare(op), callees).Ok?
    ensures var st := StackOf(s);
            var (tos, tos1) := Payloads(PopOperands(s).value).value;
            var s' := OperatorIn(s, env, Compare(op), callees).value;
            StackOf(s') == st[..|st| - 2] + [if IntCompare(op, tos1.i, tos.i) then env.types.trueVal else env.types.falseVal] &&
            s'.mem == s.mem
  {
    var st := StackOf(s);
    assert st[..|st| - 1][..|st| - 2] == st[..|st| - 2];
  }

  /** As written, `>=` and `<=` on two equal ints push the false object,
      where the comparison the instructions name holds. */
  lemma CompareAsWrittenEqualInts(s: Machine, env: Env, op: CompareOp, callees: Callees)
    requires op == GeOp || op == LeOp
    requires s.frames != [] && |StackOf(s)| >= 2
    requires var o := PopOperands(s);
             o.Ok? && Payloads(o.value).Some? && Payloads(o.value).value.0.Int? && Payloads(o.value).value.1.Int? &&
             Payloads(o.value).value.0.i == Payloads(o.value).value.1.i &&
             o.value.obj.structure.refcount > 0 && o.value.obj1.structure.refcount > 0
    ensures CompareAsWritten(s, env, op, callees).Ok?
    ensures var st := StackOf(s);
            StackOf(CompareAsWritten(s, env, op, callees).value) == st[..|st| - 2] + [env.types.falseVal]
    ensures var st := StackOf(s);
            StackOf(OperatorIn(s, env, Compare(op), callees).value) == st[..|st| - 2] + [env.types.trueVal]
  {
    CompareOnInts(s, env, op, callees);
    var st := StackOf(s);
    assert st[..|st| - 1][..|st| - 2] == st[..|st| - 2];
  }

  /** The fast path of `1 <= 2` as written: false. */
  lemma LessEqualsAsWrittenCounterexample(floats: FloatOps)
    ensures FastCompare(GeneratedAsWritten(LeOp), Int(2), Int(1), floats) == Some(false)
    ensures IntCompare(LeOp, 1, 2)
  {
  }

  /** After a straight-line instruction the pc is one past where it was. */
  lemma StepAdvances(s: Machine, env: Env, code: CodeObjectContext, callees: Callees)
    requires StepIn(s, env, code, callees).Ok?
    ensures s.frames != [] && Top(s.frames).progCounter < |code.code.instructions|
    ensures var pc := Top(s.frames).progCounter;
            var s' := StepIn(s, env, code, callees).value;
            StraightLine(code.code.instructions[pc]) ==> Top(s'.frames).progCounter == AsUsize(pc + 1)
  {
  }

  /** A conditional jump either lands on its destination or moves on by
      one. */
  lemma StepJumpIfFalse(s: Machine, env: Env, code: CodeObjectContext, callees: Callees, destination: nat)
    requires StepIn(s, env, code, callees).Ok?
    requires s.frames != [] && Top(s.frames).progCounter < |code.code.instructions|
    requires code.code.instructions[Top(s.frames).progCounter] == JumpIfFalseAndPopStack(destination)
    ensures var pc' := Top(StepIn(s, env, code, callees).value.frames).progCounter;
            pc' == destination || pc' == AsUsize(Top(s.frames).progCounter + 1)
  {
  }

  /** Every instruction the match does not list panics: `ForIter`,
      `PopTop` and the unresolved placeholders. */
  lemma StepUnsupported(s: Machine, env: Env, code: CodeObjectContext, callees: Callees)
    requires s.frames != [] && Top(s.frames).progCounter < |code.code.instructions|
    requires var i := code.code.instructions[Top(s.frames).progCounter];
             i.ForIter? || i.PopTop? || i.UnresolvedBreak? || i.UnresolvedStoreAttr? ||
             i.UnresolvedStoreName? || i.UnresolvedLoadName?
    ensures StepIn(s, env, code, callees) == Err(Unsupported)
  {
    ExecuteUnsupported(s, env, code, callees, code.code.instructions[Top(s.frames).progCounter]);
  }

  /** The handler dispatch panics on the instructions it does not list. */
  lemma ExecuteUnsupported(s: Machine, env: Env, code: CodeObjectContext, callees: Callees, i: Instruction)
    requires i.ForIter? || i.PopTop? || i.UnresolvedBreak? || i.UnresolvedStoreAttr? ||
             i.UnresolvedStoreName? || i.UnresolvedLoadName?
    ensures ExecuteIn(s, env, code, callees, i) == Err(Unsupported)
  {
    assert OperatorOf(i).None?;
  }

  // ---------------------------------------------------------------------
  // The handlers performed on the runtime in place
  // ---------------------------------------------------------------------

  /** The part of the runtime the handlers change: its frames and heap. */
  function Snapshot(rt: Runtime): Machine
    reads rt, rt.memory
  {
    Machine(rt.frames, rt.memory.State())
  }

  /** The part of the runtime the handlers only read. */
  function EnvOf(rt: Runtime): Env
    reads rt
  {
    Env(rt.builtinTypeAddrs, rt.specialValues, rt.modules, rt.builtinNames)
  }

  method PopValue(rt: Runtime) returns (r: Result<Addr, Panic>)
    modifies rt
    ensures r.Ok? <==> old(Pop(Snapshot(rt))).Ok?
    ensures r.Ok? ==> (Snapshot(rt), r.value) == old(Pop(Snapshot(rt))).value
    ensures rt.Registry() == old(rt.Registry())
  {
    r := rt.PopStack();
  }

  method PushValue(rt: Runtime, a: Addr) returns (r: Result<(), Panic>)
    modifies rt
    ensures Performs(r, Snapshot(rt), old(Push(Snapshot(rt), a)))
    ensures rt.Registry() == old(rt.Registry())
  {
    r := rt.PushOntoStack(a);
  }

  method IncRef(rt: Runtime, a: Addr) returns (r: Result<(), Panic>)
    modifies rt.memory
    ensures Performs(r, Snapshot(rt), old(Increase(Snapshot(rt), a)))
    ensures old(rt.Valid()) ==> rt.Valid()
  {
    r := rt.IncreaseRefcount(a);
  }

  method DecRef(rt: Runtime, a: Addr) returns (r: Result<(), Panic>)
    modifies rt.memory
    ensures Performs(r, Snapshot(rt), old(Decrease(Snapshot(rt), a)))
    ensures old(rt.Valid()) ==> rt.Valid()
  {
    r := rt.DecreaseRefcount(a);
  }

  /** `n` values popped, the topmost first. */
  method PopValues(rt: Runtime, n: nat) returns (r: Result<seq<Addr>, Panic>)
    modifies rt
    ensures r.Ok? <==> old(PopN(Snapshot(rt), n)).Ok?
    ensures r.Ok? ==> (Snapshot(rt), r.value) == old(PopN(Snapshot(rt), n)).value
    ensures rt.Registry() == old(rt.Registry())
  {
    var popped: seq<Addr> := [];
    var i := 0;
    while i < n
      invariant i <= n
      invariant PopN(old(Snapshot(rt)), i) == Ok((Snapshot(rt), popped))
      invariant rt.Registry() == old(rt.Registry())
    {
      var v := PopValue(rt);
      if v.Err? {
        PopNStopsAt(old(Snapshot(rt)), i, n);
        return Err(v.error);
      }
      popped := popped + [v.value];
      i := i + 1;
    }
    return Ok(popped);
  }

  /** `handle_function_call`; running the function leaves its frame on
      top of the frame stack. */
  method HandleFunctionCall(rt: Runtime, n: nat, run: FunctionRunner) returns (r: Result<(), Panic>)
    modifies rt, rt.memory
    ensures Performs(r, Snapshot(rt), FunctionCallIn(old(Snapshot(rt)), n, run))
    ensures rt.Registry() == old(rt.Registry())
    ensures old(rt.Valid()) ==> rt.Valid()
  {
    var args := PopValues(rt, n);
    if args.Err? {
      return Err(args.error);
    }
    var callee := PopValue(rt);
    if callee.Err? {
      return Err(callee.error);
    }
    var increased := IncreaseEach(rt.memory, args.value);
    if increased.Err? {
      return Err(increased.error);
    }
    var c := run(rt.memory.State(), callee.value, args.value);
    rt.memory.Replace(c.mem);
    rt.frames := rt.frames + [c.frame];
    var refcount := rt.GetRefcount(c.returned);
    if refcount.Err? {
      return Err(refcount.error);
    }
    if refcount.value == 0 {
      return Err(ZeroRefcount(c.returned));
    }
    var _ := rt.IncreaseRefcount(c.returned);
    var decreased := DecreaseEach(rt.memory, args.value);
    if decreased.Err? {
      return Err(decreased.error);
    }
    var popped := rt.PopStackFrame();
    if popped.Err? {
      return Err(popped.error);
    }
    r := PushValue(rt, c.returned);
  }

  /** `handle_load_const`. */
  method HandleLoadConst(rt: Runtime, code: CodeObjectContext, index: nat) returns (r: Result<(), Panic>)
    modifies rt
    ensures Performs(r, Snapshot(rt), old(LoadConstIn(Snapshot(rt), code.consts, index)))
    ensures rt.Registry() == old(rt.Registry())
  {
    if index >= |code.consts| {
      return Err(IndexOutOfBounds(index));
    }
    r := PushValue(rt, code.consts[index]);
  }

  /** `curry_self`, with the bound method referenced and pushed. */
  method PushBoundMethod(rt: Runtime, callee: Addr, self: Addr) returns (r: Result<(), Panic>)
    modifies rt, rt.memory
    ensures Performs(r, Snapshot(rt), CurryIn(old(Snapshot(rt)), old(rt.specialValues), callee, self))
    ensures rt.Registry() == old(rt.Registry())
    ensures old(rt.Valid()) ==> rt.Valid()
  {
    if CallableType !in rt.specialValues {
      return Err(MissingSpecialValue);
    }
    var bound := rt.memory.AllocateAndWrite(PyObject(rt.specialValues[CallableType], BoundMethod(callee, self), map[], false));
    var increased := IncRef(rt, bound);
    if increased.Err? {
      return Err(increased.error);
    }
    r := PushValue(rt, bound);
  }

  /** `handle_load_attr`. */
  method HandleLoadAttr(rt: Runtime, attr: string) returns (r: Result<(), Panic>)
    modifies rt, rt.memory
    ensures Performs(r, Snapshot(rt), LoadAttrIn(old(Snapshot(rt)), old(rt.specialValues), attr))
    ensures rt.Registry() == old(rt.Registry())
    ensures old(rt.Valid()) ==> rt.Valid()
  {
    var top := rt.TopStack();
    if top.Err? {
      return Err(top.error);
    }
    var a := top.value;
    var got := rt.memory.Get(a);
    if got.Err? {
      return Err(got.error);
    }
    var obj := got.value;
    if obj.structure.Object? && obj.structure.rawData.ClassInstance? {
      var viaInstance := rt.GetMethodAddrByName(obj.typeAddr, attr);
      if viaInstance.Err? {
        return Err(viaInstance.error);
      }
      if viaInstance.value.Some? {
        r := PushBoundMethod(rt, viaInstance.value.value, a);
        return;
      }
    }
    if attr in obj.properties {
      r := PushValue(rt, obj.properties[attr]);
      return;
    }
    var onType := rt.GetMethodAddrByName(obj.typeAddr, attr);
    if onType.Err? {
      return Err(onType.error);
    }
    if onType.value.Some? {
      r := PushValue(rt, onType.value.value);
      return;
    }
    var inModule := FindInModuleAddrIn(rt.memory.State(), a, attr);
    if inModule.Err? {
      return Err(inModule.error);
    }
    if inModule.value.None? {
      return Err(NameMissing(attr));
    }
    r := PushValue(rt, inModule.value.value);
  }

  /** `handle_load_global`. */
  method HandleLoadGlobal(rt: Runtime, code: CodeObjectContext, name: nat) returns (r: Result<(), Panic>)
    modifies rt
    ensures Performs(r, Snapshot(rt), old(LoadGlobalIn(Snapshot(rt), EnvOf(rt), code, name)))
    ensures rt.Registry() == old(rt.Registry())
  {
    if name < |rt.builtinNames| {
      if NoneValue !in rt.specialValues {
        return Err(MissingSpecialValue);
      }
      if rt.builtinNames[name] != rt.specialValues[NoneValue] {
        r := PushValue(rt, rt.builtinNames[name]);
        return;
      }
    }
    var names := code.code.names;
    if name < |names| {
      var inBuiltins := rt.FindInModule(BUILTIN_MODULE, names[name]);
      if inBuiltins.Err? {
        return Err(inBuiltins.error);
      }
      if inBuiltins.value.Some? {
        r := PushValue(rt, inBuiltins.value.value);
        return;
      }
      var inMain := rt.FindInModule(MAIN_MODULE, names[name]);
      if inMain.Err? {
        return Err(inMain.error);
      }
      if inMain.value.Some? {
        r := PushValue(rt, inMain.value.value);
        return;
      }
    }
    if name >= |names| {
      return Err(IndexOutOfBounds(name));
    }
    var found := rt.FindModule(names[name]);
    if found.None? {
      return Err(NameMissing(names[name]));
    }
    r := PushValue(rt, found.value);
  }

  /** `handle_load_name`. */
  method HandleLoadName(rt: Runtime, code: CodeObjectContext, name: nat) returns (r: Result<(), Panic>)
    modifies rt
    ensures Performs(r, Snapshot(rt), old(LoadNameIn(Snapshot(rt), EnvOf(rt), code, name)))
    ensures rt.Registry() == old(rt.Registry())
  {
    var local := rt.GetLocal(name);
    if local.Err? {
      return Err(local.error);
    }
    if local.value.Some? {
      r := PushValue(rt, local.value.value);
      return;
    }
    if name < |rt.builtinNames| {
      r := PushValue(rt, rt.builtinNames[name]);
      return;
    }
    if name >= |code.code.names| {
      return Err(IndexOutOfBounds(name));
    }
    var n := code.code.names[name];
    var inBuiltins := rt.FindInModule(BUILTIN_MODULE, n);
    if inBuiltins.Err? {
      return Err(inBuiltins.error);
    }
    if inBuiltins.value.Some? {
      r := PushValue(rt, inBuiltins.value.value);
      return;
    }
    var inMain := rt.FindInModule(MAIN_MODULE, n);
    if inMain.Err? {
      return Err(inMain.error);
    }
    if inMain.value.None? {
      return Err(NameMissing(n));
    }
    r := PushValue(rt, inMain.value.value);
  }

  /** `handle_store_name`, with the new value referenced before the old
      binding is released. */
  method HandleStoreName(rt: Runtime, name: nat) returns (r: Result<(), Panic>)
    modifies rt, rt.memory
    ensures Performs(r, Snapshot(rt), StoreNameIn(old(Snapshot(rt)), name))
    ensures rt.Registry() == old(rt.Registry())
    ensures old(rt.Valid()) ==> rt.Valid()
  {
    var previous := rt.GetLocal(name);
    if previous.Err? {
      return Err(previous.error);
    }
    var v := PopValue(rt);
    if v.Err? {
      return Err(v.error);
    }
    var increased := IncRef(rt, v.value);
    if increased.Err? {
      return Err(increased.error);
    }
    if previous.value.Some? {
      var decreased := DecRef(rt, previous.value.value);
      if decreased.Err? {
        return Err(decreased.error);
      }
    }
    r := rt.BindLocal(name, v.value);
  }

  /** `handle_jump_if_false_pop`: whether it jumped. */
  method HandleJumpIfFalse(rt: Runtime, destination: nat, native: NativeRunner)
    returns (r: Result<bool, Panic>)
    modifies rt, rt.memory
    ensures PerformsStep(r, Snapshot(rt), JumpIfFalseIn(old(Snapshot(rt)), destination, BoolOfIn(native)))
    ensures rt.Registry() == old(rt.Registry())
    ensures old(rt.Valid()) ==> rt.Valid()
  {
    var top := PopValue(rt);
    if top.Err? {
      return Err(top.error);
    }
    var a := top.value;
    var raw := rt.GetRawDataOfPyobj(a);
    if raw.Err? {
      return Err(raw.error);
    }
    var flag: int;
    if raw.value.Int? {
      flag := raw.value.i;
    } else {
      var asBoolean := rt.CallMethod(a, "__bool__", [], native);
      if asBoolean.Err? {
        return Err(asBoolean.error);
      }
      if asBoolean.value.None? {
        return Err(MethodMissing("__bool__"));
      }
      var d := rt.GetRawDataOfPyobj(asBoolean.value.value.returned);
      if d.Err? {
        return Err(d.error);
      }
      var i := TakeInt(d.value);
      if i.Err? {
        return Err(i.error);
      }
      flag := i.value;
    }
    if flag == 0 {
      var _ := rt.SetPc(destination);
    }
    var released := DecRef(rt, a);
    if released.Err? {
      return Err(released.error);
    }
    r := Ok(flag == 0);
  }

  /** `handle_build_list`. */
  method HandleBuildList(rt: Runtime, n: nat) returns (r: Result<(), Panic>)
    modifies rt, rt.memory
    ensures Performs(r, Snapshot(rt), BuildListIn(old(Snapshot(rt)), old(rt.builtinTypeAddrs.listType), n))
    ensures rt.Registry() == old(rt.Registry())
    ensures old(rt.Valid()) ==> rt.Valid()
  {
    var elements := PopValues(rt, n);
    if elements.Err? {
      return Err(elements.error);
    }
    var built := rt.memory.AllocateAndWriteBuiltin(rt.builtinTypeAddrs.listType, List(Sequences.Reverse(elements.value)));
    if built.Err? {
      return Err(built.error);
    }
    r := PushValue(rt, built.value);
  }

  /** `ReturnValue`. */
  method HandleReturnValue(rt: Runtime, instructionCount: nat) returns (r: Result<(), Panic>)
    modifies rt, rt.memory
    ensures Performs(r, Snapshot(rt), ReturnValueIn(old(Snapshot(rt)), instructionCount))
    ensures rt.Registry() == old(rt.Registry())
    ensures old(rt.Valid()) ==> rt.Valid()
  {
    var top := rt.TopStack();
    if top.Err? {
      return Err(top.error);
    }
    var increased := IncRef(rt, top.value);
    if increased.Err? {
      return Err(increased.error);
    }
    r := rt.SetPc(instructionCount);
  }

  /** `IndexAccess`. */
  method HandleIndexAccess(rt: Runtime) returns (r: Result<(), Panic>)
    modifies rt
    ensures Performs(r, Snapshot(rt), old(IndexAccessIn(Snapshot(rt))))
    ensures rt.Registry() == old(rt.Registry())
  {
    var indexValue := PopValue(rt);
    if indexValue.Err? {
      return Err(indexValue.error);
    }
    var indexed := PopValue(rt);
    if indexed.Err? {
      return Err(indexed.error);
    }
    var indexData := rt.GetRawDataOfPyobj(indexValue.value);
    if indexData.Err? {
      return Err(indexData.error);
    }
    var index := TakeInt(indexData.value);
    if index.Err? {
      return Err(index.error);
    }
    var listData := rt.GetRawDataOfPyobj(indexed.value);
    if listData.Err? {
      return Err(listData.error);
    }
    var items := TakeList(listData.value);
    if items.Err? {
      return Err(items.error);
    }
    var k := AsUsize(index.value);
    if k >= |items.value| {
      return Err(IndexOutOfBounds(k));
    }
    r := PushValue(rt, items.value[k]);
  }

  /** `Raise`. */
  method HandleRaise(rt: Runtime) returns (r: Result<(), Panic>)
    modifies rt
    ensures Performs(r, Snapshot(rt), old(RaiseInstructionIn(Snapshot(rt))))
    ensures rt.Registry() == old(rt.Registry())
  {
    var exception := PopValue(rt);
    if exception.Err? {
      return Err(exception.error);
    }
    r := rt.RaiseException(exception.value);
  }

  /** `StoreAttr`, setting the attribute as `set_attribute` of the VM
      does. */
  method HandleStoreAttr(rt: Runtime, code: CodeObjectContext, attrName: nat) returns (r: Result<(), Panic>)
    modifies rt, rt.memory
    ensures Performs(r, Snapshot(rt), StoreAttrIn(old(Snapshot(rt)), code, attrName))
    ensures rt.Registry() == old(rt.Registry())
    ensures old(rt.Valid()) ==> rt.Valid()
  {
    var obj := PopValue(rt);
    if obj.Err? {
      return Err(obj.error);
    }
    var value := PopValue(rt);
    if value.Err? {
      return Err(value.error);
    }
    if attrName >= |code.code.names| {
      return Err(IndexOutOfBounds(attrName));
    }
    var got := rt.memory.Get(obj.value);
    if got.Err? {
      return Err(got.error);
    }
    r := rt.memory.Write(obj.value, got.value.(properties := got.value.properties[code.code.names[attrName] := value.value]));
  }

  /** The two pops and reads that start every operator handler. */
  method TakeOperands(rt: Runtime) returns (r: Result<Operands, Panic>)
    modifies rt
    ensures r.Ok? <==> old(PopOperands(Snapshot(rt))).Ok?
    ensures r.Ok? ==> r.value == old(PopOperands(Snapshot(rt))).value && Snapshot(rt) == r.value.rest
    ensures rt.Registry() == old(rt.Registry())
  {
    var tos := PopValue(rt);
    if tos.Err? {
      return Err(tos.error);
    }
    var tos1 := PopValue(rt);
    if tos1.Err? {
      return Err(tos1.error);
    }
    var obj := rt.memory.Get(tos.value);
    if obj.Err? {
      return Err(obj.error);
    }
    var obj1 := rt.memory.Get(tos1.value);
    if obj1.Err? {
      return Err(obj1.error);
    }
    r := Ok(Operands(Snapshot(rt), tos.value, tos1.value, obj.value, obj1.value));
  }

  /** The slow path of every operator handler. */
  method Fallback(rt: Runtime, o: Operands, dunder: string, run: FunctionRunner)
    returns (r: Result<(), Panic>)
    requires Snapshot(rt) == o.rest
    modifies rt, rt.memory
    ensures Performs(r, Snapshot(rt), FallbackIn(o, old(EnvOf(rt)), dunder, run))
    ensures rt.Registry() == old(rt.Registry())
    ensures old(rt.Valid()) ==> rt.Valid()
  {
    var pushed := PushValue(rt, o.tos1);
    if pushed.Err? {
      return Err(pushed.error);
    }
    var loaded := HandleLoadAttr(rt, dunder);
    if loaded.Err? {
      return Err(loaded.error);
    }
    var _ := PushValue(rt, o.tos);
    r := HandleFunctionCall(rt, 1, run);
  }

  /** The release of unreferenced operands after a fast path. */
  method ReleaseOperands(rt: Runtime, o: Operands) returns (r: Result<(), Panic>)
    requires Snapshot(rt) == o.rest && o.obj.structure.Object? && o.obj1.structure.Object?
    modifies rt.memory
    ensures Performs(r, Snapshot(rt), ReleaseTemporaries(o))
    ensures old(rt.Valid()) ==> rt.Valid()
  {
    if o.obj.structure.refcount == 0 {
      var decreased := DecRef(rt, o.tos);
      if decreased.Err? {
        return Err(decreased.error);
      }
    }
    if o.obj1.structure.refcount == 0 {
      var decreased := DecRef(rt, o.tos1);
      if decreased.Err? {
        return Err(decreased.error);
      }
    }
    r := Ok(());
  }

  /** The end of an arithmetic fast path. */
  method PushArithResult(rt: Runtime, o: Operands, data: BuiltInTypeData) returns (r: Result<(), Panic>)
    requires Snapshot(rt) == o.rest && o.obj.structure.Object? && o.obj1.structure.Object?
    modifies rt, rt.memory
    ensures Performs(r, Snapshot(rt), ArithResultIn(o, data, old(rt.builtinTypeAddrs)))
    ensures rt.Registry() == old(rt.Registry())
    ensures old(rt.Valid()) ==> rt.Valid()
  {
    var released := ReleaseOperands(rt, o);
    if released.Err? {
      return Err(released.error);
    }
    var t;
    if data.Int? {
      t := rt.builtinTypeAddrs.intType;
    } else if data.Float? {
      t := rt.builtinTypeAddrs.floatType;
    } else {
      return Err(Unsupported);
    }
    var result := rt.memory.AllocateAndWriteBuiltin(t, data);
    if result.Err? {
      return Err(result.error);
    }
    r := PushValue(rt, result.value);
  }

  /** The end of a compare fast path. */
  method PushCompareResult(rt: Runtime, o: Operands, result: bool) returns (r: Result<(), Panic>)
    requires Snapshot(rt) == o.rest && o.obj.structure.Object? && o.obj1.structure.Object?
    modifies rt, rt.memory
    ensures Performs(r, Snapshot(rt), CompareResultIn(o, result, old(rt.builtinTypeAddrs)))
    ensures rt.Registry() == old(rt.Registry())
    ensures old(rt.Valid()) ==> rt.Valid()
  {
    var released := ReleaseOperands(rt, o);
    if released.Err? {
      return Err(released.error);
    }
    r := PushValue(rt, if result then rt.builtinTypeAddrs.trueVal else rt.builtinTypeAddrs.falseVal);
  }

  /** `create_binary_operator!`. */
  method HandleBinary(rt: Runtime, op: ArithOp, callees: Callees) returns (r: Result<(), Panic>)
    modifies rt, rt.memory
    ensures Performs(r, Snapshot(rt), BinaryIn(old(Snapshot(rt)), old(EnvOf(rt)), op, callees))
    ensures rt.Registry() == old(rt.Registry())
    ensures old(rt.Valid()) ==> rt.Valid()
  {
    var o := TakeOperands(rt);
    if o.Err? {
      return Err(o.error);
    }
    var payloads := Payloads(o.value);
    var fast := if payloads.Some? then FastArith(op, payloads.value.0, payloads.value.1, callees.floats) else None;
    if fast.None? {
      r := Fallback(rt, o.value, ArithDunder(op), callees.run);
      return;
    }
    if fast.value.Err? {
      return Err(fast.value.error);
    }
    r := PushArithResult(rt, o.value, fast.value.value);
  }

  /** `handle_binary_truediv`. */
  method HandleTrueDiv(rt: Runtime, callees: Callees) returns (r: Result<(), Panic>)
    modifies rt, rt.memory
    ensures Performs(r, Snapshot(rt), TrueDivIn(old(Snapshot(rt)), old(EnvOf(rt)), callees))
    ensures rt.Registry() == old(rt.Registry())
    ensures old(rt.Valid()) ==> rt.Valid()
  {
    var o := TakeOperands(rt);
    if o.Err? {
      return Err(o.error);
    }
    var payloads := Payloads(o.value);
    var fast := if payloads.Some? then FastTrueDiv(payloads.value.0, payloads.value.1, callees.floats) else None;
    if fast.None? {
      r := Fallback(rt, o.value, "__truediv__", callees.run);
      return;
    }
    r := PushArithResult(rt, o.value, fast.value);
  }

  /** `create_compare_operator!`, each comparison generated from its own
      operator. */
  method HandleCompare(rt: Runtime, op: CompareOp, callees: Callees) returns (r: Result<(), Panic>)
    modifies rt, rt.memory
    ensures Performs(r, Snapshot(rt), CompareIn(old(Snapshot(rt)), old(EnvOf(rt)), op, op, callees))
    ensures rt.Registry() == old(rt.Registry())
    ensures old(rt.Valid()) ==> rt.Valid()
  {
    var o := TakeOperands(rt);
    if o.Err? {
      return Err(o.error);
    }
    var payloads := Payloads(o.value);
    var fast := if payloads.Some? then FastCompare(op, payloads.value.0, payloads.value.1, callees.floats) else None;
    if fast.None? {
      r := Fallback(rt, o.value, CompareDunder(op), callees.run);
      return;
    }
    r := PushCompareResult(rt, o.value, fast.value);
  }

  /** The handler of an operator. */
  method HandleOperator(rt: Runtime, op: Operator, callees: Callees) returns (r: Result<(), Panic>)
    modifies rt, rt.memory
    ensures Performs(r, Snapshot(rt), OperatorIn(old(Snapshot(rt)), old(EnvOf(rt)), op, callees))
    ensures rt.Registry() == old(rt.Registry())
    ensures old(rt.Valid()) ==> rt.Valid()
  {
    match op
    case Arith(a) => r := HandleBinary(rt, a, callees);
    case Compare(c) => r := HandleCompare(rt, c, callees);
    case TrueDiv => r := HandleTrueDiv(rt, callees);
  }

  /** The arms of the `match` for names, constants and calls. */
  method ExecuteName(rt: Runtime, code: CodeObjectContext, callees: Callees, instruction: Instruction) returns (r: Result<(), Panic>)
    requires NameInstruction(instruction)
    modifies rt, rt.memory
    ensures Performs(r, Snapshot(rt), NameIn(old(Snapshot(rt)), old(EnvOf(rt)), code, callees, instruction))
    ensures rt.Registry() == old(rt.Registry())
    ensures old(rt.Valid()) ==> rt.Valid()
  {
    if instruction.LoadConst? {
      r := HandleLoadConst(rt, code, instruction.index);
    } else if instruction.CallFunction? {
      r := HandleFunctionCall(rt, instruction.numberArguments, callees.run);
    } else if instruction.LoadName? {
      r := HandleLoadName(rt, code, instruction.name);
    } else if instruction.LoadGlobal? {
      r := HandleLoadGlobal(rt, code, instruction.name);
    } else if instruction.LoadAttr? {
      r := HandleLoadAttr(rt, instruction.attr);
    } else if instruction.StoreName? {
      r := HandleStoreName(rt, instruction.name);
    } else {
      r := HandleStoreAttr(rt, code, instruction.attrName);
    }
  }

  /** The arms of the `match` that move the pc. */
  method ExecuteFlow(rt: Runtime, code: CodeObjectContext, callees: Callees, instruction: Instruction) returns (r: Result<bool, Panic>)
    requires FlowInstruction(instruction)
    modifies rt, rt.memory
    ensures PerformsStep(r, Snapshot(rt), FlowIn(old(Snapshot(rt)), code, callees, instruction))
    ensures rt.Registry() == old(rt.Registry())
    ensures old(rt.Valid()) ==> rt.Valid()
  {
    if instruction.JumpIfFalseAndPopStack? {
      var jumped := HandleJumpIfFalse(rt, instruction.destination, callees.native);
      r := if jumped.Ok? then Ok(!jumped.value) else jumped;
    } else if instruction.JumpUnconditional? {
      var jumped := rt.SetPc(instruction.destination);
      r := if jumped.Ok? then Ok(false) else Err(jumped.error);
    } else {
      var done := HandleReturnValue(rt, |code.code.instructions|);
      r := AdvancingOutcome(done);
    }
  }

  /** The arms of the `match` that build, index or raise a value. */
  method ExecuteValue(rt: Runtime, instruction: Instruction) returns (r: Result<(), Panic>)
    requires ValueInstruction(instruction)
    modifies rt, rt.memory
    ensures Performs(r, Snapshot(rt), ValueIn(old(Snapshot(rt)), old(EnvOf(rt)), instruction))
    ensures rt.Registry() == old(rt.Registry())
    ensures old(rt.Valid()) ==> rt.Valid()
  {
    if instruction.BuildList? {
      r := HandleBuildList(rt, instruction.numberElements);
    } else if instruction.IndexAccess? {
      r := HandleIndexAccess(rt);
    } else {
      r := HandleRaise(rt);
    }
  }

  /** The arms of the `match` for every instruction that is not an
      operator. */
  method ExecuteOther(rt: Runtime, code: CodeObjectContext, callees: Callees, instruction: Instruction) returns (r: Result<bool, Panic>)
    requires OperatorOf(instruction).None?
    modifies rt, rt.memory
    ensures PerformsStep(r, Snapshot(rt), ExecuteIn(old(Snapshot(rt)), old(EnvOf(rt)), code, callees, instruction))
    ensures rt.Registry() == old(rt.Registry())
    ensures old(rt.Valid()) ==> rt.Valid()
  {
    ghost var s0, env0 := Snapshot(rt), EnvOf(rt);
    if NameInstruction(instruction) {
      var done := ExecuteName(rt, code, callees, instruction);
      PerformsAdvancing(done, Snapshot(rt), NameIn(s0, env0, code, callees, instruction));
      assert ExecuteIn(s0, env0, code, callees, instruction) == Advancing(NameIn(s0, env0, code, callees, instruction));
      r := AdvancingOutcome(done);
    } else if FlowInstruction(instruction) {
      r := ExecuteFlow(rt, code, callees, instruction);
    } else if ValueInstruction(instruction) {
      var done := ExecuteValue(rt, instruction);
      PerformsAdvancing(done, Snapshot(rt), ValueIn(s0, env0, instruction));
      assert ExecuteIn(s0, env0, code, callees, instruction) == Advancing(ValueIn(s0, env0, instruction));
      r := AdvancingOutcome(done);
    } else {
      assert ExecuteIn(s0, env0, code, callees, instruction) == Err(Unsupported);
      r := Err(Unsupported);
    }
  }

  /** The `match` of `execute_next_instruction`: whether the pc is still
      to advance. */
  method Execute(rt: Runtime, code: CodeObjectContext, callees: Callees, instruction: Instruction) returns (r: Result<bool, Panic>)
    modifies rt, rt.memory
    ensures PerformsStep(r, Snapshot(rt), ExecuteIn(old(Snapshot(rt)), old(EnvOf(rt)), code, callees, instruction))
    ensures rt.Registry() == old(rt.Registry())
    ensures old(rt.Valid()) ==> rt.Valid()
  {
    ghost var s0, env0 := Snapshot(rt), EnvOf(rt);
    var op := OperatorOf(instruction);
    if op.Some? {
      var done := HandleOperator(rt, op.value, callees);
      PerformsAdvancing(done, Snapshot(rt), OperatorIn(s0, env0, op.value, callees));
      assert ExecuteIn(s0, env0, code, callees, instruction) == Advancing(OperatorIn(s0, env0, op.value, callees));
      r := AdvancingOutcome(done);
    } else {
      r := ExecuteOther(rt, code, callees, instruction);
    }
  }

  /** `execute_next_instruction`. */
  method ExecuteNextInstruction(rt: Runtime, code: CodeObjectContext, callees: Callees) returns (r: Result<(), Panic>)
    modifies rt, rt.memory
    ensures Performs(r, Snapshot(rt), StepIn(old(Snapshot(rt)), old(EnvOf(rt)), code, callees))
    ensures rt.Registry() == old(rt.Registry())
    ensures old(rt.Valid()) ==> rt.Valid()
  {
    var pc := rt.GetPc();
    if pc.Err? {
      return Err(pc.error);
    }
    if pc.value >= |code.code.instructions| {
      return Err(IndexOutOfBounds(pc.value));
    }
    var advance := Execute(rt, code, callees, code.code.instructions[pc.value]);
    if advance.Err? {
      return Err(advance.error);
    }
    r := Advance(rt, advance.value);
  }

  /** The end of `execute_next_instruction`. */
  method Advance(rt: Runtime, advance: bool) returns (r: Result<(), Panic>)
    modifies rt
    ensures Performs(r, Snapshot(rt), old(AdvanceIn(Snapshot(rt), advance)))
    ensures rt.Registry() == old(rt.Registry())
  {
    if advance {
      r := rt.JumpPc(1);
    } else {
      r := Ok(());
    }
  }

  /** `execute_code_object`, for at most `fuel` instructions: whether the
      pc got past the end of the code. */
  method ExecuteCodeObject(rt: Runtime, code: CodeObjectContext, callees: Callees, fuel: nat) returns (r: Result<bool, Panic>)
    modifies rt, rt.memory
    ensures PerformsStep(r, Snapshot(rt), RunIn(old(Snapshot(rt)), old(EnvOf(rt)), code, callees, fuel))
    ensures rt.Registry() == old(rt.Registry())
    ensures old(rt.Valid()) ==> rt.Valid()
  {
    var left := fuel;
    while true
      invariant RunIn(Snapshot(rt), EnvOf(rt), code, callees, left) == RunIn(old(Snapshot(rt)), old(EnvOf(rt)), code, callees, fuel)
      invariant rt.Registry() == old(rt.Registry())
      invariant old(rt.Valid()) ==> rt.Valid()
      decreases left
    {
      var pc := rt.GetPc();
      if pc.Err? {
        return Err(pc.error);
      }
      if pc.value >= |code.code.instructions| {
        return Ok(true);
      }
      if left == 0 {
        return Ok(false);
      }
      var stepped := ExecuteNextInstruction(rt, code, callees);
      if stepped.Err? {
        return Err(stepped.error);
      }
      left := left - 1;
    }
  }
}
