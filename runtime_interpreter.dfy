/*
 * The instruction handlers and the fetch-execute loop of
 * src/runtime/interpreter.rs, run on the VM of src/runtime/vm.rs.
 *
 * Each handler is stated as a function on the VM's frames and heap
 * (`Machine`, from module Handlers) and performed by a method on the VM
 * whose new state is that function's result; the properties the source
 * promises are lemmas about the functions. A callee (a native function or
 * the interpreter run on a user function's code) is a parameter, a
 * `Runner`: it is given the heap and gives back the heap it leaves, the
 * address it returns and the exception its frame held. Floating-point
 * results are parameters too.
 */
module RuntimeInterpreter {

  import opened Wrappers
  import opened RuntimeDataModel
  import opened UnsafeMemory
  import opened Frames
  import opened ObjectSpace
  import opened Program
  import opened Vm
  import opened Handlers
  import opened Sequences

  /** What the handlers read of the VM besides its frames and heap. */
  datatype Env = Env(types: BuiltinTypeAddresses, special: map<SpecialValue, Addr>, modules: map<string, Addr>)

  /** What the model leaves uninterpreted: running a callee
      (`run_function` on the heap, the callee's address, the bound object
      and the arguments) and floating-point arithmetic. */
  datatype Callees = Callees(run: Runner, floats: FloatOps)

  // ---------------------------------------------------------------------
  // Handlers as functions of the state
  // ---------------------------------------------------------------------

  /** `handle_function_call`: `n` arguments popped, then the callee; the
      arguments, back in call order, each hold one more reference while
      the callee runs on the heap. In the heap it leaves, the returned
      value must be referenced (a count of 0 panics) and gets one more
      reference; then the arguments are released, an exception on the
      callee's frame is raised on the caller's, and the returned value is
      pushed. */
  function FunctionCallIn(s: Machine, n: nat, run: Runner): (r: Result<Machine, Panic>)
    ensures r.Ok? ==> SamePc(s, r.value)
  {
    var p :- PopN(s, n);
    var f :- Pop(p.0);
    var m1 :- IncreaseAll(f.0.mem, p.1);
    var c := run(m1, f.1, None, FromStackPopped(p.1));
    var rc :- RefcountIn(c.mem, c.returned);
    if rc == 0 then Err(ZeroRefcount(c.returned))
    else
      var m2 := IncreaseIn(c.mem, c.returned).value;
      var m3 :- DecreaseAll(m2, p.1);
      var s1 := f.0.(mem := m3);
      var s2 := if c.exception.Some? then RaiseIn(s1, c.exception.value).value else s1;
      Push(s2, c.returned)
  }

  /** `handle_load_attr`: the object is popped. A class instance whose
      type has a method of that name gives the method bound to it;
      otherwise an own property of that name; otherwise a method on the
      object's type, bound; otherwise, for a module, its global; anything
      else panics. */
  function LoadAttrIn(s: Machine, env: Env, attr: string): (r: Result<Machine, Panic>)
    ensures r.Ok? ==> SamePc(s, r.value)
  {
    var p :- Pop(s);
    var obj :- GetIn(p.0.mem, p.1);
    var viaInstance :-
      if obj.structure.Object? && obj.structure.rawData.ClassInstance?
      then MethodLookup(p.0.mem, obj.typeAddr, attr, Functions, |p.0.mem.heap|)
      else Ok(None);
    if viaInstance.Some? then CurryIn(p.0, env.special, viaInstance.value, p.1)
    else if attr in obj.properties then Push(p.0, obj.properties[attr])
    else
      var onType :- MethodLookup(p.0.mem, obj.typeAddr, attr, Functions, |p.0.mem.heap|);
      if onType.Some? then CurryIn(p.0, env.special, onType.value, p.1)
      else
        var inModule :- FindInModuleAddrIn(p.0.mem, p.1, attr);
        if inModule.None? then Err(NameMissing(attr)) else Push(p.0, inModule.value)
  }

  /** `handle_load_global`: the name looked up in the builtin module, then
      the main module, then the module table; a name missing everywhere,
      or a name index past the names, panics. */
  function LoadGlobalIn(s: Machine, env: Env, code: CodeObjectContext, name: nat): (r: Result<Machine, Panic>)
    ensures r.Ok? ==> SamePc(s, r.value)
  {
    var names := code.code.names;
    var early :-
      if name < |names| then
        var b :- FindInModuleIn(s.mem, env.modules, BUILTIN_MODULE, names[name]);
        if b.Some? then Ok(b) else FindInModuleIn(s.mem, env.modules, MAIN_MODULE, names[name])
      else Ok(None);
    if early.Some? then Push(s, early.value)
    else if name >= |names| then Err(IndexOutOfBounds(name))
    else if names[name] in env.modules then Push(s, env.modules[names[name]])
    else Err(NameMissing(names[name]))
  }

  /** `handle_load_name`: the local slot, then the builtin module, then
      the main module; a name found nowhere panics. */
  function LoadNameIn(s: Machine, env: Env, code: CodeObjectContext, name: nat): (r: Result<Machine, Panic>)
    ensures r.Ok? ==> SamePc(s, r.value)
  {
    var local :- LocalIn(s, name);
    if local.Some? then Push(s, local.value)
    else if name >= |code.code.names| then Err(IndexOutOfBounds(name))
    else
      var n := code.code.names[name];
      var b :- FindInModuleIn(s.mem, env.modules, BUILTIN_MODULE, n);
      if b.Some? then Push(s, b.value)
      else
        var m :- FindInModuleIn(s.mem, env.modules, MAIN_MODULE, n);
        if m.Some? then Push(s, m.value) else Err(NameMissing(n))
  }

  /** `handle_store_attr`: pops the object, then the value; the property
      named by the index is set on the object, and both gain a
      reference. */
  function StoreAttrIn(s: Machine, code: CodeObjectContext, attrName: nat): (r: Result<Machine, Panic>)
    ensures r.Ok? ==> SamePc(s, r.value)
  {
    var p :- Pop(s);
    var q :- Pop(p.0);
    if attrName >= |code.code.names| then Err(IndexOutOfBounds(attrName))
    else
      var m1 :- SetAttributeIn(q.0.mem, p.1, code.code.names[attrName], q.1);
      var m2 := IncreaseIn(m1, p.1).value;
      var m3 :- IncreaseIn(m2, q.1);
      Ok(q.0.(mem := m3))
  }

  /** The slow path of every operator: the deeper operand is pushed back,
      its dunder method loaded, the top operand pushed, and the method
      called with that one argument. */
  function FallbackIn(o: Operands, env: Env, dunder: string, run: Runner): (r: Result<Machine, Panic>)
    ensures r.Ok? ==> SamePc(o.rest, r.value)
  {
    var s1 :- Push(o.rest, o.tos1);
    var s2 :- LoadAttrIn(s1, env, dunder);
    FunctionCallIn(Push(s2, o.tos).value, 1, run)
  }

  /** `create_binary_operator!`. */
  function BinaryIn(s: Machine, env: Env, op: ArithOp, callees: Callees): (r: Result<Machine, Panic>)
    ensures r.Ok? ==> SamePc(s, r.value)
  {
    var o :- PopOperands(s);
    var fast := if Payloads(o).Some? then FastArith(op, Payloads(o).value.0, Payloads(o).value.1, callees.floats) else None;
    if fast.None? then FallbackIn(o, env, ArithDunder(op), callees.run)
    else
      var data :- fast.value;
      ArithResultIn(o, data, env.types)
  }

  /** `handle_binary_truediv`: two numbers divide as floats; anything else
      calls `__truediv__`. */
  function TrueDivIn(s: Machine, env: Env, callees: Callees): (r: Result<Machine, Panic>)
    ensures r.Ok? ==> SamePc(s, r.value)
  {
    var o :- PopOperands(s);
    var fast := if Payloads(o).Some? then FastTrueDiv(Payloads(o).value.0, Payloads(o).value.1, callees.floats) else None;
    if fast.None? then FallbackIn(o, env, "__truediv__", callees.run)
    else ArithResultIn(o, fast.value, env.types)
  }

  /** `create_compare_operator!`. */
  function CompareIn(s: Machine, env: Env, op: CompareOp, callees: Callees): (r: Result<Machine, Panic>)
    ensures r.Ok? ==> SamePc(s, r.value)
  {
    var o :- PopOperands(s);
    var fast := if Payloads(o).Some? then FastCompare(op, Payloads(o).value.0, Payloads(o).value.1, callees.floats) else None;
    if fast.None? then FallbackIn(o, env, CompareDunder(op), callees.run)
    else CompareResultIn(o, fast.value, env.types)
  }

  /** What `__bool__` gives for `handle_jump_if_false_pop`: the heap the
      call leaves and the address it returns, or None when the type has
      no such method. */
  function BoolOf(run: Runner, m: MemState, a: Addr): Result<Option<Outcome>, Panic>
  {
    var c :- CallMethodIn(m, a, "__bool__", [], run);
    Ok(if c.None? then None else Some(Outcome(c.value.mem, c.value.returned)))
  }

  /** `BoolOf`, as the function the jump handler takes. */
  function BoolOfIn(run: Runner): (MemState, Addr) -> Result<Option<Outcome>, Panic>
  {
    (m: MemState, a: Addr) => BoolOf(run, m, a)
  }

  /** `ForIter`: `__next__` is called on the iterator at the top of the
      stack, which stays there, and the heap is the one the call leaves.
      A StopIteration on the callee's frame jumps to the end of the loop;
      no exception pushes the value; another exception is dropped. Returns
      whether the pc is still to advance. */
  function ForIterIn(s: Machine, env: Env, endPtr: nat, run: Runner)
    : (r: Result<(Machine, bool), Panic>)
  {
    var it :- TopIn(s);
    var c :- CallMethodIn(s.mem, it, "__next__", [], run);
    if c.None? then Err(MethodMissing("__next__"))
    else
      var s1 := s.(mem := c.value.mem);
      if c.value.exception.None? then Ok((Push(s1, c.value.returned).value, true))
      else if StopIterationType !in env.special then Err(MissingSpecialValue)
      else if c.value.exception.value == env.special[StopIterationType] then Ok((SetPcIn(s1, endPtr).value, false))
      else Ok((s1, true))
  }

  /** The pc moves on by one after an instruction that neither jumps nor
      ends the code, as long as no exception is left on the frame. */
  predicate StraightLine(instruction: Instruction)
  {
    !(instruction.JumpIfFalseAndPopStack? || instruction.JumpUnconditional? || instruction.ReturnValue? ||
      instruction.ForIter?)
  }

  /** The handler of an operator. */
  function OperatorIn(s: Machine, env: Env, op: Operator, callees: Callees): (r: Result<Machine, Panic>)
    ensures r.Ok? ==> SamePc(s, r.value)
  {
    match op
    case Arith(a) => BinaryIn(s, env, a, callees)
    case Compare(c) => CompareIn(s, env, c, callees)
    case TrueDiv => TrueDivIn(s, env, callees)
  }

  /** The instructions that load or store a constant, a name or an
      attribute, or call a function. */
  predicate NameInstruction(instruction: Instruction)
  {
    || instruction.LoadConst? || instruction.CallFunction? || instruction.LoadName?
    || instruction.LoadGlobal? || instruction.LoadAttr? || instruction.StoreName?
    || instruction.StoreAttr?
  }

  /** The instructions that move the pc or end the code. */
  predicate FlowInstruction(instruction: Instruction)
  {
    || instruction.JumpIfFalseAndPopStack? || instruction.JumpUnconditional?
    || instruction.PopTop? || instruction.ReturnValue? || instruction.ForIter?
  }

  /** The instructions that build, index or raise a value. */
  predicate ValueInstruction(instruction: Instruction)
  {
    instruction.BuildList? || instruction.IndexAccess? || instruction.Raise?
  }

  /** The arms of the `match` for names, constants and calls: handlers
      that leave the pc to advance. */
  function NameIn(s: Machine, env: Env, code: CodeObjectContext, callees: Callees, instruction: Instruction)
    : (r: Result<Machine, Panic>)
    requires NameInstruction(instruction)
    ensures r.Ok? ==> SamePc(s, r.value)
  {
    if instruction.LoadConst? then LoadConstIn(s, code.consts, instruction.index)
    else if instruction.CallFunction? then FunctionCallIn(s, instruction.numberArguments, callees.run)
    else if instruction.LoadName? then LoadNameIn(s, env, code, instruction.name)
    else if instruction.LoadGlobal? then LoadGlobalIn(s, env, code, instruction.name)
    else if instruction.LoadAttr? then LoadAttrIn(s, env, instruction.attr)
    else if instruction.StoreName? then StoreNameIn(s, instruction.name)
    else StoreAttrIn(s, code, instruction.attrName)
  }

  /** The arms of the `match` that may move the pc, with whether it is
      still to advance. */
  function FlowIn(s: Machine, env: Env, code: CodeObjectContext, callees: Callees, instruction: Instruction)
    : (r: Result<(Machine, bool), Panic>)
    requires FlowInstruction(instruction)
    ensures r.Ok? && instruction.PopTop? ==> r.value.1 && SamePc(s, r.value.0)
  {
    if instruction.JumpIfFalseAndPopStack? then
      var j :- JumpIfFalseIn(s, instruction.destination, BoolOfIn(callees.run));
      Ok((j.0, !j.1))
    else if instruction.JumpUnconditional? then
      var s1 :- JumpUnconditionalIn(s, instruction.destination);
      Ok((s1, false))
    else if instruction.PopTop? then
      var p :- Pop(s);
      Ok((p.0, true))
    else if instruction.ReturnValue? then Advancing(ReturnValueIn(s, |code.code.instructions|))
    else ForIterIn(s, env, instruction.endPtr, callees.run)
  }

  /** The arms of the `match` that build, index or raise a value. */
  function ValueIn(s: Machine, env: Env, instruction: Instruction): (r: Result<Machine, Panic>)
    requires ValueInstruction(instruction)
    ensures r.Ok? ==> SamePc(s, r.value)
  {
    if instruction.BuildList? then BuildListIn(s, env.types.listType, instruction.numberElements)
    else if instruction.IndexAccess? then IndexAccessIn(s)
    else RaiseInstructionIn(s)
  }

  /** The `match` of `execute_next_instruction`: the handler for the
      instruction, with whether the pc is still to advance. */
  function ExecuteIn(s: Machine, env: Env, code: CodeObjectContext, callees: Callees, instruction: Instruction)
    : (r: Result<(Machine, bool), Panic>)
    ensures r.Ok? && StraightLine(instruction) ==> r.value.1 && SamePc(s, r.value.0)
  {
    if OperatorOf(instruction).Some? then Advancing(OperatorIn(s, env, OperatorOf(instruction).value, callees))
    else if NameInstruction(instruction) then Advancing(NameIn(s, env, code, callees, instruction))
    else if FlowInstruction(instruction) then FlowIn(s, env, code, callees, instruction)
    else if ValueInstruction(instruction) then Advancing(ValueIn(s, env, instruction))
    else Err(Unsupported)
  }

  /** The end of `execute_next_instruction`: an exception on the current
      frame ends the code with None pushed; otherwise the pc advances by
      one unless the handler jumped. */
  function FinishIn(s: Machine, advance: bool, env: Env, instructionCount: nat): (r: Result<Machine, Panic>)
  {
    if s.frames == [] then Err(NoFrame)
    else if Top(s.frames).exception.Some? then
      if NoneValue !in env.special then Err(MissingSpecialValue)
      else SetPcIn(Push(s, env.special[NoneValue]).value, instructionCount)
    else if advance then JumpPcIn(s, 1)
    else Ok(s)
  }

  /** `execute_next_instruction`: the instruction at the pc, executed. */
  function StepIn(s: Machine, env: Env, code: CodeObjectContext, callees: Callees): (r: Result<Machine, Panic>)
  {
    var pc :- PcIn(s);
    if pc >= |code.code.instructions| then Err(IndexOutOfBounds(pc))
    else
      var e :- ExecuteIn(s, env, code, callees, code.code.instructions[pc]);
      FinishIn(e.0, e.1, env, |code.code.instructions|)
  }

  /** `execute_next_instruction` as the step function of the loop. */
  function StepOf(env: Env, code: CodeObjectContext, callees: Callees): Machine -> Result<Machine, Panic>
  {
    (t: Machine) => StepIn(t, env, code, callees)
  }

  /** `execute_code_object`, for at most `fuel` instructions. */
  function RunIn(s: Machine, env: Env, code: CodeObjectContext, callees: Callees, fuel: nat): (r: Result<(Machine, bool), Panic>)
  {
    RunWith(s, StepOf(env, code, callees), |code.code.instructions|, fuel)
  }

  // ---------------------------------------------------------------------
  // Properties
  // ---------------------------------------------------------------------

  /** The top frame's stack and pc, for stating lemmas. */
  function StackOf(s: Machine): seq<Addr>
    requires s.frames != []
  {
    Top(s.frames).stack
  }

  /** `handle_function_call` passes the `n` arguments in call order, the
      deepest first, and calls the value beneath them. In place of the
      `n + 1` values the returned one is left: a net stack change of
      `-(n + 1) + 1`; an exception the callee reports is raised in the
      caller's frame. */
  lemma FunctionCallSpec(s: Machine, n: nat, run: Runner)
    requires FunctionCallIn(s, n, run).Ok?
    ensures s.frames != [] && |StackOf(s)| >= n + 1
    ensures var st := StackOf(s);
            IncreaseAll(s.mem, PoppedOrder(st, n)).Ok? &&
            var c := run(IncreaseAll(s.mem, PoppedOrder(st, n)).value, st[|st| - n - 1], None, st[|st| - n..]);
            var s' := FunctionCallIn(s, n, run).value;
            |s'.frames| == |s.frames| &&
            StackOf(s') == st[..|st| - n - 1] + [c.returned] &&
            Top(s'.frames).progCounter == Top(s.frames).progCounter &&
            Top(s'.frames).exception == (if c.exception.Some? then c.exception else Top(s.frames).exception)
  {
    if |StackOf(s)| < n {
      PopNTooMany(s, n);
    }
    PopNSpec(s, n);
    assert Top(PopN(s, n).value.0.frames).stack == StackOf(s)[..|StackOf(s)| - n];
    CallOperandsPopped(s, n);
  }

  /** The heap side of `handle_function_call`: the callee runs on the heap
      in which each argument holds one more reference; the value it
      returns is still referenced in the heap it leaves, gets one more
      reference there, and then the arguments are released. */
  lemma FunctionCallHeap(s: Machine, n: nat, run: Runner)
    requires FunctionCallIn(s, n, run).Ok?
    ensures s.frames != [] && |StackOf(s)| >= n + 1
    ensures var st := StackOf(s);
            var entry := IncreaseAll(s.mem, PoppedOrder(st, n));
            entry.Ok? &&
            var c := run(entry.value, st[|st| - n - 1], None, st[|st| - n..]);
            Readable(c.mem, c.returned) && RefcountIn(c.mem, c.returned).value != 0 &&
            var held := IncreaseIn(c.mem, c.returned).value;
            DecreaseAll(held, PoppedOrder(st, n)) == Ok(FunctionCallIn(s, n, run).value.mem)
  {
    if |StackOf(s)| < n {
      PopNTooMany(s, n);
    }
    PopNSpec(s, n);
    assert Top(PopN(s, n).value.0.frames).stack == StackOf(s)[..|StackOf(s)| - n];
    CallOperandsPopped(s, n);
    var p := PopN(s, n).value;
    var f := Pop(p.0).value;
    var c := run(IncreaseAll(f.0.mem, p.1).value, f.1, None, FromStackPopped(p.1));
    assert FunctionCallIn(s, n, run).value.mem == DecreaseAll(IncreaseIn(c.mem, c.returned).value, p.1).value;
  }

  /** A call with fewer than `n + 1` values on the stack panics. */
  lemma FunctionCallUnderflow(s: Machine, n: nat, run: Runner)
    requires s.frames != [] && |StackOf(s)| < n + 1
    ensures FunctionCallIn(s, n, run).Err?
  {
    if |StackOf(s)| < n {
      PopNTooMany(s, n);
    } else {
      PopNSpec(s, n);
    }
  }

  /** `handle_load_name` looks in the locals first, then the builtin
      module, then the main module, pushing the first it finds. */
  lemma LoadNameOrder(s: Machine, env: Env, code: CodeObjectContext, name: nat)
    requires s.frames != [] && BUILTIN_MODULE in env.modules && MAIN_MODULE in env.modules
    requires name < |code.code.names|
    requires FindInModuleIn(s.mem, env.modules, BUILTIN_MODULE, code.code.names[name]).Ok?
    requires FindInModuleIn(s.mem, env.modules, MAIN_MODULE, code.code.names[name]).Ok?
    ensures var local := GetLocalIn(Top(s.frames).locals, name);
            var b := FindInModuleIn(s.mem, env.modules, BUILTIN_MODULE, code.code.names[name]).value;
            var m := FindInModuleIn(s.mem, env.modules, MAIN_MODULE, code.code.names[name]).value;
            LoadNameIn(s, env, code, name) ==
              if local.Some? then Push(s, local.value)
              else if b.Some? then Push(s, b.value)
              else if m.Some? then Push(s, m.value)
              else Err(NameMissing(code.code.names[name]))
  {
  }

  /** After a straight-line instruction that leaves no exception, the pc
      is one past where it was. */
  lemma StepAdvances(s: Machine, env: Env, code: CodeObjectContext, callees: Callees)
    requires StepIn(s, env, code, callees).Ok?
    ensures s.frames != [] && Top(s.frames).progCounter < |code.code.instructions|
    ensures var pc := Top(s.frames).progCounter;
            var s' := StepIn(s, env, code, callees).value;
            StraightLine(code.code.instructions[pc]) && Top(s'.frames).exception.None? ==>
              Top(s'.frames).progCounter == AsUsize(pc + 1)
  {
    var pc := Top(s.frames).progCounter;
    var instruction := code.code.instructions[pc];
  }

  /** When an instruction leaves an exception on the current frame, the
      code ends: None is pushed and the pc set to the instruction
      count. */
  lemma StepOnException(s: Machine, env: Env, code: CodeObjectContext, callees: Callees)
    requires StepIn(s, env, code, callees).Ok?
    ensures s.frames != [] && Top(s.frames).progCounter < |code.code.instructions|
    ensures var e := ExecuteIn(s, env, code, callees, code.code.instructions[Top(s.frames).progCounter]).value.0;
            var s' := StepIn(s, env, code, callees).value;
            e.frames != [] &&
            (Top(e.frames).exception.Some? ==>
               NoneValue in env.special &&
               StackOf(s') == StackOf(e) + [env.special[NoneValue]] &&
               Top(s'.frames).progCounter == |code.code.instructions|)
  {
  }

  /** `JumpUnconditional` sets the pc to its destination and does not
      advance it. */
  lemma StepJumpUnconditional(s: Machine, env: Env, code: CodeObjectContext, callees: Callees, destination: nat)
    requires s.frames != [] && Top(s.frames).progCounter < |code.code.instructions|
    requires code.code.instructions[Top(s.frames).progCounter] == JumpUnconditional(destination)
    requires Top(s.frames).exception.None?
    ensures StepIn(s, env, code, callees).Ok?
    ensures Top(StepIn(s, env, code, callees).value.frames).progCounter == destination
    ensures StackOf(StepIn(s, env, code, callees).value) == StackOf(s)
  {
  }

  /** `ForIter` when the callee's frame holds StopIteration: the pc jumps
      to the loop's end, the iterator stays on the stack, nothing is
      pushed, and the heap is the one `__next__` left. */
  lemma ForIterStops(s: Machine, env: Env, endPtr: nat, run: Runner)
    requires s.frames != [] && StackOf(s) != []
    requires var c := CallMethodIn(s.mem, StackOf(s)[|StackOf(s)| - 1], "__next__", [], run);
             c.Ok? && c.value.Some? && StopIterationType in env.special &&
             c.value.value.exception == Some(env.special[StopIterationType])
    ensures ForIterIn(s, env, endPtr, run).Ok?
    ensures var c := CallMethodIn(s.mem, StackOf(s)[|StackOf(s)| - 1], "__next__", [], run).value.value;
            var (s', advance) := ForIterIn(s, env, endPtr, run).value;
            !advance && StackOf(s') == StackOf(s) && Top(s'.frames).progCounter == endPtr && s'.mem == c.mem
  {
  }

  /** `ForIter` when the callee's frame holds no exception: the next value
      is pushed above the iterator, the pc advances, and the heap is the
      one `__next__` left. */
  lemma ForIterPushes(s: Machine, env: Env, endPtr: nat, run: Runner)
    requires s.frames != [] && StackOf(s) != []
    requires var c := CallMethodIn(s.mem, StackOf(s)[|StackOf(s)| - 1], "__next__", [], run);
             c.Ok? && c.value.Some? && c.value.value.exception.None?
    ensures ForIterIn(s, env, endPtr, run).Ok?
    ensures var c := CallMethodIn(s.mem, StackOf(s)[|StackOf(s)| - 1], "__next__", [], run).value.value;
            var (s', advance) := ForIterIn(s, env, endPtr, run).value;
            advance && StackOf(s') == StackOf(s) + [c.returned] &&
            Top(s'.frames).progCounter == Top(s.frames).progCounter && s'.mem == c.mem
  {
  }

  /** `ForIter` drops any other exception of the callee: nothing is pushed
      and the loop goes on, over the heap `__next__` left. */
  lemma ForIterDropsOtherExceptions(s: Machine, env: Env, endPtr: nat, run: Runner)
    requires s.frames != [] && StackOf(s) != []
    requires var c := CallMethodIn(s.mem, StackOf(s)[|StackOf(s)| - 1], "__next__", [], run);
             c.Ok? && c.value.Some? && c.value.value.exception.Some? && StopIterationType in env.special &&
             c.value.value.exception != Some(env.special[StopIterationType])
    ensures var c := CallMethodIn(s.mem, StackOf(s)[|StackOf(s)| - 1], "__next__", [], run).value.value;
            ForIterIn(s, env, endPtr, run) == Ok((s.(mem := c.mem), true))
  {
  }

  /** An iterator whose type has no `__next__` panics. */
  lemma ForIterNeedsNext(s: Machine, env: Env, endPtr: nat, run: Runner)
    requires s.frames != [] && StackOf(s) != []
    requires CallMethodIn(s.mem, StackOf(s)[|StackOf(s)| - 1], "__next__", [], run) == Ok(None)
    ensures ForIterIn(s, env, endPtr, run) == Err(MethodMissing("__next__"))
  {
  }

  /** The fast path of an arithmetic instruction on two ints: the two
      operands are replaced by a new int object holding `tos1 op tos`. */
  lemma BinaryOnInts(s: Machine, env: Env, op: ArithOp, callees: Callees)
    requires WellFormed(s.mem) && s.frames != [] && |StackOf(s)| >= 2
    requires var o := PopOperands(s);
             o.Ok? && Payloads(o.value).Some? && Payloads(o.value).value.0.Int? && Payloads(o.value).value.1.Int? &&
             o.value.obj.structure.refcount > 0 && o.value.obj1.structure.refcount > 0 &&
             IntArith(op, Payloads(o.value).value.1.i, Payloads(o.value).value.0.i).Ok?
    ensures BinaryIn(s, env, op, callees).Ok?
    ensures var st := StackOf(s);
            var (tos, tos1) := Payloads(PopOperands(s).value).value;
            var s' := BinaryIn(s, env, op, callees).value;
            var top := StackOf(s')[|StackOf(s')| - 1];
            StackOf(s') == st[..|st| - 2] + [top] &&
            GetIn(s'.mem, top) == Ok(BuiltinObject(env.types.intType, Int(IntArith(op, tos1.i, tos.i).value))) &&
            !Readable(s.mem, top)
  {
    var st := StackOf(s);
    var o := PopOperands(s).value;
    var (tos, tos1) := Payloads(o).value;
    var data := Int(IntArith(op, tos1.i, tos.i).value);
    AllocateBuiltinSpec(o.rest.mem, env.types.intType, data);
    AllocateSpec(o.rest.mem, BuiltinObject(env.types.intType, data));
    assert st[..|st| - 1][..|st| - 2] == st[..|st| - 2];
  }

  /** A comparison of two ints pushes the shared true object exactly when
      `tos1 cmp tos` holds, and the false object otherwise. */
  lemma CompareOnInts(s: Machine, env: Env, op: CompareOp, callees: Callees)
    requires s.frames != [] && |StackOf(s)| >= 2
    requires var o := PopOperands(s);
             o.Ok? && Payloads(o.value).Some? && Payloads(o.value).value.0.Int? && Payloads(o.value).value.1.Int? &&
             o.value.obj.structure.refcount > 0 && o.value.obj1.structure.refcount > 0
    ensures CompareIn(s, env, op, callees).Ok?
    ensures var st := StackOf(s);
            var (tos, tos1) := Payloads(PopOperands(s).value).value;
            var s' := CompareIn(s, env, op, callees).value;
            StackOf(s') == st[..|st| - 2] + [if IntCompare(op, tos1.i, tos.i) then env.types.trueVal else env.types.falseVal] &&
            s'.mem == s.mem
  {
    var st := StackOf(s);
    assert st[..|st| - 1][..|st| - 2] == st[..|st| - 2];
  }

  // ---------------------------------------------------------------------
  // The handlers performed on the VM in place
  // ---------------------------------------------------------------------

  /** The part of the VM the handlers change: its frames and its heap. */
  function Snapshot(vm: VM): Machine
    reads vm, vm.memory
  {
    Machine(vm.frames, vm.memory.State())
  }

  /** The part of the VM the handlers only read. */
  function EnvOf(vm: VM): Env
    reads vm
  {
    Env(vm.builtinTypeAddrs, vm.specialValues, vm.modules)
  }

  method PopValue(vm: VM) returns (r: Result<Addr, Panic>)
    modifies vm
    ensures r.Ok? <==> old(Pop(Snapshot(vm))).Ok?
    ensures r.Ok? ==> (Snapshot(vm), r.value) == old(Pop(Snapshot(vm))).value
    ensures vm.Registry() == old(vm.Registry())
  {
    r := vm.PopStack();
  }

  method PushValue(vm: VM, a: Addr) returns (r: Result<(), Panic>)
    modifies vm
    ensures Performs(r, Snapshot(vm), old(Push(Snapshot(vm), a)))
    ensures vm.Registry() == old(vm.Registry())
  {
    r := vm.PushOntoStack(a);
  }

  method IncRef(vm: VM, a: Addr) returns (r: Result<(), Panic>)
    modifies vm.memory
    ensures Performs(r, Snapshot(vm), old(Increase(Snapshot(vm), a)))
    ensures old(vm.Valid()) ==> vm.Valid()
  {
    r := IncreaseRefcount(vm.memory, a);
  }

  method DecRef(vm: VM, a: Addr) returns (r: Result<(), Panic>)
    modifies vm.memory
    ensures Performs(r, Snapshot(vm), old(Decrease(Snapshot(vm), a)))
    ensures old(vm.Valid()) ==> vm.Valid()
  {
    r := DecreaseRefcount(vm.memory, a);
  }

  /** `n` values popped, the topmost first. */
  method PopValues(vm: VM, n: nat) returns (r: Result<seq<Addr>, Panic>)
    modifies vm
    ensures r.Ok? <==> old(PopN(Snapshot(vm), n)).Ok?
    ensures r.Ok? ==> (Snapshot(vm), r.value) == old(PopN(Snapshot(vm), n)).value
    ensures vm.Registry() == old(vm.Registry())
  {
    var popped: seq<Addr> := [];
    var i := 0;
    while i < n
      invariant i <= n
      invariant PopN(old(Snapshot(vm)), i) == Ok((Snapshot(vm), popped))
      invariant vm.Registry() == old(vm.Registry())
    {
      var v := PopValue(vm);
      if v.Err? {
        PopNStopsAt(old(Snapshot(vm)), i, n);
        return Err(v.error);
      }
      popped := popped + [v.value];
      i := i + 1;
    }
    return Ok(popped);
  }

  /** `handle_function_call`. */
  method HandleFunctionCall(vm: VM, n: nat, run: Runner) returns (r: Result<(), Panic>)
    modifies vm, vm.memory
    ensures Performs(r, Snapshot(vm), FunctionCallIn(old(Snapshot(vm)), n, run))
    ensures vm.Registry() == old(vm.Registry())
    ensures old(vm.Valid()) ==> vm.Valid()
  {
    var args := PopValues(vm, n);
    if args.Err? {
      return Err(args.error);
    }
    var callee := PopValue(vm);
    if callee.Err? {
      return Err(callee.error);
    }
    var increased := IncreaseEach(vm.memory, args.value);
    if increased.Err? {
      return Err(increased.error);
    }
    var c := run(vm.memory.State(), callee.value, None, FromStackPopped(args.value));
    vm.memory.Replace(c.mem);
    var refcount := vm.GetRefcount(c.returned);
    if refcount.Err? {
      return Err(refcount.error);
    }
    if refcount.value == 0 {
      return Err(ZeroRefcount(c.returned));
    }
    var _ := IncreaseRefcount(vm.memory, c.returned);
    var decreased := DecreaseEach(vm.memory, args.value);
    if decreased.Err? {
      return Err(decreased.error);
    }
    if c.exception.Some? {
      var _ := vm.RaiseException(c.exception.value);
    }
    r := PushValue(vm, c.returned);
  }

  /** `handle_load_const`. */
  method HandleLoadConst(vm: VM, code: CodeObjectContext, index: nat) returns (r: Result<(), Panic>)
    modifies vm
    ensures Performs(r, Snapshot(vm), old(LoadConstIn(Snapshot(vm), code.consts, index)))
    ensures vm.Registry() == old(vm.Registry())
  {
    if index >= |code.consts| {
      return Err(IndexOutOfBounds(index));
    }
    r := PushValue(vm, code.consts[index]);
  }

  /** `curry_self`, with the bound method referenced and pushed. */
  method PushBoundMethod(vm: VM, callee: Addr, self: Addr) returns (r: Result<(), Panic>)
    modifies vm, vm.memory
    ensures Performs(r, Snapshot(vm), CurryIn(old(Snapshot(vm)), old(vm.specialValues), callee, self))
    ensures vm.Registry() == old(vm.Registry())
    ensures old(vm.Valid()) ==> vm.Valid()
  {
    if CallableType !in vm.specialValues {
      return Err(MissingSpecialValue);
    }
    var bound := vm.memory.AllocateAndWrite(PyObject(vm.specialValues[CallableType], BoundMethod(callee, self), map[], false));
    var increased := IncRef(vm, bound);
    if increased.Err? {
      return Err(increased.error);
    }
    r := PushValue(vm, bound);
  }

  /** `handle_load_attr`. */
  method HandleLoadAttr(vm: VM, attr: string) returns (r: Result<(), Panic>)
    modifies vm, vm.memory
    ensures Performs(r, Snapshot(vm), LoadAttrIn(old(Snapshot(vm)), old(EnvOf(vm)), attr))
    ensures vm.Registry() == old(vm.Registry())
    ensures old(vm.Valid()) ==> vm.Valid()
  {
    var top := PopValue(vm);
    if top.Err? {
      return Err(top.error);
    }
    var a := top.value;
    var got := vm.memory.Get(a);
    if got.Err? {
      return Err(got.error);
    }
    var obj := got.value;
    if obj.structure.Object? && obj.structure.rawData.ClassInstance? {
      var viaInstance := vm.GetMethodAddrByName(obj.typeAddr, attr);
      if viaInstance.Err? {
        return Err(viaInstance.error);
      }
      if viaInstance.value.Some? {
        r := PushBoundMethod(vm, viaInstance.value.value, a);
        return;
      }
    }
    if attr in obj.properties {
      r := PushValue(vm, obj.properties[attr]);
      return;
    }
    var onType := vm.GetMethodAddrByName(obj.typeAddr, attr);
    if onType.Err? {
      return Err(onType.error);
    }
    if onType.value.Some? {
      r := PushBoundMethod(vm, onType.value.value, a);
      return;
    }
    var inModule := FindInModuleAddrIn(vm.memory.State(), a, attr);
    if inModule.Err? {
      return Err(inModule.error);
    }
    if inModule.value.None? {
      return Err(NameMissing(attr));
    }
    r := PushValue(vm, inModule.value.value);
  }

  /** `handle_load_global`. */
  method HandleLoadGlobal(vm: VM, code: CodeObjectContext, name: nat) returns (r: Result<(), Panic>)
    modifies vm
    ensures Performs(r, Snapshot(vm), old(LoadGlobalIn(Snapshot(vm), EnvOf(vm), code, name)))
    ensures vm.Registry() == old(vm.Registry())
  {
    var names := code.code.names;
    if name < |names| {
      var inBuiltins := vm.FindInModule(BUILTIN_MODULE, names[name]);
      if inBuiltins.Err? {
        return Err(inBuiltins.error);
      }
      if inBuiltins.value.Some? {
        r := PushValue(vm, inBuiltins.value.value);
        return;
      }
      var inMain := vm.FindInModule(MAIN_MODULE, names[name]);
      if inMain.Err? {
        return Err(inMain.error);
      }
      if inMain.value.Some? {
        r := PushValue(vm, inMain.value.value);
        return;
      }
    }
    if name >= |names| {
      return Err(IndexOutOfBounds(name));
    }
    var found := vm.FindModule(names[name]);
    if found.None? {
      return Err(NameMissing(names[name]));
    }
    r := PushValue(vm, found.value);
  }

  /** `handle_load_name`. */
  method HandleLoadName(vm: VM, code: CodeObjectContext, name: nat) returns (r: Result<(), Panic>)
    modifies vm
    ensures Performs(r, Snapshot(vm), old(LoadNameIn(Snapshot(vm), EnvOf(vm), code, name)))
    ensures vm.Registry() == old(vm.Registry())
  {
    var local := vm.GetLocal(name);
    if local.Err? {
      return Err(local.error);
    }
    if local.value.Some? {
      r := PushValue(vm, local.value.value);
      return;
    }
    if name >= |code.code.names| {
      return Err(IndexOutOfBounds(name));
    }
    var n := code.code.names[name];
    var inBuiltins := vm.FindInModule(BUILTIN_MODULE, n);
    if inBuiltins.Err? {
      return Err(inBuiltins.error);
    }
    if inBuiltins.value.Some? {
      r := PushValue(vm, inBuiltins.value.value);
      return;
    }
    var inMain := vm.FindInModule(MAIN_MODULE, n);
    if inMain.Err? {
      return Err(inMain.error);
    }
    if inMain.value.None? {
      return Err(NameMissing(n));
    }
    r := PushValue(vm, inMain.value.value);
  }

  /** `handle_store_name`, with the new value referenced before the old
      binding is released. */
  method HandleStoreName(vm: VM, name: nat) returns (r: Result<(), Panic>)
    modifies vm, vm.memory
    ensures Performs(r, Snapshot(vm), StoreNameIn(old(Snapshot(vm)), name))
    ensures vm.Registry() == old(vm.Registry())
    ensures old(vm.Valid()) ==> vm.Valid()
  {
    var previous := vm.GetLocal(name);
    if previous.Err? {
      return Err(previous.error);
    }
    var v := PopValue(vm);
    if v.Err? {
      return Err(v.error);
    }
    var increased := IncRef(vm, v.value);
    if increased.Err? {
      return Err(increased.error);
    }
    if previous.value.Some? {
      var decreased := DecRef(vm, previous.value.value);
      if decreased.Err? {
        return Err(decreased.error);
      }
    }
    r := vm.BindLocal(name, v.value);
  }

  /** `handle_jump_if_false_pop`: whether it jumped. */
  method HandleJumpIfFalse(vm: VM, destination: nat, run: Runner)
    returns (r: Result<bool, Panic>)
    modifies vm, vm.memory
    ensures PerformsStep(r, Snapshot(vm), JumpIfFalseIn(old(Snapshot(vm)), destination, BoolOfIn(run)))
    ensures vm.Registry() == old(vm.Registry())
    ensures old(vm.Valid()) ==> vm.Valid()
  {
    var top := PopValue(vm);
    if top.Err? {
      return Err(top.error);
    }
    var a := top.value;
    var raw := RawDataIn(vm.memory.State(), a);
    if raw.Err? {
      return Err(raw.error);
    }
    var flag: int;
    if raw.value.Int? {
      flag := raw.value.i;
    } else {
      var asBoolean := vm.CallMethod(a, "__bool__", [], run);
      if asBoolean.Err? {
        return Err(asBoolean.error);
      }
      if asBoolean.value.None? {
        return Err(MethodMissing("__bool__"));
      }
      var d := RawDataIn(vm.memory.State(), asBoolean.value.value.returned);
      if d.Err? {
        return Err(d.error);
      }
      var i := TakeInt(d.value);
      if i.Err? {
        return Err(i.error);
      }
      flag := i.value;
    }
    if flag == 0 {
      var _ := vm.SetPc(destination);
    }
    var released := DecRef(vm, a);
    if released.Err? {
      return Err(released.error);
    }
    r := Ok(flag == 0);
  }

  /** `handle_build_list`. */
  method HandleBuildList(vm: VM, n: nat) returns (r: Result<(), Panic>)
    modifies vm, vm.memory
    ensures Performs(r, Snapshot(vm), BuildListIn(old(Snapshot(vm)), old(vm.builtinTypeAddrs.listType), n))
    ensures vm.Registry() == old(vm.Registry())
    ensures old(vm.Valid()) ==> vm.Valid()
  {
    var elements := PopValues(vm, n);
    if elements.Err? {
      return Err(elements.error);
    }
    var built := vm.memory.AllocateAndWriteBuiltin(vm.builtinTypeAddrs.listType, List(Reverse(elements.value)));
    if built.Err? {
      return Err(built.error);
    }
    r := PushValue(vm, built.value);
  }

  /** `ReturnValue`. */
  method HandleReturnValue(vm: VM, instructionCount: nat) returns (r: Result<(), Panic>)
    modifies vm, vm.memory
    ensures Performs(r, Snapshot(vm), ReturnValueIn(old(Snapshot(vm)), instructionCount))
    ensures vm.Registry() == old(vm.Registry())
    ensures old(vm.Valid()) ==> vm.Valid()
  {
    var top := vm.TopStack();
    if top.Err? {
      return Err(top.error);
    }
    var increased := IncRef(vm, top.value);
    if increased.Err? {
      return Err(increased.error);
    }
    r := vm.SetPc(instructionCount);
  }

  /** `IndexAccess`. */
  method HandleIndexAccess(vm: VM) returns (r: Result<(), Panic>)
    modifies vm
    ensures Performs(r, Snapshot(vm), old(IndexAccessIn(Snapshot(vm))))
    ensures vm.Registry() == old(vm.Registry())
  {
    var indexValue := PopValue(vm);
    if indexValue.Err? {
      return Err(indexValue.error);
    }
    var indexed := PopValue(vm);
    if indexed.Err? {
      return Err(indexed.error);
    }
    var indexData := RawDataIn(vm.memory.State(), indexValue.value);
    if indexData.Err? {
      return Err(indexData.error);
    }
    var index := TakeInt(indexData.value);
    if index.Err? {
      return Err(index.error);
    }
    var listData := RawDataIn(vm.memory.State(), indexed.value);
    if listData.Err? {
      return Err(listData.error);
    }
    var items := TakeList(listData.value);
    if items.Err? {
      return Err(items.error);
    }
    var k := AsUsize(index.value);
    if k >= |items.value| {
      return Err(IndexOutOfBounds(k));
    }
    r := PushValue(vm, items.value[k]);
  }

  /** `Raise`. */
  method HandleRaise(vm: VM) returns (r: Result<(), Panic>)
    modifies vm
    ensures Performs(r, Snapshot(vm), old(RaiseInstructionIn(Snapshot(vm))))
    ensures vm.Registry() == old(vm.Registry())
  {
    var exception := PopValue(vm);
    if exception.Err? {
      return Err(exception.error);
    }
    r := vm.RaiseException(exception.value);
  }

  /** `set_attribute`. */
  method SetAttribute(vm: VM, a: Addr, name: string, value: Addr) returns (r: Result<(), Panic>)
    modifies vm.memory
    ensures r.Ok? <==> old(SetAttributeIn(vm.memory.State(), a, name, value)).Ok?
    ensures r.Ok? ==> vm.memory.State() == old(SetAttributeIn(vm.memory.State(), a, name, value)).value
    ensures old(vm.Valid()) ==> vm.Valid()
  {
    var got := vm.memory.Get(a);
    if got.Err? {
      return Err(got.error);
    }
    r := vm.memory.Write(a, got.value.(properties := got.value.properties[name := value]));
  }

  /** `handle_store_attr`. */
  method HandleStoreAttr(vm: VM, code: CodeObjectContext, attrName: nat) returns (r: Result<(), Panic>)
    modifies vm, vm.memory
    ensures Performs(r, Snapshot(vm), StoreAttrIn(old(Snapshot(vm)), code, attrName))
    ensures vm.Registry() == old(vm.Registry())
    ensures old(vm.Valid()) ==> vm.Valid()
  {
    var obj := PopValue(vm);
    if obj.Err? {
      return Err(obj.error);
    }
    var value := PopValue(vm);
    if value.Err? {
      return Err(value.error);
    }
    if attrName >= |code.code.names| {
      return Err(IndexOutOfBounds(attrName));
    }
    var stored := SetAttribute(vm, obj.value, code.code.names[attrName], value.value);
    if stored.Err? {
      return Err(stored.error);
    }
    var _ := IncRef(vm, obj.value);
    var increased := IncRef(vm, value.value);
    if increased.Err? {
      return Err(increased.error);
    }
    r := Ok(());
  }

  /** The two pops and reads that start every operator handler. */
  method TakeOperands(vm: VM) returns (r: Result<Operands, Panic>)
    modifies vm
    ensures r.Ok? <==> old(PopOperands(Snapshot(vm))).Ok?
    ensures r.Ok? ==> r.value == old(PopOperands(Snapshot(vm))).value && Snapshot(vm) == r.value.rest
    ensures vm.Registry() == old(vm.Registry())
  {
    var tos := PopValue(vm);
    if tos.Err? {
      return Err(tos.error);
    }
    var tos1 := PopValue(vm);
    if tos1.Err? {
      return Err(tos1.error);
    }
    var obj := vm.memory.Get(tos.value);
    if obj.Err? {
      return Err(obj.error);
    }
    var obj1 := vm.memory.Get(tos1.value);
    if obj1.Err? {
      return Err(obj1.error);
    }
    r := Ok(Operands(Snapshot(vm), tos.value, tos1.value, obj.value, obj1.value));
  }

  /** The slow path of every operator handler. */
  method Fallback(vm: VM, o: Operands, dunder: string, run: Runner)
    returns (r: Result<(), Panic>)
    requires Snapshot(vm) == o.rest
    modifies vm, vm.memory
    ensures Performs(r, Snapshot(vm), FallbackIn(o, old(EnvOf(vm)), dunder, run))
    ensures vm.Registry() == old(vm.Registry())
    ensures old(vm.Valid()) ==> vm.Valid()
  {
    var pushed := PushValue(vm, o.tos1);
    if pushed.Err? {
      return Err(pushed.error);
    }
    var loaded := HandleLoadAttr(vm, dunder);
    if loaded.Err? {
      return Err(loaded.error);
    }
    var _ := PushValue(vm, o.tos);
    r := HandleFunctionCall(vm, 1, run);
  }

  /** The release of unreferenced operands after a fast path. */
  method ReleaseOperands(vm: VM, o: Operands) returns (r: Result<(), Panic>)
    requires Snapshot(vm) == o.rest && o.obj.structure.Object? && o.obj1.structure.Object?
    modifies vm.memory
    ensures Performs(r, Snapshot(vm), ReleaseTemporaries(o))
    ensures old(vm.Valid()) ==> vm.Valid()
  {
    if o.obj.structure.refcount == 0 {
      var decreased := DecRef(vm, o.tos);
      if decreased.Err? {
        return Err(decreased.error);
      }
    }
    if o.obj1.structure.refcount == 0 {
      var decreased := DecRef(vm, o.tos1);
      if decreased.Err? {
        return Err(decreased.error);
      }
    }
    r := Ok(());
  }

  /** The end of an arithmetic fast path. */
  method PushArithResult(vm: VM, o: Operands, data: BuiltInTypeData) returns (r: Result<(), Panic>)
    requires Snapshot(vm) == o.rest && o.obj.structure.Object? && o.obj1.structure.Object?
    modifies vm, vm.memory
    ensures Performs(r, Snapshot(vm), ArithResultIn(o, data, old(vm.builtinTypeAddrs)))
    ensures vm.Registry() == old(vm.Registry())
    ensures old(vm.Valid()) ==> vm.Valid()
  {
    var released := ReleaseOperands(vm, o);
    if released.Err? {
      return Err(released.error);
    }
    var t;
    if data.Int? {
      t := vm.builtinTypeAddrs.intType;
    } else if data.Float? {
      t := vm.builtinTypeAddrs.floatType;
    } else {
      return Err(Unsupported);
    }
    var result := vm.memory.AllocateAndWriteBuiltin(t, data);
    if result.Err? {
      return Err(result.error);
    }
    r := PushValue(vm, result.value);
  }

  /** The end of a compare fast path. */
  method PushCompareResult(vm: VM, o: Operands, result: bool) returns (r: Result<(), Panic>)
    requires Snapshot(vm) == o.rest && o.obj.structure.Object? && o.obj1.structure.Object?
    modifies vm, vm.memory
    ensures Performs(r, Snapshot(vm), CompareResultIn(o, result, old(vm.builtinTypeAddrs)))
    ensures vm.Registry() == old(vm.Registry())
    ensures old(vm.Valid()) ==> vm.Valid()
  {
    var released := ReleaseOperands(vm, o);
    if released.Err? {
      return Err(released.error);
    }
    r := PushValue(vm, if result then vm.builtinTypeAddrs.trueVal else vm.builtinTypeAddrs.falseVal);
  }

  /** `create_binary_operator!`. */
  method HandleBinary(vm: VM, op: ArithOp, callees: Callees) returns (r: Result<(), Panic>)
    modifies vm, vm.memory
    ensures Performs(r, Snapshot(vm), BinaryIn(old(Snapshot(vm)), old(EnvOf(vm)), op, callees))
    ensures vm.Registry() == old(vm.Registry())
    ensures old(vm.Valid()) ==> vm.Valid()
  {
    var o := TakeOperands(vm);
    if o.Err? {
      return Err(o.error);
    }
    var payloads := Payloads(o.value);
    var fast := if payloads.Some? then FastArith(op, payloads.value.0, payloads.value.1, callees.floats) else None;
    if fast.None? {
      r := Fallback(vm, o.value, ArithDunder(op), callees.run);
      return;
    }
    if fast.value.Err? {
      return Err(fast.value.error);
    }
    r := PushArithResult(vm, o.value, fast.value.value);
  }

  /** `handle_binary_truediv`. */
  method HandleTrueDiv(vm: VM, callees: Callees) returns (r: Result<(), Panic>)
    modifies vm, vm.memory
    ensures Performs(r, Snapshot(vm), TrueDivIn(old(Snapshot(vm)), old(EnvOf(vm)), callees))
    ensures vm.Registry() == old(vm.Registry())
    ensures old(vm.Valid()) ==> vm.Valid()
  {
    var o := TakeOperands(vm);
    if o.Err? {
      return Err(o.error);
    }
    var payloads := Payloads(o.value);
    var fast := if payloads.Some? then FastTrueDiv(payloads.value.0, payloads.value.1, callees.floats) else None;
    if fast.None? {
      r := Fallback(vm, o.value, "__truediv__", callees.run);
      return;
    }
    r := PushArithResult(vm, o.value, fast.value);
  }

  /** `create_compare_operator!`. */
  method HandleCompare(vm: VM, op: CompareOp, callees: Callees) returns (r: Result<(), Panic>)
    modifies vm, vm.memory
    ensures Performs(r, Snapshot(vm), CompareIn(old(Snapshot(vm)), old(EnvOf(vm)), op, callees))
    ensures vm.Registry() == old(vm.Registry())
    ensures old(vm.Valid()) ==> vm.Valid()
  {
    var o := TakeOperands(vm);
    if o.Err? {
      return Err(o.error);
    }
    var payloads := Payloads(o.value);
    var fast := if payloads.Some? then FastCompare(op, payloads.value.0, payloads.value.1, callees.floats) else None;
    if fast.None? {
      r := Fallback(vm, o.value, CompareDunder(op), callees.run);
      return;
    }
    r := PushCompareResult(vm, o.value, fast.value);
  }

  /** `ForIter`: whether the pc is still to advance. */
  method HandleForIter(vm: VM, endPtr: nat, run: Runner) returns (r: Result<bool, Panic>)
    modifies vm, vm.memory
    ensures PerformsStep(r, Snapshot(vm), old(ForIterIn(Snapshot(vm), EnvOf(vm), endPtr, run)))
    ensures vm.Registry() == old(vm.Registry())
    ensures old(vm.Valid()) ==> vm.Valid()
  {
    var it := vm.TopStack();
    if it.Err? {
      return Err(it.error);
    }
    var next := vm.CallMethod(it.value, "__next__", [], run);
    if next.Err? {
      return Err(next.error);
    }
    if next.value.None? {
      return Err(MethodMissing("__next__"));
    }
    var c := next.value.value;
    if c.exception.None? {
      var _ := PushValue(vm, c.returned);
      return Ok(true);
    }
    if StopIterationType !in vm.specialValues {
      return Err(MissingSpecialValue);
    }
    if c.exception.value == vm.specialValues[StopIterationType] {
      var _ := vm.SetPc(endPtr);
      return Ok(false);
    }
    r := Ok(true);
  }

  /** The handler of an operator. */
  method HandleOperator(vm: VM, op: Operator, callees: Callees) returns (r: Result<(), Panic>)
    modifies vm, vm.memory
    ensures Performs(r, Snapshot(vm), OperatorIn(old(Snapshot(vm)), old(EnvOf(vm)), op, callees))
    ensures vm.Registry() == old(vm.Registry())
    ensures old(vm.Valid()) ==> vm.Valid()
  {
    match op
    case Arith(a) => r := HandleBinary(vm, a, callees);
    case Compare(c) => r := HandleCompare(vm, c, callees);
    case TrueDiv => r := HandleTrueDiv(vm, callees);
  }

  /** The arms of the `match` for names, constants and calls. */
  method ExecuteName(vm: VM, code: CodeObjectContext, callees: Callees, instruction: Instruction) returns (r: Result<(), Panic>)
    requires NameInstruction(instruction)
    modifies vm, vm.memory
    ensures Performs(r, Snapshot(vm), NameIn(old(Snapshot(vm)), old(EnvOf(vm)), code, callees, instruction))
    ensures vm.Registry() == old(vm.Registry())
    ensures old(vm.Valid()) ==> vm.Valid()
  {
    if instruction.LoadConst? {
      r := HandleLoadConst(vm, code, instruction.index);
    } else if instruction.CallFunction? {
      r := HandleFunctionCall(vm, instruction.numberArguments, callees.run);
    } else if instruction.LoadName? {
      r := HandleLoadName(vm, code, instruction.name);
    } else if instruction.LoadGlobal? {
      r := HandleLoadGlobal(vm, code, instruction.name);
    } else if instruction.LoadAttr? {
      r := HandleLoadAttr(vm, instruction.attr);
    } else if instruction.StoreName? {
      r := HandleStoreName(vm, instruction.name);
    } else {
      r := HandleStoreAttr(vm, code, instruction.attrName);
    }
  }

  /** The arms of the `match` that move the pc. */
  method ExecuteFlow(vm: VM, code: CodeObjectContext, callees: Callees, instruction: Instruction) returns (r: Result<bool, Panic>)
    requires FlowInstruction(instruction)
    modifies vm, vm.memory
    ensures PerformsStep(r, Snapshot(vm), FlowIn(old(Snapshot(vm)), old(EnvOf(vm)), code, callees, instruction))
    ensures vm.Registry() == old(vm.Registry())
    ensures old(vm.Valid()) ==> vm.Valid()
  {
    if instruction.JumpIfFalseAndPopStack? {
      var jumped := HandleJumpIfFalse(vm, instruction.destination, callees.run);
      r := if jumped.Ok? then Ok(!jumped.value) else jumped;
    } else if instruction.JumpUnconditional? {
      var jumped := vm.SetPc(instruction.destination);
      r := if jumped.Ok? then Ok(false) else Err(jumped.error);
    } else if instruction.PopTop? {
      var popped := PopValue(vm);
      r := if popped.Ok? then Ok(true) else Err(popped.error);
    } else if instruction.ReturnValue? {
      var done := HandleReturnValue(vm, |code.code.instructions|);
      r := AdvancingOutcome(done);
    } else {
      r := HandleForIter(vm, instruction.endPtr, callees.run);
    }
  }

  /** The arms of the `match` that build, index or raise a value. */
  method ExecuteValue(vm: VM, instruction: Instruction) returns (r: Result<(), Panic>)
    requires ValueInstruction(instruction)
    modifies vm, vm.memory
    ensures Performs(r, Snapshot(vm), ValueIn(old(Snapshot(vm)), old(EnvOf(vm)), instruction))
    ensures vm.Registry() == old(vm.Registry())
    ensures old(vm.Valid()) ==> vm.Valid()
  {
    if instruction.BuildList? {
      r := HandleBuildList(vm, instruction.numberElements);
    } else if instruction.IndexAccess? {
      r := HandleIndexAccess(vm);
    } else {
      r := HandleRaise(vm);
    }
  }

  /** The arms of the `match` for every instruction that is not an
      operator. */
  method ExecuteOther(vm: VM, code: CodeObjectContext, callees: Callees, instruction: Instruction) returns (r: Result<bool, Panic>)
    requires OperatorOf(instruction).None?
    modifies vm, vm.memory
    ensures PerformsStep(r, Snapshot(vm), ExecuteIn(old(Snapshot(vm)), old(EnvOf(vm)), code, callees, instruction))
    ensures vm.Registry() == old(vm.Registry())
    ensures old(vm.Valid()) ==> vm.Valid()
  {
    ghost var s0, env0 := Snapshot(vm), EnvOf(vm);
    if NameInstruction(instruction) {
      var done := ExecuteName(vm, code, callees, instruction);
      PerformsAdvancing(done, Snapshot(vm), NameIn(s0, env0, code, callees, instruction));
      assert ExecuteIn(s0, env0, code, callees, instruction) == Advancing(NameIn(s0, env0, code, callees, instruction));
      r := AdvancingOutcome(done);
    } else if FlowInstruction(instruction) {
      r := ExecuteFlow(vm, code, callees, instruction);
    } else if ValueInstruction(instruction) {
      var done := ExecuteValue(vm, instruction);
      PerformsAdvancing(done, Snapshot(vm), ValueIn(s0, env0, instruction));
      assert ExecuteIn(s0, env0, code, callees, instruction) == Advancing(ValueIn(s0, env0, instruction));
      r := AdvancingOutcome(done);
    } else {
      assert ExecuteIn(s0, env0, code, callees, instruction) == Err(Unsupported);
      r := Err(Unsupported);
    }
  }

  /** The `match` of `execute_next_instruction`: whether the pc is still
      to advance. */
  method Execute(vm: VM, code: CodeObjectContext, callees: Callees, instruction: Instruction) returns (r: Result<bool, Panic>)
    modifies vm, vm.memory
    ensures PerformsStep(r, Snapshot(vm), ExecuteIn(old(Snapshot(vm)), old(EnvOf(vm)), code, callees, instruction))
    ensures vm.Registry() == old(vm.Registry())
    ensures old(vm.Valid()) ==> vm.Valid()
  {
    ghost var s0, env0 := Snapshot(vm), EnvOf(vm);
    var op := OperatorOf(instruction);
    if op.Some? {
      var done := HandleOperator(vm, op.value, callees);
      PerformsAdvancing(done, Snapshot(vm), OperatorIn(s0, env0, op.value, callees));
      assert ExecuteIn(s0, env0, code, callees, instruction) == Advancing(OperatorIn(s0, env0, op.value, callees));
      r := AdvancingOutcome(done);
    } else {
      r := ExecuteOther(vm, code, callees, instruction);
    }
  }

  /** The end of `execute_next_instruction`. */
  method Finish(vm: VM, advance: bool, instructionCount: nat) returns (r: Result<(), Panic>)
    modifies vm
    ensures Performs(r, Snapshot(vm), old(FinishIn(Snapshot(vm), advance, EnvOf(vm), instructionCount)))
    ensures vm.Registry() == old(vm.Registry())
  {
    var exception := vm.CurrentException();
    if exception.Err? {
      return Err(exception.error);
    }
    if exception.value.Some? {
      if NoneValue !in vm.specialValues {
        return Err(MissingSpecialValue);
      }
      var _ := PushValue(vm, vm.specialValues[NoneValue]);
      r := vm.SetPc(instructionCount);
    } else if advance {
      r := vm.JumpPc(1);
    } else {
      r := Ok(());
    }
  }

  /** `execute_next_instruction`. */
  method ExecuteNextInstruction(vm: VM, code: CodeObjectContext, callees: Callees) returns (r: Result<(), Panic>)
    modifies vm, vm.memory
    ensures Performs(r, Snapshot(vm), StepIn(old(Snapshot(vm)), old(EnvOf(vm)), code, callees))
    ensures vm.Registry() == old(vm.Registry())
    ensures old(vm.Valid()) ==> vm.Valid()
  {
    var pc := vm.GetPc();
    if pc.Err? {
      return Err(pc.error);
    }
    if pc.value >= |code.code.instructions| {
      return Err(IndexOutOfBounds(pc.value));
    }
    var advance := Execute(vm, code, callees, code.code.instructions[pc.value]);
    if advance.Err? {
      return Err(advance.error);
    }
    r := Finish(vm, advance.value, |code.code.instructions|);
  }

  /** `execute_code_object`, for at most `fuel` instructions: whether the
      pc got past the end of the code. */
  method ExecuteCodeObject(vm: VM, code: CodeObjectContext, callees: Callees, fuel: nat) returns (r: Result<bool, Panic>)
    modifies vm, vm.memory
    ensures PerformsStep(r, Snapshot(vm), RunIn(old(Snapshot(vm)), old(EnvOf(vm)), code, callees, fuel))
    ensures vm.Registry() == old(vm.Registry())
    ensures old(vm.Valid()) ==> vm.Valid()
  {
    var left := fuel;
    while true
      invariant RunIn(Snapshot(vm), EnvOf(vm), code, callees, left) == RunIn(old(Snapshot(vm)), old(EnvOf(vm)), code, callees, fuel)
      invariant vm.Registry() == old(vm.Registry())
      invariant old(vm.Valid()) ==> vm.Valid()
      decreases left
    {
      var pc := vm.GetPc();
      if pc.Err? {
        return Err(pc.error);
      }
      if pc.value >= |code.code.instructions| {
        return Ok(true);
      }
      if left == 0 {
        return Ok(false);
      }
      var stepped := ExecuteNextInstruction(vm, code, callees);
      if stepped.Err? {
        return Err(stepped.error);
      }
      left := left - 1;
    }
  }
}
