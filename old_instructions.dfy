/*
 * The oldest bytecode of the interpreter (src/bytecode/instructions.rs): five
 * instructions executed by handlers that pop and push the operand stack of
 * the current frame of an `IndexRuntime.Interpreter`.
 *
 * A call runs the native code of the callee (a `Native`, see IndexRuntime)
 * on the heap; the heap it leaves becomes the interpreter's, and the address
 * it returns is pushed. What that code does to the frames is not part of
 * this model.
 */
module OldInstructions {

  import opened Wrappers
  import opened IndexRuntime
  import opened Sequences

  datatype Const = Integer(i: int) | Float(f: string)

  datatype Instruction =
    | LoadConst(c: Const)
    | LoadMethod(methodName: string)
    | LoadFunction(functionName: string)
    | CallMethod(numberArguments: nat)
    | CallFunction(numberArguments: nat)

  // ---------------------------------------------------------------------
  // Operand-stack effect of an instruction sequence
  // ---------------------------------------------------------------------

  /** How many values an instruction needs on the operand stack. */
  function Pops(i: Instruction): nat
  {
    match i
    case LoadConst(_) => 0
    case LoadMethod(_) => 1
    case LoadFunction(_) => 0
    case CallMethod(n) => n + 2
    case CallFunction(n) => n + 1
  }

  /** How many values it leaves in their place. */
  function Pushes(i: Instruction): nat
  {
    match i
    case LoadMethod(_) => 2
    case _ => 1
  }

  /** The operand-stack depth after running `code` from depth `d`, or
      `None` if some instruction would pop an empty stack. */
  function Depth(code: seq<Instruction>, d: nat): Option<nat>
  {
    if code == [] then Some(d)
    else if d < Pops(code[0]) then None
    else Depth(code[1..], d - Pops(code[0]) + Pushes(code[0]))
  }

  /** Running one more instruction: the depth after `code + [i]`. */
  lemma {:induction false} DepthSnoc(code: seq<Instruction>, i: Instruction, d: nat)
    ensures Depth(code + [i], d) ==
            if Depth(code, d).None? || Depth(code, d).value < Pops(i) then None
            else Some(Depth(code, d).value - Pops(i) + Pushes(i))
  {
    if code == [] {
      assert code + [i] == [i];
      assert [i][1..] == [];
    } else {
      assert (code + [i])[0] == code[0];
      assert (code + [i])[1..] == code[1..] + [i];
      if d >= Pops(code[0]) {
        DepthSnoc(code[1..], i, d - Pops(code[0]) + Pushes(code[0]));
      }
    }
  }

  /** A method call `recv.m(a, b)` as the compiler lays it out leaves
      exactly one value. */
  lemma MethodCallPushesOne(x: Const, m: string, a: Const, b: Const, d: nat)
    ensures Depth([LoadConst(x), LoadMethod(m), LoadConst(a), LoadConst(b), CallMethod(2)], d) == Some(d + 1)
  {
    var code := [LoadConst(x), LoadMethod(m), LoadConst(a), LoadConst(b), CallMethod(2)];
    var c1 := [LoadMethod(m), LoadConst(a), LoadConst(b), CallMethod(2)];
    var c2 := [LoadConst(a), LoadConst(b), CallMethod(2)];
    var c3 := [LoadConst(b), CallMethod(2)];
    var c4 := [CallMethod(2)];
    assert code[1..] == c1 && c1[1..] == c2 && c2[1..] == c3 && c3[1..] == c4 && c4[1..] == [];
    assert Depth(c4, d + 4) == Some(d + 1);
    assert Depth(c3, d + 3) == Some(d + 1);
    assert Depth(c2, d + 2) == Some(d + 1);
    assert Depth(c1, d + 1) == Some(d + 1);
  }

  /** The effect of one successful step on the frames: the frames below the
      current one are untouched and the current operand stack, which held
      enough values, changes depth by pushes minus pops. */
  ghost predicate StackStep(before: seq<StackFrame>, after: seq<StackFrame>, i: Instruction)
  {
    before != [] && |after| == |before| && DropLast(after) == DropLast(before) &&
    |TopStack(before)| >= Pops(i) &&
    |TopStack(after)| == |TopStack(before)| - Pops(i) + Pushes(i)
  }

  /** Replacing the last operand stack leaves the frames below alone. */
  lemma TopStackReplaced(frames: seq<StackFrame>, t: seq<nat>)
    requires frames != []
    ensures var g := DropLast(frames) + [Last(frames).(stack := t)];
            g != [] && DropLast(g) == DropLast(frames) && Last(g) == Last(frames).(stack := t)
  {
    var g := DropLast(frames) + [Last(frames).(stack := t)];
    assert g[..|g| - 1] == DropLast(frames);
  }

  /** Pops `n` values one at a time, as the handlers' argument loops do,
      and reverses them: the result is the top `n` values in push order. */
  method PopArguments(interp: Interpreter, n: nat) returns (r: Result<seq<nat>, RuntimeError>)
    modifies interp
    ensures r.Ok? <==> old(interp.frames) != [] && |TopStack(old(interp.frames))| >= n
    ensures r.Ok? ==>
              var s := TopStack(old(interp.frames));
              r.value == s[|s| - n..] &&
              interp.frames == DropLast(old(interp.frames)) + [Last(old(interp.frames)).(stack := s[..|s| - n])]
    ensures interp.progCounter == old(interp.progCounter) && interp.modules == old(interp.modules)
    ensures interp.specialValues == old(interp.specialValues)
  {
    if interp.frames == [] {
      if n == 0 {
        return Err(NoFrame);
      }
      var p := interp.PopStack();
      return Err(p.error);
    }
    ghost var frames0 := interp.frames;
    ghost var s := TopStack(frames0);
    var tempStack: seq<nat> := [];
    assert s[..|s| - 0] == s && s[|s| - 0..] == [];
    assert DropLast(frames0) + [Last(frames0).(stack := s)] == frames0;
    for i := 0 to n
      invariant |s| >= i ==>
                  Reverse(tempStack) == s[|s| - i..] &&
                  interp.frames == DropLast(frames0) + [Last(frames0).(stack := s[..|s| - i])]
      invariant |s| < i ==> false
      invariant interp.progCounter == old(interp.progCounter) && interp.modules == old(interp.modules)
      invariant interp.specialValues == old(interp.specialValues)
    {
      assert TopStack(interp.frames) == s[..|s| - i];
      var value := interp.PopStack();
      if value.Err? {
        return Err(value.error);
      }
      assert s[..|s| - i][..|s| - i - 1] == s[..|s| - (i + 1)];
      assert s[|s| - (i + 1)..] == [value.value] + s[|s| - i..];
      ReverseSnoc(tempStack, value.value);
      tempStack := tempStack + [value.value];
    }
    if |s| < n {
      assert false;
    }
    return Ok(Reverse(tempStack));
  }

  // ---------------------------------------------------------------------
  // Handlers
  // ---------------------------------------------------------------------

  /** What `handle_method_call` calls: receiver, method and `n` arguments
      from the top of the current operand stack. */
  function MethodCallResult(interp: Interpreter, n: nat, native: Native): Result<NativeResult, RuntimeError>
    reads interp, interp.memory
  {
    if interp.frames == [] then Err(NoFrame)
    else
      var s := TopStack(interp.frames);
      if |s| < n + 2 then Err(EmptyStack)
      else interp.BoundedFunctionCallByAddr(native, s[|s| - n - 2], s[|s| - n - 1], s[|s| - n..])
  }

  /** The pops of `handle_method_call`: `n` arguments, then the method,
      then the receiver. */
  method PopMethodCallOperands(interp: Interpreter, n: nat) returns (r: Result<(seq<nat>, nat, nat), RuntimeError>)
    modifies interp
    ensures r.Ok? <==> old(interp.frames) != [] && |TopStack(old(interp.frames))| >= n + 2
    ensures r.Ok? ==>
              var s := TopStack(old(interp.frames));
              r.value == (s[|s| - n..], s[|s| - n - 1], s[|s| - n - 2]) &&
              interp.frames == DropLast(old(interp.frames)) + [Last(old(interp.frames)).(stack := s[..|s| - n - 2])]
    ensures interp.progCounter == old(interp.progCounter) && interp.modules == old(interp.modules)
    ensures interp.specialValues == old(interp.specialValues)
  {
    ghost var frames0 := interp.frames;
    ghost var s := if frames0 == [] then [] else TopStack(frames0);
    var args := PopArguments(interp, n);
    if args.Err? {
      return Err(args.error);
    }
    TopStackReplaced(frames0, s[..|s| - n]);
    var functionAddr := interp.PopStack();
    if functionAddr.Err? {
      return Err(functionAddr.error);
    }
    assert s[..|s| - n][..|s| - n - 1] == s[..|s| - n - 1];
    TopStackReplaced(frames0, s[..|s| - n - 1]);
    var boundedObjAddr := interp.PopStack();
    if boundedObjAddr.Err? {
      return Err(boundedObjAddr.error);
    }
    assert s[..|s| - n - 1][..|s| - n - 2] == s[..|s| - n - 2];
    return Ok((args.value, functionAddr.value, boundedObjAddr.value));
  }

  /** `handle_method_call`: the arguments keep their push order, the method
      sits below them and the receiver below that; all `n + 2` are replaced
      by the result of the call. */
  method HandleMethodCall(interp: Interpreter, numberArgs: nat, native: Native) returns (r: Result<(), RuntimeError>)
    modifies interp, interp.memory
    ensures r.Ok? <==> old(MethodCallResult(interp, numberArgs, native)).Ok?
    ensures r.Ok? ==>
              var s := TopStack(old(interp.frames));
              interp.frames ==
                DropLast(old(interp.frames)) +
                [Last(old(interp.frames)).(stack := s[..|s| - numberArgs - 2] +
                                                    [old(MethodCallResult(interp, numberArgs, native)).value.returned])] &&
              interp.memory.State() == old(MethodCallResult(interp, numberArgs, native)).value.heap
    ensures r.Err? ==> interp.memory.State() == old(interp.memory.State())
    ensures old(interp.Valid()) ==> interp.Valid()
    ensures interp.progCounter == old(interp.progCounter) && interp.modules == old(interp.modules)
    ensures interp.specialValues == old(interp.specialValues)
  {
    ghost var frames0 := interp.frames;
    ghost var s := if frames0 == [] then [] else TopStack(frames0);
    ghost var expected := MethodCallResult(interp, numberArgs, native);
    var operands := PopMethodCallOperands(interp, numberArgs);
    if operands.Err? {
      return Err(operands.error);
    }
    var (args, functionAddr, boundedObjAddr) := operands.value;
    ghost var popped := interp.frames;
    interp.NewStackFrame();
    var newObj := interp.BoundedFunctionCallByAddr(native, boundedObjAddr, functionAddr, args);
    assert newObj == expected;
    if newObj.Err? {
      return Err(newObj.error);
    }
    interp.memory.Replace(newObj.value.heap);
    var frame := interp.PopStackFrame();
    assert interp.frames == popped;
    TopStackReplaced(frames0, s[..|s| - numberArgs - 2]);
    var pushed := interp.PushStack(newObj.value.returned);
    return Ok(());
  }

  /** What `handle_function_call` calls: the function and `n` arguments from
      the top of the current operand stack. */
  function FunctionCallResult(interp: Interpreter, n: nat, native: Native): Result<NativeResult, RuntimeError>
    reads interp, interp.memory
  {
    if interp.frames == [] then Err(NoFrame)
    else
      var s := TopStack(interp.frames);
      if |s| < n + 1 then Err(EmptyStack)
      else interp.UnboundedFunctionCallByAddr(native, s[|s| - n - 1], s[|s| - n..])
  }

  /** `handle_function_call`: like a method call without a receiver. */
  method HandleFunctionCall(interp: Interpreter, numberArgs: nat, native: Native) returns (r: Result<(), RuntimeError>)
    modifies interp, interp.memory
    ensures r.Ok? <==> old(FunctionCallResult(interp, numberArgs, native)).Ok?
    ensures r.Ok? ==>
              var s := TopStack(old(interp.frames));
              interp.frames ==
                DropLast(old(interp.frames)) +
                [Last(old(interp.frames)).(stack := s[..|s| - numberArgs - 1] +
                                                    [old(FunctionCallResult(interp, numberArgs, native)).value.returned])] &&
              interp.memory.State() == old(FunctionCallResult(interp, numberArgs, native)).value.heap
    ensures r.Err? ==> interp.memory.State() == old(interp.memory.State())
    ensures old(interp.Valid()) ==> interp.Valid()
    ensures interp.progCounter == old(interp.progCounter) && interp.modules == old(interp.modules)
    ensures interp.specialValues == old(interp.specialValues)
  {
    ghost var frames0 := interp.frames;
    ghost var s := if frames0 == [] then [] else TopStack(frames0);
    ghost var expected := FunctionCallResult(interp, numberArgs, native);
    var args := PopArguments(interp, numberArgs);
    if args.Err? {
      return Err(args.error);
    }
    var functionAddr := interp.PopStack();
    if functionAddr.Err? {
      return Err(functionAddr.error);
    }
    assert s[..|s| - numberArgs][..|s| - numberArgs - 1] == s[..|s| - numberArgs - 1];
    ghost var popped := interp.frames;
    interp.NewStackFrame();
    var newObj := interp.UnboundedFunctionCallByAddr(native, functionAddr.value, args.value);
    assert newObj == expected;
    if newObj.Err? {
      return Err(newObj.error);
    }
    interp.memory.Replace(newObj.value.heap);
    var frame := interp.PopStackFrame();
    assert interp.frames == popped;
    var pushed := interp.PushStack(newObj.value.returned);
    return Ok(());
  }

  function ConstTypeName(c: Const): string
  {
    match c
    case Integer(_) => "int"
    case Float(_) => "float"
  }

  function ConstPayload(c: Const): Datum
  {
    match c
    case Integer(i) => RawInt(i)
    case Float(f) => RawFloat(f)
  }

  /** `handle_load_const`: a new object of the builtin `int` or `float` type
      holding the constant, pushed; the other live cells are untouched. */
  method HandleLoadConst(interp: Interpreter, constData: Const) returns (r: Result<(), RuntimeError>)
    requires interp.Valid()
    modifies interp, interp.memory
    ensures interp.Valid()
    ensures r.Ok? <==> old(interp.BuiltinType(ConstTypeName(constData))).Ok? && old(interp.frames) != []
    ensures r.Ok? ==>
              interp.frames != [] && TopStack(interp.frames) != [] &&
              var loaded := Last(TopStack(interp.frames));
              PushOn(old(interp.frames), loaded) == Ok(interp.frames) &&
              interp.RawDataOf(loaded) == Ok(ConstPayload(constData)) &&
              !old(interp.memory.Live(loaded))
    ensures r.Ok? ==> forall a :: old(interp.memory.Live(a)) ==> interp.memory.Get(a) == old(interp.memory.Get(a))
    ensures interp.progCounter == old(interp.progCounter) && interp.modules == old(interp.modules)
    ensures interp.specialValues == old(interp.specialValues)
  {
    var loadedAddr := interp.AllocateTypeByNameRaw(ConstTypeName(constData), ConstPayload(constData));
    if loadedAddr.Err? {
      return Err(loadedAddr.error);
    }
    var pushed := interp.PushStack(loadedAddr.value);
    if pushed.Err? {
      return Err(pushed.error);
    }
    PopAfterPush(old(interp.frames), loadedAddr.value);
    return Ok(());
  }

  /** The method `handle_load_method` pushes: the top of stack must be an
      object, and its type must bind the name among its bounded functions. */
  function LoadMethodResult(interp: Interpreter, methodName: string): Result<nat, RuntimeError>
    reads interp, interp.memory
  {
    if interp.frames == [] then Err(NoFrame)
    else if TopStack(interp.frames) == [] then Err(EmptyStack)
    else
      var top := Last(TopStack(interp.frames));
      var o := interp.GetPyObjByAddr(top);
      if o.Err? then Err(o.error)
      else if o.value.None? then Err(NotInMemory(top))
      else
        var m := interp.GetTypeMethodAddrByName(o.value.value.typeAddr, methodName);
        if m.Err? then Err(m.error)
        else if m.value.None? then Err(MethodMissing(methodName))
        else Ok(m.value.value)
  }

  /** `handle_load_method`: the receiver stays on the stack and the method is
      pushed above it. */
  method HandleLoadMethod(interp: Interpreter, methodName: string) returns (r: Result<(), RuntimeError>)
    modifies interp
    ensures r.Ok? <==> old(LoadMethodResult(interp, methodName)).Ok?
    ensures r.Ok? ==> PushOn(old(interp.frames), old(LoadMethodResult(interp, methodName)).value) == Ok(interp.frames)
    ensures interp.progCounter == old(interp.progCounter) && interp.modules == old(interp.modules)
    ensures interp.specialValues == old(interp.specialValues)
  {
    PushAfterPop(interp.frames);
    var stackTop := interp.PopStack();
    if stackTop.Err? {
      return Err(stackTop.error);
    }
    var pyobj := interp.GetPyObjByAddr(stackTop.value);
    if pyobj.Err? {
      return Err(pyobj.error);
    }
    if pyobj.value.None? {
      return Err(NotInMemory(stackTop.value));
    }
    var pushed := interp.PushStack(stackTop.value);
    var obj := interp.GetTypeMethodAddrByName(pyobj.value.value.typeAddr, methodName);
    if obj.Err? {
      return Err(obj.error);
    }
    if obj.value.None? {
      return Err(MethodMissing(methodName));
    }
    pushed := interp.PushStack(obj.value.value);
    return Ok(());
  }

  /** The builtin `handle_load_function` pushes, or its panic. */
  function LoadFunctionResult(interp: Interpreter, functionName: string): Result<nat, RuntimeError>
    reads interp, interp.memory
  {
    var f := interp.FindInModule(BUILTIN_MODULE, functionName);
    if f.Err? then Err(f.error)
    else if f.value.None? then Err(FunctionMissing(functionName))
    else Ok(f.value.value)
  }

  /** `handle_load_function`: the builtin module's entry is pushed. */
  method HandleLoadFunction(interp: Interpreter, functionName: string) returns (r: Result<(), RuntimeError>)
    modifies interp
    ensures r.Ok? <==> old(LoadFunctionResult(interp, functionName)).Ok? && old(interp.frames) != []
    ensures r.Ok? ==> PushOn(old(interp.frames), old(LoadFunctionResult(interp, functionName)).value) == Ok(interp.frames)
    ensures interp.progCounter == old(interp.progCounter) && interp.modules == old(interp.modules)
    ensures interp.specialValues == old(interp.specialValues)
  {
    var obj := interp.FindInModule(BUILTIN_MODULE, functionName);
    if obj.Err? {
      return Err(obj.error);
    }
    if obj.value.None? {
      return Err(FunctionMissing(functionName));
    }
    var pushed := interp.PushStack(obj.value.value);
    if pushed.Err? {
      return Err(pushed.error);
    }
    return Ok(());
  }

  // ---------------------------------------------------------------------
  // The execution loop
  // ---------------------------------------------------------------------

  /** The `match` of `execute_instructions` on one instruction. */
  method Dispatch(interp: Interpreter, instruction: Instruction, native: Native) returns (r: Result<(), RuntimeError>)
    requires interp.Valid()
    modifies interp, interp.memory
    ensures interp.Valid()
    ensures r.Ok? ==> StackStep(old(interp.frames), interp.frames, instruction)
    ensures interp.progCounter == old(interp.progCounter) && interp.modules == old(interp.modules)
    ensures interp.specialValues == old(interp.specialValues)
  {
    match instruction
    case CallMethod(n) =>
      r := HandleMethodCall(interp, n, native);
    case LoadConst(c) =>
      r := HandleLoadConst(interp, c);
      if r.Ok? {
        PopAfterPush(old(interp.frames), Last(TopStack(interp.frames)));
      }
    case LoadMethod(s) =>
      ghost var m := LoadMethodResult(interp, s);
      r := HandleLoadMethod(interp, s);
      if r.Ok? {
        PopAfterPush(old(interp.frames), m.value);
      }
    case LoadFunction(s) =>
      ghost var f := LoadFunctionResult(interp, s);
      r := HandleLoadFunction(interp, s);
      if r.Ok? {
        PopAfterPush(old(interp.frames), f.value);
      }
    case CallFunction(n) =>
      r := HandleFunctionCall(interp, n, native);
  }

  /** `execute_instructions`: runs from the current pc until it reaches the
      end, advancing it by exactly one after every instruction. On a run
      without panic every instruction from the starting pc on was executed
      once, in order, and the operand stack ends at the depth `Depth`
      computes, the frames below it untouched. */
  method ExecuteInstructions(interp: Interpreter, instructions: seq<Instruction>, native: Native)
    returns (r: Result<(), RuntimeError>)
    requires interp.Valid()
    modifies interp, interp.memory
    ensures interp.Valid()
    ensures r.Ok? ==> interp.progCounter == if old(interp.progCounter) >= |instructions| then old(interp.progCounter)
                                            else |instructions|
    ensures r.Ok? && old(interp.progCounter) < |instructions| ==>
              old(interp.frames) != [] &&
              |interp.frames| == |old(interp.frames)| &&
              DropLast(interp.frames) == DropLast(old(interp.frames)) &&
              Depth(instructions[old(interp.progCounter)..], |TopStack(old(interp.frames))|) ==
                Some(|TopStack(interp.frames)|)
  {
    ghost var pc0 := interp.progCounter;
    ghost var frames0 := interp.frames;
    while interp.progCounter < |instructions|
      invariant interp.Valid()
      invariant pc0 < |instructions| ==> pc0 <= interp.progCounter <= |instructions|
      invariant pc0 >= |instructions| ==> interp.progCounter == pc0
      invariant interp.progCounter > pc0 ==>
                  frames0 != [] && |interp.frames| == |frames0| && DropLast(interp.frames) == DropLast(frames0) &&
                  Depth(instructions[pc0..interp.progCounter], |TopStack(frames0)|) == Some(|TopStack(interp.frames)|)
      invariant interp.progCounter == pc0 ==> interp.frames == frames0
      decreases |instructions| - interp.progCounter
    {
      ghost var pc := interp.progCounter;
      ghost var before := interp.frames;
      var instruction := instructions[interp.progCounter];
      r := Dispatch(interp, instruction, native);
      if r.Err? {
        return;
      }
      assert instructions[pc0..pc + 1] == instructions[pc0..pc] + [instruction];
      DepthSnoc(instructions[pc0..pc], instruction, |TopStack(frames0)|);
      if pc == pc0 {
        assert instructions[pc0..pc] == [];
      }
      var _ := interp.JumpPc(1);
    }
    if pc0 < |instructions| {
      assert instructions[pc0..interp.progCounter] == instructions[pc0..];
    }
    return Ok(());
  }
}
