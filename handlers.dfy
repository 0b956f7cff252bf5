/*
 * The instruction handlers that src/runtime/interpreter.rs and its older
 * sibling src/bytecode/interpreter.rs write alike, stated on what they
 * read and change: the frame stack and the heap. Each interpreter
 * applies them to its own runtime object in place; the handlers the two
 * files write differently are in the interpreter modules.
 */
module Handlers {

  import opened Wrappers
  import opened RuntimeDataModel
  import opened UnsafeMemory
  import opened Frames
  import opened ObjectSpace
  import opened Decimal
  import opened Int128
  import opened Vm
  import opened Program
  import opened Sequences

  /** The state an instruction handler works on. */
  datatype Machine = Machine(frames: seq<StackFrame>, mem: MemState)

  // ---------------------------------------------------------------------
  // The runtime operations the handlers are made of
  // ---------------------------------------------------------------------

  /** `t` has as many frames as `s`, and the current frame's pc is where
      it was in `s`. */
  predicate SamePc(s: Machine, t: Machine)
  {
    |t.frames| == |s.frames| && (s.frames != [] ==> Top(t.frames).progCounter == Top(s.frames).progCounter)
  }

  /** `pop_stack`. */
  function Pop(s: Machine): (r: Result<(Machine, Addr), Panic>)
    ensures r.Ok? <==> s.frames != [] && Top(s.frames).stack != []
    ensures r.Ok? ==> SamePc(s, r.value.0)
  {
    var p :- PopFrom(s.frames);
    Ok((s.(frames := p.0), p.1))
  }

  /** `push_onto_stack`. */
  function Push(s: Machine, a: Addr): (r: Result<Machine, Panic>)
    ensures r.Ok? <==> s.frames != []
    ensures r.Ok? ==> SamePc(s, r.value)
  {
    var f :- PushOn(s.frames, a);
    Ok(s.(frames := f))
  }

  /** `n` calls of `pop_stack`; the values in the order they were
      popped, the topmost first. */
  function PopN(s: Machine, n: nat): (r: Result<(Machine, seq<Addr>), Panic>)
    decreases n
    ensures r.Ok? ==> SamePc(s, r.value.0)
  {
    if n == 0 then Ok((s, []))
    else
      var p :- PopN(s, n - 1);
      var q :- Pop(p.0);
      Ok((q.0, p.1 + [q.1]))
  }

  /** `increase_refcount`. */
  function Increase(s: Machine, a: Addr): (r: Result<Machine, Panic>)
    ensures r.Ok? ==> SamePc(s, r.value)
  {
    var m :- IncreaseIn(s.mem, a);
    Ok(s.(mem := m))
  }

  /** `decrease_refcount`. */
  function Decrease(s: Machine, a: Addr): (r: Result<Machine, Panic>)
    ensures r.Ok? ==> SamePc(s, r.value)
  {
    var m :- DecreaseIn(s.mem, a);
    Ok(s.(mem := m))
  }

  /** `set_pc`. */
  function SetPcIn(s: Machine, pc: nat): (r: Result<Machine, Panic>)
  {
    if s.frames == [] then Err(NoFrame)
    else Ok(s.(frames := WithTop(s.frames, Top(s.frames).(progCounter := pc))))
  }

  /** `jump_pc`. */
  function JumpPcIn(s: Machine, delta: int): (r: Result<Machine, Panic>)
  {
    if s.frames == [] then Err(NoFrame)
    else Ok(s.(frames := WithTop(s.frames, Top(s.frames).(progCounter := AsUsize(Top(s.frames).progCounter + delta)))))
  }

  /** `get_pc`. */
  function PcIn(s: Machine): (r: Result<nat, Panic>)
  {
    if s.frames == [] then Err(NoFrame) else Ok(Top(s.frames).progCounter)
  }

  /** `raise_exception`. */
  function RaiseIn(s: Machine, e: Addr): (r: Result<Machine, Panic>)
    ensures r.Ok? ==> SamePc(s, r.value)
  {
    if s.frames == [] then Err(NoFrame)
    else Ok(s.(frames := WithTop(s.frames, Top(s.frames).(exception := Some(e)))))
  }

  /** `bind_local`. */
  function BindLocalIn(s: Machine, name: nat, a: Addr): (r: Result<Machine, Panic>)
    ensures r.Ok? ==> SamePc(s, r.value)
  {
    if s.frames == [] then Err(NoFrame)
    else Ok(s.(frames := WithTop(s.frames, Top(s.frames).(locals := BindIn(Top(s.frames).locals, name, a)))))
  }

  /** `get_local`. */
  function LocalIn(s: Machine, name: nat): (r: Result<Option<Addr>, Panic>)
  {
    if s.frames == [] then Err(NoFrame) else Ok(GetLocalIn(Top(s.frames).locals, name))
  }

  /** `top_stack`. */
  function TopIn(s: Machine): (r: Result<Addr, Panic>)
  {
    if s.frames == [] then Err(NoFrame) else StackOffsetIn(Top(s.frames).stack, 0)
  }

  /** `get_raw_data_of_pyobj`: the payload of an Object; anything else
      panics. */
  function RawDataIn(m: MemState, a: Addr): (r: Result<BuiltInTypeData, Panic>)
    ensures r.Ok? <==> Readable(m, a) && m.heap[a].structure.Object?
  {
    var obj :- GetIn(m, a);
    if obj.structure.Object? then Ok(obj.structure.rawData) else Err(NotAnObject(a))
  }

  /** `set_attribute`: the property is added or replaced on the object. */
  function SetAttributeIn(m: MemState, a: Addr, name: string, value: Addr): (r: Result<MemState, Panic>)
    ensures r.Ok? <==> Readable(m, a)
  {
    var obj :- GetIn(m, a);
    WriteIn(m, a, obj.(properties := obj.properties[name := value]))
  }

  /** `allocate_type_byaddr_raw`, then the new object pushed. */
  function AllocatePush(s: Machine, typeAddr: Addr, data: BuiltInTypeData): (r: Result<Machine, Panic>)
    ensures r.Ok? ==> SamePc(s, r.value)
  {
    var q :- AllocateBuiltinIn(s.mem, typeAddr, data);
    Push(s.(mem := q.0), q.1)
  }

  // ---------------------------------------------------------------------
  // Properties of the operations
  // ---------------------------------------------------------------------

  /** `n` pops take the top `n` entries of the current frame's stack,
      topmost first, and change nothing else. */
  lemma {:induction false} PopNSpec(s: Machine, n: nat)
    requires s.frames != [] && n <= |Top(s.frames).stack|
    ensures PopN(s, n).Ok?
    ensures PopN(s, n).value.1 == PoppedOrder(Top(s.frames).stack, n)
    ensures PopN(s, n).value.0 ==
            s.(frames := WithTop(s.frames, Top(s.frames).(stack := Top(s.frames).stack[..|Top(s.frames).stack| - n])))
    decreases n
  {
    var st := Top(s.frames).stack;
    if n > 0 {
      PopNSpec(s, n - 1);
      var p := PopN(s, n - 1).value;
      assert Top(p.0.frames).stack == st[..|st| - (n - 1)];
      assert st[..|st| - (n - 1)][..|st| - n] == st[..|st| - n];
      PoppedOrderFromBelow(st, n);
      var k := |s.frames| - 1;
      assert Pop(p.0).value.0.frames == s.frames[k := Top(s.frames).(stack := st[..|st| - (n - 1)])][k := Top(s.frames).(stack := st[..|st| - n])];
      assert Pop(p.0).value.0.frames == s.frames[k := Top(s.frames).(stack := st[..|st| - n])];
      assert PopN(s, n).value.0 == Pop(p.0).value.0;
      assert Pop(p.0).value.0 == s.(frames := Pop(p.0).value.0.frames);
    } else {
      assert st[..|st|] == st;
      assert WithTop(s.frames, Top(s.frames).(stack := st)) == s.frames;
    }
  }

  /** The pops of a call: the `n` arguments, then the callee beneath
      them, leave the stack below both and the top frame's other fields
      as they were. */
  lemma CallOperandsPopped(s: Machine, n: nat)
    requires s.frames != [] && n + 1 <= |Top(s.frames).stack|
    ensures var st := Top(s.frames).stack;
            PopN(s, n).Ok? && Pop(PopN(s, n).value.0).Ok? &&
            var p := PopN(s, n).value;
            var f := Pop(p.0).value;
            p.1 == PoppedOrder(st, n) && FromStackPopped(p.1) == st[|st| - n..] && f.1 == st[|st| - n - 1] &&
            f.0.mem == s.mem && |f.0.frames| == |s.frames| &&
            f.0.frames[..|s.frames| - 1] == s.frames[..|s.frames| - 1] &&
            Top(f.0.frames) == Top(s.frames).(stack := st[..|st| - n - 1])
  {
    PopNSpec(s, n);
    var st := Top(s.frames).stack;
    var p := PopN(s, n).value;
    FromStackPoppedSpec(st, n);
    assert Top(p.0.frames).stack == st[..|st| - n];
    assert st[..|st| - n][..|st| - n - 1] == st[..|st| - n - 1];
  }

  /** The `n`th pop takes the entry `n` places below the top. */
  lemma {:induction false} PoppedOrderFromBelow(stack: seq<Addr>, n: nat)
    requires 0 < n <= |stack|
    ensures PoppedOrder(stack, n) == PoppedOrder(stack, n - 1) + [stack[..|stack| - (n - 1)][|stack| - n]]
  {
    PoppedOrderSpec(stack, n);
    PoppedOrderSpec(stack, n - 1);
    assert PoppedOrder(stack, n) == PoppedOrder(stack, n - 1) + [stack[|stack| - n]];
  }

  /** A pop needs a value on the stack: on a frame whose stack holds
      fewer than `n` values, `n` pops panic. */
  lemma {:induction false} PopNTooMany(s: Machine, n: nat)
    requires s.frames != [] && n > |Top(s.frames).stack|
    ensures PopN(s, n).Err?
    decreases n
  {
    if n - 1 > |Top(s.frames).stack| {
      PopNTooMany(s, n - 1);
    } else {
      PopNSpec(s, n - 1);
    }
  }

  /** A failed pop ends every longer run of pops. */
  lemma {:induction false} PopNStopsAt(s: Machine, i: nat, n: nat)
    requires i < n && PopN(s, i).Ok? && Pop(PopN(s, i).value.0).Err?
    ensures PopN(s, n).Err?
    decreases n
  {
    if n - 1 > i {
      PopNStopsAt(s, i, n - 1);
    }
  }

  // ---------------------------------------------------------------------
  // Handlers both interpreters share
  // ---------------------------------------------------------------------

  /** `handle_load_const`: the constant's address, by index; an index
      past the end panics. */
  function LoadConstIn(s: Machine, consts: seq<Addr>, index: nat): (r: Result<Machine, Panic>)
    ensures r.Ok? ==> SamePc(s, r.value)
  {
    if index < |consts| then Push(s, consts[index]) else Err(IndexOutOfBounds(index))
  }

  /** `handle_store_name` as written: the old binding is released before
      the new value is taken. */
  function StoreNameAsWritten(s: Machine, name: nat): (r: Result<Machine, Panic>)
    ensures r.Ok? ==> SamePc(s, r.value)
  {
    var previous :- LocalIn(s, name);
    var s1 :- if previous.Some? then Decrease(s, previous.value) else Ok(s);
    var p :- Pop(s1);
    var s2 :- Increase(p.0, p.1);
    BindLocalIn(s2, name, p.1)
  }

  /** `handle_store_name` with the new value taken before the old binding
      is released, as storing a name evidently intends. */
  function StoreNameIn(s: Machine, name: nat): (r: Result<Machine, Panic>)
    ensures r.Ok? ==> SamePc(s, r.value)
  {
    var previous :- LocalIn(s, name);
    var p :- Pop(s);
    var s1 :- Increase(p.0, p.1);
    var s2 :- if previous.Some? then Decrease(s1, previous.value) else Ok(s1);
    BindLocalIn(s2, name, p.1)
  }

  /** `handle_jump_if_false_pop`: pops the value and jumps to the
      destination iff it is false, returning whether it jumped. An int is
      false iff it is 0; anything else is asked `__bool__`, through
      `boolOf`, which gives the heap that call leaves and the address it
      returns (None when there is no such method), and that address must
      hold an int. The popped value's count is decreased afterwards. */
  function JumpIfFalseIn(s: Machine, destination: nat, boolOf: (MemState, Addr) -> Result<Option<Outcome>, Panic>)
    : (r: Result<(Machine, bool), Panic>)
  {
    var p :- Pop(s);
    var raw :- RawDataIn(p.0.mem, p.1);
    if raw.Int? then JumpOn(p.0, destination, raw.i, p.1)
    else
      var b :- boolOf(p.0.mem, p.1);
      if b.None? then Err(MethodMissing("__bool__"))
      else
        var d :- RawDataIn(b.value.mem, b.value.returned);
        var flag :- TakeInt(d);
        JumpOn(p.0.(mem := b.value.mem), destination, flag, p.1)
  }

  /** The end of `handle_jump_if_false_pop`: the jump when the flag is 0,
      then the popped value released. */
  function JumpOn(s: Machine, destination: nat, flag: int, popped: Addr): (r: Result<(Machine, bool), Panic>)
    requires s.frames != []
    ensures r.Ok? <==> Readable(s.mem, popped)
    ensures r.Ok? ==> r.value.1 == (flag == 0) && |r.value.0.frames| == |s.frames| &&
                      Top(r.value.0.frames) == Top(s.frames).(progCounter := if flag == 0 then destination else Top(s.frames).progCounter)
  {
    var s1 := if flag == 0 then SetPcIn(s, destination).value else s;
    var s2 :- Decrease(s1, popped);
    Ok((s2, flag == 0))
  }

  /** `handle_build_list`: `n` values popped, put back in push order as a
      new list, which is pushed. */
  function BuildListIn(s: Machine, listType: Addr, n: nat): (r: Result<Machine, Panic>)
    ensures r.Ok? ==> SamePc(s, r.value)
  {
    var p :- PopN(s, n);
    AllocatePush(p.0, listType, List(Reverse(p.1)))
  }

  /** `handle_jump_unconditional`. */
  function JumpUnconditionalIn(s: Machine, destination: nat): (r: Result<Machine, Panic>)
  {
    SetPcIn(s, destination)
  }

  /** `ReturnValue`: the top of the stack stays where it is, with one
      more reference, and the pc moves to the end of the code. */
  function ReturnValueIn(s: Machine, instructionCount: nat): (r: Result<Machine, Panic>)
  {
    var top :- TopIn(s);
    var s1 :- Increase(s, top);
    SetPcIn(s1, instructionCount)
  }

  /** `IndexAccess`: pops the index, then the list; the element at the
      index, cast to `usize`, is pushed. */
  function IndexAccessIn(s: Machine): (r: Result<Machine, Panic>)
    ensures r.Ok? ==> SamePc(s, r.value)
  {
    var p :- Pop(s);
    var q :- Pop(p.0);
    var indexData :- RawDataIn(q.0.mem, p.1);
    var index :- TakeInt(indexData);
    var listData :- RawDataIn(q.0.mem, q.1);
    var items :- TakeList(listData);
    var k := AsUsize(index);
    if k < |items| then Push(q.0, items[k]) else Err(IndexOutOfBounds(k))
  }

  /** `Raise`: the popped value becomes the current frame's exception. */
  function RaiseInstructionIn(s: Machine): (r: Result<Machine, Panic>)
    ensures r.Ok? ==> SamePc(s, r.value)
  {
    var p :- Pop(s);
    RaiseIn(p.0, p.1)
  }

  // ---------------------------------------------------------------------
  // The numeric fast path of the operator handlers
  // ---------------------------------------------------------------------

  datatype ArithOp = AddOp | ModOp | SubOp | MulOp
  datatype CompareOp = GtOp | GeOp | LtOp | LeOp | EqOp | NeOp

  /** The floating-point results the fast paths compute, which this model
      does not interpret: the text of `tos1 op tos`, of `tos1 / tos` and
      the outcome of a comparison, given the two payloads, the deeper one
      first. */
  datatype FloatOps = FloatOps(
    arith: (ArithOp, BuiltInTypeData, BuiltInTypeData) -> string,
    divide: (BuiltInTypeData, BuiltInTypeData) -> string,
    compare: (CompareOp, BuiltInTypeData, BuiltInTypeData) -> bool)

  /** `a op b` on `i128`; an overflow or a zero divisor panics, and `%`
      truncates toward zero. */
  function IntArith(op: ArithOp, a: int, b: int): (r: Result<int, Panic>)
  {
    var v := match op
             case AddOp => CheckedAdd(a, b)
             case ModOp => CheckedRem(a, b)
             case SubOp => CheckedSub(a, b)
             case MulOp => CheckedMul(a, b);
    if v.Some? then Ok(v.value) else Err(Overflow)
  }

  /** The comparison each compare handler is generated from. */
  function IntCompare(op: CompareOp, a: int, b: int): bool
  {
    match op
    case GtOp => a > b
    case GeOp => a >= b
    case LtOp => a < b
    case LeOp => a <= b
    case EqOp => a == b
    case NeOp => a != b
  }

  predicate Numeric(d: BuiltInTypeData)
  {
    d.Int? || d.Float?
  }

  /** The fast path of `create_binary_operator!`: None unless both
      payloads are numeric; two ints give an int, any float a float. */
  function FastArith(op: ArithOp, tos: BuiltInTypeData, tos1: BuiltInTypeData, floats: FloatOps)
    : (r: Option<Result<BuiltInTypeData, Panic>>)
  {
    if tos.Int? && tos1.Int? then
      var v := IntArith(op, tos1.i, tos.i);
      Some(if v.Ok? then Ok(Int(v.value)) else Err(v.error))
    else if Numeric(tos) && Numeric(tos1) then Some(Ok(BuiltInTypeData.Float(floats.arith(op, tos1, tos))))
    else None
  }

  /** The fast path of `handle_binary_truediv`: any two numbers divide
      as floats, two ints included. */
  function FastTrueDiv(tos: BuiltInTypeData, tos1: BuiltInTypeData, floats: FloatOps): (r: Option<BuiltInTypeData>)
  {
    if Numeric(tos) && Numeric(tos1) then Some(BuiltInTypeData.Float(floats.divide(tos1, tos))) else None
  }

  /** The fast path of `create_compare_operator!`: None unless both
      payloads are numeric. `generated` is the comparison the handler was
      generated from. */
  function FastCompare(generated: CompareOp, tos: BuiltInTypeData, tos1: BuiltInTypeData, floats: FloatOps): (r: Option<bool>)
  {
    if tos.Int? && tos1.Int? then Some(IntCompare(generated, tos1.i, tos.i))
    else if Numeric(tos) && Numeric(tos1) then Some(floats.compare(generated, tos1, tos))
    else None
  }

  /** What an operator handler holds after its two pops: the remaining
      state, the top of the stack and the value beneath it, both read. */
  datatype Operands = Operands(rest: Machine, tos: Addr, tos1: Addr, obj: PyObject, obj1: PyObject)

  /** The two pops and reads that start every operator handler. */
  function PopOperands(s: Machine): (r: Result<Operands, Panic>)
    ensures r.Ok? ==> SamePc(s, r.value.rest)
  {
    var p :- Pop(s);
    var q :- Pop(p.0);
    var obj :- GetIn(q.0.mem, p.1);
    var obj1 :- GetIn(q.0.mem, q.1);
    Ok(Operands(q.0, p.1, q.1, obj, obj1))
  }

  /** The payload pair the fast path inspects: only when both are
      Objects. */
  function Payloads(o: Operands): (r: Option<(BuiltInTypeData, BuiltInTypeData)>)
    ensures r.Some? <==> o.obj.structure.Object? && o.obj1.structure.Object?
  {
    if o.obj.structure.Object? && o.obj1.structure.Object? then
      Some((o.obj.structure.rawData, o.obj1.structure.rawData))
    else None
  }

  /** The collection of temporaries after a fast path: each operand that
      no one references is decreased, which frees it. */
  function ReleaseTemporaries(o: Operands): (r: Result<Machine, Panic>)
    requires o.obj.structure.Object? && o.obj1.structure.Object?
    ensures r.Ok? ==> SamePc(o.rest, r.value)
  {
    var s1 :- if o.obj.structure.refcount == 0 then Decrease(o.rest, o.tos) else Ok(o.rest);
    if o.obj1.structure.refcount == 0 then Decrease(s1, o.tos1) else Ok(s1)
  }

  /** The end of a successful arithmetic fast path: the result is
      allocated as an int or a float and pushed. */
  function ArithResultIn(o: Operands, data: BuiltInTypeData, types: BuiltinTypeAddresses): (r: Result<Machine, Panic>)
    requires o.obj.structure.Object? && o.obj1.structure.Object?
    ensures r.Ok? ==> SamePc(o.rest, r.value)
  {
    var s1 :- ReleaseTemporaries(o);
    if data.Int? then AllocatePush(s1, types.intType, data)
    else if data.Float? then AllocatePush(s1, types.floatType, data)
    else Err(Unsupported)
  }

  /** The end of a successful compare fast path: the shared true or false
      object is pushed. */
  function CompareResultIn(o: Operands, result: bool, types: BuiltinTypeAddresses): (r: Result<Machine, Panic>)
    requires o.obj.structure.Object? && o.obj1.structure.Object?
    ensures r.Ok? ==> SamePc(o.rest, r.value)
  {
    var s1 :- ReleaseTemporaries(o);
    Push(s1, if result then types.trueVal else types.falseVal)
  }

  /** `curry_self`, then the bound method pushed: a new, non-const object
      of the callable type binding `self` to the function. */
  function CurryIn(s: Machine, special: map<SpecialValue, Addr>, callee: Addr, self: Addr): (r: Result<Machine, Panic>)
    ensures r.Ok? ==> SamePc(s, r.value)
  {
    if CallableType !in special then Err(MissingSpecialValue)
    else
      var q := AllocateIn(s.mem, PyObject(special[CallableType], BoundMethod(callee, self), map[], false));
      var s1 :- Increase(s.(mem := q.0), q.1);
      Push(s1, q.1)
  }

  /** The dunder method an arithmetic instruction falls back on. */
  function ArithDunder(op: ArithOp): string
  {
    match op
    case AddOp => "__add__"
    case ModOp => "__mod__"
    case SubOp => "__sub__"
    case MulOp => "__mul__"
  }

  /** The dunder method a comparison falls back on. */
  function CompareDunder(op: CompareOp): string
  {
    match op
    case GtOp => "__gt__"
    case GeOp => "__ge__"
    case LtOp => "__lt__"
    case LeOp => "__le__"
    case EqOp => "__eq__"
    case NeOp => "__ne__"
  }

  /** The operator instructions, each run by its handler generated from
      one of the two macros or by the true-division handler. */
  datatype Operator = Arith(arith: ArithOp) | Compare(compare: CompareOp) | TrueDiv

  /** The operator an instruction runs, if it is one. */
  function OperatorOf(instruction: Instruction): Option<Operator>
  {
    match instruction
    case BinaryAdd => Some(Arith(AddOp))
    case BinaryModulus => Some(Arith(ModOp))
    case BinarySubtract => Some(Arith(SubOp))
    case BinaryMultiply => Some(Arith(MulOp))
    case CompareLessThan => Some(Compare(LtOp))
    case CompareLessEquals => Some(Compare(LeOp))
    case CompareGreaterThan => Some(Compare(GtOp))
    case CompareGreaterEquals => Some(Compare(GeOp))
    case CompareEquals => Some(Compare(EqOp))
    case CompareNotEquals => Some(Compare(NeOp))
    case BinaryTrueDivision => Some(TrueDiv)
    case _ => None
  }

  // ---------------------------------------------------------------------
  // Properties of the shared handlers
  // ---------------------------------------------------------------------

  /** `BuildList` takes the top `n` values off the stack, leaves a new
      list holding them in push order in their place, and changes no other
      object: the net stack change is `1 - n`. */
  lemma BuildListSpec(s: Machine, listType: Addr, n: nat)
    requires WellFormed(s.mem) && s.frames != [] && n <= |Top(s.frames).stack|
    ensures BuildListIn(s, listType, n).Ok?
    ensures var st := Top(s.frames).stack;
            var s' := BuildListIn(s, listType, n).value;
            var a := Top(s'.frames).stack[|Top(s'.frames).stack| - 1];
            |s'.frames| == |s.frames| && s'.frames[..|s.frames| - 1] == s.frames[..|s.frames| - 1] &&
            Top(s'.frames).stack == st[..|st| - n] + [a] &&
            GetIn(s'.mem, a) == Ok(BuiltinObject(listType, List(st[|st| - n..]))) &&
            !Readable(s.mem, a) &&
            (forall b :: b != a && Readable(s.mem, b) ==> GetIn(s'.mem, b) == GetIn(s.mem, b))
  {
    var st := Top(s.frames).stack;
    PopNSpec(s, n);
    FromStackPoppedSpec(st, n);
    var p := PopN(s, n).value;
    AllocateBuiltinSpec(p.0.mem, listType, List(Reverse(p.1)));
    AllocateSpec(p.0.mem, BuiltinObject(listType, List(Reverse(p.1))));
  }

  /** `BuildList` needs its `n` values: fewer on the stack panic. */
  lemma BuildListUnderflow(s: Machine, listType: Addr, n: nat)
    requires s.frames != [] && n > |Top(s.frames).stack|
    ensures BuildListIn(s, listType, n).Err?
  {
    PopNTooMany(s, n);
  }

  /** `JumpIfFalseAndPopStack` on an int: the value is popped, and the pc
      is set to the destination exactly when the int is 0, the handler
      reporting whether it jumped. */
  lemma JumpIfFalseOnInt(s: Machine, destination: nat, boolOf: (MemState, Addr) -> Result<Option<Outcome>, Panic>)
    requires WellFormed(s.mem) && s.frames != [] && Top(s.frames).stack != []
    requires var st := Top(s.frames).stack;
             RawDataIn(s.mem, st[|st| - 1]).Ok? && RawDataIn(s.mem, st[|st| - 1]).value.Int?
    ensures JumpIfFalseIn(s, destination, boolOf).Ok?
    ensures var st := Top(s.frames).stack;
            var x := RawDataIn(s.mem, st[|st| - 1]).value.i;
            var (s', jumped) := JumpIfFalseIn(s, destination, boolOf).value;
            jumped == (x == 0) &&
            Top(s'.frames).stack == st[..|st| - 1] &&
            Top(s'.frames).progCounter == (if x == 0 then destination else Top(s.frames).progCounter)
  {
    var st := Top(s.frames).stack;
    var p := Pop(s).value;
    DecreaseSpec(p.0.mem, p.1);
  }

  /** `JumpIfFalseAndPopStack` on anything but an int: `__bool__` runs on
      the popped value, the heap is the one that call leaves with the
      popped value released, and the pc is set to the destination exactly
      when the int it returns is 0. */
  lemma JumpIfFalseAsksBool(s: Machine, destination: nat, boolOf: (MemState, Addr) -> Result<Option<Outcome>, Panic>)
    requires s.frames != [] && Top(s.frames).stack != []
    requires var st := Top(s.frames).stack;
             RawDataIn(s.mem, st[|st| - 1]).Ok? && !RawDataIn(s.mem, st[|st| - 1]).value.Int?
    requires var st := Top(s.frames).stack;
             var b := boolOf(s.mem, st[|st| - 1]);
             b.Ok? && b.value.Some? && Readable(b.value.value.mem, st[|st| - 1]) &&
             RawDataIn(b.value.value.mem, b.value.value.returned).Ok? &&
             RawDataIn(b.value.value.mem, b.value.value.returned).value.Int?
    ensures JumpIfFalseIn(s, destination, boolOf).Ok?
    ensures var st := Top(s.frames).stack;
            var b := boolOf(s.mem, st[|st| - 1]).value.value;
            var x := RawDataIn(b.mem, b.returned).value.i;
            var (s', jumped) := JumpIfFalseIn(s, destination, boolOf).value;
            jumped == (x == 0) &&
            s'.mem == DecreaseIn(b.mem, st[|st| - 1]).value &&
            Top(s'.frames).stack == st[..|st| - 1] &&
            Top(s'.frames).progCounter == (if x == 0 then destination else Top(s.frames).progCounter)
  {
  }

  /** Whatever the value, a false outcome jumps and a true one leaves the
      pc alone. */
  lemma JumpIfFalseJumpsIffFalse(s: Machine, destination: nat, boolOf: (MemState, Addr) -> Result<Option<Outcome>, Panic>)
    requires JumpIfFalseIn(s, destination, boolOf).Ok?
    ensures var (s', jumped) := JumpIfFalseIn(s, destination, boolOf).value;
            |s'.frames| == |s.frames| &&
            Top(s'.frames).progCounter == (if jumped then destination else Top(s.frames).progCounter) &&
            Top(s'.frames).stack == Top(s.frames).stack[..|Top(s.frames).stack| - 1]
  {
  }

  /** The int fast path computes `tos1 op tos`, the deeper operand on
      the left, and stays within `i128` or panics. */
  lemma FastArithOnInts(op: ArithOp, a: int, b: int, floats: FloatOps)
    requires InI128(a) && InI128(b)
    ensures FastArith(op, Int(b), Int(a), floats) ==
            Some(if IntArith(op, a, b).Ok? then Ok(Int(IntArith(op, a, b).value)) else Err(IntArith(op, a, b).error))
    ensures IntArith(op, a, b).Ok? ==> InI128(IntArith(op, a, b).value)
    ensures IntArith(op, a, b).Ok? && op == AddOp ==> IntArith(op, a, b).value == a + b
    ensures IntArith(op, a, b).Ok? && op == SubOp ==> IntArith(op, a, b).value == a - b
    ensures IntArith(op, a, b).Ok? && op == MulOp ==> IntArith(op, a, b).value == a * b
    ensures op == ModOp && b != 0 && !(a == I128Min && b == -1) ==>
              IntArith(op, a, b) == Ok(TruncRem(a, b))
    ensures op == ModOp && b == 0 ==> IntArith(op, a, b) == Err(Overflow)
  {
    if op == ModOp && b != 0 && !(a == I128Min && b == -1) {
      TruncRemSpec(a, b);
      TruncRemBound(a, b);
    }
  }

  /** The truncating remainder of two `i128` values is an `i128`. */
  lemma TruncRemBound(a: int, b: int)
    requires b != 0 && InI128(a) && InI128(b)
    ensures InI128(TruncRem(a, b))
  {
    TruncRemSpec(a, b);
  }

  /** A payload that is not a number turns the fast path off; the
      handler then calls the dunder method instead. */
  lemma FastPathNeedsNumbers(op: ArithOp, cmp: CompareOp, tos: BuiltInTypeData, tos1: BuiltInTypeData, floats: FloatOps)
    ensures FastArith(op, tos, tos1, floats).None? <==> !(Numeric(tos) && Numeric(tos1))
    ensures FastCompare(cmp, tos, tos1, floats).None? <==> !(Numeric(tos) && Numeric(tos1))
  {
  }

  /** `Raise` moves the top of the stack into the current frame's
      exception. */
  lemma RaiseSpec(s: Machine)
    requires s.frames != [] && Top(s.frames).stack != []
    ensures RaiseInstructionIn(s).Ok?
    ensures var st := Top(s.frames).stack;
            var s' := RaiseInstructionIn(s).value;
            Top(s'.frames).exception == Some(st[|st| - 1]) && Top(s'.frames).stack == st[..|st| - 1] &&
            s'.mem == s.mem
  {
  }

  /** `ReturnValue` leaves the stack as it was and ends the code: the pc
      is the instruction count. */
  lemma ReturnValueSpec(s: Machine, instructionCount: nat)
    requires WellFormed(s.mem) && s.frames != [] && Top(s.frames).stack != []
    requires Readable(s.mem, Top(s.frames).stack[|Top(s.frames).stack| - 1])
    ensures ReturnValueIn(s, instructionCount).Ok?
    ensures var s' := ReturnValueIn(s, instructionCount).value;
            Top(s'.frames).stack == Top(s.frames).stack && Top(s'.frames).progCounter == instructionCount &&
            |s'.frames| == |s.frames|
  {
  }

  /** `IndexAccess` pushes the element the int selects in place of the
      two operands, when the index is in range. */
  lemma IndexAccessSpec(s: Machine, items: seq<Addr>, k: nat)
    requires s.frames != [] && |Top(s.frames).stack| >= 2
    requires var st := Top(s.frames).stack;
             RawDataIn(s.mem, st[|st| - 1]) == Ok(Int(k)) &&
             RawDataIn(s.mem, st[|st| - 2]) == Ok(List(items)) && k < |items| && |items| <= USIZE_MODULUS
    ensures IndexAccessIn(s).Ok?
    ensures var st := Top(s.frames).stack;
            Top(IndexAccessIn(s).value.frames).stack == st[..|st| - 2] + [items[k]]
  {
  }

  /** `StoreName` binds the popped value to the slot and leaves the
      others as they were. */
  lemma StoreNameSpec(s: Machine, name: nat, other: nat)
    requires StoreNameIn(s, name).Ok?
    ensures var st := Top(s.frames).stack;
            var s' := StoreNameIn(s, name).value;
            st != [] && Top(s'.frames).stack == st[..|st| - 1] &&
            GetLocalIn(Top(s'.frames).locals, name) == Some(st[|st| - 1]) &&
            (other != name && other < |Top(s.frames).locals| ==>
               GetLocalIn(Top(s'.frames).locals, other) == GetLocalIn(Top(s.frames).locals, other))
  {
    var p := Pop(s).value;
    var s1 := Increase(p.0, p.1).value;
    var previous := LocalIn(s, name).value;
    var s2 := if previous.Some? then Decrease(s1, previous.value).value else s1;
    GetAfterBind(Top(s2.frames).locals, name, p.1, other);
  }

  /** Storing a readable value into a slot whose old binding is readable
      succeeds, even when the two are the same object. */
  lemma StoreNameSucceeds(s: Machine, name: nat)
    requires WellFormed(s.mem) && s.frames != [] && Top(s.frames).stack != []
    requires Readable(s.mem, Top(s.frames).stack[|Top(s.frames).stack| - 1])
    requires GetLocalIn(Top(s.frames).locals, name).Some? ==> Readable(s.mem, GetLocalIn(Top(s.frames).locals, name).value)
    ensures StoreNameIn(s, name).Ok?
  {
    var p := Pop(s).value;
    IncreaseSpec(p.0.mem, p.1);
    var s1 := Increase(p.0, p.1).value;
    var previous := GetLocalIn(Top(s.frames).locals, name);
    if previous.Some? && previous.value != p.1 {
      assert GetIn(s1.mem, previous.value) == GetIn(s.mem, previous.value);
    }
  }

  /** As written, `x = x` on an unshared, non-const object panics: the
      release of the old binding frees the object, and taking the new
      value then finds it freed. */
  lemma StoreNameAsWrittenFreesSelf(s: Machine, name: nat, a: Addr)
    requires WellFormed(s.mem) && s.frames != [] && Top(s.frames).stack != []
    requires Top(s.frames).stack[|Top(s.frames).stack| - 1] == a
    requires GetLocalIn(Top(s.frames).locals, name) == Some(a)
    requires Readable(s.mem, a) && !s.mem.heap[a].isConst
    requires s.mem.heap[a].structure.Object? && s.mem.heap[a].structure.refcount == 1
    ensures StoreNameAsWritten(s, name) == Err(RecentlyDeallocated(a))
    ensures StoreNameIn(s, name).Ok?
  {
    DecreaseSpec(s.mem, a);
    StoreNameSucceeds(s, name);
  }

  // ---------------------------------------------------------------------
  // The fetch-execute loop, and what it means for a method to perform a
  // handler
  // ---------------------------------------------------------------------

  /** A handler whose pc is always to advance. */
  function Advancing(r: Result<Machine, Panic>): Result<(Machine, bool), Panic>
  {
    var s :- r;
    Ok((s, true))
  }

  /** A handler whose pc is always to advance. */
  function AdvancingOutcome(r: Result<(), Panic>): Result<bool, Panic>
  {
    if r.Ok? then Ok(true) else Err(r.error)
  }

  /** A method performs `spec` when it fails exactly when `spec` does and
      otherwise leaves the state `spec` gives. */
  predicate Performs<T>(r: Result<T, Panic>, after: Machine, spec: Result<Machine, Panic>)
  {
    (r.Ok? <==> spec.Ok?) && (r.Ok? ==> after == spec.value)
  }

  /** The same, for a handler that also says whether the pc is to advance
      (or, for the jump, whether it jumped). */
  predicate PerformsStep(r: Result<bool, Panic>, after: Machine, spec: Result<(Machine, bool), Panic>)
  {
    (r.Ok? <==> spec.Ok?) && (r.Ok? ==> (after, r.value) == spec.value)
  }

  /** Performing a handler performs it as an advancing step. */
  lemma PerformsAdvancing(done: Result<(), Panic>, after: Machine, spec: Result<Machine, Panic>)
    requires Performs(done, after, spec)
    ensures PerformsStep(AdvancingOutcome(done), after, Advancing(spec))
  {
  }

  /** The loop of `execute_code_object`, for at most `fuel` steps of
      `step`: the state reached, and whether the pc got past the `count`
      instructions of the code, which is the only way the loop ends. */
  function RunWith(s: Machine, step: Machine -> Result<Machine, Panic>, count: nat, fuel: nat): (r: Result<(Machine, bool), Panic>)
    ensures r.Ok? && r.value.1 ==> r.value.0.frames != [] && Top(r.value.0.frames).progCounter >= count
    decreases fuel
  {
    var pc :- PcIn(s);
    if pc >= count then Ok((s, true))
    else if fuel == 0 then Ok((s, false))
    else
      var s1 :- step(s);
      RunWith(s1, step, count, fuel - 1)
  }

  /** More fuel does not change a finished run. */
  lemma {:induction false} RunMoreFuel(s: Machine, step: Machine -> Result<Machine, Panic>, count: nat, fuel: nat, more: nat)
    requires fuel <= more
    requires RunWith(s, step, count, fuel).Ok? && RunWith(s, step, count, fuel).value.1
    ensures RunWith(s, step, count, more) == RunWith(s, step, count, fuel)
    decreases fuel
  {
    if Top(s.frames).progCounter < count {
      RunMoreFuel(step(s).value, step, count, fuel - 1, more - 1);
    }
  }
}
