/*
 * The call frames of the address-based runtime, shared by `VM`
 * (src/runtime/vm.rs) and its predecessor `Runtime`
 * (src/runtime/runtime.rs), whose frame code is the same: each frame has
 * a function name, local slots indexed by number, an operand stack, the
 * exception raised in it, and a program counter. The two files also
 * declare the same special values and builtin type addresses, kept here.
 *
 * The operations are stated on values; the classes apply them to their
 * frame stack in place.
 */
module Frames {

  import opened Wrappers
  import opened RuntimeDataModel

  /** `StackFrame`; `local_namespace` in src/runtime/vm.rs, `values` in
      src/runtime/runtime.rs. */
  datatype StackFrame = StackFrame(
    functionName: string,
    locals: seq<Addr>,
    stack: seq<Addr>,
    exception: Option<Addr>,
    progCounter: nat)

  /** The frame `new_stack_frame` pushes. */
  function NewFrame(name: string): (f: StackFrame)
    ensures f.locals == [] && f.stack == [] && f.exception == None && f.progCounter == 0
  {
    StackFrame(name, [], [], None, 0)
  }

  // ---------------------------------------------------------------------
  // usize arithmetic of the program counter
  // ---------------------------------------------------------------------

  const USIZE_MODULUS: int := 0x1_0000_0000_0000_0000

  /** `x as usize` for an `isize` value `x`: two's complement
      reinterpretation. */
  function AsUsize(x: int): (r: nat)
    ensures r < USIZE_MODULUS
  {
    x % USIZE_MODULUS
  }

  /** A value that fits stays; a negative one wraps around. */
  lemma AsUsizeSpec(x: int)
    requires -USIZE_MODULUS <= x < USIZE_MODULUS
    ensures 0 <= x ==> AsUsize(x) == x
    ensures x < 0 ==> AsUsize(x) == x + USIZE_MODULUS
  {
  }

  // ---------------------------------------------------------------------
  // Local slots
  // ---------------------------------------------------------------------

  function Nulls(n: nat): (r: seq<Addr>)
    ensures |r| == n && forall i :: 0 <= i < n ==> r[i] == NULL
  {
    seq(n, _ => NULL)
  }

  /** The local slots after `bind_local(name, addr)`: slot `name` holds
      `addr`, the vector grows to `name + 1` if it was shorter, the gap is
      filled with null, and every other slot keeps its value. */
  function BindIn(slots: seq<Addr>, name: nat, addr: Addr): (r: seq<Addr>)
    ensures |r| == if name < |slots| then |slots| else name + 1
    ensures r[name] == addr
    ensures forall i :: 0 <= i < |r| && i != name ==>
              r[i] == if i < |slots| then slots[i] else NULL
  {
    if name < |slots| then slots[name := addr] else slots + Nulls(name - |slots|) + [addr]
  }

  /** `get_local`: `None` past the end. */
  function GetLocalIn(slots: seq<Addr>, name: nat): (r: Option<Addr>)
    ensures r.Some? <==> name < |slots|
    ensures r.Some? ==> r.value == slots[name]
  {
    if name < |slots| then Some(slots[name]) else None
  }

  /** What `get_local` sees after `bind_local`. */
  lemma GetAfterBind(slots: seq<Addr>, name: nat, addr: Addr, other: nat)
    ensures GetLocalIn(BindIn(slots, name, addr), other) ==
            if other == name then Some(addr)
            else if other < |slots| then Some(slots[other])
            else if other < name then Some(NULL)
            else None
  {
  }

  /** The body of `bind_local` on one frame's slots: a push when `name` is
      the length, an overwrite when it is smaller, and otherwise null
      pushed until the length reaches `name`, then the push. */
  method PadAndBind(slots: seq<Addr>, name: nat, addr: Addr) returns (r: seq<Addr>)
    ensures r == BindIn(slots, name, addr)
  {
    if |slots| == name {
      r := slots + [addr];
    } else if |slots| > name {
      r := slots[name := addr];
    } else {
      r := slots;
      while |r| < name
        invariant |slots| <= |r| <= name
        invariant r == slots + Nulls(|r| - |slots|)
        decreases name - |r|
      {
        r := r + [NULL];
      }
      r := r + [addr];
    }
  }

  // ---------------------------------------------------------------------
  // The operand stack of the current frame
  // ---------------------------------------------------------------------

  /** `get_stack_offset(offset)`: the entry at `len - 1 + offset`; an index
      outside the stack panics. */
  function StackOffsetIn(stack: seq<Addr>, offset: int): (r: Result<Addr, Panic>)
    ensures r.Ok? <==> 1 - |stack| <= offset <= 0
    ensures r.Ok? ==> r.value == stack[|stack| - 1 + offset]
  {
    var index := |stack| - 1 + offset;
    if 0 <= index < |stack| then Ok(stack[index]) else Err(StackIndex(index))
  }

  /** The frame stack with its last frame replaced. */
  function WithTop(frames: seq<StackFrame>, f: StackFrame): seq<StackFrame>
    requires frames != []
  {
    frames[|frames| - 1 := f]
  }

  function Top(frames: seq<StackFrame>): StackFrame
    requires frames != []
  {
    frames[|frames| - 1]
  }

  /** `push_onto_stack`: onto the current frame; no frame panics. */
  function PushOn(frames: seq<StackFrame>, v: Addr): (r: Result<seq<StackFrame>, Panic>)
    ensures r.Ok? <==> frames != []
    ensures r.Ok? ==> |r.value| == |frames| && r.value[..|frames| - 1] == frames[..|frames| - 1]
  {
    if frames == [] then Err(NoFrame)
    else Ok(WithTop(frames, Top(frames).(stack := Top(frames).stack + [v])))
  }

  /** `pop_stack`: off the current frame; an empty stack panics. */
  function PopFrom(frames: seq<StackFrame>): (r: Result<(seq<StackFrame>, Addr), Panic>)
    ensures r.Ok? <==> frames != [] && Top(frames).stack != []
    ensures r.Ok? ==> |r.value.0| == |frames| && r.value.0[..|frames| - 1] == frames[..|frames| - 1]
  {
    if frames == [] then Err(NoFrame)
    else if Top(frames).stack == [] then Err(EmptyStack)
    else
      var s := Top(frames).stack;
      Ok((WithTop(frames, Top(frames).(stack := s[..|s| - 1])), s[|s| - 1]))
  }

  /** A pop right after a push gives back the pushed value and the frames
      as they were. */
  lemma PopAfterPush(frames: seq<StackFrame>, v: Addr)
    requires frames != []
    ensures PopFrom(PushOn(frames, v).value) == Ok((frames, v))
  {
    var t := Top(frames);
    var pushed := WithTop(frames, t.(stack := t.stack + [v]));
    assert (t.stack + [v])[..|t.stack|] == t.stack;
    assert Top(pushed).stack == t.stack + [v];
    assert WithTop(pushed, t) == frames;
  }

  /** Pushing the popped value back restores the frames. */
  lemma PushAfterPop(frames: seq<StackFrame>)
    requires PopFrom(frames).Ok?
    ensures PushOn(PopFrom(frames).value.0, PopFrom(frames).value.1) == Ok(frames)
  {
    var t := Top(frames);
    var s := t.stack;
    var popped := WithTop(frames, t.(stack := s[..|s| - 1]));
    assert s[..|s| - 1] + [s[|s| - 1]] == s;
    assert Top(popped).stack == s[..|s| - 1];
    assert WithTop(popped, t) == frames;
  }

  /** The value `n` pops take off a stack, in pop order. */
  function PoppedOrder(stack: seq<Addr>, n: nat): seq<Addr>
    requires n <= |stack|
    decreases n
  {
    if n == 0 then [] else [stack[|stack| - 1]] + PoppedOrder(stack[..|stack| - 1], n - 1)
  }

  /** `n` pops take the top `n` entries, the topmost first. */
  lemma {:induction false} PoppedOrderSpec(stack: seq<Addr>, n: nat)
    requires n <= |stack|
    ensures |PoppedOrder(stack, n)| == n
    ensures forall i :: 0 <= i < n ==> PoppedOrder(stack, n)[i] == stack[|stack| - 1 - i]
    decreases n
  {
    if n > 0 {
      PoppedOrderSpec(stack[..|stack| - 1], n - 1);
    }
  }

  // ---------------------------------------------------------------------
  // Declarations both runtime objects make alike
  // ---------------------------------------------------------------------

  /** `SpecialValue`. */
  datatype SpecialValue =
    | TypeValue
    | NoneType
    | NoneValue
    | NotImplementedType
    | NotImplementedValue
    | StopIterationType
    | StopIterationValue
    | CallableType
    | ModuleType

  /** `BuiltinTypeAddresses`. */
  datatype BuiltinTypeAddresses = BuiltinTypeAddresses(
    intType: Addr,
    floatType: Addr,
    booleanType: Addr,
    stringType: Addr,
    listType: Addr,
    indexErrType: Addr,
    codeObjectType: Addr,
    trueVal: Addr,
    falseVal: Addr)

  const NullTypeAddresses: BuiltinTypeAddresses :=
    BuiltinTypeAddresses(NULL, NULL, NULL, NULL, NULL, NULL, NULL, NULL, NULL)

  /** The frames popped off the frame stack one by one, each frame's
      operand stack in bottom-to-top order: the order in which popping
      every frame decreases reference counts. */
  function StacksTopDown(frames: seq<StackFrame>): seq<Addr>
    decreases |frames|
  {
    if frames == [] then [] else Top(frames).stack + StacksTopDown(frames[..|frames| - 1])
  }
}
