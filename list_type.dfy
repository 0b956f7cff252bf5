/*
 * The builtin `list` type (src/builtin_types/list_type.rs): concatenation,
 * the in-place `extend` and `append`, equality, the text of a list and
 * its length, and the registration of the type.
 *
 * The file is written against the `Runtime` generation of the runtime:
 * a call carries its receiver apart from its arguments, and the receiver
 * is unwrapped where it is needed. `extend` and `append` change the
 * receiver's payload on the heap; the others return a new object or one
 * of the two shared booleans. The methods of the elements they call
 * (`__eq__`, `__repr__`, `__str__`) are the `callMethod` of the
 * environment.
 */
module ListType {

  import opened Wrappers
  import opened RuntimeDataModel
  import opened UnsafeMemory
  import opened Frames
  import opened ObjectSpace
  import opened Handlers
  import opened PyRuntime
  import opened Natives
  import StringType
  import Vm

  /** `CallParams` of src/runtime/runtime.rs: the receiver, if any, and
      the arguments without it. */
  datatype CallParams = CallParams(boundPyobj: Option<Addr>, funcAddress: Addr, funcName: Option<string>, params: seq<Addr>)

  /** `bound_pyobj.unwrap()`. */
  function Receiver(c: CallParams): (r: Result<Addr, Panic>)
    ensures r.Ok? <==> c.boundPyobj.Some?
    ensures r.Ok? ==> r.value == c.boundPyobj.value
  {
    if c.boundPyobj.None? then Err(MissingReceiver) else Ok(c.boundPyobj.value)
  }

  /** The native functions the type binds. */
  datatype ListMethod =
    | Concat
    | Equals
    | NotEquals
    | Repr
    | ToStr
    | Len
    | Append
    | Extend

  function Code(f: ListMethod): NativeCode
  {
    match f
    case Concat => 400
    case Equals => 401
    case NotEquals => 402
    case Repr => 403
    case ToStr => 404
    case Len => 405
    case Append => 406
    case Extend => 407
  }

  function Decode(code: NativeCode): Option<ListMethod>
  {
    if code == 400 then Some(Concat)
    else if code == 401 then Some(Equals)
    else if code == 402 then Some(NotEquals)
    else if code == 403 then Some(Repr)
    else if code == 404 then Some(ToStr)
    else if code == 405 then Some(Len)
    else if code == 406 then Some(Append)
    else if code == 407 then Some(Extend)
    else None
  }

  /** Every native function is told apart by its code. */
  lemma DecodeCode(f: ListMethod)
    ensures Decode(Code(f)) == Some(f)
  {
  }

  // ---------------------------------------------------------------------
  // Concatenation and the changes in place
  // ---------------------------------------------------------------------

  /** `concat`: a new list of the list type holding the receiver's
      elements followed by the other's; a non-list other panics with the
      name of its type. */
  function ConcatIn(m: MemState, env: NativeEnv, c: CallParams): (r: Result<Outcome, Panic>)
    ensures |c.params| != 1 ==> r == Err(ArgumentCount(1, |c.params|))
  {
    var _ :- CheckParams(1, |c.params|);
    var self :- Receiver(c);
    var xs :- ListOf(m, self);
    var otherData :- RawDataIn(m, c.params[0]);
    if otherData.List? then
      AllocateRawIn(m, env.types.listType, List(xs + otherData.items))
    else
      var name :- PyobjTypeNameIn(m, c.params[0]);
      Err(TypeMismatch(name))
  }

  /** `take_list_mut` on the object at `a` followed by `extend(extra)`
      through the reference. */
  function PushItemsIn(m: MemState, a: Addr, extra: seq<Addr>): (r: Result<MemState, Panic>)
  {
    var obj :- GetIn(m, a);
    if !obj.structure.Object? then Err(NotAnObject(a))
    else
      var xs :- TakeList(obj.structure.rawData);
      WriteIn(m, a, obj.(structure := obj.structure.(rawData := List(xs + extra))))
  }

  /** Pushing onto a list leaves the heap well formed, the list holding
      its old elements followed by the new ones, the object otherwise as
      it was, and every other object as it was. */
  lemma PushItemsSpec(m: MemState, a: Addr, xs: seq<Addr>, extra: seq<Addr>)
    requires WellFormed(m) && ListOf(m, a) == Ok(xs)
    ensures PushItemsIn(m, a, extra).Ok?
    ensures var m' := PushItemsIn(m, a, extra).value;
            WellFormed(m') && ListOf(m', a) == Ok(xs + extra) && Readable(m', a) &&
            m'.heap[a].typeAddr == m.heap[a].typeAddr && m'.heap[a].isConst == m.heap[a].isConst &&
            (forall b :: b != a ==> GetIn(m', b) == GetIn(m, b))
  {
    var obj := m.heap[a];
    WritePreserves(m, a, obj.(structure := obj.structure.(rawData := List(xs + extra))));
  }

  /** `extend`: the other list's elements, read before the receiver is
      touched, are pushed onto the receiver, which is returned; a non-list
      other panics with the name of its type. */
  function ExtendIn(m: MemState, c: CallParams): (r: Result<Outcome, Panic>)
    ensures |c.params| != 1 ==> r == Err(ArgumentCount(1, |c.params|))
  {
    var _ :- CheckParams(1, |c.params|);
    var otherData :- RawDataIn(m, c.params[0]);
    if otherData.List? then
      var self :- Receiver(c);
      var m' :- PushItemsIn(m, self, otherData.items);
      Ok(Outcome(m', self))
    else
      var name :- PyobjTypeNameIn(m, c.params[0]);
      Err(TypeMismatch(name))
  }

  /** `append`: the argument is pushed onto the receiver, which is
      returned. */
  function AppendIn(m: MemState, c: CallParams): (r: Result<Outcome, Panic>)
    ensures |c.params| != 1 ==> r == Err(ArgumentCount(1, |c.params|))
  {
    var _ :- CheckParams(1, |c.params|);
    var self :- Receiver(c);
    var m' :- PushItemsIn(m, self, [c.params[0]]);
    Ok(Outcome(m', self))
  }

  /** `extend` on the runtime's heap. */
  method ExtendList(rt: Runtime, c: CallParams) returns (r: Result<Addr, Panic>)
    modifies rt.memory
    ensures r.Ok? <==> old(ExtendIn(rt.memory.State(), c)).Ok?
    ensures r.Ok? ==> Outcome(rt.memory.State(), r.value) == old(ExtendIn(rt.memory.State(), c)).value
    ensures r.Err? ==> r.error == old(ExtendIn(rt.memory.State(), c)).error && rt.memory.State() == old(rt.memory.State())
  {
    if |c.params| != 1 {
      return Err(ArgumentCount(1, |c.params|));
    }
    var otherData := rt.GetRawDataOfPyobj(c.params[0]);
    if otherData.Err? {
      return Err(otherData.error);
    }
    if !otherData.value.List? {
      var name := PyobjTypeNameIn(rt.memory.State(), c.params[0]);
      if name.Err? {
        return Err(name.error);
      }
      return Err(TypeMismatch(name.value));
    }
    var cloned := otherData.value.items;
    r := PushOnReceiver(rt, c, cloned);
  }

  /** `append` on the runtime's heap. */
  method AppendToList(rt: Runtime, c: CallParams) returns (r: Result<Addr, Panic>)
    modifies rt.memory
    ensures r.Ok? <==> old(AppendIn(rt.memory.State(), c)).Ok?
    ensures r.Ok? ==> Outcome(rt.memory.State(), r.value) == old(AppendIn(rt.memory.State(), c)).value
    ensures r.Err? ==> r.error == old(AppendIn(rt.memory.State(), c)).error && rt.memory.State() == old(rt.memory.State())
  {
    if |c.params| != 1 {
      return Err(ArgumentCount(1, |c.params|));
    }
    r := PushOnReceiver(rt, c, [c.params[0]]);
  }

  /** The receiver unwrapped, its list taken through `take_list_mut`, and
      `extra` pushed onto it. */
  method PushOnReceiver(rt: Runtime, c: CallParams, extra: seq<Addr>) returns (r: Result<Addr, Panic>)
    modifies rt.memory
    ensures var expected := old(var self :- Receiver(c); PushItemsIn(rt.memory.State(), self, extra));
            (r.Ok? <==> expected.Ok?) &&
            (r.Ok? ==> r.value == c.boundPyobj.value && rt.memory.State() == expected.value) &&
            (r.Err? ==> r.error == expected.error && rt.memory.State() == old(rt.memory.State()))
  {
    if c.boundPyobj.None? {
      return Err(MissingReceiver);
    }
    var self := c.boundPyobj.value;
    var obj := rt.memory.Get(self);
    if obj.Err? {
      return Err(obj.error);
    }
    var structure := obj.value.structure;
    if !structure.Object? {
      return Err(NotAnObject(self));
    }
    var xs := TakeList(structure.rawData);
    if xs.Err? {
      return Err(xs.error);
    }
    var _ := rt.memory.Write(self, obj.value.(structure := structure.(rawData := List(xs.value + extra))));
    return Ok(self);
  }

  /** `extend` with a list pushes its elements onto the receiver in
      place, and `l.extend(l)` doubles `l`; `append` pushes exactly one.
      Both return the receiver, keep the heap well formed and leave
      every other object as it was; `append(x)` changes the receiver as
      `extend` with a list holding just `x` does. */
  lemma InPlaceSpec(m: MemState, f: Addr, self: Addr, other: Addr, x: Addr, xs: seq<Addr>, ys: seq<Addr>)
    requires WellFormed(m) && ListOf(m, self) == Ok(xs) && ListOf(m, other) == Ok(ys)
    ensures var r := ExtendIn(m, CallParams(Some(self), f, None, [other]));
            r.Ok? && r.value.returned == self && WellFormed(r.value.mem) &&
            ListOf(r.value.mem, self) == Ok(xs + (if other == self then xs else ys)) &&
            (forall b :: b != self ==> GetIn(r.value.mem, b) == GetIn(m, b))
    ensures var r := AppendIn(m, CallParams(Some(self), f, None, [x]));
            r.Ok? && r.value.returned == self && WellFormed(r.value.mem) &&
            ListOf(r.value.mem, self) == Ok(xs + [x]) &&
            (forall b :: b != self ==> GetIn(r.value.mem, b) == GetIn(m, b))
    ensures ListOf(m, other) == Ok([x]) ==>
              AppendIn(m, CallParams(Some(self), f, None, [x])).value.mem ==
              ExtendIn(m, CallParams(Some(self), f, None, [other])).value.mem
  {
    PushItemsSpec(m, self, xs, ys);
    PushItemsSpec(m, self, xs, [x]);
  }

  /** `+` allocates a new list holding what `extend` would leave in the
      receiver, and leaves both operands as they were; a non-list other
      panics with the name of its type. */
  lemma ConcatSpec(m: MemState, env: NativeEnv, f: Addr, self: Addr, other: Addr, xs: seq<Addr>)
    requires WellFormed(m) && ListOf(m, self) == Ok(xs) && Readable(m, other) && m.heap[other].structure.Object?
    ensures var r := ConcatIn(m, env, CallParams(Some(self), f, None, [other]));
            var ys := m.heap[other].structure.rawData;
            (ys.List? ==>
               r.Ok? && FreshObject(m, r.value, env.types.listType, List(xs + ys.items)) &&
               ListOf(r.value.mem, r.value.returned) == ListOf(ExtendIn(m, CallParams(Some(self), f, None, [other])).value.mem, self)) &&
            (!ys.List? && PyobjTypeNameIn(m, other).Ok? ==> r == Err(TypeMismatch(PyobjTypeNameIn(m, other).value)))
  {
    var ys := m.heap[other].structure.rawData;
    if ys.List? {
      AllocateRawSpec(m, env.types.listType, List(xs + ys.items));
      PushItemsSpec(m, self, xs, ys.items);
    }
  }

  // ---------------------------------------------------------------------
  // Length
  // ---------------------------------------------------------------------

  /** `len`: a new int of the int type holding the number of elements. */
  function LenIn(m: MemState, env: NativeEnv, c: CallParams): (r: Result<Outcome, Panic>)
    ensures |c.params| != 0 ==> r == Err(ArgumentCount(0, |c.params|))
  {
    var _ :- CheckParams(0, |c.params|);
    var self :- Receiver(c);
    var xs :- ListOf(m, self);
    AllocateRawIn(m, env.types.intType, Int(|xs|))
  }

  /** `len` allocates the number of elements, one more after an
      `append`. */
  lemma LenSpec(m: MemState, env: NativeEnv, f: Addr, g: Addr, self: Addr, x: Addr, xs: seq<Addr>)
    requires WellFormed(m) && ListOf(m, self) == Ok(xs)
    ensures var r := LenIn(m, env, CallParams(Some(self), f, None, []));
            r.Ok? && FreshObject(m, r.value, env.types.intType, Int(|xs|))
    ensures var m' := AppendIn(m, CallParams(Some(self), g, None, [x])).value.mem;
            var r := LenIn(m', env, CallParams(Some(self), f, None, []));
            r.Ok? && FreshObject(m', r.value, env.types.intType, Int(|xs| + 1))
  {
    AllocateRawSpec(m, env.types.intType, Int(|xs|));
    PushItemsSpec(m, self, xs, [x]);
    var m' := AppendIn(m, CallParams(Some(self), g, None, [x])).value.mem;
    AllocateRawSpec(m', env.types.intType, Int(|xs| + 1));
  }

  // ---------------------------------------------------------------------
  // Equality
  // ---------------------------------------------------------------------

  /** The `__eq__` call between two elements, the same object needing
      none: whether they are equal, and the heap afterwards. A missing
      `__eq__` or the answer `False` make them unequal. */
  function ElementsEqual(env: NativeEnv, m: MemState, x: Addr, y: Addr): (r: Result<(MemState, bool), Panic>)
    ensures x == y ==> r == Ok((m, true))
  {
    if x == y then Ok((m, true))
    else
      var found :- env.callMethod(m, x, "__eq__", [y]);
      if found.None? then Ok((m, false))
      else Ok((found.value.mem, found.value.returned != env.types.falseVal))
  }

  /** The loop of `equals` as written, from element `i` of the receiver
      and element `j` of the other: every element of the receiver is
      compared with every element of the other. A missing `__eq__` clears
      the flag and goes on to the next pair; the answer `False` clears it
      and leaves the inner loop. */
  function PairsAsWritten(env: NativeEnv, m: MemState, xs: seq<Addr>, ys: seq<Addr>, i: nat, j: nat, same: bool)
    : (r: Result<(MemState, bool), Panic>)
    requires i <= |xs| && j <= |ys|
    decreases |xs| - i, |ys| - j
  {
    if i == |xs| then Ok((m, same))
    else if j == |ys| then PairsAsWritten(env, m, xs, ys, i + 1, 0, same)
    else if xs[i] == ys[j] then PairsAsWritten(env, m, xs, ys, i, j + 1, same)
    else
      var found :- env.callMethod(m, xs[i], "__eq__", [ys[j]]);
      if found.None? then PairsAsWritten(env, m, xs, ys, i, j + 1, false)
      else if found.value.returned == env.types.falseVal then PairsAsWritten(env, found.value.mem, xs, ys, i + 1, 0, false)
      else PairsAsWritten(env, found.value.mem, xs, ys, i, j + 1, same)
  }

  /** The intended loop, from element `i`: the elements at the same
      position are compared, up to the first pair that is not equal. */
  function PairsEqual(env: NativeEnv, m: MemState, xs: seq<Addr>, ys: seq<Addr>, i: nat): (r: Result<(MemState, bool), Panic>)
    requires |xs| == |ys| && i <= |xs|
    decreases |xs| - i
  {
    if i == |xs| then Ok((m, true))
    else
      var (m', equal) :- ElementsEqual(env, m, xs[i], ys[i]);
      if !equal then Ok((m', false)) else PairsEqual(env, m', xs, ys, i + 1)
  }

  /** The receiver's elements and the other operand's payload, or `None`
      when the other is not a list. */
  function EqualsOperands(m: MemState, c: CallParams): (r: Result<(seq<Addr>, Option<seq<Addr>>), Panic>)
    ensures |c.params| != 1 ==> r == Err(ArgumentCount(1, |c.params|))
  {
    var _ :- CheckParams(1, |c.params|);
    var self :- Receiver(c);
    var xs :- ListOf(m, self);
    var otherData :- RawDataIn(m, c.params[0]);
    Ok((xs, if otherData.List? then Some(otherData.items) else None))
  }

  /** `equals` as written: `False` against a non-list or a list of another
      length; otherwise `False` when no pair failed and `True` when one
      did. */
  function EqualsAsWrittenIn(m: MemState, env: NativeEnv, c: CallParams): (r: Result<Outcome, Panic>)
    ensures |c.params| != 1 ==> r == Err(ArgumentCount(1, |c.params|))
  {
    var (xs, other) :- EqualsOperands(m, c);
    if other.None? || |xs| != |other.value| then Ok(Existing(m, env.types.falseVal))
    else
      var (m', same) :- PairsAsWritten(env, m, xs, other.value, 0, 0, true);
      Ok(Outcome(m', if same then env.types.falseVal else env.types.trueVal))
  }

  /** `equals` as intended: `True` exactly when the lists have the same
      length and the elements at each position are equal. */
  function EqualsIn(m: MemState, env: NativeEnv, c: CallParams): (r: Result<Outcome, Panic>)
    ensures |c.params| != 1 ==> r == Err(ArgumentCount(1, |c.params|))
  {
    var (xs, other) :- EqualsOperands(m, c);
    if other.None? || |xs| != |other.value| then Ok(Existing(m, env.types.falseVal))
    else
      var (m', same) :- PairsEqual(env, m, xs, other.value, 0);
      Ok(Outcome(m', TruthValue(env, same)))
  }

  /** `equals` as written, with its two nested loops and its flag. */
  method EqualsAsWritten(m: MemState, env: NativeEnv, c: CallParams) returns (r: Result<Outcome, Panic>)
    ensures r == EqualsAsWrittenIn(m, env, c)
  {
    var operands := EqualsOperands(m, c);
    if operands.Err? {
      return Err(operands.error);
    }
    var (xs, other) := operands.value;
    if other.None? || |xs| != |other.value| {
      return Ok(Existing(m, env.types.falseVal));
    }
    var ys := other.value;
    var mem := m;
    var listEquals := true;
    var i := 0;
    while i < |xs|
      invariant 0 <= i <= |xs|
      invariant PairsAsWritten(env, m, xs, ys, 0, 0, true) == PairsAsWritten(env, mem, xs, ys, i, 0, listEquals)
    {
      var j := 0;
      while j < |ys|
        invariant 0 <= j <= |ys|
        invariant PairsAsWritten(env, m, xs, ys, 0, 0, true) == PairsAsWritten(env, mem, xs, ys, i, j, listEquals)
      {
        if xs[i] == ys[j] {
          j := j + 1;
          continue;
        }
        var found := env.callMethod(mem, xs[i], "__eq__", [ys[j]]);
        if found.Err? {
          return Err(found.error);
        }
        if found.value.None? {
          listEquals := false;
        } else {
          mem := found.value.value.mem;
          if found.value.value.returned == env.types.falseVal {
            listEquals := false;
            break;
          }
        }
        j := j + 1;
      }
      i := i + 1;
    }
    return Ok(Outcome(mem, if listEquals then env.types.falseVal else env.types.trueVal));
  }

  /** `equals` as intended, one loop over the positions. */
  method ListEquals(m: MemState, env: NativeEnv, c: CallParams) returns (r: Result<Outcome, Panic>)
    ensures r == EqualsIn(m, env, c)
  {
    var operands := EqualsOperands(m, c);
    if operands.Err? {
      return Err(operands.error);
    }
    var (xs, other) := operands.value;
    if other.None? || |xs| != |other.value| {
      return Ok(Existing(m, env.types.falseVal));
    }
    var ys := other.value;
    var mem := m;
    var i := 0;
    while i < |xs|
      invariant 0 <= i <= |xs|
      invariant PairsEqual(env, m, xs, ys, 0) == PairsEqual(env, mem, xs, ys, i)
    {
      var step := ElementsEqual(env, mem, xs[i], ys[i]);
      if step.Err? {
        return Err(step.error);
      }
      mem := step.value.0;
      if !step.value.1 {
        return Ok(Outcome(mem, env.types.falseVal));
      }
      i := i + 1;
    }
    return Ok(Outcome(mem, env.types.trueVal));
  }

  /** Lists holding the same objects in the same order are equal without
      a single `__eq__` call. */
  lemma {:induction false} PairsEqualIdentical(env: NativeEnv, m: MemState, xs: seq<Addr>, i: nat)
    requires i <= |xs|
    ensures PairsEqual(env, m, xs, xs, i) == Ok((m, true))
    decreases |xs| - i
  {
    if i < |xs| {
      PairsEqualIdentical(env, m, xs, i + 1);
    }
  }

  /** An answer of unequal names a position whose elements are different
      objects. */
  lemma {:induction false} PairsEqualWitness(env: NativeEnv, m: MemState, xs: seq<Addr>, ys: seq<Addr>, i: nat)
    requires |xs| == |ys| && i <= |xs|
    requires PairsEqual(env, m, xs, ys, i).Ok? && !PairsEqual(env, m, xs, ys, i).value.1
    ensures exists k :: i <= k < |xs| && xs[k] != ys[k]
    decreases |xs| - i
  {
    var (m', equal) := ElementsEqual(env, m, xs[i], ys[i]).value;
    if equal {
      PairsEqualWitness(env, m', xs, ys, i + 1);
    }
  }

  /** As written, every pair of one object with itself is skipped and no
      other pair exists, so the flag stays set. */
  lemma {:induction false} PairsAsWrittenSingle(env: NativeEnv, m: MemState, x: Addr, i: nat, j: nat)
    requires i <= 1 && j <= 1
    ensures PairsAsWritten(env, m, [x], [x], i, j, true) == Ok((m, true))
    decreases 1 - i, 1 - j
  {
    if i < 1 {
      if j < 1 {
        PairsAsWrittenSingle(env, m, x, i, j + 1);
      } else {
        PairsAsWrittenSingle(env, m, x, i + 1, 0);
      }
    }
  }

  /** As intended, `__eq__` is `True` between lists holding the same
      objects; it is `False` against a non-list and a list of another
      length, and its answer `False` between lists of one length names a
      position holding different objects. */
  lemma EqualsSpec(m: MemState, env: NativeEnv, f: Addr, self: Addr, other: Addr, xs: seq<Addr>)
    requires ListOf(m, self) == Ok(xs) && Readable(m, other) && m.heap[other].structure.Object?
    requires env.types.trueVal != env.types.falseVal
    ensures var r := EqualsIn(m, env, CallParams(Some(self), f, None, [other]));
            var d := m.heap[other].structure.rawData;
            (!d.List? || |d.items| != |xs| ==> r == Ok(Outcome(m, env.types.falseVal))) &&
            (d == List(xs) ==> r == Ok(Outcome(m, env.types.trueVal))) &&
            (d.List? && |d.items| == |xs| && r.Ok? && r.value.returned == env.types.falseVal ==>
               exists k :: 0 <= k < |xs| && xs[k] != d.items[k])
  {
    var d := m.heap[other].structure.rawData;
    if d == List(xs) {
      PairsEqualIdentical(env, m, xs, 0);
    }
    if d.List? && |d.items| == |xs| && PairsEqual(env, m, xs, d.items, 0).Ok? && !PairsEqual(env, m, xs, d.items, 0).value.1 {
      PairsEqualWitness(env, m, xs, d.items, 0);
    }
  }

  /** As written, a list holding one object compared with another list
      holding the same object answers `False`, where the intended
      comparison answers `True`. */
  lemma EqualsAsWrittenInverted(m: MemState, env: NativeEnv, f: Addr, self: Addr, other: Addr, x: Addr)
    requires ListOf(m, self) == Ok([x]) && ListOf(m, other) == Ok([x])
    requires env.types.trueVal != env.types.falseVal
    ensures EqualsAsWrittenIn(m, env, CallParams(Some(self), f, None, [other])) == Ok(Outcome(m, env.types.falseVal))
    ensures EqualsIn(m, env, CallParams(Some(self), f, None, [other])) == Ok(Outcome(m, env.types.trueVal))
  {
    PairsAsWrittenSingle(env, m, x, 0, 0);
    PairsEqualIdentical(env, m, [x], 0);
  }

  /** `not_equals`: the receiver's `__eq__` is called; its answer `False`
      gives `True`, any other answer `False`, and a missing `__eq__` gives
      `False`. */
  function NotEqualsIn(m: MemState, env: NativeEnv, c: CallParams): (r: Result<Outcome, Panic>)
    ensures |c.params| != 1 ==> r == Err(ArgumentCount(1, |c.params|))
  {
    var _ :- CheckParams(1, |c.params|);
    var self :- Receiver(c);
    var found :- env.callMethod(m, self, "__eq__", [c.params[0]]);
    if found.None? then Ok(Existing(m, env.types.falseVal))
    else Ok(Outcome(found.value.mem, TruthValue(env, found.value.returned == env.types.falseVal)))
  }

  /** When the receiver's `__eq__` is the list's own, `!=` answers the
      opposite of `==` with the heap `==` leaves, and panics when `==`
      does; with no `__eq__` at all it answers `False`. */
  lemma NotEqualsSpec(m: MemState, env: NativeEnv, f: Addr, g: Addr, self: Addr, other: Addr)
    requires env.types.trueVal != env.types.falseVal
    ensures var eq := EqualsIn(m, env, CallParams(Some(self), g, None, [other]));
            var r := NotEqualsIn(m, env, CallParams(Some(self), f, None, [other]));
            env.callMethod(m, self, "__eq__", [other]) == Found(eq) ==>
              (eq.Err? ==> r == Err(eq.error)) &&
              (eq.Ok? ==> r.Ok? && r.value.mem == eq.value.mem &&
                          (r.value.returned == env.types.trueVal <==> eq.value.returned == env.types.falseVal))
    ensures env.callMethod(m, self, "__eq__", [other]) == Ok(None) ==>
              NotEqualsIn(m, env, CallParams(Some(self), f, None, [other])) == Ok(Outcome(m, env.types.falseVal))
  {
  }

  // ---------------------------------------------------------------------
  // Text
  // ---------------------------------------------------------------------

  /** The texts of the elements, in order: each element's method `name`
      is called (a missing one panics) and must return a str. */
  function ElementTexts(env: NativeEnv, m: MemState, items: seq<Addr>, name: string): (r: Result<(MemState, seq<string>), Panic>)
    ensures r.Ok? ==> |r.value.1| == |items|
    decreases |items|
  {
    if items == [] then Ok((m, []))
    else
      var found :- env.callMethod(m, items[0], name, []);
      if found.None? then Err(MethodMissing(name))
      else
        var text :- StringOf(found.value.mem, found.value.returned);
        var rest :- ElementTexts(env, found.value.mem, items[1..], name);
        Ok((rest.0, [text] + rest.1))
  }

  /** `join`: the texts with `sep` between each two. */
  function Join(texts: seq<string>, sep: string): string
    decreases |texts|
  {
    if |texts| == 0 then ""
    else if |texts| == 1 then texts[0]
    else texts[0] + sep + Join(texts[1..], sep)
  }

  /** Joining one more text puts one separator before it. */
  lemma {:induction false} JoinSnoc(texts: seq<string>, t: string, sep: string)
    requires texts != []
    ensures Join(texts + [t], sep) == Join(texts, sep) + sep + t
    decreases |texts|
  {
    if |texts| > 1 {
      assert (texts + [t])[1..] == texts[1..] + [t];
      JoinSnoc(texts[1..], t, sep);
    } else {
      assert texts + [t] == [texts[0], t];
    }
  }

  /** The text of a list: its element texts, each got from `name`, joined
      with `sep` between brackets, in a new str of the string type. */
  function ListTextIn(m: MemState, env: NativeEnv, c: CallParams, name: string, sep: string): (r: Result<Outcome, Panic>)
    ensures |c.params| != 0 ==> r == Err(ArgumentCount(0, |c.params|))
  {
    var _ :- CheckParams(0, |c.params|);
    var self :- Receiver(c);
    var xs :- ListOf(m, self);
    var (m', texts) :- ElementTexts(env, m, xs, name);
    AllocateRawIn(m', env.types.stringType, String("[" + Join(texts, sep) + "]"))
  }

  /** `repr`: the elements' `__repr__` joined with `","`. */
  function ReprIn(m: MemState, env: NativeEnv, c: CallParams): (r: Result<Outcome, Panic>)
  {
    ListTextIn(m, env, c, "__repr__", ",")
  }

  /** `to_str`: the elements' `__str__` joined with `", "`. */
  function ToStrIn(m: MemState, env: NativeEnv, c: CallParams): (r: Result<Outcome, Panic>)
  {
    ListTextIn(m, env, c, "__str__", ", ")
  }

  /** The empty list is `[]` both ways, with no call on an element. */
  lemma EmptyTextSpec(m: MemState, env: NativeEnv, f: Addr, self: Addr)
    requires WellFormed(m) && ListOf(m, self) == Ok([])
    ensures var r := ReprIn(m, env, CallParams(Some(self), f, None, []));
            r.Ok? && FreshObject(m, r.value, env.types.stringType, String("[]"))
    ensures var r := ToStrIn(m, env, CallParams(Some(self), f, None, []));
            r.Ok? && FreshObject(m, r.value, env.types.stringType, String("[]"))
  {
    assert "[" + Join([], ",") + "]" == "[]" && "[" + Join([], ", ") + "]" == "[]";
    AllocateRawSpec(m, env.types.stringType, String("[]"));
  }

  /** A list of one str whose `__repr__` is the native one of `str` has
      the repr `['s']`: the element's quoted text between brackets. */
  lemma ReprOfOneStr(m: MemState, env: NativeEnv, f: Addr, g: Addr, self: Addr, x: Addr, s: string)
    requires WellFormed(m) && ListOf(m, self) == Ok([x]) && StringOf(m, x) == Ok(s)
    requires FindInModuleIn(m, env.modules, BUILTIN_MODULE, "str").Ok? &&
             FindInModuleIn(m, env.modules, BUILTIN_MODULE, "str").value.Some?
    requires env.callMethod(m, x, "__repr__", []) == Found(StringType.ReprIn(m, env, Vm.CallParams(g, None, [x])))
    ensures var r := ReprIn(m, env, CallParams(Some(self), f, None, []));
            r.Ok? && StringOf(r.value.mem, r.value.returned) == Ok("['" + s + "']")
  {
    StringType.ReprSpec(m, env, g, x, s);
    var quoted := StringType.ReprIn(m, env, Vm.CallParams(g, None, [x])).value;
    assert StringOf(quoted.mem, quoted.returned) == Ok(StringType.Quoted(s));
    assert env.callMethod(m, [x][0], "__repr__", []) == Ok(Some(quoted));
    assert [x][1..] == [];
    assert ElementTexts(env, quoted.mem, [], "__repr__") == Ok((quoted.mem, []));
    var e := ElementTexts(env, m, [x], "__repr__");
    assert e.Ok?;
    assert e.value.0 == quoted.mem;
    assert e.value.1 == [StringType.Quoted(s)];
    AllocateRawSpec(quoted.mem, env.types.stringType, String("[" + StringType.Quoted(s) + "]"));
    assert "[" + StringType.Quoted(s) + "]" == "['" + s + "']";
  }

  /** A list's text holds one element text per element, the texts in the
      elements' order: the text of a list ending in `x` is the text of the
      list before `x`, a separator, and the text of `x`. */
  lemma TextOfLonger(texts: seq<string>, t: string, sep: string)
    requires texts != []
    ensures "[" + Join(texts + [t], sep) + "]" == "[" + Join(texts, sep) + sep + t + "]"
  {
    JoinSnoc(texts, t, sep);
  }

  // ---------------------------------------------------------------------
  // Registration
  // ---------------------------------------------------------------------

  /** The methods `register_list_type` binds, in its order, with the name
      the not-equals method is bound under left as a parameter. */
  function Table(notEquals: string): MethodTable
  {
    [("__add__", Code(Concat)),
     ("__eq__", Code(Equals)),
     (notEquals, Code(NotEquals)),
     ("__repr__", Code(Repr)),
     ("__str__", Code(ToStr)),
     ("__len__", Code(Len)),
     ("append", Code(Append)),
     ("extend", Code(Extend))]
  }

  /** As written, the not-equals method is bound under `__neq__`. */
  const AsWrittenMethods: MethodTable := Table("__neq__")

  /** The table as intended: under `__ne__`, the name `!=` looks up. */
  const ListMethods: MethodTable := Table(CompareDunder(NeOp))

  /** As written, no method of the table is bound under the name `!=`
      looks up. */
  lemma NotEqualsAsWritten()
    ensures forall j :: 0 <= j < |AsWrittenMethods| ==> AsWrittenMethods[j].0 != CompareDunder(NeOp)
    ensures AsWrittenMethods[2] == ("__neq__", Code(NotEquals))
  {
  }

  /** In the intended table `__ne__` is bound to `not_equals`, and the
      names are distinct. */
  lemma ListMethodsBindNotEquals()
    ensures ListMethods[2] == (CompareDunder(NeOp), Code(NotEquals)) && Decode(ListMethods[2].1) == Some(NotEquals)
    ensures DistinctNames(ListMethods)
  {
  }

  /** `register_list_type`, with the intended table: the type `list` is
      created in the builtin module with no supertype and binds every
      method of the table, and `builtin_type_addrs.list` is set to it.
      On a runtime with the type and callable types and no `list` yet,
      it does not panic. */
  method RegisterListType(rt: Runtime) returns (r: Result<Addr, Panic>)
    requires rt.Valid()
    modifies rt, rt.memory
    ensures rt.Valid()
    ensures rt.frames == old(rt.frames) && rt.specialValues == old(rt.specialValues) &&
            rt.modules == old(rt.modules) && rt.builtinNames == old(rt.builtinNames)
    ensures rt.builtinTypeAddrs == if r.Ok? then old(rt.builtinTypeAddrs).(listType := r.value) else old(rt.builtinTypeAddrs)
    ensures (TypeValue in rt.specialValues && CallableType in rt.specialValues &&
             old(FindInModuleIn(rt.memory.State(), rt.modules, BUILTIN_MODULE, "list")) == Ok(None)) ==> r.Ok?
    ensures r.Ok? ==> TypeValue in rt.specialValues && CallableType in rt.specialValues &&
                      InstalledType(rt.memory.State(), rt.modules, rt.specialValues[TypeValue], "list", r.value, None) &&
                      Binds(rt.memory.State(), rt.specialValues[CallableType], r.value, ListMethods)
    ensures r.Ok? ==> !old(Readable(rt.memory.State(), r.value)) && BUILTIN_MODULE in rt.modules &&
                      forall b :: b != r.value && b != rt.modules[BUILTIN_MODULE] && old(Readable(rt.memory.State(), b)) ==>
                        GetIn(rt.memory.State(), b) == old(GetIn(rt.memory.State(), b))
  {
    ListMethodsBindNotEquals();
    r := CreateBuiltinType(rt, "list", None, ListMethods);
    if r.Ok? {
      rt.builtinTypeAddrs := rt.builtinTypeAddrs.(listType := r.value);
    }
  }
}
