/*
 * The address-based heap of src/runtime/memory.rs, `UnsafeMemory`.
 *
 * Objects are leaked boxes that are never returned to the system: a
 * deallocated address only goes onto the free list
 * `recently_deallocated_addr`, and the next allocation pops it (LIFO) and
 * overwrites the object in place. Any read of an address on the free list
 * panics (`check_mem`). Here the heap is a map from addresses to objects;
 * `Box::leak` hands out `nextFresh`, an address never used before.
 *
 * The operations are stated on a value, `MemState`, and the class
 * `UnsafeMemory` performs them in place on its fields.
 */
module UnsafeMemory {

  import opened Wrappers
  import opened RuntimeDataModel

  datatype MemState = MemState(
    heap: map<Addr, PyObject>,
    free: seq<Addr>,
    nextFresh: Addr)

  /** The heap never holds null, every address it holds was handed out
      before `nextFresh`, and the free list holds distinct non-const
      objects of the heap. */
  ghost predicate WellFormed(m: MemState)
  {
    NULL !in m.heap && NULL < m.nextFresh &&
    (forall a :: a in m.heap ==> a < m.nextFresh) &&
    (forall k :: 0 <= k < |m.free| ==> m.free[k] in m.heap && !m.heap[m.free[k]].isConst) &&
    (forall j, k :: 0 <= j < k < |m.free| ==> m.free[j] != m.free[k])
  }

  /** An address `get` accepts. */
  predicate Readable(m: MemState, a: Addr)
  {
    a !in m.free && a != NULL && a in m.heap
  }

  /** `check_mem`. */
  function CheckMem(m: MemState, a: Addr): (r: Result<(), Panic>)
    ensures r.Ok? <==> a !in m.free
  {
    if a in m.free then Err(RecentlyDeallocated(a)) else Ok(())
  }

  /** `get` (and `get_mut`, for reading): `check_mem` first, then the null
      check. */
  function GetIn(m: MemState, a: Addr): (r: Result<PyObject, Panic>)
    ensures r.Ok? <==> Readable(m, a)
    ensures a in m.free ==> r == Err(RecentlyDeallocated(a))
    ensures a !in m.free && a == NULL ==> r == Err(NullAddress)
  {
    if CheckMem(m, a).Err? then Err(CheckMem(m, a).error)
    else if a == NULL then Err(NullAddress)
    else if a !in m.heap then Err(Dangling(a))
    else Ok(m.heap[a])
  }

  /** `*get_mut(a) = obj`: an assignment through the mutable reference. */
  function WriteIn(m: MemState, a: Addr, obj: PyObject): (r: Result<MemState, Panic>)
    ensures r.Ok? <==> Readable(m, a)
  {
    if GetIn(m, a).Err? then Err(GetIn(m, a).error)
    else Ok(m.(heap := m.heap[a := obj]))
  }

  /** `make_const`: `check_mem`, with no null check. */
  function MakeConstIn(m: MemState, a: Addr): (r: Result<MemState, Panic>)
    ensures r.Ok? <==> a !in m.free && a in m.heap
  {
    if CheckMem(m, a).Err? then Err(CheckMem(m, a).error)
    else if a !in m.heap then Err(if a == NULL then NullAddress else Dangling(a))
    else Ok(m.(heap := m.heap[a := m.heap[a].(isConst := true)]))
  }

  /** `deallocate`: `check_mem`, the null check, nothing for a const
      object, and otherwise a push onto the free list. */
  function DeallocateIn(m: MemState, a: Addr): (r: Result<MemState, Panic>)
    ensures r.Ok? <==> Readable(m, a)
  {
    if GetIn(m, a).Err? then Err(GetIn(m, a).error)
    else if m.heap[a].isConst then Ok(m)
    else Ok(m.(free := m.free + [a]))
  }

  /** `allocate_and_write`: the most recently freed address, overwritten,
      or a fresh one. */
  function AllocateIn(m: MemState, obj: PyObject): (r: (MemState, Addr))
  {
    if m.free != [] then
      var a := m.free[|m.free| - 1];
      (MemState(m.heap[a := obj], m.free[..|m.free| - 1], m.nextFresh), a)
    else
      (MemState(m.heap[m.nextFresh := obj], m.free, m.nextFresh + 1), m.nextFresh)
  }

  /** `allocate_and_write_builtin`: the same with an object holding `data`
      with refcount 0; reusing a const object fails its debug assertion. */
  function AllocateBuiltinIn(m: MemState, typeAddr: Addr, data: BuiltInTypeData): (r: Result<(MemState, Addr), Panic>)
  {
    if m.free != [] then
      var a := m.free[|m.free| - 1];
      if a in m.heap && m.heap[a].isConst then Err(ConstReused(a))
      else Ok(AllocateIn(m, BuiltinObject(typeAddr, data)))
    else Ok(AllocateIn(m, BuiltinObject(typeAddr, data)))
  }

  // ---------------------------------------------------------------------
  // Properties of the operations
  // ---------------------------------------------------------------------

  /** The allocated address is readable afterwards and holds the object;
      it was not readable before; every other readable address keeps its
      object; and the heap stays well formed. */
  lemma AllocateSpec(m: MemState, obj: PyObject)
    requires WellFormed(m)
    ensures var (m', a) := AllocateIn(m, obj);
            WellFormed(m') && a != NULL && !Readable(m, a) &&
            GetIn(m', a) == Ok(obj) &&
            (forall b :: b != a && Readable(m, b) ==> GetIn(m', b) == GetIn(m, b)) &&
            (forall b :: b != a && Readable(m', b) ==> Readable(m, b))
  {
    var (m', a) := AllocateIn(m, obj);
    if m.free != [] {
      assert m.free == m'.free + [a];
      forall k | 0 <= k < |m'.free|
        ensures m'.free[k] in m'.heap && !m'.heap[m'.free[k]].isConst
      {
        assert m'.free[k] == m.free[k];
      }
      assert a !in m'.free by {
        forall k | 0 <= k < |m'.free| ensures m'.free[k] != a {
          assert m'.free[k] == m.free[k] && a == m.free[|m.free| - 1];
        }
      }
      forall b | b != a && Readable(m, b) ensures GetIn(m', b) == GetIn(m, b) {
        assert b !in m'.free;
      }
      forall b | b != a && Readable(m', b) ensures Readable(m, b) {
        assert b !in m.free;
      }
    }
  }

  /** LIFO reuse: freeing a non-const object and allocating again hands
      back the same address. */
  lemma DeallocateThenAllocate(m: MemState, a: Addr, obj: PyObject)
    requires Readable(m, a) && !m.heap[a].isConst
    ensures DeallocateIn(m, a).Ok?
    ensures AllocateIn(DeallocateIn(m, a).value, obj).1 == a
    ensures AllocateIn(DeallocateIn(m, a).value, obj).0.free == m.free
  {
    var m' := DeallocateIn(m, a).value;
    assert m'.free[..|m'.free| - 1] == m.free;
  }

  /** A second `deallocate` of the same object panics in `check_mem`, and
      so does every read of it. */
  lemma DoubleDeallocate(m: MemState, a: Addr)
    requires Readable(m, a) && !m.heap[a].isConst
    ensures DeallocateIn(m, a).Ok?
    ensures DeallocateIn(DeallocateIn(m, a).value, a) == Err(RecentlyDeallocated(a))
    ensures GetIn(DeallocateIn(m, a).value, a) == Err(RecentlyDeallocated(a))
  {
    var m' := DeallocateIn(m, a).value;
    assert m'.free[|m'.free| - 1] == a;
  }

  /** Deallocating a const object changes nothing, and it stays readable. */
  lemma DeallocateConst(m: MemState, a: Addr)
    requires Readable(m, a) && m.heap[a].isConst
    ensures DeallocateIn(m, a) == Ok(m)
    ensures GetIn(DeallocateIn(m, a).value, a) == Ok(m.heap[a])
  {
  }

  /** `deallocate`, `make_const` and a write keep the heap well formed. */
  lemma DeallocatePreserves(m: MemState, a: Addr)
    requires WellFormed(m) && DeallocateIn(m, a).Ok?
    ensures WellFormed(DeallocateIn(m, a).value)
  {
    var m' := DeallocateIn(m, a).value;
    if !m.heap[a].isConst {
      forall j, k | 0 <= j < k < |m'.free| ensures m'.free[j] != m'.free[k] {
        if k == |m.free| {
          assert m'.free[k] == a && m'.free[j] == m.free[j];
        } else {
          assert m'.free[j] == m.free[j] && m'.free[k] == m.free[k];
        }
      }
      forall k | 0 <= k < |m'.free| ensures m'.free[k] in m'.heap && !m'.heap[m'.free[k]].isConst {
        if k < |m.free| {
          assert m'.free[k] == m.free[k];
        }
      }
    }
  }

  lemma MakeConstPreserves(m: MemState, a: Addr)
    requires WellFormed(m) && MakeConstIn(m, a).Ok?
    ensures WellFormed(MakeConstIn(m, a).value)
    ensures GetIn(MakeConstIn(m, a).value, a).Ok? <==> a != NULL
    ensures a != NULL ==> GetIn(MakeConstIn(m, a).value, a).value == m.heap[a].(isConst := true)
    ensures forall b :: b != a ==> GetIn(MakeConstIn(m, a).value, b) == GetIn(m, b)
  {
    var m' := MakeConstIn(m, a).value;
    forall k | 0 <= k < |m'.free| ensures m'.free[k] in m'.heap && !m'.heap[m'.free[k]].isConst {
      assert m'.free[k] == m.free[k] && m.free[k] != a;
    }
  }

  /** A write keeps the heap well formed (the address written is not on
      the free list), a read returns the object written, and every other
      address reads as before. */
  lemma WritePreserves(m: MemState, a: Addr, obj: PyObject)
    requires WellFormed(m) && WriteIn(m, a, obj).Ok?
    ensures WellFormed(WriteIn(m, a, obj).value)
    ensures GetIn(WriteIn(m, a, obj).value, a) == Ok(obj)
    ensures forall b :: b != a ==> GetIn(WriteIn(m, a, obj).value, b) == GetIn(m, b)
  {
    var m' := WriteIn(m, a, obj).value;
    forall k | 0 <= k < |m'.free| ensures m'.free[k] in m'.heap && !m'.heap[m'.free[k]].isConst {
      assert m'.free[k] == m.free[k] && m.free[k] != a;
    }
  }

  /** On a well-formed heap the debug assertion of
      `allocate_and_write_builtin` never fires: nothing const is ever on
      the free list. The object written is the builtin one. */
  lemma AllocateBuiltinSpec(m: MemState, typeAddr: Addr, data: BuiltInTypeData)
    requires WellFormed(m)
    ensures AllocateBuiltinIn(m, typeAddr, data) == Ok(AllocateIn(m, BuiltinObject(typeAddr, data)))
    ensures var (m', a) := AllocateIn(m, BuiltinObject(typeAddr, data));
            GetIn(m', a).Ok? && TryGetBuiltin(GetIn(m', a).value) == Some(data) &&
            GetIn(m', a).value.structure.refcount == 0
  {
    if m.free != [] {
      assert m.free[|m.free| - 1] in m.heap;
    }
    AllocateSpec(m, BuiltinObject(typeAddr, data));
  }

  // ---------------------------------------------------------------------
  // The heap object
  // ---------------------------------------------------------------------

  class UnsafeMemory {
    var heap: map<Addr, PyObject>
    /** `recently_deallocated_addr`, most recent last. */
    var recentlyDeallocatedAddr: seq<Addr>
    /** The address the next `Box::leak` returns. */
    var nextFresh: Addr

    function State(): MemState
      reads this
    {
      MemState(heap, recentlyDeallocatedAddr, nextFresh)
    }

    ghost predicate Valid()
      reads this
    {
      WellFormed(State())
    }

    constructor ()
      ensures State() == MemState(map[], [], NULL + 1)
      ensures Valid()
    {
      heap := map[];
      recentlyDeallocatedAddr := [];
      nextFresh := NULL + 1;
    }

    /** `get`. */
    function Get(a: Addr): (r: Result<PyObject, Panic>)
      reads this
      ensures r.Ok? <==> Readable(State(), a)
      ensures r.Ok? ==> r.value == heap[a]
    {
      GetIn(State(), a)
    }

    /** `get_mut` followed by an assignment through the reference. */
    method Write(a: Addr, obj: PyObject) returns (r: Result<(), Panic>)
      modifies this
      ensures r.Ok? <==> old(Readable(State(), a))
      ensures r.Ok? ==> State() == WriteIn(old(State()), a, obj).value
      ensures r.Err? ==> State() == old(State())
      ensures old(Valid()) ==> Valid()
    {
      if a in recentlyDeallocatedAddr {
        return Err(RecentlyDeallocated(a));
      }
      if a == NULL {
        return Err(NullAddress);
      }
      if a !in heap {
        return Err(Dangling(a));
      }
      ghost var m := State();
      heap := heap[a := obj];
      if WellFormed(m) {
        WritePreserves(m, a, obj);
      }
      return Ok(());
    }

    /** The heap as a callee that ran on this memory left it. */
    method Replace(m: MemState)
      modifies this
      ensures State() == m
    {
      heap := m.heap;
      recentlyDeallocatedAddr := m.free;
      nextFresh := m.nextFresh;
    }

    /** `make_const`. */
    method MakeConst(a: Addr) returns (r: Result<(), Panic>)
      modifies this
      ensures r.Ok? <==> old(a !in recentlyDeallocatedAddr && a in heap)
      ensures r.Ok? ==> State() == MakeConstIn(old(State()), a).value
      ensures r.Err? ==> State() == old(State())
      ensures old(Valid()) ==> Valid()
    {
      if a in recentlyDeallocatedAddr {
        return Err(RecentlyDeallocated(a));
      }
      if a !in heap {
        return Err(if a == NULL then NullAddress else Dangling(a));
      }
      ghost var m := State();
      heap := heap[a := heap[a].(isConst := true)];
      if WellFormed(m) {
        MakeConstPreserves(m, a);
      }
      return Ok(());
    }

    /** `deallocate`. */
    method Deallocate(a: Addr) returns (r: Result<(), Panic>)
      modifies this
      ensures r == (if DeallocateIn(old(State()), a).Ok? then Ok(()) else Err(DeallocateIn(old(State()), a).error))
      ensures r.Ok? ==> State() == DeallocateIn(old(State()), a).value
      ensures r.Err? ==> State() == old(State())
      ensures old(Valid()) ==> Valid()
    {
      if a in recentlyDeallocatedAddr {
        return Err(RecentlyDeallocated(a));
      }
      if a == NULL {
        return Err(NullAddress);
      }
      if a !in heap {
        return Err(Dangling(a));
      }
      if heap[a].isConst {
        return Ok(());
      }
      ghost var m := State();
      recentlyDeallocatedAddr := recentlyDeallocatedAddr + [a];
      if WellFormed(m) {
        DeallocatePreserves(m, a);
      }
      return Ok(());
    }

    /** `allocate_and_write`. */
    method AllocateAndWrite(obj: PyObject) returns (a: Addr)
      modifies this
      ensures (State(), a) == AllocateIn(old(State()), obj)
      ensures old(Valid()) ==> Valid() && Get(a) == Ok(obj) && a != NULL && !old(Readable(State(), a))
      ensures old(Valid()) ==> forall b :: b != a && old(Readable(State(), b)) ==> Get(b) == old(Get(b))
    {
      ghost var m := State();
      if recentlyDeallocatedAddr != [] {
        a := recentlyDeallocatedAddr[|recentlyDeallocatedAddr| - 1];
        recentlyDeallocatedAddr := recentlyDeallocatedAddr[..|recentlyDeallocatedAddr| - 1];
        heap := heap[a := obj];
      } else {
        a := nextFresh;
        heap := heap[a := obj];
        nextFresh := nextFresh + 1;
      }
      if WellFormed(m) {
        AllocateSpec(m, obj);
      }
    }

    /** `allocate_and_write_builtin`. */
    method AllocateAndWriteBuiltin(typeAddr: Addr, data: BuiltInTypeData) returns (r: Result<Addr, Panic>)
      modifies this
      ensures AllocateBuiltinIn(old(State()), typeAddr, data).Ok? ==>
                r.Ok? && (State(), r.value) == AllocateBuiltinIn(old(State()), typeAddr, data).value
      ensures AllocateBuiltinIn(old(State()), typeAddr, data).Err? ==>
                r.Err? && State() == old(State())
      ensures old(Valid()) ==> r.Ok? && Valid() && Get(r.value) == Ok(BuiltinObject(typeAddr, data))
    {
      ghost var m := State();
      if WellFormed(m) {
        AllocateBuiltinSpec(m, typeAddr, data);
      }
      if recentlyDeallocatedAddr != [] {
        var a := recentlyDeallocatedAddr[|recentlyDeallocatedAddr| - 1];
        if a in heap && heap[a].isConst {
          return Err(ConstReused(a));
        }
      }
      var a := AllocateAndWrite(BuiltinObject(typeAddr, data));
      return Ok(a);
    }
  }
}
