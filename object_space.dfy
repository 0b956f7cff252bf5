/*
 * What the address-based runtime does to the objects of its heap, shared
 * by `VM` (src/runtime/vm.rs) and `Runtime` (src/runtime/runtime.rs),
 * whose code for it is the same apart from the namespace a method lookup
 * consults: reference counts, the lookup of a method along the supertype
 * chain, and the global namespaces of modules.
 *
 * Each operation is a function on `MemState` with its properties proved
 * as lemmas, and a method that performs it on an `UnsafeMemory` in place.
 */
module ObjectSpace {

  import opened Wrappers
  import opened RuntimeDataModel
  import opened UnsafeMemory

  // ---------------------------------------------------------------------
  // Reference counts
  // ---------------------------------------------------------------------

  /** The object with its reference count replaced. */
  function WithRefcount(obj: PyObject, rc: nat): PyObject
    requires obj.structure.Object?
  {
    obj.(structure := obj.structure.(refcount := rc))
  }

  /** `get_refcount`: the count of an Object, -1 for any other
      structure. */
  function RefcountIn(m: MemState, a: Addr): (r: Result<int, Panic>)
    ensures r.Ok? <==> Readable(m, a)
  {
    if GetIn(m, a).Err? then Err(GetIn(m, a).error)
    else if m.heap[a].structure.Object? then Ok(m.heap[a].structure.refcount)
    else Ok(-1)
  }

  /** What a callee leaves: the heap and the address it returns. */
  datatype Outcome = Outcome(mem: MemState, returned: Addr)

  /** `increase_refcount`: one more for an Object, nothing otherwise. */
  function IncreaseIn(m: MemState, a: Addr): (r: Result<MemState, Panic>)
    ensures r.Ok? <==> Readable(m, a)
  {
    if GetIn(m, a).Err? then Err(GetIn(m, a).error)
    else
      var obj := m.heap[a];
      if obj.structure.Object? then Ok(m.(heap := m.heap[a := WithRefcount(obj, obj.structure.refcount + 1)]))
      else Ok(m)
  }

  /** `decrease_refcount`: one less for an Object, saturating at 0, and a
      deallocation once the count is 0; nothing for other structures. */
  function DecreaseIn(m: MemState, a: Addr): (r: Result<MemState, Panic>)
    ensures r.Ok? <==> Readable(m, a)
  {
    if GetIn(m, a).Err? then Err(GetIn(m, a).error)
    else
      var obj := m.heap[a];
      if !obj.structure.Object? then Ok(m)
      else
        var rc := if obj.structure.refcount > 0 then obj.structure.refcount - 1 else 0;
        var m1 := m.(heap := m.heap[a := WithRefcount(obj, rc)]);
        if rc == 0 then DeallocateIn(m1, a) else Ok(m1)
  }

  /** An increase adds exactly one to an Object's count and leaves every
      other address as it was. */
  lemma IncreaseSpec(m: MemState, a: Addr)
    requires WellFormed(m) && Readable(m, a)
    ensures IncreaseIn(m, a).Ok? && WellFormed(IncreaseIn(m, a).value)
    ensures RefcountIn(IncreaseIn(m, a).value, a) ==
            if m.heap[a].structure.Object? then Ok(m.heap[a].structure.refcount + 1) else Ok(-1)
    ensures forall b :: b != a ==> GetIn(IncreaseIn(m, a).value, b) == GetIn(m, b)
  {
    var obj := m.heap[a];
    if obj.structure.Object? {
      WritePreserves(m, a, WithRefcount(obj, obj.structure.refcount + 1));
    }
  }

  /** A decrease of a count above one subtracts one; a count of one or
      zero frees the object unless it is const, when it only drops to
      zero; a structure other than an Object is left alone; every other
      address is untouched, and the heap stays well formed. */
  lemma DecreaseSpec(m: MemState, a: Addr)
    requires WellFormed(m) && Readable(m, a)
    ensures DecreaseIn(m, a).Ok? && WellFormed(DecreaseIn(m, a).value)
    ensures !m.heap[a].structure.Object? ==> DecreaseIn(m, a) == Ok(m)
    ensures m.heap[a].structure.Object? && m.heap[a].structure.refcount >= 2 ==>
              RefcountIn(DecreaseIn(m, a).value, a) == Ok(m.heap[a].structure.refcount - 1)
    ensures m.heap[a].structure.Object? && m.heap[a].structure.refcount <= 1 && !m.heap[a].isConst ==>
              GetIn(DecreaseIn(m, a).value, a) == Err(RecentlyDeallocated(a))
    ensures m.heap[a].structure.Object? && m.heap[a].structure.refcount <= 1 && m.heap[a].isConst ==>
              RefcountIn(DecreaseIn(m, a).value, a) == Ok(0)
    ensures forall b :: b != a ==> GetIn(DecreaseIn(m, a).value, b) == GetIn(m, b)
  {
    var obj := m.heap[a];
    if obj.structure.Object? {
      var rc := if obj.structure.refcount > 0 then obj.structure.refcount - 1 else 0;
      var m1 := m.(heap := m.heap[a := WithRefcount(obj, rc)]);
      WritePreserves(m, a, WithRefcount(obj, rc));
      assert m1 == WriteIn(m, a, WithRefcount(obj, rc)).value;
      if rc == 0 {
        DeallocatePreserves(m1, a);
        forall b | b != a ensures GetIn(DecreaseIn(m, a).value, b) == GetIn(m, b) {
          assert b in DecreaseIn(m, a).value.free <==> b in m.free;
        }
      }
    }
  }

  /** A decrease right after an increase restores the heap, unless the
      increase took an Object from 0 to 1, which the decrease frees. */
  lemma IncreaseThenDecrease(m: MemState, a: Addr)
    requires Readable(m, a)
    requires m.heap[a].structure.Object? ==> m.heap[a].structure.refcount >= 1
    ensures DecreaseIn(IncreaseIn(m, a).value, a) == Ok(m)
  {
    var obj := m.heap[a];
    if obj.structure.Object? {
      var rc := obj.structure.refcount;
      var up := m.(heap := m.heap[a := WithRefcount(obj, rc + 1)]);
      assert IncreaseIn(m, a) == Ok(up);
      assert WithRefcount(WithRefcount(obj, rc + 1), rc) == obj;
      assert up.heap[a := obj] == m.heap;
    }
  }

  /** The decreases `pop_stack_frame` performs, one per address, in
      order; the first panic stops them. */
  function DecreaseAll(m: MemState, addrs: seq<Addr>): Result<MemState, Panic>
    decreases |addrs|
  {
    if addrs == [] then Ok(m)
    else match DecreaseIn(m, addrs[0])
         case Err(e) => Err(e)
         case Ok(m1) => DecreaseAll(m1, addrs[1..])
  }

  /** Decreasing `xs + ys` is decreasing `xs` and then `ys`. */
  lemma {:induction false} DecreaseAllAppend(m: MemState, xs: seq<Addr>, ys: seq<Addr>)
    ensures DecreaseAll(m, xs + ys) ==
            match DecreaseAll(m, xs)
            case Err(e) => Err(e)
            case Ok(m1) => DecreaseAll(m1, ys)
    decreases |xs|
  {
    if xs != [] {
      assert (xs + ys)[1..] == xs[1..] + ys;
      if DecreaseIn(m, xs[0]).Ok? {
        DecreaseAllAppend(DecreaseIn(m, xs[0]).value, xs[1..], ys);
      }
    } else {
      assert xs + ys == ys;
    }
  }

  /** A run of decreases over distinct addresses, all readable at the
      start, succeeds and keeps the heap well formed. */
  lemma {:induction false} DecreaseAllPreserves(m: MemState, addrs: seq<Addr>)
    requires WellFormed(m)
    requires forall i :: 0 <= i < |addrs| ==> Readable(m, addrs[i])
    requires forall i, j :: 0 <= i < j < |addrs| ==> addrs[i] != addrs[j]
    ensures DecreaseAll(m, addrs).Ok? && WellFormed(DecreaseAll(m, addrs).value)
    decreases |addrs|
  {
    if addrs != [] {
      DecreaseSpec(m, addrs[0]);
      var m1 := DecreaseIn(m, addrs[0]).value;
      forall i | 0 <= i < |addrs[1..]| ensures Readable(m1, addrs[1..][i]) {
        assert addrs[1..][i] == addrs[i + 1] != addrs[0];
        assert GetIn(m1, addrs[i + 1]) == GetIn(m, addrs[i + 1]);
      }
      DecreaseAllPreserves(m1, addrs[1..]);
    }
  }

  /** The increases `handle_function_call` performs on its arguments, one
      per address, in order; the first panic stops them. */
  function IncreaseAll(m: MemState, addrs: seq<Addr>): Result<MemState, Panic>
    decreases |addrs|
  {
    if addrs == [] then Ok(m)
    else match IncreaseIn(m, addrs[0])
         case Err(e) => Err(e)
         case Ok(m1) => IncreaseAll(m1, addrs[1..])
  }

  /** Increases never free anything: when every address is readable the
      run succeeds, keeps the heap well formed, and leaves every object
      readable, with only its reference count changed. */
  lemma {:induction false} IncreaseAllPreserves(m: MemState, addrs: seq<Addr>)
    requires WellFormed(m)
    requires forall i :: 0 <= i < |addrs| ==> Readable(m, addrs[i])
    ensures IncreaseAll(m, addrs).Ok? && WellFormed(IncreaseAll(m, addrs).value)
    ensures IncreaseAll(m, addrs).value.free == m.free
    ensures forall b :: Readable(m, b) <==> Readable(IncreaseAll(m, addrs).value, b)
    ensures forall b :: b !in addrs ==> GetIn(IncreaseAll(m, addrs).value, b) == GetIn(m, b)
    decreases |addrs|
  {
    if addrs != [] {
      IncreaseSpec(m, addrs[0]);
      var m1 := IncreaseIn(m, addrs[0]).value;
      forall b ensures Readable(m, b) <==> Readable(m1, b) {
        if b != addrs[0] {
          assert GetIn(m1, b) == GetIn(m, b);
        }
      }
      forall i | 0 <= i < |addrs[1..]| ensures Readable(m1, addrs[1..][i]) {
        assert addrs[1..][i] == addrs[i + 1];
      }
      IncreaseAllPreserves(m1, addrs[1..]);
      forall b | b !in addrs ensures GetIn(IncreaseAll(m, addrs).value, b) == GetIn(m, b) {
        assert b !in addrs[1..] && b != addrs[0];
      }
    }
  }

  // ---------------------------------------------------------------------
  // Method lookup along the supertype chain
  // ---------------------------------------------------------------------

  /** The namespace of a type that a lookup consults: `functions` in
      src/runtime/vm.rs, `methods` in src/runtime/runtime.rs. */
  datatype Namespace = Functions | Methods

  function Entries(s: Structure, ns: Namespace): map<string, Addr>
    requires s.Type?
  {
    match ns
    case Functions => s.functions
    case Methods => s.methods
  }

  /** `get_method_addr_byname`: the type's own entry, else the
      supertype's lookup, else nothing; a non-type has nothing. The
      source recurses without bound; `fuel` bounds the chain, and a chain
      longer than it is reported as `CyclicSupertype`. */
  function MethodLookup(m: MemState, t: Addr, name: string, ns: Namespace, fuel: nat): (r: Result<Option<Addr>, Panic>)
    ensures !Readable(m, t) ==> r.Err?
    ensures Readable(m, t) && !m.heap[t].structure.Type? ==> r == Ok(None)
    ensures Readable(m, t) && m.heap[t].structure.Type? && name in Entries(m.heap[t].structure, ns) ==>
              r == Ok(Some(Entries(m.heap[t].structure, ns)[name]))
    decreases fuel
  {
    if GetIn(m, t).Err? then Err(GetIn(m, t).error)
    else
      var s := m.heap[t].structure;
      if !s.Type? then Ok(None)
      else if name in Entries(s, ns) then Ok(Some(Entries(s, ns)[name]))
      else if s.supertype.None? then Ok(None)
      else if fuel == 0 then Err(CyclicSupertype)
      else MethodLookup(m, s.supertype.value, name, ns, fuel - 1)
  }

  /** More fuel never changes an answer that did not run out of it. */
  lemma {:induction false} MethodLookupFuel(m: MemState, t: Addr, name: string, ns: Namespace, fuel: nat, more: nat)
    requires fuel <= more
    requires MethodLookup(m, t, name, ns, fuel) != Err(CyclicSupertype)
    ensures MethodLookup(m, t, name, ns, more) == MethodLookup(m, t, name, ns, fuel)
    decreases fuel
  {
    if Readable(m, t) {
      var s := m.heap[t].structure;
      if s.Type? && name !in Entries(s, ns) && s.supertype.Some? && fuel > 0 {
        MethodLookupFuel(m, s.supertype.value, name, ns, fuel - 1, more - 1);
      }
    }
  }

  /** A type without the entry answers what its supertype answers. */
  lemma MethodLookupInherits(m: MemState, t: Addr, name: string, ns: Namespace, fuel: nat)
    requires Readable(m, t) && m.heap[t].structure.Type?
    requires name !in Entries(m.heap[t].structure, ns) && m.heap[t].structure.supertype.Some?
    ensures MethodLookup(m, t, name, ns, fuel + 1) == MethodLookup(m, m.heap[t].structure.supertype.value, name, ns, fuel)
  {
  }

  /** An answer found is an entry of some type on the chain. */
  lemma {:induction false} MethodLookupFoundOnChain(m: MemState, t: Addr, name: string, ns: Namespace, fuel: nat)
    requires MethodLookup(m, t, name, ns, fuel).Ok? && MethodLookup(m, t, name, ns, fuel).value.Some?
    ensures exists u :: Readable(m, u) && m.heap[u].structure.Type? && name in Entries(m.heap[u].structure, ns) &&
                        Entries(m.heap[u].structure, ns)[name] == MethodLookup(m, t, name, ns, fuel).value.value
    decreases fuel
  {
    var s := m.heap[t].structure;
    if name !in Entries(s, ns) {
      MethodLookupFoundOnChain(m, s.supertype.value, name, ns, fuel - 1);
    }
  }

  /** The type's structure with `name` bound to `f` in namespace `ns`. */
  function WithEntry(s: Structure, ns: Namespace, name: string, f: Addr): (r: Structure)
    requires s.Type?
    ensures r.Type? && Entries(r, ns) == Entries(s, ns)[name := f]
    ensures forall other :: other != ns ==> Entries(r, other) == Entries(s, other)
    ensures r.name == s.name && r.supertype == s.supertype
  {
    match ns
    case Functions => s.(functions := s.functions[name := f])
    case Methods => s.(methods := s.methods[name := f])
  }

  /** The registrations of a callable on a type (`register_method_addr_on_type`,
      `register_type_unbounded_func`, `register_bounded_func_on_addr`): the
      entry is bound in one namespace of the type; a non-type panics. */
  function RegisterIn(m: MemState, t: Addr, name: string, f: Addr, ns: Namespace): (r: Result<MemState, Panic>)
    ensures r.Ok? <==> Readable(m, t) && m.heap[t].structure.Type?
  {
    if GetIn(m, t).Err? then Err(GetIn(m, t).error)
    else
      var obj := m.heap[t];
      if !obj.structure.Type? then Err(NotAType(t))
      else WriteIn(m, t, obj.(structure := WithEntry(obj.structure, ns, name, f)))
  }

  /** After a registration the lookup in that namespace finds the entry
      on the type itself, the other namespace of the type is untouched,
      and so is every other object. */
  lemma RegisterSpec(m: MemState, t: Addr, name: string, f: Addr, ns: Namespace, fuel: nat)
    requires WellFormed(m) && RegisterIn(m, t, name, f, ns).Ok?
    ensures WellFormed(RegisterIn(m, t, name, f, ns).value)
    ensures MethodLookup(RegisterIn(m, t, name, f, ns).value, t, name, ns, fuel) == Ok(Some(f))
    ensures forall other :: other != ns ==>
              Entries(RegisterIn(m, t, name, f, ns).value.heap[t].structure, other) == Entries(m.heap[t].structure, other)
    ensures forall b :: b != t ==> GetIn(RegisterIn(m, t, name, f, ns).value, b) == GetIn(m, b)
  {
    var obj := m.heap[t];
    WritePreserves(m, t, obj.(structure := WithEntry(obj.structure, ns, name, f)));
  }

  // ---------------------------------------------------------------------
  // Module namespaces
  // ---------------------------------------------------------------------

  /** `find_in_module_addr`: the entry of the module's global namespace;
      an object that is not a module panics. */
  function FindInModuleAddrIn(m: MemState, moduleAddr: Addr, name: string): (r: Result<Option<Addr>, Panic>)
    ensures r.Ok? <==> Readable(m, moduleAddr) && m.heap[moduleAddr].structure.Module?
  {
    if GetIn(m, moduleAddr).Err? then Err(GetIn(m, moduleAddr).error)
    else
      var s := m.heap[moduleAddr].structure;
      if !s.Module? then Err(NotAModuleObject(moduleAddr))
      else if name in s.globalNamespace then Ok(Some(s.globalNamespace[name]))
      else Ok(None)
  }

  /** `find_in_module`: the module must be registered. */
  function FindInModuleIn(m: MemState, modules: map<string, Addr>, moduleName: string, name: string): (r: Result<Option<Addr>, Panic>)
    ensures moduleName !in modules ==> r == Err(ModuleMissing(moduleName))
    ensures moduleName in modules ==> r == FindInModuleAddrIn(m, modules[moduleName], name)
  {
    if moduleName !in modules then Err(ModuleMissing(moduleName))
    else FindInModuleAddrIn(m, modules[moduleName], name)
  }

  /** `add_to_module`: a name already bound in the module panics;
      otherwise it is bound to `addr`. */
  function AddToModuleIn(m: MemState, modules: map<string, Addr>, moduleName: string, name: string, addr: Addr): (r: Result<MemState, Panic>)
  {
    if moduleName !in modules then Err(ModuleMissing(moduleName))
    else
      var ma := modules[moduleName];
      if GetIn(m, ma).Err? then Err(GetIn(m, ma).error)
      else
        var obj := m.heap[ma];
        if !obj.structure.Module? then Err(NotAModule(moduleName))
        else if name in obj.structure.globalNamespace then Err(NameExists(moduleName, name))
        else
          var ns := obj.structure.globalNamespace[name := addr];
          Ok(m.(heap := m.heap[ma := obj.(structure := obj.structure.(globalNamespace := ns))]))
  }

  /** Adding succeeds exactly when the module exists and does not yet
      bind the name; afterwards the name is found, every other name of
      every module reads as before, and the heap stays well formed. */
  lemma AddToModuleSpec(m: MemState, modules: map<string, Addr>, moduleName: string, name: string, addr: Addr)
    requires WellFormed(m)
    ensures AddToModuleIn(m, modules, moduleName, name, addr).Ok? <==>
            FindInModuleIn(m, modules, moduleName, name) == Ok(None)
    ensures FindInModuleIn(m, modules, moduleName, name).Ok? && FindInModuleIn(m, modules, moduleName, name).value.Some? ==>
            AddToModuleIn(m, modules, moduleName, name, addr) == Err(NameExists(moduleName, name))
    ensures AddToModuleIn(m, modules, moduleName, name, addr).Ok? ==>
            var m' := AddToModuleIn(m, modules, moduleName, name, addr).value;
            WellFormed(m') &&
            FindInModuleIn(m', modules, moduleName, name) == Ok(Some(addr)) &&
            (forall mn, n :: n != name ==> FindInModuleIn(m', modules, mn, n) == FindInModuleIn(m, modules, mn, n)) &&
            (forall b :: b != modules[moduleName] ==> GetIn(m', b) == GetIn(m, b))
  {
    if AddToModuleIn(m, modules, moduleName, name, addr).Ok? {
      var ma := modules[moduleName];
      var obj := m.heap[ma];
      var ns := obj.structure.globalNamespace[name := addr];
      WritePreserves(m, ma, obj.(structure := obj.structure.(globalNamespace := ns)));
    }
  }

  /** An allocation leaves every name of every module as it was. */
  lemma AllocateKeepsModules(m: MemState, obj: PyObject, modules: map<string, Addr>)
    requires WellFormed(m)
    ensures forall mn, n :: FindInModuleIn(m, modules, mn, n).Ok? ==>
              FindInModuleIn(AllocateIn(m, obj).0, modules, mn, n) == FindInModuleIn(m, modules, mn, n)
  {
    AllocateSpec(m, obj);
  }

  /** Making an object const leaves every name of every module as it
      was. */
  lemma MakeConstKeepsModules(m: MemState, a: Addr, modules: map<string, Addr>)
    ensures forall mn, n :: MakeConstIn(m, a).Ok? ==>
              FindInModuleIn(MakeConstIn(m, a).value, modules, mn, n) == FindInModuleIn(m, modules, mn, n)
  {
  }

  /** `create_type`: a type object with empty namespaces is allocated and
      then bound under its name in the module, which panics if the name is
      taken. */
  function CreateTypeIn(m: MemState, modules: map<string, Addr>, typeType: Addr, moduleName: string,
                        name: string, supertype: Option<Addr>): Result<(MemState, Addr), Panic>
  {
    var (m1, t) := AllocateIn(m, EmptyType(typeType, name, supertype));
    match AddToModuleIn(m1, modules, moduleName, name, t)
    case Err(e) => Err(e)
    case Ok(m2) => Ok((m2, t))
  }

  /** A type created under a fresh name is found in the module and reads
      back as an empty type with the given supertype; nothing readable
      before changes except the module. */
  lemma CreateTypeSpec(m: MemState, modules: map<string, Addr>, typeType: Addr, moduleName: string,
                       name: string, supertype: Option<Addr>)
    requires WellFormed(m)
    ensures CreateTypeIn(m, modules, typeType, moduleName, name, supertype).Ok? <==>
            FindInModuleIn(m, modules, moduleName, name) == Ok(None)
    ensures CreateTypeIn(m, modules, typeType, moduleName, name, supertype).Ok? ==>
            var (m', t) := CreateTypeIn(m, modules, typeType, moduleName, name, supertype).value;
            WellFormed(m') && !Readable(m, t) &&
            GetIn(m', t) == Ok(EmptyType(typeType, name, supertype)) &&
            FindInModuleIn(m', modules, moduleName, name) == Ok(Some(t)) &&
            (forall b :: b != t && b != modules[moduleName] && Readable(m, b) ==> GetIn(m', b) == GetIn(m, b))
  {
    var (m1, t) := AllocateIn(m, EmptyType(typeType, name, supertype));
    AllocateSpec(m, EmptyType(typeType, name, supertype));
    if moduleName in modules {
      var ma := modules[moduleName];
      if Readable(m, ma) {
        assert GetIn(m1, ma) == GetIn(m, ma);
        assert FindInModuleIn(m1, modules, moduleName, name) == FindInModuleIn(m, modules, moduleName, name);
      } else {
        assert FindInModuleIn(m1, modules, moduleName, name).Err?;
      }
    }
    AddToModuleSpec(m1, modules, moduleName, name, t);
  }

  // ---------------------------------------------------------------------
  // The same, in place on the heap object
  // ---------------------------------------------------------------------

  /** `increase_refcount` on the runtime's memory. */
  method IncreaseRefcount(memory: UnsafeMemory, a: Addr) returns (r: Result<(), Panic>)
    modifies memory
    ensures r.Ok? <==> old(Readable(memory.State(), a))
    ensures r.Ok? ==> memory.State() == IncreaseIn(old(memory.State()), a).value
    ensures r.Err? ==> memory.State() == old(memory.State())
    ensures old(memory.Valid()) ==> memory.Valid()
  {
    var got := memory.Get(a);
    if got.Err? {
      return Err(got.error);
    }
    var obj := got.value;
    if obj.structure.Object? {
      ghost var m := memory.State();
      var _ := memory.Write(a, WithRefcount(obj, obj.structure.refcount + 1));
    }
    return Ok(());
  }

  /** `decrease_refcount` on the runtime's memory. */
  method DecreaseRefcount(memory: UnsafeMemory, a: Addr) returns (r: Result<(), Panic>)
    modifies memory
    ensures r.Ok? <==> old(Readable(memory.State(), a))
    ensures r.Ok? ==> memory.State() == DecreaseIn(old(memory.State()), a).value
    ensures r.Err? ==> memory.State() == old(memory.State())
    ensures old(memory.Valid()) ==> memory.Valid()
  {
    var got := memory.Get(a);
    if got.Err? {
      return Err(got.error);
    }
    var obj := got.value;
    if obj.structure.Object? {
      var rc := if obj.structure.refcount > 0 then obj.structure.refcount - 1 else 0;
      var _ := memory.Write(a, WithRefcount(obj, rc));
      if rc == 0 {
        var _ := memory.Deallocate(a);
      }
    }
    return Ok(());
  }

  /** The loop of `handle_function_call` over its arguments: one increase
      per address, in order. */
  method IncreaseEach(memory: UnsafeMemory, addrs: seq<Addr>) returns (r: Result<(), Panic>)
    modifies memory
    ensures r.Ok? <==> IncreaseAll(old(memory.State()), addrs).Ok?
    ensures r.Ok? ==> memory.State() == IncreaseAll(old(memory.State()), addrs).value
    ensures old(memory.Valid()) ==> memory.Valid()
  {
    var i := 0;
    while i < |addrs|
      invariant 0 <= i <= |addrs|
      invariant IncreaseAll(old(memory.State()), addrs) == IncreaseAll(memory.State(), addrs[i..])
      invariant old(memory.Valid()) ==> memory.Valid()
    {
      assert addrs[i..][1..] == addrs[i + 1..];
      var step := IncreaseRefcount(memory, addrs[i]);
      if step.Err? {
        return Err(step.error);
      }
      i := i + 1;
    }
    return Ok(());
  }

  /** A registration on the runtime's memory. */
  method Register(memory: UnsafeMemory, t: Addr, name: string, f: Addr, ns: Namespace) returns (r: Result<(), Panic>)
    modifies memory
    ensures r.Ok? <==> RegisterIn(old(memory.State()), t, name, f, ns).Ok?
    ensures r.Ok? ==> memory.State() == RegisterIn(old(memory.State()), t, name, f, ns).value
    ensures r.Err? ==> memory.State() == old(memory.State())
    ensures old(memory.Valid()) ==> memory.Valid()
  {
    var got := memory.Get(t);
    if got.Err? {
      return Err(got.error);
    }
    var obj := got.value;
    if !obj.structure.Type? {
      return Err(NotAType(t));
    }
    var _ := memory.Write(t, obj.(structure := WithEntry(obj.structure, ns, name, f)));
    return Ok(());
  }

  /** The loop of `pop_stack_frame`: one decrease per address, in order. */
  method DecreaseEach(memory: UnsafeMemory, addrs: seq<Addr>) returns (r: Result<(), Panic>)
    modifies memory
    ensures r.Ok? <==> DecreaseAll(old(memory.State()), addrs).Ok?
    ensures r.Ok? ==> memory.State() == DecreaseAll(old(memory.State()), addrs).value
    ensures old(memory.Valid()) ==> memory.Valid()
  {
    var i := 0;
    while i < |addrs|
      invariant 0 <= i <= |addrs|
      invariant DecreaseAll(old(memory.State()), addrs) == DecreaseAll(memory.State(), addrs[i..])
      invariant old(memory.Valid()) ==> memory.Valid()
    {
      assert addrs[i..][1..] == addrs[i + 1..];
      var step := DecreaseRefcount(memory, addrs[i]);
      if step.Err? {
        return Err(step.error);
      }
      i := i + 1;
    }
    return Ok(());
  }

  /** `get_method_addr_byname` on the runtime's memory; the fuel is the
      number of objects, which an acyclic chain cannot exceed. */
  function GetMethodAddrByName(memory: UnsafeMemory, t: Addr, name: string, ns: Namespace): (r: Result<Option<Addr>, Panic>)
    reads memory
    ensures r.Ok? && r.value.Some? ==>
              exists u :: Readable(memory.State(), u) && memory.heap[u].structure.Type? &&
                          name in Entries(memory.heap[u].structure, ns) &&
                          Entries(memory.heap[u].structure, ns)[name] == r.value.value
  {
    var r := MethodLookup(memory.State(), t, name, ns, |memory.heap|);
    if r.Ok? && r.value.Some? then
      MethodLookupFoundOnChain(memory.State(), t, name, ns, |memory.heap|);
      r
    else r
  }

  /** `add_to_module` on the runtime's memory. */
  method AddToModule(memory: UnsafeMemory, modules: map<string, Addr>, moduleName: string, name: string, addr: Addr)
    returns (r: Result<(), Panic>)
    modifies memory
    ensures r.Ok? <==> AddToModuleIn(old(memory.State()), modules, moduleName, name, addr).Ok?
    ensures r.Ok? ==> memory.State() == AddToModuleIn(old(memory.State()), modules, moduleName, name, addr).value
    ensures r.Err? ==> memory.State() == old(memory.State())
    ensures old(memory.Valid()) ==> memory.Valid()
  {
    if moduleName !in modules {
      return Err(ModuleMissing(moduleName));
    }
    var ma := modules[moduleName];
    var got := memory.Get(ma);
    if got.Err? {
      return Err(got.error);
    }
    var obj := got.value;
    if !obj.structure.Module? {
      return Err(NotAModule(moduleName));
    }
    if name in obj.structure.globalNamespace {
      return Err(NameExists(moduleName, name));
    }
    var ns := obj.structure.globalNamespace[name := addr];
    var _ := memory.Write(ma, obj.(structure := obj.structure.(globalNamespace := ns)));
    return Ok(());
  }

  /** `create_type` on the runtime's memory. */
  method CreateType(memory: UnsafeMemory, modules: map<string, Addr>, typeType: Addr, moduleName: string,
                    name: string, supertype: Option<Addr>) returns (r: Result<Addr, Panic>)
    modifies memory
    ensures r.Ok? <==> CreateTypeIn(old(memory.State()), modules, typeType, moduleName, name, supertype).Ok?
    ensures r.Ok? ==> (memory.State(), r.value) == CreateTypeIn(old(memory.State()), modules, typeType, moduleName, name, supertype).value
    ensures old(memory.Valid()) ==> memory.Valid()
  {
    var t := memory.AllocateAndWrite(EmptyType(typeType, name, supertype));
    var added := AddToModule(memory, modules, moduleName, name, t);
    if added.Err? {
      return Err(added.error);
    }
    return Ok(t);
  }
}
