/*
 * What the native methods of the builtin types (src/builtin_types/) use
 * of the runtime of src/runtime/runtime.rs: the arity check of
 * src/builtin_types/macros.rs, the type of an object and its name, the
 * two ways of allocating a builtin object, and the registration of a
 * table of methods on a type.
 *
 * A native method is a function of the heap: it gives the heap afterwards
 * and the address it returns. What it calls back into (`call_method` on
 * another object) is a parameter, as is what it computes on floats.
 */
module Natives {

  import opened Wrappers
  import opened RuntimeDataModel
  import opened UnsafeMemory
  import opened Frames
  import opened ObjectSpace
  import opened Handlers
  import opened PyRuntime
  import Vm

  /** What a native method reads of the runtime besides the heap. */
  datatype NativeEnv = NativeEnv(
    types: BuiltinTypeAddresses,
    special: map<SpecialValue, Addr>,
    modules: map<string, Addr>,
    /** `call_method` on a heap: nothing when the receiver's type chain
        has no such method, else the heap the method leaves and the
        address it returns; a panic inside it is an error. */
    callMethod: (MemState, Addr, string, seq<Addr>) -> Result<Option<Outcome>, Panic>,
    floats: FloatOps,
    /** `i as f64`, as the text of the float. */
    intToFloat: int -> string)

  /** `check_builtin_func_params!`: panics exactly when the counts
      differ. */
  function CheckParams(expected: nat, received: nat): (r: Result<(), Panic>)
    ensures r.Ok? <==> expected == received
    ensures r.Err? ==> r.error == ArgumentCount(expected, received)
  {
    if expected != received then Err(ArgumentCount(expected, received)) else Ok(())
  }

  /** `get_pyobj_type_addr`. */
  function TypeAddrIn(m: MemState, a: Addr): (r: Result<Addr, Panic>)
    ensures r.Ok? <==> Readable(m, a)
    ensures r.Ok? ==> r.value == m.heap[a].typeAddr
  {
    var obj :- GetIn(m, a);
    Ok(obj.typeAddr)
  }

  /** `get_type_name`: a non-type panics. */
  function TypeNameIn(m: MemState, t: Addr): (r: Result<string, Panic>)
    ensures r.Ok? <==> Readable(m, t) && m.heap[t].structure.Type?
    ensures r.Ok? ==> r.value == m.heap[t].structure.name
  {
    var obj :- GetIn(m, t);
    if obj.structure.Type? then Ok(obj.structure.name) else Err(NotAType(t))
  }

  /** `get_pyobj_type_name`: the name of the object's type. */
  function PyobjTypeNameIn(m: MemState, a: Addr): (r: Result<string, Panic>)
    ensures r.Ok? ==> Readable(m, a) && Readable(m, m.heap[a].typeAddr) &&
                      m.heap[m.heap[a].typeAddr].structure.Type? &&
                      r.value == m.heap[m.heap[a].typeAddr].structure.name
  {
    var t :- TypeAddrIn(m, a);
    TypeNameIn(m, t)
  }

  /** The integer payload of an object; anything else panics. */
  function IntOf(m: MemState, a: Addr): (r: Result<int, Panic>)
    ensures r.Ok? <==> Readable(m, a) && m.heap[a].structure.Object? && m.heap[a].structure.rawData.Int?
    ensures r.Ok? ==> r.value == m.heap[a].structure.rawData.i
  {
    var d :- RawDataIn(m, a);
    TakeInt(d)
  }

  /** The string payload of an object; anything else panics. */
  function StringOf(m: MemState, a: Addr): (r: Result<string, Panic>)
    ensures r.Ok? <==> Readable(m, a) && m.heap[a].structure.Object? && m.heap[a].structure.rawData.String?
    ensures r.Ok? ==> r.value == m.heap[a].structure.rawData.s
  {
    var d :- RawDataIn(m, a);
    TakeString(d)
  }

  /** The list payload of an object; anything else panics. */
  function ListOf(m: MemState, a: Addr): (r: Result<seq<Addr>, Panic>)
    ensures r.Ok? <==> Readable(m, a) && m.heap[a].structure.Object? && m.heap[a].structure.rawData.List?
    ensures r.Ok? ==> r.value == m.heap[a].structure.rawData.items
  {
    var d :- RawDataIn(m, a);
    TakeList(d)
  }

  /** The receiver's integer, for the methods that take `n` arguments
      besides it; the arity is checked after the receiver is split off. */
  function ReceiverInt(m: MemState, c: Vm.CallParams, n: nat): (r: Result<int, Panic>)
    ensures c.params != [] && |c.params| - 1 != n ==> r == Err(ArgumentCount(n, |c.params| - 1))
    ensures r.Ok? ==> c.params != [] && IntOf(m, c.params[0]) == r
  {
    var call :- Vm.AsMethod(c);
    var _ :- CheckParams(n, |call.params|);
    IntOf(m, call.boundPyobj)
  }

  /** A native method's outcome as `call_method` reports it, the method
      having been found. */
  function Found(r: Result<Outcome, Panic>): Result<Option<Outcome>, Panic>
  {
    if r.Ok? then Ok(Some(r.value)) else Err(r.error)
  }

  /** An outcome that returns an object already there, the heap
      untouched. */
  function Existing(m: MemState, a: Addr): Outcome
  {
    Outcome(m, a)
  }

  /** `allocate_type_byaddr_raw`. */
  function AllocateRawIn(m: MemState, t: Addr, data: BuiltInTypeData): (r: Result<Outcome, Panic>)
  {
    var p :- AllocateBuiltinIn(m, t, data);
    Ok(Outcome(p.0, p.1))
  }

  /** `allocate_builtin_type_byname_raw`: the type looked up by name in
      the builtin module, which panics when it is missing. */
  function AllocateByNameIn(m: MemState, modules: map<string, Addr>, typeName: string, data: BuiltInTypeData)
    : (r: Result<Outcome, Panic>)
  {
    var t :- FindInModuleIn(m, modules, BUILTIN_MODULE, typeName);
    if t.None? then Err(NameMissing(typeName)) else AllocateRawIn(m, t.value, data)
  }

  /** The object `o` returns is new, of type `t` and holds `data`; every
      object readable before reads as before. */
  ghost predicate FreshObject(m: MemState, o: Outcome, t: Addr, data: BuiltInTypeData)
  {
    WellFormed(o.mem) && !Readable(m, o.returned) && GetIn(o.mem, o.returned) == Ok(BuiltinObject(t, data)) &&
    forall b :: b != o.returned && Readable(m, b) ==> GetIn(o.mem, b) == GetIn(m, b)
  }

  /** On a well-formed heap an allocation never fails and gives a fresh
      object. */
  lemma AllocateRawSpec(m: MemState, t: Addr, data: BuiltInTypeData)
    requires WellFormed(m)
    ensures AllocateRawIn(m, t, data).Ok?
    ensures FreshObject(m, AllocateRawIn(m, t, data).value, t, data)
  {
    AllocateBuiltinSpec(m, t, data);
    AllocateSpec(m, BuiltinObject(t, data));
  }

  /** An allocation by name gives a fresh object of the type the builtin
      module binds to the name, and panics when there is none. */
  lemma AllocateByNameSpec(m: MemState, modules: map<string, Addr>, typeName: string, data: BuiltInTypeData)
    requires WellFormed(m) && FindInModuleIn(m, modules, BUILTIN_MODULE, typeName).Ok?
    ensures var found := FindInModuleIn(m, modules, BUILTIN_MODULE, typeName).value;
            var r := AllocateByNameIn(m, modules, typeName, data);
            (found.None? ==> r == Err(NameMissing(typeName))) &&
            (found.Some? ==> r.Ok? && FreshObject(m, r.value, found.value, data))
  {
    var found := FindInModuleIn(m, modules, BUILTIN_MODULE, typeName).value;
    if found.Some? {
      AllocateRawSpec(m, found.value, data);
    }
  }

  /** `special_values[&NotImplementedValue]`: indexing a missing entry
      panics. */
  function NotImplementedIn(env: NativeEnv): (r: Result<Addr, Panic>)
    ensures r.Ok? <==> NotImplementedValue in env.special
    ensures r.Ok? ==> r.value == env.special[NotImplementedValue]
  {
    if NotImplementedValue in env.special then Ok(env.special[NotImplementedValue]) else Err(MissingSpecialValue)
  }

  /** One of the two shared boolean objects. */
  function TruthValue(env: NativeEnv, b: bool): Addr
  {
    if b then env.types.trueVal else env.types.falseVal
  }

  // ---------------------------------------------------------------------
  // Registration
  // ---------------------------------------------------------------------

  /** The methods a builtin type binds: each a name and the code of its
      native function, in registration order. */
  type MethodTable = seq<(string, NativeCode)>

  predicate DistinctNames(table: MethodTable)
  {
    forall i, j :: 0 <= i < j < |table| ==> table[i].0 != table[j].0
  }

  /** Every entry of the table is bound in the `methods` of the type `t`
      to a native callable with its code and name. */
  ghost predicate Binds(m: MemState, callableType: Addr, t: Addr, table: MethodTable)
  {
    Readable(m, t) && m.heap[t].structure.Type? &&
    forall j :: 0 <= j < |table| ==>
      table[j].0 in m.heap[t].structure.methods &&
      GetIn(m, m.heap[t].structure.methods[table[j].0]) == Ok(CallableObject(callableType, table[j].1, table[j].0))
  }

  /** A run of `register_bounded_func(BUILTIN_MODULE, typeName, name, f)`,
      one per table entry in order. Afterwards the type binds every entry,
      keeps its name and supertype, and every other object readable
      before reads as before. */
  method RegisterBoundedFuncs(rt: Runtime, typeName: string, t: Addr, table: MethodTable) returns (r: Result<(), Panic>)
    requires rt.Valid() && DistinctNames(table)
    requires FindInModuleIn(rt.memory.State(), rt.modules, BUILTIN_MODULE, typeName) == Ok(Some(t))
    requires Readable(rt.memory.State(), t) && rt.memory.heap[t].structure.Type?
    modifies rt.memory
    ensures rt.Valid()
    ensures r.Ok? ==> FindInModuleIn(rt.memory.State(), rt.modules, BUILTIN_MODULE, typeName) == Ok(Some(t))
    ensures r.Ok? && |table| > 0 ==> CallableType in rt.specialValues
    ensures r.Ok? && CallableType in rt.specialValues ==> Binds(rt.memory.State(), rt.specialValues[CallableType], t, table)
    ensures CallableType in rt.specialValues ==> r.Ok?
    ensures r.Ok? ==> Readable(rt.memory.State(), t) && rt.memory.heap[t].structure.Type? &&
                      rt.memory.heap[t].typeAddr == old(rt.memory.heap[t].typeAddr) &&
                      rt.memory.heap[t].structure.name == old(rt.memory.heap[t].structure.name) &&
                      rt.memory.heap[t].structure.supertype == old(rt.memory.heap[t].structure.supertype) &&
                      rt.memory.heap[t].structure.functions == old(rt.memory.heap[t].structure.functions)
    ensures r.Ok? ==> forall b :: b != t && old(Readable(rt.memory.State(), b)) ==>
                        GetIn(rt.memory.State(), b) == old(GetIn(rt.memory.State(), b))
  {
    var i := 0;
    while i < |table|
      invariant 0 <= i <= |table| && rt.Valid()
      invariant FindInModuleIn(rt.memory.State(), rt.modules, BUILTIN_MODULE, typeName) == Ok(Some(t))
      invariant Readable(rt.memory.State(), t) && rt.memory.heap[t].structure.Type?
      invariant rt.memory.heap[t].typeAddr == old(rt.memory.heap[t].typeAddr) &&
                rt.memory.heap[t].structure.name == old(rt.memory.heap[t].structure.name) &&
                rt.memory.heap[t].structure.supertype == old(rt.memory.heap[t].structure.supertype) &&
                rt.memory.heap[t].structure.functions == old(rt.memory.heap[t].structure.functions)
      invariant i > 0 ==> CallableType in rt.specialValues
      invariant CallableType in rt.specialValues ==> Binds(rt.memory.State(), rt.specialValues[CallableType], t, table[..i])
      invariant forall b :: b != t && old(Readable(rt.memory.State(), b)) ==>
                  GetIn(rt.memory.State(), b) == old(GetIn(rt.memory.State(), b))
    {
      ghost var m0 := rt.memory.State();
      var registered := rt.RegisterBoundedFunc(BUILTIN_MODULE, typeName, table[i].0, table[i].1);
      if registered.Err? {
        return Err(registered.error);
      }
      ghost var m1 := rt.memory.State();
      RegisterStep(m0, m1, rt.modules, typeName, t, rt.specialValues[CallableType], table, i, registered.value);
      i := i + 1;
    }
    assert table[..i] == table;
    return Ok(());
  }

  /** One registration keeps what the earlier ones bound. */
  lemma RegisterStep(m0: MemState, m1: MemState, modules: map<string, Addr>, typeName: string, t: Addr,
                     callableType: Addr, table: MethodTable, i: nat, f: Addr)
    requires DistinctNames(table) && i < |table|
    requires FindInModuleIn(m0, modules, BUILTIN_MODULE, typeName) == Ok(Some(t))
    requires Binds(m0, callableType, t, table[..i])
    requires f != t && !Readable(m0, f)
    requires GetIn(m1, f) == Ok(CallableObject(callableType, table[i].1, table[i].0))
    requires Readable(m1, t) && m1.heap[t] == m0.heap[t].(structure := WithEntry(m0.heap[t].structure, Methods, table[i].0, f))
    requires forall b :: b != t && Readable(m0, b) ==> GetIn(m1, b) == GetIn(m0, b)
    ensures FindInModuleIn(m1, modules, BUILTIN_MODULE, typeName) == Ok(Some(t))
    ensures Binds(m1, callableType, t, table[..i + 1])
  {
    var ma := modules[BUILTIN_MODULE];
    assert m0.heap[ma].structure.Module?;
    assert GetIn(m1, ma) == GetIn(m0, ma);
    forall j | 0 <= j < i + 1
      ensures table[j].0 in m1.heap[t].structure.methods &&
              GetIn(m1, m1.heap[t].structure.methods[table[j].0]) == Ok(CallableObject(callableType, table[j].1, table[j].0))
    {
      if j < i {
        assert table[..i][j] == table[j];
        assert table[j].0 != table[i].0;
        var b := m0.heap[t].structure.methods[table[j].0];
        assert m1.heap[t].structure.methods[table[j].0] == b;
        assert GetIn(m0, b).Ok? && b != t;
      }
    }
  }

  /** A heap whose builtin module object reads as before finds every
      name of that module as before. */
  lemma BuiltinModuleKept(m: MemState, m': MemState, modules: map<string, Addr>)
    requires BUILTIN_MODULE in modules
    requires GetIn(m', modules[BUILTIN_MODULE]) == GetIn(m, modules[BUILTIN_MODULE])
    ensures forall n :: FindInModuleIn(m', modules, BUILTIN_MODULE, n) == FindInModuleIn(m, modules, BUILTIN_MODULE, n)
  {
  }

  /** `t` is bound under `name` in the builtin module and is a type of
      type `typeType` with that name and supertype. */
  ghost predicate InstalledType(m: MemState, modules: map<string, Addr>, typeType: Addr, name: string, t: Addr,
                                supertype: Option<Addr>)
  {
    FindInModuleIn(m, modules, BUILTIN_MODULE, name) == Ok(Some(t)) &&
    Readable(m, t) && m.heap[t].typeAddr == typeType && m.heap[t].structure.Type? &&
    m.heap[t].structure.name == name && m.heap[t].structure.supertype == supertype
  }

  /** `create_type(BUILTIN_MODULE, name, supertype)` followed by one
      `register_bounded_func` per table entry, as the registrations of
      the builtin types begin. A fresh name on a runtime that has the type
      and callable types never panics; afterwards the new type is
      installed under its name, binds the whole table, and nothing
      readable before has changed but the builtin module. */
  method CreateBuiltinType(rt: Runtime, name: string, supertype: Option<Addr>, table: MethodTable) returns (r: Result<Addr, Panic>)
    requires rt.Valid() && DistinctNames(table) && |table| > 0
    modifies rt.memory
    ensures rt.Valid()
    ensures (TypeValue in rt.specialValues && CallableType in rt.specialValues &&
             old(FindInModuleIn(rt.memory.State(), rt.modules, BUILTIN_MODULE, name)) == Ok(None)) ==> r.Ok?
    ensures r.Ok? ==> TypeValue in rt.specialValues && CallableType in rt.specialValues &&
                      InstalledType(rt.memory.State(), rt.modules, rt.specialValues[TypeValue], name, r.value, supertype) &&
                      Binds(rt.memory.State(), rt.specialValues[CallableType], r.value, table)
    ensures r.Ok? ==> !old(Readable(rt.memory.State(), r.value)) && BUILTIN_MODULE in rt.modules &&
                      forall b :: b != r.value && b != rt.modules[BUILTIN_MODULE] && old(Readable(rt.memory.State(), b)) ==>
                        GetIn(rt.memory.State(), b) == old(GetIn(rt.memory.State(), b))
  {
    ghost var m0 := rt.memory.State();
    if TypeValue in rt.specialValues {
      CreateTypeSpec(m0, rt.modules, rt.specialValues[TypeValue], BUILTIN_MODULE, name, supertype);
    }
    var created := rt.CreateType(BUILTIN_MODULE, name, supertype);
    if created.Err? {
      return Err(created.error);
    }
    var t := created.value;
    var registered := RegisterBoundedFuncs(rt, name, t, table);
    if registered.Err? {
      return Err(registered.error);
    }
    return Ok(t);
  }

  /** `allocate_builtin_type_byname_raw` on the runtime. */
  method AllocateBuiltinByName(rt: Runtime, typeName: string, data: BuiltInTypeData) returns (r: Result<Addr, Panic>)
    modifies rt.memory
    ensures r.Ok? <==> old(AllocateByNameIn(rt.memory.State(), rt.modules, typeName, data)).Ok?
    ensures r.Ok? ==> Outcome(rt.memory.State(), r.value) == old(AllocateByNameIn(rt.memory.State(), rt.modules, typeName, data)).value
    ensures old(rt.Valid()) ==> rt.Valid()
  {
    var found := rt.FindInModule(BUILTIN_MODULE, typeName);
    if found.Err? {
      return Err(found.error);
    }
    if found.value.None? {
      return Err(NameMissing(typeName));
    }
    r := rt.memory.AllocateAndWriteBuiltin(found.value.value, data);
  }
}
