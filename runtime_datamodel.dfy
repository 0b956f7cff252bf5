/*
 * The object model shared by the address-based runtime (src/runtime/):
 * the payload of a builtin object, the structure of a heap object and the
 * object itself, as src/runtime/datamodel.rs declares them.
 *
 * An address is a natural number and 0 is the null address. A float is
 * kept as the text that denotes it; a native callable is known by an
 * opaque code identity; the code of a user-defined function by the index
 * of its code object. A `panic!` anywhere in the runtime is an `Err`
 * carrying a `Panic`.
 */
module RuntimeDataModel {

  import opened Wrappers
  import opened Decimal

  /** A `MemoryAddress`: a raw memory address in the source, a number here. */
  type Addr = nat

  /** `std::ptr::null_mut()`. */
  const NULL: Addr := 0

  const BUILTIN_MODULE: string := "__builtins__"
  const MAIN_MODULE: string := "__main__"

  /** Every way the runtime panics. */
  datatype Panic =
    /** `check_mem`: the address is on the free list. */
    | RecentlyDeallocated(address: Addr)
    /** A dereference of the null address. */
    | NullAddress
    /** An address the heap never handed out (undefined behaviour in the
        source; the model refuses it). */
    | Dangling(address: Addr)
    /** `debug_assert!(!py_obj.is_const)` when a freed address is reused. */
    | ConstReused(address: Addr)
    /** A `take_*` accessor applied to the wrong payload. */
    | WrongPayload(wanted: string)
    | NotAnObject(address: Addr)
    | NotAType(address: Addr)
    /** A module name bound to an object that is not a module. */
    | NotAModule(moduleName: string)
    /** `find_in_module_addr` on an address that is not a module. */
    | NotAModuleObject(address: Addr)
    | ModuleMissing(moduleName: string)
    | NameExists(moduleName: string, name: string)
    | NameMissing(name: string)
    | MethodMissing(name: string)
    | NotCallable(address: Addr)
    | NoFrame
    | EmptyStack
    | StackIndex(index: int)
    /** An index past the end of a vector. */
    | IndexOutOfBounds(index: int)
    /** A special value looked up before it was registered. */
    | MissingSpecialValue
    | ArgumentCount(expected: int, received: nat)
    | ZeroRefcount(address: Addr)
    | Unsupported
    /** Unbounded recursion through a cyclic supertype chain (a stack
        overflow in the source). */
    | CyclicSupertype
    | Overflow
    /** An operand of a type the operation does not accept (`TypeError`
        in Python), named by its type. */
    | TypeMismatch(typeName: string)
    /** `parse().unwrap()` on text that is not a number of the type. */
    | Unparsable(text: string)
    /** `bound_pyobj.unwrap()` on a call without a receiver. */
    | MissingReceiver

  /** `BuiltInTypeData`. */
  datatype BuiltInTypeData =
    | Int(i: int)
    | Float(f: string)
    | String(s: string)
    | List(items: seq<Addr>)
    | ClassInstance

  /** `to_string` on a payload. Integers are written in decimal; a float
      shows the text it is kept as. */
  function ToString(d: BuiltInTypeData): string
  {
    match d
    case Int(i) => IntText(i)
    case Float(f) => f
    case String(s) => "String \"" + s + "\""
    case List(_) => "a list"
    case ClassInstance => "class instance"
  }

  /** Integers read back from their rendering; strings show between the
      quotes of `String "…"`. */
  lemma ToStringSpec(d: BuiltInTypeData)
    ensures d.Int? && InI128(d.i) ==> ParseI128(ToString(d)) == Some(d.i)
    ensures d.String? ==> |ToString(d)| == |d.s| + 9 &&
                          ToString(d)[..8] == "String \"" &&
                          ToString(d)[8..|ToString(d)| - 1] == d.s &&
                          ToString(d)[|ToString(d)| - 1] == '"'
    ensures d.List? ==> ToString(d) == "a list"
    ensures d.ClassInstance? ==> ToString(d) == "class instance"
  {
    if d.Int? && InI128(d.i) {
      ParseIntText(d.i);
    }
  }

  /** `take_int`. */
  function TakeInt(d: BuiltInTypeData): (r: Result<int, Panic>)
    ensures r.Ok? <==> d.Int?
    ensures r.Ok? ==> d == Int(r.value)
  {
    if d.Int? then Ok(d.i) else Err(WrongPayload("int"))
  }

  /** `take_float`. */
  function TakeFloat(d: BuiltInTypeData): (r: Result<string, Panic>)
    ensures r.Ok? <==> d.Float?
    ensures r.Ok? ==> d == Float(r.value)
  {
    if d.Float? then Ok(d.f) else Err(WrongPayload("float"))
  }

  /** `take_string`. */
  function TakeString(d: BuiltInTypeData): (r: Result<string, Panic>)
    ensures r.Ok? <==> d.String?
    ensures r.Ok? ==> d == String(r.value)
  {
    if d.String? then Ok(d.s) else Err(WrongPayload("string"))
  }

  /** `take_list`. */
  function TakeList(d: BuiltInTypeData): (r: Result<seq<Addr>, Panic>)
    ensures r.Ok? <==> d.List?
    ensures r.Ok? ==> d == List(r.value)
  {
    if d.List? then Ok(d.items) else Err(WrongPayload("list"))
  }

  /** `take_list_mut` followed by a change through the reference it hands
      out: the payload afterwards, with `items` as the new contents of the
      list. */
  function UpdateList(d: BuiltInTypeData, items: seq<Addr>): (r: Result<BuiltInTypeData, Panic>)
    ensures r.Ok? <==> d.List?
  {
    if d.List? then Ok(List(items)) else Err(WrongPayload("list"))
  }

  /** A change made through `take_list_mut` is what `take_list` sees next,
      and nothing but the list is changed. */
  lemma UpdateListSeen(d: BuiltInTypeData, items: seq<Addr>)
    requires d.List?
    ensures TakeList(UpdateList(d, items).value) == Ok(items)
    ensures UpdateList(d, d.items) == Ok(d)
  {
  }

  /** The code of a native callable is an opaque identity; what it does
      is a parameter of the operations that call it. */
  type NativeCode = nat

  /** `PyObjectStructure`. A type carries both namespaces of the two
      runtime generations: `methods` (bound, consulted by src/runtime/runtime.rs)
      and `functions` (consulted by src/runtime/vm.rs). */
  datatype Structure =
    | NoneObj
    | NotImplementedObj
    | Object(rawData: BuiltInTypeData, refcount: nat)
    | NativeCallable(code: NativeCode, callableName: Option<string>, isBound: bool)
    | UserDefinedFunction(codeIndex: nat, qualname: string, defaults: seq<Addr>)
    | BoundMethod(functionAddress: Addr, boundAddress: Addr)
    | Type(name: string, methods: map<string, Addr>, functions: map<string, Addr>, supertype: Option<Addr>)
    | Module(name: string, globalNamespace: map<string, Addr>)

  /** `PyObject`. */
  datatype PyObject = PyObject(
    typeAddr: Addr,
    structure: Structure,
    properties: map<string, Addr>,
    isConst: bool)

  /** `try_get_builtin`. */
  function TryGetBuiltin(obj: PyObject): (r: Option<BuiltInTypeData>)
    ensures r.Some? <==> obj.structure.Object?
    ensures r.Some? ==> r.value == obj.structure.rawData
  {
    match obj.structure
    case Object(rawData, _) => Some(rawData)
    case _ => None
  }

  /** A builtin object as `allocate_and_write_builtin` writes it. */
  function BuiltinObject(typeAddr: Addr, data: BuiltInTypeData): (r: PyObject)
    ensures TryGetBuiltin(r) == Some(data)
    ensures r.typeAddr == typeAddr && !r.isConst && r.properties == map[]
  {
    PyObject(typeAddr, Object(data, 0), map[], false)
  }

  /** A type object with empty namespaces. */
  function EmptyType(typeType: Addr, name: string, supertype: Option<Addr>): (r: PyObject)
    ensures r.structure.Type? && r.structure.functions == map[] && r.structure.methods == map[]
    ensures TryGetBuiltin(r) == None
  {
    PyObject(typeType, Type(name, map[], map[], supertype), map[], false)
  }
}
