/*
 * The older object model (src/datamodel.rs): the payload has no
 * class-instance variant, a type has bound `methods` beside `functions`,
 * and a module's namespace is `objects`. Its accessors agree with the
 * newer ones on every payload the two have in common.
 */
module OldDataModel {

  import opened Wrappers
  import opened Decimal
  import R = RuntimeDataModel

  datatype BuiltInTypeData =
    | Int(i: int)
    | Float(f: string)
    | String(s: string)
    | List(items: seq<nat>)

  datatype Structure =
    | NoneObj
    | NotImplementedObj
    | Object(rawData: BuiltInTypeData, refcount: nat)
    | NativeCallable(code: nat, callableName: Option<string>)
    | UserDefinedFunction(name: string, codeIndex: nat)
    | Type(name: string, methods: map<string, nat>, functions: map<string, nat>, supertype: Option<nat>)
    | Module(name: string, objects: map<string, nat>)

  datatype PyObject = PyObject(
    typeAddr: nat,
    structure: Structure,
    properties: map<string, nat>,
    isConst: bool)

  /** `to_string`. */
  function ToString(d: BuiltInTypeData): string
  {
    match d
    case Int(i) => IntText(i)
    case Float(f) => f
    case String(s) => "String \"" + s + "\""
    case List(_) => "a list"
  }

  function TakeInt(d: BuiltInTypeData): (r: Result<int, R.Panic>)
    ensures r.Ok? <==> d.Int?
    ensures r.Ok? ==> d == Int(r.value)
  {
    if d.Int? then Ok(d.i) else Err(R.WrongPayload("int"))
  }

  function TakeFloat(d: BuiltInTypeData): (r: Result<string, R.Panic>)
    ensures r.Ok? <==> d.Float?
    ensures r.Ok? ==> d == Float(r.value)
  {
    if d.Float? then Ok(d.f) else Err(R.WrongPayload("float"))
  }

  function TakeString(d: BuiltInTypeData): (r: Result<string, R.Panic>)
    ensures r.Ok? <==> d.String?
    ensures r.Ok? ==> d == String(r.value)
  {
    if d.String? then Ok(d.s) else Err(R.WrongPayload("string"))
  }

  function TakeList(d: BuiltInTypeData): (r: Result<seq<nat>, R.Panic>)
    ensures r.Ok? <==> d.List?
    ensures r.Ok? ==> d == List(r.value)
  {
    if d.List? then Ok(d.items) else Err(R.WrongPayload("list"))
  }

  /** `take_list_mut` and a change through it. */
  function UpdateList(d: BuiltInTypeData, items: seq<nat>): (r: Result<BuiltInTypeData, R.Panic>)
    ensures r.Ok? <==> d.List?
    ensures r.Ok? ==> TakeList(r.value) == Ok(items)
  {
    if d.List? then Ok(List(items)) else Err(R.WrongPayload("list"))
  }

  /** `try_get_builtin`. */
  function TryGetBuiltin(obj: PyObject): (r: Option<BuiltInTypeData>)
    ensures r.Some? <==> obj.structure.Object?
    ensures r.Some? ==> r.value == obj.structure.rawData
  {
    match obj.structure
    case Object(rawData, _) => Some(rawData)
    case _ => None
  }

  /** The newer payload of an older one. */
  function Upgrade(d: BuiltInTypeData): (r: R.BuiltInTypeData)
    ensures !r.ClassInstance?
  {
    match d
    case Int(i) => R.Int(i)
    case Float(f) => R.Float(f)
    case String(s) => R.String(s)
    case List(items) => R.List(items)
  }

  /** The two generations render and read every common payload alike. */
  lemma UpgradeAgrees(d: BuiltInTypeData)
    ensures R.ToString(Upgrade(d)) == ToString(d)
    ensures R.TakeInt(Upgrade(d)) == TakeInt(d)
    ensures R.TakeFloat(Upgrade(d)) == TakeFloat(d)
    ensures R.TakeString(Upgrade(d)) == TakeString(d)
    ensures R.TakeList(Upgrade(d)) == TakeList(d)
  {
  }
}
