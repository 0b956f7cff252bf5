/*
 * The compiled program of src/bytecode/program.rs as the two bytecode
 * interpreters read it, and the context src/runtime/datamodel.rs pairs a
 * code object with: its constants already placed on the heap.
 */
module Program {

  import opened RuntimeDataModel

  /** `Const`; a float is kept as its text. */
  datatype Const =
    | Integer(i: int)
    | Float(f: string)
    | Boolean(b: bool)
    | String(s: string)
    | CodeObjectConst(code: CodeObject, name: string)
    | NoneConst

  /** `Instruction`. src/runtime/interpreter.rs also matches `PopTop` and
      a `MakeFunction` that says whether default parameters were pushed,
      from a later revision of the enum; both are included, and the older
      interpreter ignores the flag. */
  datatype Instruction =
    | LoadConst(index: nat)
    | LoadAttr(attr: string)
    | MakeFunction(hasDefaultParams: bool)
    | MakeClass
    | StoreName(name: nat)
    | StoreAttr(attrName: nat)
    | LoadName(name: nat)
    | LoadGlobal(name: nat)
    | CallFunction(numberArguments: nat)
    | JumpIfFalseAndPopStack(destination: nat)
    | JumpUnconditional(destination: nat)
    | ReturnValue
    | BinaryAdd
    | BinaryModulus
    | BinarySubtract
    | BinaryMultiply
    | BinaryTrueDivision
    | CompareLessEquals
    | CompareGreaterEquals
    | CompareGreaterThan
    | CompareLessThan
    | CompareEquals
    | CompareNotEquals
    | BuildList(numberElements: nat)
    | IndexAccess
    | ForIter(endPtr: nat)
    | Raise
    | PopTop
    | UnresolvedBreak
    | UnresolvedStoreAttr(unresolvedAttr: string)
    | UnresolvedStoreName(unresolvedName: string)
    | UnresolvedLoadName(unresolvedName: string)

  /** `CodeObject`. */
  datatype CodeObject = CodeObject(
    instructions: seq<Instruction>,
    names: seq<string>,
    params: seq<string>,
    consts: seq<Const>,
    main: bool)

  /** `CodeObjectContext`: the code and the heap address of each of its
      constants, by index. */
  datatype CodeObjectContext = CodeObjectContext(code: CodeObject, consts: seq<Addr>)
}
