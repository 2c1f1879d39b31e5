/** The executor's instruction set. */
module ByteCode {
  import opened Values

  /** Names in a frame's stores.  The generator writes temporaries as `_tmpN` and functions as `_fnN`. */
  datatype Name = User(s: string) | TmpName(id: nat) | FnName(fn: FnId)

  datatype FieldAccess = Field(field: string) | FieldIndex(field: string, indexTmp: Name)

  datatype Location =
    | Compound(root: Name, rootIndex: Option<Name>, path: seq<FieldAccess>)
    | Namespace(name: Name)
    | Tmp(name: Name)

  datatype Arg = Loc(loc: Location) | IntArg(i: i64) | FloatArg(f: FloatBits) | BoolArg(b: bool) | StringArg(s: string)

  /** `IntOp` stands for AddI .. ModI, `FloatOp` for AddF .. ModF, `CompareInt`/`CompareFloat` for the eight
      ordering instructions, as the executor's own macros group them. */
  datatype Instruction =
    | Store(loc: Location, arg: Arg)
    | StoreStructure(loc: Location, fields: map<string, Arg>)
    | StoreArray1(loc: Location, args: seq<Arg>)
    | StoreArray2(loc: Location, arg: Arg, size: nat)
    | IntOp(op: ArithOp, loc: Location, arg1: Arg, arg2: Arg)
    | FloatOp(op: ArithOp, loc: Location, arg1: Arg, arg2: Arg)
    | CompareInt(cmp: CompareOp, loc: Location, arg1: Arg, arg2: Arg)
    | CompareFloat(cmp: CompareOp, loc: Location, arg1: Arg, arg2: Arg)
    | And(loc: Location, arg1: Arg, arg2: Arg)
    | Or(loc: Location, arg1: Arg, arg2: Arg)
    | EqInstr(loc: Location, arg1: Arg, arg2: Arg)
    | InEqInstr(loc: Location, arg1: Arg, arg2: Arg)
    | NegateInstr(loc: Location, arg: Arg)
    | Invert(loc: Location, arg: Arg)
    | FnCall(fn: Location, args: seq<Arg>)
    | Return(ret: Option<Arg>)
    | TakeReturn(loc: Location)
    | Jump(target: nat)
    | JumpCondition(target: nat, arg: Arg)
    | JumpNegateCondition(target: nat, arg: Arg)
    | RelJump(offset: int)
    | RelJumpCondition(offset: int, arg: Arg)
    | RelJumpNegateCondition(offset: int, arg: Arg)
}
