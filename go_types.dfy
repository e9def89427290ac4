/**
  The host's type information (`go/types`), as the unused-result check reads
  it: three read-only tables filled in by the type checker. Only what the
  check asks of each entry is kept; a receiver type appears as the text the
  type checker renders for it.
 */
module GoTypes {
  import opened Wrappers
  import opened GoAst

  /** The mode of a `types.TypeAndValue`; `Invalid` is the zero value. */
  datatype OperandMode = Invalid | NoValue | Builtin | TypExpr | Constant | Variable | MapIndex | Value | CommaOk

  /** `types.TypeAndValue`, of which the check only asks `IsType()`. */
  datatype TypeAndValue = TypeAndValue(mode: OperandMode)
  {
    predicate IsType() { mode == TypExpr }
  }

  /** The predeclared basic types the modelled signatures mention; every other type is `Named` or `Composite`. */
  datatype BasicKind = Int | String

  /**
    `types.Type`, up to identity: a predeclared basic type, a defined (named)
    type, or any other type, kept as its text.
   */
  datatype GoType =
    | Basic(kind: BasicKind)
    | Named(pkgPath: string, name: string)
    | Composite(text: string)

  /** `*types.Signature` without its receiver, which type identity ignores. */
  datatype Signature = Signature(params: seq<GoType>, results: seq<GoType>, variadic: bool)

  /** `*types.Func`: a function or method, with the path of its package. */
  datatype Func = Func(pkgPath: string, name: string, sig: Signature)

  /** `types.Object`: what an identifier refers to. */
  datatype Object =
    | FuncObj(fn: Func)
    | VarObj(name: string)
    | ConstObj(name: string)
    | TypeNameObj(name: string)
    | PkgNameObj(name: string)
    | BuiltinObj(name: string)

  /**
    `*types.Selection`, by kind. `recvType` is the type of the selector's
    operand as the type checker prints it, which for a method value is the
    receiver type of the selection's signature.
   */
  datatype Selection =
    | FieldVal(recvType: string, field: string)
    | MethodVal(recvType: string, fn: Func)
    | MethodExpr(recvType: string, fn: Func)

  /** `f.pkg.types`, `f.pkg.selectors` and `f.pkg.uses`. */
  datatype Info = Info(
    types: map<Expr, TypeAndValue>,
    selectors: map<Expr, Selection>,
    uses: map<Ident, Object>)

  /** `types[e]`, the zero `TypeAndValue` when `e` has no entry. */
  function TypeOf(info: Info, e: Expr): (tv: TypeAndValue)
    ensures e in info.types ==> tv == info.types[e]
    ensures e !in info.types ==> tv.mode == Invalid && !tv.IsType()
  {
    if e in info.types then info.types[e] else TypeAndValue(Invalid)
  }

  /** `uses[id]`, nil when `id` has no entry. */
  function UseOf(info: Info, id: Ident): (obj: Option<Object>)
    ensures obj.Some? <==> id in info.uses
    ensures obj.Some? ==> obj.value == info.uses[id]
  {
    if id in info.uses then Some(info.uses[id]) else None
  }
}
