/**
  Statements from the fixture files string_test.go and pizza_test.go, plus
  three constructed scenarios: a configured `p.String()`, a configured `Error`
  method returning a defined string type, and the conversion `Pizza(p)`. Each
  comes with the type information the type checker would record for it, and
  is evaluated by `CheckUnusedResult` in lemmas, under the default configuration.
 */
module Fixtures {
  import opened Wrappers
  import opened GoAst
  import opened GoTypes
  import opened UnusedFlags
  import opened UnusedResult

  /** The sets `initUnusedFlags` builds from the default flag values. */
  const Defaults: Config :=
    Config({"errors.New", "fmt.Errorf", "fmt.Sprintf", "fmt.Sprint", "sort.Reverse"}, {"Error", "String"})

  /** The default flag values load as `Defaults`. */
  lemma DefaultConfig()
    ensures Config(Names(DefaultUnusedFuncs), Names(DefaultUnusedStringMethods)) == Defaults
  {
    DefaultUnusedFuncsLoad();
    DefaultUnusedStringMethodsLoad();
    assert {} + Names(DefaultUnusedFuncs) == Names(DefaultUnusedFuncs);
    assert {} + Names(DefaultUnusedStringMethods) == Names(DefaultUnusedStringMethods);
  }

  /** `fmt` in statement position: a package name. */
  const FmtIdent: Ident := Ident(100, "fmt")

  /** `fmt.Sprintf("This is unused.")`, a bare statement. */
  const SprintfSelector: Expr := SelectorExpr(IdentExpr(FmtIdent), Ident(104, "Sprintf"))
  const SprintfStmt: ExprStmt := ExprStmt(CallExpr(SprintfSelector, 111, [OtherExpr(112)], 129))
  const SprintfFunc: Func := Func("fmt", "Sprintf", Signature([Basic(String), Composite("[]interface{}")], [Basic(String)], true))

  /** `fmt.Printf("This is unused.\n")`, a bare statement. */
  const PrintfSelector: Expr := SelectorExpr(IdentExpr(Ident(200, "fmt")), Ident(204, "Printf"))
  const PrintfStmt: ExprStmt := ExprStmt(CallExpr(PrintfSelector, 210, [OtherExpr(211)], 230))
  const PrintfFunc: Func :=
    Func("fmt", "Printf", Signature([Basic(String), Composite("[]interface{}")], [Basic(Int), Named("", "error")], true))

  /** `makeStringBareFunction()`, a call through a bare name. */
  const BareIdent: Ident := Ident(300, "makeStringBareFunction")
  const BareStmt: ExprStmt := ExprStmt(CallExpr(IdentExpr(BareIdent), 322, [], 323))

  /** `p.PublicMakeStringMethod()`, a `func() string` method that is not configured. */
  const PublicMethodSelector: Expr := SelectorExpr(IdentExpr(Ident(400, "p")), Ident(402, "PublicMakeStringMethod"))
  const PublicMethodStmt: ExprStmt := ExprStmt(CallExpr(PublicMethodSelector, 424, [], 425))

  /** `p.String()`, a `func() string` method that is configured. */
  const StringSelector: Expr := SelectorExpr(IdentExpr(Ident(500, "p")), Ident(502, "String"))
  const StringStmt: ExprStmt := ExprStmt(CallExpr(StringSelector, 508, [], 509))

  /** `p.addToppingMethod("...")`, a method of type `func(string) Pizza`. */
  const ToppingSelector: Expr := SelectorExpr(IdentExpr(Ident(700, "p")), Ident(702, "addToppingMethod"))
  const ToppingStmt: ExprStmt := ExprStmt(CallExpr(ToppingSelector, 718, [OtherExpr(719)], 750))

  /** Constructed: `m.Error()` on a value of type `Report`, whose `Error` returns the defined type `Message` (`type Message string`). */
  const MessageSelector: Expr := SelectorExpr(IdentExpr(Ident(800, "m")), Ident(802, "Error"))
  const MessageStmt: ExprStmt := ExprStmt(CallExpr(MessageSelector, 807, [], 808))

  /** `Pizza(p)`, a conversion. */
  const ConversionStmt: ExprStmt := ExprStmt(CallExpr(IdentExpr(Ident(600, "Pizza")), 605, [IdentExpr(Ident(606, "p"))], 607))

  /** What the type checker records for `fmt.Sprintf(...)`: a package name, then a function. */
  const SprintfInfo: Info := Info(
    map[SprintfSelector := TypeAndValue(Value)],
    map[],
    map[FmtIdent := PkgNameObj("fmt"), Ident(104, "Sprintf") := FuncObj(SprintfFunc)])

  const PrintfInfo: Info := Info(
    map[PrintfSelector := TypeAndValue(Value)],
    map[],
    map[Ident(204, "Printf") := FuncObj(PrintfFunc)])

  /** What the type checker records for the four method calls on values of package `pizza`. */
  const MethodInfo: Info := Info(
    map[],
    map[PublicMethodSelector := MethodVal("pizza.Pizza", Func("pizza", "PublicMakeStringMethod", SigNoArgsStringResult)),
        StringSelector := MethodVal("pizza.Pizza", Func("pizza", "String", SigNoArgsStringResult)),
        ToppingSelector := MethodVal("pizza.Pizza",
          Func("pizza", "addToppingMethod", Signature([Basic(String)], [Named("pizza", "Pizza")], false))),
        MessageSelector := MethodVal("pizza.Report",
          Func("pizza", "Error", Signature([], [Named("pizza", "Message")], false)))],
    map[])

  /** What the type checker records for `makeStringBareFunction()`: a `func() string` of package `pizza`. */
  const BareInfo: Info := Info(
    map[IdentExpr(BareIdent) := TypeAndValue(Value)],
    map[],
    map[BareIdent := FuncObj(Func("pizza", "makeStringBareFunction", SigNoArgsStringResult))])

  const ConversionInfo: Info := Info(map[IdentExpr(Ident(600, "Pizza")) := TypeAndValue(TypExpr)], map[], map[])

  lemma SprintfIsReported()
    ensures CheckUnusedResult(SprintfStmt, SprintfInfo, Defaults) ==
            Some(Diagnostic(111, FuncMessage("fmt.Sprintf")))
  {
    assert "fmt.Sprintf" in Defaults.unusedFuncs;
    assert QualifiedName(SprintfFunc) == "fmt.Sprintf";
    assert SprintfSelector !in SprintfInfo.selectors;
    assert UseOf(SprintfInfo, Ident(104, "Sprintf")) == Some(FuncObj(SprintfFunc));
    PackageFunctionReport(SprintfStmt, SprintfInfo, Defaults);
  }

  lemma PrintfIsNotReported()
    ensures CheckUnusedResult(PrintfStmt, PrintfInfo, Defaults) == None
  {
    assert "fmt.Printf" !in Defaults.unusedFuncs;
    assert QualifiedName(PrintfFunc) == "fmt.Printf";
    assert PrintfSelector !in PrintfInfo.selectors;
    assert UseOf(PrintfInfo, Ident(204, "Printf")) == Some(FuncObj(PrintfFunc));
    PackageFunctionReport(PrintfStmt, PrintfInfo, Defaults);
  }

  /** Not reported even when its qualified name or its bare name is configured. */
  lemma BareCallIsNotReported(cfg: Config)
    ensures CheckUnusedResult(BareStmt, BareInfo, cfg) == None
  {
  }

  lemma UnconfiguredMethodIsNotReported()
    ensures CheckUnusedResult(PublicMethodStmt, MethodInfo, Defaults) == None
  {
  }

  lemma StringMethodIsReported()
    ensures CheckUnusedResult(StringStmt, MethodInfo, Defaults) ==
            Some(Diagnostic(508, MethodMessage("pizza.Pizza", "String")))
  {
  }

  /** A method that is not `func() string` is not reported, whatever names are configured. */
  lemma OtherSignatureIsNotReported(cfg: Config)
    ensures CheckUnusedResult(ToppingStmt, MethodInfo, cfg) == None
  {
  }

  /** A configured name returning a defined string type is not `func() string`, so it is not reported. */
  lemma DefinedStringResultIsNotReported()
    ensures "Error" in Defaults.unusedStringMethods
    ensures CheckUnusedResult(MessageStmt, MethodInfo, Defaults) == None
  {
  }

  lemma ConversionIsNeverReported(cfg: Config)
    ensures CheckUnusedResult(ConversionStmt, ConversionInfo, cfg) == None
  {
  }
}
