/**
  The unused-result check proper: given one expression statement and the
  host's read-only type information, decide whether the statement discards
  the result of a call to a configured function or `func() string` method,
  and if so produce the one diagnostic, at the call's opening parenthesis.
 */
module UnusedResult {
  import opened Wrappers
  import opened GoAst
  import opened GoTypes
  import opened UnusedFlags

  /** `sigNoArgsStringResult`, the signature `func() string`. */
  const SigNoArgsStringResult: Signature := Signature([], [Basic(String)], false)

  /**
    `types.Identical(sig, sigNoArgsStringResult)` as a record check: no
    parameters, exactly one result and that result the predeclared `string`,
    not variadic. The receiver takes no part, as in `types.Identical`.
   */
  predicate IsNoArgsStringResult(sig: Signature)
    ensures IsNoArgsStringResult(sig) <==> sig == SigNoArgsStringResult
  {
    |sig.params| == 0 && sig.results == [Basic(String)] && !sig.variadic
  }

  /** What `f.Badf` receives: a position and a message. */
  datatype Diagnostic = Diagnostic(pos: Pos, message: string)

  /** `obj.Pkg().Path() + "." + obj.Name()`. */
  function QualifiedName(fn: Func): (q: string)
    ensures |q| == |fn.pkgPath| + 1 + |fn.name|
    ensures q[..|fn.pkgPath|] == fn.pkgPath && q[|fn.pkgPath|] == '.' && q[|fn.pkgPath| + 1..] == fn.name
  {
    fn.pkgPath + "." + fn.name
  }

  /** `result of (<receiver type>).<method> call not used`. */
  function MethodMessage(recvType: string, name: string): (msg: string)
    ensures |msg| == 25 + |recvType| + 2 + |name|
    ensures msg[..11] == "result of (" && msg[|msg| - 14..] == " call not used"
    ensures msg[11..|msg| - 14] == recvType + ")." + name
  {
    "result of (" + recvType + ")." + name + " call not used"
  }

  /** `result of <qualified name> call not used`. */
  function FuncMessage(qname: string): (msg: string)
    ensures |msg| == 24 + |qname|
    ensures msg[..10] == "result of " && msg[|msg| - 14..] == " call not used"
    ensures msg[10..|msg| - 14] == qname
  {
    "result of " + qname + " call not used"
  }

  /** Two function diagnostics have the same text only when they name the same function. */
  lemma FuncMessageInjective(a: string, b: string)
    ensures FuncMessage(a) == FuncMessage(b) <==> a == b
  {
    if FuncMessage(a) == FuncMessage(b) {
      assert a == FuncMessage(a)[10..|FuncMessage(a)| - 14];
    }
  }

  /**
    `checkUnusedResult`. In order: a statement that is not a call, a
    conversion, and a callee that is not a selector are not reported; a
    method value is reported when its signature is `func() string` and its
    name is configured; a selector the type checker recorded no selection for
    is a package-qualified name, reported when it refers to a function whose
    qualified name is configured; any other selection is not reported.
   */
  function CheckUnusedResult(stmt: ExprStmt, info: Info, cfg: Config): (d: Option<Diagnostic>)
    ensures d.Some? ==>
              var call := Unparen(stmt.x);
              && call.CallExpr?
              && d.value.pos == call.lparen
              && Unparen(call.fun).SelectorExpr?
              && !TypeOf(info, Unparen(call.fun)).IsType()
    ensures d.Some? ==>
              d.value.message in
                (set name | name in cfg.unusedFuncs :: FuncMessage(name)) +
                (set s | s in info.selectors.Values && s.MethodVal? && s.fn.name in cfg.unusedStringMethods
                   :: MethodMessage(s.recvType, s.fn.name))
  {
    var call := Unparen(stmt.x);
    if !call.CallExpr? then None
    else
      var fun := Unparen(call.fun);
      if TypeOf(info, fun).IsType() then None
      else if !fun.SelectorExpr? then None
      else if fun in info.selectors && info.selectors[fun].MethodVal? then
        var sel := info.selectors[fun];
        assert sel in info.selectors.Values;
        if IsNoArgsStringResult(sel.fn.sig) && sel.fn.name in cfg.unusedStringMethods then
          Some(Diagnostic(call.lparen, MethodMessage(sel.recvType, sel.fn.name)))
        else None
      else if fun !in info.selectors then
        match UseOf(info, fun.sel)
        case Some(FuncObj(fn)) =>
          var qname := QualifiedName(fn);
          if qname in cfg.unusedFuncs then Some(Diagnostic(call.lparen, FuncMessage(qname))) else None
        case _ => None
      else None
  }

  /** A statement whose expression, unwrapped, is not a call is never reported. */
  lemma NotACallIsNotReported(stmt: ExprStmt, info: Info, cfg: Config)
    requires !Unparen(stmt.x).CallExpr?
    ensures CheckUnusedResult(stmt, info, cfg) == None
  {
  }

  /** A conversion `T(x)` is never reported, whatever either set holds. */
  lemma ConversionIsNotReported(stmt: ExprStmt, info: Info, cfg: Config)
    requires Unparen(stmt.x).CallExpr?
    requires TypeOf(info, Unparen(Unparen(stmt.x).fun)).IsType()
    ensures CheckUnusedResult(stmt, info, cfg) == None
  {
  }

  /** A call `f(x)` through a bare name is never reported, even when that name is configured. */
  lemma UnqualifiedCallIsNotReported(stmt: ExprStmt, info: Info, cfg: Config)
    requires Unparen(stmt.x).CallExpr?
    requires !Unparen(Unparen(stmt.x).fun).SelectorExpr?
    ensures CheckUnusedResult(stmt, info, cfg) == None
  {
  }

  /**
    A call of a method value is reported exactly when the method's signature
    is `func() string` and its name is in the method set, with the message
    naming the receiver type and the method, at the opening parenthesis.
   */
  lemma MethodValueReport(stmt: ExprStmt, info: Info, cfg: Config)
    requires Unparen(stmt.x).CallExpr?
    requires !TypeOf(info, Unparen(Unparen(stmt.x).fun)).IsType()
    requires Unparen(Unparen(stmt.x).fun).SelectorExpr?
    requires Unparen(Unparen(stmt.x).fun) in info.selectors
    requires info.selectors[Unparen(Unparen(stmt.x).fun)].MethodVal?
    ensures var call := Unparen(stmt.x);
            var sel := info.selectors[Unparen(call.fun)];
            var d := CheckUnusedResult(stmt, info, cfg);
            && (d.Some? <==> IsNoArgsStringResult(sel.fn.sig) && sel.fn.name in cfg.unusedStringMethods)
            && (d.Some? ==> d.value == Diagnostic(call.lparen, MethodMessage(sel.recvType, sel.fn.name)))
  {
  }

  /**
    A call through a selector with no recorded selection is reported exactly
    when the selected identifier refers to a function whose qualified name is
    in the function set, with the message naming it, at the opening parenthesis.
   */
  lemma PackageFunctionReport(stmt: ExprStmt, info: Info, cfg: Config)
    requires Unparen(stmt.x).CallExpr?
    requires !TypeOf(info, Unparen(Unparen(stmt.x).fun)).IsType()
    requires Unparen(Unparen(stmt.x).fun).SelectorExpr?
    requires Unparen(Unparen(stmt.x).fun) !in info.selectors
    ensures var call := Unparen(stmt.x);
            var obj := UseOf(info, Unparen(call.fun).sel);
            var d := CheckUnusedResult(stmt, info, cfg);
            && (d.Some? <==> obj.Some? && obj.value.FuncObj? && QualifiedName(obj.value.fn) in cfg.unusedFuncs)
            && (d.Some? ==> d.value == Diagnostic(call.lparen, FuncMessage(QualifiedName(obj.value.fn))))
  {
  }

  /** A selector recorded as a field value or a method expression is never reported. */
  lemma OtherSelectionIsNotReported(stmt: ExprStmt, info: Info, cfg: Config)
    requires Unparen(stmt.x).CallExpr?
    requires Unparen(Unparen(stmt.x).fun) in info.selectors
    requires !info.selectors[Unparen(Unparen(stmt.x).fun)].MethodVal?
    ensures CheckUnusedResult(stmt, info, cfg) == None
  {
  }

  /** Parentheses around the statement's expression or around the callee change nothing. */
  lemma ParenthesesAreTransparent(stmt: ExprStmt, info: Info, cfg: Config, n: nat, lparen: Pos, rparen: Pos)
    ensures CheckUnusedResult(ExprStmt(Parenthesize(stmt.x, n, lparen, rparen)), info, cfg) ==
            CheckUnusedResult(stmt, info, cfg)
    ensures Unparen(stmt.x).CallExpr? ==>
              var call := Unparen(stmt.x);
              var wrapped := CallExpr(Parenthesize(call.fun, n, lparen, rparen), call.lparen, call.args, call.rparen);
              CheckUnusedResult(ExprStmt(wrapped), info, cfg) == CheckUnusedResult(stmt, info, cfg)
  {
    UnparenParenthesize(stmt.x, n, lparen, rparen);
    if Unparen(stmt.x).CallExpr? {
      UnparenParenthesize(Unparen(stmt.x).fun, n, lparen, rparen);
    }
  }

  /** With both sets empty nothing is ever reported. */
  lemma EmptyConfigReportsNothing(stmt: ExprStmt, info: Info)
    ensures CheckUnusedResult(stmt, info, Config({}, {})) == None
  {
  }

  /**
    Adding names to either set never withdraws or changes a diagnostic: the
    decision depends on the configuration only through membership.
   */
  lemma MoreNamesKeepReports(stmt: ExprStmt, info: Info, cfg: Config, wider: Config)
    requires cfg.unusedFuncs <= wider.unusedFuncs
    requires cfg.unusedStringMethods <= wider.unusedStringMethods
    ensures CheckUnusedResult(stmt, info, cfg).Some? ==>
              CheckUnusedResult(stmt, info, wider) == CheckUnusedResult(stmt, info, cfg)
  {
  }
}
