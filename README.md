# Unused-result check, modelled in Dafny

This project models the `unusedresult` pass of a modified `go vet`
(`modified-vet-src/unused.go`). The pass reports call statements that throw away
the result of a function or method whose only purpose is that result.

It has two parts:

- **The configuration loader** (`initUnusedFlags` and its `commaSplit` closure).
  It reads the two flags `-unusedfuncs` and `-unusedstringmethods`. Each is a
  comma-separated list. It produces the set of qualified function names
  (`unusedFuncs`) and the set of method names (`unusedStringMethods`). The empty
  string gives the empty set. A zero-length field is a usage error. The model
  assumes the host's `flag.Usage` exits the process, so an empty field is an
  error outcome that returns no set.
- **The classifier** (`checkUnusedResult`). It takes one expression statement
  and the host's read-only type tables. It returns at most one diagnostic,
  placed at the call's opening parenthesis. The checks run in a fixed order:
  1. not a call;
  2. a conversion;
  3. a callee that is not a selector;
  4. a method value, reported when its signature is `func() string` and its
     name is configured;
  5. a selector with no recorded selection, treated as a package-qualified
     function and reported when `pkgPath.Name` is configured;
  6. any other selection, never reported.

Modules, one per concern:

- `Wrappers`: Option and Result.
- `CommaList`: `strings.Split`/`strings.Join` on `,` and the stray-comma shape.
- `UnusedFlags`: the loader. `CommaSplit` is a loop method proved against the
  specification function `Load`. `InitUnusedFlags` builds both sets.
- `GoAst`: the syntax-tree slice and `unparen`.
- `GoTypes`: the three host tables, `types`, `selectors` and `uses`, as maps.
- `UnusedResult`: the classifier function and one lemma per branch.
- `Fixtures`: statements from `string_test.go` and `pizza_test.go`, plus three
  constructed scenarios: a configured `p.String()`, a configured `Error` method
  returning a defined string type, and the conversion `Pizza(p)`. Each is
  evaluated by `CheckUnusedResult` in lemmas, under the default configuration.

Only a selector that is **absent** from the selections table is treated as a
package-qualified function (`modified-vet-src/unused.go:103`). A selector
recorded as a field value or a method expression is never reported
(`modified-vet-src/unused.go:120-122`), even though it is not a method value.

## Model

| member | source | states |
|---|---|---|
| `CommaList.Split` | modified-vet-src/unused.go:47 | `strings.Split(s, ",")` always yields at least one field, and no field contains a comma |
| `CommaList.JoinSplit` | modified-vet-src/unused.go:47 | joining the split fields with commas gives the original string back |
| `CommaList.SplitAtComma` | modified-vet-src/unused.go:47 | the fields of `a,b` are the fields of `a` followed by the fields of `b` |
| `CommaList.SplitJoin` | modified-vet-src/unused.go:47 | splitting a comma-join of one or more comma-free names gives exactly those names, in order |
| `CommaList.EmptyFieldIffStrayComma` | modified-vet-src/unused.go:47-50 | a non-empty list has a zero-length field if and only if it has a leading, trailing or doubled comma |
| `UnusedFlags.Load` | modified-vet-src/unused.go:45-54 | what `commaSplit` leaves in the set: on success it keeps every entry already in `m`, adds only fields of the list, and never adds the empty name |
| `UnusedFlags.CommaSplit` | modified-vet-src/unused.go:45-54 | the loop over the split fields returns exactly `Load(s, m)`: `m` unchanged for `""`, the usage error at an empty field, otherwise `m` plus every field |
| `UnusedFlags.InitUnusedFlags` | modified-vet-src/unused.go:41-59 | both sets start empty; the result is an error exactly when either flag has a stray comma, else the two configured name sets |
| `UnusedFlags.LoadEmptyString` | modified-vet-src/unused.go:46 | the empty string leaves the set as it was and adds no `""` entry |
| `UnusedFlags.LoadErrorIffStrayComma` | modified-vet-src/unused.go:46-51 | loading gives the usage error if and only if the list has a leading, trailing or doubled comma |
| `UnusedFlags.StrayCommaIsUsageError` | modified-vet-src/unused.go:47-51 | `,b`, `a,` and `a,,b` each give the usage error, whatever `a` and `b` are |
| `UnusedFlags.LoadWellFormed` | modified-vet-src/unused.go:45-53 | a comma-join of non-empty comma-free names loads as exactly the set of those names |
| `UnusedFlags.LoadedNamesAreFields` | modified-vet-src/unused.go:47-52 | every loaded name is non-empty, has no comma and is a field of the list |
| `UnusedFlags.LoadIdempotent` | modified-vet-src/unused.go:51 | loading the same list a second time into the result changes nothing |
| `UnusedFlags.DefaultUnusedFuncsLoad` | modified-vet-src/unused.go:21-23 | the default `-unusedfuncs` loads as its five qualified names, which exclude `fmt.Printf` |
| `UnusedFlags.DefaultUnusedStringMethodsLoad` | modified-vet-src/unused.go:25-27 | the default `-unusedstringmethods` loads as `{Error, String}` |
| `GoAst.Unparen` | modified-vet-src/unused.go:63 | the result is never parenthesised, and an unparenthesised expression is returned unchanged |
| `GoAst.UnparenParenthesize` | modified-vet-src/unused.go:63-68 | any number of enclosing parentheses unwraps to the same expression |
| `GoAst.UnparenIdempotent` | modified-vet-src/unused.go:68 | unwrapping twice is the same as unwrapping once |
| `UnusedResult.IsNoArgsStringResult` | modified-vet-src/unused.go:36-39 | the record check holds exactly for the reference signature `func() string`: no parameters, the single result `string`, not variadic |
| `GoTypes.TypeOf` | modified-vet-src/unused.go:71 | `types[e]` is the recorded entry when there is one, and otherwise the zero `TypeAndValue`, which is not a type |
| `GoTypes.UseOf` | modified-vet-src/unused.go:107 | `uses[id]` is present exactly when `id` has an entry, and is then that entry; a missing entry is nil |
| `UnusedResult.QualifiedName` | modified-vet-src/unused.go:109 | the qualified name is the package path, one `.`, then the function name, each recoverable from its position |
| `UnusedResult.MethodMessage` | modified-vet-src/unused.go:95-96 | the method message is `result of (`, the receiver type, `).`, the method name and ` call not used` |
| `UnusedResult.FuncMessage` | modified-vet-src/unused.go:113 | the function message is `result of `, the qualified name and ` call not used`, with the name recoverable from the text |
| `UnusedResult.FuncMessageInjective` | modified-vet-src/unused.go:113 | two function messages are equal exactly when they name the same qualified name |
| `UnusedResult.CheckUnusedResult` | modified-vet-src/unused.go:61-123 | a diagnostic comes only from a call whose unwrapped callee is a selector and not a type, sits at that call's `Lparen`, and names a configured function or method |
| `UnusedResult.NotACallIsNotReported` | modified-vet-src/unused.go:63-67 | a statement that is not a call once unwrapped yields no diagnostic |
| `UnusedResult.ConversionIsNotReported` | modified-vet-src/unused.go:71-74 | a callee that denotes a type yields no diagnostic under every configuration |
| `UnusedResult.UnqualifiedCallIsNotReported` | modified-vet-src/unused.go:77-81 | a callee that is not a selector yields no diagnostic under every configuration |
| `UnusedResult.MethodValueReport` | modified-vet-src/unused.go:84-102 | a method value is reported if and only if its signature is `func() string` and its name is configured, with `result of (<recv>).<name> call not used` at `Lparen` |
| `UnusedResult.PackageFunctionReport` | modified-vet-src/unused.go:103-119 | a selector absent from the selections is reported if and only if its `uses` entry is a function whose `pkgPath.Name` is configured, with `result of <qname> call not used` at `Lparen` |
| `UnusedResult.OtherSelectionIsNotReported` | modified-vet-src/unused.go:120-122 | a selector recorded as a field value or a method expression yields no diagnostic |
| `UnusedResult.ParenthesesAreTransparent` | modified-vet-src/unused.go:63-68 | parentheses around the statement's expression or around the callee do not change the outcome |
| `UnusedResult.EmptyConfigReportsNothing` | modified-vet-src/unused.go:93-111 | with both sets empty no statement is reported |
| `UnusedResult.MoreNamesKeepReports` | modified-vet-src/unused.go:93-111 | adding configured names never withdraws or changes a diagnostic |
| `Fixtures.DefaultConfig` | modified-vet-src/unused.go:21-27 | the default flag values load as the five function names and `{Error, String}` |
| `Fixtures.SprintfIsReported` | string_test.go:15 | a bare `fmt.Sprintf(...)` is reported as `result of fmt.Sprintf call not used` at its `Lparen` |
| `Fixtures.PrintfIsNotReported` | string_test.go:34 | a bare `fmt.Printf(...)` is not reported under the defaults |
| `Fixtures.BareCallIsNotReported` | string_test.go:24 | a bare call through an unqualified name is never reported |
| `Fixtures.UnconfiguredMethodIsNotReported` | string_test.go:21 | a `func() string` method whose name is not configured is not reported |
| `Fixtures.StringMethodIsReported` | modified-vet-src/unused.go:93-96 | a bare `p.String()` of type `func() string` is reported with its receiver type |
| `Fixtures.OtherSignatureIsNotReported` | pizza_test.go:18 | a method of type `func(string) Pizza` is never reported |
| `Fixtures.DefinedStringResultIsNotReported` | modified-vet-src/unused.go:91 | a configured `Error` method returning a defined string type is not reported, because identity is exact |
| `Fixtures.ConversionIsNeverReported` | modified-vet-src/unused.go:71-74 | a conversion `Pizza(p)` is never reported |

Every path returns `Option<Diagnostic>`, so at most one diagnostic is emitted per
statement (`modified-vet-src/unused.go:61-123`).

## Left out

- Flag definitions and pass registration (`modified-vet-src/unused.go:21-34`). These are driver plumbing. The two raw flag strings are inputs, and their defaults are constants.
- `DefaultUnusedFuncs` and `DefaultUnusedStringMethods` are defined as the comma-join of their name lists. The value is the literal in the source, but the verifier cannot compare string literals that long directly.
- The `fmt.Printf` tracing throughout both functions. It is output only and does not affect the decision.
- `flag.Usage`. It is assumed to exit. The source's `m[name] = true` after it (line 51) is therefore never reached with an empty name. Names added before the empty field are not observable.
- The global maps `unusedFuncs` and `unusedStringMethods`. They are written once at start-up, so they appear as the returned `Config` value. `commaSplit`'s in-place map update appears as a set passed in and a set returned.
- `go/types` internals: how the three tables are filled, `types.Identical`, and how a receiver type is printed. Type identity is the record check on `Signature`. A receiver type is an opaque string in `MethodVal`.
- A function object with no package (`Pkg()` returning nil) would make the source panic at line 109. Every modelled `Func` carries a package path.
- The panicking assertion `n.(*ast.ExprStmt)` at line 63 and the assertions at lines 88 and 89 never fail for a host-supplied `ExprStmt` or `MethodVal` selection. The datatypes make the failing cases unrepresentable.
- `f.Badf` and turning a position into `file:line:col`. These belong to the host's reporting sink. A diagnostic is a (position, message) value.
- `unparen` is defined in another file of vet, not in `unused.go`. It is modelled as stripping every `ParenExpr`.
- Node identity. The host tables are keyed by syntax-tree pointers. Here they are keyed by expression values, and positions keep distinct nodes apart.
- The host traversal, which routes only bare expression statements to the check. Consumed calls never reach it.
- Call arguments. They are carried in `CallExpr` but never inspected, as in the source.
- Byte strings. Go flag values are byte strings, and the model uses `seq<char>`. Splitting at `,` and the `len(name) == 0` test agree on valid UTF-8. A flag value that is not valid UTF-8 cannot be represented.
