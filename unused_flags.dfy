/**
  The configuration of the unused-result check: the two comma-separated flag
  values `-unusedfuncs` and `-unusedstringmethods`, read once at start-up into
  the set of qualified function names and the set of method names whose
  results must be used.

  `flag.Usage()` is taken to end the process (the host's usage handler
  exits), so a list with an empty field is an error outcome and yields no set.
 */
module UnusedFlags {
  import opened Wrappers
  import opened CommaList

  /** The names `-unusedfuncs` lists by default, in order. */
  const DefaultUnusedFuncNames: seq<string> := ["errors.New", "fmt.Errorf", "fmt.Sprintf", "fmt.Sprint", "sort.Reverse"]

  /** Default value of `-unusedfuncs`: "errors.New,fmt.Errorf,fmt.Sprintf,fmt.Sprint,sort.Reverse". */
  const DefaultUnusedFuncs: string := Join(DefaultUnusedFuncNames)

  /** The names `-unusedstringmethods` lists by default, in order. */
  const DefaultUnusedStringMethodNames: seq<string> := ["Error", "String"]

  /** Default value of `-unusedstringmethods`: "Error,String". */
  const DefaultUnusedStringMethods: string := Join(DefaultUnusedStringMethodNames)

  /** The usage error: a configured list has a zero-length entry. */
  datatype ConfigError = Usage

  /** The two sets the check consults: `unusedFuncs` and `unusedStringMethods`. */
  datatype Config = Config(unusedFuncs: set<string>, unusedStringMethods: set<string>)

  function FieldSet(fields: seq<string>): (names: set<string>)
  {
    set f | f in fields
  }

  /** The names a flag value lists: none for the empty string, else its fields. */
  function Names(s: string): (names: set<string>)
  {
    if s == "" then {} else FieldSet(Split(s))
  }

  /**
    What `commaSplit(s, m)` leaves in the set `m`: unchanged for the empty
    string, the usage error when a field is empty, otherwise `m` with every
    field of `s` added.
   */
  function Load(s: string, m: set<string>): (r: Result<set<string>, ConfigError>)
    ensures r.Ok? ==> m <= r.value
    ensures r.Ok? ==> r.value <= m + FieldSet(Split(s))
    ensures r.Ok? ==> "" !in r.value - m
  {
    if s != "" && "" in Split(s) then Err(Usage) else Ok(m + Names(s))
  }

  lemma FieldSetSnoc(fields: seq<string>, f: string)
    ensures FieldSet(fields + [f]) == FieldSet(fields) + {f}
  {
    assert forall g :: g in fields + [f] <==> g in fields || g == f;
  }

  /**
    The `commaSplit` closure: for a non-empty `s`, walk the fields of
    `strings.Split(s, ",")` in order and add each to `m`, stopping with the
    usage error at the first empty one.
   */
  method CommaSplit(s: string, m: set<string>) returns (res: Result<set<string>, ConfigError>)
    ensures res == Load(s, m)
  {
    var acc := m;
    if s != "" {
      var names := Split(s);
      var i := 0;
      while i < |names|
        invariant 0 <= i <= |names|
        invariant "" !in names[..i]
        invariant acc == m + FieldSet(names[..i])
      {
        var name := names[i];
        if |name| == 0 {
          // flag.Usage() does not return
          assert names[i] in names;
          return Err(Usage);
        }
        assert names[..i + 1] == names[..i] + [name];
        FieldSetSnoc(names[..i], name);
        acc := acc + {name};
        i := i + 1;
      }
      assert names[..i] == names;
    } else {
      assert acc + {} == acc;
    }
    return Ok(acc);
  }

  /**
    `initUnusedFlags`: load `-unusedfuncs` and then `-unusedstringmethods`
    into the two sets, each of which starts empty.
   */
  method InitUnusedFlags(unusedFuncsFlag: string, unusedStringMethodsFlag: string)
    returns (res: Result<Config, ConfigError>)
    ensures res.Ok? <==> !StrayComma(unusedFuncsFlag) && !StrayComma(unusedStringMethodsFlag)
    ensures res.Ok? ==> res.value == Config(Names(unusedFuncsFlag), Names(unusedStringMethodsFlag))
  {
    LoadErrorIffStrayComma(unusedFuncsFlag, {});
    LoadErrorIffStrayComma(unusedStringMethodsFlag, {});
    var funcs := CommaSplit(unusedFuncsFlag, {});
    if funcs.Err? {
      return Err(funcs.error);
    }
    var methods := CommaSplit(unusedStringMethodsFlag, {});
    if methods.Err? {
      return Err(methods.error);
    }
    return Ok(Config(funcs.value, methods.value));
  }

  /** The empty string configures nothing: the set is left as it was, with no `""` entry added. */
  lemma LoadEmptyString(m: set<string>)
    ensures Load("", m) == Ok(m)
    ensures "" !in m ==> "" !in Load("", m).value
  {
    assert m + {} == m;
  }

  /** Loading fails exactly for a list with a leading, trailing or doubled comma. */
  lemma LoadErrorIffStrayComma(s: string, m: set<string>)
    ensures Load(s, m).Err? <==> StrayComma(s)
    ensures Load(s, m).Err? ==> Load(s, m) == Err(Usage)
  {
    if s != "" {
      EmptyFieldIffStrayComma(s);
    }
  }

  /** The three malformed shapes, one by one, whatever surrounds the stray comma. */
  lemma StrayCommaIsUsageError(a: string, b: string, m: set<string>)
    ensures Load([Comma] + b, m) == Err(Usage)
    ensures Load(a + [Comma], m) == Err(Usage)
    ensures Load(a + [Comma, Comma] + b, m) == Err(Usage)
  {
    var doubled := a + [Comma, Comma] + b;
    assert doubled[|a|] == Comma && doubled[|a| + 1] == Comma;
    assert StrayComma(doubled);
    LoadErrorIffStrayComma([Comma] + b, m);
    LoadErrorIffStrayComma(a + [Comma], m);
    LoadErrorIffStrayComma(doubled, m);
  }

  /**
    A well-formed list, one or more non-empty comma-free names joined by
    commas, loads as exactly the set of those names.
   */
  lemma LoadWellFormed(names: seq<string>, m: set<string>)
    requires |names| >= 1
    requires forall i :: 0 <= i < |names| ==> names[i] != "" && Comma !in names[i]
    ensures Load(Join(names), m) == Ok(m + FieldSet(names))
  {
    SplitJoin(names);
    assert Split(Join(names))[0] != "";
    assert Split("")[0] == "";
  }

  /** Every loaded name is a non-empty, comma-free field of the list. */
  lemma LoadedNamesAreFields(s: string, r: set<string>)
    requires Load(s, {}) == Ok(r)
    ensures forall x :: x in r ==> x != "" && Comma !in x && x in Split(s)
  {
    forall x | x in r
      ensures x != "" && Comma !in x && x in Split(s)
    {
      var fields := Split(s);
      var i :| 0 <= i < |fields| && fields[i] == x;
    }
  }

  /** Loading the same list a second time changes nothing. */
  lemma LoadIdempotent(s: string, m: set<string>)
    requires Load(s, m).Ok?
    ensures Load(s, Load(s, m).value) == Load(s, m)
  {
  }

  /** A list whose fields are known and non-empty loads as the set of those fields. */
  lemma LoadFields(s: string, fields: seq<string>)
    requires s != "" && Split(s) == fields && "" !in fields
    ensures Load(s, {}) == Ok(FieldSet(fields))
  {
    assert {} + FieldSet(fields) == FieldSet(fields);
  }

  lemma DefaultUnusedFuncNamesWellFormed()
    ensures forall i :: 0 <= i < |DefaultUnusedFuncNames| ==> Comma !in DefaultUnusedFuncNames[i]
    ensures "" !in DefaultUnusedFuncNames
  {
    forall i | 0 <= i < |DefaultUnusedFuncNames|
      ensures Comma !in DefaultUnusedFuncNames[i]
    {
      var n := DefaultUnusedFuncNames[i];
      assert n == "errors.New" || n == "fmt.Errorf" || n == "fmt.Sprintf" || n == "fmt.Sprint" || n == "sort.Reverse";
    }
  }

  lemma DefaultUnusedFuncNamesSet()
    ensures FieldSet(DefaultUnusedFuncNames) ==
            {"errors.New", "fmt.Errorf", "fmt.Sprintf", "fmt.Sprint", "sort.Reverse"}
  {
  }

  lemma DefaultUnusedFuncsSplit()
    ensures Split(DefaultUnusedFuncs) == DefaultUnusedFuncNames
  {
    DefaultUnusedFuncNamesWellFormed();
    SplitJoin(DefaultUnusedFuncNames);
  }

  /** `-unusedfuncs` by default loads as its five names, which do not include `fmt.Printf`. */
  lemma DefaultUnusedFuncsLoad()
    ensures Load(DefaultUnusedFuncs, {}) ==
            Ok({"errors.New", "fmt.Errorf", "fmt.Sprintf", "fmt.Sprint", "sort.Reverse"})
    ensures "fmt.Printf" !in Load(DefaultUnusedFuncs, {}).value
  {
    DefaultUnusedFuncsSplit();
    DefaultUnusedFuncNamesWellFormed();
    LoadFields(DefaultUnusedFuncs, DefaultUnusedFuncNames);
    DefaultUnusedFuncNamesSet();
  }

  /** `-unusedstringmethods` by default loads as `Error` and `String`. */
  lemma DefaultUnusedStringMethodsLoad()
    ensures Load(DefaultUnusedStringMethods, {}) == Ok({"Error", "String"})
  {
    SplitJoin(DefaultUnusedStringMethodNames);
    LoadFields(DefaultUnusedStringMethods, DefaultUnusedStringMethodNames);
    assert FieldSet(DefaultUnusedStringMethodNames) == {"Error", "String"};
  }
}
