/**
  Comma-separated lists: Go's `strings.Split(s, ",")`, which the flag loader
  calls, its inverse `strings.Join(fields, ",")`, and the shape of a list that
  has an empty field.
 */
module CommaList {

  const Comma: char := ','

  /**
    `strings.Split(s, ",")`: the maximal comma-free pieces of `s`, in order.
    There is always one more field than there are commas, so the empty string
    splits into one empty field.
   */
  function Split(s: string): (fields: seq<string>)
    ensures |fields| >= 1
    ensures forall i :: 0 <= i < |fields| ==> Comma !in fields[i]
    decreases |s|
  {
    if s == [] then [""]
    else
      var rest := Split(s[1..]);
      if s[0] == Comma then [""] + rest
      else [[s[0]] + rest[0]] + rest[1..]
  }

  /** `strings.Join(fields, ",")`. */
  function Join(fields: seq<string>): (s: string)
  {
    if |fields| == 0 then ""
    else if |fields| == 1 then fields[0]
    else fields[0] + [Comma] + Join(fields[1..])
  }

  /** A list with a leading, a trailing or a doubled comma. */
  predicate StrayComma(s: string)
  {
    |s| > 0 &&
    (s[0] == Comma || s[|s| - 1] == Comma ||
     exists i :: 0 <= i < |s| - 1 && s[i] == Comma && s[i + 1] == Comma)
  }

  /** Joining the fields of a split gives the string back. */
  lemma {:induction false} JoinSplit(s: string)
    ensures Join(Split(s)) == s
    decreases |s|
  {
    if s != [] {
      var rest := Split(s[1..]);
      JoinSplit(s[1..]);
      if s[0] != Comma && |rest| > 1 {
        assert Join(rest) == rest[0] + [Comma] + Join(rest[1..]);
        assert ([[s[0]] + rest[0]] + rest[1..])[1..] == rest[1..];
      }
    }
  }

  /** Splitting distributes over a comma: the fields of `a,b` are those of `a` followed by those of `b`. */
  lemma {:induction false} SplitAtComma(a: string, b: string)
    ensures Split(a + [Comma] + b) == Split(a) + Split(b)
    decreases |a|
  {
    var s := a + [Comma] + b;
    if a == [] {
      assert s == [Comma] + b;
      assert s[1..] == b;
    } else {
      assert s[0] == a[0];
      assert s[1..] == a[1..] + [Comma] + b;
      SplitAtComma(a[1..], b);
    }
  }

  /** A comma-free string is a single field. */
  lemma {:induction false} SplitSingle(w: string)
    requires Comma !in w
    ensures Split(w) == [w]
    decreases |w|
  {
    if w != [] {
      assert w[0] in w;
      assert forall c :: c in w[1..] ==> c in w;
      SplitSingle(w[1..]);
      assert [w[0]] + w[1..] == w;
    }
  }

  /** Splitting a join of comma-free fields gives the fields back. */
  lemma {:induction false} SplitJoin(fields: seq<string>)
    requires |fields| >= 1
    requires forall i :: 0 <= i < |fields| ==> Comma !in fields[i]
    ensures Split(Join(fields)) == fields
    decreases |fields|
  {
    SplitSingle(fields[0]);
    if |fields| > 1 {
      SplitJoin(fields[1..]);
      SplitAtComma(fields[0], Join(fields[1..]));
      assert [fields[0]] + fields[1..] == fields;
    }
  }

  /** Joining two non-empty field lists puts one comma between their joins. */
  lemma {:induction false} JoinAppend(a: seq<string>, b: seq<string>)
    requires |a| >= 1 && |b| >= 1
    ensures Join(a + b) == Join(a) + [Comma] + Join(b)
    decreases |a|
  {
    assert (a + b)[0] == a[0];
    assert (a + b)[1..] == a[1..] + b;
    if |a| > 1 {
      JoinAppend(a[1..], b);
    }
  }

  /**
    A non-empty list has an empty field exactly when it has a leading,
    trailing or doubled comma.
   */
  lemma EmptyFieldIffStrayComma(s: string)
    requires s != ""
    ensures "" in Split(s) <==> StrayComma(s)
  {
    if StrayComma(s) {
      StrayCommaGivesEmptyField(s);
    }
    if "" in Split(s) {
      EmptyFieldGivesStrayComma(s);
    }
  }

  lemma StrayCommaGivesEmptyField(s: string)
    requires StrayComma(s)
    ensures "" in Split(s)
  {
    if s[0] == Comma {
      assert Split(s)[0] == "";
    } else if s[|s| - 1] == Comma {
      var a := s[..|s| - 1];
      assert s == a + [Comma] + [];
      SplitAtComma(a, []);
      assert Split(s)[|Split(s)| - 1] == "";
    } else {
      var i :| 0 <= i < |s| - 1 && s[i] == Comma && s[i + 1] == Comma;
      var a, b := s[..i], s[i + 2..];
      assert s == a + [Comma] + ([Comma] + b);
      SplitAtComma(a, [Comma] + b);
      SplitAtComma([], b);
      assert [] + [Comma] + b == [Comma] + b;
      assert Split(s) == Split(a) + ([""] + Split(b));
      assert Split(s)[|Split(a)|] == "";
    }
  }

  lemma EmptyFieldGivesStrayComma(s: string)
    requires s != ""
    requires "" in Split(s)
    ensures StrayComma(s)
  {
    var fields := Split(s);
    JoinSplit(s);
    var k :| 0 <= k < |fields| && fields[k] == "";
    if k == 0 {
      FirstFieldEmpty(fields);
    } else if k == |fields| - 1 {
      LastFieldEmpty(fields);
    } else {
      InnerFieldEmpty(fields, k);
    }
  }

  lemma FirstFieldEmpty(fields: seq<string>)
    requires |fields| >= 1 && fields[0] == "" && Join(fields) != ""
    ensures Join(fields)[0] == Comma
  {
    assert fields == [""] + fields[1..];
    JoinAppend([""], fields[1..]);
  }

  lemma LastFieldEmpty(fields: seq<string>)
    requires |fields| >= 2 && fields[|fields| - 1] == ""
    ensures |Join(fields)| > 0 && Join(fields)[|Join(fields)| - 1] == Comma
  {
    var k := |fields| - 1;
    assert fields == fields[..k] + [""];
    JoinAppend(fields[..k], [""]);
  }

  lemma InnerFieldEmpty(fields: seq<string>, k: nat)
    requires 0 < k < |fields| - 1 && fields[k] == ""
    ensures StrayComma(Join(fields))
  {
    var left, right := fields[..k], fields[k + 1..];
    assert fields == left + ([""] + right);
    JoinAppend(left, [""] + right);
    JoinAppend([""], right);
    assert Join([""] + right) == [Comma] + Join(right);
    DoubledComma(Join(left), Join(right));
  }

  lemma DoubledComma(a: string, b: string)
    ensures StrayComma(a + [Comma] + ([Comma] + b))
  {
    var s := a + [Comma] + ([Comma] + b);
    assert s[|a|] == Comma && s[|a| + 1] == Comma;
  }
}
