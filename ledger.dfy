/**
  The call ledger of a mock and the queries over it: which recorded calls match a
  function name and, optionally, an argument list, how many there are, and whether
  a function was called (a given number of times).
 */
module Ledger {
  import opened Values

  /** One labelled argument of a recorded call. */
  datatype Argument = Argument(key: string, value: Option<Value>)

  /** One record of the ledger: the function's name and its labelled arguments. */
  datatype Call = Call(name: string, arguments: seq<Argument>)

  /** The argument values of a call, labels dropped, in call-site order. */
  function ArgumentValues(args: seq<Argument>): (r: seq<Option<Value>>)
    ensures |r| == |args|
    ensures forall i :: 0 <= i < |args| ==> r[i] == args[i].value
  {
    seq(|args|, i requires 0 <= i < |args| => args[i].value)
  }

  /**
    The matching rule shared by every query: the name must be equal; when an
    argument list is given, the descriptions of the record's argument values and
    of the given list must be equal.
   */
  predicate Matches(c: Call, functionName: string, args: Option<seq<Option<Value>>>)
  {
    && c.name == functionName
    && (args.Some? ==> Describe(ArgumentValues(c.arguments)) == Describe(args.value))
  }

  /** Reference definition: the positions of the matching records. */
  ghost function MatchingIndices(calls: seq<Call>, functionName: string, args: Option<seq<Option<Value>>>): set<nat>
  {
    set i: nat | i < |calls| && Matches(calls[i], functionName, args)
  }

  /** The number of records that match; `countOfCalls(of:with:)`. */
  function CountOfCalls(calls: seq<Call>, functionName: string, args: Option<seq<Option<Value>>>): (n: nat)
    ensures n <= |calls|
  {
    if calls == [] then 0
    else
      CountOfCalls(calls[..|calls| - 1], functionName, args)
        + if Matches(calls[|calls| - 1], functionName, args) then 1 else 0
  }

  /** Appending a record adds its position to the matching positions exactly when it matches. */
  lemma MatchingIndicesAppend(prefix: seq<Call>, last: Call, functionName: string, args: Option<seq<Option<Value>>>)
    ensures MatchingIndices(prefix + [last], functionName, args)
         == MatchingIndices(prefix, functionName, args) + if Matches(last, functionName, args) then {|prefix|} else {}
  {
    var calls := prefix + [last];
    forall i: nat | i < |prefix|
      ensures calls[i] == prefix[i]
    {
    }
    assert calls[|prefix|] == last;
  }

  /** The count is the number of matching positions of the reference definition. */
  lemma {:induction false} CountIsMatchingIndices(calls: seq<Call>, functionName: string, args: Option<seq<Option<Value>>>)
    ensures CountOfCalls(calls, functionName, args) == |MatchingIndices(calls, functionName, args)|
  {
    if calls != [] {
      var prefix, last := calls[..|calls| - 1], calls[|calls| - 1];
      assert calls == prefix + [last];
      MatchingIndicesAppend(prefix, last, functionName, args);
      assert |prefix| !in MatchingIndices(prefix, functionName, args);
      CountIsMatchingIndices(prefix, functionName, args);
    }
  }

  /** A positive count means some record matches, and conversely. */
  lemma CountPositiveIff(calls: seq<Call>, functionName: string, args: Option<seq<Option<Value>>>)
    ensures CountOfCalls(calls, functionName, args) > 0
        <==> exists i :: 0 <= i < |calls| && Matches(calls[i], functionName, args)
  {
    CountIsMatchingIndices(calls, functionName, args);
    var matching := MatchingIndices(calls, functionName, args);
    if exists i :: 0 <= i < |calls| && Matches(calls[i], functionName, args) {
      var i :| 0 <= i < |calls| && Matches(calls[i], functionName, args);
      assert i in matching;
    }
    if |matching| > 0 {
      var i :| i in matching;
      assert 0 <= i < |calls| && Matches(calls[i], functionName, args);
    }
  }

  /**
    `called(function:with:times:)`: with a count, whether exactly that many records
    match; without one, whether any record matches.
   */
  function Called(calls: seq<Call>, functionName: string, args: Option<seq<Option<Value>>>, times: Option<int>): (r: bool)
    ensures times.None? ==> (r <==> exists i :: 0 <= i < |calls| && Matches(calls[i], functionName, args))
    ensures times.Some? ==> (r <==> |MatchingIndices(calls, functionName, args)| == times.value)
  {
    CountPositiveIff(calls, functionName, args);
    CountIsMatchingIndices(calls, functionName, args);
    var count := CountOfCalls(calls, functionName, args);
    if times.Some? then count == times.value else count > 0
  }

  /** Recording one more call adds one to every count that call matches, and nothing to the others. */
  lemma {:induction false} CountAppend(calls: seq<Call>, c: Call, functionName: string, args: Option<seq<Option<Value>>>)
    ensures CountOfCalls(calls + [c], functionName, args)
         == CountOfCalls(calls, functionName, args) + if Matches(c, functionName, args) then 1 else 0
  {
    assert (calls + [c])[..|calls|] == calls;
  }

  /**
    Once a call is recorded, asking for its function is answered yes, both by
    name alone and by the very argument values it was called with.
   */
  lemma RecordedCallIsFound(calls: seq<Call>, functionName: string, args: seq<Argument>)
    ensures Called(calls + [Call(functionName, args)], functionName, None, None)
    ensures Called(calls + [Call(functionName, args)], functionName, Some(ArgumentValues(args)), None)
  {
    var after := calls + [Call(functionName, args)];
    assert Matches(after[|calls|], functionName, None);
    assert Matches(after[|calls|], functionName, Some(ArgumentValues(args)));
  }

  /** Counting distributes over concatenated ledgers. */
  lemma {:induction false} CountConcat(xs: seq<Call>, ys: seq<Call>, functionName: string, args: Option<seq<Option<Value>>>)
    ensures CountOfCalls(xs + ys, functionName, args)
         == CountOfCalls(xs, functionName, args) + CountOfCalls(ys, functionName, args)
  {
    if ys == [] {
      assert xs + ys == xs;
    } else {
      var init := ys[..|ys| - 1];
      var last := ys[|ys| - 1];
      CountConcat(xs, init, functionName, args);
      assert xs + ys == (xs + init) + [last];
      CountAppend(xs + init, last, functionName, args);
      CountAppend(init, last, functionName, args);
      assert ys == init + [last];
    }
  }

  /** Calls recorded later never make an earlier positive answer negative. */
  lemma CalledStaysCalled(xs: seq<Call>, ys: seq<Call>, functionName: string, args: Option<seq<Option<Value>>>)
    requires Called(xs, functionName, args, None)
    ensures Called(xs + ys, functionName, args, None)
  {
    CountConcat(xs, ys, functionName, args);
    CountPositiveIff(xs, functionName, args);
    CountPositiveIff(xs + ys, functionName, args);
  }

  /** Without an argument filter, the count is the number of records with that name. */
  lemma NameOnlyCount(calls: seq<Call>, functionName: string)
    ensures CountOfCalls(calls, functionName, None) == |set i: nat | i < |calls| && calls[i].name == functionName|
  {
    CountIsMatchingIndices(calls, functionName, None);
    assert MatchingIndices(calls, functionName, None) == set i: nat | i < |calls| && calls[i].name == functionName;
  }

  /** Filtering by arguments can only lower the count. */
  lemma {:induction false} FilteredAtMostNameOnly(calls: seq<Call>, functionName: string, args: seq<Option<Value>>)
    ensures CountOfCalls(calls, functionName, Some(args)) <= CountOfCalls(calls, functionName, None)
  {
    if calls != [] {
      FilteredAtMostNameOnly(calls[..|calls| - 1], functionName, args);
    }
  }

  /** Argument labels take no part in matching: relabelled ledgers give the same counts. */
  lemma {:induction false} LabelsIgnored(xs: seq<Call>, ys: seq<Call>, functionName: string, args: Option<seq<Option<Value>>>)
    requires |xs| == |ys|
    requires forall i :: 0 <= i < |xs| ==> xs[i].name == ys[i].name
    requires forall i :: 0 <= i < |xs| ==> ArgumentValues(xs[i].arguments) == ArgumentValues(ys[i].arguments)
    ensures CountOfCalls(xs, functionName, args) == CountOfCalls(ys, functionName, args)
  {
    if xs != [] {
      var n := |xs| - 1;
      assert Matches(xs[n], functionName, args) == Matches(ys[n], functionName, args);
      LabelsIgnored(xs[..n], ys[..n], functionName, args);
    }
  }

  /**
    Matching compares descriptions, not values: a recorded Character argument
    matches a query for the one-character String with the same text.
   */
  lemma DescriptionCollision()
    ensures [Some(CharV('a'))] != [Some(StringV("a"))]
    ensures CountOfCalls([Call("f", [Argument("x", Some(CharV('a')))])], "f", Some([Some(StringV("a"))])) == 1
  {
    var c := Call("f", [Argument("x", Some(CharV('a')))]);
    assert ArgumentValues(c.arguments) == [Some(CharV('a'))];
    assert Matches(c, "f", Some([Some(StringV("a"))]));
    assert [c][..0] == [];
  }

  /** Escaping never maps two strings to the same text. */
  lemma {:induction false} EscapedInjective(s: string, t: string)
    requires Escaped(s) == Escaped(t)
    ensures s == t
  {
    if s == [] || t == [] {
      assert |Escaped(s)| == 0 || |Escaped(t)| == 0;
      EscapedLength(s);
      EscapedLength(t);
    } else {
      var es, et := Escaped(s), Escaped(t);
      var k := if s[0] == '"' || s[0] == '\\' then 2 else 1;
      var l := if t[0] == '"' || t[0] == '\\' then 2 else 1;
      assert es[k..] == Escaped(s[1..]);
      assert et[l..] == Escaped(t[1..]);
      assert k == l && s[0] == t[0] by {
        if k == 2 { assert es[0] == '\\' && es[1] == s[0]; }
        if l == 2 { assert et[0] == '\\' && et[1] == t[0]; }
      }
      EscapedInjective(s[1..], t[1..]);
      assert s == [s[0]] + s[1..] && t == [t[0]] + t[1..];
    }
  }

  lemma {:induction false} EscapedLength(s: string)
    ensures |Escaped(s)| >= |s|
  {
    if s != [] {
      EscapedLength(s[1..]);
    }
  }

  /** Equal texts with a common prefix and suffix are equal in between. */
  lemma CancelAround(p: string, x: string, y: string, q: string)
    requires p + x + q == p + y + q
    ensures x == y
  {
    var lx, ly := p + x + q, p + y + q;
    assert |x| == |y|;
    assert x == lx[|p|..|p| + |x|];
    assert y == ly[|p|..|p| + |y|];
  }

  /** The description of a one-element list holding a String, layer by layer. */
  lemma SingleStringDescription(s: string)
    ensures Describe([Some(StringV(s))]) == "[" + ("Optional(" + ("\"" + Escaped(s) + "\"") + ")") + "]"
  {
  }

  /** Two one-String lists with the same description hold the same string. */
  lemma SameStringDescription(s: string, t: string)
    requires Describe([Some(StringV(s))]) == Describe([Some(StringV(t))])
    ensures s == t
  {
    SingleStringDescription(s);
    SingleStringDescription(t);
    var quotedS, quotedT := "\"" + Escaped(s) + "\"", "\"" + Escaped(t) + "\"";
    CancelAround("[", "Optional(" + quotedS + ")", "Optional(" + quotedT + ")", "]");
    CancelAround("Optional(", quotedS, quotedT, ")");
    CancelAround("\"", Escaped(s), Escaped(t), "\"");
    EscapedInjective(s, t);
  }

  /**
    A query with one String argument matches a record with one String argument
    exactly when the two strings are equal.
   */
  lemma StringArgumentMatchesExactly(c: Call, functionName: string, key: string, s: string, t: string)
    requires c == Call(functionName, [Argument(key, Some(StringV(s)))])
    ensures Matches(c, functionName, Some([Some(StringV(t))])) <==> s == t
  {
    assert ArgumentValues(c.arguments) == [Some(StringV(s))];
    if Describe([Some(StringV(s))]) == Describe([Some(StringV(t))]) {
      SameStringDescription(s, t);
    }
  }
}
