/**
  The example test: a mock of a protocol with two Int properties, a function
  without arguments, a function with one String argument and a function
  returning a Double, driven by a consumer that uses each member once (the
  argument-less function twice, the one-argument function with two arguments).
 */
module ExampleScenario {
  import opened Values
  import opened Ledger
  import opened MemberNames
  import opened SWMock

  /** The calls the consumer's `use()` makes, in order. */
  function UseCalls(): seq<Call>
  {
    [ Call("exampleFunctionWithoutArguments", []),
      Call("exampleFunctionWithoutArguments", []),
      Call("exampleFunction", [Argument("with", Some(StringV("example argument")))]),
      Call("exampleFunction", [Argument("with", Some(StringV("another argument")))]),
      Call("exampleFunctionWithReturnValue", []) ]
  }

  /** The consumer's `use()`, with every protocol member forwarded to the mock. */
  method Use(m: Mock) returns (propertyValue: Value, mutablePropertyValue: Value, functionReturnValue: Value)
    requires "exampleProperty" in m.propertiesValues && m.propertiesValues["exampleProperty"].IntV?
    requires "exampleMutableProperty" in m.propertiesValues && m.propertiesValues["exampleMutableProperty"].IntV?
    requires "exampleFunctionWithReturnValue" in m.functionsReturnValues
    requires m.functionsReturnValues["exampleFunctionWithReturnValue"].DoubleV?
    modifies m
    ensures propertyValue == old(m.propertiesValues["exampleProperty"])
    ensures mutablePropertyValue == old(m.propertiesValues["exampleMutableProperty"])
    ensures functionReturnValue == old(m.functionsReturnValues["exampleFunctionWithReturnValue"])
    ensures m.propertiesValues == old(m.propertiesValues)
    ensures m.functionsReturnValues == old(m.functionsReturnValues)
    ensures m.calls == old(m.calls) + UseCalls()
  {
    propertyValue := m.GetMember("exampleProperty", IntKind);
    mutablePropertyValue := m.GetMember("exampleMutableProperty", IntKind);
    var _ := m.Record("exampleFunctionWithoutArguments", []);
    var _ := m.Record("exampleFunctionWithoutArguments", []);
    var _ := m.Record("exampleFunction", [Argument("with", Some(StringV("example argument")))]);
    var _ := m.Record("exampleFunction", [Argument("with", Some(StringV("another argument")))]);
    functionReturnValue := m.RecordTyped("exampleFunctionWithReturnValue", [], DoubleKind);
  }

  /** The count over a ledger of five calls, one call at a time. */
  lemma CountOfFive(cs: seq<Call>, functionName: string, args: Option<seq<Option<Value>>>)
    requires |cs| == 5
    ensures CountOfCalls(cs, functionName, args)
         == (if Matches(cs[0], functionName, args) then 1 else 0)
          + (if Matches(cs[1], functionName, args) then 1 else 0)
          + (if Matches(cs[2], functionName, args) then 1 else 0)
          + (if Matches(cs[3], functionName, args) then 1 else 0)
          + (if Matches(cs[4], functionName, args) then 1 else 0)
  {
    CountAppend([], cs[0], functionName, args);
    CountAppend(cs[..1], cs[1], functionName, args);
    CountAppend(cs[..2], cs[2], functionName, args);
    CountAppend(cs[..3], cs[3], functionName, args);
    CountAppend(cs[..4], cs[4], functionName, args);
    assert [] + [cs[0]] == cs[..1];
    assert cs[..1] + [cs[1]] == cs[..2];
    assert cs[..2] + [cs[2]] == cs[..3];
    assert cs[..3] + [cs[3]] == cs[..4];
    assert cs[..4] + [cs[4]] == cs;
  }

  /**
    The test's queries over the consumer's calls: each function by name with its
    count, and the one-argument function by each argument it was given and by
    one it was not.
   */
  lemma UseQueries()
    ensures Called(UseCalls(), "exampleFunctionWithoutArguments", None, None)
    ensures Called(UseCalls(), "exampleFunctionWithoutArguments", None, Some(2))
    ensures Called(UseCalls(), "exampleFunction", None, None)
    ensures Called(UseCalls(), "exampleFunction", None, Some(2))
    ensures Called(UseCalls(), "exampleFunction", Some([Some(StringV("example argument"))]), None)
    ensures Called(UseCalls(), "exampleFunction", Some([Some(StringV("example argument"))]), Some(1))
    ensures Called(UseCalls(), "exampleFunction", Some([Some(StringV("another argument"))]), None)
    ensures Called(UseCalls(), "exampleFunction", Some([Some(StringV("another argument"))]), Some(1))
    ensures !Called(UseCalls(), "exampleFunction", Some([Some(StringV("unused argument"))]), None)
    ensures Called(UseCalls(), "exampleFunctionWithReturnValue", None, None)
  {
    var cs := UseCalls();
    var withoutArgs, oneArgument := "exampleFunctionWithoutArguments", "exampleFunction";
    var example, another, unused := "example argument", "another argument", "unused argument";
    assert example[0] != another[0] && example[0] != unused[0] && another[0] != unused[0];
    StringArgumentMatchesExactly(cs[2], oneArgument, "with", example, example);
    StringArgumentMatchesExactly(cs[2], oneArgument, "with", example, another);
    StringArgumentMatchesExactly(cs[2], oneArgument, "with", example, unused);
    StringArgumentMatchesExactly(cs[3], oneArgument, "with", another, another);
    StringArgumentMatchesExactly(cs[3], oneArgument, "with", another, example);
    StringArgumentMatchesExactly(cs[3], oneArgument, "with", another, unused);
    CountOfFive(cs, withoutArgs, None);
    CountOfFive(cs, oneArgument, None);
    CountOfFive(cs, oneArgument, Some([Some(StringV(example))]));
    CountOfFive(cs, oneArgument, Some([Some(StringV(another))]));
    CountOfFive(cs, oneArgument, Some([Some(StringV(unused))]));
    assert Matches(cs[0], withoutArgs, None);
    assert Matches(cs[2], oneArgument, None);
    assert Matches(cs[4], "exampleFunctionWithReturnValue", None);
  }

  /**
    The test's read of `<function>Called`: a function with a record in the
    ledger (at position `at`) reads as called.
   */
  method ReadShortcut(m: Mock, functionName: string, ghost at: nat) returns (r: Value)
    requires forall j: nat :: !OccursAt(functionName, Marker, j)
    requires at < |m.calls| && m.calls[at].name == functionName
    ensures r == BoolV(true)
  {
    CalledShortcut(m, functionName);
    r := m.GetMember(functionName + Marker, BoolKind);
  }

  /** None of the consumer's function names contains the marker. */
  lemma UseNamesHaveNoMarker()
    ensures forall j: nat :: !OccursAt("exampleFunctionWithoutArguments", Marker, j)
    ensures forall j: nat :: !OccursAt("exampleFunction", Marker, j)
    ensures forall j: nat :: !OccursAt("exampleFunctionWithReturnValue", Marker, j)
  {
    NoCapitalNoMarker("exampleFunctionWithoutArguments");
    NoCapitalNoMarker("exampleFunction");
    NoCapitalNoMarker("exampleFunctionWithReturnValue");
  }

  /** The test's three `<function>Called` reads after `use()`. */
  method ReadShortcuts(m: Mock) returns (withoutArgumentsCalled: Value, functionCalled: Value, withReturnValueCalled: Value)
    requires m.calls == UseCalls()
    ensures withoutArgumentsCalled == BoolV(true)
    ensures functionCalled == BoolV(true)
    ensures withReturnValueCalled == BoolV(true)
  {
    UseNamesHaveNoMarker();
    withoutArgumentsCalled := ReadShortcut(m, "exampleFunctionWithoutArguments", 0);
    functionCalled := ReadShortcut(m, "exampleFunction", 2);
    withReturnValueCalled := ReadShortcut(m, "exampleFunctionWithReturnValue", 4);
  }

  /** The test's `setUp()`: a fresh mock with its two properties and one return value configured. */
  method SetUp() returns (m: Mock)
    ensures fresh(m)
    ensures m.calls == []
    ensures m.propertiesValues == map["exampleProperty" := IntV(64), "exampleMutableProperty" := IntV(32)]
    ensures m.functionsReturnValues == map["exampleFunctionWithReturnValue" := DoubleV("1.2345")]
  {
    m := new Mock();
    m.propertiesValues := m.propertiesValues["exampleProperty" := IntV(64)];
    m.SetMember("exampleMutableProperty", IntV(32));
    m.functionsReturnValues := m.functionsReturnValues["exampleFunctionWithReturnValue" := DoubleV("1.2345")];
  }

  /**
    The test: what the consumer observed, the answers of the "Called" shortcuts,
    and the ledger, which holds five calls.
   */
  method TestMockObject() returns (
      propertyValue: Value, mutablePropertyValue: Value, functionReturnValue: Value,
      withoutArgumentsCalled: Value, functionCalled: Value, withReturnValueCalled: Value,
      ledger: seq<Call>)
    ensures propertyValue == IntV(64)
    ensures mutablePropertyValue == IntV(32)
    ensures functionReturnValue == DoubleV("1.2345")
    ensures withoutArgumentsCalled == BoolV(true)
    ensures functionCalled == BoolV(true)
    ensures withReturnValueCalled == BoolV(true)
    ensures ledger == UseCalls() && |ledger| == 5
  {
    var m := SetUp();
    propertyValue, mutablePropertyValue, functionReturnValue := Use(m);
    assert m.calls == UseCalls();
    withoutArgumentsCalled, functionCalled, withReturnValueCalled := ReadShortcuts(m);
    ledger := m.calls;
  }
}
