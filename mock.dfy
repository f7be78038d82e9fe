/**
  The mock object: an append-only ledger of recorded calls, a store of stubbed
  return values by function name and a store of property values by name.
 */
module SWMock {
  import opened Values
  import opened Ledger
  import opened MemberNames

  class Mock {
    var calls: seq<Call>
    var functionsReturnValues: map<string, Value>
    var propertiesValues: map<string, Value>

    constructor ()
      ensures calls == [] && functionsReturnValues == map[] && propertiesValues == map[]
    {
      calls := [];
      functionsReturnValues := map[];
      propertiesValues := map[];
    }

    /** A Bool read of a name containing "Called" asks about a function instead of a property. */
    static predicate IsCalledQuery(input: string, kind: Kind)
    {
      kind == BoolKind && StrippedName(input).Some?
    }

    /** A read the getter can answer: a "Called" query, or a stored property of the expected type. */
    predicate CanGet(input: string, kind: Kind)
      reads this
    {
      || IsCalledQuery(input, kind)
      || (input in propertiesValues && KindOf(propertiesValues[input]) == kind)
    }

    /**
      The dynamic-member getter with expected type `kind`. A "Called" query
      answers whether any record bears the stripped name; any other read returns
      the stored property. Neither records a call.
     */
    function GetMember(input: string, kind: Kind): (r: Value)
      reads this
      requires CanGet(input, kind)
      ensures KindOf(r) == kind
      ensures IsCalledQuery(input, kind) ==>
        r == BoolV(exists i :: 0 <= i < |calls| && calls[i].name == StrippedName(input).value)
      ensures !IsCalledQuery(input, kind) ==> input in propertiesValues && r == propertiesValues[input]
    {
      if IsCalledQuery(input, kind) then
        BoolV(Called(calls, StrippedName(input).value, None, None))
      else
        propertiesValues[input]
    }

    /**
      The dynamic-member setter: stores the property. A later read of the same
      name with the value's type gives the value back, unless that read is a
      "Called" query.
     */
    method SetMember(input: string, v: Value)
      modifies this`propertiesValues
      ensures propertiesValues == old(propertiesValues)[input := v]
      ensures calls == old(calls) && functionsReturnValues == old(functionsReturnValues)
      ensures !IsCalledQuery(input, KindOf(v)) ==> CanGet(input, KindOf(v)) && GetMember(input, KindOf(v)) == v
    {
      propertiesValues := propertiesValues[input := v];
    }

    /**
      The untyped recorder: appends the call to the ledger, then answers the
      stubbed return value of the function, or nothing when none is configured.
     */
    method Record(functionName: string, args: seq<Argument>) returns (r: Option<Value>)
      modifies this`calls
      ensures calls == old(calls) + [Call(functionName, args)]
      ensures functionsReturnValues == old(functionsReturnValues) && propertiesValues == old(propertiesValues)
      ensures r.Some? <==> functionName in functionsReturnValues
      ensures r.Some? ==> r.value == functionsReturnValues[functionName]
    {
      calls := calls + [Call(functionName, args)];
      r := if functionName in functionsReturnValues then Some(functionsReturnValues[functionName]) else None;
    }

    /**
      The typed recorder: appends the call, then answers the stubbed return
      value, which must exist and be of the expected type (a force cast).
     */
    method RecordTyped(functionName: string, args: seq<Argument>, kind: Kind) returns (r: Value)
      requires functionName in functionsReturnValues && KindOf(functionsReturnValues[functionName]) == kind
      modifies this`calls
      ensures calls == old(calls) + [Call(functionName, args)]
      ensures functionsReturnValues == old(functionsReturnValues) && propertiesValues == old(propertiesValues)
      ensures r == functionsReturnValues[functionName] && KindOf(r) == kind
    {
      calls := calls + [Call(functionName, args)];
      r := functionsReturnValues[functionName];
    }
  }

  /**
    The `<function>Called` shortcut: a Bool read of a function's name followed by
    "Called" is the same as asking, without arguments or count, whether that
    function was called.
   */
  lemma CalledShortcut(m: Mock, functionName: string)
    requires forall j: nat :: !OccursAt(functionName, Marker, j)
    ensures m.CanGet(functionName + Marker, BoolKind)
    ensures m.GetMember(functionName + Marker, BoolKind) == BoolV(Called(m.calls, functionName, None, None))
  {
    StripAfter(functionName, []);
    assert functionName + Marker + [] == functionName + Marker;
  }

  /**
    A Bool property whose name contains "Called" cannot be read back: the read
    is taken for a "Called" query.
   */
  lemma CalledNamedBoolPropertyShadowed(m: Mock, input: string)
    requires StrippedName(input).Some?
    requires input in m.propertiesValues && m.propertiesValues[input] == BoolV(true)
    requires forall i :: 0 <= i < |m.calls| ==> m.calls[i].name != StrippedName(input).value
    ensures m.CanGet(input, BoolKind)
    ensures m.GetMember(input, BoolKind) != m.propertiesValues[input]
  {
  }
}
