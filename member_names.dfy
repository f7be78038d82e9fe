/**
  Member names of a mock. A Bool-typed member whose name contains the marker
  "Called" is not a property: its name, with the first occurrence of the marker
  removed, names the function that is asked about.
 */
module MemberNames {
  import opened Values

  const Marker: string := "Called"

  predicate OccursAt(s: string, pattern: string, i: nat)
  {
    i + |pattern| <= |s| && s[i..i + |pattern|] == pattern
  }

  /** The first position at or after `from` where `pattern` occurs in `s`. */
  function FirstOccurrenceFrom(s: string, pattern: string, from: nat): (r: Option<nat>)
    requires pattern != []
    decreases |s| - from
    ensures r.Some? ==> from <= r.value && OccursAt(s, pattern, r.value)
    ensures r.Some? ==> forall j: nat :: from <= j < r.value ==> !OccursAt(s, pattern, j)
    ensures r.None? ==> forall j: nat :: from <= j ==> !OccursAt(s, pattern, j)
  {
    if from + |pattern| > |s| then None
    else if s[from..from + |pattern|] == pattern then Some(from)
    else FirstOccurrenceFrom(s, pattern, from + 1)
  }

  /** `s.range(of: pattern)`: the first position where `pattern` occurs, if any. */
  function FirstOccurrence(s: string, pattern: string): (r: Option<nat>)
    requires pattern != []
    ensures r.Some? ==> OccursAt(s, pattern, r.value)
    ensures r.Some? ==> forall j: nat :: j < r.value ==> !OccursAt(s, pattern, j)
    ensures r.None? <==> forall j: nat :: !OccursAt(s, pattern, j)
  {
    FirstOccurrenceFrom(s, pattern, 0)
  }

  /** The name with the first occurrence of the marker removed, if it holds one. */
  function StrippedName(input: string): (r: Option<string>)
    ensures r.None? <==> forall j: nat :: !OccursAt(input, Marker, j)
    ensures r.Some? ==> |r.value| == |input| - |Marker|
    ensures r.Some? ==> exists i: nat ::
      && OccursAt(input, Marker, i)
      && (forall j: nat :: j < i ==> !OccursAt(input, Marker, j))
      && r.value == input[..i] + input[i + |Marker|..]
  {
    match FirstOccurrence(input, Marker)
    case None => None
    case Some(i) => Some(input[..i] + input[i + |Marker|..])
  }

  /** A name without a capital C cannot contain the marker. */
  lemma NoCapitalNoMarker(s: string)
    requires 'C' !in s
    ensures forall j: nat :: !OccursAt(s, Marker, j)
  {
    forall j: nat
      ensures !OccursAt(s, Marker, j)
    {
      if j + |Marker| <= |s| {
        assert s[j..j + |Marker|][0] == s[j];
        assert s[j] in s;
      }
    }
  }

  /**
    When `name` does not contain the marker, the first marker of
    `name + "Called" + rest` is the one right after `name`, so stripping gives
    back `name + rest`. (No proper suffix of "Called" is a prefix of it, so no
    occurrence can straddle the end of `name`.)
   */
  lemma StripAfter(name: string, rest: string)
    requires forall j: nat :: !OccursAt(name, Marker, j)
    ensures StrippedName(name + Marker + rest) == Some(name + rest)
  {
    var s := name + Marker + rest;
    var n := |name|;
    assert s[n..n + |Marker|] == Marker;
    forall j: nat | j < n
      ensures !OccursAt(s, Marker, j)
    {
      if j + |Marker| <= n {
        assert s[j..j + |Marker|] == name[j..j + |Marker|];
        assert !OccursAt(name, Marker, j);
      } else {
        assert s[n] == 'C';
        var k := n - j;
        assert 0 < k < |Marker|;
        assert Marker[k] != 'C';
        assert s[j..j + |Marker|][k] == s[n];
      }
    }
    assert OccursAt(s, Marker, n);
    var r := FirstOccurrence(s, Marker);
    assert r.Some?;
    assert !(r.value < n);
    assert !(n < r.value);
    assert s[..n] + s[n + |Marker|..] == name + rest;
  }
}
