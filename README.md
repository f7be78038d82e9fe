# SWMock call-recording and query engine, in Dafny

SWMock is a Swift mocking helper. A `Mock` object keeps three pieces of state:

- `calls`, an append-only ledger of recorded calls, each a function name with its labelled argument list;
- `functionsReturnValues`, the stubbed return value of each function, by name;
- `propertiesValues`, the value of each property, by name.

A mocked member either records a call or reads or writes a property. A call is recorded by one of two delegate
methods. Both append the call to the ledger and then look up the stub. The untyped one answers the stub or
nothing. The typed one force-casts the stub to the type the call site expects. The generic member getter reads a property by name. A Bool read of a name that contains
`"Called"` is handled differently: the first `"Called"` is removed from the name, and the read answers whether
that function was ever called. The member setter stores a property. Tests then query the ledger with
`called(function:with:times:)`, which counts the records with the function's name. When an argument list is
given, a record must also have the same argument description: its argument values, without labels, must
describe as the same text as the given list.

The model is split into five modules:

- `Values` (`values.dfy`): the tagged `Value` type that stands in for `Any`, with `Option` for `Any?`. A `Kind`
  stands for the expected type `T` of a generic member. `Describe` is a deterministic encoder that stands in for
  `String(describing:)` on `[Any?]`. It is given in a Swift-like format, but it is not injective.
- `Ledger` (`ledger.dfy`): the `Call` and `Argument` records and the matching rule. It defines `CountOfCalls` and
  `Called` over the ledger, and the lemmas about them. The queries read only `calls`, so they are functions of
  the ledger.
- `MemberNames` (`member_names.dfy`): the first occurrence of `"Called"` in a member name, and stripping it.
- `SWMock` (`mock.dfy`): the `Mock` class. It holds the three fields, the getter as a function that reads the
  object, and the setter and the two recorders as methods that modify it.
- `ExampleScenario` (`example_scenario.dfy`): the example test. It covers its set-up, the consumer's `use()`, the
  queries that the test asserts, and the property and stub values that the consumer sees.

Three facts about the code shape the model:

- Property reads and writes are not recorded in the ledger: the getter and setter (`SWMock/Mock.swift:48-60`) never
  append.
- A record carries only the function's name and its labelled arguments, with no sequence index
  (`SWMock/Mock.swift:43`).
- The untyped recorder answers nothing for a missing stub instead of failing (`SWMock/Mock.swift:96-98`).

## Model

| member | source | states |
|---|---|---|
| `Ledger.CountOfCalls` | SWMock/Mock.swift:77-88 | The count never exceeds the number of records in the ledger |
| `Ledger.CountIsMatchingIndices` | SWMock/Mock.swift:77-88 | The count equals the number of ledger positions whose record matches the name and, if argument values are given, their description |
| `Ledger.Called` | SWMock/Mock.swift:69-75 | With a count: true exactly when that many records match. Without one: true exactly when some record matches |
| `Ledger.CountPositiveIff` | SWMock/Mock.swift:74 | The count is positive if and only if some record of the ledger matches |
| `Ledger.NameOnlyCount` | SWMock/Mock.swift:78-80 | Without an argument list, the count is the number of records whose name equals the function's name |
| `Ledger.FilteredAtMostNameOnly` | SWMock/Mock.swift:78-87 | Filtering by an argument list never gives more than the name-only count |
| `Ledger.LabelsIgnored` | SWMock/Mock.swift:85-86 | Two ledgers with the same names and the same argument values give the same counts, whatever the argument labels are |
| `Ledger.DescriptionCollision` | SWMock/Mock.swift:86 | Matching compares descriptions and not values: a record with a Character argument matches a query for the one-character String, although the two lists differ |
| `Ledger.StringArgumentMatchesExactly` | SWMock/Mock.swift:81-87 | A query with one String argument matches a record with one String argument if and only if the two strings are equal |
| `Ledger.EscapedInjective` | SWMock/Mock.swift:86 | The escaping inside a String's description maps different strings to different texts |
| `Ledger.SameStringDescription` | SWMock/Mock.swift:86 | Two one-String argument lists with the same description hold the same string |
| `Ledger.RecordedCallIsFound` | SWMock/Mock.swift:94-99 | Once a call is appended, a query for its function answers yes, both by name alone and with the exact argument values it was recorded with |
| `Ledger.CountAppend` | SWMock/Mock.swift:95 | Appending one record adds one to each count that the record matches, and leaves every other count as it was |
| `Ledger.CountConcat` | SWMock/Mock.swift:79-87 | The count over two ledgers joined together is the sum of their counts |
| `Ledger.CalledStaysCalled` | SWMock/Mock.swift:69-75 | Once a function is reported called, records appended later never make it uncalled |
| `MemberNames.FirstOccurrence` | SWMock/Mock.swift:50 | The result is a position where `"Called"` occurs with no earlier occurrence; the result is nothing exactly when it occurs nowhere |
| `MemberNames.StrippedName` | SWMock/Mock.swift:50-52 | A name holds a stripped form exactly when it contains `"Called"`; the stripped form is the name with its first `"Called"` removed, six characters shorter |
| `MemberNames.StripAfter` | SWMock/Mock.swift:50-52 | For a name without `"Called"`, stripping `name + "Called" + rest` gives `name + rest`: the marker right after the name is the first one |
| `SWMock.Mock.constructor` | SWMock/Mock.swift:44-46 | A new mock has an empty ledger and no stubs or properties |
| `SWMock.Mock.GetMember` | SWMock/Mock.swift:48-57 | The result has the expected type. A Bool read of a name containing `"Called"` answers whether some record has the stripped name. Any other read needs a stored property of the expected type and returns it |
| `SWMock.Mock.SetMember` | SWMock/Mock.swift:58-60 | The property map gets `input := v`; the ledger and the stubs are unchanged; a later read of the name with the value's type returns the value, unless that read is a `"Called"` query |
| `SWMock.Mock.Record` | SWMock/Mock.swift:94-99 | The ledger becomes the old ledger plus exactly one record `(function, args)`; both maps are unchanged; the result is the stub of the function, or nothing when none is configured |
| `SWMock.Mock.RecordTyped` | SWMock/Mock.swift:101-106 | Needs a stub of the expected type (the force cast). The ledger gains exactly the one record, both maps are unchanged, and the result is that stub |
| `SWMock.CalledShortcut` | SWMock/Mock.swift:50-53 | For a function name without `"Called"`, the Bool read of `name + "Called"` is defined and equals `called(function: name)` with no arguments and no count |
| `SWMock.CalledNamedBoolPropertyShadowed` | SWMock/Mock.swift:50-56 | A Bool property `true` stored under a name containing `"Called"` reads back differently when no call of the stripped name was recorded: the read is taken as a `"Called"` query |
| `ExampleScenario.SetUp` | SWMockTests/SWMockExampleTests.swift:82-93 | The mock leaves set-up with an empty ledger, the property 64 and the mutable property 32, and the stub 1.2345 |
| `ExampleScenario.Use` | SWMockTests/SWMockExampleTests.swift:61-73 | The consumer reads the configured values of both properties and gets the stub of the returning function; properties and stubs are unchanged; the ledger gains exactly the five calls, in order |
| `ExampleScenario.UseQueries` | SWMockTests/SWMockExampleTests.swift:104-111 | Over the consumer's five calls: two calls without arguments, two by name to the one-argument function, one with each of its two arguments, none with an argument it was not given, and the returning function called |
| `ExampleScenario.ReadShortcut` | SWMockTests/SWMockExampleTests.swift:103 | The `<function>Called` read of a function that has a record in the ledger is true |
| `ExampleScenario.ReadShortcuts` | SWMockTests/SWMockExampleTests.swift:103-113 | After `use()`, the three `<function>Called` reads are true |
| `ExampleScenario.TestMockObject` | SWMockTests/SWMockExampleTests.swift:98-117 | The consumer saw 64, 32 and 1.2345; the three shortcuts are true; the ledger holds exactly the five calls |

## Left out

- `print` diagnostics in the getter and in both recorders: output for the reader only, with no effect on state or results.
- `CallRecorder`, `@dynamicCallable` and `@dynamicMemberLookup` dispatch, and the weak `delegate` back-pointer: `CallRecorder` only forwards a name and its arguments to the mock. The model calls the mock's members directly with a name string.
- Swift runtime type tests and casts (`T.self == Bool.self`, `as! T`): replaced by the `Kind` of the expected type. A failing cast or a missing property is a precondition, because the source crashes there.
- The exact text of `String(describing:)`: `Describe` is a simple encoder in a similar format. Only the facts proved about it are relied on, and it is not assumed to be injective.
- Floating-point values: a `Double` is an opaque `DoubleV` that carries only its printed form. Only the printed form of an actual `Double` is a meaningful text. `DoubleV` accepts any text, so the model admits description collisions that no Swift `Double` produces (for example with `"true"`). The lemmas proved hold for every text.
- Unicode string equivalence: `Ledger.Matches`, `Ledger.CountOfCalls`, `Ledger.Called`, `Ledger.StringArgumentMatchesExactly`, `MemberNames.FirstOccurrence` and `MemberNames.StrippedName` compare strings as sequences of Unicode scalars. Swift's `String ==` uses canonical equivalence, and `range(of:)` searches by Characters. So a record named `"caf\u{E9}"` is counted for the query `"cafe\u{301}"` in Swift but not in the model, and the same holds for String arguments. The model has no Unicode normalisation.
- Optional expected types: `Kind` has no optional kinds, so `SWMock.Mock.GetMember` and `SWMock.Mock.RecordTyped` model only non-optional `T`. With `T = Int?`, the typed recorder's `as! T` on a missing stub gives nil instead of crashing. With `T = Bool?`, a read of a `"…Called"` name reads the property, because `T.self == Bool.self` is false.
- Direct writes to the public `propertiesValues` and `functionsReturnValues` dictionaries: these are field assignments, as in the test's set-up.
- The hand-written `ExampleProtocolMock` forwarding class and the XCTest harness: `Use` performs the forwarded calls directly.
- Verifier and expectation builders, per-call sequence indices, and recording of property accesses: the modelled code has none of them.
