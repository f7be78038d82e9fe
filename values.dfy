/**
  The values that pass through a mock: call arguments, stubbed return values and
  property values, together with the textual description that argument matching
  compares.
 */
module Values {

  /** An optional value; stands in for Swift's `Any?`. */
  datatype Option<+T> = None | Some(value: T)

  /**
    A closed tagged union standing in for Swift's `Any`. Floating-point numbers are
    kept opaque: a `DoubleV` carries only its printed form, and only the printed
    form of an actual Double is a meaningful text.
   */
  datatype Value =
    | BoolV(b: bool)
    | IntV(i: int)
    | DoubleV(text: string)
    | StringV(s: string)
    | CharV(c: char)

  /** The static type a call site expects: the `T` of a generic member. */
  datatype Kind = BoolKind | IntKind | DoubleKind | StringKind | CharKind

  function KindOf(v: Value): Kind
  {
    match v
    case BoolV(_) => BoolKind
    case IntV(_) => IntKind
    case DoubleV(_) => DoubleKind
    case StringV(_) => StringKind
    case CharV(_) => CharKind
  }

  function DigitChar(d: nat): char
    requires d < 10
  {
    "0123456789"[d]
  }

  /** Decimal digits of a natural number. */
  function NatText(n: nat): string
    decreases n
  {
    if n < 10 then [DigitChar(n)] else NatText(n / 10) + [DigitChar(n % 10)]
  }

  function IntText(i: int): string
  {
    if i < 0 then "-" + NatText(-i) else NatText(i)
  }

  /** A string literal's body, with quote and backslash escaped. */
  function Escaped(s: string): string
  {
    if s == [] then []
    else (if s[0] == '"' || s[0] == '\\' then ['\\', s[0]] else [s[0]]) + Escaped(s[1..])
  }

  /** How a value prints inside a collection (its debug description). */
  function ValueText(v: Value): string
  {
    match v
    case BoolV(b) => if b then "true" else "false"
    case IntV(i) => IntText(i)
    case DoubleV(text) => text
    case StringV(s) => "\"" + Escaped(s) + "\""
    // a Character prints exactly like a one-character String
    case CharV(c) => "\"" + Escaped([c]) + "\""
  }

  function ElementText(a: Option<Value>): string
  {
    match a
    case None => "nil"
    case Some(v) => "Optional(" + ValueText(v) + ")"
  }

  function ElementsText(args: seq<Option<Value>>): string
  {
    if args == [] then ""
    else if |args| == 1 then ElementText(args[0])
    else ElementText(args[0]) + ", " + ElementsText(args[1..])
  }

  /**
    The canonical description of an argument list, standing in for
    `String(describing:)` on `[Any?]`. It is deterministic but NOT injective:
    distinct argument lists may share a description.
   */
  function Describe(args: seq<Option<Value>>): string
  {
    "[" + ElementsText(args) + "]"
  }
}
