/**
 * Attribute values as `normalize` (lib/riemann/tools/nut.rb:63-71) produces
 * them, and the Ruby primitives the reports apply to them: `Integer()`,
 * `Float()`, string interpolation and `<`.
 */
module Values {
  import opened Wrappers

  /** A normalised attribute value: an Integer, a Float or the String itself. */
  datatype Value = Int(i: int) | Num(x: real) | Text(s: string)

  /**
   * The parts of the Ruby runtime whose grammar is not modelled: the string
   * parsers behind `Integer(s)` and `Float(s)` (None where Ruby raises
   * ArgumentError) and the decimal rendering of a Float by `Float#to_s`.
   */
  datatype Kernel = Kernel(integer: string -> Option<int>, float: string -> Option<real>, floatToS: real -> string)

  /** The exceptions the core can raise. Only TypeError carries a message the reports use. */
  datatype Exception = TypeError(message: string) | ArgumentError | NoMethodError

  /** `normalize`: an integer if `Integer()` accepts the text, else a float if `Float()` does, else the text. */
  function Normalize(k: Kernel, s: string): (v: Value)
    ensures v.Int? <==> k.integer(s).Some?
    ensures v.Int? ==> v.i == k.integer(s).value
    ensures v.Num? <==> k.integer(s).None? && k.float(s).Some?
    ensures v.Num? ==> v.x == k.float(s).value
    ensures v.Text? <==> k.integer(s).None? && k.float(s).None?
    ensures v.Text? ==> v.s == s
  {
    match k.integer(s)
    case Some(i) => Int(i)
    case None =>
      match k.float(s)
      case Some(x) => Num(x)
      case None => Text(s)
  }

  /** A normalised text value is one `Float()` rejects: normalising is stable. */
  lemma NormalizedTextIsNotFloat(k: Kernel, s: string)
    requires Normalize(k, s).Text?
    ensures k.float(Normalize(k, s).s).None?
    ensures k.integer(Normalize(k, s).s).None?
  {
  }

  function DigitChar(d: nat): (c: char)
    requires d < 10
    ensures '0' <= c <= '9' && c as int - '0' as int == d
  {
    ['0', '1', '2', '3', '4', '5', '6', '7', '8', '9'][d]
  }

  /** The decimal digits of `n`, most significant first, as `Integer#to_s` writes them. */
  function Digits(n: nat): (r: string)
    ensures |r| > 0
    ensures forall j :: 0 <= j < |r| ==> '0' <= r[j] <= '9'
    ensures n > 0 ==> r[0] != '0'
    ensures n == 0 ==> r == "0"
    decreases n
  {
    if n < 10 then [DigitChar(n)] else Digits(n / 10) + [DigitChar(n % 10)]
  }

  /** The number a string of decimal digits denotes. */
  function DecimalValue(s: string): int
  {
    if s == [] then 0 else 10 * DecimalValue(s[..|s| - 1]) + (s[|s| - 1] as int - '0' as int)
  }

  /** Reading the digits back gives the number: `Digits` is a faithful rendering. */
  lemma {:induction false} DigitsRoundTrip(n: nat)
    ensures DecimalValue(Digits(n)) == n
    decreases n
  {
    if n >= 10 {
      DigitsRoundTrip(n / 10);
      var r := Digits(n);
      assert r[..|r| - 1] == Digits(n / 10);
    }
  }

  /** `Integer#to_s`: a minus sign for negative numbers, then the decimal digits. */
  function IntToS(i: int): string
  {
    if i < 0 then "-" + Digits(-i) else Digits(i)
  }

  /** What string interpolation `"#{v}"` writes for a value. */
  function ToS(k: Kernel, v: Value): string
  {
    match v
    case Int(i) => IntToS(i)
    case Num(x) => k.floatToS(x)
    case Text(s) => s
  }

  function AsReal(v: Value): real
    requires !v.Text?
  {
    match v
    case Int(i) => i as real
    case Num(x) => x
  }

  /** Ruby's `String#<`: lexicographic by character. */
  function LexLess(a: string, b: string): bool
  {
    if a == [] then b != []
    else if b == [] then false
    else if a[0] != b[0] then a[0] < b[0]
    else LexLess(a[1..], b[1..])
  }

  lemma {:induction false} LexLessIrreflexive(a: string)
    ensures !LexLess(a, a)
  {
    if a != [] {
      LexLessIrreflexive(a[1..]);
    }
  }

  /**
   * `a < b` where either side may be nil (None): numbers compare by value,
   * strings lexicographically, `nil < x` has no such method, and every other
   * mix fails the comparison with ArgumentError.
   */
  function Less(a: Option<Value>, b: Option<Value>): (r: Result<bool, Exception>)
    ensures a.None? <==> r == Failure(NoMethodError)
    ensures a.Some? && r.Failure? ==> r.error == ArgumentError
    ensures r.Success? <==> a.Some? && b.Some? && a.value.Text? == b.value.Text?
    ensures r.Success? && !a.value.Text? ==> r.value == (AsReal(a.value) < AsReal(b.value))
    ensures r.Success? && a.value.Text? ==> r.value == LexLess(a.value.s, b.value.s)
  {
    match a
    case None => Failure(NoMethodError)
    case Some(x) =>
      match b
      case None => Failure(ArgumentError)
      case Some(y) =>
        if x.Text? && y.Text? then Success(LexLess(x.s, y.s))
        else if !x.Text? && !y.Text? then Success(AsReal(x) < AsReal(y))
        else Failure(ArgumentError)
  }

  /** `Float(v)`: nil is a TypeError, a number converts, a string is parsed. */
  function ToFloat(k: Kernel, v: Option<Value>): (r: Result<real, Exception>)
    ensures v.None? <==> r == Failure(TypeError("can't convert nil into Float"))
    ensures v.Some? && !v.value.Text? ==> r == Success(AsReal(v.value))
    ensures v.Some? && v.value.Text? ==> r == (match k.float(v.value.s) case Some(x) => Success(x) case None => Failure(ArgumentError))
  {
    match v
    case None => Failure(TypeError("can't convert nil into Float"))
    case Some(Int(i)) => Success(i as real)
    case Some(Num(x)) => Success(x)
    case Some(Text(s)) =>
      match k.float(s)
      case Some(x) => Success(x)
      case None => Failure(ArgumentError)
  }
}
