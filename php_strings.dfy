/**
 * The few PHP string operations the core relies on: `str_starts_with`,
 * `substr`, the `(int)` cast, `is_numeric` on integer strings, PHP truthiness
 * of strings and `explode('/', ...)[0]`.
 */
module PhpStrings {
  import opened Wrappers

  predicate StartsWith(s: string, prefix: string) {
    |prefix| <= |s| && s[..|prefix|] == prefix
  }

  /** `substr($s, $n)` for a non-negative start: the empty string past the end. */
  function Substr(s: string, n: nat): (r: string)
    ensures n <= |s| ==> s == s[..n] + r
    ensures n >= |s| ==> r == ""
  {
    if n <= |s| then s[n..] else ""
  }

  /** A string is falsy in PHP when it is "" or "0". */
  predicate Falsy(s: string) {
    s == "" || s == "0"
  }

  /** A nullable string column used in an `if ($x)` test. */
  predicate Truthy(o: Option<string>) {
    o.Some? && !Falsy(o.value)
  }

  predicate IsDigit(c: char) {
    '0' <= c <= '9'
  }

  function DigitValue(c: char): (d: nat)
    requires IsDigit(c)
    ensures d < 10
  {
    (c as int - '0' as int) as nat
  }

  /** The number of leading decimal digits of `s`. */
  function LeadingDigits(s: string): (n: nat)
    ensures n <= |s|
    ensures forall i :: 0 <= i < n ==> IsDigit(s[i])
    ensures n < |s| ==> !IsDigit(s[n])
  {
    if s == [] || !IsDigit(s[0]) then 0 else 1 + LeadingDigits(s[1..])
  }

  /** The value of a string of decimal digits, most significant first. */
  function DecimalValue(s: string): nat
    requires forall i :: 0 <= i < |s| ==> IsDigit(s[i])
  {
    if s == [] then 0 else 10 * DecimalValue(s[..|s| - 1]) + DigitValue(s[|s| - 1])
  }

  /**
   * PHP's `(int)` cast of a string: an optional sign followed by the
   * longest run of leading digits; a string that does not start that way
   * casts to 0. Leading white space is not modelled.
   */
  function IntCast(s: string): int {
    if |s| > 0 && (s[0] == '-' || s[0] == '+') then
      var rest := s[1..];
      var v: int := DecimalValue(rest[..LeadingDigits(rest)]);
      if s[0] == '-' then -v else v
    else
      DecimalValue(s[..LeadingDigits(s)])
  }

  /** `is_numeric` restricted to integer strings: an optional sign and at least one digit, nothing else. */
  predicate IsIntegerString(s: string) {
    var body := if |s| > 0 && (s[0] == '-' || s[0] == '+') then s[1..] else s;
    |body| > 0 && LeadingDigits(body) == |body|
  }

  /** The decimal rendering of a natural number, without leading zeros. */
  function NatToString(n: nat): (r: string)
    ensures |r| > 0
    ensures forall i :: 0 <= i < |r| ==> IsDigit(r[i])
  {
    var last := ['0' + (n % 10) as char];
    if n < 10 then last else NatToString(n / 10) + last
  }

  lemma {:induction false} DecimalValueOfNatToString(n: nat)
    ensures DecimalValue(NatToString(n)) == n
  {
    var r := NatToString(n);
    var last := ['0' + (n % 10) as char];
    if n >= 10 {
      DecimalValueOfNatToString(n / 10);
      assert r == NatToString(n / 10) + last;
      assert r[..|r| - 1] == NatToString(n / 10);
    }
  }

  /** The `(int)` cast reads back every rendered natural number. */
  lemma IntCastOfNatToString(n: nat)
    ensures IntCast(NatToString(n)) == n
  {
    var r := NatToString(n);
    assert LeadingDigits(r) == |r| by { LeadingDigitsOfDigits(r); }
    assert r[..|r|] == r;
    DecimalValueOfNatToString(n);
  }

  lemma {:induction false} LeadingDigitsOfDigits(s: string)
    requires forall i :: 0 <= i < |s| ==> IsDigit(s[i])
    ensures LeadingDigits(s) == |s|
  {
    if s != [] {
      LeadingDigitsOfDigits(s[1..]);
    }
  }

  /** A string whose first character is neither a sign nor a digit casts to 0. */
  lemma IntCastNonNumeric(s: string)
    requires |s| == 0 || (!IsDigit(s[0]) && s[0] != '-' && s[0] != '+')
    ensures IntCast(s) == 0
  {
  }

  /** The text before the first '/', the first element of `explode('/', $s)`. */
  function FirstSegment(s: string): (r: string)
    ensures |r| <= |s| && r == s[..|r|]
    ensures forall i :: 0 <= i < |r| ==> r[i] != '/'
    ensures |r| < |s| ==> s[|r|] == '/'
  {
    if s == [] || s[0] == '/' then "" else [s[0]] + FirstSegment(s[1..])
  }
}
