/** Decimal printing (`%d`) and the integer scanning of `fmt.Sscanf`. */
module Decimal {
  import opened Prelude
  import Text

  predicate IsDigit(c: char) {
    '0' <= c <= '9'
  }

  function Print(n: nat): string {
    if n < 10 then [('0' as int + n) as char] else Print(n / 10) + [('0' as int + n % 10) as char]
  }

  predicate AllDigits(s: string) {
    forall i :: 0 <= i < |s| ==> IsDigit(s[i])
  }

  function Value(digits: string): nat
    requires AllDigits(digits)
  {
    if digits == "" then 0
    else Value(digits[..|digits| - 1]) * 10 + (digits[|digits| - 1] as int - '0' as int)
  }

  /** The longest prefix of digits. */
  function Digits(s: string): (d: string)
    ensures d <= s && AllDigits(d)
  {
    if s == "" || !IsDigit(s[0]) then "" else [s[0]] + Digits(s[1..])
  }

  lemma {:induction false} PrintValue(n: nat)
    ensures Print(n) != "" && AllDigits(Print(n)) && Value(Print(n)) == n
  {
    if n >= 10 {
      PrintValue(n / 10);
      assert Print(n)[..|Print(n)| - 1] == Print(n / 10);
    } else {
      assert Print(n)[..0] == "";
    }
  }

  lemma {:induction false} DigitsAt(d: string, rest: string)
    requires AllDigits(d) && (rest != "" ==> !IsDigit(rest[0]))
    ensures Digits(d + rest) == d
  {
    if d == "" {
      assert d + rest == rest;
    } else {
      assert (d + rest)[1..] == d[1..] + rest;
      assert IsDigit(d[0]);
      DigitsAt(d[1..], rest);
    }
  }

  /** White space is skipped, but a line break ends the scan in error. */
  function SkipSpace(s: string): Option<string> {
    if s == "" then Some(s)
    else if s[0] == '\n' then None
    else if Text.IsSpace(s[0]) then SkipSpace(s[1..])
    else Some(s)
  }

  datatype Scan = Scanned(value: int, rest: string) | Failed

  function ScanDigits(s: string): Scan {
    var d := Digits(s);
    if d == "" then Failed else Scanned(Value(d), s[|d|..])
  }

  /** `%d` into an unsigned integer below `bound`. */
  function ScanUnsigned(s: string, bound: nat): (r: Scan)
    ensures r.Scanned? ==> 0 <= r.value < bound
  {
    match SkipSpace(s)
    case None => Failed
    case Some(t) =>
      var r := ScanDigits(t);
      if r.Scanned? && r.value < bound then r else Failed
  }

  /** `%d` into a 64-bit signed integer. */
  function ScanSigned(s: string): Scan {
    match SkipSpace(s)
    case None => Failed
    case Some(t) =>
      var negative := t != "" && t[0] == '-';
      var r := ScanDigits(if t != "" && (t[0] == '-' || t[0] == '+') then t[1..] else t);
      if r.Failed? then Failed
      else
        var v := if negative then -r.value else r.value;
        if -0x8000_0000_0000_0000 <= v < 0x8000_0000_0000_0000 then Scanned(v, r.rest) else Failed
  }

  /** A literal of the format followed by an unsigned `%d`. */
  function ScanField(literal: string, s: string, bound: nat): (r: Scan)
    ensures r.Scanned? ==> 0 <= r.value < bound
  {
    if Text.HasPrefix(s, literal) then ScanUnsigned(s[|literal|..], bound) else Failed
  }

  lemma FieldRoundTrip(literal: string, n: nat, rest: string, bound: nat)
    requires n < bound && (rest != "" ==> !IsDigit(rest[0]))
    ensures ScanField(literal, literal + (Print(n) + rest), bound) == Scanned(n, rest)
  {
    var s := literal + (Print(n) + rest);
    assert s[..|literal|] == literal && s[|literal|..] == Print(n) + rest;
    ScanPrinted(n, rest, bound);
  }

  /** Scanning what was printed recovers the number and stops where it ended. */
  lemma ScanPrinted(n: nat, rest: string, bound: nat)
    requires n < bound && (rest != "" ==> !IsDigit(rest[0]))
    ensures ScanUnsigned(Print(n) + rest, bound) == Scanned(n, rest)
    ensures n < 0x8000_0000_0000_0000 ==> ScanSigned(Print(n) + rest) == Scanned(n, rest)
  {
    ScanPrintedDigits(n, rest);
    UnsignedScan(Print(n) + rest, bound, n, rest);
    SignedScan(Print(n) + rest, n, rest);
  }

  lemma ScanPrintedDigits(n: nat, rest: string)
    requires rest != "" ==> !IsDigit(rest[0])
    ensures var s := Print(n) + rest;
            s != "" && IsDigit(s[0]) && ScanDigits(s) == Scanned(n, rest)
  {
    var d := Print(n);
    PrintValue(n);
    DigitsAt(d, rest);
    assert IsDigit(d[0]) && (d + rest)[0] == d[0];
    assert (d + rest)[|d|..] == rest;
  }

  lemma UnsignedScan(s: string, bound: nat, n: nat, rest: string)
    requires s != "" && IsDigit(s[0]) && ScanDigits(s) == Scanned(n, rest) && n < bound
    ensures ScanUnsigned(s, bound) == Scanned(n, rest)
  {
    assert SkipSpace(s) == Some(s);
  }

  lemma SignedScan(s: string, n: nat, rest: string)
    requires s != "" && IsDigit(s[0]) && ScanDigits(s) == Scanned(n, rest)
    ensures n < 0x8000_0000_0000_0000 ==> ScanSigned(s) == Scanned(n, rest)
  {
    assert SkipSpace(s) == Some(s);
  }
}
