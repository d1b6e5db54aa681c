/**
  Raw (unpadded) base64, section 3.2 of RFC 4648, in both alphabets that are
  used: the standard one (section 4) for password hashes and the URL-safe one
  (section 5) for tokens, challenges and cookies.
*/
module Base64 {
  import opened Prelude
  import Text

  datatype Alphabet = Std | Url

  type sextet = x: int | 0 <= x < 64

  function CharOf(a: Alphabet, x: sextet): char {
    if x < 26 then ('A' as int + x) as char
    else if x < 52 then ('a' as int + x - 26) as char
    else if x < 62 then ('0' as int + x - 52) as char
    else if x == 62 then (if a == Std then '+' else '-')
    else (if a == Std then '/' else '_')
  }

  predicate IsAlphabetChar(a: Alphabet, c: char) {
    || 'A' <= c <= 'Z' || 'a' <= c <= 'z' || '0' <= c <= '9'
    || (if a == Std then c == '+' || c == '/' else c == '-' || c == '_')
  }

  function SextetOf(a: Alphabet, c: char): (x: sextet)
    requires IsAlphabetChar(a, c)
    ensures CharOf(a, x) == c
  {
    if 'A' <= c <= 'Z' then c as int - 'A' as int
    else if 'a' <= c <= 'z' then c as int - 'a' as int + 26
    else if '0' <= c <= '9' then c as int - '0' as int + 52
    else if c == '+' || c == '-' then 62
    else 63
  }

  lemma CharOfInverse(a: Alphabet, x: sextet)
    ensures IsAlphabetChar(a, CharOf(a, x)) && SextetOf(a, CharOf(a, x)) == x
  {
  }

  // Three bytes against four sextets

  function Sextets(b: Bytes): (q: seq<sextet>) {
    if b == [] then []
    else if |b| == 1 then [b[0] / 4, b[0] % 4 * 16]
    else if |b| == 2 then [b[0] / 4, b[0] % 4 * 16 + b[1] / 16, b[1] % 16 * 4]
    else [b[0] / 4, b[0] % 4 * 16 + b[1] / 16, b[1] % 16 * 4 + b[2] / 64, b[2] % 64] + Sextets(b[3..])
  }

  /** A final group of one sextet carries no byte; spare low bits of a short group are dropped. */
  function FromSextets(q: seq<sextet>): Option<Bytes> {
    if q == [] then Some([])
    else if |q| == 1 then None
    else
      var x, y: int := q[0], q[1];
      if |q| == 2 then Some([x * 4 + y / 16])
      else
        var z: int := q[2];
        if |q| == 3 then Some([x * 4 + y / 16, y % 16 * 16 + z / 4])
        else
          var rest := FromSextets(q[4..]);
          if rest == None then None
          else Some([x * 4 + y / 16, y % 16 * 16 + z / 4, z % 4 * 64 + q[3]] + rest.value)
  }

  lemma {:induction false} SextetsRoundTrip(b: Bytes)
    ensures FromSextets(Sextets(b)) == Some(b)
  {
    if |b| >= 3 {
      SextetsRoundTrip(b[3..]);
      var q := Sextets(b);
      assert q[4..] == Sextets(b[3..]);
      assert b == [b[0], b[1], b[2]] + b[3..];
    } else if |b| == 2 {
      assert b == [b[0], b[1]];
    } else if |b| == 1 {
      assert b == [b[0]];
    }
  }

  lemma {:induction false} SextetsLength(b: Bytes)
    ensures |Sextets(b)| == (|b| * 8 + 5) / 6
  {
    if |b| >= 3 {
      SextetsLength(b[3..]);
    }
  }

  // Text

  function ToChars(a: Alphabet, q: seq<sextet>): (s: string)
    ensures |s| == |q|
    ensures forall i :: 0 <= i < |q| ==> s[i] == CharOf(a, q[i])
  {
    seq(|q|, i requires 0 <= i < |q| => CharOf(a, q[i]))
  }

  predicate AllInAlphabet(a: Alphabet, s: string) {
    forall i :: 0 <= i < |s| ==> IsAlphabetChar(a, s[i])
  }

  function ToSextets(a: Alphabet, s: string): (q: seq<sextet>)
    requires AllInAlphabet(a, s)
    ensures |q| == |s|
    ensures forall i :: 0 <= i < |s| ==> q[i] == SextetOf(a, s[i])
  {
    seq(|s|, i requires 0 <= i < |s| => SextetOf(a, s[i]))
  }

  function Encode(a: Alphabet, b: Bytes): string {
    ToChars(a, Sextets(b))
  }

  /** Go's decoder skips line breaks wherever they stand. */
  function SkipLineBreaks(s: string): string {
    if s == "" then ""
    else if s[0] == '\r' || s[0] == '\n' then SkipLineBreaks(s[1..])
    else [s[0]] + SkipLineBreaks(s[1..])
  }

  predicate IsLineBreak(c: char) {
    c == '\r' || c == '\n'
  }

  /** Line breaks go, and everything else stays as often as it is there. */
  lemma {:induction false} SkipsExactly(s: string, c: char)
    ensures multiset(SkipLineBreaks(s))[c] == if IsLineBreak(c) then 0 else multiset(s)[c]
  {
    if s != "" {
      SkipsExactly(s[1..], c);
      assert s == [s[0]] + s[1..];
    }
  }

  function Decode(a: Alphabet, s: string): Option<Bytes> {
    var t := SkipLineBreaks(s);
    if AllInAlphabet(a, t) then FromSextets(ToSextets(a, t)) else None
  }

  lemma {:induction false} SkipLineBreaksFixes(a: Alphabet, s: string)
    requires AllInAlphabet(a, s)
    ensures SkipLineBreaks(s) == s
  {
    if s != "" {
      assert AllInAlphabet(a, s[1..]);
      assert IsAlphabetChar(a, s[0]);
      SkipLineBreaksFixes(a, s[1..]);
    }
  }

  lemma EncodeInAlphabet(a: Alphabet, b: Bytes)
    ensures AllInAlphabet(a, Encode(a, b))
    ensures Text.IsAscii(Encode(a, b))
  {
    var q := Sextets(b);
    forall i | 0 <= i < |q| ensures IsAlphabetChar(a, Encode(a, b)[i]) {
      CharOfInverse(a, q[i]);
    }
  }

  /** Decoding what was encoded gives back exactly the bytes. */
  lemma RoundTrip(a: Alphabet, b: Bytes)
    ensures Decode(a, Encode(a, b)) == Some(b)
  {
    var s, q := Encode(a, b), Sextets(b);
    EncodeInAlphabet(a, b);
    SkipLineBreaksFixes(a, s);
    forall i | 0 <= i < |q| ensures SextetOf(a, s[i]) == q[i] {
      CharOfInverse(a, q[i]);
    }
    assert ToSextets(a, s) == q;
    SextetsRoundTrip(b);
  }

  lemma EncodeInjective(a: Alphabet, b: Bytes, c: Bytes)
    requires Encode(a, b) == Encode(a, c)
    ensures b == c
  {
    RoundTrip(a, b);
    RoundTrip(a, c);
  }

  lemma EncodeLength(a: Alphabet, b: Bytes)
    ensures |Encode(a, b)| == Text.ByteLen(Encode(a, b)) == (|b| * 8 + 5) / 6
  {
    SextetsLength(b);
    EncodeInAlphabet(a, b);
    Text.AsciiByteLen(Encode(a, b));
  }

  lemma {:induction false} FromSextetsDefined(q: seq<sextet>)
    ensures FromSextets(q).Some? <==> |q| % 4 != 1
  {
    if |q| >= 4 {
      FromSextetsDefined(q[4..]);
    }
  }

  /** Exactly which texts decode. */
  lemma DecodeDefined(a: Alphabet, s: string)
    ensures Decode(a, s).Some? <==>
            var t := SkipLineBreaks(s); AllInAlphabet(a, t) && |t| % 4 != 1
  {
    var t := SkipLineBreaks(s);
    if AllInAlphabet(a, t) {
      FromSextetsDefined(ToSextets(a, t));
    }
  }

  // What an encoding spells

  const UPPER := "ABCDEFGHIJKLMNOPQRSTUVWXYZ"
  const LOWER := "abcdefghijklmnopqrstuvwxyz"
  const DIGITS := "0123456789"

  function AlphabetOf(a: Alphabet): (s: string)
    ensures |s| == 64
  {
    UPPER + LOWER + DIGITS + (if a == Std then "+/" else "-_")
  }

  lemma LettersInOrder(x: nat)
    requires x < 26
    ensures UPPER[x] as int == 'A' as int + x && LOWER[x] as int == 'a' as int + x
  {
    assert x in [0, 1, 2, 3, 4, 5, 6, 7, 8, 9, 10, 11, 12, 13, 14, 15, 16, 17, 18, 19, 20, 21, 22, 23, 24, 25];
  }

  lemma DigitsInOrder(x: nat)
    requires x < 10
    ensures DIGITS[x] as int == '0' as int + x
  {
    assert x in [0, 1, 2, 3, 4, 5, 6, 7, 8, 9];
  }

  lemma CharsInOrder(a: Alphabet, x: sextet)
    ensures CharOf(a, x) == AlphabetOf(a)[x]
  {
    PlaceIn(UPPER, LOWER, DIGITS, if a == Std then "+/" else "-_", x);
    if x < 26 {
      LettersInOrder(x);
    } else if x < 52 {
      LettersInOrder(x - 26);
    } else if x < 62 {
      DigitsInOrder(x - 52);
    }
  }

  lemma PlaceIn(upper: string, lower: string, digits: string, rest: string, x: sextet)
    requires |upper| == |lower| == 26 && |digits| == 10 && |rest| == 2
    ensures (upper + lower + digits + rest)[x]
            == if x < 26 then upper[x] else if x < 52 then lower[x - 26] else if x < 62 then digits[x - 52] else rest[x - 62]
  {
  }

  /** The number these digits spell after v, the most significant first. */
  function Number(v: int, digits: seq<int>, base: int): int
    decreases digits
  {
    if digits == [] then v else Number(v * base + digits[0], digits[1..], base)
  }

  /** What the bits filled in at the end multiply by. */
  function Padding(length: nat): int {
    if length % 3 == 1 then 16 else if length % 3 == 2 then 4 else 1
  }

  lemma NumberOfFour(v: int, q: seq<int>)
    requires |q| >= 4
    ensures Number(v, q, 64) == Number(v * 0x100_0000 + FourSextets(q[0], q[1], q[2], q[3]), q[4..], 64)
  {
    NumberOfOne(v, q, 64);
    NumberOfOne(v * 64 + q[0], q[1..], 64);
    NumberOfOne((v * 64 + q[0]) * 64 + q[1], q[2..], 64);
    NumberOfOne(((v * 64 + q[0]) * 64 + q[1]) * 64 + q[2], q[3..], 64);
  }

  lemma NumberOfOne(v: int, digits: seq<int>, base: int)
    requires digits != []
    ensures Number(v, digits, base) == Number(v * base + digits[0], digits[1..], base)
    ensures forall i :: 1 <= i <= |digits| ==> digits[1..][i - 1..] == digits[i..]
  {
  }

  lemma NumberOfThree(v: int, b: seq<int>)
    requires |b| >= 3
    ensures Number(v, b, 256) == Number(v * 0x100_0000 + ThreeBytes(b[0], b[1], b[2]), b[3..], 256)
  {
    NumberOfOne(v, b, 256);
    NumberOfOne(v * 256 + b[0], b[1..], 256);
    NumberOfOne((v * 256 + b[0]) * 256 + b[1], b[2..], 256);
    assert b[2..][1..] == b[3..] && b[1..][1..] == b[2..];
  }

  lemma FourOfThree(b: Bytes)
    requires |b| >= 3
    ensures var q := Sextets(b);
            && |q| >= 4 && q[4..] == Sextets(b[3..])
            && ThreeBytes(b[0], b[1], b[2]) == FourSextets(q[0], q[1], q[2], q[3])
  {
  }

  function ThreeBytes(x: int, y: int, z: int): int {
    x * 0x1_0000 + y * 0x100 + z
  }

  function FourSextets(w: int, x: int, y: int, z: int): int {
    w * 0x4_0000 + x * 0x1000 + y * 0x40 + z
  }

  lemma ShortGroup(v: int, b: Bytes)
    requires |b| < 3
    ensures Number(v, Sextets(b), 64) == Number(v, b, 256) * Padding(|b|)
  {
    var q: seq<int>, bytes: seq<int> := Sextets(b), b;
    if |b| == 1 {
      NumberOfOne(v, q, 64);
      NumberOfOne(v * 64 + q[0], q[1..], 64);
      NumberOfOne(v, bytes, 256);
    } else if |b| == 2 {
      NumberOfOne(v, q, 64);
      NumberOfOne(v * 64 + q[0], q[1..], 64);
      NumberOfOne((v * 64 + q[0]) * 64 + q[1], q[2..], 64);
      NumberOfOne(v, bytes, 256);
      NumberOfOne(v * 256 + bytes[0], bytes[1..], 256);
    }
  }

  lemma {:induction false} SextetsSpell(v: int, b: Bytes)
    ensures Number(v, Sextets(b), 64) == Number(v, b, 256) * Padding(|b|)
    decreases b
  {
    if |b| < 3 {
      ShortGroup(v, b);
    } else {
      FourOfThree(b);
      NumberOfFour(v, Sextets(b));
      NumberOfThree(v, b);
      SextetsSpell(v * 0x100_0000 + ThreeBytes(b[0], b[1], b[2]), b[3..]);
    }
  }

  /** The characters spell, in the order of the alphabet, the big-endian number of the bytes, filled up with zero bits. */
  lemma EncodeSpells(a: Alphabet, b: Bytes) returns (digits: seq<sextet>)
    ensures |digits| == |Encode(a, b)| == (|b| * 8 + 5) / 6
    ensures forall i :: 0 <= i < |digits| ==> Encode(a, b)[i] == AlphabetOf(a)[digits[i]]
    ensures Number(0, digits, 64) == Number(0, b, 256) * Padding(|b|)
  {
    digits := Sextets(b);
    SextetsLength(b);
    SextetsSpell(0, b);
    forall i | 0 <= i < |digits| ensures Encode(a, b)[i] == AlphabetOf(a)[digits[i]] {
      CharsInOrder(a, digits[i]);
    }
  }
}
