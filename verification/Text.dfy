/**
  The parts of Go's `strings` and `unicode` packages that the handlers rely on.
  A string is a sequence of Unicode scalar values; `ByteLen` is Go's `len`.
*/
module Text {

  /** Go's `unicode.IsSpace`: the White_Space property. */
  predicate IsSpace(c: char) {
    || '\t' <= c <= '\r' || c == ' ' || c == '\U{0085}' || c == '\U{00A0}' || c == '\U{1680}'
    || '\U{2000}' <= c <= '\U{200A}' || c == '\U{2028}' || c == '\U{2029}' || c == '\U{202F}'
    || c == '\U{205F}' || c == '\U{3000}'
  }

  /** Length of the UTF-8 encoding, which is what Go's `len` counts. */
  function ByteLen(s: string): nat {
    if s == "" then 0 else CharLen(s[0]) + ByteLen(s[1..])
  }

  function CharLen(c: char): nat {
    if c < '\U{0080}' then 1 else if c < '\U{0800}' then 2 else if c < '\U{10000}' then 3 else 4
  }

  predicate IsAscii(s: string) {
    forall c <- s :: c < '\U{0080}'
  }

  lemma {:induction false} AsciiByteLen(s: string)
    requires IsAscii(s)
    ensures ByteLen(s) == |s|
  {
    if s != "" {
      assert s[0] in s && forall c <- s[1..] :: c in s;
      AsciiByteLen(s[1..]);
    }
  }

  predicate HasPrefix(s: string, prefix: string) {
    |prefix| <= |s| && s[..|prefix|] == prefix
  }

  predicate HasSuffix(s: string, suffix: string) {
    |suffix| <= |s| && s[|s| - |suffix|..] == suffix
  }

  function LowerChar(c: char): char {
    if 'A' <= c <= 'Z' then (c as int + 32) as char else c
  }

  /** Lower-casing of the ASCII letters; every other character is kept. */
  function ToLower(s: string): (t: string)
    ensures |t| == |s|
    ensures forall i :: 0 <= i < |s| ==> t[i] == LowerChar(s[i])
  {
    seq(|s|, i requires 0 <= i < |s| => LowerChar(s[i]))
  }

  lemma ToLowerConcat(s: string, t: string)
    ensures ToLower(s + t) == ToLower(s) + ToLower(t)
  {
  }

  // Trimming

  function TrimLeft(s: string): string {
    if s != "" && IsSpace(s[0]) then TrimLeft(s[1..]) else s
  }

  function TrimRight(s: string): string {
    if s != "" && IsSpace(s[|s| - 1]) then TrimRight(s[..|s| - 1]) else s
  }

  function TrimSpace(s: string): string {
    TrimRight(TrimLeft(s))
  }

  /** No white space at either end; the empty string counts. */
  predicate IsTrimmed(s: string) {
    s != "" ==> !IsSpace(s[0]) && !IsSpace(s[|s| - 1])
  }

  lemma {:induction false} TrimRightTrims(s: string)
    ensures TrimRight(s) <= s
    ensures TrimRight(s) != "" ==> !IsSpace(TrimRight(s)[|TrimRight(s)| - 1])
  {
    if s != "" && IsSpace(s[|s| - 1]) {
      TrimRightTrims(s[..|s| - 1]);
    }
  }

  lemma {:induction false} TrimLeftTrims(s: string)
    ensures TrimLeft(s) != "" ==> !IsSpace(TrimLeft(s)[0])
    ensures forall c <- TrimLeft(s) :: c in s
  {
    if s != "" && IsSpace(s[0]) {
      TrimLeftTrims(s[1..]);
    }
  }

  lemma TrimSpaceTrims(s: string)
    ensures IsTrimmed(TrimSpace(s))
    ensures forall c <- TrimSpace(s) :: c in s
  {
    TrimLeftTrims(s);
    TrimRightTrims(TrimLeft(s));
  }

  lemma TrimSpaceFixes(s: string)
    requires IsTrimmed(s)
    ensures TrimSpace(s) == s
  {
  }

  lemma TrimSpaceIdempotent(s: string)
    ensures TrimSpace(TrimSpace(s)) == TrimSpace(s)
  {
    TrimSpaceTrims(s);
    TrimSpaceFixes(TrimSpace(s));
  }

  // Tokenising

  /** A non-empty run of characters none of which is white space. */
  predicate IsWord(w: string) {
    w != "" && forall c <- w :: !IsSpace(c)
  }

  /** The longest prefix without white space. */
  function FirstWord(s: string): (w: string)
    ensures w <= s
    ensures forall c <- w :: !IsSpace(c)
    ensures |w| < |s| ==> IsSpace(s[|w|])
  {
    if s == "" || IsSpace(s[0]) then "" else [s[0]] + FirstWord(s[1..])
  }

  /** Go's `strings.Fields`. */
  function Fields(s: string): seq<string>
    decreases |s|
  {
    if s == "" then []
    else if IsSpace(s[0]) then Fields(s[1..])
    else
      var w := FirstWord(s);
      assert w != "" by { assert w == [s[0]] + FirstWord(s[1..]); }
      [w] + Fields(s[|w|..])
  }

  predicate AreWords(ws: seq<string>) {
    forall w <- ws :: IsWord(w)
  }

  lemma {:induction false} FieldsAreWords(s: string)
    ensures AreWords(Fields(s))
    decreases |s|
  {
    if s == "" {
    } else if IsSpace(s[0]) {
      FieldsAreWords(s[1..]);
    } else {
      FieldsAreWords(s[|FirstWord(s)|..]);
    }
  }

  lemma {:induction false} FirstWordAt(w: string, t: string)
    requires forall c <- w :: !IsSpace(c)
    requires t != "" ==> IsSpace(t[0])
    ensures FirstWord(w + t) == w
  {
    if w == "" {
      assert w + t == t;
    } else {
      FirstWordAt(w[1..], t);
      assert (w + t)[1..] == w[1..] + t;
    }
  }

  /** A word followed by nothing, or by white space, is the first token. */
  lemma FieldsOfWord(w: string, t: string)
    requires IsWord(w)
    requires t != "" ==> IsSpace(t[0])
    ensures Fields(w + t) == [w] + Fields(t)
  {
    FirstWordAt(w, t);
    assert (w + t)[0] == w[0] && w[0] in w;
    assert (w + t)[|w|..] == t;
  }

  lemma FieldsAtWord(a: string)
    requires a != "" && !IsSpace(a[0])
    ensures var w := FirstWord(a);
            var rest := a[|w|..];
            && IsWord(w) && a == w + rest && (rest != "" ==> IsSpace(rest[0]))
            && Fields(a) == [w] + Fields(rest)
  {
    assert FirstWord(a) == [a[0]] + FirstWord(a[1..]);
  }

  lemma FieldsSkipSpace(c: char, s: string)
    requires IsSpace(c)
    ensures Fields([c] + s) == Fields(s)
  {
    assert ([c] + s)[1..] == s;
  }

  lemma Regroup(a: string, w: string, rest: string, t: string)
    requires a == w + rest && (rest != "" ==> IsSpace(rest[0])) && (t != "" ==> IsSpace(t[0]))
    ensures a + t == w + (rest + t)
    ensures rest + t != "" ==> IsSpace((rest + t)[0])
  {
  }

  lemma ConsConcat(w: string, x: seq<string>, y: seq<string>)
    ensures [w] + (x + y) == ([w] + x) + y
  {
  }

  lemma FieldsAfterWord(a: string, t: string)
    requires a != "" && !IsSpace(a[0]) && (t != "" ==> IsSpace(t[0]))
    requires var rest := a[|FirstWord(a)|..];
             Fields(rest + t) == Fields(rest) + Fields(t)
    ensures Fields(a + t) == Fields(a) + Fields(t)
  {
    var w := FirstWord(a);
    var rest := a[|w|..];
    FieldsAtWord(a);
    Regroup(a, w, rest, t);
    calc {
      Fields(a + t);
      { FieldsOfWord(w, rest + t); }
      [w] + Fields(rest + t);
      [w] + (Fields(rest) + Fields(t));
      { ConsConcat(w, Fields(rest), Fields(t)); }
      ([w] + Fields(rest)) + Fields(t);
      Fields(a) + Fields(t);
    }
  }

  lemma {:induction false} FieldsAtSpace(a: string, t: string)
    requires t != "" ==> IsSpace(t[0])
    ensures Fields(a + t) == Fields(a) + Fields(t)
    decreases |a|
  {
    if a == "" {
      assert a + t == t;
    } else if IsSpace(a[0]) {
      var c, rest := a[0], a[1..];
      FieldsAtSpace(rest, t);
      FieldsSkipSpace(c, rest);
      FieldsSkipSpace(c, rest + t);
      assert a == [c] + rest && a + t == [c] + (rest + t);
    } else {
      FieldsAtWord(a);
      FieldsAtSpace(a[|FirstWord(a)|..], t);
      FieldsAfterWord(a, t);
    }
  }

  /** White space separates: tokens never span it. */
  lemma FieldsSeparated(a: string, c: char, b: string)
    requires IsSpace(c)
    ensures Fields(a + [c] + b) == Fields(a) + Fields(b)
  {
    var t := [c] + b;
    assert a + [c] + b == a + t && t[1..] == b;
    FieldsAtSpace(a, t);
  }

  lemma {:induction false} FieldsTrimLeft(s: string)
    ensures Fields(TrimLeft(s)) == Fields(s)
  {
    if s != "" && IsSpace(s[0]) {
      FieldsTrimLeft(s[1..]);
    }
  }

  lemma {:induction false} FieldsTrimRight(s: string)
    ensures Fields(TrimRight(s)) == Fields(s)
  {
    if s != "" && IsSpace(s[|s| - 1]) {
      FieldsTrimRight(s[..|s| - 1]);
      assert s == s[..|s| - 1] + [s[|s| - 1]] + "";
      FieldsSeparated(s[..|s| - 1], s[|s| - 1], "");
    }
  }

  lemma FieldsTrimSpace(s: string)
    ensures Fields(TrimSpace(s)) == Fields(s)
  {
    FieldsTrimLeft(s);
    FieldsTrimRight(TrimLeft(s));
  }

  // Joining

  /** Go's `strings.Join` with a one-character separator. */
  function Join(parts: seq<string>, sep: char): string {
    if parts == [] then ""
    else if |parts| == 1 then parts[0]
    else parts[0] + [sep] + Join(parts[1..], sep)
  }

  /** Printing words with a white-space separator and tokenising gives them back. */
  lemma {:induction false} FieldsOfJoin(words: seq<string>, sep: char)
    requires AreWords(words) && IsSpace(sep)
    ensures Fields(Join(words, sep)) == words
  {
    if words == [] {
    } else {
      assert words[0] in words;
      FieldsOfWord(words[0], "");
      assert words[0] + "" == words[0];
      if |words| > 1 {
        FieldsOfJoin(words[1..], sep);
        FieldsSeparated(words[0], sep, Join(words[1..], sep));
      }
    }
  }

  // Splitting

  /** `strings.Split(s, sep)` for a one-character separator: never empty. */
  function Split(s: string, sep: char): (parts: seq<string>)
    ensures parts != []
  {
    if s == "" then [""]
    else if s[0] == sep then [""] + Split(s[1..], sep)
    else var rest := Split(s[1..], sep); [[s[0]] + rest[0]] + rest[1..]
  }

  /** The first part of a split is a prefix that ends at a separator or at the end. */
  lemma {:induction false} SplitAt(s: string, sep: char)
    ensures var w := Split(s, sep)[0];
            w <= s && (|w| < |s| ==> s[|w|] == sep)
  {
    if s != "" && s[0] != sep {
      SplitAt(s[1..], sep);
    }
  }

  lemma {:induction false} SplitHasNoSeparator(s: string, sep: char)
    ensures forall p <- Split(s, sep) :: sep !in p
  {
    if s != "" {
      SplitHasNoSeparator(s[1..], sep);
      var rest := Split(s[1..], sep);
      assert rest[0] in rest;
      assert forall p <- rest[1..] :: p in rest;
    }
  }

  lemma {:induction false} SplitConcat(line: string, sep: char, rest: string)
    requires sep !in line
    ensures Split(line + [sep] + rest, sep) == [line] + Split(rest, sep)
    ensures Split(line, sep) == [line]
  {
    var s := line + [sep] + rest;
    if line == "" {
      assert s[0] == sep && s[1..] == rest;
    } else {
      assert line[0] in line && forall c <- line[1..] :: c in line;
      SplitConcat(line[1..], sep, rest);
      assert s[1..] == line[1..] + [sep] + rest;
      assert s[0] == line[0];
      assert [line[0]] + line[1..] == line;
    }
  }

  /** Splitting undoes joining when no part holds the separator. */
  lemma {:induction false} SplitOfJoin(parts: seq<string>, sep: char)
    requires parts != [] && forall p <- parts :: sep !in p
    ensures Split(Join(parts, sep), sep) == parts
  {
    assert parts[0] in parts;
    if |parts| == 1 {
      SplitConcat(parts[0], sep, "");
    } else {
      assert forall p <- parts[1..] :: p in parts;
      SplitConcat(parts[0], sep, Join(parts[1..], sep));
      SplitOfJoin(parts[1..], sep);
    }
  }
}
