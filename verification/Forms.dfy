/**
  Registration forms: the tokenising stages of `splitLines`, `normalizeList` and
  `normalizeScopes`, and the declarative forms they are proved to compute.
*/
module Forms {
  import opened Prelude
  import Text
  import Oauth

  // splitLines

  /** `strings.ReplaceAll(s, "\r\n", "\n")`. */
  function UnixLineEnds(s: string): string
    decreases |s|
  {
    if s == "" then ""
    else if |s| >= 2 && s[0] == '\r' && s[1] == '\n' then ['\n'] + UnixLineEnds(s[2..])
    else [s[0]] + UnixLineEnds(s[1..])
  }

  /** The non-blank lines, each trimmed. */
  function NonBlank(lines: seq<string>): seq<string> {
    if lines == [] then []
    else
      var front, last := NonBlank(lines[..|lines| - 1]), Text.TrimSpace(lines[|lines| - 1]);
      if last == "" then front else front + [last]
  }

  function Lines(raw: string): seq<string> {
    NonBlank(Text.Split(UnixLineEnds(raw), '\n'))
  }

  method SplitLines(raw: string) returns (out: seq<string>)
    ensures out == Lines(raw)
  {
    var lines := Text.Split(UnixLineEnds(raw), '\n');
    out := [];
    for i := 0 to |lines|
      invariant out == NonBlank(lines[..i])
    {
      assert lines[..i + 1][..i] == lines[..i];
      var line := Text.TrimSpace(lines[i]);
      if line != "" {
        out := out + [line];
      }
    }
    assert lines[..|lines|] == lines;
  }

  // normalizeList

  /** The tokens of every value, in order. */
  function AllFields(values: seq<string>): seq<string> {
    if values == [] then []
    else AllFields(values[..|values| - 1]) + Text.Fields(values[|values| - 1])
  }

  method NormalizeList(values: seq<string>) returns (out: seq<string>)
    ensures out == AllFields(values)
  {
    out := [];
    for i := 0 to |values|
      invariant out == AllFields(values[..i])
    {
      assert values[..i + 1][..i] == values[..i];
      FieldsIgnoreLineEnds(values[i]);
      var tokens := Text.Fields(UnixLineEnds(values[i]));
      Text.FieldsAreWords(values[i]);
      var before := out;
      for j := 0 to |tokens|
        invariant out == before + tokens[..j]
      {
        assert tokens[j] in tokens;
        WordIsTrimmed(tokens[j]);
        var value := Text.TrimSpace(tokens[j]);
        if value != "" {
          out := out + [value];
        }
      }
      assert tokens[..|tokens|] == tokens;
    }
    assert values[..|values|] == values;
  }

  lemma WordIsTrimmed(w: string)
    requires Text.IsWord(w)
    ensures Text.TrimSpace(w) == w
  {
    assert w[0] in w && w[|w| - 1] in w;
    Text.TrimSpaceFixes(w);
  }

  lemma {:induction false} UnixLineEndsAfterWord(w: string, t: string)
    requires forall i :: 0 <= i < |w| ==> !Text.IsSpace(w[i])
    ensures UnixLineEnds(w + t) == w + UnixLineEnds(t)
  {
    if w == "" {
      assert w + t == t;
    } else {
      var s := w + t;
      assert s[0] == w[0] && s[1..] == w[1..] + t;
      UnixLineEndsAfterWord(w[1..], t);
      assert w == [w[0]] + w[1..];
    }
  }

  /** Tokenising does not see which line ends were used. */
  lemma {:induction false} FieldsIgnoreLineEnds(s: string)
    ensures Text.Fields(UnixLineEnds(s)) == Text.Fields(s)
    decreases |s|
  {
    var u := UnixLineEnds(s);
    if s == "" {
    } else if |s| >= 2 && s[0] == '\r' && s[1] == '\n' {
      FieldsIgnoreLineEnds(s[2..]);
      assert s[1..][1..] == s[2..];
      assert Text.Fields(s[1..]) == Text.Fields(s[2..]);
      assert u[1..] == UnixLineEnds(s[2..]);
    } else if Text.IsSpace(s[0]) {
      FieldsIgnoreLineEnds(s[1..]);
      assert u[1..] == UnixLineEnds(s[1..]);
    } else {
      var w := Text.FirstWord(s);
      var t := s[|w|..];
      assert w == [s[0]] + Text.FirstWord(s[1..]);
      assert s == w + t;
      UnixLineEndsAfterWord(w, t);
      assert t != "" ==> Text.IsSpace(UnixLineEnds(t)[0]);
      FieldsIgnoreLineEnds(t);
      Text.FieldsOfWord(w, t);
      Text.FieldsOfWord(w, UnixLineEnds(t));
    }
  }

  // The two stages against one pass

  lemma {:induction false} AllFieldsConcat(a: seq<string>, b: seq<string>)
    ensures AllFields(a + b) == AllFields(a) + AllFields(b)
  {
    if b == [] {
      assert a + b == a;
    } else {
      var front, last := b[..|b| - 1], Text.Fields(b[|b| - 1]);
      AllFieldsConcat(a, front);
      assert (a + b)[..|a + b| - 1] == a + front && (a + b)[|a + b| - 1] == b[|b| - 1];
      assert AllFields(a + b) == AllFields(a + front) + last && AllFields(b) == AllFields(front) + last;
    }
  }

  lemma {:induction false} AllFieldsOfWords(words: seq<string>)
    requires Text.AreWords(words)
    ensures AllFields(words) == words
  {
    if words != [] {
      var last := words[|words| - 1];
      assert last in words;
      Text.FieldsOfWord(last, "");
      assert last + "" == last;
      assert forall w <- words[..|words| - 1] :: w in words;
      AllFieldsOfWords(words[..|words| - 1]);
    }
  }

  lemma AllFieldsOfFirst(first: string, tail: seq<string>)
    ensures AllFields([first] + tail) == Text.Fields(first) + AllFields(tail)
  {
    AllFieldsConcat([first], tail);
    assert [first][..0] == [];
    assert AllFields([first]) == Text.Fields(first);
  }

  /** Lengthening the first line by one character adds it to the tokens the way it does to the text. */
  lemma AllFieldsOfLongerFirst(c: char, rest: seq<string>, w: string, t: string)
    requires rest != [] && rest[0] == w && (t != "" ==> Text.IsSpace(t[0]))
    requires AllFields(rest) == Text.Fields(w + t)
    ensures AllFields([[c] + w] + rest[1..]) == Text.Fields([c] + w + t)
  {
    AllFieldsOfFirst(w, rest[1..]);
    assert [w] + rest[1..] == rest;
    AllFieldsOfFirst([c] + w, rest[1..]);
    Text.FieldsAtSpace(w, t);
    Text.FieldsAtSpace([c] + w, t);
    SamePrefix(Text.Fields(w), AllFields(rest[1..]), Text.Fields(t));
  }

  lemma SamePrefix<T>(a: seq<T>, x: seq<T>, y: seq<T>)
    requires a + x == a + y
    ensures x == y
  {
    assert (a + x)[|a|..] == x && (a + y)[|a|..] == y;
  }

  lemma {:induction false} AllFieldsOfSplit(s: string, sep: char)
    requires Text.IsSpace(sep)
    ensures AllFields(Text.Split(s, sep)) == Text.Fields(s)
  {
    if s == "" {
      AllFieldsOfFirst("", []);
      assert [""] + [] == [""];
    } else {
      var rest := Text.Split(s[1..], sep);
      AllFieldsOfSplit(s[1..], sep);
      if s[0] == sep {
        AllFieldsOfFirst("", rest);
      } else {
        Text.SplitAt(s[1..], sep);
        var w := rest[0];
        var t := s[1..][|w|..];
        assert s[1..] == w + t && s == [s[0]] + w + t;
        AllFieldsOfLongerFirst(s[0], rest, w, t);
      }
    }
  }

  lemma {:induction false} AllFieldsOfNonBlank(lines: seq<string>)
    ensures AllFields(NonBlank(lines)) == AllFields(lines)
  {
    if lines != [] {
      var last := lines[|lines| - 1];
      AllFieldsOfNonBlank(lines[..|lines| - 1]);
      Text.FieldsTrimSpace(last);
      var front := NonBlank(lines[..|lines| - 1]);
      assert (front + [Text.TrimSpace(last)])[..|front|] == front;
    }
  }

  /** Splitting a form field into lines and then into tokens is tokenising it once. */
  lemma TwoStagesAreOnePass(x: string)
    ensures AllFields(Lines(x)) == Text.Fields(x)
  {
    var u := UnixLineEnds(x);
    AllFieldsOfNonBlank(Text.Split(u, '\n'));
    AllFieldsOfSplit(u, '\n');
    FieldsIgnoreLineEnds(x);
  }

  // Redisplaying a form

  predicate IsLine(s: string) {
    s != "" && Text.IsTrimmed(s) && '\n' !in s
  }

  predicate AreLines(ls: seq<string>) {
    forall l <- ls :: IsLine(l)
  }

  lemma {:induction false} NonBlankAreLines(lines: seq<string>)
    requires forall p <- lines :: '\n' !in p
    ensures AreLines(NonBlank(lines))
  {
    if lines != [] {
      assert lines[|lines| - 1] in lines;
      assert forall p <- lines[..|lines| - 1] :: p in lines;
      Text.TrimSpaceTrims(lines[|lines| - 1]);
      NonBlankAreLines(lines[..|lines| - 1]);
    }
  }

  lemma {:induction false} NonBlankFixes(lines: seq<string>)
    requires AreLines(lines)
    ensures NonBlank(lines) == lines
  {
    if lines != [] {
      var last := lines[|lines| - 1];
      assert last in lines;
      assert forall p <- lines[..|lines| - 1] :: p in lines;
      Text.TrimSpaceFixes(last);
      NonBlankFixes(lines[..|lines| - 1]);
    }
  }

  predicate NoCarriageReturnLineFeed(s: string) {
    forall i :: 0 <= i < |s| - 1 && s[i] == '\r' ==> s[i + 1] != '\n'
  }

  lemma {:induction false} UnixLineEndsFixes(s: string)
    requires NoCarriageReturnLineFeed(s)
    ensures UnixLineEnds(s) == s
  {
    if s != "" {
      var t := s[1..];
      forall i | 0 <= i < |t| - 1 && t[i] == '\r' ensures t[i + 1] != '\n' {
        assert s[i + 1] == t[i] && s[i + 1 + 1] == t[i + 1];
      }
      UnixLineEndsFixes(s[1..]);
    }
  }

  lemma {:induction false} JoinHasNoCarriageReturnLineFeed(lines: seq<string>)
    requires AreLines(lines)
    ensures NoCarriageReturnLineFeed(Text.Join(lines, '\n'))
  {
    if |lines| >= 1 {
      var first := lines[0];
      assert IsLine(first) by { assert first in lines; }
      assert NoCarriageReturnLineFeed(first) by {
        assert forall i :: 0 <= i < |first| ==> first[i] in first;
      }
      if |lines| > 1 {
        assert forall p <- lines[1..] :: p in lines;
        JoinHasNoCarriageReturnLineFeed(lines[1..]);
        var rest := Text.Join(lines[1..], '\n');
        var s := Text.Join(lines, '\n');
        assert s == first + ['\n'] + rest;
        forall i | 0 <= i < |s| - 1 && s[i] == '\r' ensures s[i + 1] != '\n' {
          if i < |first| - 1 {
            assert first[i + 1] in first;
          } else if i > |first| {
            assert s[i] == rest[i - |first| - 1] && s[i + 1] == rest[i - |first|];
          }
        }
      }
    }
  }

  /** A field printed back one line each, as a rejected form is, reads as the same lines. */
  lemma LinesStable(x: string)
    ensures Lines(Text.Join(Lines(x), '\n')) == Lines(x)
  {
    var parts := Text.Split(UnixLineEnds(x), '\n');
    Text.SplitHasNoSeparator(UnixLineEnds(x), '\n');
    NonBlankAreLines(parts);
    var lines := Lines(x);
    JoinHasNoCarriageReturnLineFeed(lines);
    UnixLineEndsFixes(Text.Join(lines, '\n'));
    if lines == [] {
      assert NonBlank([""]) == NonBlank([]);
    } else {
      Text.SplitOfJoin(lines, '\n');
      NonBlankFixes(lines);
    }
  }

  // normalizeScopes

  function LowerAll(tokens: seq<string>): (r: seq<string>)
    ensures |r| == |tokens|
    ensures forall i :: 0 <= i < |r| ==> r[i] == Text.ToLower(tokens[i])
  {
    seq(|tokens|, i requires 0 <= i < |tokens| => Text.ToLower(tokens[i]))
  }

  /** Keep the first occurrence of each element. */
  function Dedup(xs: seq<string>): seq<string> {
    if xs == [] then []
    else
      var front, last := Dedup(xs[..|xs| - 1]), xs[|xs| - 1];
      if last in front then front else front + [last]
  }

  /** The scope tokens a form names: lower-cased, in order, repetitions included. */
  function NamedScopes(scopes: seq<string>): seq<string> {
    LowerAll(AllFields(scopes))
  }

  predicate AllSupported(scopes: seq<string>) {
    forall s <- scopes :: Oauth.IsSupportedScope(s)
  }

  /** What the loops have made of the first `done` tokens. */
  predicate IsNormalUpTo(all: seq<string>, done: nat, out: seq<string>) {
    done <= |all| && out == Dedup(all[..done]) && AllSupported(all[..done])
  }

  lemma TakeToken(all: seq<string>, done: nat, out: seq<string>)
    requires IsNormalUpTo(all, done, out) && done < |all|
    ensures all[done] in out ==> IsNormalUpTo(all, done + 1, out)
    ensures all[done] !in out && Oauth.IsSupportedScope(all[done]) ==> IsNormalUpTo(all, done + 1, out + [all[done]])
    ensures all[done] !in out && !Oauth.IsSupportedScope(all[done]) ==>
              !AllSupported(all) && FirstUnsupported(all, all[done])
  {
    DedupStep(all, done);
  }

  method NormalizeScopes(scopes: seq<string>) returns (r: Result<seq<string>, string>)
    ensures r.Ok? <==> AllSupported(NamedScopes(scopes))
    ensures r.Ok? ==> r.value == Dedup(NamedScopes(scopes))
    ensures r.Err? ==> FirstUnsupported(NamedScopes(scopes), r.error)
  {
    ghost var all := NamedScopes(scopes);
    var seen: set<string> := {};
    var out: seq<string> := [];
    ghost var done := 0;
    for i := 0 to |scopes|
      invariant done == |AllFields(scopes[..i])| && IsNormalUpTo(all, done, out)
      invariant forall s :: s in seen <==> s in out
    {
      var tokens := Text.Fields(scopes[i]);
      for j := 0 to |tokens|
        invariant done == |AllFields(scopes[..i])| + j && IsNormalUpTo(all, done, out)
        invariant forall s :: s in seen <==> s in out
      {
        NextToken(scopes, i, j);
        var scope := Text.ToLower(Text.TrimSpace(tokens[j]));
        TakeToken(all, done, out);
        done := done + 1;
        if scope == "" || scope in seen {
          continue;
        }
        if !Oauth.IsSupportedScope(scope) {
          return Err(scope);
        }
        seen := seen + {scope};
        out := out + [scope];
      }
      assert scopes[..i + 1][..i] == scopes[..i];
      FieldsOfPrefix(scopes, i + 1);
    }
    assert scopes[..|scopes|] == scopes && all[..|all|] == all;
    return Ok(out);
  }

  ghost predicate FirstUnsupported(named: seq<string>, scope: string) {
    exists k :: 0 <= k < |named| && named[k] == scope && !Oauth.IsSupportedScope(scope) && AllSupported(named[..k])
  }

  lemma FieldsOfPrefix(scopes: seq<string>, i: nat)
    requires i <= |scopes|
    ensures AllFields(scopes[..i]) <= AllFields(scopes)
  {
    assert scopes == scopes[..i] + scopes[i..];
    AllFieldsConcat(scopes[..i], scopes[i..]);
  }

  /** The j-th token of the i-th value, as the loop sees it. */
  lemma NextToken(scopes: seq<string>, i: nat, j: nat)
    requires i < |scopes| && j < |Text.Fields(scopes[i])|
    ensures var k := |AllFields(scopes[..i])| + j;
            && k < |NamedScopes(scopes)|
            && NamedScopes(scopes)[k] == Text.ToLower(Text.TrimSpace(Text.Fields(scopes[i])[j])) != ""
  {
    TokenAt(scopes, i, j);
    Text.FieldsAreWords(scopes[i]);
    var token := Text.Fields(scopes[i])[j];
    assert token in Text.Fields(scopes[i]);
    WordIsTrimmed(token);
  }

  lemma TokenAt(scopes: seq<string>, i: nat, j: nat)
    requires i < |scopes| && j < |Text.Fields(scopes[i])|
    ensures var k := |AllFields(scopes[..i])| + j;
            k < |AllFields(scopes)| && AllFields(scopes)[k] == Text.Fields(scopes[i])[j]
  {
    FieldsOfPrefix(scopes, i + 1);
    assert scopes[..i + 1][..i] == scopes[..i];
    assert AllFields(scopes[..i + 1])[|AllFields(scopes[..i])| + j] == Text.Fields(scopes[i])[j];
  }

  lemma DedupStep(all: seq<string>, k: nat)
    requires k < |all|
    ensures var out := Dedup(all[..k]);
            Dedup(all[..k + 1]) == if all[k] in out then out else out + [all[k]]
    ensures AllSupported(all[..k + 1]) <==> AllSupported(all[..k]) && Oauth.IsSupportedScope(all[k])
    ensures all[k] in Dedup(all[..k]) && AllSupported(all[..k]) ==> Oauth.IsSupportedScope(all[k])
    ensures AllSupported(all) ==> Oauth.IsSupportedScope(all[k])
  {
    assert all[..k + 1][..k] == all[..k];
    assert all[..k + 1] == all[..k] + [all[k]];
    DedupElements(all[..k]);
  }

  predicate NoDuplicates(xs: seq<string>) {
    forall i, j :: 0 <= i < j < |xs| ==> xs[i] != xs[j]
  }

  /** Position of the first occurrence. */
  function FirstIndex(xs: seq<string>, x: string): (k: nat)
    requires x in xs
    ensures k < |xs| && xs[k] == x && x !in xs[..k]
  {
    if xs[0] == x then 0 else 1 + FirstIndex(xs[1..], x)
  }

  lemma {:induction false} DedupElements(xs: seq<string>)
    ensures forall x :: x in Dedup(xs) <==> x in xs
    ensures NoDuplicates(Dedup(xs))
  {
    if xs != [] {
      DedupElements(xs[..|xs| - 1]);
      assert xs == xs[..|xs| - 1] + [xs[|xs| - 1]];
    }
  }

  /**
    What `Dedup` means without its recursion: the same elements, none twice, in
    the order in which they first occur.
  */
  lemma {:induction false} DedupCharacterised(xs: seq<string>)
    ensures forall x :: x in Dedup(xs) <==> x in xs
    ensures NoDuplicates(Dedup(xs))
    ensures forall i, j :: 0 <= i < j < |Dedup(xs)| ==>
              Dedup(xs)[i] in xs && Dedup(xs)[j] in xs &&
              FirstIndex(xs, Dedup(xs)[i]) < FirstIndex(xs, Dedup(xs)[j])
  {
    DedupElements(xs);
    if xs != [] {
      var front, last := xs[..|xs| - 1], xs[|xs| - 1];
      DedupCharacterised(front);
      DedupElements(front);
      assert xs == front + [last];
      forall x | x in front ensures x in xs && FirstIndex(xs, x) == FirstIndex(front, x) {
        FirstIndexIsFirst(front, x, [last]);
      }
      if last !in front {
        assert forall k :: 0 <= k < |front| ==> xs[k] == front[k] && front[k] in front;
        assert FirstIndex(xs, last) == |front|;
      }
    }
  }

  lemma FirstIndexIsFirst(xs: seq<string>, x: string, ys: seq<string>)
    requires x in xs
    ensures FirstIndex(xs + ys, x) == FirstIndex(xs, x)
  {
    var k, m := FirstIndex(xs, x), FirstIndex(xs + ys, x);
    assert (xs + ys)[k] == x;
    assert forall i :: 0 <= i < k ==> xs[..k][i] == (xs + ys)[i];
    assert forall i :: 0 <= i < m ==> (xs + ys)[..m][i] == (xs + ys)[i];
  }

  lemma {:induction false} DedupFixes(xs: seq<string>)
    requires NoDuplicates(xs)
    ensures Dedup(xs) == xs
  {
    if xs != [] {
      DedupFixes(xs[..|xs| - 1]);
      assert xs == xs[..|xs| - 1] + [xs[|xs| - 1]];
    }
  }

  /** What is stored in an application: distinct supported scopes. */
  predicate InNormalForm(scopes: seq<string>) {
    AllSupported(scopes) && NoDuplicates(scopes)
  }

  lemma NormalizedIsNormal(scopes: seq<string>)
    requires AllSupported(NamedScopes(scopes))
    ensures InNormalForm(Dedup(NamedScopes(scopes)))
  {
    DedupElements(NamedScopes(scopes));
  }

  lemma LowerLettersAreWords(s: string)
    requires s != "" && forall i :: 0 <= i < |s| ==> 'a' <= s[i] <= 'z'
    ensures Text.IsWord(s) && Text.ToLower(s) == s
  {
  }

  lemma SupportedScopesAreLowerWords(s: string)
    requires Oauth.IsSupportedScope(s)
    ensures Text.IsWord(s) && Text.ToLower(s) == s
  {
    assert "openid" != "" && "profile" != "" && "email" != "";
    assert s == "openid" || s == "profile" || s == "email";
    LowerLettersAreWords(s);
  }

  lemma NormalFormIsNamed(scopes: seq<string>)
    requires InNormalForm(scopes)
    ensures Text.AreWords(scopes) && NamedScopes(scopes) == scopes && Dedup(scopes) == scopes
  {
    forall s | s in scopes ensures Text.IsWord(s) && Text.ToLower(s) == s {
      SupportedScopesAreLowerWords(s);
    }
    AllFieldsOfWords(scopes);
    assert forall i :: 0 <= i < |scopes| ==> scopes[i] in scopes;
    DedupFixes(scopes);
  }

  /** Normal scope lists are exactly the fixed points of accepted normalisation. */
  lemma NormalFormFixed(scopes: seq<string>)
    ensures InNormalForm(scopes) <==>
            AllSupported(NamedScopes(scopes)) && Dedup(NamedScopes(scopes)) == scopes
  {
    if InNormalForm(scopes) {
      NormalFormIsNamed(scopes);
    } else if AllSupported(NamedScopes(scopes)) {
      NormalizedIsNormal(scopes);
    }
  }

  /** Printing stored scopes into the edit form and submitting it unchanged stores the same scopes. */
  lemma EditRoundTrip(stored: seq<string>)
    requires InNormalForm(stored)
    ensures var named := NamedScopes(Text.Fields(Text.Join(stored, ' ')));
            AllSupported(named) && Dedup(named) == stored
  {
    NormalFormIsNamed(stored);
    Text.FieldsOfJoin(stored, ' ');
  }

  /** There are never more than three. */
  lemma NormalFormIsShort(scopes: seq<string>)
    requires InNormalForm(scopes)
    ensures |scopes| <= 3
  {
    var supported := {"openid", "profile", "email"};
    assert (set s | s in scopes) <= supported by {
      forall s | s in scopes ensures s in supported {
        assert Oauth.IsSupportedScope(s);
      }
    }
    DistinctCount(scopes, supported);
  }

  lemma {:induction false} DistinctCount(xs: seq<string>, bound: set<string>)
    requires NoDuplicates(xs) && forall x <- xs :: x in bound
    ensures |xs| <= |bound|
  {
    if xs != [] {
      var last := xs[|xs| - 1];
      assert last in xs;
      assert forall x <- xs[..|xs| - 1] :: x in xs;
      DistinctCount(xs[..|xs| - 1], bound - {last});
    }
  }
}
