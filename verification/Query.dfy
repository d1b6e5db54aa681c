/**
  The query of a request target, as `net/url` reads it, and what is left of it
  when the target is parsed again as a URL that may carry a fragment.
*/
module Query {
  import opened Prelude
  import Text

  /** `url.QueryUnescape`: some partial function. */
  type Unescape = string -> Option<string>

  datatype Pair = Pair(name: string, value: string)

  /** One part between ampersands. A part with a semicolon, an empty one, or one that does not unescape is skipped. */
  function PairOf(unescape: Unescape, part: string): Option<Pair> {
    if ';' in part || part == "" then None
    else
      var name := Text.Split(part, '=')[0];
      var value := if |name| < |part| then part[|name| + 1..] else "";
      if unescape(name) == None || unescape(value) == None then None
      else Some(Pair(unescape(name).value, unescape(value).value))
  }

  function FirstNamed(unescape: Unescape, parts: seq<string>, name: string): Option<string> {
    if parts == [] then None
    else
      var p := PairOf(unescape, parts[0]);
      if p.Some? && p.value.name == name then Some(p.value.value) else FirstNamed(unescape, parts[1..], name)
  }

  function OrEmpty(value: Option<string>): string {
    if value.Some? then value.value else ""
  }

  /** `Query().Get(name)`. */
  function Get(unescape: Unescape, rawQuery: string, name: string): string {
    OrEmpty(FirstNamed(unescape, Text.Split(rawQuery, '&'), name))
  }

  /** `url.Parse` ends the query at the first `#`; `url.ParseRequestURI` does not. */
  function BeforeFragment(s: string): (t: string)
    ensures t <= s && '#' !in t && (|t| < |s| ==> s[|t|] == '#')
  {
    Text.SplitAt(s, '#');
    Text.SplitHasNoSeparator(s, '#');
    Text.Split(s, '#')[0]
  }

  /** What follows the first question mark. */
  function QueryOf(s: string): string {
    Text.SplitAt(s, '?');
    var path := Text.Split(s, '?')[0];
    if |path| < |s| then s[|path| + 1..] else ""
  }

  lemma QueryOfTarget(path: string, rawQuery: string)
    requires '?' !in path && '#' !in path
    ensures QueryOf(BeforeFragment(path + "?" + rawQuery)) == BeforeFragment(rawQuery)
  {
    var front := path + "?";
    SplitOfConcat(front, rawQuery, '#');
    Text.SplitConcat(front, '#', "");
    assert BeforeFragment(front + rawQuery) == front + BeforeFragment(rawQuery);
    Text.SplitConcat(path, '?', BeforeFragment(rawQuery));
  }

  lemma BeforeFragmentFixes(s: string)
    requires '#' !in s
    ensures BeforeFragment(s) == s
  {
    Text.SplitConcat(s, '#', "");
  }

  /** The last of the first list and the first of the second become one. */
  function Glue(p: seq<string>, q: seq<string>): seq<string>
    requires p != [] && q != []
  {
    p[..|p| - 1] + [p[|p| - 1] + q[0]] + q[1..]
  }

  lemma GlueTail(x: string, p: seq<string>, q: seq<string>)
    requires p != [] && q != []
    ensures Glue([x] + p, q) == [x] + Glue(p, q)
  {
    assert ([x] + p)[..|p|] == [x] + p[..|p| - 1];
  }

  lemma GlueHead(c: char, p: seq<string>, q: seq<string>)
    requires p != [] && q != []
    ensures Glue([[c] + p[0]] + p[1..], q) == [[c] + Glue(p, q)[0]] + Glue(p, q)[1..]
  {
    if |p| == 1 {
      assert [c] + p[0] + q[0] == [c] + (p[0] + q[0]);
    }
  }

  /** Splitting a concatenation joins the last part of the one to the first of the other. */
  lemma {:induction false} SplitOfConcat(a: string, b: string, sep: char)
    ensures Text.Split(a + b, sep) == Glue(Text.Split(a, sep), Text.Split(b, sep))
  {
    var q := Text.Split(b, sep);
    if a == "" {
      assert a + b == b && "" + q[0] == q[0];
      assert Glue([""], q) == q;
    } else {
      var p := Text.Split(a[1..], sep);
      SplitOfConcat(a[1..], b, sep);
      assert (a + b)[1..] == a[1..] + b;
      if a[0] == sep {
        GlueTail("", p, q);
      } else {
        GlueHead(a[0], p, q);
      }
    }
  }

  lemma {:induction false} FirstNamedConcat(unescape: Unescape, p: seq<string>, q: seq<string>, name: string)
    ensures FirstNamed(unescape, p + q, name)
            == if FirstNamed(unescape, p, name).Some? then FirstNamed(unescape, p, name)
               else FirstNamed(unescape, q, name)
  {
    if p == [] {
      assert p + q == q;
    } else {
      assert (p + q)[1..] == p[1..] + q;
      FirstNamedConcat(unescape, p[1..], q, name);
    }
  }

  /** The parts that end before the one a fragment would cut. */
  function WholeParts(rawQuery: string): seq<string> {
    var parts := Text.Split(BeforeFragment(rawQuery), '&');
    parts[..|parts| - 1]
  }

  /** The part a fragment cuts, as it is left. */
  function CutPart(rawQuery: string): string {
    var parts := Text.Split(BeforeFragment(rawQuery), '&');
    parts[|parts| - 1]
  }

  /** That part as the request carries it, and the parts after it. */
  function RestOfParts(rawQuery: string): seq<string> {
    var rest := Text.Split(rawQuery[|BeforeFragment(rawQuery)|..], '&');
    [CutPart(rawQuery) + rest[0]] + rest[1..]
  }

  /**
    A name has the same value with and without the fragment exactly when there is
    no `#`, or a whole part before it has the name, or the cut part happens to give
    it the value that the rest gives it.
  */
  lemma SameWithoutFragment(unescape: Unescape, rawQuery: string, name: string)
    ensures Get(unescape, BeforeFragment(rawQuery), name) == Get(unescape, rawQuery, name)
            <==> || '#' !in rawQuery
                 || FirstNamed(unescape, WholeParts(rawQuery), name).Some?
                 || OrEmpty(FirstNamed(unescape, [CutPart(rawQuery)], name))
                    == OrEmpty(FirstNamed(unescape, RestOfParts(rawQuery), name))
  {
    if '#' !in rawQuery {
      BeforeFragmentFixes(rawQuery);
    } else {
      PartsAroundFragment(rawQuery);
      AgreeOnParts(unescape, WholeParts(rawQuery), CutPart(rawQuery), RestOfParts(rawQuery), name);
    }
  }

  lemma PartsAround(bare: string, rest: string)
    ensures var p, q := Text.Split(bare, '&'), Text.Split(rest, '&');
            var whole, cut := p[..|p| - 1], p[|p| - 1];
            p == whole + [cut] && Text.Split(bare + rest, '&') == whole + ([cut + q[0]] + q[1..])
  {
    SplitOfConcat(bare, rest, '&');
  }

  lemma PartsAroundFragment(rawQuery: string)
    ensures Text.Split(BeforeFragment(rawQuery), '&') == WholeParts(rawQuery) + [CutPart(rawQuery)]
    ensures Text.Split(rawQuery, '&') == WholeParts(rawQuery) + RestOfParts(rawQuery)
  {
    var bare := BeforeFragment(rawQuery);
    var rest := rawQuery[|bare|..];
    assert rawQuery == bare + rest;
    PartsAround(bare, rest);
  }

  lemma AgreeOnParts(unescape: Unescape, whole: seq<string>, cut: string, rest: seq<string>, name: string)
    ensures OrEmpty(FirstNamed(unescape, whole + [cut], name)) == OrEmpty(FirstNamed(unescape, whole + rest, name))
            <==> FirstNamed(unescape, whole, name).Some?
                 || OrEmpty(FirstNamed(unescape, [cut], name)) == OrEmpty(FirstNamed(unescape, rest, name))
  {
    FirstNamedConcat(unescape, whole, [cut], name);
    FirstNamedConcat(unescape, whole, rest, name);
  }

  predicate IsPlain(s: string) {
    forall c <- s :: c != '&' && c != '#' && c != ';' && c != '=' && c != '%' && c != '+'
  }

  lemma PlainPair(unescape: Unescape, name: string, value: string)
    requires IsPlain(name) && IsPlain(value) && unescape(name) == Some(name) && unescape(value) == Some(value)
    ensures PairOf(unescape, name + "=" + value) == Some(Pair(name, value))
  {
    Text.SplitConcat(name, '=', value);
    assert (name + "=" + value)[|name| + 1..] == value;
  }

  predicate ArePlain(pairs: seq<Pair>) {
    forall p <- pairs :: IsPlain(p.name) && IsPlain(p.value)
  }

  /** What `QueryUnescape` does on text with nothing to unescape. */
  ghost predicate FixesPlain(unescape: Unescape) {
    forall x :: IsPlain(x) ==> unescape(x) == Some(x)
  }

  /** The parts of a query that gives these values in this order. */
  function Fields(pairs: seq<Pair>): seq<string> {
    if pairs == [] then [] else [pairs[0].name + "=" + pairs[0].value] + Fields(pairs[1..])
  }

  lemma FieldsStart(pairs: seq<Pair>)
    requires pairs != []
    ensures Fields(pairs) != [] && Fields(pairs)[0] == pairs[0].name + "=" + pairs[0].value
    ensures Fields(pairs)[1..] == Fields(pairs[1..])
  {
  }

  lemma {:induction false} FieldsHold(unescape: Unescape, pairs: seq<Pair>, i: nat)
    requires FixesPlain(unescape) && ArePlain(pairs)
    requires i < |pairs| && forall j :: 0 <= j < i ==> pairs[j].name != pairs[i].name
    ensures FirstNamed(unescape, Fields(pairs), pairs[i].name) == Some(pairs[i].value)
  {
    PlainPair(unescape, pairs[0].name, pairs[0].value);
    FieldsStart(pairs);
    if i > 0 {
      FieldsHold(unescape, pairs[1..], i - 1);
    }
  }

  lemma {:induction false} FieldsAreParts(pairs: seq<Pair>)
    requires ArePlain(pairs)
    ensures forall part <- Fields(pairs) :: '&' !in part && '#' !in part
    ensures |Fields(pairs)| == |pairs|
  {
    if pairs != [] {
      assert IsPlain(pairs[0].name) && IsPlain(pairs[0].value);
      FieldsAreParts(pairs[1..]);
    }
  }

  /** A query whose first part is spoilt, so that it does not count, but for a fragment cut off before its end. */
  function Misleading(name: string, value: string, pairs: seq<Pair>): string {
    Text.Join([name + "=" + value + "#;"] + Fields(pairs), '&')
  }

  /** The values do differ: of such a query the request carries the other fields, and the cut leaves the first. */
  lemma FragmentChangesValue(unescape: Unescape, name: string, value: string, pairs: seq<Pair>, i: nat)
    requires FixesPlain(unescape) && IsPlain(name) && IsPlain(value) && ArePlain(pairs)
    requires i < |pairs| && forall j :: 0 <= j < i ==> pairs[j].name != pairs[i].name
    ensures var raw := Misleading(name, value, pairs);
            && Get(unescape, raw, pairs[i].name) == pairs[i].value
            && Get(unescape, BeforeFragment(raw), name) == value
  {
    var raw, first := Misleading(name, value, pairs), name + "=" + value;
    CarriesFields(unescape, first, pairs, pairs[i].name);
    FieldsHold(unescape, pairs, i);
    MisleadingIs(first, pairs);
    CutAt(first, ";&" + Text.Join(Fields(pairs), '&'));
    OnePart(unescape, first, name);
    PlainPair(unescape, name, value);
  }

  lemma MisleadingIs(first: string, pairs: seq<Pair>)
    requires pairs != []
    ensures Text.Join([first + "#;"] + Fields(pairs), '&') == first + ['#'] + (";&" + Text.Join(Fields(pairs), '&'))
  {
    var fields := Fields(pairs);
    assert ([first + "#;"] + fields)[1..] == fields;
  }

  lemma CarriesFields(unescape: Unescape, first: string, pairs: seq<Pair>, name: string)
    requires ArePlain(pairs) && '&' !in first
    ensures Get(unescape, Text.Join([first + "#;"] + Fields(pairs), '&'), name)
            == OrEmpty(FirstNamed(unescape, Fields(pairs), name))
  {
    var spoilt, fields := first + "#;", Fields(pairs);
    FieldsAreParts(pairs);
    Text.SplitOfJoin([spoilt] + fields, '&');
    assert spoilt[|first| + 1] == ';';
    assert PairOf(unescape, spoilt) == None;
    assert ([spoilt] + fields)[1..] == fields;
  }

  lemma CutAt(bare: string, rest: string)
    requires '#' !in bare
    ensures BeforeFragment(bare + ['#'] + rest) == bare
  {
    Text.SplitConcat(bare, '#', rest);
  }

  lemma OnePart(unescape: Unescape, part: string, name: string)
    requires '&' !in part
    ensures Get(unescape, part, name) == OrEmpty(FirstNamed(unescape, [part], name))
  {
    Text.SplitConcat(part, '&', "");
  }
}
