/** The parts of Go's `strings` and `strconv` packages that the client and the
    reconcilers rely on, over `string` = `seq<char>` (Unicode scalar values). */
module Text {
  import opened Wrappers

  // ---------- 64-bit integers ----------

  const MinInt64: int := -0x8000_0000_0000_0000
  const MaxInt64: int := 0x7FFF_FFFF_FFFF_FFFF
  const TwoTo64: int := 0x1_0000_0000_0000_0000

  /** Go's `int` on the 64-bit platforms the provider is built for. */
  type Int64 = x: int | MinInt64 <= x <= MaxInt64

  /** Two's-complement wrap-around of a Go `int` addition. */
  function Wrap64(x: int): (r: Int64)
    ensures MinInt64 <= x <= MaxInt64 ==> r == x
    ensures (r - x) % TwoTo64 == 0
  {
    (x - MinInt64) % TwoTo64 + MinInt64
  }

  // ---------- whitespace (unicode.IsSpace) ----------

  /** Go's `unicode.IsSpace`: the Latin-1 spaces plus the White_Space property. */
  predicate IsSpace(c: char) {
    var n := c as int;
    (0x09 <= n <= 0x0D) || n == 0x20 || n == 0x85 || n == 0xA0 || n == 0x1680
    || (0x2000 <= n <= 0x200A) || n == 0x2028 || n == 0x2029 || n == 0x202F
    || n == 0x205F || n == 0x3000
  }

  predicate NoSpace(s: string) {
    forall i :: 0 <= i < |s| ==> !IsSpace(s[i])
  }

  predicate AllSpace(s: string) {
    forall i :: 0 <= i < |s| ==> IsSpace(s[i])
  }

  /** The string has no leading and no trailing whitespace. */
  predicate Trimmed(s: string) {
    s == [] || (!IsSpace(s[0]) && !IsSpace(s[|s| - 1]))
  }

  /** Drops the leading whitespace (TrimLeftShape says what remains). */
  function TrimLeftSpace(s: string): (r: string)
    ensures |r| <= |s|
  {
    if s != [] && IsSpace(s[0]) then TrimLeftSpace(s[1..]) else s
  }

  /** Drops the trailing whitespace (TrimRightShape says what remains). */
  function TrimRightSpace(s: string): (r: string)
    ensures |r| <= |s|
  {
    if s != [] && IsSpace(s[|s| - 1]) then TrimRightSpace(s[..|s| - 1]) else s
  }

  /** `strings.TrimSpace`. */
  function TrimSpace(s: string): string {
    TrimRightSpace(TrimLeftSpace(s))
  }

  /** What TrimLeftSpace keeps is a suffix starting with a non-space, and all
      it drops is whitespace. */
  lemma {:induction false} TrimLeftShape(s: string)
    ensures var r := TrimLeftSpace(s);
      r == s[|s| - |r|..] && (r == [] || !IsSpace(r[0]))
      && forall i :: 0 <= i < |s| - |r| ==> IsSpace(s[i])
    decreases |s|
  {
    if s != [] && IsSpace(s[0]) {
      TrimLeftShape(s[1..]);
    }
  }

  /** What TrimRightSpace keeps is a prefix ending in a non-space, and all it
      drops is whitespace. */
  lemma {:induction false} TrimRightShape(s: string)
    ensures var r := TrimRightSpace(s);
      r == s[..|r|] && (r == [] || !IsSpace(r[|r| - 1]))
      && forall i :: |r| <= i < |s| ==> IsSpace(s[i])
    decreases |s|
  {
    if s != [] && IsSpace(s[|s| - 1]) {
      TrimRightShape(s[..|s| - 1]);
    }
  }

  lemma TrimLeftBlank(s: string)
    ensures TrimLeftSpace(s) == [] <==> AllSpace(s)
  {
    TrimLeftShape(s);
    var r := TrimLeftSpace(s);
    if r != [] {
      assert r[0] == s[|s| - |r|];
    }
  }

  lemma TrimRightBlank(s: string)
    ensures TrimRightSpace(s) == [] <==> AllSpace(s)
  {
    TrimRightShape(s);
    var r := TrimRightSpace(s);
    if r != [] {
      assert r[|r| - 1] == s[|r| - 1];
    }
  }

  /** TrimSpace leaves no whitespace at either end. */
  lemma TrimSpaceTrimmed(s: string)
    ensures Trimmed(TrimSpace(s))
  {
    var l := TrimLeftSpace(s);
    var r := TrimRightSpace(l);
    TrimLeftShape(s);
    TrimRightShape(l);
    if r != [] {
      assert r[0] == l[0];
    }
  }

  /** TrimSpace leaves an already trimmed string alone, so it is idempotent. */
  lemma TrimSpaceOfTrimmed(s: string)
    requires Trimmed(s)
    ensures TrimSpace(s) == s
  {
  }

  lemma TrimSpaceIdempotent(s: string)
    ensures TrimSpace(TrimSpace(s)) == TrimSpace(s)
  {
    TrimSpaceTrimmed(s);
    TrimSpaceOfTrimmed(TrimSpace(s));
  }

  /** A string trims to "" exactly when it is all whitespace. */
  lemma TrimSpaceBlank(s: string)
    ensures TrimSpace(s) == [] <==> AllSpace(s)
  {
    var l := TrimLeftSpace(s);
    TrimLeftShape(s);
    TrimLeftBlank(s);
    TrimRightBlank(l);
    if AllSpace(l) {
      assert s == s[..|s| - |l|] + l;
    }
  }

  /** `strings.TrimRight(s, "}")`: drops every trailing '}'. */
  function TrimRightBrace(s: string): (r: string)
    ensures |r| <= |s|
  {
    if s != [] && s[|s| - 1] == '}' then TrimRightBrace(s[..|s| - 1]) else s
  }

  // ---------- strings.Fields ----------

  /** Scans `s` left to right with `cur` the word read so far; a whitespace
      character ends the current word, and the end of input ends the last. */
  function FieldsFrom(s: string, cur: string): seq<string> {
    var done := if cur == [] then [] else [cur];
    if s == [] then done
    else if IsSpace(s[0]) then done + FieldsFrom(s[1..], [])
    else FieldsFrom(s[1..], cur + [s[0]])
  }

  /** `strings.Fields`: the maximal runs of non-whitespace, in order. */
  function Fields(s: string): seq<string> {
    FieldsFrom(s, [])
  }

  lemma FieldsLeadingSpace(s: string)
    requires s != [] && IsSpace(s[0])
    ensures Fields(s) == Fields(s[1..])
  {
  }

  lemma {:induction false} FieldsOfAllSpace(s: string)
    requires AllSpace(s)
    ensures Fields(s) == []
    decreases |s|
  {
    if s != [] {
      assert AllSpace(s[1..]) by {
        forall k | 0 <= k < |s[1..]|
          ensures IsSpace(s[1..][k])
        {
          assert s[1..][k] == s[k + 1];
        }
      }
      FieldsOfAllSpace(s[1..]);
    }
  }

  /** A whitespace character ends the word being read and starts afresh. */
  lemma {:induction false} FieldsFromSplitAtSpace(a: string, c: char, b: string, cur: string)
    requires IsSpace(c)
    ensures FieldsFrom(a + [c] + b, cur) == FieldsFrom(a, cur) + Fields(b)
    decreases |a|
  {
    var s := a + [c] + b;
    if a == [] {
      assert s[0] == c && s[1..] == b;
    } else {
      assert s[0] == a[0] && s[1..] == a[1..] + [c] + b;
      if IsSpace(a[0]) {
        FieldsFromSplitAtSpace(a[1..], c, b, []);
      } else {
        FieldsFromSplitAtSpace(a[1..], c, b, cur + [a[0]]);
      }
    }
  }

  /** A whitespace character separates fields: the fields of `a c b` are the
      fields of `a` followed by the fields of `b`. */
  lemma FieldsSplitAtSpace(a: string, c: char, b: string)
    requires IsSpace(c)
    ensures Fields(a + [c] + b) == Fields(a) + Fields(b)
  {
    FieldsFromSplitAtSpace(a, c, b, []);
  }

  lemma {:induction false} FieldsFromWord(w: string, cur: string)
    requires NoSpace(w) && cur + w != []
    ensures FieldsFrom(w, cur) == [cur + w]
    decreases |w|
  {
    if w == [] {
      assert cur + w == cur;
    } else {
      assert (cur + [w[0]]) + w[1..] == cur + w;
      FieldsFromWord(w[1..], cur + [w[0]]);
    }
  }

  /** A single non-empty, whitespace-free token is its own only field. */
  lemma FieldsOfWord(w: string)
    requires w != [] && NoSpace(w)
    ensures Fields(w) == [w]
  {
    FieldsFromWord(w, []);
    assert [] + w == w;
  }

  // ---------- case and quoting ----------

  /** Go's `unicode.ToLower` on the letters whose lower case is ASCII: the
      capitals A to Z, U+0130 (capital I with dot above) and U+212A (Kelvin sign). */
  function LowerChar(c: char): char {
    if 'A' <= c <= 'Z' then (c as int + 32) as char
    else if c == '\U{0130}' then 'i'
    else if c == '\U{212A}' then 'k'
    else c
  }

  /** `strings.ToLower`, for the letters whose lower case is ASCII. */
  function ToLower(s: string): string {
    if s == [] then [] else [LowerChar(s[0])] + ToLower(s[1..])
  }

  /** A letter LowerChar changes. */
  predicate IsUpper(c: char) {
    ('A' <= c <= 'Z') || c == '\U{0130}' || c == '\U{212A}'
  }

  predicate NoUpper(s: string) {
    forall i :: 0 <= i < |s| ==> !IsUpper(s[i])
  }

  /** ToLower changes nothing in a string without upper-case letters. */
  lemma {:induction false} ToLowerNoUpper(s: string)
    requires NoUpper(s)
    ensures ToLower(s) == s
    decreases |s|
  {
    if s != [] {
      assert NoUpper(s[1..]) by {
        forall k | 0 <= k < |s[1..]|
          ensures !IsUpper(s[1..][k])
        {
          assert s[1..][k] == s[k + 1];
        }
      }
      ToLowerNoUpper(s[1..]);
    }
  }

  /** ToLower leaves no upper-case letter, so lowering twice is lowering once. */
  lemma {:induction false} ToLowerIdempotent(s: string)
    ensures |ToLower(s)| == |s| && NoUpper(ToLower(s))
    ensures ToLower(ToLower(s)) == ToLower(s)
    decreases |s|
  {
    if s != [] {
      ToLowerIdempotent(s[1..]);
      var t := ToLower(s);
      assert t == [LowerChar(s[0])] + ToLower(s[1..]);
      assert NoUpper(t) by {
        forall k | 0 <= k < |t|
          ensures !IsUpper(t[k])
        {
          if k > 0 {
            assert t[k] == ToLower(s[1..])[k - 1];
          }
        }
      }
      ToLowerNoUpper(t);
    }
  }

  /** `strings.ReplaceAll(s, "\"", "\\\"")`: every double quote gets a backslash. */
  function EscapeQuotes(s: string): (r: string)
    ensures |r| >= |s|
    ensures '"' !in s ==> r == s
  {
    if s == [] then []
    else (if s[0] == '"' then ['\\', '"'] else [s[0]]) + EscapeQuotes(s[1..])
  }

  /** The inverse reading of EscapeQuotes: a backslash-quote pair becomes a quote. */
  function UnescapeQuotes(s: string): string {
    if s == [] then []
    else if |s| >= 2 && s[0] == '\\' && s[1] == '"' then ['"'] + UnescapeQuotes(s[2..])
    else [s[0]] + UnescapeQuotes(s[1..])
  }

  /** Escaping loses nothing: the original text can be read back. */
  lemma {:induction false} UnescapeEscape(s: string)
    ensures UnescapeQuotes(EscapeQuotes(s)) == s
  {
    if s != [] {
      UnescapeEscape(s[1..]);
      var rest := EscapeQuotes(s[1..]);
      EscapeNoLeadingQuote(s[1..]);
      if s[0] == '"' {
        assert EscapeQuotes(s) == ['\\', '"'] + rest;
        assert (['\\', '"'] + rest)[2..] == rest;
      } else {
        assert EscapeQuotes(s) == [s[0]] + rest;
        assert ([s[0]] + rest)[1..] == rest;
      }
    }
  }

  lemma EscapeNoLeadingQuote(s: string)
    ensures EscapeQuotes(s) == [] || EscapeQuotes(s)[0] != '"'
  {
  }

  /** Every quote in the escaped text is preceded by a backslash. */
  lemma {:induction false} EscapedQuotesArePreceded(s: string)
    ensures forall i :: 0 <= i < |EscapeQuotes(s)| && EscapeQuotes(s)[i] == '"' ==>
              i > 0 && EscapeQuotes(s)[i - 1] == '\\'
  {
    if s != [] {
      EscapedQuotesArePreceded(s[1..]);
      EscapeNoLeadingQuote(s[1..]);
    }
  }

  /** Distinct names escape to distinct texts. */
  lemma EscapeInjective(a: string, b: string)
    requires EscapeQuotes(a) == EscapeQuotes(b)
    ensures a == b
  {
    UnescapeEscape(a);
    UnescapeEscape(b);
  }

  // ---------- integers: %d and strconv.Atoi ----------

  predicate IsDigit(c: char) {
    '0' <= c <= '9'
  }

  function DigitChar(d: nat): char
    requires d < 10
  {
    ('0' as int + d) as char
  }

  /** Base-10 digits of a natural number, most significant first, no separators. */
  function NatDigits(n: nat): (s: string)
    ensures s != [] && AllDigits(s)
  {
    if n < 10 then [DigitChar(n)] else NatDigits(n / 10) + [DigitChar(n % 10)]
  }

  /** `fmt.Sprintf("%d", i)`. */
  function Dec(i: int): string {
    if i < 0 then "-" + NatDigits(-i) else NatDigits(i)
  }

  predicate AllDigits(s: string) {
    forall i :: 0 <= i < |s| ==> IsDigit(s[i])
  }

  function DigitsValue(s: string): nat
    requires AllDigits(s)
  {
    if s == [] then 0
    else
      assert IsDigit(s[|s| - 1]);
      DigitsValue(s[..|s| - 1]) * 10 + (s[|s| - 1] as int - '0' as int)
  }

  /** `strconv.Atoi`: an optional '+' or '-' sign followed by one or more ASCII
      digits, whose value fits a 64-bit int. */
  function Atoi(s: string): (r: Option<int>)
    ensures r.Some? ==> MinInt64 <= r.value <= MaxInt64
  {
    if s == [] then None
    else
      var neg := s[0] == '-';
      var digits := if s[0] == '-' || s[0] == '+' then s[1..] else s;
      if digits == [] || !AllDigits(digits) then None
      else
        var mag: int := DigitsValue(digits);
        var v: int := if neg then -mag else mag;
        if MinInt64 <= v <= MaxInt64 then Some(v) else None
  }

  lemma {:induction false} DigitsValueOfNatDigits(n: nat)
    ensures DigitsValue(NatDigits(n)) == n
  {
    if n >= 10 {
      var s := NatDigits(n);
      DigitsValueOfNatDigits(n / 10);
      assert s[..|s| - 1] == NatDigits(n / 10);
    }
  }

  lemma AtoiOfDigits(s: string)
    requires s != [] && AllDigits(s) && DigitsValue(s) <= MaxInt64
    ensures Atoi(s) == Some(DigitsValue(s))
  {
    assert s[0] != '-' && s[0] != '+';
  }

  lemma AtoiOfNegDigits(s: string)
    requires s != [] && AllDigits(s) && DigitsValue(s) <= -MinInt64
    ensures Atoi("-" + s) == Some(-(DigitsValue(s) as int))
  {
    assert ("-" + s)[1..] == s;
  }

  /** `%d` and Atoi are inverse on every 64-bit int. */
  lemma AtoiDec(i: int)
    requires MinInt64 <= i <= MaxInt64
    ensures Atoi(Dec(i)) == Some(i)
  {
    if i < 0 {
      DigitsValueOfNatDigits(-i);
      AtoiOfNegDigits(NatDigits(-i));
    } else {
      DigitsValueOfNatDigits(i);
      AtoiOfDigits(NatDigits(i));
    }
  }

  /** `%d` output contains no space or separator: only digits and a leading '-'. */
  lemma DecChars(i: int)
    ensures Dec(i) != [] && NoSpace(Dec(i))
    ensures forall k :: 0 <= k < |Dec(i)| ==> IsDigit(Dec(i)[k]) || (k == 0 && i < 0 && Dec(i)[k] == '-')
  {
  }

  /** `fmt.Sprintf("%t", b)`. */
  function BoolText(b: bool): string {
    if b then "true" else "false"
  }

  // ---------- splitting ----------

  /** Cut at the first `c`: None when `c` does not occur. */
  function Cut(s: string, c: char): (r: Option<(string, string)>)
    ensures r.None? <==> c !in s
    ensures r.Some? ==> s == r.value.0 + [c] + r.value.1 && c !in r.value.0
  {
    if s == [] then None
    else if s[0] == c then Some(([], s[1..]))
    else match Cut(s[1..], c)
      case None => None
      case Some(p) => Some(([s[0]] + p.0, p.1))
  }

  /** `strings.Split(s, string(c))`. */
  function Split(s: string, c: char): (parts: seq<string>)
    ensures |parts| >= 1
    ensures forall i :: 0 <= i < |parts| ==> c !in parts[i]
    decreases |s|
  {
    match Cut(s, c)
    case None => [s]
    case Some(p) => [p.0] + Split(p.1, c)
  }

  /** `strings.Join(parts, string(c))`. */
  function Join(parts: seq<string>, c: char): string
    requires |parts| >= 1
  {
    if |parts| == 1 then parts[0] else parts[0] + [c] + Join(parts[1..], c)
  }

  /** Split has two or more parts exactly when the separator occurs. */
  lemma SplitCount(s: string, c: char)
    ensures |Split(s, c)| >= 2 <==> c in s
  {
  }

  lemma {:induction false} CutOfJoin(a: string, c: char, b: string)
    requires c !in a
    ensures Cut(a + [c] + b, c) == Some((a, b))
  {
    if a == [] {
      assert (a + [c] + b)[1..] == b;
    } else {
      assert (a + [c] + b)[1..] == a[1..] + [c] + b;
      CutOfJoin(a[1..], c, b);
      assert [a[0]] + a[1..] == a;
    }
  }

  /** Splitting a joined list of separator-free parts gives the parts back. */
  lemma {:induction false} SplitJoin(parts: seq<string>, c: char)
    requires |parts| >= 1
    requires forall i :: 0 <= i < |parts| ==> c !in parts[i]
    ensures Split(Join(parts, c), c) == parts
  {
    if |parts| > 1 {
      CutOfJoin(parts[0], c, Join(parts[1..], c));
      SplitJoin(parts[1..], c);
    }
  }

  /** Appending a separator and a separator-free word adds exactly that word
      as a last part. */
  lemma {:induction false} SplitSnoc(p: string, c: char, q: string)
    requires c !in q
    ensures Split(p + [c] + q, c) == Split(p, c) + [q]
    decreases |p|
  {
    match Cut(p, c)
    case None =>
      CutOfJoin(p, c, q);
      assert Cut(q, c).None?;
    case Some(h) =>
      var rest := h.1 + [c] + q;
      assert p + [c] + q == h.0 + [c] + rest;
      CutOfJoin(h.0, c, rest);
      SplitSnoc(h.1, c, q);
  }

  /** Splitting at one separator joins the splits of both sides. */
  lemma {:induction false} SplitAppend(p: string, c: char, q: string)
    ensures Split(p + [c] + q, c) == Split(p, c) + Split(q, c)
    decreases |p|
  {
    match Cut(p, c)
    case None =>
      CutOfJoin(p, c, q);
    case Some(h) =>
      var rest := h.1 + [c] + q;
      assert p + [c] + q == h.0 + [c] + rest;
      CutOfJoin(h.0, c, rest);
      SplitAppend(h.1, c, q);
  }

  /** The last part of a split is the text after the last separator. */
  lemma SplitLast(p: string, c: char, q: string)
    requires c !in q
    ensures var parts := Split(p + [c] + q, c); |parts| >= 2 && parts[|parts| - 1] == q
  {
    SplitSnoc(p, c, q);
  }

  /** `strings.SplitN(s, string(c), 3)`: at most three parts, the last holding the rest. */
  function SplitN3(s: string, c: char): (parts: seq<string>)
    ensures 1 <= |parts| <= 3
  {
    match Cut(s, c)
    case None => [s]
    case Some(p) =>
      match Cut(p.1, c)
      case None => [p.0, p.1]
      case Some(q) => [p.0, q.0, q.1]
  }

  /** SplitN3 yields three parts exactly when `c` occurs twice or more, and it
      recovers the first two separator-free fields and the verbatim rest. */
  lemma SplitN3Join(a: string, b: string, rest: string, c: char)
    requires c !in a && c !in b
    ensures SplitN3(a + [c] + b + [c] + rest, c) == [a, b, rest]
  {
    CutOfJoin(a, c, b + [c] + rest);
    assert a + [c] + b + [c] + rest == a + [c] + (b + [c] + rest);
    CutOfJoin(b, c, rest);
  }

  lemma SplitN3Three(s: string, c: char)
    ensures |SplitN3(s, c)| == 3 <==> exists i, j :: 0 <= i < j < |s| && s[i] == c && s[j] == c
  {
    match Cut(s, c)
    case None =>
    case Some(p) =>
      var k := |p.0|;
      assert s[k] == c;
      match Cut(p.1, c)
      case None =>
        forall i, j | 0 <= i < j < |s| && s[i] == c && s[j] == c
          ensures false
        {
        }
      case Some(q) =>
        assert s[k + 1 + |q.0|] == c;
  }

  /** `strings.HasPrefix`. */
  predicate HasPrefix(s: string, prefix: string) {
    |prefix| <= |s| && s[..|prefix|] == prefix
  }
}
