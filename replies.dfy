/** Reading values out of the server's free-text replies: the gamerule query
    (`GetGameRule`) and the two game-mode queries (`GetDefaultGameMode`,
    `GetUserGameMode`) of internal/minecraft/client.go. */
module Replies {
  import opened Wrappers
  import opened Text
  import opened Errors

  // ---------- gamerule replies ----------

  /** What one reply word contributes: `true`/`false` in any letter case,
      lower-cased, or a word Atoi accepts, as written. */
  function WordValue(f: string): Option<string> {
    var t := TrimSpace(f);
    var l := ToLower(t);
    if l == "true" || l == "false" then Some(l)
    else if Atoi(t).Some? then Some(t)
    else None
  }

  /** The value of every word, in order. */
  function WordValues(fields: seq<string>): (vs: seq<Option<string>>)
    ensures |vs| == |fields| && forall i :: 0 <= i < |fields| ==> vs[i] == WordValue(fields[i])
  {
    seq(|fields|, i requires 0 <= i < |fields| => WordValue(fields[i]))
  }

  /** The last present value of a sequence, searching from the end. */
  function LastSome(vs: seq<Option<string>>): Option<string> {
    if vs == [] then None
    else if vs[|vs| - 1].Some? then vs[|vs| - 1]
    else LastSome(vs[..|vs| - 1])
  }

  /** LastSome finds nothing exactly when no value is present. */
  lemma {:induction false} LastSomeNone(vs: seq<Option<string>>)
    ensures LastSome(vs).None? <==> forall j :: 0 <= j < |vs| ==> vs[j].None?
  {
    if vs != [] && vs[|vs| - 1].None? {
      var init := vs[..|vs| - 1];
      LastSomeNone(init);
      assert forall j :: 0 <= j < |init| ==> init[j] == vs[j];
    }
  }

  /** When LastSome finds a value, it is the last one present. */
  lemma {:induction false} LastSomeIsLast(vs: seq<Option<string>>)
    requires LastSome(vs).Some?
    ensures exists i :: 0 <= i < |vs| && LastSome(vs) == vs[i]
                && forall j :: i < j < |vs| ==> vs[j].None?
  {
    var last := |vs| - 1;
    if vs[last].Some? {
      assert LastSome(vs) == vs[last];
    } else {
      var init := vs[..last];
      LastSomeIsLast(init);
      var i :| 0 <= i < |init| && LastSome(init) == init[i]
               && forall j :: i < j < |init| ==> init[j].None?;
      assert init[i] == vs[i];
      assert forall j :: i < j < last ==> init[j] == vs[j];
    }
  }

  /** The value `GetGameRule` reports for a reply text: a lone word verbatim,
      else the value of the last word that has one, else the trimmed reply. */
  function GameRuleValue(out: string): string {
    var line := TrimSpace(out);
    var fields := Fields(line);
    if |fields| == 1 then fields[0]
    else match LastSome(WordValues(fields))
      case Some(v) => v
      case None => line
  }

  /** The scan of `GetGameRule` finds the value of the last word that has
      one; without such a word it finds nothing. */
  lemma GameRuleScan(fields: seq<string>)
    ensures LastSome(WordValues(fields)).None? <==>
              forall j :: 0 <= j < |fields| ==> WordValue(fields[j]).None?
    ensures LastSome(WordValues(fields)).Some? ==>
              exists i :: 0 <= i < |fields| && LastSome(WordValues(fields)) == WordValue(fields[i])
                && forall j :: i < j < |fields| ==> WordValue(fields[j]).None?
  {
    var vs := WordValues(fields);
    LastSomeNone(vs);
    if LastSome(vs).Some? {
      LastSomeIsLast(vs);
      var i :| 0 <= i < |vs| && LastSome(vs) == vs[i] && forall j :: i < j < |vs| ==> vs[j].None?;
      assert LastSome(vs) == WordValue(fields[i]);
    }
  }

  /** The post-send part of `GetGameRule`: trim, split into words, return a
      lone word as is, else scan from the last word backwards. */
  method ParseGameRuleReply(out: string) returns (value: string)
    ensures value == GameRuleValue(out)
  {
    var line := TrimSpace(out);
    var fields := Fields(line);
    if |fields| == 1 {
      return fields[0];
    }
    ghost var vs := WordValues(fields);
    var i := |fields| - 1;
    assert vs[..i + 1] == vs;
    while i >= 0
      invariant -1 <= i < |fields|
      invariant LastSome(vs) == LastSome(vs[..i + 1])
      decreases i
    {
      var f := TrimSpace(fields[i]);
      var lf := ToLower(f);
      assert vs[..i + 1][i] == vs[i] == WordValue(fields[i]);
      if lf == "true" || lf == "false" {
        assert LastSome(vs[..i + 1]) == Some(lf);
        return lf;
      }
      if Atoi(f).Some? {
        assert LastSome(vs[..i + 1]) == Some(f);
        return f;
      }
      assert vs[i].None?;
      assert vs[..i + 1][..i] == vs[..i];
      i := i - 1;
    }
    return line;
  }

  /** Fields ignore leading and trailing whitespace. */
  lemma {:induction false} FieldsIgnoreLeading(s: string)
    ensures Fields(TrimLeftSpace(s)) == Fields(s)
    decreases |s|
  {
    if s != [] && IsSpace(s[0]) {
      FieldsIgnoreLeading(s[1..]);
    }
  }

  lemma FieldsIgnoreTrailing(s: string)
    ensures Fields(TrimRightSpace(s)) == Fields(s)
  {
    var t := TrimRightSpace(s);
    TrimRightShape(s);
    if |t| < |s| {
      var trail := s[|t|..];
      assert s == t + [trail[0]] + trail[1..];
      FieldsSplitAtSpace(t, trail[0], trail[1..]);
      FieldsOfAllSpace(trail[1..]);
    }
  }

  lemma FieldsOfTrimSpace(s: string)
    ensures Fields(TrimSpace(s)) == Fields(s)
  {
    FieldsIgnoreLeading(s);
    FieldsIgnoreTrailing(TrimLeftSpace(s));
  }

  /** A reply that is one word, surrounded by any whitespace, is returned
      verbatim: not lower-cased and not checked to be a value. */
  lemma GameRuleLoneWord(lead: string, w: string, trail: string)
    requires AllSpace(lead) && AllSpace(trail) && w != [] && NoSpace(w)
    ensures GameRuleValue(lead + w + trail) == w
  {
    var s := lead + w + trail;
    FieldsOfTrimSpace(s);
    FieldsOfWord(w);
    FieldsOfAllSpace(lead);
    FieldsOfAllSpace(trail);
    FieldsConcatSpaces(lead, w, trail);
  }

  lemma FieldsConcatSpaces(lead: string, w: string, trail: string)
    requires AllSpace(lead) && AllSpace(trail)
    ensures Fields(lead + w + trail) == Fields(w + trail)
    ensures Fields(w + trail) == Fields(w)
  {
    FieldsSkipSpaces(lead, w + trail);
    assert lead + w + trail == lead + (w + trail);
    if trail != [] {
      assert w + trail == w + [trail[0]] + trail[1..];
      assert IsSpace(trail[0]);
      assert AllSpace(trail[1..]) by {
        forall k | 0 <= k < |trail[1..]|
          ensures IsSpace(trail[1..][k])
        {
          assert trail[1..][k] == trail[k + 1];
        }
      }
      FieldsSplitAtSpace(w, trail[0], trail[1..]);
      FieldsOfAllSpace(trail[1..]);
      assert Fields(w) + [] == Fields(w);
    } else {
      assert w + trail == w;
    }
  }

  lemma {:induction false} FieldsSkipSpaces(lead: string, rest: string)
    requires AllSpace(lead)
    ensures Fields(lead + rest) == Fields(rest)
    decreases |lead|
  {
    if lead != [] {
      assert (lead + rest)[0] == lead[0] && IsSpace(lead[0]);
      assert (lead + rest)[1..] == lead[1..] + rest;
      assert AllSpace(lead[1..]) by {
        forall k | 0 <= k < |lead[1..]|
          ensures IsSpace(lead[1..][k])
        {
          assert lead[1..][k] == lead[k + 1];
        }
      }
      FieldsSkipSpaces(lead[1..], rest);
    } else {
      assert lead + rest == rest;
    }
  }

  /** A reply with words before a final value word reports that word's
      value: `... set to: TRUE` gives `true`, `... is 24` gives `24`. */
  lemma GameRuleTrailingValue(prefix: string, c: char, w: string)
    requires Fields(prefix) != [] && IsSpace(c) && w != [] && NoSpace(w)
    requires WordValue(w).Some?
    ensures GameRuleValue(prefix + [c] + w) == WordValue(w).value
  {
    var s := prefix + [c] + w;
    FieldsOfTrimSpace(s);
    FieldsSplitAtSpace(prefix, c, w);
    FieldsOfWord(w);
    var fs := Fields(prefix) + [w];
    assert Fields(s) == fs;
    assert fs[..|fs| - 1] == Fields(prefix);
  }

  /** With no value word among two or more words, the whole trimmed reply
      comes back; an empty reply gives "". Parsing never fails. */
  lemma GameRuleFallback(out: string)
    requires |Fields(out)| != 1
    requires forall j :: 0 <= j < |Fields(out)| ==> WordValue(Fields(out)[j]).None?
    ensures GameRuleValue(out) == TrimSpace(out)
  {
    FieldsOfTrimSpace(out);
    GameRuleScan(Fields(out));
  }

  // ---------- game-mode replies ----------

  /** `gameModeNames`: the numeric ids the server reports. */
  const GameModeNames: map<int, string> :=
    map[0 := "survival", 1 := "creative", 2 := "adventure", 3 := "spectator"]

  /** The text after the last ':' of a reply, or None when it has no ':'. */
  function AfterLastColon(out: string): (r: Option<string>)
    ensures r.None? <==> ':' !in out
    ensures r.Some? ==> ':' !in r.value
  {
    SplitCount(out, ':');
    var parts := Split(out, ':');
    if |parts| < 2 then None else Some(parts[|parts| - 1])
  }

  function ModeOfId(num: string): (r: Result<string, Error>)
    ensures r.Ok? ==> r.value in GameModeNames.Values
  {
    match Atoi(num)
    case None => Err(ParseInt(num))
    case Some(id) => if id in GameModeNames then Ok(GameModeNames[id]) else Err(UnknownModeId(id))
  }

  /** The post-send part of `GetDefaultGameMode`: after the last ':', trimmed,
      trailing '}' removed, read as an id. */
  function DefaultModeFromReply(out: string): (r: Result<string, Error>)
    ensures r == Err(UnexpectedResponse(out)) <==> ':' !in out
  {
    match AfterLastColon(out)
    case None => Err(UnexpectedResponse(out))
    case Some(tail) => ModeOfId(TrimRightBrace(TrimSpace(tail)))
  }

  /** The post-send part of `GetUserGameMode`: as above, without the '}' step. */
  function UserModeFromReply(out: string): (r: Result<string, Error>)
    ensures r == Err(UnexpectedResponse(out)) <==> ':' !in out
  {
    match AfterLastColon(out)
    case None => Err(UnexpectedResponse(out))
    case Some(tail) => ModeOfId(TrimSpace(tail))
  }

  lemma DecNoColon(i: int)
    ensures ':' !in Dec(i) && Dec(i) != [] && Trimmed(Dec(i)) && Dec(i)[|Dec(i)| - 1] != '}'
  {
    DecChars(i);
    var d := Dec(i);
    if i < 0 {
      assert |d| >= 2;
    }
    assert IsDigit(d[|d| - 1]);
    assert IsDigit(d[0]) || d[0] == '-';
    forall k | 0 <= k < |d|
      ensures d[k] != ':'
    {
      assert IsDigit(d[k]) || d[k] == '-';
    }
  }

  /** A storage reply ending in `:<id>}` for a known id names that mode,
      whatever text precedes the last ':'. */
  lemma DefaultModeReadsId(prefix: string, id: int)
    requires id in GameModeNames
    ensures DefaultModeFromReply(prefix + ":" + Dec(id) + "}") == Ok(GameModeNames[id])
  {
    var d := Dec(id);
    var tail := d + "}";
    DecNoColon(id);
    assert ':' !in tail;
    SplitLast(prefix, ':', tail);
    assert prefix + ":" + d + "}" == prefix + [':'] + tail;
    assert AfterLastColon(prefix + ":" + d + "}") == Some(tail);
    assert Trimmed(tail);
    TrimSpaceOfTrimmed(tail);
    assert tail[..|tail| - 1] == d;
    assert TrimRightBrace(tail) == TrimRightBrace(d) == d;
    assert 0 <= id <= 3;
    AtoiDec(id);
  }

  /** An entity reply ending in `: <id>` for a known id names that mode. */
  lemma UserModeReadsId(prefix: string, id: int)
    requires id in GameModeNames
    ensures UserModeFromReply(prefix + ": " + Dec(id)) == Ok(GameModeNames[id])
  {
    var d := Dec(id);
    var tail := " " + d;
    DecNoColon(id);
    assert ':' !in tail;
    SplitLast(prefix, ':', tail);
    assert prefix + ": " + d == prefix + [':'] + tail;
    assert AfterLastColon(prefix + ": " + d) == Some(tail);
    assert tail[1..] == d;
    assert TrimLeftSpace(tail) == TrimLeftSpace(d) == d;
    assert TrimSpace(tail) == d;
    assert 0 <= id <= 3;
    AtoiDec(id);
  }

  /** A reply whose last ':' is followed by a number outside the table is an
      unknown-id error. */
  lemma UserModeRejectsId(prefix: string, id: int)
    requires MinInt64 <= id <= MaxInt64 && id !in GameModeNames
    ensures UserModeFromReply(prefix + ":" + Dec(id)) == Err(UnknownModeId(id))
  {
    var d := Dec(id);
    DecNoColon(id);
    SplitLast(prefix, ':', d);
    assert prefix + ":" + d == prefix + [':'] + d;
    assert AfterLastColon(prefix + ":" + d) == Some(d);
    TrimSpaceOfTrimmed(d);
    AtoiDec(id);
    assert ModeOfId(d) == Err(UnknownModeId(id));
  }
}
