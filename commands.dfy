/** The exact command texts the client sends over RCON, as built by the
    `fmt.Sprintf` calls of internal/minecraft/client.go and ban.go. */
module Commands {
  import opened Wrappers
  import opened Text

  const Sp: string := " "

  /** `setblock x y z M replace`. */
  function SetBlock(x: int, y: int, z: int, material: string): string {
    "setblock" + Sp + Dec(x) + Sp + Dec(y) + Sp + Dec(z) + Sp + material + Sp + "replace"
  }

  /** `setblock x y z minecraft:air replace`. */
  function AirBlock(x: int, y: int, z: int): string {
    SetBlock(x, y, z, Air)
  }

  const Air: string := "minecraft:air"

  /** `setblock x y z M[facing=F,half=H,shape=S,waterlogged=W] replace`. */
  function StairsBlock(x: int, y: int, z: int, material: string, facing: string, half: string,
                       shape: string, waterlogged: bool): string {
    SetBlock(x, y, z, material + "[facing=" + facing + ",half=" + half + ",shape=" + shape
                      + ",waterlogged=" + BoolText(waterlogged) + "]")
  }

  /** `fill sx sy sz ex ey ez M hollow`. */
  function Fill(sx: int, sy: int, sz: int, ex: int, ey: int, ez: int, material: string): string {
    "fill" + Sp + Dec(sx) + Sp + Dec(sy) + Sp + Dec(sz) + Sp + Dec(ex) + Sp + Dec(ey) + Sp + Dec(ez)
    + Sp + material + Sp + "hollow"
  }

  /** The JSON text component `{"text":"N"}` inside single quotes, as the
      CustomName marker of summoned entities. */
  function NameComponent(name: string): string {
    "'{\"text\":\"" + name + "\"}'"
  }

  /** `summon E P {CustomName:'{"text":"ID"}'}`. */
  function Summon(entity: string, position: string, id: string): string {
    "summon " + entity + Sp + position + " {CustomName:" + NameComponent(id) + "}"
  }

  /** `kill @e[type=E,nbt={CustomName:'{"text":"ID"}'}]`. */
  function KillNamed(entity: string, id: string): string {
    "kill @e[type=" + entity + ",nbt={CustomName:" + NameComponent(id) + "}]"
  }

  /** `clear @a E{display:{Name:'{"text":"ID"}'}}`. */
  function ClearNamed(entity: string, id: string): string {
    "clear @a " + entity + "{display:{Name:" + NameComponent(id) + "}}"
  }

  const QueryDefaultGameMode: string := "/data get storage minecraft:server worldDefaultGameMode"

  function QueryUserGameMode(name: string): string {
    "/data get entity " + name + " playerGameType"
  }

  function DefaultGameMode(mode: string): string {
    "defaultgamemode " + mode
  }

  function GameMode(mode: string, name: string): string {
    "gamemode " + mode + Sp + name
  }

  function Op(name: string): string {
    "op " + name
  }

  function Deop(name: string): string {
    "deop " + name
  }

  /** `team add N "D"` when a display name is given, else `team add N`;
      the display name is inserted without escaping. */
  function TeamAdd(name: string, display: string): string {
    if display != "" then "team add " + name + " \"" + display + "\"" else "team add " + name
  }

  function TeamRemove(name: string): string {
    "team remove " + name
  }

  /** `team modify N O V`. */
  function TeamModify(name: string, option: string, value: string): string {
    "team modify " + name + Sp + option + Sp + value
  }

  /** `{"text":"D"}` with every quote of D escaped. */
  function DisplayComponent(display: string): string {
    "{\"text\":\"" + EscapeQuotes(display) + "\"}"
  }

  /** `team join T t1 t2 ...`. */
  function TeamJoin(team: string, targets: seq<string>): string
    requires |targets| >= 1
  {
    "team" + Sp + "join" + Sp + team + Sp + Join(targets, ' ')
  }

  /** `team leave t1 t2 ...`. */
  function TeamLeave(targets: seq<string>): string
    requires |targets| >= 1
  {
    "team" + Sp + "leave" + Sp + Join(targets, ' ')
  }

  const SelectorPrefix: string := "@e[nbt={CustomName:'{\"text\":\""
  const SelectorSuffix: string := "\"}'}]"

  /** `selectorByCustomName`: the entity selector matching one exact
      CustomName text, with the name's quotes escaped. */
  function SelectorByCustomName(name: string): (sel: string)
    ensures '"' !in name ==> sel == SelectorPrefix + name + SelectorSuffix
  {
    SelectorPrefix + EscapeQuotes(name) + SelectorSuffix
  }

  /** `@e[tag=T]`. */
  function TagSelector(tag: string): string {
    "@e[tag=" + tag + "]"
  }

  /** `gamerule R V`: the write form. */
  function GameRuleSet(rule: string, value: string): string {
    "gamerule " + rule + Sp + value
  }

  /** `gamerule R`: the query form. */
  function GameRuleQuery(rule: string): string {
    "gamerule " + rule
  }

  /** `ban P`, or `ban P R` with a non-empty reason inserted verbatim. */
  function Ban(player: string, reason: string): string {
    if reason != "" then "ban " + player + Sp + reason else "ban " + player
  }

  // ---------- properties of the command texts ----------

  lemma NoSpaceNoBlank(s: string)
    requires NoSpace(s)
    ensures ' ' !in s
  {
    forall i | 0 <= i < |s|
      ensures s[i] != ' '
    {
      assert !IsSpace(s[i]);
    }
  }

  lemma DecNoBlank(i: int)
    ensures ' ' !in Dec(i) && Dec(i) != []
  {
    DecChars(i);
    NoSpaceNoBlank(Dec(i));
  }

  /** Splitting a blank-free word off the end of a command. */
  lemma SplitWord(p: string, w: string, ws: seq<string>)
    requires ' ' !in w && Split(p, ' ') == ws
    ensures Split(p + Sp + w, ' ') == ws + [w]
  {
    SplitSnoc(p, ' ', w);
  }

  lemma SplitSix(a: string, b: string, c: string, d: string, e: string, f: string)
    requires ' ' !in a && ' ' !in b && ' ' !in c && ' ' !in d && ' ' !in e && ' ' !in f
    ensures Split(a + Sp + b + Sp + c + Sp + d + Sp + e + Sp + f, ' ') == [a, b, c, d, e, f]
  {
    assert Cut(a, ' ').None?;
    SplitWord(a, b, [a]);
    SplitWord(a + Sp + b, c, [a, b]);
    SplitWord(a + Sp + b + Sp + c, d, [a, b, c]);
    SplitWord(a + Sp + b + Sp + c + Sp + d, e, [a, b, c, d]);
    SplitWord(a + Sp + b + Sp + c + Sp + d + Sp + e, f, [a, b, c, d, e]);
  }

  lemma SplitNine(a: string, b: string, c: string, d: string, e: string, f: string,
                  g: string, h: string, i: string)
    requires ' ' !in a && ' ' !in b && ' ' !in c && ' ' !in d && ' ' !in e && ' ' !in f
    requires ' ' !in g && ' ' !in h && ' ' !in i
    ensures Split(a + Sp + b + Sp + c + Sp + d + Sp + e + Sp + f + Sp + g + Sp + h + Sp + i, ' ')
            == [a, b, c, d, e, f, g, h, i]
  {
    var p := a + Sp + b + Sp + c + Sp + d + Sp + e + Sp + f;
    SplitSix(a, b, c, d, e, f);
    SplitWord(p, g, [a, b, c, d, e, f]);
    SplitWord(p + Sp + g, h, [a, b, c, d, e, f, g]);
    SplitWord(p + Sp + g + Sp + h, i, [a, b, c, d, e, f, g, h]);
  }

  /** A `setblock` command splits on blanks into exactly its six words; each
      coordinate word is the `%d` text of the coordinate, which Atoi reads
      back (Text.AtoiDec). */
  lemma SetBlockWords(x: int, y: int, z: int, material: string)
    requires ' ' !in material
    ensures Split(SetBlock(x, y, z, material), ' ')
            == ["setblock", Dec(x), Dec(y), Dec(z), material, "replace"]
  {
    DecNoBlank(x);
    DecNoBlank(y);
    DecNoBlank(z);
    SplitSix("setblock", Dec(x), Dec(y), Dec(z), material, "replace");
  }

  /** The block a `setblock` command addresses, read back from its words:
      None for any other text. */
  function Addressed(cmd: string): Option<(int, int, int)> {
    var w := Split(cmd, ' ');
    if |w| == 6 && w[0] == "setblock" && Atoi(w[1]).Some? && Atoi(w[2]).Some? && Atoi(w[3]).Some?
    then Some((Atoi(w[1]).value, Atoi(w[2]).value, Atoi(w[3]).value))
    else None
  }

  /** Every `setblock` of a blank-free material addresses its coordinates,
      whatever the material: placing and clearing a block name the same one. */
  lemma SetBlockAddressed(x: Int64, y: Int64, z: Int64, material: string)
    requires ' ' !in material
    ensures Addressed(SetBlock(x, y, z, material)) == Some((x, y, z))
  {
    SetBlockWords(x, y, z, material);
    AtoiDec(x);
    AtoiDec(y);
    AtoiDec(z);
  }

  /** A `fill` command splits on blanks into exactly its nine words. */
  lemma FillWords(sx: int, sy: int, sz: int, ex: int, ey: int, ez: int, material: string)
    requires ' ' !in material
    ensures Split(Fill(sx, sy, sz, ex, ey, ez, material), ' ')
            == ["fill", Dec(sx), Dec(sy), Dec(sz), Dec(ex), Dec(ey), Dec(ez), material, "hollow"]
  {
    DecNoBlank(sx); DecNoBlank(sy); DecNoBlank(sz);
    DecNoBlank(ex); DecNoBlank(ey); DecNoBlank(ez);
    SplitNine("fill", Dec(sx), Dec(sy), Dec(sz), Dec(ex), Dec(ey), Dec(ez), material, "hollow");
  }

  /** Splitting a blank-free word off the front of a command. */
  lemma SplitLead(a: string, rest: string)
    requires ' ' !in a
    ensures Split(a + Sp + rest, ' ') == [a] + Split(rest, ' ')
  {
    SplitAppend(a, ' ', rest);
    assert Cut(a, ' ').None?;
  }

  lemma SplitLeadTwo(a: string, b: string, rest: string)
    requires ' ' !in a && ' ' !in b
    ensures Split(a + Sp + b + Sp + rest, ' ') == [a, b] + Split(rest, ' ')
  {
    assert a + Sp + b + Sp + rest == a + Sp + (b + Sp + rest);
    SplitLead(a, b + Sp + rest);
    SplitLead(b, rest);
  }

  /** A `team join` command splits on blanks into `team`, `join`, the team
      and then exactly the targets, one word each, when none of them holds a
      blank. */
  lemma TeamJoinWords(team: string, targets: seq<string>)
    requires |targets| >= 1 && ' ' !in team
    requires forall i :: 0 <= i < |targets| ==> ' ' !in targets[i]
    ensures Split(TeamJoin(team, targets), ' ') == ["team", "join", team] + targets
  {
    var j := Join(targets, ' ');
    assert "team" + Sp + "join" + Sp + team + Sp + j == "team" + Sp + "join" + Sp + (team + Sp + j);
    SplitLeadTwo("team", "join", team + Sp + j);
    SplitLead(team, j);
    SplitJoin(targets, ' ');
  }

  /** A `team leave` command splits on blanks into `team`, `leave` and
      exactly the targets. */
  lemma TeamLeaveWords(targets: seq<string>)
    requires |targets| >= 1
    requires forall i :: 0 <= i < |targets| ==> ' ' !in targets[i]
    ensures Split(TeamLeave(targets), ' ') == ["team", "leave"] + targets
  {
    SplitLeadTwo("team", "leave", Join(targets, ' '));
    SplitJoin(targets, ' ');
  }

  /** The ban command always starts with `ban ` and the player; with an empty
      reason it is exactly that, otherwise the reason follows after one blank. */
  lemma BanShape(player: string, reason: string)
    ensures HasPrefix(Ban(player, reason), "ban " + player)
    ensures reason == "" ==> Ban(player, reason) == "ban " + player
    ensures reason != "" ==> Ban(player, reason) == "ban " + player + " " + reason
  {
    var p := "ban " + player;
    assert Ban(player, reason)[..|p|] == p;
  }

  /** Selectors are deterministic and tell names apart: two names get the same
      selector only if they are the same name. */
  lemma SelectorInjective(a: string, b: string)
    requires SelectorByCustomName(a) == SelectorByCustomName(b)
    ensures a == b
  {
    var ea := EscapeQuotes(a);
    var eb := EscapeQuotes(b);
    assert ea == SelectorByCustomName(a)[|SelectorPrefix|..|SelectorPrefix| + |ea|];
    assert |ea| == |eb|;
    assert eb == SelectorByCustomName(b)[|SelectorPrefix|..|SelectorPrefix| + |eb|];
    EscapeInjective(a, b);
  }

  /** The name can be read back from its selector: unescaping the text
      between the fixed prefix and suffix gives the name. */
  lemma SelectorReadBack(name: string)
    ensures var sel := SelectorByCustomName(name);
      |sel| >= |SelectorPrefix| + |SelectorSuffix|
      && UnescapeQuotes(sel[|SelectorPrefix|..|sel| - |SelectorSuffix|]) == name
  {
    var e := EscapeQuotes(name);
    var sel := SelectorByCustomName(name);
    assert sel[|SelectorPrefix|..|sel| - |SelectorSuffix|] == e;
    UnescapeEscape(name);
  }

  /** `x y z`: the position text of `summon` and of the entity resources. */
  function Pos(x: int, y: int, z: int): string {
    Dec(x) + Sp + Dec(y) + Sp + Dec(z)
  }

  /** The NBT compound `{CustomName:'{"text":"ID"}'}` that marks an entity. */
  function NameTag(id: string): string {
    "{CustomName:" + NameComponent(id) + "}"
  }

  /** `summon` gives the entity exactly the compound the `kill` selects it by. */
  lemma SummonAndKillShareTag(entity: string, position: string, id: string)
    ensures Summon(entity, position, id) == "summon " + entity + Sp + position + Sp + NameTag(id)
    ensures KillNamed(entity, id) == "kill @e[type=" + entity + ",nbt=" + NameTag(id) + "]"
  {
    var q := NameComponent(id);
    assert "summon " + entity + Sp + position + " {CustomName:" + q + "}"
        == "summon " + entity + Sp + position + Sp + ("{CustomName:" + q + "}");
    assert "kill @e[type=" + entity + ",nbt={CustomName:" + q + "}]"
        == "kill @e[type=" + entity + ",nbt=" + ("{CustomName:" + q + "}") + "]";
  }

  /** Different ids give different markers: a `kill` for one id never
      selects by another's name. */
  lemma KillNamedInjective(entity: string, a: string, b: string)
    requires KillNamed(entity, a) == KillNamed(entity, b)
    ensures a == b
  {
    var pre := "kill @e[type=" + entity + ",nbt={CustomName:'{\"text\":\"";
    var ka, kb := KillNamed(entity, a), KillNamed(entity, b);
    assert ka == pre + a + "\"}'}]";
    assert kb == pre + b + "\"}'}]";
    assert |a| == |b|;
    assert a == ka[|pre|..|pre| + |a|];
    assert b == kb[|pre|..|pre| + |b|];
  }
}
