/** The methods of `Client` in internal/minecraft/client.go and ban.go. The
    Go `Client` holds nothing but the RCON connection, so every method here
    takes that connection `c`; a method's `ensures` states the exact entries
    it adds to `c.log` and the error (or value) it returns for every reply
    the server may give. */
module Client {
  import opened Wrappers
  import opened Text
  import opened Errors
  import opened Transport
  import opened Commands
  import opened Rules
  import opened Replies

  /** The error of one `SendCommand`, returned unchanged. */
  function SendErr(r: Reply): (e: Option<Error>)
    ensures e.None? <==> r.Answer?
  {
    if r.Failed? then Some(Transport(r.cause)) else None
  }

  /** The error that ends a sequence of sends, if one fails. */
  function FailErr(f: Option<string>): (e: Option<Error>)
    ensures e.None? <==> f.None?
  {
    if f.Some? then Some(Transport(f.value)) else None
  }

  /** One `SendCommand` whose reply text is discarded. */
  method Exchange(c: Conn, cmd: string) returns (err: Option<Error>)
    modifies c
    ensures c.log == old(c.log) + [Command(cmd)]
    ensures err == SendErr(old(c.Next()))
  {
    var r := c.Send(cmd);
    err := SendErr(r);
  }

  /** One call whose command text is not part of this model. */
  method Hidden(c: Conn, call: Transport.Call) returns (err: Option<Error>)
    modifies c
    ensures c.log == old(c.log) + [Opaque(call)]
    ensures err == SendErr(old(c.Next()))
  {
    var r := c.Invoke(call);
    err := SendErr(r);
  }

  // ---------- blocks and entities ----------

  method CreateBlock(c: Conn, material: string, x: Int64, y: Int64, z: Int64)
    returns (err: Option<Error>)
    modifies c
    ensures c.log == old(c.log) + [Command(SetBlock(x, y, z, material))]
    ensures err == SendErr(old(c.Next()))
  {
    err := Exchange(c, SetBlock(x, y, z, material));
  }

  method DeleteBlock(c: Conn, x: Int64, y: Int64, z: Int64) returns (err: Option<Error>)
    modifies c
    ensures c.log == old(c.log) + [Command(AirBlock(x, y, z))]
    ensures err == SendErr(old(c.Next()))
  {
    err := Exchange(c, AirBlock(x, y, z));
  }

  method CreateStairs(c: Conn, material: string, x: Int64, y: Int64, z: Int64,
                      facing: string, half: string, shape: string, waterlogged: bool)
    returns (err: Option<Error>)
    modifies c
    ensures c.log == old(c.log) + [Command(StairsBlock(x, y, z, material, facing, half, shape, waterlogged))]
    ensures err == SendErr(old(c.Next()))
  {
    err := Exchange(c, StairsBlock(x, y, z, material, facing, half, shape, waterlogged));
  }

  method FillBlock(c: Conn, material: string, sx: Int64, sy: Int64, sz: Int64,
                   ex: Int64, ey: Int64, ez: Int64) returns (err: Option<Error>)
    modifies c
    ensures c.log == old(c.log) + [Command(Fill(sx, sy, sz, ex, ey, ez, material))]
    ensures err == SendErr(old(c.Next()))
  {
    err := Exchange(c, Fill(sx, sy, sz, ex, ey, ez, material));
  }

  method CreateEntity(c: Conn, entity: string, position: string, id: string)
    returns (err: Option<Error>)
    modifies c
    ensures c.log == old(c.log) + [Command(Summon(entity, position, id))]
    ensures err == SendErr(old(c.Next()))
  {
    err := Exchange(c, Summon(entity, position, id));
  }

  /** The two commands of `DeleteEntity`, in the order they are sent. */
  function Teardown(entity: string, id: string): seq<Entry> {
    [Command(KillNamed(entity, id)), Command(ClearNamed(entity, id))]
  }

  /** Kill the marked entity, then clear marked items from inventories; a
      failed kill stops before the clear. The position is not used. */
  method DeleteEntity(c: Conn, entity: string, position: string, id: string)
    returns (err: Option<Error>)
    modifies c
    ensures c.log == old(c.log) + c.Attempted(|old(c.log)|, Teardown(entity, id))
    ensures err == FailErr(c.FirstFailure(|old(c.log)|, Teardown(entity, id)))
  {
    c.AttemptedPair(|c.log|, Command(KillNamed(entity, id)), Command(ClearNamed(entity, id)));
    err := Exchange(c, KillNamed(entity, id));
    if err.Some? {
      return;
    }
    err := Exchange(c, ClearNamed(entity, id));
  }

  // ---------- game modes ----------

  method GetDefaultGameMode(c: Conn) returns (mode: Result<string, Error>)
    modifies c
    ensures c.log == old(c.log) + [Command(QueryDefaultGameMode)]
    ensures old(c.Next()).Failed? ==> mode == Err(SendFailed(old(c.Next()).cause))
    ensures old(c.Next()).Answer? ==> mode == DefaultModeFromReply(old(c.Next()).text)
  {
    var r := c.Send(QueryDefaultGameMode);
    match r
    case Failed(cause) => mode := Err(SendFailed(cause));
    case Answer(out) => mode := DefaultModeFromReply(out);
  }

  method GetUserGameMode(c: Conn, name: string) returns (mode: Result<string, Error>)
    modifies c
    ensures c.log == old(c.log) + [Command(QueryUserGameMode(name))]
    ensures old(c.Next()).Failed? ==> mode == Err(SendFailed(old(c.Next()).cause))
    ensures old(c.Next()).Answer? ==> mode == UserModeFromReply(old(c.Next()).text)
  {
    var r := c.Send(QueryUserGameMode(name));
    match r
    case Failed(cause) => mode := Err(SendFailed(cause));
    case Answer(out) => mode := UserModeFromReply(out);
  }

  method SetDefaultGameMode(c: Conn, gamemode: string) returns (err: Option<Error>)
    modifies c
    ensures c.log == old(c.log) + [Command(DefaultGameMode(gamemode))]
    ensures err == SendErr(old(c.Next()))
  {
    err := Exchange(c, DefaultGameMode(gamemode));
  }

  method SetUserGameMode(c: Conn, gamemode: string, name: string) returns (err: Option<Error>)
    modifies c
    ensures c.log == old(c.log) + [Command(GameMode(gamemode, name))]
    ensures err == SendErr(old(c.Next()))
  {
    err := Exchange(c, GameMode(gamemode, name));
  }

  // ---------- operators ----------

  method CreateOp(c: Conn, name: string) returns (err: Option<Error>)
    modifies c
    ensures c.log == old(c.log) + [Command(Op(name))]
    ensures err == SendErr(old(c.Next()))
  {
    err := Exchange(c, Op(name));
  }

  method RemoveOp(c: Conn, name: string) returns (err: Option<Error>)
    modifies c
    ensures c.log == old(c.log) + [Command(Deop(name))]
    ensures err == SendErr(old(c.Next()))
  {
    err := Exchange(c, Deop(name));
  }

  // ---------- teams ----------

  method CreateTeam(c: Conn, name: string, displayName: string) returns (err: Option<Error>)
    modifies c
    ensures c.log == old(c.log) + [Command(TeamAdd(name, displayName))]
    ensures err == SendErr(old(c.Next()))
  {
    err := Exchange(c, TeamAdd(name, displayName));
  }

  method DeleteTeam(c: Conn, name: string) returns (err: Option<Error>)
    modifies c
    ensures c.log == old(c.log) + [Command(TeamRemove(name))]
    ensures err == SendErr(old(c.Next()))
  {
    err := Exchange(c, TeamRemove(name));
  }

  /** The colour is lower-cased before it is sent. */
  method SetTeamColor(c: Conn, name: string, color: string) returns (err: Option<Error>)
    modifies c
    ensures c.log == old(c.log) + [Command(TeamModify(name, "color", ToLower(color)))]
    ensures err == SendErr(old(c.Next()))
  {
    err := Exchange(c, TeamModify(name, "color", ToLower(color)));
  }

  method SetTeamFriendlyFire(c: Conn, name: string, enabled: bool) returns (err: Option<Error>)
    modifies c
    ensures c.log == old(c.log) + [Command(TeamModify(name, "friendlyFire", BoolText(enabled)))]
    ensures err == SendErr(old(c.Next()))
  {
    err := Exchange(c, TeamModify(name, "friendlyFire", BoolText(enabled)));
  }

  method SetTeamSeeFriendlyInvisibles(c: Conn, name: string, enabled: bool)
    returns (err: Option<Error>)
    modifies c
    ensures c.log == old(c.log) + [Command(TeamModify(name, "seeFriendlyInvisibles", BoolText(enabled)))]
    ensures err == SendErr(old(c.Next()))
  {
    err := Exchange(c, TeamModify(name, "seeFriendlyInvisibles", BoolText(enabled)));
  }

  /** The mode is trimmed before it is sent. */
  method SetTeamNametagVisibility(c: Conn, name: string, mode: string) returns (err: Option<Error>)
    modifies c
    ensures c.log == old(c.log) + [Command(TeamModify(name, "nametagVisibility", TrimSpace(mode)))]
    ensures err == SendErr(old(c.Next()))
  {
    err := Exchange(c, TeamModify(name, "nametagVisibility", TrimSpace(mode)));
  }

  /** The rule is trimmed before it is sent. */
  method SetTeamCollisionRule(c: Conn, name: string, rule: string) returns (err: Option<Error>)
    modifies c
    ensures c.log == old(c.log) + [Command(TeamModify(name, "collisionRule", TrimSpace(rule)))]
    ensures err == SendErr(old(c.Next()))
  {
    err := Exchange(c, TeamModify(name, "collisionRule", TrimSpace(rule)));
  }

  /** The display name goes out as a text component with its quotes escaped. */
  method SetTeamDisplayName(c: Conn, name: string, display: string) returns (err: Option<Error>)
    modifies c
    ensures c.log == old(c.log) + [Command(TeamModify(name, "displayName", DisplayComponent(display)))]
    ensures err == SendErr(old(c.Next()))
  {
    err := Exchange(c, TeamModify(name, "displayName", DisplayComponent(display)));
  }

  /** No targets: nothing is sent and there is no error. Otherwise one
      `team join` naming all of them. */
  method JoinTeamTargets(c: Conn, team: string, targets: seq<string>) returns (err: Option<Error>)
    modifies c
    ensures targets == [] ==> c.log == old(c.log) && err.None?
    ensures targets != [] ==>
      c.log == old(c.log) + [Command(TeamJoin(team, targets))] && err == SendErr(old(c.Next()))
  {
    if |targets| == 0 {
      return None;
    }
    err := Exchange(c, TeamJoin(team, targets));
  }

  /** No targets: nothing is sent and there is no error. Otherwise one
      `team leave` naming all of them. */
  method LeaveTeamTargets(c: Conn, targets: seq<string>) returns (err: Option<Error>)
    modifies c
    ensures targets == [] ==> c.log == old(c.log) && err.None?
    ensures targets != [] ==>
      c.log == old(c.log) + [Command(TeamLeave(targets))] && err == SendErr(old(c.Next()))
  {
    if |targets| == 0 {
      return None;
    }
    err := Exchange(c, TeamLeave(targets));
  }

  method JoinTeamPlayers(c: Conn, team: string, players: seq<string>) returns (err: Option<Error>)
    modifies c
    ensures players == [] ==> c.log == old(c.log) && err.None?
    ensures players != [] ==>
      c.log == old(c.log) + [Command(TeamJoin(team, players))] && err == SendErr(old(c.Next()))
  {
    err := JoinTeamTargets(c, team, players);
  }

  method LeaveTeamPlayers(c: Conn, players: seq<string>) returns (err: Option<Error>)
    modifies c
    ensures players == [] ==> c.log == old(c.log) && err.None?
    ensures players != [] ==>
      c.log == old(c.log) + [Command(TeamLeave(players))] && err == SendErr(old(c.Next()))
  {
    err := LeaveTeamTargets(c, players);
  }

  method JoinTeamEntityByName(c: Conn, team: string, customName: string) returns (err: Option<Error>)
    modifies c
    ensures c.log == old(c.log) + [Command(TeamJoin(team, [SelectorByCustomName(customName)]))]
    ensures err == SendErr(old(c.Next()))
  {
    err := JoinTeamTargets(c, team, [SelectorByCustomName(customName)]);
  }

  method LeaveTeamEntityByName(c: Conn, customName: string) returns (err: Option<Error>)
    modifies c
    ensures c.log == old(c.log) + [Command(TeamLeave([SelectorByCustomName(customName)]))]
    ensures err == SendErr(old(c.Next()))
  {
    err := LeaveTeamTargets(c, [SelectorByCustomName(customName)]);
  }

  method JoinTeamEntitiesByTag(c: Conn, team: string, tag: string) returns (err: Option<Error>)
    modifies c
    ensures c.log == old(c.log) + [Command(TeamJoin(team, [TagSelector(tag)]))]
    ensures err == SendErr(old(c.Next()))
  {
    err := JoinTeamTargets(c, team, [TagSelector(tag)]);
  }

  method LeaveTeamEntitiesByTag(c: Conn, tag: string) returns (err: Option<Error>)
    modifies c
    ensures c.log == old(c.log) + [Command(TeamLeave([TagSelector(tag)]))]
    ensures err == SendErr(old(c.Next()))
  {
    err := LeaveTeamTargets(c, [TagSelector(tag)]);
  }

  // ---------- gamerules ----------

  /** The command `SetGameRuleBool` sends, or the error it returns instead. */
  function BoolRuleWrite(rule: string, value: bool): Result<string, Error> {
    var r := TrimSpace(rule);
    if IsBoolRule(r) then Ok(GameRuleSet(r, BoolText(value))) else Err(NotBoolRule(r))
  }

  /** The command `SetGameRuleInt` sends, or the error it returns instead. */
  function IntRuleWrite(rule: string, value: int): Result<string, Error> {
    var r := TrimSpace(rule);
    if IsIntRule(r) then Ok(GameRuleSet(r, Dec(value))) else Err(NotIntRule(r))
  }

  /** The command `ResetGameRuleToDefault` sends, or the error it returns
      instead: the boolean defaults are consulted first, then the integer
      ones, and each goes through the same gate as an ordinary write. */
  function ResetWrite(rule: string): Result<string, Error> {
    var r := TrimSpace(rule);
    if r in DefaultBoolRules then BoolRuleWrite(r, DefaultBoolRules[r])
    else if r in DefaultIntRules then IntRuleWrite(r, DefaultIntRules[r])
    else Err(NoDefault(r))
  }

  /** A boolean write goes out exactly for the registered boolean rules, as
      `gamerule R true|false` with the trimmed name; any other name is
      rejected with that name. */
  lemma BoolRuleGate(rule: string, value: bool)
    ensures BoolRuleWrite(rule, value).Ok? <==> TrimSpace(rule) in BoolRules
    ensures BoolRuleWrite(rule, value).Ok? ==>
      BoolRuleWrite(rule, value).value
        == "gamerule " + TrimSpace(rule) + " " + (if value then "true" else "false")
    ensures BoolRuleWrite(rule, value).Err? ==>
      BoolRuleWrite(rule, value).error == NotBoolRule(TrimSpace(rule))
  {
  }

  /** An integer write goes out exactly for the registered integer rules,
      with the value in decimal, which Atoi reads back. */
  lemma IntRuleGate(rule: string, value: Int64)
    ensures IntRuleWrite(rule, value).Ok? <==> TrimSpace(rule) in IntRules
    ensures IntRuleWrite(rule, value).Ok? ==>
      IntRuleWrite(rule, value).value == "gamerule " + TrimSpace(rule) + " " + Dec(value)
      && Atoi(Dec(value)) == Some(value as int)
    ensures IntRuleWrite(rule, value).Err? ==>
      IntRuleWrite(rule, value).error == NotIntRule(TrimSpace(rule))
  {
    AtoiDec(value);
  }

  /** A reset builds a command exactly for the registered rules, and it never
      fails with anything but "no default". */
  lemma ResetGate(rule: string)
    ensures ResetWrite(rule).Ok? <==> TrimSpace(rule) in BoolRules || TrimSpace(rule) in IntRules
    ensures ResetWrite(rule).Err? ==> ResetWrite(rule).error == NoDefault(TrimSpace(rule))
  {
    DefaultsAreRules(TrimSpace(rule));
    if TrimSpace(rule) in BoolRules {
      BoolRuleDefaults(TrimSpace(rule));
    }
    if TrimSpace(rule) in IntRules {
      IntRuleDefaults(TrimSpace(rule));
    }
    TrimSpaceIdempotent(rule);
  }

  /** For a registered boolean rule the reset is the ordinary write of its default. */
  lemma ResetBoolRule(rule: string)
    requires TrimSpace(rule) in BoolRules
    ensures ResetWrite(rule) == BoolRuleWrite(rule, DefaultBoolRules[TrimSpace(rule)])
  {
    BoolRuleDefaults(TrimSpace(rule));
    TrimSpaceIdempotent(rule);
  }

  /** For a registered integer rule the reset is the ordinary write of its
      default; the boolean defaults, consulted first, never hold such a rule. */
  lemma ResetIntRule(rule: string)
    requires TrimSpace(rule) in IntRules
    ensures ResetWrite(rule) == IntRuleWrite(rule, DefaultIntRules[TrimSpace(rule)])
  {
    IntRuleDefaults(TrimSpace(rule));
    TrimSpaceIdempotent(rule);
  }

  /** Resetting `keepInventory` sends `gamerule keepInventory false`. */
  lemma ResetKeepInventory()
    ensures ResetWrite("keepInventory") == Ok("gamerule keepInventory false")
  {
    var r := "keepInventory";
    TrimSpaceOfTrimmed(r);
    KeepInventoryRule();
    ResetBoolRule(r);
    BoolRuleGate(r, false);
    assert "gamerule " + r + " " + "false" == "gamerule keepInventory false";
  }

  /** Resetting `spawnRadius` sends `gamerule spawnRadius 5`. */
  lemma ResetSpawnRadius()
    ensures ResetWrite("spawnRadius") == Ok("gamerule spawnRadius 5")
  {
    var r := "spawnRadius";
    TrimSpaceOfTrimmed(r);
    SpawnRadiusRule();
    ResetIntRule(r);
    assert Dec(5) == "5";
    assert IntRuleWrite(r, 5) == Ok(GameRuleSet(r, "5"));
    assert GameRuleSet(r, "5") == "gamerule spawnRadius 5";
  }

  /** Sends the planned command, or sends nothing and returns the planned error. */
  method Perform(c: Conn, plan: Result<string, Error>) returns (err: Option<Error>)
    modifies c
    ensures plan.Err? ==> c.log == old(c.log) && err == Some(plan.error)
    ensures plan.Ok? ==>
      c.log == old(c.log) + [Command(plan.value)] && err == SendErr(old(c.Next()))
  {
    if plan.Err? {
      return Some(plan.error);
    }
    err := Exchange(c, plan.value);
  }

  method SetGameRuleBool(c: Conn, rule: string, value: bool) returns (err: Option<Error>)
    modifies c
    ensures BoolRuleWrite(rule, value).Err? ==>
      c.log == old(c.log) && err == Some(BoolRuleWrite(rule, value).error)
    ensures BoolRuleWrite(rule, value).Ok? ==>
      c.log == old(c.log) + [Command(BoolRuleWrite(rule, value).value)] && err == SendErr(old(c.Next()))
  {
    var r := TrimSpace(rule);
    if !IsBoolRule(r) {
      return Some(NotBoolRule(r));
    }
    var val := "false";
    if value {
      val := "true";
    }
    err := Exchange(c, GameRuleSet(r, val));
  }

  method SetGameRuleInt(c: Conn, rule: string, value: Int64) returns (err: Option<Error>)
    modifies c
    ensures IntRuleWrite(rule, value).Err? ==>
      c.log == old(c.log) && err == Some(IntRuleWrite(rule, value).error)
    ensures IntRuleWrite(rule, value).Ok? ==>
      c.log == old(c.log) + [Command(IntRuleWrite(rule, value).value)] && err == SendErr(old(c.Next()))
  {
    var r := TrimSpace(rule);
    if !IsIntRule(r) {
      return Some(NotIntRule(r));
    }
    err := Exchange(c, GameRuleSet(r, Dec(value)));
  }

  /** Queries a rule; a transport error is returned unchanged, any reply is
      turned into a value (never an error), as Replies.ParseGameRuleReply says. */
  method GetGameRule(c: Conn, rule: string) returns (value: Result<string, Error>)
    modifies c
    ensures c.log == old(c.log) + [Command(GameRuleQuery(TrimSpace(rule)))]
    ensures old(c.Next()).Failed? ==> value == Err(Transport(old(c.Next()).cause))
    ensures old(c.Next()).Answer? ==> value == Ok(GameRuleValue(old(c.Next()).text))
  {
    var r := c.Send(GameRuleQuery(TrimSpace(rule)));
    match r
    case Failed(cause) =>
      value := Err(Transport(cause));
    case Answer(out) =>
      var v := ParseGameRuleReply(out);
      value := Ok(v);
  }

  method ResetGameRuleToDefault(c: Conn, rule: string) returns (err: Option<Error>)
    modifies c
    ensures ResetWrite(rule).Err? ==> c.log == old(c.log) && err == Some(ResetWrite(rule).error)
    ensures ResetWrite(rule).Ok? ==>
      c.log == old(c.log) + [Command(ResetWrite(rule).value)] && err == SendErr(old(c.Next()))
  {
    var r := TrimSpace(rule);
    TrimSpaceIdempotent(rule);
    if r in DefaultBoolRules {
      err := SetGameRuleBool(c, r, DefaultBoolRules[r]);
      return;
    }
    if r in DefaultIntRules {
      err := SetGameRuleInt(c, r, DefaultIntRules[r]);
      return;
    }
    return Some(NoDefault(r));
  }

  // ---------- bans ----------

  method BanPlayer(c: Conn, player: string, reason: string) returns (err: Option<Error>)
    modifies c
    ensures c.log == old(c.log) + [Command(Ban(player, reason))]
    ensures err == SendErr(old(c.Next()))
  {
    var cmd := "ban " + player;
    if reason != "" {
      cmd := "ban " + player + " " + reason;
    }
    err := Exchange(c, cmd);
  }

  // ---------- calls whose command text is not modelled ----------

  method CreateZombie(c: Conn, pos: string, id: string, isBaby: bool, canBreakDoors: bool,
                      canPickUpLoot: bool, persistenceRequired: bool) returns (err: Option<Error>)
    modifies c
    ensures c.log == old(c.log)
      + [Opaque(Transport.CreateZombie(pos, id, isBaby, canBreakDoors, canPickUpLoot, persistenceRequired))]
    ensures err == SendErr(old(c.Next()))
  {
    err := Hidden(c, Transport.CreateZombie(pos, id, isBaby, canBreakDoors, canPickUpLoot, persistenceRequired));
  }

  method CreateSheep(c: Conn, pos: string, id: string, color: string, sheared: bool)
    returns (err: Option<Error>)
    modifies c
    ensures c.log == old(c.log) + [Opaque(Transport.CreateSheep(pos, id, color, sheared))]
    ensures err == SendErr(old(c.Next()))
  {
    err := Hidden(c, Transport.CreateSheep(pos, id, color, sheared));
  }

  method SummonVillager(c: Conn, x: Int64, y: Int64, z: Int64, id: string, dataTag: string)
    returns (err: Option<Error>)
    modifies c
    ensures c.log == old(c.log) + [Opaque(Transport.SummonVillager(x, y, z, id, dataTag))]
    ensures err == SendErr(old(c.Next()))
  {
    err := Hidden(c, Transport.SummonVillager(x, y, z, id, dataTag));
  }

  method DeleteVillager(c: Conn, id: string) returns (err: Option<Error>)
    modifies c
    ensures c.log == old(c.log) + [Opaque(Transport.DeleteVillager(id))]
    ensures err == SendErr(old(c.Next()))
  {
    err := Hidden(c, Transport.DeleteVillager(id));
  }

  method SetDayLock(c: Conn, enabled: bool) returns (err: Option<Error>)
    modifies c
    ensures c.log == old(c.log) + [Opaque(Transport.SetDayLock(enabled))]
    ensures err == SendErr(old(c.Next()))
  {
    err := Hidden(c, Transport.SetDayLock(enabled));
  }

  method UnbanPlayer(c: Conn, player: string) returns (err: Option<Error>)
    modifies c
    ensures c.log == old(c.log) + [Opaque(Transport.UnbanPlayer(player))]
    ensures err == SendErr(old(c.Next()))
  {
    err := Hidden(c, Transport.UnbanPlayer(player));
  }
}
