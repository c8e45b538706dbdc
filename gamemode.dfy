/** `minecraft_gamemode` (internal/provider/gamemode_resource.go): the default
    game mode or one player's, with the mode it replaced kept for Delete. */
module GamemodeResource {
  import opened Wrappers
  import opened Text
  import opened Errors
  import opened Transport
  import opened Commands
  import opened Replies
  import opened Client
  import opened Framework

  datatype GamemodeData = GamemodeData(id: Str, mode: Str, player: Str, previousMode: Str)

  /** `validateMode`: exactly the names of the server's mode table. */
  function ValidateMode(m: string): (r: Option<Problem>)
    ensures r.None? <==> m in GameModeNames.Values
    ensures r.Some? ==> r == Some(InvalidMode)
  {
    assert GameModeNames[0] == "survival" && GameModeNames[1] == "creative";
    assert GameModeNames[2] == "adventure" && GameModeNames[3] == "spectator";
    if m == "survival" || m == "creative" || m == "adventure" || m == "spectator" then None
    else Some(InvalidMode)
  }

  /** `default`, or `player:` and the player. */
  function ModeID(player: string): string {
    if player == "" then "default" else "player:" + player
  }

  /** The query that snapshots the current mode: the default's or the player's. */
  function QueryFor(player: string): string {
    if player == "" then QueryDefaultGameMode else QueryUserGameMode(player)
  }

  /** The command that sets a mode: the default's or the player's. */
  function SetFor(mode: string, player: string): string {
    if player == "" then DefaultGameMode(mode) else GameMode(mode, player)
  }

  /** What the getter for `player` returns on reply `r`. */
  function QueryResult(player: string, r: Reply): Result<string, Error> {
    match r
    case Failed(cause) => Err(SendFailed(cause))
    case Answer(text) => if player == "" then DefaultModeFromReply(text) else UserModeFromReply(text)
  }

  /** The best-effort snapshot: the getter's mode when it returned a
      non-empty one, else `fallback`. */
  function Snapshot(got: Result<string, Error>, fallback: string): string {
    if got.Ok? && got.value != "" then got.value else fallback
  }

  /** A snapshot is the fallback or a mode the table names, so it is never
      a mode `validateMode` would refuse. */
  lemma SnapshotIsMode(player: string, r: Reply, fallback: string)
    ensures var s := Snapshot(QueryResult(player, r), fallback);
      s == fallback || (s in GameModeNames.Values && ValidateMode(s).None?)
  {
  }

  /** Go's lower-casing takes the capital I with dot above to `i`, so a mode
      written with it is one of the table's names. */
  lemma DottedCapitalIAccepted()
    ensures ToLower(TrimSpace("SURV\U{0130}VAL")) == "survival"
    ensures ValidateMode(ToLower(TrimSpace("SURV\U{0130}VAL"))).None?
  {
    var m := "SURV\U{0130}VAL";
    assert Trimmed(m);
    TrimSpaceOfTrimmed(m);
    assert ToLower("AL") == "al";
    assert ToLower("VAL") == "val";
    assert ToLower("\U{0130}VAL") == "ival";
    assert ToLower("V\U{0130}VAL") == "vival";
    assert ToLower("RV\U{0130}VAL") == "rvival";
    assert ToLower("URV\U{0130}VAL") == "urvival";
  }

  /** The mode names carry no surrounding blanks. */
  lemma ModeNamesTrimmed(m: string)
    requires m in GameModeNames.Values
    ensures TrimSpace(m) == m && m != ""
  {
    assert GameModeNames[0] == "survival" && GameModeNames[1] == "creative";
    assert GameModeNames[2] == "adventure" && GameModeNames[3] == "spectator";
    assert Trimmed(m);
    TrimSpaceOfTrimmed(m);
  }

  /** Create validates the lowered, trimmed mode (sending nothing when it is
      not one), snapshots the current mode, sets the new one, and stores the
      id and the snapshot; the getter's failure never stops the set. */
  method Create(c: Conn, plan: GamemodeData) returns (out: Outcome<GamemodeData>)
    modifies c
    ensures var mode := ToLower(TrimSpace(plan.mode.value));
      ValidateMode(mode).Some? ==> c.log == old(c.log) && out == Rejected(InvalidMode)
    ensures var mode, player, n := ToLower(TrimSpace(plan.mode.value)), TrimSpace(plan.player.value), |old(c.log)|;
      ValidateMode(mode).None? ==>
        c.log == old(c.log) + [Command(QueryFor(player)), Command(SetFor(mode, player))]
        && out == Settle(SendErr(c.ReplyAt(n + 1)),
                         plan.(id := Known(ModeID(player)),
                               previousMode := Known(Snapshot(QueryResult(player, c.ReplyAt(n)), ""))))
  {
    var mode := ToLower(TrimSpace(plan.mode.value));
    var check := ValidateMode(mode);
    if check.Some? {
      return Rejected(check.value);
    }
    var id: string;
    var prev := "";
    var player := TrimSpace(plan.player.value);
    ghost var n := |c.log|;
    if player == "" {
      id := "default";
      var got := GetDefaultGameMode(c);
      assert got == QueryResult(player, c.ReplyAt(n));
      if got.Ok? && got.value != "" {
        prev := got.value;
      }
      var err := SetDefaultGameMode(c, mode);
      if err.Some? {
        return Rejected(Client(err.value));
      }
    } else {
      id := "player:" + player;
      var got := GetUserGameMode(c, player);
      assert got == QueryResult(player, c.ReplyAt(n));
      if got.Ok? && got.value != "" {
        prev := got.value;
      }
      var err := SetUserGameMode(c, mode, player);
      if err.Some? {
        return Rejected(Client(err.value));
      }
    }
    return Stored(plan.(id := Known(id), previousMode := Known(prev)));
  }

  /** Read keeps the state and sends nothing. */
  method Read(c: Conn, state: GamemodeData) returns (out: Outcome<GamemodeData>)
    ensures out == Stored(state)
  {
    return Stored(state);
  }

  /** Update refreshes the snapshot the same way, keeping the stored one
      when the getter fails or returns nothing, and sets the new mode. */
  method Update(c: Conn, plan: GamemodeData, state: GamemodeData) returns (out: Outcome<GamemodeData>)
    modifies c
    ensures var mode := ToLower(TrimSpace(plan.mode.value));
      ValidateMode(mode).Some? ==> c.log == old(c.log) && out == Rejected(InvalidMode)
    ensures var mode, player, n := ToLower(TrimSpace(plan.mode.value)), TrimSpace(plan.player.value), |old(c.log)|;
      ValidateMode(mode).None? ==>
        c.log == old(c.log) + [Command(QueryFor(player)), Command(SetFor(mode, player))]
        && out == Settle(SendErr(c.ReplyAt(n + 1)),
                         plan.(previousMode :=
                                 Known(Snapshot(QueryResult(player, c.ReplyAt(n)), state.previousMode.value))))
  {
    var mode := ToLower(TrimSpace(plan.mode.value));
    var check := ValidateMode(mode);
    if check.Some? {
      return Rejected(check.value);
    }
    var player := TrimSpace(plan.player.value);
    ghost var n := |c.log|;
    var next := plan;
    if player == "" {
      var prev := state.previousMode.value;
      var got := GetDefaultGameMode(c);
      assert got == QueryResult(player, c.ReplyAt(n));
      if got.Ok? && got.value != "" {
        prev := got.value;
      }
      next := next.(previousMode := Known(prev));
      var err := SetDefaultGameMode(c, mode);
      if err.Some? {
        return Rejected(Client(err.value));
      }
    } else {
      var prev := state.previousMode.value;
      var got := GetUserGameMode(c, player);
      assert got == QueryResult(player, c.ReplyAt(n));
      if got.Ok? && got.value != "" {
        prev := got.value;
      }
      next := next.(previousMode := Known(prev));
      var err := SetUserGameMode(c, mode, player);
      if err.Some? {
        return Rejected(Client(err.value));
      }
    }
    return Stored(next);
  }

  /** What Delete sends: the snapshot, trimmed, set back when there is one. */
  function RestoreEntry(state: GamemodeData): Option<Entry> {
    var prev := TrimSpace(state.previousMode.value);
    if prev == "" then None else Some(Command(SetFor(prev, TrimSpace(state.player.value))))
  }

  /** Delete restores the snapshot, if any; its failure is only a warning. */
  method Delete(c: Conn, state: GamemodeData) returns (diags: seq<Diag>)
    modifies c
    ensures !HasError(diags)
    ensures RestoreEntry(state).None? ==> c.log == old(c.log) && diags == []
    ensures RestoreEntry(state).Some? ==>
      c.log == old(c.log) + [RestoreEntry(state).value] && diags == Warned(SendErr(old(c.Next())))
  {
    diags := [];
    var prev := TrimSpace(state.previousMode.value);
    var player := TrimSpace(state.player.value);
    if prev != "" {
      var err: Option<Error>;
      if player == "" {
        err := SetDefaultGameMode(c, prev);
      } else {
        err := SetUserGameMode(c, prev, player);
      }
      diags := Warned(err);
    }
  }

  /** After a Create, Delete puts back exactly the mode the snapshot saw, for
      the same target, and sends nothing when there was none. */
  lemma DeleteRestoresSnapshot(plan: GamemodeData, r: Reply)
    ensures var player := TrimSpace(plan.player.value);
      var snap := Snapshot(QueryResult(player, r), "");
      var stored := plan.(id := Known(ModeID(player)), previousMode := Known(snap));
      RestoreEntry(stored) == if snap == "" then None else Some(Command(SetFor(snap, player)))
  {
    var player := TrimSpace(plan.player.value);
    var snap := Snapshot(QueryResult(player, r), "");
    TrimSpaceIdempotent(plan.player.value);
    SnapshotIsMode(player, r, "");
    if snap != "" {
      ModeNamesTrimmed(snap);
    } else {
      assert TrimSpace("") == "";
    }
  }

  /** ImportState: `default` sets only the id, `player:<name>` also the
      player; anything else, or a blank id, is an error. */
  function ImportState(id: string): (out: Outcome<GamemodeData>)
    ensures out.state.Some? <==>
      TrimSpace(id) == "default" || (TrimSpace(id) != "" && HasPrefix(TrimSpace(id), "player:"))
    ensures out.state.None? ==> out == Rejected(BadImportId)
    ensures out.state.Some? ==> out.state.value.id == Known(TrimSpace(id)) && !HasError(out.diags)
    ensures out.state.Some? ==>
      out.state.value.player == (if TrimSpace(id) == "default" then Unset else Known(TrimSpace(id)[|"player:"|..]))
      && out.state.value.mode == Unset && out.state.value.previousMode == Unset
  {
    var t := TrimSpace(id);
    if t == "" then Rejected(BadImportId)
    else
      var st := GamemodeData(Known(t), Unset, Unset, Unset);
      if t == "default" then Stored(st)
      else if HasPrefix(t, "player:") then Stored(st.(player := Known(t[|"player:"|..])))
      else Rejected(BadImportId)
  }

  /** The id Create stores imports back to the same target. */
  lemma ImportModeID(raw: string)
    ensures var player := TrimSpace(raw);
      var out := ImportState(ModeID(player));
      out.state.Some? && out.state.value.id == Known(ModeID(player))
      && out.state.value.player == (if player == "" then Unset else Known(player))
  {
    var player := TrimSpace(raw);
    TrimSpaceTrimmed(raw);
    if player == "" {
      assert Trimmed("default");
      TrimSpaceOfTrimmed("default");
    } else {
      var id := "player:" + player;
      assert id[0] == 'p' && id[|id| - 1] == player[|player| - 1];
      TrimSpaceOfTrimmed(id);
      assert id[..7] == "player:" && id[7..] == player;
      assert |id| > |"default"|;
    }
  }
}
