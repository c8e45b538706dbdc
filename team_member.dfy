/** `minecraft_team_member` (internal/provider/team_member_resource.go): one
    player, selector or named entity on a team, identified by `team|kind|value`. */
module TeamMemberResource {
  import opened Wrappers
  import opened Text
  import opened Errors
  import opened Transport
  import opened Commands
  import opened Client
  import opened Framework

  datatype MemberData = MemberData(id: Str, team: Str, player: Str, selector: Str, entityId: Str)

  /** A target attribute that counts as set: not null and not blank. */
  predicate Chosen(s: Str) {
    !s.isNull && TrimSpace(s.value) != ""
  }

  /** The target an attribute offers: its kind and trimmed value, if set. */
  function Offer(s: Str, kind: string): seq<(string, string)> {
    if Chosen(s) then [(kind, TrimSpace(s.value))] else []
  }

  /** Every target the data sets, in the order player, selector, entity. */
  function Targets(d: MemberData): seq<(string, string)> {
    Offer(d.player, "player") + (Offer(d.selector, "selector") + Offer(d.entityId, "entity"))
  }

  /** What `validateAndPickTarget` decides: a team is required, and then
      exactly one target. */
  function PickTarget(d: MemberData): Result<(string, string), Problem> {
    if TrimSpace(d.team.value) == "" then Err(TeamRequired)
    else if |Targets(d)| == 0 then Err(NoTarget)
    else if |Targets(d)| > 1 then Err(MultipleTargets)
    else Ok(Targets(d)[0])
  }

  /** The kinds a membership may have. */
  predicate KnownKind(kind: string) {
    kind == "player" || kind == "selector" || kind == "entity"
  }

  /** The field of the data that holds a target of `kind`. */
  function FieldOf(d: MemberData, kind: string): Str
    requires KnownKind(kind)
  {
    if kind == "player" then d.player else if kind == "selector" then d.selector else d.entityId
  }

  /** A pick succeeds exactly when the team is not blank and exactly one
      target is set; it then names that target's kind and its trimmed,
      non-blank value. */
  lemma PickTargetExactlyOne(d: MemberData)
    ensures PickTarget(d).Ok? <==>
      TrimSpace(d.team.value) != ""
      && (if Chosen(d.player) then 1 else 0) + (if Chosen(d.selector) then 1 else 0)
         + (if Chosen(d.entityId) then 1 else 0) == 1
    ensures PickTarget(d).Ok? ==>
      var (kind, value) := PickTarget(d).value;
      KnownKind(kind) && Chosen(FieldOf(d, kind)) && value == TrimSpace(FieldOf(d, kind).value) && value != ""
    ensures TrimSpace(d.team.value) == "" ==> PickTarget(d) == Err(TeamRequired)
  {
    var p, s, e := Offer(d.player, "player"), Offer(d.selector, "selector"), Offer(d.entityId, "entity");
    assert |Targets(d)| == |p| + |s| + |e|;
    if |Targets(d)| == 1 {
      if p != [] {
        assert Targets(d)[0] == p[0];
      } else if s != [] {
        assert Targets(d)[0] == s[0];
      } else {
        assert Targets(d)[0] == e[0];
      }
    }
  }

  /** `validateAndPickTarget`: counts the set targets, the last one seen
      giving the kind and value; on a failure both are "". */
  method ValidateAndPickTarget(d: MemberData) returns (kind: string, value: string, err: Option<Problem>)
    ensures PickTarget(d).Ok? ==> err.None? && (kind, value) == PickTarget(d).value
    ensures PickTarget(d).Err? ==> err == Some(PickTarget(d).error) && kind == "" && value == ""
  {
    var team := TrimSpace(d.team.value);
    if team == "" {
      return "", "", Some(TeamRequired);
    }
    var cnt := 0;
    kind, value := "", "";
    if !d.player.isNull && TrimSpace(d.player.value) != "" {
      cnt := cnt + 1;
      kind := "player";
      value := TrimSpace(d.player.value);
    }
    ghost var seen := Offer(d.player, "player");
    assert cnt == |seen| && (cnt > 0 ==> (kind, value) == seen[cnt - 1]);
    if !d.selector.isNull && TrimSpace(d.selector.value) != "" {
      cnt := cnt + 1;
      kind := "selector";
      value := TrimSpace(d.selector.value);
    }
    seen := seen + Offer(d.selector, "selector");
    assert cnt == |seen| && (cnt > 0 ==> (kind, value) == seen[cnt - 1]);
    if !d.entityId.isNull && TrimSpace(d.entityId.value) != "" {
      cnt := cnt + 1;
      kind := "entity";
      value := TrimSpace(d.entityId.value);
    }
    seen := seen + Offer(d.entityId, "entity");
    assert cnt == |seen| && (cnt > 0 ==> (kind, value) == seen[cnt - 1]);
    assert seen == Targets(d);
    if cnt == 0 {
      return "", "", Some(NoTarget);
    }
    if cnt > 1 {
      return "", "", Some(MultipleTargets);
    }
    err := None;
  }

  // ---------- the composite id ----------

  /** `team|kind|value`. */
  function MemberID(team: string, kind: string, value: string): string {
    team + "|" + kind + "|" + value
  }

  /** `parseIDFallback`: the kind and value of a three-part id, else two
      empty strings. */
  function ParseIDFallback(id: string): (string, string) {
    var parts := SplitN3(id, '|');
    if |parts| == 3 then (parts[1], parts[2]) else ("", "")
  }

  /** An id built from a team and kind without `|` parses back to its kind
      and its value, which may itself hold `|`. */
  lemma ParseMemberID(team: string, kind: string, value: string)
    requires '|' !in team && '|' !in kind
    ensures SplitN3(MemberID(team, kind, value), '|') == [team, kind, value]
    ensures ParseIDFallback(MemberID(team, kind, value)) == (kind, value)
  {
    SplitN3Join(team, kind, value, '|');
  }

  /** An id with fewer than two `|` falls back to nothing. */
  lemma ParseShortID(id: string)
    requires forall i, j :: 0 <= i < j < |id| ==> !(id[i] == '|' && id[j] == '|')
    ensures ParseIDFallback(id) == ("", "")
  {
    SplitN3Three(id, '|');
  }

  // ---------- client dispatch ----------

  /** The command Create sends for a kind: a player or a selector joins as
      given, an entity through the selector matching its CustomName. */
  function JoinEntry(team: string, kind: string, value: string): Option<Entry> {
    if kind == "player" || kind == "selector" then Some(Command(TeamJoin(team, [value])))
    else if kind == "entity" then Some(Command(TeamJoin(team, [SelectorByCustomName(value)])))
    else None
  }

  /** The command Delete sends for a kind; an unknown kind sends nothing. */
  function LeaveEntry(kind: string, value: string): Option<Entry> {
    if kind == "player" || kind == "selector" then Some(Command(TeamLeave([value])))
    else if kind == "entity" then Some(Command(TeamLeave([SelectorByCustomName(value)])))
    else None
  }

  /** Join and leave name the same target: Delete undoes what Create did. */
  lemma JoinLeaveSameTarget(team: string, kind: string, value: string)
    requires KnownKind(kind)
    ensures JoinEntry(team, kind, value).Some? && LeaveEntry(kind, value).Some?
    ensures exists target: string ::
      JoinEntry(team, kind, value) == Some(Command(TeamJoin(team, [target])))
      && LeaveEntry(kind, value) == Some(Command(TeamLeave([target])))
  {
    var target := if kind == "entity" then SelectorByCustomName(value) else value;
    assert JoinEntry(team, kind, value) == Some(Command(TeamJoin(team, [target])));
  }

  // ---------- CRUD ----------

  /** Create validates, joins the target to the trimmed team, and stores the
      composite id; a validation failure sends nothing. */
  method Create(c: Conn, plan: MemberData) returns (out: Outcome<MemberData>)
    modifies c
    ensures PickTarget(plan).Err? ==> c.log == old(c.log) && out == Rejected(PickTarget(plan).error)
    ensures PickTarget(plan).Ok? ==>
      var team, (kind, value) := TrimSpace(plan.team.value), PickTarget(plan).value;
      JoinEntry(team, kind, value).Some?
      && c.log == old(c.log) + [JoinEntry(team, kind, value).value]
      && out == Settle(SendErr(old(c.Next())), plan.(id := Known(MemberID(team, kind, value))))
  {
    PickTargetExactlyOne(plan);
    var kind, val, p := ValidateAndPickTarget(plan);
    if p.Some? {
      return Rejected(p.value);
    }
    var team := TrimSpace(plan.team.value);
    var err: Option<Error>;
    if kind == "player" {
      err := JoinTeamPlayers(c, team, [val]);
    } else if kind == "selector" {
      err := JoinTeamTargets(c, team, [val]);
    } else if kind == "entity" {
      err := JoinTeamEntityByName(c, team, val);
    } else {
      assert false;
      return Rejected(UnknownKind);
    }
    if err.Some? {
      return Rejected(Client(err.value));
    }
    return Stored(plan.(id := Known(MemberID(team, kind, val))));
  }

  /** Read keeps the state and sends nothing. */
  method Read(c: Conn, state: MemberData) returns (out: Outcome<MemberData>)
    ensures out == Stored(state)
  {
    return Stored(state);
  }

  /** Update applies nothing in place: it warns and stores the plan. */
  method Update(c: Conn, plan: MemberData) returns (out: Outcome<MemberData>)
    ensures out.state == Some(plan) && !HasError(out.diags)
    ensures out.diags == [Warning(InPlaceUpdate)]
  {
    return Outcome(Some(plan), [Warning(InPlaceUpdate)]);
  }

  /** The target Delete removes: the validated one, or else the one the
      stored id names. */
  function DeleteTarget(state: MemberData): (string, string) {
    match PickTarget(state)
    case Ok(t) => t
    case Err(_) => ParseIDFallback(state.id.value)
  }

  /** The error the validation itself records during Delete. */
  function ValidationDiags(state: MemberData): (diags: seq<Diag>)
    ensures HasError(diags) <==> PickTarget(state).Err?
  {
    match PickTarget(state)
    case Ok(_) => []
    case Err(p) => assert [Fault(p)][0].Fault?; [Fault(p)]
  }

  /** Delete leaves the team with the validated target, falling back to the
      id; the validation error is still recorded, and an unknown kind sends
      nothing. */
  method Delete(c: Conn, state: MemberData) returns (diags: seq<Diag>)
    modifies c
    ensures var (kind, value) := DeleteTarget(state);
      (LeaveEntry(kind, value).None? ==> c.log == old(c.log) && diags == ValidationDiags(state))
      && (LeaveEntry(kind, value).Some? ==>
            c.log == old(c.log) + [LeaveEntry(kind, value).value]
            && diags == ValidationDiags(state) + Removed(SendErr(old(c.Next()))))
  {
    PickTargetExactlyOne(state);
    var kind, val, p := ValidateAndPickTarget(state);
    diags := if p.Some? then [Fault(p.value)] else [];
    if kind == "" || val == "" {
      var fallback := ParseIDFallback(state.id.value);
      kind, val := fallback.0, fallback.1;
    }
    var err: Option<Error> := None;
    if kind == "player" {
      err := LeaveTeamPlayers(c, [val]);
    } else if kind == "selector" {
      err := LeaveTeamTargets(c, [val]);
    } else if kind == "entity" {
      err := LeaveTeamEntityByName(c, val);
    }
    diags := diags + Removed(err);
  }

  /** ImportState: a three-part id sets id and team and exactly the target
      field its kind names; every other field is an empty known string. */
  function ImportState(id: string): (out: Outcome<MemberData>)
    ensures out.state.Some? <==> |SplitN3(id, '|')| == 3 && KnownKind(SplitN3(id, '|')[1])
    ensures out.state.None? ==> out == Rejected(BadImportId)
    ensures out.state.Some? ==>
      var parts, st := SplitN3(id, '|'), out.state.value;
      st.id == Known(id) && st.team == Known(parts[0]) && FieldOf(st, parts[1]) == Known(parts[2])
      && (forall k :: KnownKind(k) && k != parts[1] ==> FieldOf(st, k) == Known(""))
      && !HasError(out.diags)
  {
    var parts := SplitN3(id, '|');
    if |parts| != 3 then Rejected(BadImportId)
    else
      var st := MemberData(Known(id), Known(parts[0]), Known(""), Known(""), Known(""));
      if parts[1] == "player" then Stored(st.(player := Known(parts[2])))
      else if parts[1] == "selector" then Stored(st.(selector := Known(parts[2])))
      else if parts[1] == "entity" then Stored(st.(entityId := Known(parts[2])))
      else Rejected(BadImportId)
  }

  /** Importing the id Create stores gives back a membership that validates
      to the same target, so Delete after import leaves what Create joined. */
  lemma ImportCreatedID(team: string, kind: string, value: string)
    requires KnownKind(kind) && '|' !in team
    requires TrimSpace(team) != "" && TrimSpace(value) != ""
    ensures ImportState(MemberID(team, kind, value)).state.Some?
    ensures PickTarget(ImportState(MemberID(team, kind, value)).state.value) == Ok((kind, TrimSpace(value)))
  {
    ParseMemberID(team, kind, value);
    var st := ImportState(MemberID(team, kind, value)).state.value;
    assert !Chosen(Known(""));
    PickTargetExactlyOne(st);
  }

  /** A membership whose targets fail validation is still removed by the
      target its id names. */
  lemma DeleteFallsBackToID(state: MemberData, team: string, kind: string, value: string)
    requires PickTarget(state).Err? && state.id.value == MemberID(team, kind, value)
    requires '|' !in team && '|' !in kind
    ensures DeleteTarget(state) == (kind, value)
  {
    ParseMemberID(team, kind, value);
  }
}
