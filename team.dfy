/** `minecraft_team` (internal/provider/team_resource.go): a scoreboard team
    and its options, applied one command at a time. */
module TeamResource {
  import opened Wrappers
  import opened Text
  import opened Errors
  import opened Transport
  import opened Commands
  import opened Client
  import opened Framework

  datatype TeamData = TeamData(
    id: Str, name: Str, displayName: Str, color: Str,
    friendlyFire: BoolV, seeFriendlyInvisibles: BoolV,
    nametagVisibility: Str, collisionRule: Str)

  /** An optional string attribute that is set to something. */
  predicate Given(s: Str) {
    !s.isNull && s.value != ""
  }

  /** The display name a team gets: the planned one when given, else its name. */
  function DisplayFor(name: string, planned: Str): string {
    if Given(planned) then planned.value else name
  }

  /** `equalString`: two nulls are equal, otherwise the values are compared. */
  predicate EqualString(a: Str, b: Str) {
    (a.isNull && b.isNull) || a.value == b.value
  }

  // ---------- applyTeamOptions ----------

  /** The color is lower-cased here and again by the client. */
  function ColorStep(name: string, d: TeamData): Option<Entry> {
    if Given(d.color) then Some(Command(TeamModify(name, "color", ToLower(ToLower(d.color.value))))) else None
  }

  function FriendlyFireStep(name: string, d: TeamData): Option<Entry> {
    if !d.friendlyFire.isNull
    then Some(Command(TeamModify(name, "friendlyFire", BoolText(d.friendlyFire.value)))) else None
  }

  function SeeFriendlyInvisiblesStep(name: string, d: TeamData): Option<Entry> {
    if !d.seeFriendlyInvisibles.isNull
    then Some(Command(TeamModify(name, "seeFriendlyInvisibles", BoolText(d.seeFriendlyInvisibles.value))))
    else None
  }

  /** The client trims the visibility and collision values. */
  function NametagStep(name: string, d: TeamData): Option<Entry> {
    if Given(d.nametagVisibility)
    then Some(Command(TeamModify(name, "nametagVisibility", TrimSpace(d.nametagVisibility.value)))) else None
  }

  function CollisionStep(name: string, d: TeamData): Option<Entry> {
    if Given(d.collisionRule)
    then Some(Command(TeamModify(name, "collisionRule", TrimSpace(d.collisionRule.value)))) else None
  }

  /** The five options in the order they are applied; an unset option
      sends nothing (it is not reset). */
  function OptionSteps(name: string, d: TeamData): Steps {
    Step(ColorStep(name, d), Step(FriendlyFireStep(name, d), Step(SeeFriendlyInvisiblesStep(name, d),
    Step(NametagStep(name, d), Step(CollisionStep(name, d), Done)))))
  }

  /** The commands of the options a plan sets. */
  function OptionCommands(name: string, d: TeamData): seq<Entry> {
    Present(OptionSteps(name, d))
  }

  /** The number of options a plan sets. */
  function SetOptions(d: TeamData): nat {
    (if Given(d.color) then 1 else 0) + (if !d.friendlyFire.isNull then 1 else 0)
    + (if !d.seeFriendlyInvisibles.isNull then 1 else 0)
    + (if Given(d.nametagVisibility) then 1 else 0) + (if Given(d.collisionRule) then 1 else 0)
  }

  /** One command per set option. */
  lemma OptionCommandsCount(name: string, d: TeamData)
    ensures |OptionCommands(name, d)| == SetOptions(d) <= 5
  {
    var s := OptionSteps(name, d);
    assert |Present(s.next.next.next.next)| == (if Given(d.collisionRule) then 1 else 0);
    assert |Present(s.next.next.next)| ==
      (if Given(d.nametagVisibility) then 1 else 0) + (if Given(d.collisionRule) then 1 else 0);
    assert |Present(s.next.next)| == (if !d.seeFriendlyInvisibles.isNull then 1 else 0)
      + (if Given(d.nametagVisibility) then 1 else 0) + (if Given(d.collisionRule) then 1 else 0);
    assert |Present(s.next)| == (if !d.friendlyFire.isNull then 1 else 0)
      + (if !d.seeFriendlyInvisibles.isNull then 1 else 0)
      + (if Given(d.nametagVisibility) then 1 else 0) + (if Given(d.collisionRule) then 1 else 0);
  }

  /** Lowering the color twice sends the color lowered once. */
  lemma ColorLoweredOnce(name: string, d: TeamData)
    ensures ColorStep(name, d) ==
      if Given(d.color) then Some(Command(TeamModify(name, "color", ToLower(d.color.value)))) else None
  {
    ToLowerIdempotent(d.color.value);
  }

  /** Sends the set options one after another and stops at the first error. */
  method ApplyTeamOptions(c: Conn, name: string, d: TeamData) returns (err: Option<Error>)
    modifies c
    ensures c.log == old(c.log) + c.Run(|old(c.log)|, OptionSteps(name, d))
    ensures err == FailErr(c.RunFailure(|old(c.log)|, OptionSteps(name, d)))
  {
    ghost var log0 := c.log;
    ghost var all := OptionSteps(name, d);
    c.RunStart(log0, all);
    ghost var goal, fail := log0 + c.Run(|log0|, all), c.RunFailure(|log0|, all);
    ghost var rest := all;
    ghost var sent := c.log;
    if Given(d.color) {
      err := SetTeamColor(c, name, ToLower(d.color.value));
      c.RunSent(goal, fail, sent, rest, c.log);
      if err.Some? {
        return;
      }
    } else {
      c.RunSkipped(goal, fail, sent, rest);
    }

    rest, sent := rest.next, c.log;
    if !d.friendlyFire.isNull {
      err := SetTeamFriendlyFire(c, name, d.friendlyFire.value);
      c.RunSent(goal, fail, sent, rest, c.log);
      if err.Some? {
        return;
      }
    } else {
      c.RunSkipped(goal, fail, sent, rest);
    }

    rest, sent := rest.next, c.log;
    if !d.seeFriendlyInvisibles.isNull {
      err := SetTeamSeeFriendlyInvisibles(c, name, d.seeFriendlyInvisibles.value);
      c.RunSent(goal, fail, sent, rest, c.log);
      if err.Some? {
        return;
      }
    } else {
      c.RunSkipped(goal, fail, sent, rest);
    }

    rest, sent := rest.next, c.log;
    if Given(d.nametagVisibility) {
      err := SetTeamNametagVisibility(c, name, d.nametagVisibility.value);
      c.RunSent(goal, fail, sent, rest, c.log);
      if err.Some? {
        return;
      }
    } else {
      c.RunSkipped(goal, fail, sent, rest);
    }

    rest, sent := rest.next, c.log;
    if Given(d.collisionRule) {
      err := SetTeamCollisionRule(c, name, d.collisionRule.value);
      c.RunSent(goal, fail, sent, rest, c.log);
      if err.Some? {
        return;
      }
    } else {
      c.RunSkipped(goal, fail, sent, rest);
    }
    c.RunFinished(goal, fail, c.log);
    err := None;
  }

  // ---------- CRUD ----------

  /** What Create sends: the team itself, then its options. */
  function CreateSteps(plan: TeamData): Steps {
    var name := TrimSpace(plan.name.value);
    Step(Some(Command(TeamAdd(name, DisplayFor(name, plan.displayName)))), OptionSteps(name, plan))
  }

  /** What Update sends: the display name when it changed, then the options. */
  function UpdateSteps(plan: TeamData, state: TeamData): Steps {
    var name := TrimSpace(plan.name.value);
    Step(if EqualString(plan.displayName, state.displayName) then None
         else Some(Command(TeamModify(name, "displayName", DisplayComponent(DisplayFor(name, plan.displayName))))),
         OptionSteps(name, plan))
  }

  /** Create adds the team, applies its options, and stores the plan with
      the trimmed name as id; any failure stops the sequence and the call. */
  method Create(c: Conn, plan: TeamData) returns (out: Outcome<TeamData>)
    modifies c
    ensures c.log == old(c.log) + c.Run(|old(c.log)|, CreateSteps(plan))
    ensures out == Settle(FailErr(c.RunFailure(|old(c.log)|, CreateSteps(plan))),
                          plan.(id := Known(TrimSpace(plan.name.value))))
  {
    var name := TrimSpace(plan.name.value);
    var display := name;
    if !plan.displayName.isNull && plan.displayName.value != "" {
      display := plan.displayName.value;
    }
    var err := CreateTeam(c, name, display);
    if err.Some? {
      return Rejected(Client(err.value));
    }
    err := ApplyTeamOptions(c, name, plan);
    if err.Some? {
      return Rejected(Client(err.value));
    }
    return Stored(plan.(id := Known(name)));
  }

  /** Read keeps the state as it is and sends nothing. */
  method Read(c: Conn, state: TeamData) returns (out: Outcome<TeamData>)
    ensures out == Stored(state)
  {
    return Stored(state);
  }

  /** Update renames the display when it differs from the state, re-applies
      every set option, and stores the plan. */
  method Update(c: Conn, plan: TeamData, state: TeamData) returns (out: Outcome<TeamData>)
    modifies c
    ensures c.log == old(c.log) + c.Run(|old(c.log)|, UpdateSteps(plan, state))
    ensures out == Settle(FailErr(c.RunFailure(|old(c.log)|, UpdateSteps(plan, state))), plan)
  {
    var name := TrimSpace(plan.name.value);
    if !EqualString(plan.displayName, state.displayName) {
      var display := name;
      if !plan.displayName.isNull && plan.displayName.value != "" {
        display := plan.displayName.value;
      }
      var err := SetTeamDisplayName(c, name, display);
      if err.Some? {
        return Rejected(Client(err.value));
      }
    }
    var err := ApplyTeamOptions(c, name, plan);
    if err.Some? {
      return Rejected(Client(err.value));
    }
    return Stored(plan);
  }

  /** Delete removes the team by its name as stored, untrimmed. */
  method Delete(c: Conn, state: TeamData) returns (diags: seq<Diag>)
    modifies c
    ensures c.log == old(c.log) + [Command(TeamRemove(state.name.value))]
    ensures diags == Removed(SendErr(old(c.Next())))
  {
    var err := DeleteTeam(c, state.name.value);
    diags := Removed(err);
  }

  // ---------- properties ----------

  /** A team with a non-empty name always gets a display name, so `team add`
      always carries one. */
  lemma CreateNamesDisplay(plan: TeamData)
    requires TrimSpace(plan.name.value) != ""
    ensures var name := TrimSpace(plan.name.value);
      CreateSteps(plan).entry == Some(Command("team add " + name + " \"" + DisplayFor(name, plan.displayName) + "\""))
  {
  }

  /** On well-formed values (a null holds ""), equalString is equality of
      the values: a null and an empty value count as the same. */
  lemma EqualStringValues(a: Str, b: Str)
    requires WellFormed(a) && WellFormed(b)
    ensures EqualString(a, b) <==> a.value == b.value
  {
  }

  /** A display name that equalString finds unchanged is not re-sent, and
      Update then sends exactly what applyTeamOptions sends. */
  lemma UpdateKeepsDisplay(c: Conn, n: nat, plan: TeamData, state: TeamData)
    requires EqualString(plan.displayName, state.displayName)
    ensures UpdateSteps(plan, state).entry.None?
    ensures c.Run(n, UpdateSteps(plan, state)) == c.Run(n, OptionSteps(TrimSpace(plan.name.value), plan))
  {
  }

  /** Unless both are null, a display name whose value changed is re-sent,
      before any option. */
  lemma UpdateRenames(plan: TeamData, state: TeamData)
    requires !(plan.displayName.isNull && state.displayName.isNull)
    requires plan.displayName.value != state.displayName.value
    ensures var name := TrimSpace(plan.name.value);
      UpdateSteps(plan, state).entry ==
        Some(Command(TeamModify(name, "displayName", DisplayComponent(DisplayFor(name, plan.displayName)))))
  {
  }
}
