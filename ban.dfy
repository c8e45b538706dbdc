/** `minecraft_ban` (internal/provider/ban_resource.go): a banned player,
    whose name is also the id. */
module BanResource {
  import opened Wrappers
  import opened Text
  import opened Errors
  import opened Transport
  import opened Commands
  import opened Client
  import opened Framework

  datatype BanData = BanData(id: Str, player: Str, reason: Str)

  /** Create bans the player, with the reason when one is given, and stores
      the plan with the player as id. */
  method Create(c: Conn, plan: BanData) returns (out: Outcome<BanData>)
    modifies c
    ensures c.log == old(c.log) + [Command(Ban(plan.player.value, plan.reason.value))]
    ensures out == Settle(SendErr(old(c.Next())), plan.(id := plan.player))
  {
    var err := BanPlayer(c, plan.player.value, plan.reason.value);
    if err.Some? {
      return Rejected(Client(err.value));
    }
    return Stored(plan.(id := plan.player));
  }

  /** Read does nothing, so the state stays as it was. */
  method Read(c: Conn, state: BanData) returns (out: Outcome<BanData>)
    ensures out == Stored(state)
  {
    return Stored(state);
  }

  /** Update bans again with the planned values and keeps the player as id. */
  method Update(c: Conn, plan: BanData) returns (out: Outcome<BanData>)
    modifies c
    ensures c.log == old(c.log) + [Command(Ban(plan.player.value, plan.reason.value))]
    ensures out == Settle(SendErr(old(c.Next())), plan.(id := plan.player))
  {
    var err := BanPlayer(c, plan.player.value, plan.reason.value);
    if err.Some? {
      return Rejected(Client(err.value));
    }
    return Stored(plan.(id := plan.player));
  }

  /** Delete lifts the ban on the stored player; a failure is an error. */
  method Delete(c: Conn, state: BanData) returns (diags: seq<Diag>)
    modifies c
    ensures c.log == old(c.log) + [Opaque(Transport.UnbanPlayer(state.player.value))]
    ensures diags == Removed(SendErr(old(c.Next())))
  {
    var err := Client.UnbanPlayer(c, state.player.value);
    diags := Removed(err);
  }

  /** What Create or Update stores names the banned player as id, and Delete
      from it unbans exactly the player the `ban` named. */
  lemma DeleteUnbansBanned(plan: BanData)
    ensures var stored := plan.(id := plan.player);
      stored.id.value == stored.player.value
      && HasPrefix(Ban(plan.player.value, plan.reason.value), "ban " + stored.player.value)
      && Transport.UnbanPlayer(stored.player.value).player == plan.player.value
  {
    BanShape(plan.player.value, plan.reason.value);
  }
}
