/** `minecraft_op` (internal/provider/op_resource.go): operator status for one
    player, who is also the id. */
module OpResource {
  import opened Wrappers
  import opened Text
  import opened Errors
  import opened Transport
  import opened Commands
  import opened Client
  import opened Framework

  datatype OpData = OpData(id: Str, player: Str)

  /** Create rejects a blank player without sending; otherwise it sends `op`
      for the trimmed player and stores that name as the id. */
  method Create(c: Conn, plan: OpData) returns (out: Outcome<OpData>)
    modifies c
    ensures var player := TrimSpace(plan.player.value);
      player == "" ==> c.log == old(c.log) && out == Rejected(BlankPlayer)
    ensures var player := TrimSpace(plan.player.value);
      player != "" ==>
        c.log == old(c.log) + [Command(Op(player))]
        && out == Settle(SendErr(old(c.Next())), plan.(id := Known(player)))
  {
    var player := TrimSpace(plan.player.value);
    if player == "" {
      return Rejected(BlankPlayer);
    }
    var err := CreateOp(c, player);
    if err.Some? {
      return Rejected(Client(err.value));
    }
    return Stored(plan.(id := Known(player)));
  }

  /** Read keeps the state and sends nothing. */
  method Read(c: Conn, state: OpData) returns (out: Outcome<OpData>)
    ensures out == Stored(state)
  {
    return Stored(state);
  }

  /** Update sends nothing: the player forces a new resource. */
  method Update(c: Conn, plan: OpData) returns (out: Outcome<OpData>)
    ensures out == Stored(plan)
  {
    return Stored(plan);
  }

  /** Delete sends `deop` for the trimmed player; a blank player sends
      nothing and is no error. */
  method Delete(c: Conn, state: OpData) returns (diags: seq<Diag>)
    modifies c
    ensures var player := TrimSpace(state.player.value);
      player == "" ==> c.log == old(c.log) && diags == []
    ensures var player := TrimSpace(state.player.value);
      player != "" ==> c.log == old(c.log) + [Command(Deop(player))] && diags == Removed(SendErr(old(c.Next())))
  {
    var player := TrimSpace(state.player.value);
    if player == "" {
      return [];
    }
    var err := RemoveOp(c, player);
    diags := Removed(err);
  }

  /** ImportState takes the trimmed id as both id and player; a blank id is
      an error. */
  function ImportState(id: string): (out: Outcome<OpData>)
    ensures TrimSpace(id) == "" <==> out.state.None?
    ensures out.state.None? ==> out == Rejected(BadImportId)
    ensures out.state.Some? ==>
      out == Stored(OpData(Known(TrimSpace(id)), Known(TrimSpace(id))))
  {
    var player := TrimSpace(id);
    if player == "" then Rejected(BadImportId) else Stored(OpData(Known(player), Known(player)))
  }

  /** The player whose status Delete revokes for a state. */
  function DeopTarget(state: OpData): string {
    TrimSpace(state.player.value)
  }

  /** The id Create stores imports back to a state with that player, and
      Delete, from either state, deops exactly the player Create opped. */
  lemma CreatedRoundTrips(plan: OpData)
    requires TrimSpace(plan.player.value) != ""
    ensures var player := TrimSpace(plan.player.value);
      var stored := plan.(id := Known(player));
      var imported := ImportState(stored.id.value);
      imported == Stored(OpData(Known(player), Known(player)))
      && DeopTarget(stored) == DeopTarget(imported.state.value) == player
  {
    TrimSpaceIdempotent(plan.player.value);
  }
}
