/** `minecraft_sheep` (internal/provider/sheep_resource.go): a sheep of a
    lower-cased colour, summoned with a fresh id. */
module SheepResource {
  import opened Wrappers
  import opened Text
  import opened Errors
  import opened Transport
  import opened Commands
  import opened Client
  import opened Framework

  datatype SheepData = SheepData(id: Str, x: Int64, y: Int64, z: Int64, color: string, sheared: BoolV)

  /** The summon Create makes: the colour lower-cased, `sheared` defaulted. */
  function SummonCall(d: SheepData, uuid: string): Entry {
    Opaque(Transport.CreateSheep(Pos(d.x, d.y, d.z), uuid, ToLower(d.color), DefaultFalse(d.sheared).value))
  }

  /** Create summons the sheep and stores the plan, its `sheared` defaulted
      and its colour as written, with `uuid` as id on success. */
  method Create(c: Conn, plan: SheepData, uuid: string) returns (out: Outcome<SheepData>)
    modifies c
    ensures c.log == old(c.log) + [SummonCall(plan, uuid)]
    ensures out == Settle(SendErr(old(c.Next())),
                          plan.(sheared := DefaultFalse(plan.sheared), id := Known(uuid)))
  {
    var data := plan;
    if data.sheared.isNull || data.sheared.isUnknown {
      data := data.(sheared := BoolV(false, false, false));
    }
    var id := uuid;
    var pos := Dec(data.x) + " " + Dec(data.y) + " " + Dec(data.z);
    var err := Client.CreateSheep(c, pos, id, ToLower(data.color), data.sheared.value);
    if err.Some? {
      return Rejected(Client(err.value));
    }
    return Stored(data.(id := Known(id)));
  }

  /** Read keeps the state and sends nothing. */
  method Read(c: Conn, state: SheepData) returns (out: Outcome<SheepData>)
    ensures out == Stored(state)
  {
    return Stored(state);
  }

  /** Update sends nothing: every attribute forces a new sheep. */
  method Update(c: Conn, plan: SheepData) returns (out: Outcome<SheepData>)
    ensures out == Stored(plan)
  {
    return Stored(plan);
  }

  /** Delete kills and clears `minecraft:sheep` by the stored id. */
  method Delete(c: Conn, state: SheepData) returns (diags: seq<Diag>)
    modifies c
    ensures c.log == old(c.log) + c.Attempted(|old(c.log)|, Teardown("minecraft:sheep", state.id.value))
    ensures diags == Removed(FailErr(c.FirstFailure(|old(c.log)|, Teardown("minecraft:sheep", state.id.value))))
  {
    var pos := Dec(state.x) + " " + Dec(state.y) + " " + Dec(state.z);
    var err := DeleteEntity(c, "minecraft:sheep", pos, state.id.value);
    diags := Removed(err);
  }

  /** The colour sent has no upper-case letter, and colours differing only
      in case summon the same sheep. */
  lemma ColorLowered(d: SheepData, e: SheepData, uuid: string)
    requires ToLower(d.color) == ToLower(e.color) && d.sheared == e.sheared && (d.x, d.y, d.z) == (e.x, e.y, e.z)
    ensures NoUpper(SummonCall(d, uuid).call.color)
    ensures SummonCall(d, uuid) == SummonCall(e, uuid)
  {
    ToLowerIdempotent(d.color);
  }
}
