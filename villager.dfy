/** `minecraft_summon_villager` (internal/provider/summon_villager_resource.go):
    a villager summoned with a fresh id and an optional data tag. */
module VillagerResource {
  import opened Wrappers
  import opened Text
  import opened Errors
  import opened Transport
  import opened Client
  import opened Framework

  datatype VillagerData = VillagerData(id: Str, x: Int64, y: Int64, z: Int64, dataTag: Str)

  /** The tag passed on: "" when the attribute is null or unknown. */
  function TagText(d: VillagerData): (t: string)
    ensures !d.dataTag.isNull && !d.dataTag.isUnknown ==> t == d.dataTag.value
  {
    if !d.dataTag.isNull && !d.dataTag.isUnknown then d.dataTag.value else ""
  }

  /** For a well-formed attribute the tag passed on is its value. */
  lemma TagIsValue(d: VillagerData)
    requires WellFormed(d.dataTag)
    ensures TagText(d) == d.dataTag.value
  {
  }

  /** The call Create makes: the coordinates, the fresh id and the tag. */
  function SummonCall(plan: VillagerData, uuid: string): Entry {
    Opaque(Transport.SummonVillager(plan.x, plan.y, plan.z, uuid, TagText(plan)))
  }

  /** The call Delete makes: removal by the stored id. */
  function RemoveCall(state: VillagerData): Entry {
    Opaque(Transport.DeleteVillager(state.id.value))
  }

  /** Create summons the villager once and stores the plan with `uuid` as id
      only when the summon succeeded. */
  method Create(c: Conn, plan: VillagerData, uuid: string) returns (out: Outcome<VillagerData>)
    modifies c
    ensures c.log == old(c.log) + [SummonCall(plan, uuid)]
    ensures out == Settle(SendErr(old(c.Next())), plan.(id := Known(uuid)))
  {
    var id := uuid;
    var dataTagJSON := "";
    if !plan.dataTag.isNull && !plan.dataTag.isUnknown {
      dataTagJSON := plan.dataTag.value;
    }
    var err := Client.SummonVillager(c, plan.x, plan.y, plan.z, id, dataTagJSON);
    if err.Some? {
      return Rejected(Client(err.value));
    }
    return Stored(plan.(id := Known(id)));
  }

  /** Read keeps the state and sends nothing. */
  method Read(c: Conn, state: VillagerData) returns (out: Outcome<VillagerData>)
    ensures out == Stored(state)
  {
    return Stored(state);
  }

  /** Update sends nothing: every attribute forces a new villager. */
  method Update(c: Conn, plan: VillagerData) returns (out: Outcome<VillagerData>)
    ensures out == Stored(plan)
  {
    return Stored(plan);
  }

  /** Delete removes the villager by the stored id; a failure is an error. */
  method Delete(c: Conn, state: VillagerData) returns (diags: seq<Diag>)
    modifies c
    ensures c.log == old(c.log) + [RemoveCall(state)]
    ensures diags == Removed(SendErr(old(c.Next())))
  {
    var err := Client.DeleteVillager(c, state.id.value);
    diags := Removed(err);
  }

  /** Whatever Create stored, Delete removes the villager by the very id the
      summon gave it, and villagers summoned under different ids are removed
      by different calls. */
  lemma DeleteTargetsCreated(plan: VillagerData, uuid: string, other: string, r: Reply)
    ensures var out := Settle(SendErr(r), plan.(id := Known(uuid)));
      out.state.Some? ==>
        RemoveCall(out.state.value) == Opaque(Transport.DeleteVillager(SummonCall(plan, uuid).call.id))
    ensures uuid != other ==> RemoveCall(plan.(id := Known(uuid))) != RemoveCall(plan.(id := Known(other)))
  {
  }
}
