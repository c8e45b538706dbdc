/** `minecraft_entity` (internal/provider/entity_resource.go): an entity
    summoned with a fresh id as its CustomName, and killed by that name. The
    id generator is a parameter (`uuid`). */
module EntityResource {
  import opened Wrappers
  import opened Text
  import opened Errors
  import opened Transport
  import opened Commands
  import opened Client
  import opened Framework

  datatype EntityData = EntityData(id: Str, kind: string, x: Int64, y: Int64, z: Int64)

  /** Create summons the entity named by `uuid` and stores `uuid` as the id,
      only when the summon succeeded. */
  method Create(c: Conn, d: EntityData, uuid: string) returns (out: Outcome<EntityData>)
    modifies c
    ensures c.log == old(c.log) + [Command(Summon(d.kind, Pos(d.x, d.y, d.z), uuid))]
    ensures out == Settle(SendErr(old(c.Next())), d.(id := Known(uuid)))
  {
    var id := uuid;
    var pos := Dec(d.x) + " " + Dec(d.y) + " " + Dec(d.z);
    var err := CreateEntity(c, d.kind, pos, id);
    if err.Some? {
      return Rejected(Client(err.value));
    }
    return Stored(d.(id := Known(id)));
  }

  /** Read keeps the state and sends nothing. */
  method Read(c: Conn, state: EntityData) returns (out: Outcome<EntityData>)
    ensures out == Stored(state)
  {
    return Stored(state);
  }

  /** Update sends nothing: every attribute forces a new entity. */
  method Update(c: Conn, plan: EntityData) returns (out: Outcome<EntityData>)
    ensures out == Stored(plan)
  {
    return Stored(plan);
  }

  /** Delete kills and clears by the stored type and id; a failure is an error. */
  method Delete(c: Conn, state: EntityData) returns (diags: seq<Diag>)
    modifies c
    ensures c.log == old(c.log) + c.Attempted(|old(c.log)|, Teardown(state.kind, state.id.value))
    ensures diags == Removed(FailErr(c.FirstFailure(|old(c.log)|, Teardown(state.kind, state.id.value))))
  {
    var pos := Dec(state.x) + " " + Dec(state.y) + " " + Dec(state.z);
    var err := DeleteEntity(c, state.kind, pos, state.id.value);
    diags := Removed(err);
  }

  /** Deleting what Create stored kills by exactly the compound the summon
      gave, and by nothing another id would give. */
  lemma DeleteTargetsCreated(d: EntityData, uuid: string, other: string)
    requires other != uuid
    ensures var stored := d.(id := Known(uuid));
      var kill := Teardown(stored.kind, stored.id.value)[0].text;
      Summon(d.kind, Pos(d.x, d.y, d.z), uuid) == "summon " + d.kind + " " + Pos(d.x, d.y, d.z) + " " + NameTag(uuid)
      && kill == "kill @e[type=" + d.kind + ",nbt=" + NameTag(uuid) + "]"
      && kill != KillNamed(d.kind, other)
  {
    SummonAndKillShareTag(d.kind, Pos(d.x, d.y, d.z), uuid);
    if KillNamed(d.kind, uuid) == KillNamed(d.kind, other) {
      KillNamedInjective(d.kind, uuid, other);
    }
  }
}
