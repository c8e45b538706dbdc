/** `minecraft_zombie` (internal/provider/zombie_resource.go): a zombie whose
    unset flags become false before it is summoned with a fresh id. */
module ZombieResource {
  import opened Wrappers
  import opened Text
  import opened Errors
  import opened Transport
  import opened Commands
  import opened Client
  import opened Framework

  /** The `health` attribute is not part of this model. */
  datatype ZombieData = ZombieData(id: Str, x: Int64, y: Int64, z: Int64,
                                   isBaby: BoolV, canBreakDoors: BoolV,
                                   canPickUpLoot: BoolV, persistenceRequired: BoolV)

  /** The plan with each null or unknown flag made a known false. */
  function Defaulted(d: ZombieData): ZombieData {
    d.(isBaby := DefaultFalse(d.isBaby), canBreakDoors := DefaultFalse(d.canBreakDoors),
       canPickUpLoot := DefaultFalse(d.canPickUpLoot),
       persistenceRequired := DefaultFalse(d.persistenceRequired))
  }

  /** No flag of a defaulted plan is null or unknown, a flag that was known
      keeps its value, and defaulting twice changes nothing more. */
  lemma DefaultedFlags(d: ZombieData)
    ensures var e := Defaulted(d);
      !e.isBaby.isNull && !e.isBaby.isUnknown && !e.canBreakDoors.isNull && !e.canBreakDoors.isUnknown
      && !e.canPickUpLoot.isNull && !e.canPickUpLoot.isUnknown
      && !e.persistenceRequired.isNull && !e.persistenceRequired.isUnknown
    ensures !d.isBaby.isNull && !d.isBaby.isUnknown ==> Defaulted(d).isBaby == d.isBaby
    ensures d.isBaby.isNull ==> !Defaulted(d).isBaby.value
    ensures Defaulted(Defaulted(d)) == Defaulted(d)
  {
  }

  /** The summon Create makes, with the defaulted flags. */
  function SummonCall(d: ZombieData, uuid: string): Entry {
    var e := Defaulted(d);
    Opaque(Transport.CreateZombie(Pos(d.x, d.y, d.z), uuid, e.isBaby.value, e.canBreakDoors.value,
                                  e.canPickUpLoot.value, e.persistenceRequired.value))
  }

  /** Overwrites each null or unknown flag with a known false, one field
      after another. */
  method DefaultFlags(plan: ZombieData) returns (data: ZombieData)
    ensures data == Defaulted(plan)
  {
    data := plan;
    if data.isBaby.isNull || data.isBaby.isUnknown {
      data := data.(isBaby := BoolV(false, false, false));
    }
    assert data.isBaby == DefaultFalse(plan.isBaby);
    if data.canBreakDoors.isNull || data.canBreakDoors.isUnknown {
      data := data.(canBreakDoors := BoolV(false, false, false));
    }
    assert data.canBreakDoors == DefaultFalse(plan.canBreakDoors);
    if data.canPickUpLoot.isNull || data.canPickUpLoot.isUnknown {
      data := data.(canPickUpLoot := BoolV(false, false, false));
    }
    assert data.canPickUpLoot == DefaultFalse(plan.canPickUpLoot);
    if data.persistenceRequired.isNull || data.persistenceRequired.isUnknown {
      data := data.(persistenceRequired := BoolV(false, false, false));
    }
    assert data.persistenceRequired == DefaultFalse(plan.persistenceRequired);
  }

  /** Create defaults the flags field by field, summons, and stores the
      defaulted plan with `uuid` as id only when the summon succeeded. */
  method Create(c: Conn, plan: ZombieData, uuid: string) returns (out: Outcome<ZombieData>)
    modifies c
    ensures c.log == old(c.log) + [SummonCall(plan, uuid)]
    ensures out == Settle(SendErr(old(c.Next())), Defaulted(plan).(id := Known(uuid)))
  {
    var data := DefaultFlags(plan);
    var id := uuid;
    var pos := Dec(data.x) + " " + Dec(data.y) + " " + Dec(data.z);
    var err := Client.CreateZombie(c, pos, id, data.isBaby.value, data.canBreakDoors.value,
                            data.canPickUpLoot.value, data.persistenceRequired.value);
    if err.Some? {
      return Rejected(Client(err.value));
    }
    return Stored(data.(id := Known(id)));
  }

  /** Read keeps the state and sends nothing. */
  method Read(c: Conn, state: ZombieData) returns (out: Outcome<ZombieData>)
    ensures out == Stored(state)
  {
    return Stored(state);
  }

  /** Update sends nothing: every attribute forces a new zombie. */
  method Update(c: Conn, plan: ZombieData) returns (out: Outcome<ZombieData>)
    ensures out == Stored(plan)
  {
    return Stored(plan);
  }

  /** Delete kills and clears `minecraft:zombie` by the stored id. */
  method Delete(c: Conn, state: ZombieData) returns (diags: seq<Diag>)
    modifies c
    ensures c.log == old(c.log) + c.Attempted(|old(c.log)|, Teardown("minecraft:zombie", state.id.value))
    ensures diags == Removed(FailErr(c.FirstFailure(|old(c.log)|, Teardown("minecraft:zombie", state.id.value))))
  {
    var pos := Dec(state.x) + " " + Dec(state.y) + " " + Dec(state.z);
    var err := DeleteEntity(c, "minecraft:zombie", pos, state.id.value);
    diags := Removed(err);
  }

  /** Deleting what Create stored kills by the id the summon was given. */
  lemma DeleteTargetsCreated(plan: ZombieData, uuid: string)
    ensures var stored := Defaulted(plan).(id := Known(uuid));
      SummonCall(plan, uuid).call.id == stored.id.value
      && Teardown("minecraft:zombie", stored.id.value)[0] == Command(KillNamed("minecraft:zombie", uuid))
  {
  }
}
