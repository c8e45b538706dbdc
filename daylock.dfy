/** `minecraft_daylock` (internal/provider/daylock_resource.go): the
    server-wide day lock, a singleton with the fixed id `default`. */
module DaylockResource {
  import opened Wrappers
  import opened Errors
  import opened Transport
  import opened Client
  import opened Framework

  datatype DaylockData = DaylockData(id: Str, enabled: BoolV)

  const SingletonID: string := "default"

  /** Create sets the lock as planned and stores the id `default` on success. */
  method Create(c: Conn, plan: DaylockData) returns (out: Outcome<DaylockData>)
    modifies c
    ensures c.log == old(c.log) + [Opaque(Transport.SetDayLock(plan.enabled.value))]
    ensures out == Settle(SendErr(old(c.Next())), plan.(id := Known(SingletonID)))
  {
    var err := Client.SetDayLock(c, plan.enabled.value);
    if err.Some? {
      return Rejected(Client(err.value));
    }
    return Stored(plan.(id := Known("default")));
  }

  /** Read keeps the state and sends nothing. */
  method Read(c: Conn, state: DaylockData) returns (out: Outcome<DaylockData>)
    ensures out == Stored(state)
  {
    return Stored(state);
  }

  /** The id Update stores: `default` when the planned one is null or
      unknown, else the planned one. */
  function UpdatedID(plan: DaylockData): (id: Str)
    ensures !plan.id.isNull && !plan.id.isUnknown ==> id == plan.id
    ensures plan.id.isNull || plan.id.isUnknown ==> id == Known(SingletonID)
  {
    if plan.id.isNull || plan.id.isUnknown then Known(SingletonID) else plan.id
  }

  /** Update re-applies the lock and fills in the id only when it is missing. */
  method Update(c: Conn, plan: DaylockData) returns (out: Outcome<DaylockData>)
    modifies c
    ensures c.log == old(c.log) + [Opaque(Transport.SetDayLock(plan.enabled.value))]
    ensures out == Settle(SendErr(old(c.Next())), plan.(id := UpdatedID(plan)))
  {
    var err := Client.SetDayLock(c, plan.enabled.value);
    if err.Some? {
      return Rejected(Client(err.value));
    }
    var next := plan;
    if next.id.isNull || next.id.isUnknown {
      next := next.(id := Known("default"));
    }
    return Stored(next);
  }

  /** Delete turns the lock off whatever the state; a failure is only a
      warning, so Delete always succeeds. */
  method Delete(c: Conn) returns (diags: seq<Diag>)
    modifies c
    ensures c.log == old(c.log) + [Opaque(Transport.SetDayLock(false))]
    ensures diags == Warned(SendErr(old(c.Next())))
    ensures !HasError(diags)
  {
    var err := Client.SetDayLock(c, false);
    diags := Warned(err);
  }

  /** ImportState accepts only `default`, setting just the id. */
  function ImportState(id: string): (out: Outcome<DaylockData>)
    ensures out.state.Some? <==> id == SingletonID
    ensures out.state.None? ==> out == Rejected(BadImportId)
    ensures out.state.Some? ==> out == Stored(DaylockData(Known(SingletonID), BoolV(true, false, false)))
  {
    if id != "default" then Rejected(BadImportId)
    else Stored(DaylockData(Known("default"), BoolV(true, false, false)))
  }

  /** Every state the resource stores has the id `default`: Create's, an
      Update's of a plan carrying Create's id or none, and an import's; and
      that id is exactly the one import accepts. */
  lemma SingletonEverywhere(plan: DaylockData, id: string)
    requires plan.id.isNull || plan.id.isUnknown || plan.id == Known(SingletonID)
    ensures UpdatedID(plan) == Known(SingletonID)
    ensures ImportState(id).state.Some? ==> ImportState(id).state.value.id == Known(SingletonID)
    ensures ImportState(plan.(id := Known(SingletonID)).id.value).state.Some?
  {
  }
}
