/** `minecraft_bed` (internal/provider/bed_resource.go): a two-block bed, the
    foot at the given position and the head one block in the facing
    direction. */
module BedResource {
  import opened Wrappers
  import opened Text
  import opened Errors
  import opened Transport
  import opened Commands
  import opened Client
  import opened Framework

  datatype BedData = BedData(id: Str, material: string, x: Int64, y: Int64, z: Int64,
                             direction: string, occupied: Option<bool>)

  function Abs(i: int): nat {
    if i < 0 then -i else i
  }

  /** `bedOffset`: the step from foot to head for each facing; any other
      facing is invalid. */
  function BedOffset(facing: string): (r: Option<(int, int)>)
    ensures r.Some? <==> facing == "north" || facing == "south" || facing == "east" || facing == "west"
    ensures r.Some? ==> Abs(r.value.0) + Abs(r.value.1) == 1
  {
    if facing == "north" then Some((0, -1))
    else if facing == "south" then Some((0, 1))
    else if facing == "east" then Some((1, 0))
    else if facing == "west" then Some((-1, 0))
    else None
  }

  /** Opposite facings step in opposite directions. */
  lemma OppositeFacings()
    ensures BedOffset("north").value.1 == -BedOffset("south").value.1 && BedOffset("north").value.0 == 0
    ensures BedOffset("east").value.0 == -BedOffset("west").value.0 && BedOffset("east").value.1 == 0
  {
  }

  /** `occupied` defaults to false. */
  function Occupied(d: BedData): bool {
    if d.occupied.Some? then d.occupied.value else false
  }

  /** `M[facing=D,part=foot,occupied=b]`. */
  function FootBlock(d: BedData): string {
    d.material + "[facing=" + d.direction + ",part=foot,occupied=" + BoolText(Occupied(d)) + "]"
  }

  /** `M[facing=D,part=head,occupied=b]`. */
  function HeadBlock(d: BedData): string {
    d.material + "[facing=" + d.direction + ",part=head,occupied=" + BoolText(Occupied(d)) + "]"
  }

  /** The head's coordinates, with Go's 64-bit wrap-around. */
  function HeadX(d: BedData): Int64
    requires BedOffset(d.direction).Some?
  {
    Wrap64(d.x + BedOffset(d.direction).value.0)
  }

  function HeadZ(d: BedData): Int64
    requires BedOffset(d.direction).Some?
  {
    Wrap64(d.z + BedOffset(d.direction).value.1)
  }

  function FootEntry(d: BedData): Entry {
    Command(SetBlock(d.x, d.y, d.z, FootBlock(d)))
  }

  function HeadEntry(d: BedData): Entry
    requires BedOffset(d.direction).Some?
  {
    Command(SetBlock(HeadX(d), d.y, HeadZ(d), HeadBlock(d)))
  }

  /** The rollback: the foot cleared to air. */
  function ClearFoot(d: BedData): Entry {
    Command(AirBlock(d.x, d.y, d.z))
  }

  /** `bed-x-y-z-D`. */
  function BedID(d: BedData): string {
    "bed-" + Dec(d.x) + "-" + Dec(d.y) + "-" + Dec(d.z) + "-" + d.direction
  }

  /** The head is never the foot's block, and barring overflow it is the
      neighbour one step away. */
  lemma HeadBesideFoot(d: BedData)
    requires BedOffset(d.direction).Some?
    ensures (HeadX(d), HeadZ(d)) != (d.x, d.z)
    ensures (MinInt64 <= d.x + BedOffset(d.direction).value.0 <= MaxInt64
             && MinInt64 <= d.z + BedOffset(d.direction).value.1 <= MaxInt64) ==>
      Abs(HeadX(d) - d.x) + Abs(HeadZ(d) - d.z) == 1
  {
    var (dx, dz) := BedOffset(d.direction).value;
    if dx != 0 {
      assert (HeadX(d) - (d.x + dx)) % TwoTo64 == 0;
    } else {
      assert (HeadZ(d) - (d.z + dz)) % TwoTo64 == 0;
    }
  }

  /** Places the foot, then the head; a failed head rolls the foot back
      when `rollback` is set. The part Create and Update share. */
  method Place(c: Conn, d: BedData, rollback: bool) returns (err: Option<Error>)
    requires BedOffset(d.direction).Some?
    modifies c
    ensures var n := |old(c.log)|;
      (c.ReplyAt(n).Failed? ==>
         c.log == old(c.log) + [FootEntry(d)] && err == Some(Transport(c.ReplyAt(n).cause)))
      && (c.ReplyAt(n).Answer? && c.ReplyAt(n + 1).Failed? ==>
            (rollback ==> c.log == old(c.log) + [FootEntry(d)] + [HeadEntry(d)] + [ClearFoot(d)])
            && (!rollback ==> c.log == old(c.log) + [FootEntry(d)] + [HeadEntry(d)])
            && err == Some(Transport(c.ReplyAt(n + 1).cause)))
      && (c.ReplyAt(n).Answer? && c.ReplyAt(n + 1).Answer? ==>
            c.log == old(c.log) + [FootEntry(d)] + [HeadEntry(d)] && err.None?)
  {
    var occupied := false;
    if d.occupied.Some? {
      occupied := d.occupied.value;
    }
    var footMat := d.material + "[facing=" + d.direction + ",part=foot,occupied=" + BoolText(occupied) + "]";
    err := CreateBlock(c, footMat, d.x, d.y, d.z);
    if err.Some? {
      return;
    }
    var headX, headZ := HeadX(d), HeadZ(d);
    var headMat := d.material + "[facing=" + d.direction + ",part=head,occupied=" + BoolText(occupied) + "]";
    err := CreateBlock(c, headMat, headX, d.y, headZ);
    if err.Some? && rollback {
      var _ := DeleteBlock(c, d.x, d.y, d.z);
    }
  }

  /** Create checks the facing (sending nothing when it is invalid), places
      foot and head with rollback, and stores `bed-x-y-z-D`. */
  method Create(c: Conn, d: BedData) returns (out: Outcome<BedData>)
    modifies c
    ensures BedOffset(d.direction).None? ==> c.log == old(c.log) && out == Rejected(InvalidDirection)
    ensures BedOffset(d.direction).Some? ==> var n := |old(c.log)|;
      (c.ReplyAt(n).Failed? ==>
         c.log == old(c.log) + [FootEntry(d)] && out == Rejected(Client(Transport(c.ReplyAt(n).cause))))
      && (c.ReplyAt(n).Answer? && c.ReplyAt(n + 1).Failed? ==>
            c.log == old(c.log) + [FootEntry(d)] + [HeadEntry(d)] + [ClearFoot(d)]
            && out == Rejected(Client(Transport(c.ReplyAt(n + 1).cause))))
      && (c.ReplyAt(n).Answer? && c.ReplyAt(n + 1).Answer? ==>
            c.log == old(c.log) + [FootEntry(d)] + [HeadEntry(d)] && out == Stored(d.(id := Known(BedID(d)))))
  {
    if BedOffset(d.direction).None? {
      return Rejected(InvalidDirection);
    }
    var err := Place(c, d, true);
    if err.Some? {
      return Rejected(Client(err.value));
    }
    return Stored(d.(id := Known("bed-" + Dec(d.x) + "-" + Dec(d.y) + "-" + Dec(d.z) + "-" + d.direction)));
  }

  /** Read keeps the state and sends nothing. */
  method Read(c: Conn, state: BedData) returns (out: Outcome<BedData>)
    ensures out == Stored(state)
  {
    return Stored(state);
  }

  /** Update re-places both parts without any rollback and stores the plan. */
  method Update(c: Conn, d: BedData) returns (out: Outcome<BedData>)
    modifies c
    ensures BedOffset(d.direction).None? ==> c.log == old(c.log) && out == Rejected(InvalidDirection)
    ensures BedOffset(d.direction).Some? ==> var n := |old(c.log)|;
      (c.ReplyAt(n).Failed? ==>
         c.log == old(c.log) + [FootEntry(d)] && out == Rejected(Client(Transport(c.ReplyAt(n).cause))))
      && (c.ReplyAt(n).Answer? && c.ReplyAt(n + 1).Failed? ==>
            c.log == old(c.log) + [FootEntry(d)] + [HeadEntry(d)]
            && out == Rejected(Client(Transport(c.ReplyAt(n + 1).cause))))
      && (c.ReplyAt(n).Answer? && c.ReplyAt(n + 1).Answer? ==>
            c.log == old(c.log) + [FootEntry(d)] + [HeadEntry(d)] && out == Stored(d))
  {
    if BedOffset(d.direction).None? {
      return Rejected(InvalidDirection);
    }
    var err := Place(c, d, false);
    if err.Some? {
      return Rejected(Client(err.value));
    }
    return Stored(d);
  }

  /** The head cleared to air. */
  function ClearHead(d: BedData): Entry
    requires BedOffset(d.direction).Some?
  {
    Command(AirBlock(HeadX(d), d.y, HeadZ(d)))
  }

  /** What Delete sends: the foot cleared, then the head when the stored
      facing is valid. */
  function Teardown(d: BedData): seq<Entry> {
    if BedOffset(d.direction).Some? then [ClearFoot(d), ClearHead(d)] else [ClearFoot(d)]
  }

  /** Delete clears the foot, then the head; errors are ignored. */
  method Delete(c: Conn, d: BedData) returns (diags: seq<Diag>)
    modifies c
    ensures c.log == old(c.log) + Teardown(d)
    ensures diags == []
  {
    var offset := BedOffset(d.direction);
    var _ := DeleteBlock(c, d.x, d.y, d.z);
    if offset.Some? {
      var _ := DeleteBlock(c, HeadX(d), d.y, HeadZ(d));
    }
    diags := [];
  }

  /** A bed's block states have no blank when material and facing have
      none, so its `setblock` commands read back. */
  lemma BlocksNoBlank(d: BedData)
    requires ' ' !in d.material && ' ' !in d.direction
    ensures ' ' !in FootBlock(d) && ' ' !in HeadBlock(d)
  {
    assert ' ' !in BoolText(Occupied(d));
  }

  /** The rollback clears the very block the foot was placed in. */
  lemma RollbackClearsFoot(d: BedData)
    requires ' ' !in d.material && ' ' !in d.direction
    ensures Addressed(ClearFoot(d).text) == Addressed(FootEntry(d).text) == Some((d.x, d.y, d.z))
  {
    BlocksNoBlank(d);
    SetBlockAddressed(d.x, d.y, d.z, FootBlock(d));
    SetBlockAddressed(d.x, d.y, d.z, Air);
  }

  /** Clearing the head clears the block the head was placed in. */
  lemma ClearHeadClearsHead(d: BedData)
    requires BedOffset(d.direction).Some?
    requires ' ' !in d.material && ' ' !in d.direction
    ensures Addressed(ClearHead(d).text) == Addressed(HeadEntry(d).text) == Some((HeadX(d), d.y, HeadZ(d)))
  {
    BlocksNoBlank(d);
    SetBlockAddressed(HeadX(d), d.y, HeadZ(d), HeadBlock(d));
    SetBlockAddressed(HeadX(d), d.y, HeadZ(d), Air);
  }

  /** For a valid facing, Delete clears exactly the blocks Create placed,
      in the same order. */
  lemma DeleteClearsPlaced(d: BedData)
    requires BedOffset(d.direction).Some?
    requires ' ' !in d.material && ' ' !in d.direction
    ensures |Teardown(d)| == 2
    ensures Addressed(Teardown(d)[0].text) == Addressed(FootEntry(d).text)
    ensures Addressed(Teardown(d)[1].text) == Addressed(HeadEntry(d).text)
  {
    RollbackClearsFoot(d);
    ClearHeadClearsHead(d);
  }
}
