/** `minecraft_chest` (internal/provider/chest_resource.go): a single chest,
    or a double one whose right half is one block east (x + 1) of its left. */
module ChestResource {
  import opened Wrappers
  import opened Text
  import opened Errors
  import opened Transport
  import opened Commands
  import opened Client
  import opened Framework

  datatype ChestData = ChestData(id: Str, size: string, trapped: Option<bool>, waterlogged: Option<bool>,
                                 x: Int64, y: Int64, z: Int64)

  /** `trapped` and `waterlogged` default to false. */
  function Trapped(d: ChestData): bool {
    if d.trapped.Some? then d.trapped.value else false
  }

  function Waterlogged(d: ChestData): bool {
    if d.waterlogged.Some? then d.waterlogged.value else false
  }

  /** The block a chest is made of. */
  function Material(d: ChestData): (m: string)
    ensures m == "minecraft:trapped_chest" <==> Trapped(d)
    ensures !Trapped(d) ==> m == "minecraft:chest"
  {
    if Trapped(d) then "minecraft:trapped_chest" else "minecraft:chest"
  }

  /** `M[type=single,waterlogged=b]`, and the two halves of a double chest. */
  function SingleBlock(d: ChestData): string {
    Material(d) + "[type=single,waterlogged=" + BoolText(Waterlogged(d)) + "]"
  }

  function LeftBlock(d: ChestData): string {
    Material(d) + "[type=left,waterlogged=" + BoolText(Waterlogged(d)) + "]"
  }

  function RightBlock(d: ChestData): string {
    Material(d) + "[type=right,waterlogged=" + BoolText(Waterlogged(d)) + "]"
  }

  /** The right half's x, with Go's 64-bit wrap-around. */
  function RightX(d: ChestData): Int64 {
    Wrap64(d.x + 1)
  }

  function SingleEntry(d: ChestData): Entry {
    Command(SetBlock(d.x, d.y, d.z, SingleBlock(d)))
  }

  function LeftEntry(d: ChestData): Entry {
    Command(SetBlock(d.x, d.y, d.z, LeftBlock(d)))
  }

  function RightEntry(d: ChestData): Entry {
    Command(SetBlock(RightX(d), d.y, d.z, RightBlock(d)))
  }

  /** The position cleared to air: the rollback and the first delete. */
  function ClearLeft(d: ChestData): Entry {
    Command(AirBlock(d.x, d.y, d.z))
  }

  function ClearRight(d: ChestData): Entry {
    Command(AirBlock(RightX(d), d.y, d.z))
  }

  /** `chest-x-y-z`. */
  function ChestID(d: ChestData): string {
    "chest-" + Dec(d.x) + "-" + Dec(d.y) + "-" + Dec(d.z)
  }

  /** The right half is never the left's block, and barring overflow it is
      the next block east. */
  lemma RightBesideLeft(d: ChestData)
    ensures RightX(d) != d.x
    ensures d.x < MaxInt64 ==> RightX(d) == d.x + 1
  {
    assert (RightX(d) - (d.x + 1)) % TwoTo64 == 0;
  }

  /** Places the two halves of a double chest, left then right; with
      `rollback`, a failed right half clears the left one again. */
  method PlaceDouble(c: Conn, d: ChestData, rollback: bool) returns (err: Option<Error>)
    modifies c
    ensures var n := |old(c.log)|;
      (c.ReplyAt(n).Failed? ==>
         c.log == old(c.log) + [LeftEntry(d)] && err == Some(Transport(c.ReplyAt(n).cause)))
      && (c.ReplyAt(n).Answer? && c.ReplyAt(n + 1).Failed? ==>
            (rollback ==> c.log == old(c.log) + [LeftEntry(d)] + [RightEntry(d)] + [ClearLeft(d)])
            && (!rollback ==> c.log == old(c.log) + [LeftEntry(d)] + [RightEntry(d)])
            && err == Some(Transport(c.ReplyAt(n + 1).cause)))
      && (c.ReplyAt(n).Answer? && c.ReplyAt(n + 1).Answer? ==>
            c.log == old(c.log) + [LeftEntry(d)] + [RightEntry(d)] && err.None?)
  {
    var material, waterlogged := Material(d), Waterlogged(d);
    var blockLeft := material + "[type=left,waterlogged=" + BoolText(waterlogged) + "]";
    var blockRight := material + "[type=right,waterlogged=" + BoolText(waterlogged) + "]";
    err := CreateBlock(c, blockLeft, d.x, d.y, d.z);
    if err.Some? {
      return;
    }
    err := CreateBlock(c, blockRight, RightX(d), d.y, d.z);
    if err.Some? && rollback {
      var _ := DeleteBlock(c, d.x, d.y, d.z);
    }
  }

  /** Places the chest for its size; the part Create and Update share. An
      unknown size sends nothing. */
  method Place(c: Conn, d: ChestData, rollback: bool) returns (p: Option<Problem>)
    modifies c
    ensures d.size != "single" && d.size != "double" ==> c.log == old(c.log) && p == Some(InvalidSize)
    ensures d.size == "single" ==>
      c.log == old(c.log) + [SingleEntry(d)] && p == Lift(SendErr(old(c.Next())))
    ensures d.size == "double" ==> var n := |old(c.log)|;
      (c.ReplyAt(n).Failed? ==>
         c.log == old(c.log) + [LeftEntry(d)] && p == Some(Client(Transport(c.ReplyAt(n).cause))))
      && (c.ReplyAt(n).Answer? && c.ReplyAt(n + 1).Failed? ==>
            (rollback ==> c.log == old(c.log) + [LeftEntry(d)] + [RightEntry(d)] + [ClearLeft(d)])
            && (!rollback ==> c.log == old(c.log) + [LeftEntry(d)] + [RightEntry(d)])
            && p == Some(Client(Transport(c.ReplyAt(n + 1).cause))))
      && (c.ReplyAt(n).Answer? && c.ReplyAt(n + 1).Answer? ==>
            c.log == old(c.log) + [LeftEntry(d)] + [RightEntry(d)] && p.None?)
  {
    var err: Option<Error>;
    if d.size == "single" {
      var block := Material(d) + "[type=single,waterlogged=" + BoolText(Waterlogged(d)) + "]";
      err := CreateBlock(c, block, d.x, d.y, d.z);
    } else if d.size == "double" {
      err := PlaceDouble(c, d, rollback);
    } else {
      return Some(InvalidSize);
    }
    p := Lift(err);
  }

  /** Create places the chest (a double one with rollback) and stores
      `chest-x-y-z`; an unknown size sends nothing. */
  method Create(c: Conn, d: ChestData) returns (out: Outcome<ChestData>)
    modifies c
    ensures d.size != "single" && d.size != "double" ==> c.log == old(c.log) && out == Rejected(InvalidSize)
    ensures d.size == "single" ==>
      c.log == old(c.log) + [SingleEntry(d)]
      && out == Settle(SendErr(old(c.Next())), d.(id := Known(ChestID(d))))
    ensures d.size == "double" ==> var n := |old(c.log)|;
      (c.ReplyAt(n).Failed? ==>
         c.log == old(c.log) + [LeftEntry(d)] && out == Rejected(Client(Transport(c.ReplyAt(n).cause))))
      && (c.ReplyAt(n).Answer? && c.ReplyAt(n + 1).Failed? ==>
            c.log == old(c.log) + [LeftEntry(d)] + [RightEntry(d)] + [ClearLeft(d)]
            && out == Rejected(Client(Transport(c.ReplyAt(n + 1).cause))))
      && (c.ReplyAt(n).Answer? && c.ReplyAt(n + 1).Answer? ==>
            c.log == old(c.log) + [LeftEntry(d)] + [RightEntry(d)]
            && out == Stored(d.(id := Known(ChestID(d)))))
  {
    var p := Place(c, d, true);
    if p.Some? {
      return Rejected(p.value);
    }
    return Stored(d.(id := Known("chest-" + Dec(d.x) + "-" + Dec(d.y) + "-" + Dec(d.z))));
  }

  /** Read keeps the state and sends nothing. */
  method Read(c: Conn, state: ChestData) returns (out: Outcome<ChestData>)
    ensures out == Stored(state)
  {
    return Stored(state);
  }

  /** Update places the same blocks without any rollback and stores the plan. */
  method Update(c: Conn, d: ChestData) returns (out: Outcome<ChestData>)
    modifies c
    ensures d.size != "single" && d.size != "double" ==> c.log == old(c.log) && out == Rejected(InvalidSize)
    ensures d.size == "single" ==>
      c.log == old(c.log) + [SingleEntry(d)] && out == Settle(SendErr(old(c.Next())), d)
    ensures d.size == "double" ==> var n := |old(c.log)|;
      (c.ReplyAt(n).Failed? ==>
         c.log == old(c.log) + [LeftEntry(d)] && out == Rejected(Client(Transport(c.ReplyAt(n).cause))))
      && (c.ReplyAt(n).Answer? && c.ReplyAt(n + 1).Failed? ==>
            c.log == old(c.log) + [LeftEntry(d)] + [RightEntry(d)]
            && out == Rejected(Client(Transport(c.ReplyAt(n + 1).cause))))
      && (c.ReplyAt(n).Answer? && c.ReplyAt(n + 1).Answer? ==>
            c.log == old(c.log) + [LeftEntry(d)] + [RightEntry(d)] && out == Stored(d))
  {
    var p := Place(c, d, false);
    if p.Some? {
      return Rejected(p.value);
    }
    return Stored(d);
  }

  /** Delete clears the chest's blocks; errors are ignored. */
  method Delete(c: Conn, d: ChestData) returns (diags: seq<Diag>)
    modifies c
    ensures d.size == "double" ==> c.log == old(c.log) + [ClearLeft(d)] + [ClearRight(d)]
    ensures d.size != "double" ==> c.log == old(c.log) + [ClearLeft(d)]
    ensures diags == []
  {
    var _ := DeleteBlock(c, d.x, d.y, d.z);
    if d.size == "double" {
      var _ := DeleteBlock(c, RightX(d), d.y, d.z);
    }
    diags := [];
  }

  /** The chest block states contain no blank, so their `setblock`s read back. */
  lemma BlocksNoBlank(d: ChestData)
    ensures ' ' !in SingleBlock(d) && ' ' !in LeftBlock(d) && ' ' !in RightBlock(d)
  {
    assert ' ' !in Material(d);
    assert ' ' !in BoolText(Waterlogged(d));
    assert ' ' !in "]";
    assert ' ' !in "[type=single,waterlogged=";
    assert ' ' !in "[type=left,waterlogged=";
    assert ' ' !in "[type=right,waterlogged=";
  }

  /** The rollback and the first delete clear the block the single chest or
      the left half was placed in. */
  lemma ClearLeftClearsPlaced(d: ChestData)
    ensures Addressed(ClearLeft(d).text) == Addressed(LeftEntry(d).text)
                                         == Addressed(SingleEntry(d).text) == Some((d.x, d.y, d.z))
  {
    BlocksNoBlank(d);
    SetBlockAddressed(d.x, d.y, d.z, LeftBlock(d));
    SetBlockAddressed(d.x, d.y, d.z, SingleBlock(d));
    SetBlockAddressed(d.x, d.y, d.z, Air);
  }

  /** The second delete of a double chest clears its right half. */
  lemma ClearRightClearsPlaced(d: ChestData)
    ensures Addressed(ClearRight(d).text) == Addressed(RightEntry(d).text) == Some((RightX(d), d.y, d.z))
  {
    BlocksNoBlank(d);
    SetBlockAddressed(RightX(d), d.y, d.z, RightBlock(d));
    SetBlockAddressed(RightX(d), d.y, d.z, Air);
  }

  /** The two halves of a double chest are different blocks, so deleting
      one never clears the other. */
  lemma HalvesDistinct(d: ChestData)
    ensures Addressed(LeftEntry(d).text) != Addressed(RightEntry(d).text)
    ensures Addressed(ClearLeft(d).text) != Addressed(ClearRight(d).text)
  {
    ClearLeftClearsPlaced(d);
    ClearRightClearsPlaced(d);
    RightBesideLeft(d);
  }
}
