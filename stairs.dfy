/** `minecraft_stairs` (internal/provider/stairs_resource.go): one stairs block
    whose facing, half and shape go to the server unvalidated. */
module StairsResource {
  import opened Wrappers
  import opened Text
  import opened Errors
  import opened Transport
  import opened Commands
  import opened Client
  import opened Framework

  datatype StairsData = StairsData(id: Str, material: string, x: Int64, y: Int64, z: Int64,
                                   facing: string, half: string, shape: string, waterlogged: Option<bool>)

  /** `waterlogged` defaults to false. */
  function Waterlogged(d: StairsData): bool {
    if d.waterlogged.Some? then d.waterlogged.value else false
  }

  /** The one command Create and Update send. */
  function PlaceEntry(d: StairsData): Entry {
    Command(StairsBlock(d.x, d.y, d.z, d.material, d.facing, d.half, d.shape, Waterlogged(d)))
  }

  /** `stairs-x-y-z`. */
  function StairsID(d: StairsData): string {
    "stairs-" + Dec(d.x) + "-" + Dec(d.y) + "-" + Dec(d.z)
  }

  /** Create sends the one `setblock` and stores `stairs-x-y-z`; a failure
      stores nothing. */
  method Create(c: Conn, d: StairsData) returns (out: Outcome<StairsData>)
    modifies c
    ensures c.log == old(c.log) + [PlaceEntry(d)]
    ensures out == Settle(SendErr(old(c.Next())), d.(id := Known(StairsID(d))))
  {
    var water := false;
    if d.waterlogged.Some? {
      water := d.waterlogged.value;
    }
    var err := CreateStairs(c, d.material, d.x, d.y, d.z, d.facing, d.half, d.shape, water);
    if err.Some? {
      return Rejected(Client(err.value));
    }
    return Stored(d.(id := Known("stairs-" + Dec(d.x) + "-" + Dec(d.y) + "-" + Dec(d.z))));
  }

  /** Read keeps the state and sends nothing. */
  method Read(c: Conn, state: StairsData) returns (out: Outcome<StairsData>)
    ensures out == Stored(state)
  {
    return Stored(state);
  }

  /** Update re-sends the same command and stores the plan as it is. */
  method Update(c: Conn, d: StairsData) returns (out: Outcome<StairsData>)
    modifies c
    ensures c.log == old(c.log) + [PlaceEntry(d)]
    ensures out == Settle(SendErr(old(c.Next())), d)
  {
    var water := false;
    if d.waterlogged.Some? {
      water := d.waterlogged.value;
    }
    var err := CreateStairs(c, d.material, d.x, d.y, d.z, d.facing, d.half, d.shape, water);
    if err.Some? {
      return Rejected(Client(err.value));
    }
    return Stored(d);
  }

  /** What Delete sends: the position cleared to air. */
  function ClearEntry(d: StairsData): Entry {
    Command(AirBlock(d.x, d.y, d.z))
  }

  /** Delete clears the position; its failure is an error. */
  method Delete(c: Conn, d: StairsData) returns (diags: seq<Diag>)
    modifies c
    ensures c.log == old(c.log) + [ClearEntry(d)]
    ensures diags == Removed(SendErr(old(c.Next())))
  {
    var err := DeleteBlock(c, d.x, d.y, d.z);
    diags := Removed(err);
  }

  /** The block state carries the four given values in order, then the
      waterlogged flag: `true` only when it was set to true, `false` when it
      was set to false or not set at all. */
  lemma BlockStateCarriesValues(d: StairsData)
    ensures PlaceEntry(d).text ==
      SetBlock(d.x, d.y, d.z, d.material + "[facing=" + d.facing + ",half=" + d.half + ",shape=" + d.shape
                              + (if d.waterlogged == Some(true) then ",waterlogged=true]" else ",waterlogged=false]"))
  {
    var pre := d.material + "[facing=" + d.facing + ",half=" + d.half + ",shape=" + d.shape;
    var w := BoolText(Waterlogged(d));
    var tail := if d.waterlogged == Some(true) then ",waterlogged=true]" else ",waterlogged=false]";
    assert ",waterlogged=" + w + "]" == tail;
    SuffixAppend(pre, ",waterlogged=" + w, "]");
  }

  lemma SuffixAppend(a: string, b: string, c: string)
    ensures a + b + c == a + (b + c)
  {
  }

  /** When the values contain no blank, Delete clears the very block Create
      placed. */
  lemma DeleteClearsPlaced(d: StairsData)
    requires ' ' !in d.material && ' ' !in d.facing && ' ' !in d.half && ' ' !in d.shape
    ensures Addressed(ClearEntry(d).text) == Addressed(PlaceEntry(d).text) == Some((d.x, d.y, d.z))
  {
    var state := d.material + "[facing=" + d.facing + ",half=" + d.half + ",shape=" + d.shape
                 + ",waterlogged=" + BoolText(Waterlogged(d)) + "]";
    assert ' ' !in BoolText(Waterlogged(d));
    assert ' ' !in "[facing=" && ' ' !in ",half=" && ' ' !in ",shape=" && ' ' !in ",waterlogged=" && ' ' !in "]";
    assert ' ' !in state;
    SetBlockAddressed(d.x, d.y, d.z, state);
    SetBlockAddressed(d.x, d.y, d.z, Air);
  }
}
