/** `minecraft_fill` (internal/provider/fill_resource.go): a cuboid filled with
    one material, cleared back to air on Delete. */
module FillResource {
  import opened Wrappers
  import opened Text
  import opened Errors
  import opened Transport
  import opened Commands
  import opened Client
  import opened Framework

  datatype FillData = FillData(id: Str, material: string,
                               sx: Int64, sy: Int64, sz: Int64, ex: Int64, ey: Int64, ez: Int64)

  /** The one `fill` Create and Update send. */
  function FillEntry(d: FillData): Entry {
    Command(Fill(d.sx, d.sy, d.sz, d.ex, d.ey, d.ez, d.material))
  }

  /** The `fill` Delete sends: the same cuboid with air. */
  function ClearEntry(d: FillData): Entry {
    Command(Fill(d.sx, d.sy, d.sz, d.ex, d.ey, d.ez, Air))
  }

  /** `M|sx,sy,sz->ex,ey,ez`. */
  function FillID(d: FillData): string {
    d.material + "|" + Dec(d.sx) + "," + Dec(d.sy) + "," + Dec(d.sz)
    + "->" + Dec(d.ex) + "," + Dec(d.ey) + "," + Dec(d.ez)
  }

  /** Create fills the cuboid and stores the id; a failure stores nothing. */
  method Create(c: Conn, d: FillData) returns (out: Outcome<FillData>)
    modifies c
    ensures c.log == old(c.log) + [FillEntry(d)]
    ensures out == Settle(SendErr(old(c.Next())), d.(id := Known(FillID(d))))
  {
    var err := FillBlock(c, d.material, d.sx, d.sy, d.sz, d.ex, d.ey, d.ez);
    if err.Some? {
      return Rejected(Client(err.value));
    }
    var id := d.material + "|" + Dec(d.sx) + "," + Dec(d.sy) + "," + Dec(d.sz)
              + "->" + Dec(d.ex) + "," + Dec(d.ey) + "," + Dec(d.ez);
    return Stored(d.(id := Known(id)));
  }

  /** Read keeps the state and sends nothing. */
  method Read(c: Conn, state: FillData) returns (out: Outcome<FillData>)
    ensures out == Stored(state)
  {
    return Stored(state);
  }

  /** Update re-fills and recomputes the id from the new material. */
  method Update(c: Conn, d: FillData) returns (out: Outcome<FillData>)
    modifies c
    ensures c.log == old(c.log) + [FillEntry(d)]
    ensures out == Settle(SendErr(old(c.Next())), d.(id := Known(FillID(d))))
  {
    var err := FillBlock(c, d.material, d.sx, d.sy, d.sz, d.ex, d.ey, d.ez);
    if err.Some? {
      return Rejected(Client(err.value));
    }
    var id := d.material + "|" + Dec(d.sx) + "," + Dec(d.sy) + "," + Dec(d.sz)
              + "->" + Dec(d.ex) + "," + Dec(d.ey) + "," + Dec(d.ez);
    return Stored(d.(id := Known(id)));
  }

  /** Delete fills the cuboid with air; its failure is an error. */
  method Delete(c: Conn, d: FillData) returns (diags: seq<Diag>)
    modifies c
    ensures c.log == old(c.log) + [ClearEntry(d)]
    ensures diags == Removed(SendErr(old(c.Next())))
  {
    var err := FillBlock(c, Air, d.sx, d.sy, d.sz, d.ex, d.ey, d.ez);
    diags := Removed(err);
  }

  /** Delete's `fill` has the same corners as Create's, word for word; only
      the material differs, and it is air. */
  lemma DeleteClearsRegion(d: FillData)
    requires ' ' !in d.material
    ensures var made, cleared := Split(FillEntry(d).text, ' '), Split(ClearEntry(d).text, ' ');
      |made| == |cleared| == 9 && made[..7] == cleared[..7]
      && made[7] == d.material && cleared[7] == Air && made[8] == cleared[8] == "hollow"
  {
    FillWords(d.sx, d.sy, d.sz, d.ex, d.ey, d.ez, d.material);
    assert ' ' !in Air;
    FillWords(d.sx, d.sy, d.sz, d.ex, d.ey, d.ez, Air);
  }

  /** The id begins with the material up to the first `|`, so an Update that
      changes the material changes the id. */
  lemma IDNamesMaterial(d: FillData)
    requires '|' !in d.material
    ensures Cut(FillID(d), '|').Some? && Cut(FillID(d), '|').value.0 == d.material
  {
    var rest := Dec(d.sx) + "," + Dec(d.sy) + "," + Dec(d.sz)
                + "->" + Dec(d.ex) + "," + Dec(d.ey) + "," + Dec(d.ez);
    assert FillID(d) == d.material + ['|'] + rest;
    CutOfJoin(d.material, '|', rest);
  }

  /** Two fills over the same cuboid with different materials get different ids. */
  lemma IDsDifferByMaterial(d: FillData, e: FillData)
    requires '|' !in d.material && '|' !in e.material
    requires d.material != e.material
    ensures FillID(d) != FillID(e)
  {
    IDNamesMaterial(d);
    IDNamesMaterial(e);
  }
}
