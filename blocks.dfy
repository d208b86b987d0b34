// The zoom table of a sub-file (`read_zoom_table` in src/blocks.rs): for every zoom level
// of an interval, from its minimum to its maximum, the number of POIs and of ways.
module Blocks {
  import opened Errors
  import opened ByteStream
  import opened Types
  import opened Utils

  /** One row of the table: the POI count, then the way count. */
  type ZoomCounts = (nat, nat)

  function CountsAt(d: seq<Byte>, p: nat): Result<Decoded<ZoomCounts>> {
    var pois :- VbeUIntAt(d, p);
    var ways :- VbeUIntAt(d, pois.next);
    Ok(Decoded((pois.value, ways.value), ways.next))
  }

  /** The capacity `max - min` is computed first and the loop bound `max + 1` next, both in
      `u8`, so a debug build panics when the maximum is below the minimum or is 255. Then
      there is one row per zoom level from the minimum to the maximum. */
  function ZoomTableAt(d: seq<Byte>, p: nat, z: ZoomInterval): (r: Result<Decoded<seq<ZoomCounts>>>)
    ensures z.maxZoomLevel < z.minZoomLevel || z.maxZoomLevel == 255 ==> r == Err(Panic(ArithmeticOverflow))
    ensures r.Ok? ==> z.minZoomLevel <= z.maxZoomLevel <= 254
                      && |r.value.value| == z.maxZoomLevel - z.minZoomLevel + 1
  {
    if z.maxZoomLevel < z.minZoomLevel then Err(Panic(ArithmeticOverflow))
    else if z.maxZoomLevel == 255 then Err(Panic(ArithmeticOverflow))
    else Many(CountsAt, d, p, z.maxZoomLevel - z.minZoomLevel + 1)
  }

  method ReadCounts(rd: Reader) returns (r: Result<ZoomCounts>)
    modifies rd
    ensures Tie(r, rd.pos) == CountsAt(rd.data, old(rd.pos))
  {
    var pois :- ReadVbeUInt(rd);
    var ways :- ReadVbeUInt(rd);
    r := Ok((pois, ways));
  }

  method ReadZoomTable(rd: Reader, z: ZoomInterval) returns (r: Result<seq<ZoomCounts>>)
    modifies rd
    ensures Tie(r, rd.pos) == ZoomTableAt(rd.data, old(rd.pos), z)
  {
    if z.maxZoomLevel < z.minZoomLevel || z.maxZoomLevel == 255 {
      return Err(Panic(ArithmeticOverflow));
    }
    ghost var start := rd.pos;
    ghost var n := z.maxZoomLevel - z.minZoomLevel + 1;
    var zoomTable: seq<ZoomCounts> := [];
    PrependEnds(CountsAt, rd.data, start, n, zoomTable);
    var zl := z.minZoomLevel;
    while zl < z.maxZoomLevel + 1
      invariant z.minZoomLevel <= zl <= z.maxZoomLevel + 1
      invariant Prepend(zoomTable, Many(CountsAt, rd.data, rd.pos, z.maxZoomLevel + 1 - zl))
             == Many(CountsAt, rd.data, start, n)
    {
      ghost var here := rd.pos;
      var counts := ReadCounts(rd);
      ManyStep(CountsAt, rd.data, here, z.maxZoomLevel + 1 - zl, zoomTable);
      if counts.Err? {
        return Err(counts.error);
      }
      zoomTable := zoomTable + [counts.value];
      zl := zl + 1;
    }
    PrependEnds(CountsAt, rd.data, rd.pos, 0, zoomTable);
    r := Ok(zoomTable);
  }
}

// The zoom table reads back the counts written for it, one row per zoom level in
// ascending order, consuming exactly their two VBE numbers per level.
module BlocksProperties {
  import opened Errors
  import opened ByteStream
  import opened Types
  import opened Utils
  import opened UtilsProperties
  import opened Blocks

  function EncodeCounts(c: ZoomCounts): seq<Byte> {
    EncodeVbeU(c.0) + EncodeVbeU(c.1)
  }

  function EncodeZoomTable(cs: seq<ZoomCounts>): seq<Byte> {
    if cs == [] then [] else EncodeCounts(cs[0]) + EncodeZoomTable(cs[1..])
  }

  lemma CountsPlaced(d: seq<Byte>, p: nat, c: ZoomCounts)
    requires Holds(d, p, EncodeCounts(c))
    ensures CountsAt(d, p) == Ok(Decoded(c, p + |EncodeCounts(c)|))
  {
    HoldsSplit(d, p, EncodeVbeU(c.0), EncodeVbeU(c.1));
    VbeUIntRoundTrip(d, p, c.0);
    VbeUIntRoundTrip(d, p + |EncodeVbeU(c.0)|, c.1);
  }

  /** The first row's bytes, and the rest of the table's after them. */
  lemma CountsSplit(d: seq<Byte>, p: nat, cs: seq<ZoomCounts>)
    requires cs != [] && Holds(d, p, EncodeZoomTable(cs))
    ensures Holds(d, p, EncodeCounts(cs[0]))
    ensures Holds(d, p + |EncodeCounts(cs[0])|, EncodeZoomTable(cs[1..]))
    ensures |EncodeZoomTable(cs)| == |EncodeCounts(cs[0])| + |EncodeZoomTable(cs[1..])|
  {
    HoldsSplit(d, p, EncodeCounts(cs[0]), EncodeZoomTable(cs[1..]));
  }

  lemma {:induction false} CountsListPlaced(d: seq<Byte>, p: nat, cs: seq<ZoomCounts>)
    requires Holds(d, p, EncodeZoomTable(cs))
    ensures Many(CountsAt, d, p, |cs|) == Ok(Decoded(cs, p + |EncodeZoomTable(cs)|))
    decreases |cs|
  {
    if cs != [] {
      var q := p + |EncodeCounts(cs[0])|;
      CountsSplit(d, p, cs);
      CountsPlaced(d, p, cs[0]);
      CountsListPlaced(d, q, cs[1..]);
      ManyCons(CountsAt, d, p, cs, q, p + |EncodeZoomTable(cs)|);
    }
  }

  /** Row `i` of the table is the pair written for zoom level `min + i`. */
  lemma ZoomTableRoundTrip(d: seq<Byte>, p: nat, z: ZoomInterval, cs: seq<ZoomCounts>)
    requires z.minZoomLevel <= z.maxZoomLevel <= 254 && |cs| == z.maxZoomLevel - z.minZoomLevel + 1
    requires Holds(d, p, EncodeZoomTable(cs))
    ensures ZoomTableAt(d, p, z) == Ok(Decoded(cs, p + |EncodeZoomTable(cs)|))
  {
    CountsListPlaced(d, p, cs);
  }

  /** Each row takes two VBE numbers, at least two bytes, so a table that reads back
      consumed at least twice as many bytes as it has rows. */
  lemma {:induction false} ZoomTableConsumes(d: seq<Byte>, p: nat, n: nat)
    requires Many(CountsAt, d, p, n).Ok?
    ensures Many(CountsAt, d, p, n).value.next >= p + 2 * n
    decreases n
  {
    if n > 0 {
      var pois := VbeUIntAt(d, p).value;
      var ways := VbeUIntAt(d, pois.next).value;
      VbeUIntShape(d, p);
      VbeUIntShape(d, pois.next);
      ZoomTableConsumes(d, ways.next, n - 1);
    }
  }
}
