// The tile index (`MapFile::open` in src/tile.rs): after the header, for every zoom
// interval in header order, seek to the interval's sub-file, check the index signature
// when the header's debug bit is set, and read one 5-byte entry per tile of the interval.
module TileIndex {
  import opened Errors
  import opened ByteStream
  import opened Types
  import opened Header
  import Tags

  /** "+++IndexStart+++": 16 bytes, so the trimmed signature equals it exactly when the
      bytes do. */
  const INDEX_SIGNATURE: seq<Byte> := Tags.Ascii("+++IndexStart+++")
  const WATER_TILE_MASK: Byte := 0x80
  const U32: nat := 0x1_0000_0000

  // ---------------------------------------------------------------------------
  // calculate_total_tiles

  const I64_MIN: int := -0x8000_0000_0000_0000
  const I64_MAX: int := 0x7fff_ffff_ffff_ffff

  /** A Rust `i64`; the `floor() as i64` casts saturate, so every bound lies in it. */
  type I64 = x: int | I64_MIN <= x <= I64_MAX

  /** The tile columns and rows that cover a bounding box at a zoom level, as the
      Mercator projection (floating point, not modelled) computes them. */
  datatype TileRange = TileRange(xMin: I64, xMax: I64, yMin: I64, yMax: I64)

  /** `hi - lo + 1` in `i64`, both operations checked for overflow in a debug build. */
  function ExtentOf(lo: I64, hi: I64): (r: Result<I64>)
    ensures r.Ok? <==> I64_MIN <= hi - lo <= I64_MAX && hi - lo + 1 <= I64_MAX
    ensures r.Ok? ==> r.value == hi - lo + 1
    ensures r.Err? ==> r.error == Panic(ArithmeticOverflow)
  {
    var diff := hi - lo;
    if diff < I64_MIN || I64_MAX < diff then Err(Panic(ArithmeticOverflow))
    else if diff + 1 > I64_MAX then Err(Panic(ArithmeticOverflow))
    else Ok(diff + 1)
  }

  /** `(x_max - x_min + 1) as u32` and likewise for y, then their `u32` product, which
      panics on overflow in a debug build, as the `i64` extents before it do. */
  function TileCount(t: TileRange): (r: Result<nat>)
    ensures r.Ok? ==> r.value < U32
    ensures r.Err? ==> r.error == Panic(ArithmeticOverflow)
  {
    var w :- ExtentOf(t.xMin, t.xMax);
    var h :- ExtentOf(t.yMin, t.yMax);
    var numX := w % U32;
    var numY := h % U32;
    if numX * numY >= U32 then Err(Panic(ArithmeticOverflow)) else Ok(numX * numY)
  }

  // ---------------------------------------------------------------------------
  // Index entries

  /** The five bytes of an entry: bit 0x80 of the first is the water flag, and the
      remaining 39 bits, most significant first, are the offset of the tile's data. */
  function EntryOf(b: seq<Byte>): TileIndexEntry
    requires |b| == 5
  {
    TileIndexEntry(IsSet(b[0], WATER_TILE_MASK), BeValue([b[0] % 0x80] + b[1..]))
  }

  function EntryAt(d: seq<Byte>, p: nat): Result<Decoded<TileIndexEntry>> {
    var b :- BytesAt(d, p, 5);
    Ok(Decoded(EntryOf(b.value), b.next))
  }

  /** One entry: the five bytes go into a buffer, whose first byte is tested for the water
      bit and then masked in place; the offset is the buffer read as a u64 behind three
      zero bytes. */
  method ReadEntry(rd: Reader) returns (r: Result<TileIndexEntry>)
    modifies rd
    ensures Tie(r, rd.pos) == EntryAt(rd.data, old(rd.pos))
  {
    var read :- rd.ReadExact(5);
    var bytes := new Byte[5](i => if 0 <= i < |read| then read[i] else 0);
    assert bytes[..] == read;
    var isWater := IsSet(bytes[0], WATER_TILE_MASK);
    bytes[0] := bytes[0] % 0x80;
    assert bytes[..] == [read[0] % 0x80] + read[1..];
    BeValueLeadingZeros([0, 0, 0], bytes[..]);
    r := Ok(TileIndexEntry(isWater, BeValue([0, 0, 0] + bytes[..])));
  }

  // ---------------------------------------------------------------------------
  // One interval's index

  /** Where the entries of a sub-file begin: at its start, or after the 16-byte signature,
      which must match, when the debug bit is set. */
  function IndexStartAt(d: seq<Byte>, start: nat, debug: bool): Result<nat> {
    if !debug then Ok(start)
    else
      var sig :- BytesAt(d, start, 16);
      if sig.value != INDEX_SIGNATURE then Err(InvalidIndexSignature) else Ok(sig.next)
  }

  /** The index of one zoom interval: seek to the sub-file start, check the signature,
      count the tiles of the header's bounding box at the interval's base zoom level, and
      read that many entries. `tileRange` stands for the projection arithmetic. */
  function IntervalIndexAt(d: seq<Byte>, h: MapHeader, tileRange: (BoundingBox, Byte) -> TileRange,
                           z: ZoomInterval): Result<Decoded<seq<TileIndexEntry>>>
  {
    var q :- IndexStartAt(d, z.subFileStart, IsSet(h.flags, DEBUG_INFO_MASK));
    var count :- TileCount(tileRange(h.boundingBox, z.baseZoomLevel));
    Many(EntryAt, d, q, count)
  }

  method ReadIntervalIndex(rd: Reader, h: MapHeader, tileRange: (BoundingBox, Byte) -> TileRange,
                           z: ZoomInterval) returns (r: Result<seq<TileIndexEntry>>)
    modifies rd
    ensures Tie(r, rd.pos) == IntervalIndexAt(rd.data, h, tileRange, z)
  {
    rd.Seek(z.subFileStart);
    if IsSet(h.flags, DEBUG_INFO_MASK) {
      var sig :- rd.ReadExact(16);
      if sig != INDEX_SIGNATURE {
        return Err(InvalidIndexSignature);
      }
    }
    var total :- TileCount(tileRange(h.boundingBox, z.baseZoomLevel));
    ghost var start := rd.pos;
    var tileIndex: seq<TileIndexEntry> := [];
    PrependEnds(EntryAt, rd.data, start, total, tileIndex);
    var i := 0;
    while i < total
      invariant i <= total
      invariant Prepend(tileIndex, Many(EntryAt, rd.data, rd.pos, total - i)) == Many(EntryAt, rd.data, start, total)
    {
      ghost var here := rd.pos;
      var entry := ReadEntry(rd);
      ManyStep(EntryAt, rd.data, here, total - i, tileIndex);
      if entry.Err? {
        return Err(entry.error);
      }
      tileIndex := tileIndex + [entry.value];
      i := i + 1;
    }
    PrependEnds(EntryAt, rd.data, rd.pos, 0, tileIndex);
    r := Ok(tileIndex);
  }

  // ---------------------------------------------------------------------------
  // MapFile::open

  /** The indices of `zs` in order; the first failure aborts. The position `p` is where
      the reader is left when there are no intervals. */
  function IndicesAt(d: seq<Byte>, p: nat, h: MapHeader, tileRange: (BoundingBox, Byte) -> TileRange,
                     zs: seq<ZoomInterval>): (r: Result<Decoded<seq<seq<TileIndexEntry>>>>)
    ensures r.Ok? ==> |r.value.value| == |zs|
    decreases |zs|
  {
    if zs == [] then Ok(Decoded([], p))
    else
      var first :- IntervalIndexAt(d, h, tileRange, zs[0]);
      var rest :- IndicesAt(d, first.next, h, tileRange, zs[1..]);
      Ok(Decoded([first.value] + rest.value, rest.next))
  }

  lemma IndicesStep(d: seq<Byte>, p: nat, h: MapHeader, tileRange: (BoundingBox, Byte) -> TileRange,
                    zs: seq<ZoomInterval>, done: seq<seq<TileIndexEntry>>)
    requires zs != []
    ensures var x := IntervalIndexAt(d, h, tileRange, zs[0]);
      && (x.Ok? ==> Prepend(done, IndicesAt(d, p, h, tileRange, zs))
                    == Prepend(done + [x.value.value], IndicesAt(d, x.value.next, h, tileRange, zs[1..])))
      && (x.Err? ==> Prepend(done, IndicesAt(d, p, h, tileRange, zs)) == Err(x.error))
  {
    var x := IntervalIndexAt(d, h, tileRange, zs[0]);
    if x.Ok? {
      match IndicesAt(d, x.value.next, h, tileRange, zs[1..])
      case Ok(rest) =>
        assert done + ([x.value.value] + rest.value) == done + [x.value.value] + rest.value;
      case Err(_) =>
    }
  }

  /** The header at the start of the stream, then the tile index of every zoom interval. */
  function OpenAt(d: seq<Byte>, tileRange: (BoundingBox, Byte) -> TileRange): Result<Decoded<MapFile>> {
    var h :- HeaderAt(d, 0);
    var indices :- IndicesAt(d, h.next, h.value, tileRange, h.value.zoomIntervalConfiguration);
    Ok(Decoded(MapFile(h.value, indices.value), indices.next))
  }

  /** `MapFile::open` on the bytes of a file: the reader it creates is returned beside the
      result, positioned where reading stopped. */
  method Open(data: seq<Byte>, tileRange: (BoundingBox, Byte) -> TileRange)
    returns (r: Result<MapFile>, reader: Reader)
    ensures fresh(reader) && reader.data == data
    ensures Tie(r, reader.pos) == OpenAt(data, tileRange)
  {
    reader := new Reader(data);
    var header :- ReadFromFile(reader);
    var zs := header.zoomIntervalConfiguration;
    ghost var start := reader.pos;
    var zoomTileIndices: seq<seq<TileIndexEntry>> := [];
    PrependNothing(IndicesAt(data, start, header, tileRange, zs));
    var i := 0;
    while i < |zs|
      invariant i <= |zs| && reader.data == data
      invariant Prepend(zoomTileIndices, IndicesAt(data, reader.pos, header, tileRange, zs[i..]))
             == IndicesAt(data, start, header, tileRange, zs)
    {
      ghost var here := reader.pos;
      var tileIndex := ReadIntervalIndex(reader, header, tileRange, zs[i]);
      IndicesStep(data, here, header, tileRange, zs[i..], zoomTileIndices);
      assert zs[i..][1..] == zs[i + 1..];
      if tileIndex.Err? {
        return Err(tileIndex.error), reader;
      }
      zoomTileIndices := zoomTileIndices + [tileIndex.value];
      i := i + 1;
    }
    assert zoomTileIndices + [] == zoomTileIndices;
    r := Ok(MapFile(header, zoomTileIndices));
  }
}

// The tile index's properties: the tile count is the product of the two extents, an
// entry's flag and offset come from disjoint bits, every index lies where its interval
// says, and `open` succeeds exactly when the header and every index can be read.
module TileIndexProperties {
  import opened Errors
  import opened ByteStream
  import opened Types
  import opened Header
  import opened HeaderProperties
  import opened TileIndex

  const OFFSET_LIMIT: nat := 0x80_0000_0000  // 2^39

  /** With both ranges non-empty and a product that fits, the count is the number of
      columns times the number of rows. */
  lemma TileCountProduct(t: TileRange)
    requires t.xMin <= t.xMax && t.yMin <= t.yMax
    requires (t.xMax - t.xMin + 1) * (t.yMax - t.yMin + 1) < U32
    ensures TileCount(t) == Ok((t.xMax - t.xMin + 1) * (t.yMax - t.yMin + 1))
  {
    var w, h := t.xMax - t.xMin + 1, t.yMax - t.yMin + 1;
    FactorsBelowProduct(w, h);
    assert w < U32 && h < U32;
    assert ExtentOf(t.xMin, t.xMax) == Ok(w);
    assert ExtentOf(t.yMin, t.yMax) == Ok(h);
  }

  lemma FactorsBelowProduct(w: int, h: int)
    requires 1 <= w && 1 <= h
    ensures w <= w * h && h <= w * h
  {
    assert w * h == w * (h - 1) + w;
    assert w * h == (w - 1) * h + h;
  }

  /** An extent that leaves the `i64` range is the debug-build overflow panic, whatever
      the other extent is: a world map at zoom 63 or more has `x_max = i64::MAX`. */
  lemma TileCountExtentOverflow(t: TileRange)
    requires t.xMax - t.xMin + 1 > I64_MAX || t.yMax - t.yMin + 1 > I64_MAX
              || t.xMax - t.xMin < I64_MIN || t.yMax - t.yMin < I64_MIN
    ensures TileCount(t) == Err(Panic(ArithmeticOverflow))
  {
  }

  /** The world map at zoom 63: columns 0 to `i64::MAX` overflow `x_max - x_min + 1`. */
  lemma TileCountWorldAtZoom63()
    ensures TileCount(TileRange(0, I64_MAX, 0, 0)) == Err(Panic(ArithmeticOverflow))
  {
  }

  /** A product that does not fit in 32 bits is the debug-build overflow panic. */
  lemma TileCountOverflow(t: TileRange)
    requires t.xMin <= t.xMax < t.xMin + U32 - 1 && t.yMin <= t.yMax < t.yMin + U32 - 1
    requires (t.xMax - t.xMin + 1) * (t.yMax - t.yMin + 1) >= U32
    ensures TileCount(t) == Err(Panic(ArithmeticOverflow))
  {
  }

  lemma Pow256Four()
    ensures Pow256(4) == U32
  {
  }

  /** A one-byte prefix counts `2^32` times as much as the four bytes behind it. */
  lemma FirstByteWeight(x: Byte, rest: seq<Byte>)
    requires |rest| == 4
    ensures BeValue([x] + rest) == x * U32 + BeValue(rest)
    ensures BeValue(rest) < U32
  {
    BeValueConcat([x], rest);
    assert [x][..0] == [];
    Pow256Four();
    BeValueBound(rest);
  }

  /** An entry needs five bytes; its water flag is bit 0x80 of the first and its offset is
      the other 39 bits, so it is below 2^39. */
  lemma EntryDecoding(d: seq<Byte>, p: nat)
    ensures EntryAt(d, p).Ok? <==> p + 5 <= |d|
    ensures EntryAt(d, p).Ok? ==>
      && EntryAt(d, p).value.next == p + 5
      && (EntryAt(d, p).value.value.isWater <==> d[p] >= 0x80)
      && EntryAt(d, p).value.value.offset == BeValue([d[p] % 0x80] + d[p + 1..p + 5])
      && EntryAt(d, p).value.value.offset < OFFSET_LIMIT
  {
    if p + 5 <= |d| {
      var b := d[p..p + 5];
      assert b[1..] == d[p + 1..p + 5];
      var x: Byte := b[0] % 0x80;
      FirstByteWeight(x, b[1..]);
      assert x * U32 <= 0x7f * U32;
    }
  }

  /** Flipping the water bit flips the flag and leaves the offset alone. */
  lemma WaterBitIndependent(d: seq<Byte>, p: nat)
    requires p + 5 <= |d|
    ensures var e := EntryAt(d, p).value.value;
      var flipped: Byte := if d[p] >= 0x80 then d[p] - 0x80 else d[p] + 0x80;
      EntryAt(d[p := flipped], p) == Ok(Decoded(TileIndexEntry(!e.isWater, e.offset), p + 5))
  {
    var flipped: Byte := if d[p] >= 0x80 then d[p] - 0x80 else d[p] + 0x80;
    var d' := d[p := flipped];
    assert d'[p..p + 5][1..] == d[p..p + 5][1..];
  }

  /** The model encoder of an entry: the offset in five bytes with the water flag in the
      top bit. */
  function EncodeEntry(e: TileIndexEntry): seq<Byte>
    requires e.offset < OFFSET_LIMIT
  {
    var b := BeBytes(e.offset, 5);
    [b[0] + if e.isWater && b[0] < 0x80 then 0x80 else 0] + b[1..]
  }

  lemma EntryRoundTrip(d: seq<Byte>, p: nat, e: TileIndexEntry)
    requires e.offset < OFFSET_LIMIT && Holds(d, p, EncodeEntry(e))
    ensures EntryAt(d, p) == Ok(Decoded(e, p + 5))
  {
    var b := BeBytes(e.offset, 5);
    assert Pow256(5) == 256 * U32 by { Pow256Four(); }
    BeRoundTrip(e.offset, 5);
    assert b == [b[0]] + b[1..];
    FirstByteWeight(b[0], b[1..]);
    assert b[0] < 0x80;
    var rec := d[p..p + 5];
    assert rec == EncodeEntry(e);
    assert rec[1..] == b[1..];
    assert rec[0] % 0x80 == b[0];
    assert [rec[0] % 0x80] + rec[1..] == b;
  }

  /** `n` entries from `q` need `5 * n` bytes (none at all when `n` is 0, even past the
      end), and entry `i` is decoded from the five bytes at `q + 5 * i`. */
  lemma {:induction false} EntriesShape(d: seq<Byte>, q: nat, n: nat)
    ensures Many(EntryAt, d, q, n).Ok? <==> n == 0 || q + 5 * n <= |d|
    ensures Many(EntryAt, d, q, n).Ok? ==>
      && Many(EntryAt, d, q, n).value.next == q + 5 * n
      && forall i | 0 <= i < n :: Many(EntryAt, d, q, n).value.value[i] == EntryOf(d[q + 5 * i..q + 5 * i + 5])
    decreases n
  {
    if n > 0 {
      assert q + 5 + 5 * (n - 1) == q + 5 * n;
      EntriesShape(d, q + 5, n - 1);
      if q + 5 * n <= |d| {
        assert EntryAt(d, q) == Ok(Decoded(EntryOf(d[q..q + 5]), q + 5));
        var rest := Many(EntryAt, d, q + 5, n - 1).value.value;
        var all := Many(EntryAt, d, q, n).value.value;
        assert all == [EntryOf(d[q..q + 5])] + rest;
        assert all[0] == EntryOf(d[q + 5 * 0..q + 5 * 0 + 5]);
        forall i | 1 <= i < n
          ensures all[i] == EntryOf(d[q + 5 * i..q + 5 * i + 5])
        {
          assert all[i] == rest[i - 1];
          assert q + 5 + 5 * (i - 1) == q + 5 * i;
        }
      } else if q + 5 <= |d| {
        assert EntryAt(d, q) == Ok(Decoded(EntryOf(d[q..q + 5]), q + 5));
      }
    }
  }

  /** When the debug bit is set, a signature other than "+++IndexStart+++" is rejected
      before any entry is read. */
  lemma SignatureRejected(d: seq<Byte>, h: MapHeader, tileRange: (BoundingBox, Byte) -> TileRange, z: ZoomInterval)
    requires IsSet(h.flags, DEBUG_INFO_MASK)
    requires z.subFileStart + 16 <= |d| && d[z.subFileStart..z.subFileStart + 16] != INDEX_SIGNATURE
    ensures IntervalIndexAt(d, h, tileRange, z) == Err(InvalidIndexSignature)
  {
  }

  /** An interval's index starts at the interval's sub-file start, after the signature
      when the debug bit is set and with no bytes skipped otherwise, and holds one entry
      per tile, each decoded from its own five bytes. */
  lemma IntervalIndexShape(d: seq<Byte>, h: MapHeader, tileRange: (BoundingBox, Byte) -> TileRange, z: ZoomInterval)
    requires IntervalIndexAt(d, h, tileRange, z).Ok?
    ensures var debug := IsSet(h.flags, DEBUG_INFO_MASK);
      var q := z.subFileStart + if debug then 16 else 0;
      var count := TileCount(tileRange(h.boundingBox, z.baseZoomLevel));
      var entries := IntervalIndexAt(d, h, tileRange, z).value.value;
      && (debug ==> Holds(d, z.subFileStart, INDEX_SIGNATURE))
      && count.Ok? && |entries| == count.value
      && (count.value > 0 ==> q + 5 * count.value <= |d|)
      && IntervalIndexAt(d, h, tileRange, z).value.next == q + 5 * count.value
      && forall i | 0 <= i < |entries| :: entries[i] == EntryOf(d[q + 5 * i..q + 5 * i + 5])
  {
    var q := z.subFileStart + if IsSet(h.flags, DEBUG_INFO_MASK) then 16 else 0;
    assert IndexStartAt(d, z.subFileStart, IsSet(h.flags, DEBUG_INFO_MASK)) == Ok(q);
    EntriesShape(d, q, TileCount(tileRange(h.boundingBox, z.baseZoomLevel)).value);
  }

  /** All the indices are read exactly when each interval's index can be read. */
  lemma {:induction false} IndicesSucceed(d: seq<Byte>, p: nat, h: MapHeader,
                                          tileRange: (BoundingBox, Byte) -> TileRange, zs: seq<ZoomInterval>)
    ensures IndicesAt(d, p, h, tileRange, zs).Ok?
        <==> forall i | 0 <= i < |zs| :: IntervalIndexAt(d, h, tileRange, zs[i]).Ok?
    decreases |zs|
  {
    if zs != [] {
      var first := IntervalIndexAt(d, h, tileRange, zs[0]);
      if first.Ok? {
        IndicesSucceed(d, first.value.next, h, tileRange, zs[1..]);
        assert forall i | 1 <= i < |zs| :: zs[i] == zs[1..][i - 1];
      }
    }
  }

  /** Index `i` is the one of interval `i`, in header order. */
  lemma {:induction false} IndicesInOrder(d: seq<Byte>, p: nat, h: MapHeader,
                                          tileRange: (BoundingBox, Byte) -> TileRange, zs: seq<ZoomInterval>)
    requires IndicesAt(d, p, h, tileRange, zs).Ok?
    ensures forall i | 0 <= i < |zs| ::
      && IntervalIndexAt(d, h, tileRange, zs[i]).Ok?
      && IndicesAt(d, p, h, tileRange, zs).value.value[i] == IntervalIndexAt(d, h, tileRange, zs[i]).value.value
    decreases |zs|
  {
    if zs != [] {
      assert IntervalIndexAt(d, h, tileRange, zs[0]).Ok?;
      var first := IntervalIndexAt(d, h, tileRange, zs[0]).value;
      var rest := IndicesAt(d, first.next, h, tileRange, zs[1..]).value.value;
      IndicesInOrder(d, first.next, h, tileRange, zs[1..]);
      var all := IndicesAt(d, p, h, tileRange, zs).value.value;
      assert all == [first.value] + rest;
      forall i | 1 <= i < |zs|
        ensures IntervalIndexAt(d, h, tileRange, zs[i]).Ok?
        ensures all[i] == IntervalIndexAt(d, h, tileRange, zs[i]).value.value
      {
        assert all[i] == rest[i - 1] && zs[i] == zs[1..][i - 1];
      }
    }
  }

  /** A failure is the error of the first interval whose index cannot be read. */
  lemma {:induction false} IndicesFirstError(d: seq<Byte>, p: nat, h: MapHeader,
                                             tileRange: (BoundingBox, Byte) -> TileRange, zs: seq<ZoomInterval>)
    requires IndicesAt(d, p, h, tileRange, zs).Err?
    ensures exists i | 0 <= i < |zs| ::
      && IntervalIndexAt(d, h, tileRange, zs[i]).Err?
      && IndicesAt(d, p, h, tileRange, zs).error == IntervalIndexAt(d, h, tileRange, zs[i]).error
      && forall j | 0 <= j < i :: IntervalIndexAt(d, h, tileRange, zs[j]).Ok?
    decreases |zs|
  {
    var first := IntervalIndexAt(d, h, tileRange, zs[0]);
    if first.Ok? {
      var rest := zs[1..];
      IndicesFirstError(d, first.value.next, h, tileRange, rest);
      var k :| 0 <= k < |rest|
        && IntervalIndexAt(d, h, tileRange, rest[k]).Err?
        && IndicesAt(d, first.value.next, h, tileRange, rest).error == IntervalIndexAt(d, h, tileRange, rest[k]).error
        && forall j | 0 <= j < k :: IntervalIndexAt(d, h, tileRange, rest[j]).Ok?;
      forall j | 0 <= j < k + 1
        ensures IntervalIndexAt(d, h, tileRange, zs[j]).Ok?
      {
        if j > 0 { assert zs[j] == rest[j - 1]; }
      }
      assert zs[k + 1] == rest[k];
    }
  }

  /** `open` builds a map exactly when the header and every interval's index can be read;
      it then holds one index per announced zoom interval, in header order, each with one
      entry per tile of its interval. */
  lemma OpenShape(d: seq<Byte>, tileRange: (BoundingBox, Byte) -> TileRange)
    ensures OpenAt(d, tileRange).Ok? <==>
      && HeaderAt(d, 0).Ok?
      && forall i | 0 <= i < |HeaderAt(d, 0).value.value.zoomIntervalConfiguration| ::
           IntervalIndexAt(d, HeaderAt(d, 0).value.value, tileRange,
                           HeaderAt(d, 0).value.value.zoomIntervalConfiguration[i]).Ok?
    ensures OpenAt(d, tileRange).Ok? ==>
      var m := OpenAt(d, tileRange).value.value;
      var zs := m.header.zoomIntervalConfiguration;
      && m.header == HeaderAt(d, 0).value.value
      && |m.tileIndices| == |zs| == m.header.numZoomIntervals
      && forall i | 0 <= i < |zs| ::
           && m.tileIndices[i] == IntervalIndexAt(d, m.header, tileRange, zs[i]).value.value
           && |m.tileIndices[i]| == TileCount(tileRange(m.header.boundingBox, zs[i].baseZoomLevel)).value
  {
    if HeaderAt(d, 0).Ok? {
      var h := HeaderAt(d, 0).value;
      var zs := h.value.zoomIntervalConfiguration;
      AcceptedHeader(d, 0);
      IndicesSucceed(d, h.next, h.value, tileRange, zs);
      if OpenAt(d, tileRange).Ok? {
        IndicesInOrder(d, h.next, h.value, tileRange, zs);
        forall i | 0 <= i < |zs|
          ensures |IntervalIndexAt(d, h.value, tileRange, zs[i]).value.value|
               == TileCount(tileRange(h.value.boundingBox, zs[i].baseZoomLevel)).value
        {
          IntervalIndexShape(d, h.value, tileRange, zs[i]);
        }
      }
    }
  }
}
