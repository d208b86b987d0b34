// The file header decoder (src/header.rs): magic and version checks, the big-endian
// fixed fields, the bounding box, the optional fields gated by the flags byte, the POI
// and way tag dictionaries, and the zoom-interval table.
module Header {
  import opened Errors
  import opened ByteStream
  import opened Types
  import opened Utils
  import Tags

  /** "mapsforge binary OSM": 20 bytes, so the trimmed 20-byte field equals it exactly
      when the bytes do. */
  const MAGIC_BYTES: seq<Byte> := Tags.Ascii("mapsforge binary OSM")
  const MIN_SUPPORTED_VERSION: nat := 3

  const DEBUG_INFO_MASK: Byte := 0x80
  const MAP_START_POSITION_MASK: Byte := 0x40
  const START_ZOOM_LEVEL_MASK: Byte := 0x20
  const LANGUAGE_PREFERENCE_MASK: Byte := 0x10
  const COMMENT_MASK: Byte := 0x08
  const CREATED_BY_MASK: Byte := 0x04

  // ---------------------------------------------------------------------------
  // Bounding box

  /** `BoundingBox::is_valid`: latitudes within [-90, 90] degrees, longitudes within
      [-180, 180], and minimum not above maximum on both axes. */
  predicate BoundingBoxIsValid(b: BoundingBox) {
    -90_000_000 <= b.minLat <= 90_000_000
    && -90_000_000 <= b.maxLat <= 90_000_000
    && -180_000_000 <= b.minLon <= 180_000_000
    && -180_000_000 <= b.maxLon <= 180_000_000
    && b.minLat <= b.maxLat
    && b.minLon <= b.maxLon
  }

  /** `BoundingBox::read_from_buffer`: four big-endian i32, then the validity check. */
  function BoundingBoxAt(d: seq<Byte>, p: nat): Result<Decoded<BoundingBox>> {
    var minLat :- I32At(d, p);
    var minLon :- I32At(d, minLat.next);
    var maxLat :- I32At(d, minLon.next);
    var maxLon :- I32At(d, maxLat.next);
    var bbox := BoundingBox(minLat.value, minLon.value, maxLat.value, maxLon.value);
    if !BoundingBoxIsValid(bbox) then Err(InvalidBoundingBox) else Ok(Decoded(bbox, maxLon.next))
  }

  method ReadBoundingBox(rd: Reader) returns (r: Result<BoundingBox>)
    modifies rd
    ensures Tie(r, rd.pos) == BoundingBoxAt(rd.data, old(rd.pos))
  {
    var minLat :- rd.ReadI32();
    var minLon :- rd.ReadI32();
    var maxLat :- rd.ReadI32();
    var maxLon :- rd.ReadI32();
    var bbox := BoundingBox(minLat, minLon, maxLat, maxLon);
    if !BoundingBoxIsValid(bbox) {
      return Err(InvalidBoundingBox);
    }
    r := Ok(bbox);
  }

  // ---------------------------------------------------------------------------
  // Optional fields

  datatype OptionalFields = OptionalFields(
    mapStartPosition: Option<(int, int)>,
    startZoomLevel: Option<Byte>,
    languagePreference: Option<seq<Byte>>,
    comment: Option<seq<Byte>>,
    createdBy: Option<seq<Byte>>)

  /** The map start position: latitude then longitude, two big-endian i32. */
  function StartPositionAt(d: seq<Byte>, p: nat): Result<Decoded<(int, int)>> {
    var lat :- I32At(d, p);
    var lon :- I32At(d, lat.next);
    Ok(Decoded((lat.value, lon.value), lon.next))
  }

  // Each optional field is read when its flag is set and is `None`, consuming nothing,
  // otherwise.

  function OptionalStartPositionAt(present: bool, d: seq<Byte>, p: nat): (r: Result<Decoded<Option<(int, int)>>>)
    ensures !present ==> r == Ok(Decoded(None, p))
    ensures present ==> r.Ok? == StartPositionAt(d, p).Ok?
    ensures r.Ok? ==> (r.value.value.Some? <==> present)
  {
    if !present then Ok(Decoded(None, p))
    else
      var x :- StartPositionAt(d, p);
      Ok(Decoded(Some(x.value), x.next))
  }

  function OptionalZoomLevelAt(present: bool, d: seq<Byte>, p: nat): (r: Result<Decoded<Option<Byte>>>)
    ensures !present ==> r == Ok(Decoded(None, p))
    ensures present ==> r.Ok? == U8At(d, p).Ok?
    ensures r.Ok? ==> (r.value.value.Some? <==> present)
  {
    if !present then Ok(Decoded(None, p))
    else
      var x :- U8At(d, p);
      Ok(Decoded(Some(x.value), x.next))
  }

  function OptionalTextAt(present: bool, d: seq<Byte>, p: nat): (r: Result<Decoded<Option<seq<Byte>>>>)
    ensures !present ==> r == Ok(Decoded(None, p))
    ensures present ==> r.Ok? == VbeStringAt(d, p).Ok?
    ensures r.Ok? ==> (r.value.value.Some? <==> present)
  {
    if !present then Ok(Decoded(None, p))
    else
      var x :- VbeStringAt(d, p);
      Ok(Decoded(Some(x.value), x.next))
  }

  /** Which optional fields the flags byte announces. */
  datatype Presence = Presence(
    startPosition: bool, startZoomLevel: bool, languagePreference: bool, comment: bool, createdBy: bool)

  /** Bit 0x80 (debug information) announces no field of the header. */
  function PresenceOf(flags: Byte): Presence {
    Presence(IsSet(flags, MAP_START_POSITION_MASK), IsSet(flags, START_ZOOM_LEVEL_MASK),
             IsSet(flags, LANGUAGE_PREFERENCE_MASK), IsSet(flags, COMMENT_MASK), IsSet(flags, CREATED_BY_MASK))
  }

  /** The optional fields in their fixed order, each one read when it is announced. */
  function OptionalFieldsAt(d: seq<Byte>, p: nat, present: Presence): (r: Result<Decoded<OptionalFields>>)
    ensures r.Ok? ==>
      && (r.value.value.mapStartPosition.Some? <==> present.startPosition)
      && (r.value.value.startZoomLevel.Some? <==> present.startZoomLevel)
      && (r.value.value.languagePreference.Some? <==> present.languagePreference)
      && (r.value.value.comment.Some? <==> present.comment)
      && (r.value.value.createdBy.Some? <==> present.createdBy)
  {
    var start :- OptionalStartPositionAt(present.startPosition, d, p);
    var zoom :- OptionalZoomLevelAt(present.startZoomLevel, d, start.next);
    var language :- OptionalTextAt(present.languagePreference, d, zoom.next);
    var comment :- OptionalTextAt(present.comment, d, language.next);
    var createdBy :- OptionalTextAt(present.createdBy, d, comment.next);
    Ok(Decoded(OptionalFields(start.value, zoom.value, language.value, comment.value, createdBy.value),
               createdBy.next))
  }

  method ReadOptionalFields(rd: Reader, flags: Byte) returns (r: Result<OptionalFields>)
    modifies rd
    ensures Tie(r, rd.pos) == OptionalFieldsAt(rd.data, old(rd.pos), PresenceOf(flags))
  {
    var mapStartPosition: Option<(int, int)>;
    if IsSet(flags, MAP_START_POSITION_MASK) {
      var lat :- rd.ReadI32();
      var lon :- rd.ReadI32();
      mapStartPosition := Some((lat, lon));
    } else {
      mapStartPosition := None;
    }
    var startZoomLevel: Option<Byte>;
    if IsSet(flags, START_ZOOM_LEVEL_MASK) {
      var zoom :- rd.ReadU8();
      startZoomLevel := Some(zoom);
    } else {
      startZoomLevel := None;
    }
    var languagePreference: Option<seq<Byte>>;
    if IsSet(flags, LANGUAGE_PREFERENCE_MASK) {
      var language :- ReadVbeU(rd);
      languagePreference := Some(language);
    } else {
      languagePreference := None;
    }
    var comment: Option<seq<Byte>>;
    if IsSet(flags, COMMENT_MASK) {
      var text :- ReadVbeU(rd);
      comment := Some(text);
    } else {
      comment := None;
    }
    var createdBy: Option<seq<Byte>>;
    if IsSet(flags, CREATED_BY_MASK) {
      var text :- ReadVbeU(rd);
      createdBy := Some(text);
    } else {
      createdBy := None;
    }
    r := Ok(OptionalFields(mapStartPosition, startZoomLevel, languagePreference, comment, createdBy));
  }

  // ---------------------------------------------------------------------------
  // Tag dictionaries and zoom intervals

  /** A u16 big-endian count, then that many VBE strings, in file order. */
  function TagDictionaryAt(d: seq<Byte>, p: nat): Result<Decoded<seq<seq<Byte>>>> {
    var count :- BeUintAt(d, p, 2);
    Many(VbeStringAt, d, count.next, count.value)
  }

  method ReadTagDictionary(rd: Reader) returns (r: Result<seq<seq<Byte>>>)
    modifies rd
    ensures Tie(r, rd.pos) == TagDictionaryAt(rd.data, old(rd.pos))
  {
    var count :- rd.ReadBeUint(2);
    r := ReadTags(rd, count);
  }

  /** The `count` dictionary entries, one VBE-prefixed string each; the first failure
      aborts. */
  method ReadTags(rd: Reader, count: nat) returns (r: Result<seq<seq<Byte>>>)
    modifies rd
    ensures Tie(r, rd.pos) == Many(VbeStringAt, rd.data, old(rd.pos), count)
  {
    ghost var start := rd.pos;
    var tags: seq<seq<Byte>> := [];
    PrependEnds(VbeStringAt, rd.data, start, count, tags);
    var i := 0;
    while i < count
      invariant i <= count
      invariant Prepend(tags, Many(VbeStringAt, rd.data, rd.pos, count - i))
             == Many(VbeStringAt, rd.data, start, count)
    {
      ghost var here := rd.pos;
      var tag := ReadVbeU(rd);
      ManyRead(VbeStringAt, rd.data, here, count - i, tags, tag, rd.pos);
      if tag.Err? {
        return Err(tag.error);
      }
      tags := tags + [tag.value];
      i := i + 1;
    }
    PrependEnds(VbeStringAt, rd.data, rd.pos, 0, tags);
    r := Ok(tags);
  }

  /** One 19-byte zoom-interval record: base, minimum and maximum zoom (u8 each), then the
      sub-file start and size (u64 big-endian each). The five reads fail, with an I/O error,
      exactly when the stream ends before the record does. */
  function ZoomIntervalAt(d: seq<Byte>, p: nat): Result<Decoded<ZoomInterval>> {
    var b :- BytesAt(d, p, 19);
    var rec := b.value;
    Ok(Decoded(ZoomInterval(rec[0], rec[1], rec[2], BeValue(rec[3..11]), BeValue(rec[11..19])), b.next))
  }

  method ReadZoomInterval(rd: Reader) returns (r: Result<ZoomInterval>)
    modifies rd
    ensures Tie(r, rd.pos) == ZoomIntervalAt(rd.data, old(rd.pos))
  {
    ghost var p := rd.pos;
    var baseZoomLevel :- rd.ReadU8();
    var minZoomLevel :- rd.ReadU8();
    var maxZoomLevel :- rd.ReadU8();
    var subFileStart :- rd.ReadBeUint(8);
    var subFileSize :- rd.ReadBeUint(8);
    r := Ok(ZoomInterval(baseZoomLevel, minZoomLevel, maxZoomLevel, subFileStart, subFileSize));
    ghost var rec := rd.data[p..p + 19];
    assert rec[..3] == [baseZoomLevel, minZoomLevel, maxZoomLevel];
    assert rec[3..11] == rd.data[p + 3..p + 11];
    assert rec[11..19] == rd.data[p + 11..p + 19];
  }

  method ReadZoomIntervals(rd: Reader, count: Byte) returns (r: Result<seq<ZoomInterval>>)
    modifies rd
    ensures Tie(r, rd.pos) == Many(ZoomIntervalAt, rd.data, old(rd.pos), count)
  {
    ghost var start := rd.pos;
    var intervals: seq<ZoomInterval> := [];
    PrependEnds(ZoomIntervalAt, rd.data, start, count, intervals);
    var i := 0;
    while i < count
      invariant i <= count
      invariant Prepend(intervals, Many(ZoomIntervalAt, rd.data, rd.pos, count - i))
             == Many(ZoomIntervalAt, rd.data, start, count)
    {
      ghost var here := rd.pos;
      var interval := ReadZoomInterval(rd);
      ManyStep(ZoomIntervalAt, rd.data, here, count - i, intervals);
      if interval.Err? {
        return Err(interval.error);
      }
      intervals := intervals + [interval.value];
      i := i + 1;
    }
    PrependEnds(ZoomIntervalAt, rd.data, rd.pos, 0, intervals);
    r := Ok(intervals);
  }

  // ---------------------------------------------------------------------------
  // The header

  /** `MapHeader::is_valid`. */
  predicate HeaderIsValid(h: MapHeader) {
    h.magic == MAGIC_BYTES && h.headerSize > 0 && h.fileVersion >= MIN_SUPPORTED_VERSION
  }

  /** The 20 magic bytes, which must spell the signature. */
  function MagicAt(d: seq<Byte>, p: nat): Result<Decoded<seq<Byte>>> {
    var magic :- BytesAt(d, p, 20);
    if magic.value != MAGIC_BYTES then Err(InvalidMagic) else Ok(magic)
  }

  /** The fixed-layout start of the header, up to and including the flags byte. */
  datatype FixedPart = FixedPart(
    magic: seq<Byte>, headerSize: nat, fileVersion: nat, fileSize: nat, creationDate: nat,
    boundingBox: BoundingBox, tileSize: nat, projection: seq<Byte>, flags: Byte)

  /** The first fields of `MapHeader::read_from_file` in file order, with the version check
      that is made as soon as the version is known. */
  function FixedPartAt(d: seq<Byte>, p: nat): Result<Decoded<FixedPart>> {
    var magic :- MagicAt(d, p);
    var headerSize :- BeUintAt(d, magic.next, 4);
    var fileVersion :- BeUintAt(d, headerSize.next, 4);
    if fileVersion.value < MIN_SUPPORTED_VERSION then Err(UnsupportedVersion(fileVersion.value))
    else
      var fileSize :- BeUintAt(d, fileVersion.next, 8);
      var creationDate :- BeUintAt(d, fileSize.next, 8);
      var bbox :- BoundingBoxAt(d, creationDate.next);
      var tileSize :- BeUintAt(d, bbox.next, 2);
      var projection :- VbeStringAt(d, tileSize.next);
      var flags :- U8At(d, projection.next);
      Ok(Decoded(FixedPart(magic.value, headerSize.value, fileVersion.value, fileSize.value,
                           creationDate.value, bbox.value, tileSize.value, projection.value,
                           flags.value), flags.next))
  }

  /** All fields of `MapHeader::read_from_file` in file order: the fixed part, the optional
      fields its flags announce, the two tag dictionaries and the zoom intervals. */
  function HeaderFieldsAt(d: seq<Byte>, p: nat): Result<Decoded<MapHeader>> {
    var fixed :- FixedPartAt(d, p);
    var f := fixed.value;
    var opt :- OptionalFieldsAt(d, fixed.next, PresenceOf(f.flags));
    var poiTags :- TagDictionaryAt(d, opt.next);
    var wayTags :- TagDictionaryAt(d, poiTags.next);
    var numZoomIntervals :- U8At(d, wayTags.next);
    var intervals :- Many(ZoomIntervalAt, d, numZoomIntervals.next, numZoomIntervals.value);
    var o := opt.value;
    Ok(Decoded(MapHeader(
      f.magic, f.headerSize, f.fileVersion, f.fileSize, f.creationDate, f.boundingBox,
      f.tileSize, f.projection, f.flags,
      o.mapStartPosition, o.startZoomLevel, o.languagePreference, o.comment, o.createdBy,
      poiTags.value, wayTags.value, numZoomIntervals.value, intervals.value), intervals.next))
  }

  /** `MapHeader::read_from_file`: the fields, then `is_valid`, whose failure is reported
      with the header size read. */
  function HeaderAt(d: seq<Byte>, p: nat): Result<Decoded<MapHeader>> {
    var h :- HeaderFieldsAt(d, p);
    if !HeaderIsValid(h.value) then Err(InvalidHeaderSize(h.value.headerSize)) else Ok(h)
  }

  method ReadMagic(rd: Reader) returns (r: Result<seq<Byte>>)
    modifies rd
    ensures Tie(r, rd.pos) == MagicAt(rd.data, old(rd.pos))
  {
    var magic :- rd.ReadExact(20);
    if magic != MAGIC_BYTES {
      return Err(InvalidMagic);
    }
    r := Ok(magic);
  }

  /** `MapHeader::read_vbe_u`, a copy of `read_vbe_u` in src/utils.rs. */
  method ReadHeaderVbeU(rd: Reader) returns (r: Result<seq<Byte>>)
    modifies rd
    ensures Tie(r, rd.pos) == VbeStringAt(rd.data, old(rd.pos))
  {
    r := ReadVbeU(rd);
  }

  method ReadFromFile(rd: Reader) returns (r: Result<MapHeader>)
    modifies rd
    ensures Tie(r, rd.pos) == HeaderAt(rd.data, old(rd.pos))
  {
    var magic :- ReadMagic(rd);
    var headerSize :- rd.ReadBeUint(4);
    var fileVersion :- rd.ReadBeUint(4);
    if fileVersion < MIN_SUPPORTED_VERSION {
      return Err(UnsupportedVersion(fileVersion));
    }
    var fileSize :- rd.ReadBeUint(8);
    var creationDate :- rd.ReadBeUint(8);
    var boundingBox :- ReadBoundingBox(rd);
    var tileSize :- rd.ReadBeUint(2);
    var projection :- ReadHeaderVbeU(rd);
    var flags :- rd.ReadU8();
    var opt :- ReadOptionalFields(rd, flags);
    var poiTags :- ReadTagDictionary(rd);
    var wayTags :- ReadTagDictionary(rd);
    var numZoomIntervals :- rd.ReadU8();
    var zoomIntervalConfiguration :- ReadZoomIntervals(rd, numZoomIntervals);
    var header := MapHeader(
      magic, headerSize, fileVersion, fileSize, creationDate, boundingBox, tileSize, projection,
      flags, opt.mapStartPosition, opt.startZoomLevel, opt.languagePreference, opt.comment,
      opt.createdBy, poiTags, wayTags, numZoomIntervals, zoomIntervalConfiguration);
    if !HeaderIsValid(header) {
      return Err(InvalidHeaderSize(headerSize));
    }
    r := Ok(header);
  }
}

// The header's properties: each stage of the header reads back what it encodes, the
// error checks happen in the order the fields are read, and a zero header size is the
// one rejection left once every field has been read.
module HeaderProperties {
  import opened Errors
  import opened ByteStream
  import opened Types
  import opened Utils
  import opened UtilsProperties
  import opened Header

  predicate InI32(x: int) { -0x8000_0000 <= x < 0x8000_0000 }

  function EncodeBoundingBox(b: BoundingBox): seq<Byte> {
    I32Bytes(b.minLat) + I32Bytes(b.minLon) + I32Bytes(b.maxLat) + I32Bytes(b.maxLon)
  }

  function EncodeStartPosition(pos: (int, int)): seq<Byte> {
    I32Bytes(pos.0) + I32Bytes(pos.1)
  }

  function EncodeOptionalStartPosition(x: Option<(int, int)>): seq<Byte> {
    if x.Some? then EncodeStartPosition(x.value) else []
  }

  function EncodeOptionalZoomLevel(x: Option<Byte>): seq<Byte> {
    if x.Some? then [x.value] else []
  }

  function EncodeOptionalText(x: Option<seq<Byte>>): seq<Byte> {
    if x.Some? then EncodeVbeString(x.value) else []
  }

  function EncodeStrings(ss: seq<seq<Byte>>): seq<Byte> {
    if ss == [] then [] else EncodeVbeString(ss[0]) + EncodeStrings(ss[1..])
  }

  function EncodeTagDictionary(ss: seq<seq<Byte>>): seq<Byte> {
    BeBytes(|ss|, 2) + EncodeStrings(ss)
  }

  function EncodeZoomInterval(z: ZoomInterval): seq<Byte> {
    [z.baseZoomLevel, z.minZoomLevel, z.maxZoomLevel] + BeBytes(z.subFileStart, 8) + BeBytes(z.subFileSize, 8)
  }

  function EncodeZoomIntervals(zs: seq<ZoomInterval>): seq<Byte> {
    if zs == [] then [] else EncodeZoomInterval(zs[0]) + EncodeZoomIntervals(zs[1..])
  }

  predicate TextsValid(ss: seq<seq<Byte>>) {
    forall i :: 0 <= i < |ss| ==> ValidUtf8(ss[i])
  }

  /** The sub-file start and size fit the 64-bit fields they are written to. */
  predicate IntervalFits(z: ZoomInterval) {
    z.subFileStart < Pow256(8) && z.subFileSize < Pow256(8)
  }

  predicate IntervalsFit(zs: seq<ZoomInterval>) {
    forall i :: 0 <= i < |zs| ==> IntervalFits(zs[i])
  }

  predicate OptionalTextValid(s: Option<seq<Byte>>) {
    s.Some? ==> ValidUtf8(s.value)
  }

  // ---------------------------------------------------------------------------
  // Stage by stage

  /** Four i32 values read back as the box they encode; the box is accepted exactly when
      it is valid. */
  lemma BoundingBoxDecision(d: seq<Byte>, p: nat, b: BoundingBox)
    requires InI32(b.minLat) && InI32(b.minLon) && InI32(b.maxLat) && InI32(b.maxLon)
    requires Holds(d, p, EncodeBoundingBox(b))
    ensures BoundingBoxAt(d, p)
         == if BoundingBoxIsValid(b) then Ok(Decoded(b, p + 16)) else Err(InvalidBoundingBox)
  {
    var e1, e2, e3, e4 := I32Bytes(b.minLat), I32Bytes(b.minLon), I32Bytes(b.maxLat), I32Bytes(b.maxLon);
    HoldsSplit(d, p, e1 + e2 + e3, e4);
    HoldsSplit(d, p, e1 + e2, e3);
    HoldsSplit(d, p, e1, e2);
    I32AtPlaced(d, p, b.minLat);
    I32AtPlaced(d, p + 4, b.minLon);
    I32AtPlaced(d, p + 8, b.maxLat);
    I32AtPlaced(d, p + 12, b.maxLon);
  }

  /** The bounding-box unit tests: the bytes of (10, 20, 40, 50) microdegrees give that box,
      the bytes of (90, 20, 40, 50) are rejected because the minimum latitude is above the
      maximum, and a latitude past 90 degrees is rejected too. */
  lemma BoundingBoxExamples()
    ensures BoundingBoxAt([0, 0, 0, 0x0A, 0, 0, 0, 0x14, 0, 0, 0, 0x28, 0, 0, 0, 0x32], 0)
            == Ok(Decoded(BoundingBox(10, 20, 40, 50), 16))
    ensures BoundingBoxAt([0, 0, 0, 0x5A, 0, 0, 0, 0x14, 0, 0, 0, 0x28, 0, 0, 0, 0x32], 0)
            == Err(InvalidBoundingBox)
    ensures !BoundingBoxIsValid(BoundingBox(10, 20, 91_000_000, 50))
  {
    SmallBox(0x0A, 0x14, 0x28, 0x32);
    SmallBox(0x5A, 0x14, 0x28, 0x32);
  }

  /** Four i32 fields of the form three zero bytes and then one byte read as that box,
      accepted exactly when it is valid. */
  lemma SmallBox(a: Byte, b: Byte, c: Byte, e: Byte)
    ensures BoundingBoxAt([0, 0, 0, a, 0, 0, 0, b, 0, 0, 0, c, 0, 0, 0, e], 0)
            == if BoundingBoxIsValid(BoundingBox(a, b, c, e)) then Ok(Decoded(BoundingBox(a, b, c, e), 16))
               else Err(InvalidBoundingBox)
  {
    var d: seq<Byte> := [0, 0, 0, a, 0, 0, 0, b, 0, 0, 0, c, 0, 0, 0, e];
    SmallI32(d, 0, a); SmallI32(d, 4, b); SmallI32(d, 8, c); SmallI32(d, 12, e);
  }

  /** Three zero bytes and then `x` read as the i32 `x`. */
  lemma SmallI32(d: seq<Byte>, p: nat, x: Byte)
    requires p + 4 <= |d| && d[p] == 0 && d[p + 1] == 0 && d[p + 2] == 0 && d[p + 3] == x
    ensures I32At(d, p) == Ok(Decoded(x, p + 4))
  {
    var s: seq<Byte> := [0, 0, 0, x];
    assert d[p..p + 4] == s;
    assert s[..3] == [0, 0, 0] && [0, 0, 0][..2] == [0, 0] && [0, 0][..1] == [0] && [0][..0] == [];
    assert BeValue(s) == x;
  }

  lemma StartPositionPlaced(d: seq<Byte>, p: nat, pos: (int, int))
    requires InI32(pos.0) && InI32(pos.1) && Holds(d, p, EncodeStartPosition(pos))
    ensures StartPositionAt(d, p) == Ok(Decoded(pos, p + 8))
  {
    HoldsSplit(d, p, I32Bytes(pos.0), I32Bytes(pos.1));
    I32AtPlaced(d, p, pos.0);
    I32AtPlaced(d, p + 4, pos.1);
  }

  lemma OptionalStartPositionPlaced(d: seq<Byte>, p: nat, x: Option<(int, int)>, present: bool)
    requires (x.Some? <==> present) && (x.Some? ==> InI32(x.value.0) && InI32(x.value.1))
    requires Holds(d, p, EncodeOptionalStartPosition(x))
    ensures OptionalStartPositionAt(present, d, p) == Ok(Decoded(x, p + |EncodeOptionalStartPosition(x)|))
  {
    if x.Some? {
      StartPositionPlaced(d, p, x.value);
    }
  }

  lemma OptionalZoomLevelPlaced(d: seq<Byte>, p: nat, x: Option<Byte>, present: bool)
    requires (x.Some? <==> present) && Holds(d, p, EncodeOptionalZoomLevel(x))
    ensures OptionalZoomLevelAt(present, d, p) == Ok(Decoded(x, p + |EncodeOptionalZoomLevel(x)|))
  {
    if x.Some? {
      assert d[p] == EncodeOptionalZoomLevel(x)[0];
    }
  }

  lemma OptionalTextPlaced(d: seq<Byte>, p: nat, x: Option<seq<Byte>>, present: bool)
    requires (x.Some? <==> present) && OptionalTextValid(x) && Holds(d, p, EncodeOptionalText(x))
    ensures OptionalTextAt(present, d, p) == Ok(Decoded(x, p + |EncodeOptionalText(x)|))
  {
    if x.Some? {
      VbeStringRoundTrip(d, p, x.value);
    }
  }

  /** The first string of a list, and the rest of the list after it. */
  lemma StringsSplit(d: seq<Byte>, p: nat, ss: seq<seq<Byte>>)
    requires ss != [] && Holds(d, p, EncodeStrings(ss))
    ensures Holds(d, p, EncodeVbeString(ss[0]))
    ensures Holds(d, p + |EncodeVbeString(ss[0])|, EncodeStrings(ss[1..]))
    ensures |EncodeStrings(ss)| == |EncodeVbeString(ss[0])| + |EncodeStrings(ss[1..])|
  {
    HoldsSplit(d, p, EncodeVbeString(ss[0]), EncodeStrings(ss[1..]));
  }

  lemma TextsValidTail(ss: seq<seq<Byte>>)
    requires ss != [] && TextsValid(ss)
    ensures ValidUtf8(ss[0]) && TextsValid(ss[1..])
  {
    forall i | 0 <= i < |ss| - 1 ensures ss[1..][i] == ss[i + 1] { }
  }

  /** `item` reads a string exactly as `VbeStringAt` does; instantiated only where a
      `VbeStringAt` term is present. */
  ghost predicate ReadsString(item: Parser<seq<Byte>>) {
    forall d: seq<Byte>, p: nat {:trigger VbeStringAt(d, p)} :: item(d, p) == VbeStringAt(d, p)
  }

  lemma {:induction false} StringsPlaced(item: Parser<seq<Byte>>, d: seq<Byte>, p: nat, ss: seq<seq<Byte>>)
    requires ReadsString(item) && TextsValid(ss) && Holds(d, p, EncodeStrings(ss))
    ensures Many(item, d, p, |ss|) == Ok(Decoded(ss, p + |EncodeStrings(ss)|))
    decreases |ss|
  {
    if ss != [] {
      var q := p + |EncodeVbeString(ss[0])|;
      TextsValidTail(ss);
      StringsSplit(d, p, ss);
      StringsPlaced(item, d, q, ss[1..]);
      StringsCons(item, d, p, ss, q, p + |EncodeStrings(ss)|);
    }
  }

  /** The first string reads back, and the rest follows it. */
  lemma StringsCons(item: Parser<seq<Byte>>, d: seq<Byte>, p: nat, ss: seq<seq<Byte>>, q: nat, r: nat)
    requires ReadsString(item)
    requires ss != [] && ValidUtf8(ss[0]) && Holds(d, p, EncodeVbeString(ss[0]))
    requires q == p + |EncodeVbeString(ss[0])|
    requires Many(item, d, q, |ss| - 1) == Ok(Decoded(ss[1..], r))
    ensures Many(item, d, p, |ss|) == Ok(Decoded(ss, r))
  {
    VbeStringRoundTrip(d, p, ss[0]);
    ManyCons(item, d, p, ss, q, r);
  }

  /** A tag dictionary reads back as its entries, in order. */
  lemma TagDictionaryPlaced(d: seq<Byte>, p: nat, ss: seq<seq<Byte>>)
    requires |ss| < Pow256(2) && TextsValid(ss) && Holds(d, p, EncodeTagDictionary(ss))
    ensures TagDictionaryAt(d, p) == Ok(Decoded(ss, p + |EncodeTagDictionary(ss)|))
  {
    HoldsSplit(d, p, BeBytes(|ss|, 2), EncodeStrings(ss));
    BeUintAtPlaced(d, p, |ss|, 2);
    StringsPlaced(VbeStringAt, d, p + 2, ss);
  }

  /** A zoom-interval record is 19 bytes and reads back as itself. */
  lemma ZoomIntervalPlaced(d: seq<Byte>, p: nat, z: ZoomInterval)
    requires IntervalFits(z) && Holds(d, p, EncodeZoomInterval(z))
    ensures ZoomIntervalAt(d, p) == Ok(Decoded(z, p + 19))
  {
    var rec := EncodeZoomInterval(z);
    HoldsSlice(d, p, rec);
    assert rec[3..11] == BeBytes(z.subFileStart, 8);
    assert rec[11..19] == BeBytes(z.subFileSize, 8);
    BeRoundTrip(z.subFileStart, 8);
    BeRoundTrip(z.subFileSize, 8);
  }

  /** The first interval of a list reads back, and the rest of the list follows it. */
  lemma ZoomIntervalsHead(d: seq<Byte>, p: nat, zs: seq<ZoomInterval>)
    requires zs != [] && IntervalsFit(zs) && Holds(d, p, EncodeZoomIntervals(zs))
    ensures ZoomIntervalAt(d, p) == Ok(Decoded(zs[0], p + 19))
    ensures IntervalsFit(zs[1..]) && Holds(d, p + 19, EncodeZoomIntervals(zs[1..]))
    ensures |EncodeZoomIntervals(zs)| == 19 + |EncodeZoomIntervals(zs[1..])|
  {
    HoldsSplit(d, p, EncodeZoomInterval(zs[0]), EncodeZoomIntervals(zs[1..]));
    ZoomIntervalPlaced(d, p, zs[0]);
    assert IntervalsFit(zs[1..]) by {
      forall i | 0 <= i < |zs| - 1 ensures zs[1..][i] == zs[i + 1] { }
    }
  }

  lemma {:induction false} ZoomIntervalsPlaced(d: seq<Byte>, p: nat, zs: seq<ZoomInterval>)
    requires IntervalsFit(zs) && Holds(d, p, EncodeZoomIntervals(zs))
    ensures Many(ZoomIntervalAt, d, p, |zs|) == Ok(Decoded(zs, p + |EncodeZoomIntervals(zs)|))
    decreases |zs|
  {
    if zs != [] {
      ZoomIntervalsHead(d, p, zs);
      ZoomIntervalsPlaced(d, p + 19, zs[1..]);
      ManyCons(ZoomIntervalAt, d, p, zs, p + 19, p + |EncodeZoomIntervals(zs)|);
    }
  }

  // ---------------------------------------------------------------------------
  // The whole header

  /** The magic is accepted exactly when the 20 bytes spell the signature; a stream too
      short for them is an I/O error and any other 20 bytes are `InvalidMagic`. */
  lemma MagicChecked(d: seq<Byte>, p: nat)
    ensures MagicAt(d, p).Ok? <==> p + 20 <= |d| && d[p..p + 20] == MAGIC_BYTES
    ensures p + 20 > |d| ==> MagicAt(d, p) == Err(Io)
    ensures p + 20 <= |d| && d[p..p + 20] != MAGIC_BYTES ==> MagicAt(d, p) == Err(InvalidMagic)
    ensures MagicAt(d, p).Ok? ==> MagicAt(d, p).value == Decoded(MAGIC_BYTES, p + 20)
  {
  }

  /** A version below 3 is rejected as soon as it is read: nothing after it needs to be
      in the stream. */
  lemma VersionCheckedFirst(d: seq<Byte>, p: nat)
    requires MagicAt(d, p).Ok? && p + 28 <= |d| && BeValue(d[p + 24..p + 28]) < MIN_SUPPORTED_VERSION
    ensures HeaderAt(d, p) == Err(UnsupportedVersion(BeValue(d[p + 24..p + 28])))
  {
    assert FixedPartAt(d, p) == Err(UnsupportedVersion(BeValue(d[p + 24..p + 28])));
  }

  /** The fixed part of the header sits at fixed offsets from its start: header size at
      20, version at 24, file size at 28, creation date at 36, the bounding box at 44, the
      tile size at 60 and the projection string at 62, whose end is the flags byte. */
  lemma FixedLayout(d: seq<Byte>, p: nat)
    requires FixedPartAt(d, p).Ok?
    ensures var f := FixedPartAt(d, p).value.value;
      && f.magic == d[p..p + 20] == MAGIC_BYTES
      && f.headerSize == BeValue(d[p + 20..p + 24])
      && f.fileVersion == BeValue(d[p + 24..p + 28]) >= MIN_SUPPORTED_VERSION
      && f.fileSize == BeValue(d[p + 28..p + 36])
      && f.creationDate == BeValue(d[p + 36..p + 44])
      && BoundingBoxAt(d, p + 44) == Ok(Decoded(f.boundingBox, p + 60))
      && f.tileSize == BeValue(d[p + 60..p + 62])
      && VbeStringAt(d, p + 62).Ok? && VbeStringAt(d, p + 62).value.value == f.projection
      && f.flags == d[VbeStringAt(d, p + 62).value.next]
  {
  }

  /** The header carries the fixed part unchanged. */
  lemma HeaderStartsWithFixedPart(d: seq<Byte>, p: nat)
    requires HeaderFieldsAt(d, p).Ok?
    ensures FixedPartAt(d, p).Ok?
    ensures var h, f := HeaderFieldsAt(d, p).value.value, FixedPartAt(d, p).value.value;
      && h.magic == f.magic && h.headerSize == f.headerSize && h.fileVersion == f.fileVersion
      && h.fileSize == f.fileSize && h.creationDate == f.creationDate
      && h.boundingBox == f.boundingBox && h.tileSize == f.tileSize
      && h.projection == f.projection && h.flags == f.flags
  {
  }

  /** Once every field is read, validation rejects only a zero header size, and it
      reports that size. */
  lemma OnlyHeaderSizeLeft(d: seq<Byte>, p: nat)
    requires HeaderFieldsAt(d, p).Ok?
    ensures var h := HeaderFieldsAt(d, p).value.value;
      && (HeaderAt(d, p).Ok? <==> h.headerSize > 0)
      && (h.headerSize == 0 ==> HeaderAt(d, p) == Err(InvalidHeaderSize(0)))
      && (h.headerSize > 0 ==> HeaderAt(d, p) == HeaderFieldsAt(d, p))
  {
    HeaderStartsWithFixedPart(d, p);
    FixedLayout(d, p);
  }

  /** With no field announced nothing is read, whatever the stream holds. */
  lemma NoOptionalFields(d: seq<Byte>, p: nat)
    ensures OptionalFieldsAt(d, p, Presence(false, false, false, false, false))
         == Ok(Decoded(OptionalFields(None, None, None, None, None), p))
  {
  }

  /** Bit 0x80 (debug information) announces nothing; bits 0x40 down to 0x04 announce the
      start position, start zoom level, language preference, comment and creator. */
  lemma PresenceExamples()
    ensures PresenceOf(0x80) == Presence(false, false, false, false, false)
    ensures PresenceOf(0x7C) == Presence(true, true, true, true, true)
    ensures PresenceOf(0x48) == Presence(true, false, false, true, false)
    ensures PresenceOf(0x03) == Presence(false, false, false, false, false)
  {
  }

  /** A dictionary has as many entries as its count says. */
  lemma TagDictionaryLength(d: seq<Byte>, p: nat)
    requires TagDictionaryAt(d, p).Ok?
    ensures p + 2 <= |d| && |TagDictionaryAt(d, p).value.value| == BeValue(d[p..p + 2])
  {
  }

  /** An accepted header is valid, holds as many zoom intervals as it announces, and
      holds exactly the optional fields its flags announce. */
  lemma AcceptedHeader(d: seq<Byte>, p: nat)
    requires HeaderAt(d, p).Ok?
    ensures var h := HeaderAt(d, p).value.value;
      && HeaderIsValid(h)
      && |h.zoomIntervalConfiguration| == h.numZoomIntervals
      && (h.mapStartPosition.Some? <==> IsSet(h.flags, MAP_START_POSITION_MASK))
      && (h.startZoomLevel.Some? <==> IsSet(h.flags, START_ZOOM_LEVEL_MASK))
      && (h.languagePreference.Some? <==> IsSet(h.flags, LANGUAGE_PREFERENCE_MASK))
      && (h.comment.Some? <==> IsSet(h.flags, COMMENT_MASK))
      && (h.createdBy.Some? <==> IsSet(h.flags, CREATED_BY_MASK))
  {
    var fields := HeaderFieldsAt(d, p);
    assert fields.Ok?;
    HeaderShape(d, p);
  }

  /** The counts and flags of a decoded header agree with what was read under them. */
  lemma HeaderShape(d: seq<Byte>, p: nat)
    requires HeaderFieldsAt(d, p).Ok?
    ensures var h := HeaderFieldsAt(d, p).value.value;
      && |h.zoomIntervalConfiguration| == h.numZoomIntervals
      && (h.mapStartPosition.Some? <==> IsSet(h.flags, MAP_START_POSITION_MASK))
      && (h.startZoomLevel.Some? <==> IsSet(h.flags, START_ZOOM_LEVEL_MASK))
      && (h.languagePreference.Some? <==> IsSet(h.flags, LANGUAGE_PREFERENCE_MASK))
      && (h.comment.Some? <==> IsSet(h.flags, COMMENT_MASK))
      && (h.createdBy.Some? <==> IsSet(h.flags, CREATED_BY_MASK))
  {
  }
}
