// The ways of a tile (`process_ways` in src/way.rs): for each way an optional debug
// signature, the size of its data, the sub-tile bitmap, a special byte holding the layer
// and the tag count, the tag references, a flags byte, up to three text tags, an optional
// label position, and the way data blocks, whose coordinate blocks are decoded with the
// single-delta or the double-delta decoder and then dropped.
module Ways {
  import opened Errors
  import opened ByteStream
  import opened Types
  import opened Utils
  import opened Tags
  import opened Pois

  const WAY_FEATURE_NAME: Byte := 0x80
  const WAY_FEATURE_HOUSE_NUMBER: Byte := 0x40
  const WAY_FEATURE_REF: Byte := 0x20
  const WAY_FEATURE_LABEL_POSITION: Byte := 0x10
  const WAY_FEATURE_DATA_BLOCKS_BYTE: Byte := 0x08
  const WAY_FEATURE_DOUBLE_DELTA_ENCODING: Byte := 0x04

  /** 0.001 degrees: how far past the date line a decoded longitude may land and still be
      pulled back onto it. */
  const CLAMP_MARGIN: int := 1000

  // ---------------------------------------------------------------------------
  // Single-delta coordinate blocks (`decode_way_nodes_single_delta`)

  /** The initial position, which is also the first node, then `numWayNodes - 1` further
      pairs (none when the count is 0 or 1), each taken as it stands. */
  function SingleDeltaAt(d: seq<Byte>, p: nat, numWayNodes: nat): Result<Decoded<WayCoordinateBlock>> {
    var initial :- LatLongAt(d, p);
    var rest :- Many(LatLongAt, d, initial.next, FromOne(numWayNodes));
    Ok(Decoded(WayCoordinateBlock(initial.value, [initial.value] + rest.value), rest.next))
  }

  method DecodeSingleDelta(rd: Reader, numWayNodes: nat) returns (r: Result<WayCoordinateBlock>)
    modifies rd
    ensures Tie(r, rd.pos) == SingleDeltaAt(rd.data, old(rd.pos), numWayNodes)
  {
    var initial :- ReadLatLong(rd);
    ghost var start := rd.pos;
    ghost var left := FromOne(numWayNodes);
    ghost var rest: seq<LatLong> := [];
    var coordinates := [initial];
    PrependEnds(LatLongAt, rd.data, start, left, rest);
    var k := 1;
    while k < numWayNodes
      invariant 1 <= k && (k - 1) + left == FromOne(numWayNodes)
      invariant coordinates == [initial] + rest
      invariant Prepend(rest, Many(LatLongAt, rd.data, rd.pos, left)) == Many(LatLongAt, rd.data, start, FromOne(numWayNodes))
    {
      ghost var here := rd.pos;
      var node := ReadLatLong(rd);
      ManyRead(LatLongAt, rd.data, here, left, rest, node, rd.pos);
      if node.Err? {
        return Err(node.error);
      }
      coordinates := coordinates + [node.value];
      rest := rest + [node.value];
      k := k + 1;
      left := left - 1;
    }
    PrependEnds(LatLongAt, rd.data, rd.pos, 0, rest);
    r := Ok(WayCoordinateBlock(initial, coordinates));
  }

  // ---------------------------------------------------------------------------
  // Double-delta coordinate blocks (`decode_way_nodes_double_delta`)

  /** A longitude that overshoots -180 or +180 degrees by less than 0.001 degrees is put
      back on the date line; any other value is kept. */
  function ClampLongitude(lon: int): (r: int)
    ensures LONGITUDE_MIN - CLAMP_MARGIN < lon < LONGITUDE_MIN ==> r == LONGITUDE_MIN
    ensures LONGITUDE_MAX < lon < LONGITUDE_MAX + CLAMP_MARGIN ==> r == LONGITUDE_MAX
    ensures (lon <= LONGITUDE_MIN - CLAMP_MARGIN || LONGITUDE_MIN <= lon <= LONGITUDE_MAX
             || LONGITUDE_MAX + CLAMP_MARGIN <= lon) ==> r == lon
  {
    if lon < LONGITUDE_MIN && LONGITUDE_MIN - lon < CLAMP_MARGIN then LONGITUDE_MIN
    else if lon > LONGITUDE_MAX && lon - LONGITUDE_MAX < CLAMP_MARGIN then LONGITUDE_MAX
    else lon
  }

  /** One node from the previous one. The single delta is the pair read plus the previous
      single delta, which the source declares as 0 and never updates, so the pair read is
      added as it stands; only the longitude is clamped. */
  function Advance(node: LatLong, delta: LatLong): LatLong {
    LatLong(node.latitude + delta.latitude, ClampLongitude(node.longitude + delta.longitude))
  }

  /** The node reached from `initial` after the pairs `deltas`. */
  function PositionAfter(initial: LatLong, deltas: seq<LatLong>): LatLong
    decreases |deltas|
  {
    if deltas == [] then initial
    else Advance(PositionAfter(initial, deltas[..|deltas| - 1]), deltas[|deltas| - 1])
  }

  /** The nodes pushed for the pairs `deltas`: one per pair, the initial position not
      among them. */
  function NodesAfter(initial: LatLong, deltas: seq<LatLong>): (r: seq<LatLong>)
    ensures |r| == |deltas|
    decreases |deltas|
  {
    if deltas == [] then []
    else NodesAfter(initial, deltas[..|deltas| - 1]) + [PositionAfter(initial, deltas)]
  }

  /** The initial position, then `numWayNodes - 1` pairs (none when the count is 0 or 1),
      each moving the running position. */
  function DoubleDeltaAt(d: seq<Byte>, p: nat, numWayNodes: nat): Result<Decoded<WayCoordinateBlock>> {
    var initial :- LatLongAt(d, p);
    var deltas :- Many(LatLongAt, d, initial.next, FromOne(numWayNodes));
    Ok(Decoded(WayCoordinateBlock(initial.value, NodesAfter(initial.value, deltas.value)), deltas.next))
  }

  /** One more pair moves the position by one step and adds that node. */
  lemma AdvanceOne(initial: LatLong, deltas: seq<LatLong>, delta: LatLong)
    ensures PositionAfter(initial, deltas + [delta]) == Advance(PositionAfter(initial, deltas), delta)
    ensures NodesAfter(initial, deltas + [delta])
         == NodesAfter(initial, deltas) + [Advance(PositionAfter(initial, deltas), delta)]
  {
    assert (deltas + [delta])[..|deltas|] == deltas;
  }

  method DecodeDoubleDelta(rd: Reader, numWayNodes: nat) returns (r: Result<WayCoordinateBlock>)
    modifies rd
    ensures Tie(r, rd.pos) == DoubleDeltaAt(rd.data, old(rd.pos), numWayNodes)
  {
    var initial :- ReadLatLong(rd);
    var latitude := initial.latitude;
    var longitude := initial.longitude;
    var previousSingleDeltaLatitude := 0;
    var previousSingleDeltaLongitude := 0;
    ghost var start := rd.pos;
    ghost var left := FromOne(numWayNodes);
    ghost var deltas: seq<LatLong> := [];
    var coordinates: seq<LatLong> := [];
    PrependEnds(LatLongAt, rd.data, start, left, deltas);
    var k := 1;
    while k < numWayNodes
      invariant 1 <= k && (k - 1) + left == FromOne(numWayNodes)
      invariant previousSingleDeltaLatitude == 0 && previousSingleDeltaLongitude == 0
      invariant LatLong(latitude, longitude) == PositionAfter(initial, deltas)
      invariant coordinates == NodesAfter(initial, deltas)
      invariant Prepend(deltas, Many(LatLongAt, rd.data, rd.pos, left)) == Many(LatLongAt, rd.data, start, FromOne(numWayNodes))
    {
      ghost var here, before := rd.pos, LatLong(latitude, longitude);
      var delta := ReadLatLong(rd);
      ManyRead(LatLongAt, rd.data, here, left, deltas, delta, rd.pos);
      if delta.Err? {
        return Err(delta.error);
      }
      var singleDeltaLatitude := delta.value.latitude + previousSingleDeltaLatitude;
      var singleDeltaLongitude := delta.value.longitude + previousSingleDeltaLongitude;
      latitude := latitude + singleDeltaLatitude;
      longitude := longitude + singleDeltaLongitude;
      if longitude < LONGITUDE_MIN && LONGITUDE_MIN - longitude < CLAMP_MARGIN {
        longitude := LONGITUDE_MIN;
      } else if longitude > LONGITUDE_MAX && longitude - LONGITUDE_MAX < CLAMP_MARGIN {
        longitude := LONGITUDE_MAX;
      }
      assert LatLong(latitude, longitude) == Advance(before, delta.value);
      AdvanceOne(initial, deltas, delta.value);
      coordinates := coordinates + [LatLong(latitude, longitude)];
      deltas := deltas + [delta.value];
      k := k + 1;
      left := left - 1;
    }
    PrependEnds(LatLongAt, rd.data, rd.pos, 0, deltas);
    r := Ok(WayCoordinateBlock(initial, coordinates));
  }

  // ---------------------------------------------------------------------------
  // Way data blocks

  /** One coordinate block of `numWayNodes` nodes, in the encoding the flags chose. */
  function CoordinateBlockAt(doubleDelta: bool, numWayNodes: nat, d: seq<Byte>, p: nat): Result<Decoded<WayCoordinateBlock>> {
    if doubleDelta then DoubleDeltaAt(d, p, numWayNodes) else SingleDeltaAt(d, p, numWayNodes)
  }

  function CoordinateBlockParser(doubleDelta: bool, numWayNodes: nat): Parser<WayCoordinateBlock> {
    (d: seq<Byte>, p: nat) => CoordinateBlockAt(doubleDelta, numWayNodes, d, p)
  }

  /** One way data block: a VBE count of coordinate blocks; when it is not 0, one VBE node
      count shared by all of them, then the blocks. */
  function DataBlockAt(doubleDelta: bool, d: seq<Byte>, p: nat): Result<Decoded<seq<WayCoordinateBlock>>> {
    var count :- VbeUIntAt(d, p);
    if count.value == 0 then Ok(Decoded([], count.next))
    else
      var nodes :- VbeUIntAt(d, count.next);
      Many(CoordinateBlockParser(doubleDelta, nodes.value), d, nodes.next, count.value)
  }

  function DataBlockParser(doubleDelta: bool): Parser<seq<WayCoordinateBlock>> {
    (d: seq<Byte>, p: nat) => DataBlockAt(doubleDelta, d, p)
  }

  method DecodeCoordinateBlock(rd: Reader, doubleDelta: bool, numWayNodes: nat) returns (r: Result<WayCoordinateBlock>)
    modifies rd
    ensures Tie(r, rd.pos) == CoordinateBlockAt(doubleDelta, numWayNodes, rd.data, old(rd.pos))
  {
    if doubleDelta {
      r := DecodeDoubleDelta(rd, numWayNodes);
    } else {
      r := DecodeSingleDelta(rd, numWayNodes);
    }
  }

  /** `item` reads a coordinate block exactly as `CoordinateBlockAt` does. */
  ghost predicate ReadsCoordinateBlock(item: Parser<WayCoordinateBlock>, doubleDelta: bool, numWayNodes: nat) {
    forall d: seq<Byte>, p: nat {:trigger CoordinateBlockAt(doubleDelta, numWayNodes, d, p)} ::
      item(d, p) == CoordinateBlockAt(doubleDelta, numWayNodes, d, p)
  }

  /** The inner loop over `num_way_coordinates` coordinate blocks. */
  method ReadCoordinateBlocks(rd: Reader, doubleDelta: bool, numWayNodes: nat, count: nat,
                              ghost item: Parser<WayCoordinateBlock>)
    returns (r: Result<seq<WayCoordinateBlock>>)
    requires ReadsCoordinateBlock(item, doubleDelta, numWayNodes)
    modifies rd
    ensures Tie(r, rd.pos) == Many(item, rd.data, old(rd.pos), count)
  {
    ghost var start := rd.pos;
    ghost var left := count;
    var blocks: seq<WayCoordinateBlock> := [];
    PrependEnds(item, rd.data, start, left, blocks);
    var j := 0;
    while j < count
      invariant j + left == count
      invariant Prepend(blocks, Many(item, rd.data, rd.pos, left)) == Many(item, rd.data, start, count)
    {
      ghost var here := rd.pos;
      var block := DecodeCoordinateBlock(rd, doubleDelta, numWayNodes);
      ManyRead(item, rd.data, here, left, blocks, block, rd.pos);
      if block.Err? {
        return Err(block.error);
      }
      blocks := blocks + [block.value];
      j := j + 1;
      left := left - 1;
    }
    PrependEnds(item, rd.data, rd.pos, 0, blocks);
    r := Ok(blocks);
  }

  /** The body of `for i in 0..number_of_way_data_blocks`; the blocks it decodes are
      returned here, and dropped by the caller as the source drops them. */
  method ReadDataBlock(rd: Reader, doubleDelta: bool) returns (r: Result<seq<WayCoordinateBlock>>)
    modifies rd
    ensures Tie(r, rd.pos) == DataBlockAt(doubleDelta, rd.data, old(rd.pos))
  {
    var numWayCoordinates :- ReadVbeUInt(rd);
    if numWayCoordinates == 0 {
      return Ok([]);
    }
    var numWayNodes :- ReadVbeUInt(rd);
    r := ReadCoordinateBlocks(rd, doubleDelta, numWayNodes, numWayCoordinates,
                              CoordinateBlockParser(doubleDelta, numWayNodes));
  }

  method ReadDataBlocks(rd: Reader, numberOfWayDataBlocks: nat, doubleDelta: bool)
    returns (r: Result<seq<seq<WayCoordinateBlock>>>)
    modifies rd
    ensures Tie(r, rd.pos) == Many(DataBlockParser(doubleDelta), rd.data, old(rd.pos), numberOfWayDataBlocks)
  {
    ghost var item := DataBlockParser(doubleDelta);
    ghost var start := rd.pos;
    ghost var left := numberOfWayDataBlocks;
    var blocks: seq<seq<WayCoordinateBlock>> := [];
    PrependEnds(item, rd.data, start, left, blocks);
    var i := 0;
    while i < numberOfWayDataBlocks
      invariant i + left == numberOfWayDataBlocks
      invariant Prepend(blocks, Many(item, rd.data, rd.pos, left)) == Many(item, rd.data, start, numberOfWayDataBlocks)
    {
      ghost var here := rd.pos;
      var block := ReadDataBlock(rd, doubleDelta);
      ManyRead(item, rd.data, here, left, blocks, block, rd.pos);
      if block.Err? {
        return Err(block.error);
      }
      blocks := blocks + [block.value];
      i := i + 1;
      left := left - 1;
    }
    PrependEnds(item, rd.data, rd.pos, 0, blocks);
    r := Ok(blocks);
  }

  // ---------------------------------------------------------------------------
  // The fields behind the flags byte

  /** A text tag present when `mask` is set in `flags`: a VBE string, made into a tag with
      `key` by `Tag::new` (which panics on text that is not ASCII). */
  function TextTagAt(flags: Byte, mask: Byte, key: seq<Byte>, d: seq<Byte>, p: nat): Result<Decoded<seq<Tag>>> {
    if IsSet(flags, mask) then
      var text :- VbeStringAt(d, p);
      var tag :- NewTag(key, text.value);
      Ok(Decoded([tag], text.next))
    else Ok(Decoded([], p))
  }

  /** Name, house number and reference, in that order, each when its bit is set. */
  function TextTagsAt(flags: Byte, d: seq<Byte>, p: nat): Result<Decoded<seq<Tag>>> {
    var name :- TextTagAt(flags, WAY_FEATURE_NAME, TAG_KEY_NAME, d, p);
    var houseNumber :- TextTagAt(flags, WAY_FEATURE_HOUSE_NUMBER, TAG_KEY_HOUSE_NUMBER, d, name.next);
    var reference :- TextTagAt(flags, WAY_FEATURE_REF, TAG_KEY_REF, d, houseNumber.next);
    Ok(Decoded(name.value + houseNumber.value + reference.value, reference.next))
  }

  /** The label position, present when bit 0x10 is set. */
  function LabelPositionAt(flags: Byte, d: seq<Byte>, p: nat): Result<Decoded<Option<LatLong>>> {
    if IsSet(flags, WAY_FEATURE_LABEL_POSITION) then
      var position :- LatLongAt(d, p);
      Ok(Decoded(Some(position.value), position.next))
    else Ok(Decoded(None, p))
  }

  /** The number of way data blocks: a VBE integer when bit 0x08 is set, otherwise 1. */
  function DataBlockCountAt(flags: Byte, d: seq<Byte>, p: nat): Result<Decoded<nat>> {
    if IsSet(flags, WAY_FEATURE_DATA_BLOCKS_BYTE) then VbeUIntAt(d, p) else Ok(Decoded(1, p))
  }

  method ReadTextTag(rd: Reader, flags: Byte, mask: Byte, key: seq<Byte>) returns (r: Result<seq<Tag>>)
    modifies rd
    ensures Tie(r, rd.pos) == TextTagAt(flags, mask, key, rd.data, old(rd.pos))
  {
    if IsSet(flags, mask) {
      var text :- ReadVbeU(rd);
      var tag :- NewTag(key, text);
      r := Ok([tag]);
    } else {
      r := Ok([]);
    }
  }

  method ReadTextTags(rd: Reader, flags: Byte) returns (r: Result<seq<Tag>>)
    modifies rd
    ensures Tie(r, rd.pos) == TextTagsAt(flags, rd.data, old(rd.pos))
  {
    var name :- ReadTextTag(rd, flags, WAY_FEATURE_NAME, TAG_KEY_NAME);
    var houseNumber :- ReadTextTag(rd, flags, WAY_FEATURE_HOUSE_NUMBER, TAG_KEY_HOUSE_NUMBER);
    var reference :- ReadTextTag(rd, flags, WAY_FEATURE_REF, TAG_KEY_REF);
    r := Ok(name + houseNumber + reference);
  }

  method ReadLabelPosition(rd: Reader, flags: Byte) returns (r: Result<Option<LatLong>>)
    modifies rd
    ensures Tie(r, rd.pos) == LabelPositionAt(flags, rd.data, old(rd.pos))
  {
    if IsSet(flags, WAY_FEATURE_LABEL_POSITION) {
      var position :- ReadLatLong(rd);
      r := Ok(Some(position));
    } else {
      r := Ok(None);
    }
  }

  method ReadDataBlockCount(rd: Reader, flags: Byte) returns (r: Result<nat>)
    modifies rd
    ensures Tie(r, rd.pos) == DataBlockCountAt(flags, rd.data, old(rd.pos))
  {
    if IsSet(flags, WAY_FEATURE_DATA_BLOCKS_BYTE) {
      r := ReadVbeUInt(rd);
    } else {
      r := Ok(1);
    }
  }

  // ---------------------------------------------------------------------------
  // One way

  /** The fields in front of the flags-driven part of a way record. */
  datatype WayHead = WayHead(subTileBitmap: nat, layer: int, list: TagList, flags: Byte)

  /** Signature, way data size (read and unused), the big-endian u16 sub-tile bitmap, the
      special byte, the tag references (as in a POI) and the flags byte. */
  function WayHeadAt(dict: seq<seq<Byte>>, debug: bool, d: seq<Byte>, p: nat): Result<Decoded<WayHead>> {
    var sig :- SignatureAt(d, p, debug);
    var wayDataSize :- VbeUIntAt(d, sig.next);
    var bitmap :- BeUintAt(d, wayDataSize.next, 2);
    var special :- U8At(d, bitmap.next);
    var list :- TagListAt(dict, TagCountOf(special.value), d, special.next);
    var flags :- U8At(d, list.next);
    Ok(Decoded(WayHead(bitmap.value, LayerOf(special.value), list.value, flags.value), flags.next))
  }

  /** What follows the flags byte: text tags, label position, block count and blocks. The
      blocks are decoded and dropped; the way keeps no coordinates. */
  function WayBodyAt(head: WayHead, d: seq<Byte>, p: nat): Result<Decoded<Way>> {
    var texts :- TextTagsAt(head.flags, d, p);
    var position :- LabelPositionAt(head.flags, d, texts.next);
    var count :- DataBlockCountAt(head.flags, d, position.next);
    var blocks :- Many(DataBlockParser(IsSet(head.flags, WAY_FEATURE_DOUBLE_DELTA_ENCODING)), d, count.next, count.value);
    Ok(Decoded(Way(head.subTileBitmap, head.layer, head.list.ids, Some(head.list.tags + texts.value), position.value, []),
               blocks.next))
  }

  function WayAt(dict: seq<seq<Byte>>, debug: bool, d: seq<Byte>, p: nat): Result<Decoded<Way>> {
    var head :- WayHeadAt(dict, debug, d, p);
    WayBodyAt(head.value, d, head.next)
  }

  function WayParser(dict: seq<seq<Byte>>, debug: bool): Parser<Way> {
    (d: seq<Byte>, p: nat) => WayAt(dict, debug, d, p)
  }

  /** `process_ways`: `n` ways one after another; the first failure aborts. */
  function WaysAt(d: seq<Byte>, p: nat, n: nat, dict: seq<seq<Byte>>, debug: bool): Result<Decoded<seq<Way>>> {
    Many(WayParser(dict, debug), d, p, n)
  }

  /** `item` reads a way exactly as `WayAt` does. */
  ghost predicate ReadsWay(item: Parser<Way>, dict: seq<seq<Byte>>, debug: bool) {
    forall d: seq<Byte>, p: nat {:trigger WayAt(dict, debug, d, p)} :: item(d, p) == WayAt(dict, debug, d, p)
  }

  method ReadWayHead(rd: Reader, dict: seq<seq<Byte>>, debug: bool) returns (r: Result<WayHead>)
    modifies rd
    ensures Tie(r, rd.pos) == WayHeadAt(dict, debug, rd.data, old(rd.pos))
  {
    var sig :- ReadSignature(rd, debug);
    var wayDataSize :- ReadVbeUInt(rd);
    var subTileBitmap :- rd.ReadBeUint(2);
    var special :- rd.ReadU8();
    var layer := special / 16;
    var numberOfTags := special % 16;
    var list :- ReadTagList(rd, dict, numberOfTags);
    var flags :- rd.ReadU8();
    r := Ok(WayHead(subTileBitmap, layer, list, flags));
  }

  method ReadWayBody(rd: Reader, head: WayHead) returns (r: Result<Way>)
    modifies rd
    ensures Tie(r, rd.pos) == WayBodyAt(head, rd.data, old(rd.pos))
  {
    var texts :- ReadTextTags(rd, head.flags);
    var labelPosition :- ReadLabelPosition(rd, head.flags);
    var numberOfWayDataBlocks :- ReadDataBlockCount(rd, head.flags);
    var singleDelta := !IsSet(head.flags, WAY_FEATURE_DOUBLE_DELTA_ENCODING);
    var blocks :- ReadDataBlocks(rd, numberOfWayDataBlocks, !singleDelta);
    r := Ok(Way(head.subTileBitmap, head.layer, head.list.ids, Some(head.list.tags + texts), labelPosition, []));
  }

  /** The body of the way loop. */
  method ReadWay(rd: Reader, dict: seq<seq<Byte>>, debug: bool) returns (r: Result<Way>)
    modifies rd
    ensures Tie(r, rd.pos) == WayAt(dict, debug, rd.data, old(rd.pos))
  {
    var head :- ReadWayHead(rd, dict, debug);
    r := ReadWayBody(rd, head);
  }

  /** A way read inside the loop, stated as its effect on the remaining repetition. */
  method ReadWayStep(rd: Reader, dict: seq<seq<Byte>>, debug: bool, ghost item: Parser<Way>,
                     ghost done: seq<Way>, ghost n: nat)
    returns (r: Result<Way>)
    requires n > 0 && ReadsWay(item, dict, debug)
    modifies rd
    ensures r.Ok? ==> Prepend(done, Many(item, rd.data, old(rd.pos), n))
                      == Prepend(done + [r.value], Many(item, rd.data, rd.pos, n - 1))
    ensures r.Err? ==> Prepend(done, Many(item, rd.data, old(rd.pos), n)) == Err(r.error)
  {
    ghost var here := rd.pos;
    r := ReadWay(rd, dict, debug);
    ManyRead(item, rd.data, here, n, done, r, rd.pos);
  }

  /** The loop of `process_ways`, against any `item` that reads ways as `WayAt` does. */
  method ReadWays(rd: Reader, count: nat, dict: seq<seq<Byte>>, debug: bool, ghost item: Parser<Way>)
    returns (r: Result<seq<Way>>)
    requires ReadsWay(item, dict, debug)
    modifies rd
    ensures Tie(r, rd.pos) == Many(item, rd.data, old(rd.pos), count)
  {
    ghost var start := rd.pos;
    ghost var left := count;
    var ways: seq<Way> := [];
    PrependEnds(item, rd.data, start, count, ways);
    var i := 0;
    while i < count
      invariant i + left == count
      invariant Prepend(ways, Many(item, rd.data, rd.pos, left)) == Many(item, rd.data, start, count)
    {
      var way := ReadWayStep(rd, dict, debug, item, ways, left);
      if way.Err? {
        return Err(way.error);
      }
      ways := ways + [way.value];
      i := i + 1;
      left := left - 1;
    }
    PrependEnds(item, rd.data, rd.pos, 0, ways);
    r := Ok(ways);
  }

  /** `process_ways`: `waysOnQueryZoomLevel` ways, or the first error. */
  method ProcessWays(rd: Reader, waysOnQueryZoomLevel: nat, dict: seq<seq<Byte>>, debug: bool)
    returns (r: Result<seq<Way>>)
    modifies rd
    ensures Tie(r, rd.pos) == WaysAt(rd.data, old(rd.pos), waysOnQueryZoomLevel, dict, debug)
  {
    r := ReadWays(rd, waysOnQueryZoomLevel, dict, debug, WayParser(dict, debug));
  }
}

module WaysProperties {
  import opened Errors
  import opened ByteStream
  import opened Types
  import opened Utils
  import opened UtilsProperties
  import opened Tags
  import opened Pois
  import opened PoisProperties
  import opened Ways
  import opened TagsProperties

  // ---------------------------------------------------------------------------
  // Double delta: what the running position is

  /** The latitude parts of `deltas`, added up. */
  function SumLatitude(deltas: seq<LatLong>): int
    decreases |deltas|
  {
    if deltas == [] then 0 else SumLatitude(deltas[..|deltas| - 1]) + deltas[|deltas| - 1].latitude
  }

  /** The longitude parts of `deltas`, added up. */
  function SumLongitude(deltas: seq<LatLong>): int
    decreases |deltas|
  {
    if deltas == [] then 0 else SumLongitude(deltas[..|deltas| - 1]) + deltas[|deltas| - 1].longitude
  }

  /** The latitude is never clamped: it is the initial latitude plus every pair read. */
  lemma {:induction false} LatitudeIsRunningSum(initial: LatLong, deltas: seq<LatLong>)
    ensures PositionAfter(initial, deltas).latitude == initial.latitude + SumLatitude(deltas)
    decreases |deltas|
  {
    if deltas != [] {
      LatitudeIsRunningSum(initial, deltas[..|deltas| - 1]);
    }
  }

  /** No partial sum of the longitudes leaves [-180, 180] degrees. */
  predicate StaysOnGlobe(initial: LatLong, deltas: seq<LatLong>) {
    forall k :: 0 < k <= |deltas| ==>
      LONGITUDE_MIN <= initial.longitude + SumLongitude(deltas[..k]) <= LONGITUDE_MAX
  }

  /** While the running longitude stays within the date line the clamp never fires, and
      the longitude is the initial longitude plus every pair read. */
  lemma {:induction false} LongitudeIsRunningSum(initial: LatLong, deltas: seq<LatLong>)
    requires StaysOnGlobe(initial, deltas)
    ensures PositionAfter(initial, deltas).longitude == initial.longitude + SumLongitude(deltas)
    decreases |deltas|
  {
    if deltas != [] {
      var n := |deltas|;
      var front := deltas[..n - 1];
      forall k | 0 < k <= |front|
        ensures LONGITUDE_MIN <= initial.longitude + SumLongitude(front[..k]) <= LONGITUDE_MAX
      {
        assert front[..k] == deltas[..k];
      }
      LongitudeIsRunningSum(initial, front);
      assert deltas[..n] == deltas;
    }
  }

  /** Node `k` of a double-delta block is the position after the first `k + 1` pairs. */
  lemma {:induction false} NodesArePositions(initial: LatLong, deltas: seq<LatLong>)
    ensures forall k :: 0 <= k < |deltas| ==> NodesAfter(initial, deltas)[k] == PositionAfter(initial, deltas[..k + 1])
    decreases |deltas|
  {
    if deltas != [] {
      var n := |deltas|;
      var front := deltas[..n - 1];
      NodesArePositions(initial, front);
      forall k | 0 <= k < n ensures NodesAfter(initial, deltas)[k] == PositionAfter(initial, deltas[..k + 1]) {
        if k < n - 1 {
          assert front[..k + 1] == deltas[..k + 1];
        } else {
          assert deltas[..k + 1] == deltas;
        }
      }
    }
  }

  /** Node `k` sits at the initial latitude plus the first `k + 1` pairs, and, while the
      longitudes stay within the date line, at the initial longitude plus those pairs. */
  lemma NodesAreRunningSums(initial: LatLong, deltas: seq<LatLong>)
    ensures forall k :: 0 <= k < |deltas| ==>
      NodesAfter(initial, deltas)[k].latitude == initial.latitude + SumLatitude(deltas[..k + 1])
    ensures StaysOnGlobe(initial, deltas) ==> forall k :: 0 <= k < |deltas| ==>
      NodesAfter(initial, deltas)[k].longitude == initial.longitude + SumLongitude(deltas[..k + 1])
  {
    NodesArePositions(initial, deltas);
    forall k | 0 <= k < |deltas|
      ensures NodesAfter(initial, deltas)[k].latitude == initial.latitude + SumLatitude(deltas[..k + 1])
      ensures StaysOnGlobe(initial, deltas) ==>
        NodesAfter(initial, deltas)[k].longitude == initial.longitude + SumLongitude(deltas[..k + 1])
    {
      LatitudeIsRunningSum(initial, deltas[..k + 1]);
      if StaysOnGlobe(initial, deltas) {
        var front := deltas[..k + 1];
        forall j | 0 < j <= |front|
          ensures LONGITUDE_MIN <= initial.longitude + SumLongitude(front[..j]) <= LONGITUDE_MAX
        {
          assert front[..j] == deltas[..j];
        }
        LongitudeIsRunningSum(initial, front);
      }
    }
  }

  /** Near the date line the clamped longitude, not the running sum, feeds the next step:
      a step that overshoots 180 degrees by less than the margin is put on 180, and the step
      straight back then lands short of where the path started, although the running sum
      of the pairs is back at the start. */
  lemma ClampFeedsNextStep(initial: LatLong, path: seq<LatLong>)
    requires |path| == 2 && LONGITUDE_MIN <= initial.longitude <= LONGITUDE_MAX
    requires LONGITUDE_MAX < initial.longitude + path[0].longitude < LONGITUDE_MAX + CLAMP_MARGIN
    requires path[1].longitude == -path[0].longitude && LONGITUDE_MIN <= LONGITUDE_MAX - path[0].longitude
    ensures NodesAfter(initial, path)[0].longitude == LONGITUDE_MAX
    ensures NodesAfter(initial, path)[1].longitude == LONGITUDE_MAX - path[0].longitude < initial.longitude
    ensures initial.longitude + SumLongitude(path) == initial.longitude
  {
    TwoSteps(initial, path);
    SumLongitudeTwo(path);
  }

  /** The nodes of two pairs: one step, then a step from where the first one ended. */
  lemma TwoSteps(initial: LatLong, path: seq<LatLong>)
    requires |path| == 2
    ensures NodesAfter(initial, path)[0] == Advance(initial, path[0])
    ensures NodesAfter(initial, path)[1] == Advance(Advance(initial, path[0]), path[1])
  {
    var one := path[..1];
    assert one[..0] == [];
    assert PositionAfter(initial, one) == Advance(initial, path[0]);
    assert NodesAfter(initial, one) == [Advance(initial, path[0])];
    assert PositionAfter(initial, path) == Advance(Advance(initial, path[0]), path[1]);
  }

  /** The longitude sum of two pairs. */
  lemma SumLongitudeTwo(path: seq<LatLong>)
    requires |path| == 2
    ensures SumLongitude(path) == path[0].longitude + path[1].longitude
  {
    var one := path[..1];
    assert one[..0] == [];
    assert SumLongitude(one) == path[0].longitude;
  }
  // ---------------------------------------------------------------------------
  // Double delta: its inverse on paths that stay within the date line

  /** The pairs that lead from `initial` through `nodes`, one node at a time. */
  function DeltasOf(initial: LatLong, nodes: seq<LatLong>): (r: seq<LatLong>)
    ensures |r| == |nodes|
    decreases |nodes|
  {
    if nodes == [] then []
    else
      var n := |nodes|;
      var previous := if n == 1 then initial else nodes[n - 2];
      DeltasOf(initial, nodes[..n - 1])
        + [LatLong(nodes[n - 1].latitude - previous.latitude, nodes[n - 1].longitude - previous.longitude)]
  }

  /** Every longitude lies within [-180, 180] degrees. */
  predicate OnGlobe(nodes: seq<LatLong>) {
    forall i :: 0 <= i < |nodes| ==> LONGITUDE_MIN <= nodes[i].longitude <= LONGITUDE_MAX
  }

  /** Decoding the pairs between consecutive nodes gives the nodes back, and the running
      position ends on the last node. */
  lemma {:induction false} DeltasOfInverts(initial: LatLong, nodes: seq<LatLong>)
    requires OnGlobe(nodes)
    ensures NodesAfter(initial, DeltasOf(initial, nodes)) == nodes
    ensures PositionAfter(initial, DeltasOf(initial, nodes)) == if nodes == [] then initial else nodes[|nodes| - 1]
    decreases |nodes|
  {
    if nodes != [] {
      var n := |nodes|;
      var front := nodes[..n - 1];
      var previous := if n == 1 then initial else nodes[n - 2];
      var delta := LatLong(nodes[n - 1].latitude - previous.latitude, nodes[n - 1].longitude - previous.longitude);
      assert OnGlobe(front) by {
        forall i | 0 <= i < |front| ensures LONGITUDE_MIN <= front[i].longitude <= LONGITUDE_MAX {
          assert front[i] == nodes[i];
        }
      }
      DeltasOfInverts(initial, front);
      var prefix := DeltasOf(initial, front);
      assert DeltasOf(initial, nodes) == prefix + [delta];
      assert PositionAfter(initial, prefix) == previous;
      AdvanceOne(initial, prefix, delta);
      assert Advance(previous, delta) == nodes[n - 1];
      assert nodes == front + [nodes[n - 1]];
    }
  }

  // ---------------------------------------------------------------------------
  // Coordinate blocks on bytes

  /** The model encoder for a run of position pairs. */
  function EncodePairs(xs: seq<LatLong>): seq<Byte> {
    if xs == [] then [] else EncodeLatLong(xs[0]) + EncodePairs(xs[1..])
  }

  /** `item` reads a position pair exactly as `LatLongAt` does. */
  ghost predicate ReadsPair(item: Parser<LatLong>) {
    forall d: seq<Byte>, p: nat {:trigger LatLongAt(d, p)} :: item(d, p) == LatLongAt(d, p)
  }

  /** Encoded pairs read back as themselves, in order. */
  lemma {:induction false} PairsPlaced(item: Parser<LatLong>, d: seq<Byte>, p: nat, xs: seq<LatLong>)
    requires ReadsPair(item) && Holds(d, p, EncodePairs(xs))
    ensures Many(item, d, p, |xs|) == Ok(Decoded(xs, p + |EncodePairs(xs)|))
    decreases |xs|
  {
    if xs != [] {
      var q := p + |EncodeLatLong(xs[0])|;
      HoldsSplit(d, p, EncodeLatLong(xs[0]), EncodePairs(xs[1..]));
      LatLongRoundTrip(d, p, xs[0]);
      PairsPlaced(item, d, q, xs[1..]);
      ManyCons(item, d, p, xs, q, p + |EncodePairs(xs)|);
    }
  }

  /** The initial position and the further pairs, split apart. */
  lemma BlockLayout(d: seq<Byte>, p: nat, initial: LatLong, pairs: seq<LatLong>, q: nat, e: nat)
    requires Holds(d, p, EncodeLatLong(initial) + EncodePairs(pairs))
    requires q == p + |EncodeLatLong(initial)| && e == p + |EncodeLatLong(initial) + EncodePairs(pairs)|
    ensures LatLongAt(d, p) == Ok(Decoded(initial, q))
    ensures Many(LatLongAt, d, q, |pairs|) == Ok(Decoded(pairs, e))
  {
    HoldsSplit(d, p, EncodeLatLong(initial), EncodePairs(pairs));
    LatLongRoundTrip(d, p, initial);
    BlockPairsRead(d, q, pairs, e);
  }

  /** The pairs alone, read where they were written. */
  lemma BlockPairsRead(d: seq<Byte>, q: nat, pairs: seq<LatLong>, e: nat)
    requires Holds(d, q, EncodePairs(pairs)) && e == q + |EncodePairs(pairs)|
    ensures Many(LatLongAt, d, q, |pairs|) == Ok(Decoded(pairs, e))
  {
    PairsPlaced(LatLongAt, d, q, pairs);
  }

  /** Single delta as written: the initial position followed by `M - 1` pairs reads back
      as the block whose nodes are the initial position and then those pairs unchanged. */
  lemma SingleDeltaRoundTrip(d: seq<Byte>, p: nat, initial: LatLong, rest: seq<LatLong>)
    requires Holds(d, p, EncodeLatLong(initial) + EncodePairs(rest))
    ensures SingleDeltaAt(d, p, |rest| + 1)
         == Ok(Decoded(WayCoordinateBlock(initial, [initial] + rest), p + |EncodeLatLong(initial) + EncodePairs(rest)|))
  {
    BlockLayout(d, p, initial, rest, p + |EncodeLatLong(initial)|, p + |EncodeLatLong(initial) + EncodePairs(rest)|);
  }

  /** Double delta as written: the initial position followed by the pairs between
      consecutive nodes reads back as those nodes, as long as they stay within the date
      line. */
  lemma DoubleDeltaRoundTrip(d: seq<Byte>, p: nat, initial: LatLong, nodes: seq<LatLong>, deltas: seq<LatLong>)
    requires OnGlobe(nodes) && deltas == DeltasOf(initial, nodes)
    requires Holds(d, p, EncodeLatLong(initial) + EncodePairs(deltas))
    ensures DoubleDeltaAt(d, p, |nodes| + 1)
         == Ok(Decoded(WayCoordinateBlock(initial, nodes), p + |EncodeLatLong(initial) + EncodePairs(deltas)|))
  {
    DeltasOfInverts(initial, nodes);
    DoubleDeltaFromBytes(d, p, initial, deltas, nodes);
  }

  /** Encoded pairs whose nodes are `nodes` read back as the block of those nodes. */
  lemma DoubleDeltaFromBytes(d: seq<Byte>, p: nat, initial: LatLong, deltas: seq<LatLong>, nodes: seq<LatLong>)
    requires Holds(d, p, EncodeLatLong(initial) + EncodePairs(deltas))
    requires |nodes| == |deltas| && NodesAfter(initial, deltas) == nodes
    ensures DoubleDeltaAt(d, p, |nodes| + 1)
         == Ok(Decoded(WayCoordinateBlock(initial, nodes), p + |EncodeLatLong(initial) + EncodePairs(deltas)|))
  {
    var q := p + |EncodeLatLong(initial)|;
    var e := p + |EncodeLatLong(initial) + EncodePairs(deltas)|;
    BlockLayout(d, p, initial, deltas, q, e);
    DoubleDeltaPlaced(d, p, initial, deltas, nodes, q, e);
  }

  /** The initial position at `p` and the pairs after it give the block of their nodes. */
  lemma DoubleDeltaPlaced(d: seq<Byte>, p: nat, initial: LatLong, deltas: seq<LatLong>, nodes: seq<LatLong>,
                          q: nat, e: nat)
    requires LatLongAt(d, p) == Ok(Decoded(initial, q))
    requires Many(LatLongAt, d, q, |deltas|) == Ok(Decoded(deltas, e))
    requires |nodes| == |deltas| && NodesAfter(initial, deltas) == nodes
    ensures DoubleDeltaAt(d, p, |nodes| + 1) == Ok(Decoded(WayCoordinateBlock(initial, nodes), e))
  {
  }

  /** The number of nodes a block of `numWayNodes` yields: at least the initial one with
      single delta, one fewer than stated with double delta. */
  function NodeCount(doubleDelta: bool, numWayNodes: nat): nat {
    if doubleDelta then FromOne(numWayNodes) else if numWayNodes == 0 then 1 else numWayNodes
  }

  /** A decoded block has `NodeCount` nodes; with single delta the first is the initial
      position. */
  lemma CoordinateBlockShape(doubleDelta: bool, numWayNodes: nat, d: seq<Byte>, p: nat)
    ensures CoordinateBlockAt(doubleDelta, numWayNodes, d, p).Ok? ==>
      var b := CoordinateBlockAt(doubleDelta, numWayNodes, d, p).value.value;
      |b.coordinates| == NodeCount(doubleDelta, numWayNodes)
      && (!doubleDelta ==> b.coordinates[0] == b.initialPosition)
  {
  }

  /** A data block whose count is 0 reads nothing after it. Otherwise it holds as many
      coordinate blocks as the count says, all with the node count read once after it. */
  lemma DataBlockShape(doubleDelta: bool, d: seq<Byte>, p: nat)
    ensures VbeUIntAt(d, p).Ok? && VbeUIntAt(d, p).value.value == 0 ==>
      DataBlockAt(doubleDelta, d, p) == Ok(Decoded([], VbeUIntAt(d, p).value.next))
    ensures DataBlockAt(doubleDelta, d, p).Ok? ==>
      var count := VbeUIntAt(d, p).value;
      var blocks := DataBlockAt(doubleDelta, d, p).value.value;
      |blocks| == count.value
      && (count.value > 0 ==>
            VbeUIntAt(d, count.next).Ok?
            && forall i :: 0 <= i < |blocks| ==>
                 |blocks[i].coordinates| == NodeCount(doubleDelta, VbeUIntAt(d, count.next).value.value))
  {
    if DataBlockAt(doubleDelta, d, p).Ok? && VbeUIntAt(d, p).value.value > 0 {
      var count := VbeUIntAt(d, p).value;
      var nodes := VbeUIntAt(d, count.next).value;
      var item := CoordinateBlockParser(doubleDelta, nodes.value);
      var hasNodes := (b: WayCoordinateBlock) => |b.coordinates| == NodeCount(doubleDelta, nodes.value);
      forall e: seq<Byte>, q: nat ensures item(e, q).Ok? ==> hasNodes(item(e, q).value.value) {
        CoordinateBlockShape(doubleDelta, nodes.value, e, q);
      }
      ManyEach(item, hasNodes, d, nodes.next, count.value);
    }
  }

  // ---------------------------------------------------------------------------
  // The flags byte

  function KeysOf(tags: seq<Tag>): (r: seq<seq<Byte>>)
    ensures |r| == |tags|
  {
    seq(|tags|, i requires 0 <= i < |tags| => tags[i].key)
  }

  /** The keys of the text tags the flags call for, in the order they are read. */
  function TextKeys(flags: Byte): seq<seq<Byte>> {
    (if IsSet(flags, WAY_FEATURE_NAME) then [TAG_KEY_NAME] else [])
    + (if IsSet(flags, WAY_FEATURE_HOUSE_NUMBER) then [TAG_KEY_HOUSE_NUMBER] else [])
    + (if IsSet(flags, WAY_FEATURE_REF) then [TAG_KEY_REF] else [])
  }

  /** A text field yields one tag with its key when its bit is set and nothing otherwise. */
  lemma TextTagShape(flags: Byte, mask: Byte, key: seq<Byte>, d: seq<Byte>, p: nat)
    ensures TextTagAt(flags, mask, key, d, p).Ok? ==>
      KeysOf(TextTagAt(flags, mask, key, d, p).value.value) == if IsSet(flags, mask) then [key] else []
  {
  }

  /** Bits 0x80, 0x40 and 0x20 each add one tag, keyed "name", "addr:housenumber" and
      "ref", in that order. */
  lemma TextTagsShape(flags: Byte, d: seq<Byte>, p: nat)
    ensures TextTagsAt(flags, d, p).Ok? ==> KeysOf(TextTagsAt(flags, d, p).value.value) == TextKeys(flags)
  {
    if TextTagsAt(flags, d, p).Ok? {
      var name := TextTagAt(flags, WAY_FEATURE_NAME, TAG_KEY_NAME, d, p).value;
      var houseNumber := TextTagAt(flags, WAY_FEATURE_HOUSE_NUMBER, TAG_KEY_HOUSE_NUMBER, d, name.next).value;
      var reference := TextTagAt(flags, WAY_FEATURE_REF, TAG_KEY_REF, d, houseNumber.next).value;
      TextTagShape(flags, WAY_FEATURE_NAME, TAG_KEY_NAME, d, p);
      TextTagShape(flags, WAY_FEATURE_HOUSE_NUMBER, TAG_KEY_HOUSE_NUMBER, d, name.next);
      TextTagShape(flags, WAY_FEATURE_REF, TAG_KEY_REF, d, houseNumber.next);
      KeysOfConcat(name.value, houseNumber.value);
      KeysOfConcat(name.value + houseNumber.value, reference.value);
    }
  }

  lemma KeysOfConcat(a: seq<Tag>, b: seq<Tag>)
    ensures KeysOf(a + b) == KeysOf(a) + KeysOf(b)
  {
    assert forall i | 0 <= i < |a + b| :: KeysOf(a + b)[i] == (KeysOf(a) + KeysOf(b))[i];
  }

  /** Two flag bytes that agree on their top six bits agree on every bit the reader tests. */
  lemma SameTopBits(f: Byte, g: Byte)
    requires f / 4 == g / 4
    ensures IsSet(f, WAY_FEATURE_NAME) == IsSet(g, WAY_FEATURE_NAME)
    ensures IsSet(f, WAY_FEATURE_HOUSE_NUMBER) == IsSet(g, WAY_FEATURE_HOUSE_NUMBER)
    ensures IsSet(f, WAY_FEATURE_REF) == IsSet(g, WAY_FEATURE_REF)
    ensures IsSet(f, WAY_FEATURE_LABEL_POSITION) == IsSet(g, WAY_FEATURE_LABEL_POSITION)
    ensures IsSet(f, WAY_FEATURE_DATA_BLOCKS_BYTE) == IsSet(g, WAY_FEATURE_DATA_BLOCKS_BYTE)
    ensures IsSet(f, WAY_FEATURE_DOUBLE_DELTA_ENCODING) == IsSet(g, WAY_FEATURE_DOUBLE_DELTA_ENCODING)
  {
    var h := f / 4;
    assert f / 0x80 == h / 0x20 && g / 0x80 == h / 0x20;
    assert f / 0x40 == h / 0x10 && g / 0x40 == h / 0x10;
    assert f / 0x20 == h / 0x08 && g / 0x20 == h / 0x08;
    assert f / 0x10 == h / 0x04 && g / 0x10 == h / 0x04;
    assert f / 0x08 == h / 0x02 && g / 0x08 == h / 0x02;
  }

  /** Bits 0x02 and 0x01 of the flags are reserved: whatever they hold, the rest of the way
      reads the same. */
  lemma ReservedBitsIgnored(head: WayHead, flags: Byte, d: seq<Byte>, p: nat)
    requires flags / 4 == head.flags / 4
    ensures WayBodyAt(head.(flags := flags), d, p) == WayBodyAt(head, d, p)
  {
    SameTopBits(flags, head.flags);
    var texts := TextTagsAt(head.flags, d, p);
    TextTagsIgnoreReserved(flags, head.flags, d, p);
    if texts.Ok? {
      var position := LabelPositionAt(head.flags, d, texts.value.next);
      if position.Ok? {
        assert DataBlockCountAt(flags, d, position.value.next) == DataBlockCountAt(head.flags, d, position.value.next);
      }
    }
  }

  lemma TextTagsIgnoreReserved(f: Byte, g: Byte, d: seq<Byte>, p: nat)
    requires f / 4 == g / 4
    ensures TextTagsAt(f, d, p) == TextTagsAt(g, d, p)
  {
    SameTopBits(f, g);
  }

  // ---------------------------------------------------------------------------
  // Whole ways

  /** What every decoded way is: a 16-bit bitmap, a layer in the high nibble's range, at most
      14 resolved dictionary tags followed by at most three text tags, and no coordinates. */
  predicate WayFits(dict: seq<seq<Byte>>, w: Way) {
    w.subTileBitmap < 0x1_0000 && 0 <= w.layer < 16 && |w.tagIds| <= 14
    && w.tags.Some? && |w.tagIds| <= |w.tags.value| <= |w.tagIds| + 3
    && Resolved(dict, w.tagIds, w.tags.value[..|w.tagIds|])
    && w.coordinateBlocks == []
  }

  /** The head of a way: a 16-bit bitmap, a layer in the high nibble's range, and at most
      14 resolved dictionary tags. */
  lemma WayHeadShape(dict: seq<seq<Byte>>, debug: bool, d: seq<Byte>, p: nat)
    ensures WayHeadAt(dict, debug, d, p).Ok? ==>
      var head := WayHeadAt(dict, debug, d, p).value.value;
      head.subTileBitmap < 0x1_0000 && 0 <= head.layer < 16 && |head.list.ids| <= 14
      && Resolved(dict, head.list.ids, head.list.tags)
  {
    if WayHeadAt(dict, debug, d, p).Ok? {
      var sig := SignatureAt(d, p, debug).value;
      var wayDataSize := VbeUIntAt(d, sig.next).value;
      var bitmap := BeUintAt(d, wayDataSize.next, 2).value;
      var special := U8At(d, bitmap.next).value;
      BeValueBound(d[wayDataSize.next..wayDataSize.next + 2]);
      TagListShape(dict, TagCountOf(special.value), d, special.next);
    }
  }

  /** The rest of a way keeps the head's fields, appends the text tags its flags call for,
      has a label position exactly when bit 0x10 is set, and no coordinates. */
  lemma WayBodyShape(head: WayHead, d: seq<Byte>, p: nat)
    ensures WayBodyAt(head, d, p).Ok? ==>
      var w := WayBodyAt(head, d, p).value.value;
      w.subTileBitmap == head.subTileBitmap && w.layer == head.layer && w.tagIds == head.list.ids
      && w.tags.Some? && w.tags.value[..|head.list.tags|] == head.list.tags
      && KeysOf(w.tags.value[|head.list.tags|..]) == TextKeys(head.flags)
      && (w.labelPosition.Some? <==> IsSet(head.flags, WAY_FEATURE_LABEL_POSITION))
      && w.coordinateBlocks == []
  {
    if WayBodyAt(head, d, p).Ok? {
      var texts := TextTagsAt(head.flags, d, p).value;
      TextTagsShape(head.flags, d, p);
      assert (head.list.tags + texts.value)[..|head.list.tags|] == head.list.tags;
      assert (head.list.tags + texts.value)[|head.list.tags|..] == texts.value;
    }
  }

  /** A decoded way fits, its text tags are those its flags byte calls for, and it has a
      label position exactly when bit 0x10 is set. */
  lemma WayShape(dict: seq<seq<Byte>>, debug: bool, d: seq<Byte>, p: nat)
    ensures WayAt(dict, debug, d, p).Ok? ==>
      var flags := WayHeadAt(dict, debug, d, p).value.value.flags;
      var w := WayAt(dict, debug, d, p).value.value;
      WayFits(dict, w)
      && KeysOf(w.tags.value[|w.tagIds|..]) == TextKeys(flags)
      && (w.labelPosition.Some? <==> IsSet(flags, WAY_FEATURE_LABEL_POSITION))
  {
    if WayAt(dict, debug, d, p).Ok? {
      var head := WayHeadAt(dict, debug, d, p).value;
      WayHeadShape(dict, debug, d, p);
      WayBodyShape(head.value, d, head.next);
      KeysOfLength(WayAt(dict, debug, d, p).value.value.tags.value[|head.value.list.ids|..], TextKeys(head.value.flags));
    }
  }

  /** There are at most three text keys. */
  lemma KeysOfLength(tags: seq<Tag>, keys: seq<seq<Byte>>)
    requires KeysOf(tags) == keys && |keys| <= 3
    ensures |tags| <= 3
  {
  }

  /** Every way `process_ways` returns fits. */
  lemma WaysFit(d: seq<Byte>, p: nat, n: nat, dict: seq<seq<Byte>>, debug: bool)
    ensures WaysAt(d, p, n, dict, debug).Ok? ==>
      forall i :: 0 <= i < n ==> WayFits(dict, WaysAt(d, p, n, dict, debug).value.value[i])
  {
    var item := WayParser(dict, debug);
    var fits := (w: Way) => WayFits(dict, w);
    forall e: seq<Byte>, q: nat ensures item(e, q).Ok? ==> fits(item(e, q).value.value) {
      WayShape(dict, debug, e, q);
    }
    ManyEach(item, fits, d, p, n);
  }

  // ---------------------------------------------------------------------------
  // Round trip of a way

  /** The text fields a way record can carry. */
  datatype WayTexts = WayTexts(name: Option<seq<Byte>>, houseNumber: Option<seq<Byte>>, reference: Option<seq<Byte>>)

  /** A way record as the model encoder writes it: the way data size, the bitmap, the
      layer, the dictionary tags, the text fields and the label position. The encoder
      writes one data block holding no coordinate blocks. */
  datatype WayRecord = WayRecord(wayDataSize: nat, subTileBitmap: nat, layer: int, tagIds: seq<nat>,
                                 tags: seq<Tag>, texts: WayTexts, labelPosition: Option<LatLong>)

  predicate AsciiText(text: Option<seq<Byte>>) {
    text.Some? ==> IsAscii(text.value)
  }

  /** A record a file can state: a 16-bit bitmap, a layer and a tag count that fit their
      nibbles, resolved dictionary tags, and text fields that `Tag::new` accepts. */
  predicate RecordFits(dict: seq<seq<Byte>>, x: WayRecord) {
    x.subTileBitmap < 0x1_0000 && 0 <= x.layer < 16 && |x.tagIds| <= 14
    && Resolved(dict, x.tagIds, x.tags)
    && AsciiText(x.texts.name) && AsciiText(x.texts.houseNumber) && AsciiText(x.texts.reference)
  }

  function Bit(present: bool, mask: Byte): nat {
    if present then mask else 0
  }

  /** One bit per text field present and one for the position; neither a data-block count nor
      double delta. */
  function FlagsOf(texts: WayTexts, position: Option<LatLong>): Byte {
    Bit(texts.name.Some?, WAY_FEATURE_NAME) + Bit(texts.houseNumber.Some?, WAY_FEATURE_HOUSE_NUMBER)
    + Bit(texts.reference.Some?, WAY_FEATURE_REF) + Bit(position.Some?, WAY_FEATURE_LABEL_POSITION)
  }

  lemma FlagsOfBits(texts: WayTexts, position: Option<LatLong>)
    ensures IsSet(FlagsOf(texts, position), WAY_FEATURE_NAME) == texts.name.Some?
    ensures IsSet(FlagsOf(texts, position), WAY_FEATURE_HOUSE_NUMBER) == texts.houseNumber.Some?
    ensures IsSet(FlagsOf(texts, position), WAY_FEATURE_REF) == texts.reference.Some?
    ensures IsSet(FlagsOf(texts, position), WAY_FEATURE_LABEL_POSITION) == position.Some?
    ensures !IsSet(FlagsOf(texts, position), WAY_FEATURE_DATA_BLOCKS_BYTE)
    ensures !IsSet(FlagsOf(texts, position), WAY_FEATURE_DOUBLE_DELTA_ENCODING)
  {
  }

  function EncodeText(text: Option<seq<Byte>>): seq<Byte> {
    if text.Some? then EncodeVbeString(text.value) else []
  }

  function EncodeTexts(texts: WayTexts): seq<Byte> {
    EncodeText(texts.name) + (EncodeText(texts.houseNumber) + EncodeText(texts.reference))
  }

  function EncodeLabel(position: Option<LatLong>): seq<Byte> {
    if position.Some? then EncodeLatLong(position.value) else []
  }

  /** "name", "addr:housenumber" and "ref" are ASCII, so `Tag::new` accepts them. */
  lemma KeysAreAscii()
    ensures IsAscii(TAG_KEY_NAME) && IsAscii(TAG_KEY_HOUSE_NUMBER) && IsAscii(TAG_KEY_REF)
  {
    TagConstants();
  }

  /** The tag a text field becomes. */
  function TextTagOf(key: seq<Byte>, text: Option<seq<Byte>>): seq<Tag>
    requires IsAscii(key) && AsciiText(text)
  {
    if text.Some? then [NewTag(key, text.value).value] else []
  }

  function TextTagsOf(texts: WayTexts): seq<Tag>
    requires AsciiText(texts.name) && AsciiText(texts.houseNumber) && AsciiText(texts.reference)
  {
    KeysAreAscii();
    TextTagOf(TAG_KEY_NAME, texts.name) + TextTagOf(TAG_KEY_HOUSE_NUMBER, texts.houseNumber)
    + TextTagOf(TAG_KEY_REF, texts.reference)
  }

  /** The head as the encoder writes it: signature, data size, bitmap, special byte, ids
      and flags. */
  function EncodeWayHead(debug: bool, sig: seq<Byte>, x: WayRecord): seq<Byte>
    requires 0 <= x.layer < 16 && |x.tagIds| <= 14
  {
    HeadBytes(if debug then sig else [], x.wayDataSize, x.subTileBitmap, x.layer * 16 + |x.tagIds| + 1, x.tagIds,
              FlagsOf(x.texts, x.labelPosition))
  }

  /** Signature, size, sub-tile bitmap, special byte, tag ids and flags byte, in file order. */
  function HeadBytes(s: seq<Byte>, size: nat, bitmap: nat, special: Byte, ids: seq<nat>, flags: Byte): seq<Byte> {
    s + (EncodeVbeU(size) + (BeBytes(bitmap, 2) + ([special] + (EncodeIds(ids) + [flags]))))
  }

  function EncodeWayBody(x: WayRecord): seq<Byte> {
    EncodeTexts(x.texts) + (EncodeLabel(x.labelPosition) + [0])
  }

  function EncodeWay(debug: bool, sig: seq<Byte>, x: WayRecord): seq<Byte>
    requires 0 <= x.layer < 16 && |x.tagIds| <= 14
  {
    EncodeWayHead(debug, sig, x) + EncodeWayBody(x)
  }

  /** The way a record decodes to. */
  function WayOf(x: WayRecord): Way
    requires AsciiText(x.texts.name) && AsciiText(x.texts.houseNumber) && AsciiText(x.texts.reference)
  {
    Way(x.subTileBitmap, x.layer, x.tagIds, Some(x.tags + TextTagsOf(x.texts)), x.labelPosition, [])
  }

  /** A way written by the model encoder reads back as the way of its record, with or
      without the debug signature, consuming exactly its bytes. */
  lemma WayRoundTrip(dict: seq<seq<Byte>>, debug: bool, d: seq<Byte>, p: nat, sig: seq<Byte>, x: WayRecord, e: nat)
    requires RecordFits(dict, x) && (debug ==> |sig| == 16)
    requires Holds(d, p, EncodeWay(debug, sig, x)) && e == p + |EncodeWay(debug, sig, x)|
    ensures WayAt(dict, debug, d, p) == Ok(Decoded(WayOf(x), e))
  {
    WayHalves(d, p, debug, sig, x);
    WayFromHalves(dict, debug, d, p, sig, x, p + |EncodeWayHead(debug, sig, x)|, e);
  }

  /** The head in place at `p` and the body right after it read back as the way of the
      record, ending after the body. */
  lemma WayFromHalves(dict: seq<seq<Byte>>, debug: bool, d: seq<Byte>, p: nat, sig: seq<Byte>, x: WayRecord, q: nat, e: nat)
    requires RecordFits(dict, x) && (debug ==> |sig| == 16)
    requires Holds(d, p, EncodeWayHead(debug, sig, x)) && q == p + |EncodeWayHead(debug, sig, x)|
    requires Holds(d, q, EncodeWayBody(x)) && e == q + |EncodeWayBody(x)|
    ensures WayAt(dict, debug, d, p) == Ok(Decoded(WayOf(x), e))
  {
    WayHeadPlaced(dict, debug, d, p, sig, x, q);
    WayBodyOf(d, q, x, e);
    WayParts(dict, debug, d, p, HeadOf(x), q, WayOf(x), e);
  }

  /** The head a record's flags byte and fields read back as. */
  function HeadOf(x: WayRecord): WayHead {
    WayHead(x.subTileBitmap, x.layer, TagList(x.tagIds, x.tags), FlagsOf(x.texts, x.labelPosition))
  }

  /** After the record's head, its body reads back as the way of the record. */
  lemma WayBodyOf(d: seq<Byte>, q: nat, x: WayRecord, e: nat)
    requires AsciiText(x.texts.name) && AsciiText(x.texts.houseNumber) && AsciiText(x.texts.reference)
    requires Holds(d, q, EncodeWayBody(x)) && e == q + |EncodeWayBody(x)|
    ensures WayBodyAt(HeadOf(x), d, q) == Ok(Decoded(WayOf(x), e))
  {
    FlagsOfBits(x.texts, x.labelPosition);
    WayBodyPlaced(HeadOf(x), d, q, x, e);
  }

  /** An encoded way in place is its head in place and then its body in place. */
  lemma WayHalves(d: seq<Byte>, p: nat, debug: bool, sig: seq<Byte>, x: WayRecord)
    requires 0 <= x.layer < 16 && |x.tagIds| <= 14
    requires Holds(d, p, EncodeWay(debug, sig, x))
    ensures Holds(d, p, EncodeWayHead(debug, sig, x))
    ensures Holds(d, p + |EncodeWayHead(debug, sig, x)|, EncodeWayBody(x))
    ensures |EncodeWay(debug, sig, x)| == |EncodeWayHead(debug, sig, x)| + |EncodeWayBody(x)|
  {
    HoldsSplit(d, p, EncodeWayHead(debug, sig, x), EncodeWayBody(x));
  }

  /** A way is its head and then its body. */
  lemma WayParts(dict: seq<seq<Byte>>, debug: bool, d: seq<Byte>, p: nat, head: WayHead, q: nat, way: Way, e: nat)
    requires WayHeadAt(dict, debug, d, p) == Ok(Decoded(head, q))
    requires WayBodyAt(head, d, q) == Ok(Decoded(way, e))
    ensures WayAt(dict, debug, d, p) == Ok(Decoded(way, e))
  {
  }

  /** The head reads back as the record's fields and its flags byte. */
  lemma WayHeadPlaced(dict: seq<seq<Byte>>, debug: bool, d: seq<Byte>, p: nat, sig: seq<Byte>, x: WayRecord, e: nat)
    requires RecordFits(dict, x) && (debug ==> |sig| == 16)
    requires Holds(d, p, EncodeWayHead(debug, sig, x)) && e == p + |EncodeWayHead(debug, sig, x)|
    ensures WayHeadAt(dict, debug, d, p) == Ok(Decoded(HeadOf(x), e))
  {
    var s := if debug then sig else [];
    SpecialByte(x.layer, |x.tagIds|);
    var special: Byte := x.layer * 16 + |x.tagIds| + 1;
    var p1 := p + |s|;
    var p2 := p1 + |EncodeVbeU(x.wayDataSize)|;
    var p3 := p2 + 2;
    HeadRead(dict, debug, d, p, s, x.wayDataSize, x.subTileBitmap, special, x.tagIds, x.tags,
             FlagsOf(x.texts, x.labelPosition), p1, p2, p3, e);
    WayHeadParts(dict, debug, d, p, s, x.wayDataSize, x.subTileBitmap, special, x.layer, x.tagIds, x.tags,
                 FlagsOf(x.texts, x.labelPosition), p1, p2, p3, e);
  }

  /** Each field of an encoded head reads back as itself. */
  lemma HeadRead(dict: seq<seq<Byte>>, debug: bool, d: seq<Byte>, p: nat, s: seq<Byte>, size: nat, bitmap: nat,
                 special: Byte, ids: seq<nat>, tags: seq<Tag>, flags: Byte, p1: nat, p2: nat, p3: nat, e: nat)
    requires |s| == (if debug then 16 else 0) && bitmap < 0x1_0000 && Resolved(dict, ids, tags)
    requires Holds(d, p, HeadBytes(s, size, bitmap, special, ids, flags))
    requires p1 == p + |s| && p2 == p1 + |EncodeVbeU(size)| && p3 == p2 + 2
    requires e == p + |HeadBytes(s, size, bitmap, special, ids, flags)|
    ensures SignatureAt(d, p, debug) == Ok(Decoded(s, p1))
    ensures VbeUIntAt(d, p1) == Ok(Decoded(size, p2))
    ensures BeUintAt(d, p2, 2) == Ok(Decoded(bitmap, p3))
    ensures U8At(d, p3) == Ok(Decoded(special, p3 + 1))
    ensures 0 < e && TagListAt(dict, |ids| + 1, d, p3 + 1) == Ok(Decoded(TagList(ids, tags), e - 1))
    ensures U8At(d, e - 1) == Ok(Decoded(flags, e))
  {
    HeadLayout(d, p, s, size, bitmap, special, ids, flags, p1, p2, p3, e);
    HeadFrontRead(debug, d, p, s, size, bitmap, p1, p2, p3);
    TagListPlaced(dict, d, p3 + 1, ids, tags, e - 1);
  }

  /** The signature, the way's size and its sub-tile bitmap read back as themselves. */
  lemma HeadFrontRead(debug: bool, d: seq<Byte>, p: nat, s: seq<Byte>, size: nat, bitmap: nat, p1: nat, p2: nat, p3: nat)
    requires |s| == (if debug then 16 else 0) && bitmap < 0x1_0000
    requires Holds(d, p, s) && p1 == p + |s|
    requires Holds(d, p1, EncodeVbeU(size)) && p2 == p1 + |EncodeVbeU(size)|
    requires Holds(d, p2, BeBytes(bitmap, 2)) && p3 == p2 + 2
    ensures SignatureAt(d, p, debug) == Ok(Decoded(s, p1))
    ensures VbeUIntAt(d, p1) == Ok(Decoded(size, p2))
    ensures BeUintAt(d, p2, 2) == Ok(Decoded(bitmap, p3))
  {
    SignaturePlaced(d, p, debug, s);
    VbeUIntRoundTrip(d, p1, size);
    BeUintAtPlaced(d, p2, bitmap, 2);
  }

  /** Where the pieces of an encoded head sit. */
  lemma HeadLayout(d: seq<Byte>, p: nat, s: seq<Byte>, size: nat, bitmap: nat, special: Byte, ids: seq<nat>, flags: Byte,
                   p1: nat, p2: nat, p3: nat, e: nat)
    requires Holds(d, p, HeadBytes(s, size, bitmap, special, ids, flags))
    requires p1 == p + |s| && p2 == p1 + |EncodeVbeU(size)| && p3 == p2 + 2
    requires e == p + |HeadBytes(s, size, bitmap, special, ids, flags)|
    ensures Holds(d, p, s) && Holds(d, p1, EncodeVbeU(size)) && Holds(d, p2, BeBytes(bitmap, 2))
         && U8At(d, p3) == Ok(Decoded(special, p3 + 1))
         && Holds(d, p3 + 1, EncodeIds(ids)) && 0 < e && e - 1 == p3 + 1 + |EncodeIds(ids)|
         && U8At(d, e - 1) == Ok(Decoded(flags, e))
  {
    var sizeBytes := EncodeVbeU(size);
    var bitmapBytes := BeBytes(bitmap, 2);
    var idBytes := EncodeIds(ids);
    HoldsSplit(d, p, s, sizeBytes + (bitmapBytes + ([special] + (idBytes + [flags]))));
    HoldsSplit(d, p1, sizeBytes, bitmapBytes + ([special] + (idBytes + [flags])));
    HoldsSplit(d, p2, bitmapBytes, [special] + (idBytes + [flags]));
    HoldsCons(d, p3, special, idBytes + [flags]);
    HoldsSplit(d, p3 + 1, idBytes, [flags]);
    assert d[p3 + 1 + |idBytes| + 0] == [flags][0];
  }

  /** A head is its six parts, read one after another. */
  lemma WayHeadParts(dict: seq<seq<Byte>>, debug: bool, d: seq<Byte>, p: nat, s: seq<Byte>, size: nat, bitmap: nat,
                     special: Byte, layer: int, ids: seq<nat>, tags: seq<Tag>, flags: Byte,
                     p1: nat, p2: nat, p3: nat, e: nat)
    requires SignatureAt(d, p, debug) == Ok(Decoded(s, p1))
    requires VbeUIntAt(d, p1) == Ok(Decoded(size, p2))
    requires BeUintAt(d, p2, 2) == Ok(Decoded(bitmap, p3))
    requires U8At(d, p3) == Ok(Decoded(special, p3 + 1))
    requires LayerOf(special) == layer && TagCountOf(special) == |ids| + 1
    requires 0 < e && TagListAt(dict, |ids| + 1, d, p3 + 1) == Ok(Decoded(TagList(ids, tags), e - 1))
    requires U8At(d, e - 1) == Ok(Decoded(flags, e))
    ensures WayHeadAt(dict, debug, d, p) == Ok(Decoded(WayHead(bitmap, layer, TagList(ids, tags), flags), e))
  {
  }

  /** The rest of an encoded way reads back as the way of the record. */
  lemma WayBodyPlaced(head: WayHead, d: seq<Byte>, p: nat, x: WayRecord, e: nat)
    requires AsciiText(x.texts.name) && AsciiText(x.texts.houseNumber) && AsciiText(x.texts.reference)
    requires IsSet(head.flags, WAY_FEATURE_NAME) == x.texts.name.Some?
    requires IsSet(head.flags, WAY_FEATURE_HOUSE_NUMBER) == x.texts.houseNumber.Some?
    requires IsSet(head.flags, WAY_FEATURE_REF) == x.texts.reference.Some?
    requires IsSet(head.flags, WAY_FEATURE_LABEL_POSITION) == x.labelPosition.Some?
    requires !IsSet(head.flags, WAY_FEATURE_DATA_BLOCKS_BYTE)
    requires Holds(d, p, EncodeWayBody(x)) && e == p + |EncodeWayBody(x)|
    ensures WayBodyAt(head, d, p)
         == Ok(Decoded(Way(head.subTileBitmap, head.layer, head.list.ids, Some(head.list.tags + TextTagsOf(x.texts)),
                           x.labelPosition, []), e))
  {
    var q1 := p + |EncodeText(x.texts.name)|;
    var r1 := q1 + |EncodeText(x.texts.houseNumber)|;
    var q := r1 + |EncodeText(x.texts.reference)|;
    var r := q + |EncodeLabel(x.labelPosition)|;
    WayBodyLayout(d, p, x, q1, r1, q, r, e);
    WayBodyFromPieces(head, d, p, x.texts, x.labelPosition, q1, r1, q, r, e);
  }

  /** The body read from its pieces, each already in place. */
  lemma WayBodyFromPieces(head: WayHead, d: seq<Byte>, p: nat, texts: WayTexts, position: Option<LatLong>,
                          q1: nat, r1: nat, q: nat, r: nat, e: nat)
    requires AsciiText(texts.name) && AsciiText(texts.houseNumber) && AsciiText(texts.reference)
    requires IsSet(head.flags, WAY_FEATURE_NAME) == texts.name.Some?
    requires IsSet(head.flags, WAY_FEATURE_HOUSE_NUMBER) == texts.houseNumber.Some?
    requires IsSet(head.flags, WAY_FEATURE_REF) == texts.reference.Some?
    requires IsSet(head.flags, WAY_FEATURE_LABEL_POSITION) == position.Some?
    requires !IsSet(head.flags, WAY_FEATURE_DATA_BLOCKS_BYTE)
    requires Holds(d, p, EncodeText(texts.name)) && q1 == p + |EncodeText(texts.name)|
    requires Holds(d, q1, EncodeText(texts.houseNumber)) && r1 == q1 + |EncodeText(texts.houseNumber)|
    requires Holds(d, r1, EncodeText(texts.reference)) && q == r1 + |EncodeText(texts.reference)|
    requires Holds(d, q, EncodeLabel(position)) && r == q + |EncodeLabel(position)|
    requires Holds(d, r, [0]) && e == r + 1
    ensures WayBodyAt(head, d, p)
         == Ok(Decoded(Way(head.subTileBitmap, head.layer, head.list.ids, Some(head.list.tags + TextTagsOf(texts)),
                           position, []), e))
  {
    var doubleDelta := IsSet(head.flags, WAY_FEATURE_DOUBLE_DELTA_ENCODING);
    TextTagsPlaced(head.flags, d, p, texts, q1, r1, q);
    LabelPlaced(head.flags, d, q, position, r);
    EmptyDataBlock(doubleDelta, d, r);
    WayBodyParts(head, d, p, doubleDelta, Decoded(TextTagsOf(texts), q), Decoded(position, r), Decoded([[]], e));
  }

  /** Where the pieces of an encoded body sit. */
  lemma WayBodyLayout(d: seq<Byte>, p: nat, x: WayRecord, q1: nat, r1: nat, q: nat, r: nat, e: nat)
    requires Holds(d, p, EncodeWayBody(x)) && e == p + |EncodeWayBody(x)|
    requires q1 == p + |EncodeText(x.texts.name)|
    requires r1 == q1 + |EncodeText(x.texts.houseNumber)|
    requires q == r1 + |EncodeText(x.texts.reference)|
    requires r == q + |EncodeLabel(x.labelPosition)|
    ensures Holds(d, p, EncodeText(x.texts.name)) && Holds(d, q1, EncodeText(x.texts.houseNumber))
         && Holds(d, r1, EncodeText(x.texts.reference)) && Holds(d, q, EncodeLabel(x.labelPosition))
         && Holds(d, r, [0]) && e == r + 1
  {
    var name := EncodeText(x.texts.name);
    var house := EncodeText(x.texts.houseNumber);
    var reference := EncodeText(x.texts.reference);
    var position := EncodeLabel(x.labelPosition);
    HoldsSplit(d, p, name + (house + reference), position + [0]);
    HoldsSplit(d, p, name, house + reference);
    HoldsSplit(d, q1, house, reference);
    HoldsSplit(d, q, position, [0]);
  }

  /** A body whose block count is implicit is its texts, its position and one data block. */
  lemma WayBodyParts(head: WayHead, d: seq<Byte>, p: nat, doubleDelta: bool,
                     texts: Decoded<seq<Tag>>, position: Decoded<Option<LatLong>>, blocks: Decoded<seq<seq<WayCoordinateBlock>>>)
    requires !IsSet(head.flags, WAY_FEATURE_DATA_BLOCKS_BYTE)
    requires doubleDelta == IsSet(head.flags, WAY_FEATURE_DOUBLE_DELTA_ENCODING)
    requires TextTagsAt(head.flags, d, p) == Ok(texts)
    requires LabelPositionAt(head.flags, d, texts.next) == Ok(position)
    requires Many(DataBlockParser(doubleDelta), d, position.next, 1) == Ok(blocks)
    ensures WayBodyAt(head, d, p)
         == Ok(Decoded(Way(head.subTileBitmap, head.layer, head.list.ids, Some(head.list.tags + texts.value),
                           position.value, []), blocks.next))
  {
  }

  /** The text fields read back as their tags. */
  lemma TextTagsPlaced(flags: Byte, d: seq<Byte>, p: nat, texts: WayTexts, q: nat, r: nat, e: nat)
    requires AsciiText(texts.name) && AsciiText(texts.houseNumber) && AsciiText(texts.reference)
    requires IsSet(flags, WAY_FEATURE_NAME) == texts.name.Some?
    requires IsSet(flags, WAY_FEATURE_HOUSE_NUMBER) == texts.houseNumber.Some?
    requires IsSet(flags, WAY_FEATURE_REF) == texts.reference.Some?
    requires Holds(d, p, EncodeText(texts.name)) && q == p + |EncodeText(texts.name)|
    requires Holds(d, q, EncodeText(texts.houseNumber)) && r == q + |EncodeText(texts.houseNumber)|
    requires Holds(d, r, EncodeText(texts.reference)) && e == r + |EncodeText(texts.reference)|
    ensures TextTagsAt(flags, d, p) == Ok(Decoded(TextTagsOf(texts), e))
  {
    KeysAreAscii();
    TextTagPlaced(flags, WAY_FEATURE_NAME, TAG_KEY_NAME, d, p, texts.name, q);
    TextTagPlaced(flags, WAY_FEATURE_HOUSE_NUMBER, TAG_KEY_HOUSE_NUMBER, d, q, texts.houseNumber, r);
    TextTagPlaced(flags, WAY_FEATURE_REF, TAG_KEY_REF, d, r, texts.reference, e);
    TextTagsParts(flags, d, p, Decoded(TextTagOf(TAG_KEY_NAME, texts.name), q),
                  Decoded(TextTagOf(TAG_KEY_HOUSE_NUMBER, texts.houseNumber), r),
                  Decoded(TextTagOf(TAG_KEY_REF, texts.reference), e));
  }

  /** The text fields are their three parts, read one after another. */
  lemma TextTagsParts(flags: Byte, d: seq<Byte>, p: nat, name: Decoded<seq<Tag>>, houseNumber: Decoded<seq<Tag>>,
                      reference: Decoded<seq<Tag>>)
    requires TextTagAt(flags, WAY_FEATURE_NAME, TAG_KEY_NAME, d, p) == Ok(name)
    requires TextTagAt(flags, WAY_FEATURE_HOUSE_NUMBER, TAG_KEY_HOUSE_NUMBER, d, name.next) == Ok(houseNumber)
    requires TextTagAt(flags, WAY_FEATURE_REF, TAG_KEY_REF, d, houseNumber.next) == Ok(reference)
    ensures TextTagsAt(flags, d, p) == Ok(Decoded(name.value + houseNumber.value + reference.value, reference.next))
  {
  }

  /** A text field reads back as its tag, or as nothing when its bit is clear. */
  lemma TextTagPlaced(flags: Byte, mask: Byte, key: seq<Byte>, d: seq<Byte>, p: nat, text: Option<seq<Byte>>, e: nat)
    requires IsAscii(key) && AsciiText(text) && IsSet(flags, mask) == text.Some?
    requires Holds(d, p, EncodeText(text)) && e == p + |EncodeText(text)|
    ensures TextTagAt(flags, mask, key, d, p) == Ok(Decoded(TextTagOf(key, text), e))
  {
    if text.Some? {
      AsciiIsUtf8(text.value);
      VbeStringRoundTrip(d, p, text.value);
      TextTagFrom(flags, mask, key, d, p, text.value, e);
    }
  }

  /** A set bit and a string that reads back give the tag of that string. */
  lemma TextTagFrom(flags: Byte, mask: Byte, key: seq<Byte>, d: seq<Byte>, p: nat, s: seq<Byte>, e: nat)
    requires IsSet(flags, mask) && IsAscii(key) && IsAscii(s)
    requires VbeStringAt(d, p) == Ok(Decoded(s, e))
    ensures TextTagAt(flags, mask, key, d, p) == Ok(Decoded([NewTag(key, s).value], e))
  {
  }

  /** The position reads back as itself, or as nothing when its bit is clear. */
  lemma LabelPlaced(flags: Byte, d: seq<Byte>, p: nat, position: Option<LatLong>, e: nat)
    requires IsSet(flags, WAY_FEATURE_LABEL_POSITION) == position.Some?
    requires Holds(d, p, EncodeLabel(position)) && e == p + |EncodeLabel(position)|
    ensures LabelPositionAt(flags, d, p) == Ok(Decoded(position, e))
  {
    if position.Some? {
      LatLongRoundTrip(d, p, position.value);
    }
  }

  /** A single zero byte is a data block with no coordinate blocks, in either encoding. */
  lemma EmptyDataBlock(doubleDelta: bool, d: seq<Byte>, p: nat)
    requires Holds(d, p, [0])
    ensures Many(DataBlockParser(doubleDelta), d, p, 1) == Ok(Decoded([[]], p + 1))
  {
    assert EncodeVbeU(0) == [0];
    VbeUIntRoundTrip(d, p, 0);
    assert DataBlockAt(doubleDelta, d, p) == Ok(Decoded([], p + 1));
    assert Many(DataBlockParser(doubleDelta), d, p + 1, 0) == Ok(Decoded([], p + 1));
    var none: seq<WayCoordinateBlock> := [];
    var nothing: seq<seq<WayCoordinateBlock>> := [];
    assert [none] + nothing == [none];
  }
}
