# mapsforge-rs decode engine in Dafny

This project models the binary decoder of `mapsforge-rs`, a reader for Mapsforge `.map`
vector map files. It covers these parts:

- **The VBE layer** (`utils.dfy`). It reads unsigned and signed variable-byte integers,
  VBE-length-prefixed UTF-8 strings and microdegree coordinates.
- **Tags** (`tag.dfy`). It models `Tag::new` with the real 64-bit wrapping arithmetic of
  `hash_tag_parameter`, and the `split_terminator` on `'='` that turns a dictionary
  entry into a key and a value.
- **The header** (`header.dfy`). It covers:
  - the magic and version checks;
  - the big-endian fixed fields and the bounding-box check;
  - the optional fields gated by the flags byte;
  - the two tag dictionaries and the zoom-interval table;
  - the final `is_valid` check.
- **The tile index** (`tile.dfy`, `MapFile::open`). For each zoom interval it seeks to
  the sub-file, checks the index signature in debug files, and reads one 5-byte entry
  per tile. An entry holds a water bit and a 39-bit offset.
- **The zoom table** (`blocks.dfy`, `read_zoom_table`).
- **The POI decoder** (`poi.dfy`, `process_pois`).
- **The way decoder** (`way.dfy`). It models `process_ways` and the single- and
  double-delta coordinate decoders.

## How it is modelled

- **The cursor.** The byte source is a `Reader` class (`stream.dfy`). It holds the whole
  stream as `data` and the cursor as the mutable field `pos`.
- **Two descriptions of every read:**
  - a specification function `XAt(d, p)`, giving the value and the position after it,
    or the error;
  - a method on the reader that does what the Rust function does, step by step, with
    the same loops.
- **The link between them.** Each method ensures `Tie(r, rd.pos) == XAt(rd.data,
  old(rd.pos))`: the method returns what the specification says and leaves the cursor
  where the specification says.
- **Properties.** They are lemmas about the specification functions:
  - round trips from a model encoder back through the decoder;
  - the shape of every decoded record;
  - the order in which checks fail;
  - the longitude clamp.
- **Units.** Coordinates stay in integer microdegrees, the unit they have in the file.
  Text stays as its UTF-8 bytes.
- **Errors.** Every `?` becomes `Err(Io)` or the named `MapforgeError`. The places where
  the Rust code aborts become `Err(Panic(kind))`:
  - the `expect` on invalid UTF-8;
  - the `panic!` on an out-of-range tag id;
  - `kv[1]` past the end;
  - `unwrap` on non-ASCII tag text;
  - u8 and u32 overflow in a debug build.

Where the code and the format's description disagree, the model follows the code:

- **POI and way tag lists.** The loop `for _ in 1..number_of_tags` reads one tag id
  fewer than the special byte's count states, and none for a count of 0 or 1
  (`TagListShape`).
- **Double-delta decoding.** `previous_single_delta_*` is never updated. Every node is
  therefore the previous node plus the pair just read, clamped near the date line. A
  double-delta block decodes as the format's single-delta encoding (a running sum)
  would, except for the clamp (`NodesAreRunningSums`, `DeltasOfInverts`).
- **Single-delta decoding.** The code's single-delta decoder does not accumulate,
  contrary to its own comment at src/way.rs:193-195. It keeps the initial position as
  node 0 and pushes the remaining pairs as they are read, without adding them to the
  previous node (`SingleDeltaRoundTrip`).
- **Coordinate blocks are dropped.** They are decoded, checked for errors and then
  discarded: a decoded way's `coordinateBlocks` is always empty (`WayBodyShape`).
- **Aborts, not errors.** A tag id at or past the end of the dictionary aborts the
  process instead of returning an error. So does invalid UTF-8 in a string.
- **Layer.** The layer is the raw high nibble, 0 to 15, with no sign.

## Model

| member | source | states |
|---|---|---|
| ByteStream.Reader.constructor | src/tile.rs:20-21 | a reader over the file's bytes starts at position 0 |
| ByteStream.Reader.Seek | src/tile.rs:28 | `seek(SeekFrom::Start)` puts the cursor at the given absolute position |
| ByteStream.Reader.ReadU8 | src/header.rs:92 | `read_u8` returns the byte under the cursor and advances by one, or fails with Io at the end |
| ByteStream.Reader.ReadExact | src/header.rs:68-69 | `read_exact` yields exactly the next `n` bytes and advances by `n`, or fails with Io when fewer remain |
| ByteStream.Reader.ReadBeUint | src/header.rs:76-77 | `read_u16/u32/u64::<BigEndian>` gives the big-endian value of the next 2/4/8 bytes |
| ByteStream.Reader.ReadI32 | src/header.rs:28 | `read_i32::<BigEndian>` gives the two's-complement value of the next 4 bytes |
| ByteStream.Many | src/header.rs:142-145 | a counted read loop yields exactly `n` items when it succeeds, and nothing is read for `n = 0` |
| ByteStream.BeRoundTrip | src/header.rs:76-84 | a number below 256^w written big-endian in `w` bytes reads back as itself |
| ByteStream.BeUintAtPlaced | src/header.rs:76-84 | a big-endian field in place reads back as its number and advances by its width |
| ByteStream.I32AtPlaced | src/header.rs:28-31 | a 32-bit signed value written two's-complement reads back as itself |
| ByteStream.I32AtRange | src/header.rs:28-31 | every `read_i32` result lies in [-2^31, 2^31) |
| ByteStream.BeValueBound | src/header.rs:76-84 | a big-endian value of `k` bytes is below 256^k, so every unsigned field fits its width |
| Utils.VbeUIntStep | src/utils.rs:45-55 | a byte with bit 0x80 adds its seven low bits at the current shift and continues at the next byte |
| Utils.VbeUIntLast | src/utils.rs:48-57 | a byte without bit 0x80 ends the number, contributing its value at the current shift |
| Utils.ReadVbeUInt | src/utils.rs:39-58 | `read_vbe_u_int` returns the VBE unsigned value under the cursor and stops just after its last byte |
| Utils.VbeSIntStep | src/utils.rs:66-84 | a continuation byte of a signed VBE number adds seven data bits and continues |
| Utils.VbeSIntLast | src/utils.rs:69-78 | the last byte contributes six bits and bit 0x40 negates the result |
| Utils.ReadVbeSInt | src/utils.rs:60-85 | `read_vbe_s_int` returns the signed VBE value under the cursor and stops after its last byte |
| Utils.ReadMicrodegrees | src/utils.rs:87-91 | `read_microdegrees` reads one signed VBE value, kept in microdegrees |
| Utils.ReadLatLong | src/poi.rs:27-30 | a position is two microdegree reads, latitude first |
| Utils.VbeStringAt | src/utils.rs:32-36 | a decoded string ends inside the stream and is valid UTF-8 |
| Utils.ReadStringLength | src/utils.rs:16-30 | the length loop of `read_vbe_u` reads the same VBE unsigned number as `read_vbe_u_int` |
| Utils.ReadVbeU | src/utils.rs:15-37 | `read_vbe_u` returns the `length` bytes after the VBE length; Io if they are missing; the UTF-8 abort if they are not UTF-8 |
| UtilsProperties.VbeUIntRoundTrip | src/utils.rs:39-58 | every natural number encoded as VBE decodes to itself, consuming exactly its encoding |
| UtilsProperties.VbeUIntShape | src/utils.rs:39-58 | a read ends at the first byte below 0x80; the value is the sum of the 7-bit groups, least significant first; Io exactly when no byte ends the number |
| UtilsProperties.SignedGroupsRoundTrip | src/utils.rs:60-85 | a magnitude written in signed VBE groups with a sign bit reads back as that magnitude and sign |
| UtilsProperties.VbeSIntRoundTrip | src/utils.rs:60-85 | every integer, negative ones included, encoded as signed VBE decodes to itself |
| UtilsProperties.LatLongRoundTrip | src/poi.rs:27-30 | a position written as two signed VBE values reads back as itself |
| UtilsProperties.VbeSMagnitudeShape | src/utils.rs:60-85 | a signed read ends at the first byte below 0x80; its sign is bit 0x40 of that byte; its magnitude is the sum of the groups |
| UtilsProperties.VbeSIntSign | src/utils.rs:69-78 | the result is the magnitude, negated exactly when the sign bit is set and the magnitude is not 0 |
| UtilsProperties.VbeStringRoundTrip | src/utils.rs:15-37 | a UTF-8 string behind its VBE length reads back as itself |
| UtilsProperties.VbeStringOutcome | src/utils.rs:32-36 | after a good length, the result is the next `length` bytes, Io iff fewer remain, else the UTF-8 abort iff they are not UTF-8 |
| UtilsProperties.VbeUIntTestVectors | tests/test_utils.rs:24-40 | [0x05] is 5, [0x00] is 0, [0x82, 0x01] is 130 |
| UtilsProperties.VbeSIntTestVectors | tests/test_utils.rs:42-68 | [0x05] is 5, [0x00] is 0, [0x45] is -5, [0xc2, 0x40] is -66, [0x81, 0x41] is -129 |
| UtilsProperties.VbeStringTestVectors | tests/test_utils.rs:4-22 | "Hello", the empty string and 130 'A's read back; a truncated string is Io; byte 0xFF is the UTF-8 abort |
| Tags.HashFrom | src/utils.rs:101-107 | the hash loop with `wrapping_add`/`wrapping_mul` stays within a 64-bit `usize` |
| Tags.NewTag | src/tag.rs:9-16 | `Tag::new` keeps key and value unchanged with the hash codes of both; the unwrap panics exactly when either text is not ASCII |
| Tags.Split | src/poi.rs:42 | splitting on a separator always yields at least one piece |
| TagsProperties.TagConstants | src/tag.rs:3-6 | the separator is '=' and the three keys are the ASCII bytes of "name", "addr:housenumber" and "ref" |
| TagsProperties.WrappingMulPow31 | src/utils.rs:105 | multiplying by 31 one step at a time modulo 2^64 equals `wrapping_mul(31.wrapping_pow(k))` |
| TagsProperties.SplitJoin | src/poi.rs:42 | joining the pieces with the separator gives back the text, and no piece contains the separator |
| TagsProperties.JoinSplit | src/poi.rs:42 | joining the pieces of a split with the separator gives back the text |
| TagsProperties.SplitPiecesFree | src/poi.rs:42 | no piece of a split contains the separator |
| TagsProperties.SplitSingle | src/poi.rs:42 | a split has a single piece iff the text has no separator, and that piece is the text |
| TagsProperties.SplitAfterKey | src/poi.rs:42 | a separator-free key in front of '=' becomes the first piece, and the rest splits on its own |
| TagsProperties.TwoPiecesExactly | src/poi.rs:42-43 | `split_terminator` yields a second piece (so `kv[1]` exists) iff '=' occurs before the last byte |
| TagsProperties.TagFromKeyValue | src/poi.rs:41-44 | the entry "key=value" with a non-empty value becomes `Tag::new(key, value)` |
| TagsProperties.TagStopsAtSecondSeparator | src/poi.rs:41-44 | in "k=v=rest" only `k` and `v` are used |
| TagsProperties.TagWithoutValuePanics | src/poi.rs:42-43 | "key" and "key=" have no second piece, so `kv[1]` aborts |
| TagsProperties.TagCodesFollowText | src/tag.rs:9-16 | equal keys give equal key codes and equal values give equal value codes |
| Blocks.ZoomTableAt | src/blocks.rs:9-18 | u8 overflow (max below min, or max 255) panics; otherwise there is one row per zoom level from min to max |
| Blocks.ReadCounts | src/blocks.rs:12-13 | a row is the POI count then the way count, two VBE unsigned numbers |
| Blocks.ReadZoomTable | src/blocks.rs:9-18 | `read_zoom_table` returns the rows for every zoom level, in ascending order, or the first error |
| BlocksProperties.CountsPlaced | src/blocks.rs:12-13 | a written row reads back as its two counts |
| BlocksProperties.CountsListPlaced | src/blocks.rs:11-16 | written rows read back as themselves, in order, consuming exactly their bytes |
| BlocksProperties.ZoomTableRoundTrip | src/blocks.rs:9-18 | the rows written for an interval read back as the zoom table, row `i` for zoom level `min + i` |
| BlocksProperties.ZoomTableConsumes | src/blocks.rs:11-13 | a table of `n` rows takes at least `2n` bytes |
| Header.ReadBoundingBox | src/header.rs:25-45 | `read_from_buffer` reads four i32 (min lat, min lon, max lat, max lon) and applies the validity check |
| Header.OptionalStartPositionAt | src/header.rs:100-106 | the start position is read iff bit 0x40 is set, and present iff read |
| Header.OptionalZoomLevelAt | src/header.rs:110-114 | the start zoom level is read iff bit 0x20 is set, and present iff read |
| Header.OptionalTextAt | src/header.rs:116-136 | a text field is read iff its bit is set, and present iff read |
| Header.OptionalFieldsAt | src/header.rs:98-136 | each optional field is present exactly when its flag bit is set |
| Header.ReadOptionalFields | src/header.rs:98-136 | the optional fields are read in fixed order, each when its bit is set |
| Header.ReadTagDictionary | src/header.rs:139-153 | a dictionary is a u16 count followed by that many VBE strings, in file order |
| Header.ReadTags | src/header.rs:142-145 | the dictionary loop reads `count` strings in order, or stops at the first error |
| Header.ReadZoomInterval | src/header.rs:161-176 | a zoom interval is base, min and max (u8), then sub-file start and size (u64) |
| Header.ReadZoomIntervals | src/header.rs:156-179 | the table has as many intervals as its u8 count, in file order |
| Header.ReadMagic | src/header.rs:68-74 | the first 20 bytes must be "mapsforge binary OSM"; otherwise InvalidMagic, or Io if the file is shorter |
| Header.ReadHeaderVbeU | src/header.rs:211-233 | `MapHeader::read_vbe_u` reads the same strings as `read_vbe_u` |
| Header.ReadFromFile | src/header.rs:67-209 | `read_from_file` reads every field in file order and applies each check where the source does |
| HeaderProperties.BoundingBoxDecision | src/header.rs:40-62 | a written box is accepted, as itself, exactly when its bounds lie within the globe and min <= max on both axes |
| HeaderProperties.BoundingBoxExamples | tests/header_test.rs:27-58 | the test bytes for (10, 20, 40, 50) microdegrees decode to that box; those with min lat 90 above max lat 40 are InvalidBoundingBox; a latitude past 90 degrees is invalid |
| HeaderProperties.SmallBox | src/header.rs:25-45 | four i32 fields holding small non-negative values read as that box, accepted exactly when the box is valid |
| HeaderProperties.StartPositionPlaced | src/header.rs:101-103 | a written start position reads back as itself |
| HeaderProperties.OptionalStartPositionPlaced | src/header.rs:100-106 | an optional start position reads back as itself when its bit matches its presence |
| HeaderProperties.OptionalZoomLevelPlaced | src/header.rs:110-114 | an optional zoom level reads back as itself when its bit matches its presence |
| HeaderProperties.OptionalTextPlaced | src/header.rs:116-136 | an optional text reads back as itself when its bit matches its presence |
| HeaderProperties.StringsPlaced | src/header.rs:142-145 | a list of written UTF-8 strings reads back as itself, in order |
| HeaderProperties.StringsCons | src/header.rs:142-145 | the first string and then the rest read back as the whole list |
| HeaderProperties.TagDictionaryPlaced | src/header.rs:139-145 | a written dictionary reads back as its entries, in order, consuming exactly its bytes |
| HeaderProperties.ZoomIntervalPlaced | src/header.rs:161-176 | a written interval is 19 bytes and reads back as itself |
| HeaderProperties.ZoomIntervalsHead | src/header.rs:160-179 | the first written interval reads back and the rest follow 19 bytes later |
| HeaderProperties.ZoomIntervalsPlaced | src/header.rs:156-179 | written intervals read back as themselves, in order |
| HeaderProperties.MagicChecked | src/header.rs:68-74 | the magic is accepted iff 20 bytes are there and spell the signature; Io if short; InvalidMagic otherwise |
| HeaderProperties.VersionCheckedFirst | src/header.rs:76-81 | with a good magic, a version below 3 is UnsupportedVersion(version), whatever follows |
| HeaderProperties.FixedLayout | src/header.rs:68-92 | the fixed fields lie at offsets 0, 20, 24, 28, 36, 44 and 60, then the projection, then the flags byte |
| HeaderProperties.HeaderStartsWithFixedPart | src/header.rs:182-202 | the header carries the fixed fields unchanged |
| HeaderProperties.OnlyHeaderSizeLeft | src/header.rs:204-208 | once every field is read, the header is rejected exactly when `header_size` is 0, with InvalidHeaderSize(0) |
| HeaderProperties.NoOptionalFields | src/header.rs:98-136 | with no optional bit set, nothing is read |
| HeaderProperties.PresenceExamples | src/header.rs:15-21 | bit 0x80 and bits 0x01–0x02 announce no field; 0x7C announces all five |
| HeaderProperties.TagDictionaryLength | src/header.rs:139-145 | a dictionary has exactly as many entries as its u16 count |
| HeaderProperties.AcceptedHeader | src/header.rs:182-208 | an accepted header passes `is_valid`, has its stated number of intervals, and has each optional field iff its bit is set |
| HeaderProperties.HeaderShape | src/header.rs:98-179 | the interval count and the optional fields agree with the count and the flags read |
| TileIndex.ExtentOf | src/tile.rs:94-95 | `x_max - x_min + 1` is computed in i64 and is the overflow panic exactly when the difference or the sum leaves the i64 range |
| TileIndex.TileCount | src/tile.rs:94-99 | the tile count is the u32 product of the two truncated i64 extents, or the overflow panic |
| TileIndex.ReadEntry | src/tile.rs:45-59 | an entry is five bytes: the water flag is bit 0x80 of the first; the offset is the 39 bits left after masking it |
| TileIndex.ReadIntervalIndex | src/tile.rs:27-60 | seek to the sub-file, check the signature in debug files, then read one entry per tile |
| TileIndex.IndicesAt | src/tile.rs:27-63 | the indices are read one per zoom interval, in header order |
| TileIndex.IndicesStep | src/tile.rs:27-63 | one interval's index is appended to those before it, or its error ends the loop |
| TileIndex.Open | src/tile.rs:19-70 | `open` reads the header at offset 0, then every interval's index, and returns both or the first error |
| TileIndexProperties.TileCountProduct | src/tile.rs:94-99 | when the extents are positive and their product fits 32 bits, the count is that product |
| TileIndexProperties.TileCountOverflow | src/tile.rs:97 | a product of 2^32 or more is the debug-build overflow panic |
| TileIndexProperties.TileCountExtentOverflow | src/tile.rs:94-95 | an extent outside the i64 range is the debug-build overflow panic, whatever the other extent |
| TileIndexProperties.TileCountWorldAtZoom63 | src/tile.rs:77-95 | columns 0 to i64::MAX, the saturated bounds of a world map at zoom 63 or more, are the overflow panic |
| TileIndexProperties.FirstByteWeight | src/tile.rs:55-57 | the first of five offset bytes weighs 2^32 and the other four form a number below 2^32 |
| TileIndexProperties.EntryDecoding | src/tile.rs:45-58 | an entry reads iff five bytes remain; water iff bit 0x80 is set; the offset is the other 39 bits, below 2^39 |
| TileIndexProperties.WaterBitIndependent | src/tile.rs:49-57 | flipping the water bit flips the flag and leaves the offset unchanged |
| TileIndexProperties.EntryRoundTrip | src/tile.rs:45-58 | a written entry reads back as itself |
| TileIndexProperties.EntriesShape | src/tile.rs:43-60 | `n` entries read iff `5n` bytes remain; entry `i` comes from bytes `5i` to `5i+5` |
| TileIndexProperties.SignatureRejected | src/tile.rs:30-37 | in a debug file, a sub-file not starting with "+++IndexStart+++" is InvalidIndexSignature |
| TileIndexProperties.IntervalIndexShape | src/tile.rs:27-60 | an index has the signature in debug files, one entry per counted tile, and each entry from its own five bytes |
| TileIndexProperties.IndicesSucceed | src/tile.rs:27-63 | all indices read iff each interval's index reads |
| TileIndexProperties.IndicesInOrder | src/tile.rs:27-63 | index `i` is the index of interval `i` |
| TileIndexProperties.IndicesFirstError | src/tile.rs:27-63 | a failure is the error of the first interval whose index cannot be read |
| TileIndexProperties.OpenShape | src/tile.rs:19-70 | `open` succeeds iff the header and every index read; there is one index per interval, index `i` with as many entries as interval `i`'s tile count |
| Pois.SignatureAt | src/poi.rs:15-23 | in debug mode 16 signature bytes are read, and not checked; otherwise nothing is read |
| Pois.ReadSignature | src/poi.rs:15-23 | the signature read consumes 16 bytes in debug mode and none otherwise |
| Pois.LayerOf | src/poi.rs:33 | the layer is the high nibble, 0 to 15 |
| Pois.TagCountOf | src/poi.rs:34 | the tag count is the low nibble, below 16 |
| Pois.ReadTagRef | src/poi.rs:39-48 | a tag id is a VBE number, resolved through the dictionary; an id past the end panics |
| Pois.ReadTagList | src/poi.rs:38-49 | the tag loop reads `count - 1` ids, pushing each id and its tag |
| Pois.ReadPoi | src/poi.rs:15-51 | one POI is its signature, position, special byte and tag references, in that order |
| Pois.ReadPoiStep | src/poi.rs:14-52 | one iteration of the POI loop appends a POI or ends the loop with its error |
| Pois.ReadPois | src/poi.rs:14-52 | the POI loop reads `count` POIs in stream order, or the first error |
| Pois.ProcessPois | src/poi.rs:11-54 | `process_pois` returns the requested number of POIs, or the first error |
| PoisProperties.TagRefOutcome | src/poi.rs:39-48 | a reference succeeds iff the id is in range and its entry gives a tag; otherwise the out-of-range panic or the entry's error |
| PoisProperties.TagRefsResolved | src/poi.rs:38-49 | every reference read is resolved against the dictionary |
| PoisProperties.TagListShape | src/poi.rs:38-49 | a count of 0 or 1 reads nothing; a count `c` reads `c - 1` resolved ids |
| PoisProperties.PoiShape | src/poi.rs:14-52 | a decoded POI has layer 0–15, at most 14 resolved tags, and was read inside the stream |
| PoisProperties.VbeSIntAdvances | src/poi.rs:27-30 | a position read consumes at least one byte and stays inside the stream |
| PoisProperties.TagRefsWithin | src/poi.rs:38-49 | tag references never read past the end or move backwards |
| PoisProperties.TagListWithin | src/poi.rs:38-49 | the tag list stays between where it starts and the end of the stream |
| PoisProperties.IdsPlaced | src/poi.rs:38-49 | written resolved ids read back as those ids paired with their tags |
| PoisProperties.TagRefPlaced | src/poi.rs:39-46 | a written id of a named entry reads back as the id and its tag |
| PoisProperties.IdsCons | src/poi.rs:38-49 | the first reference and then the rest read back as the whole list |
| PoisProperties.TagListPlaced | src/poi.rs:38-49 | written ids read back as the ids and their tags under a count one higher |
| PoisProperties.PoiLayout | src/poi.rs:15-49 | a written POI is its signature, position, special byte (layer*16 + count) and ids, in that order |
| PoisProperties.PoiRoundTrip | src/poi.rs:11-54 | every POI with resolved tags, written with its signature, reads back as itself, consuming exactly its bytes |
| PoisProperties.PoiPieces | src/poi.rs:15-51 | pieces in place read back as the POI |
| PoisProperties.SignaturePlaced | src/poi.rs:15-23 | the signature field reads back as its bytes, or as nothing outside debug mode |
| PoisProperties.PoiPlaced | src/poi.rs:15-51 | signature, position, special byte and tag list that each read back give the POI |
| PoisProperties.SpecialByte | src/poi.rs:32-34 | the byte layer*16 + n + 1 splits back into the layer and the count n + 1 |
| PoisProperties.PoiParts | src/poi.rs:15-51 | a POI is its four parts read one after another |
| Ways.DecodeSingleDelta | src/way.rs:184-203 | the initial position is the first node, and each further pair is pushed as it stands |
| Ways.ClampLongitude | src/way.rs:167-174 | a longitude less than 0.001 degrees past either date line is put on it; any other value is kept |
| Ways.NodesAfter | src/way.rs:157-179 | a double-delta block has one node per pair read |
| Ways.AdvanceOne | src/way.rs:161-178 | one more pair moves the position by one clamped step and appends that node |
| Ways.DecodeDoubleDelta | src/way.rs:145-182 | `decode_way_nodes_double_delta` reads the initial position and then adds each pair to the running position, clamping the longitude |
| Ways.DecodeCoordinateBlock | src/way.rs:131-135 | a coordinate block is decoded with the encoding the flags chose |
| Ways.ReadCoordinateBlocks | src/way.rs:130-137 | the inner loop reads `num_way_coordinates` blocks of `num_way_nodes` nodes each |
| Ways.ReadDataBlock | src/way.rs:123-137 | a data block is a VBE block count; at 0 it is skipped, otherwise a node count and the blocks follow |
| Ways.ReadDataBlocks | src/way.rs:121-138 | the data-block loop reads the announced number of data blocks in order |
| Ways.ReadTextTag | src/way.rs:63-68 | a text field is read as a VBE string and becomes a tag with its key iff its bit is set |
| Ways.ReadTextTags | src/way.rs:63-82 | name, house number and reference are read in that order, each when its bit is set |
| Ways.ReadLabelPosition | src/way.rs:86-95 | the label position is read iff bit 0x10 is set |
| Ways.ReadDataBlockCount | src/way.rs:98-105 | the data-block count is a VBE number iff bit 0x08 is set; otherwise it is 1 |
| Ways.ReadWayHead | src/way.rs:21-60 | signature, way data size, sub-tile bitmap (u16), special byte, tag ids and flags byte, in that order |
| Ways.ReadWayBody | src/way.rs:63-138 | text tags, label position, block count and blocks, as the flags byte dictates |
| Ways.ReadWay | src/way.rs:21-139 | one way is its head and then its body |
| Ways.ReadWayStep | src/way.rs:20-140 | one iteration of the way loop appends a way or ends the loop with its error |
| Ways.ReadWays | src/way.rs:20-140 | the way loop reads `count` ways in stream order, or the first error |
| Ways.ProcessWays | src/way.rs:17-143 | `process_ways` returns the requested number of ways, or the first error |
| WaysProperties.LatitudeIsRunningSum | src/way.rs:157-179 | the latitude is never clamped: it is the initial latitude plus every pair read |
| WaysProperties.LongitudeIsRunningSum | src/way.rs:162-174 | while the running longitude stays on the globe, it is the initial longitude plus every pair read |
| WaysProperties.NodesArePositions | src/way.rs:157-179 | node `k` is the position after the first `k + 1` pairs |
| WaysProperties.NodesAreRunningSums | src/way.rs:155-179 | each node's latitude, and on the globe its longitude, is the initial value plus the pairs so far (the previous delta stays 0) |
| WaysProperties.ClampFeedsNextStep | src/way.rs:167-174 | a clamped longitude is where the next step starts: an overshoot and its exact reversal end west of the start |
| WaysProperties.DeltasOfInverts | src/way.rs:157-179 | for any nodes on the globe, the pairs between consecutive nodes decode back to those nodes |
| WaysProperties.PairsPlaced | src/way.rs:192-199 | written pairs read back as themselves, in order |
| WaysProperties.BlockLayout | src/way.rs:149-159 | a written block is its initial position followed by its pairs |
| WaysProperties.BlockPairsRead | src/way.rs:157-159 | the pairs of a block read back where they were written |
| WaysProperties.SingleDeltaRoundTrip | src/way.rs:184-203 | a written single-delta block reads back as the initial position followed by the pairs exactly as written, not summed |
| WaysProperties.DoubleDeltaRoundTrip | src/way.rs:145-182 | nodes on the globe written as the differences between consecutive nodes read back as those nodes |
| WaysProperties.DoubleDeltaFromBytes | src/way.rs:145-182 | written pairs read back as the block of the nodes they lead to |
| WaysProperties.DoubleDeltaPlaced | src/way.rs:145-182 | an initial position and pairs that read back give the block of their nodes |
| WaysProperties.CoordinateBlockShape | src/way.rs:131-135 | a decoded block has the node count the encoding implies; in single delta the first node is the initial position |
| WaysProperties.DataBlockShape | src/way.rs:121-138 | a zero block count yields no blocks; otherwise the blocks share the one node count read |
| WaysProperties.TextTagShape | src/way.rs:63-68 | a text field yields one tag with its key when its bit is set, and none otherwise |
| WaysProperties.TextTagsShape | src/way.rs:63-82 | the text tags carry the keys of the set bits, in the order name, house number, ref |
| WaysProperties.SameTopBits | src/way.rs:10-15 | flag bytes that agree on their top six bits agree on every bit the decoder tests |
| WaysProperties.ReservedBitsIgnored | src/way.rs:118 | the two reserved flag bits do not change how the rest of a way is read |
| WaysProperties.TextTagsIgnoreReserved | src/way.rs:60-82 | the reserved bits do not change the text tags |
| WaysProperties.WayHeadShape | src/way.rs:21-60 | a decoded head has a 16-bit bitmap, layer 0–15 and at most 14 resolved tags |
| WaysProperties.WayBodyShape | src/way.rs:60-139 | a way keeps the head's fields, appends a text tag per set bit, has a label iff bit 0x10, and keeps no coordinates |
| WaysProperties.WayShape | src/way.rs:17-143 | a decoded way fits, its text keys follow its flags, and its label is present iff its bit is set |
| WaysProperties.WaysFit | src/way.rs:17-143 | every way `process_ways` returns fits |
| WaysProperties.FlagsOfBits | src/way.rs:10-15 | the flags byte built for a record has each bit set exactly when its field is present |
| WaysProperties.KeysAreAscii | src/tag.rs:4-6 | the three text keys are ASCII, so `Tag::new` accepts them |
| WaysProperties.WayRoundTrip | src/way.rs:20-139 | a way record written by the encoder reads back as the way of that record, consuming exactly its bytes |
| WaysProperties.WayFromHalves | src/way.rs:20-139 | a written head followed by a written body reads back as the way of the record, ending after the body |
| WaysProperties.WayHalves | src/way.rs:20-139 | an encoded way in place is its encoded head in place followed by its encoded body |
| WaysProperties.WayBodyOf | src/way.rs:63-138 | after the head, a written body reads back as the way of the record |
| WaysProperties.WayParts | src/way.rs:20-139 | a way is its head and then its body |
| WaysProperties.WayHeadPlaced | src/way.rs:21-60 | a written head reads back as the record's fields and flags byte |
| WaysProperties.HeadRead | src/way.rs:21-60 | each field of a written head reads back as itself at its offset |
| WaysProperties.HeadFrontRead | src/way.rs:21-39 | the signature, way size and sub-tile bitmap read back as themselves |
| WaysProperties.WayHeadParts | src/way.rs:21-60 | a head is its six parts read one after another |
| WaysProperties.WayBodyPlaced | src/way.rs:63-138 | a written body reads back as the texts, label and no coordinates |
| WaysProperties.WayBodyFromPieces | src/way.rs:63-138 | body pieces in place read back as the body |
| WaysProperties.WayBodyParts | src/way.rs:84-138 | a body with an implicit block count is its texts, its label and one data block |
| WaysProperties.TextTagsPlaced | src/way.rs:63-82 | written text fields read back as their tags |
| WaysProperties.TextTagsParts | src/way.rs:63-82 | the text tags are the three fields read one after another |
| WaysProperties.TextTagPlaced | src/way.rs:63-68 | a text field reads back as its tag, or as nothing when its bit is clear |
| WaysProperties.TextTagFrom | src/way.rs:63-68 | a set bit and a string that reads back give the tag of that string |
| WaysProperties.LabelPlaced | src/way.rs:86-95 | a written label reads back as itself, or as nothing when its bit is clear |
| WaysProperties.EmptyDataBlock | src/way.rs:121-127 | a single zero byte is a data block with no coordinate blocks, in either encoding |

## Left out

- **I/O.** `File::open`, `BufReader` and the stream are replaced by a byte sequence with
  a cursor. An I/O failure is reading past the end (`Io`). `Open` takes the file's
  bytes instead of a path.
- **Printing.** Every `println!` (debug messages and the POI and way signatures) is
  left out, because it has no effect on the result.
- **Floating point.** `microdegrees_to_degrees` and the `/ 1_000_000.0` conversions are
  left out: coordinates stay in integer microdegrees. Comparing degrees with ±90 and
  ±180 is the same as comparing microdegrees with ±90,000,000 and ±180,000,000. The
  clamp margin of 0.001 degrees is 1000 microdegrees.
- **calculate_total_tiles.** The Mercator tile range (floats, `tan`, `ln`, `floor`) is a
  function parameter `tileRange` returning the four `i64` bounds that the saturating
  `floor() as i64` casts produce. The checked i64 extents, their `as u32` truncation
  and the checked u32 product are modelled.
- **Shift overflow.** The VBE accumulators are unbounded integers. The overflow of
  `<< shift` past 32 or 64 bits on very long VBE runs is not modelled.
- **Text handling.** `String::from_utf8_lossy(..).trim()` on the magic and the index
  signature is modelled as exact byte equality. Both constants fill their buffers
  exactly, so only the exact bytes compare equal.
- **Stubs.** `decode_poi_tag` and `process_poi_way_block` are empty and have no model.
  Neither does the commented-out `get_tile_at`.
- **Hash values on the constant keys.** They are never evaluated on the literals, only
  stated for any text (`NewTag`, `TagCodesFollowText`).
- Blocks.ZoomTableAt and TileIndex.TileCount: follow a debug build, where u8, i64 and
  u32 overflow panics. A release build differs: `ZoomTableAt` would return an empty
  table for max < min or max = 255, because the zoom range becomes empty, and
  `TileCount` would wrap the extents modulo 2^64 and the product modulo 2^32. Neither release behaviour is modelled.
- **Whole header.** There is no round trip for the whole header, only one per stage. The
  fixed layout, the error order and the final check are stated separately
  (`FixedLayout`, `VersionCheckedFirst`, `OnlyHeaderSizeLeft`, `AcceptedHeader`).
- WaysProperties.WayRoundTrip: its record has no coordinate data, only the implicit
  single data block of count 0. It is stated on the head and the body written one
  after the other. Coordinate blocks are covered on their own by the single- and
  double-delta round trips, and their results are discarded by the source anyway.
- WaysProperties.DoubleDeltaRoundTrip: covers nodes whose longitudes lie on the globe.
  Off the globe the clamp can move a node, and `ClampFeedsNextStep` shows how that
  shifts every later node.
- PoisProperties.PoiRoundTrip: covers POIs whose tag count fits the 4-bit nibble after
  the source's one-fewer reading, that is at most 14 tags.
- UtilsProperties.VbeUIntRoundTrip: is stated for unbounded naturals. The source's
  `usize` and `u32` accumulators are not bounded in the model.
