// The records the decoder builds. Coordinates are kept in integer microdegrees
// (degrees x 10^6), the unit they have in the file; text is kept as its UTF-8 bytes.
module Types {
  import opened ByteStream

  datatype Option<T> = None | Some(value: T)

  /** Four signed 32-bit microdegree values. */
  datatype BoundingBox = BoundingBox(minLat: int, minLon: int, maxLat: int, maxLon: int)

  /** One zoom interval of the header: three zoom levels and the sub-file it covers. */
  datatype ZoomInterval = ZoomInterval(
    baseZoomLevel: Byte,
    minZoomLevel: Byte,
    maxZoomLevel: Byte,
    subFileStart: nat,
    subFileSize: nat)

  datatype LatLong = LatLong(latitude: int, longitude: int)

  datatype MapHeader = MapHeader(
    magic: seq<Byte>,
    headerSize: nat,
    fileVersion: nat,
    fileSize: nat,
    creationDate: nat,
    boundingBox: BoundingBox,
    tileSize: nat,
    projection: seq<Byte>,
    flags: Byte,
    mapStartPosition: Option<(int, int)>,
    startZoomLevel: Option<Byte>,
    languagePreference: Option<seq<Byte>>,
    comment: Option<seq<Byte>>,
    createdBy: Option<seq<Byte>>,
    poiTags: seq<seq<Byte>>,
    wayTags: seq<seq<Byte>>,
    numZoomIntervals: Byte,
    zoomIntervalConfiguration: seq<ZoomInterval>)

  /** One tile of a sub-file's index: its water flag and the 39-bit offset of its data. */
  datatype TileIndexEntry = TileIndexEntry(isWater: bool, offset: nat)

  /** A key/value tag with the hash codes of its key and value. */
  datatype Tag = Tag(key: seq<Byte>, keyCode: nat, value: seq<Byte>, valueCode: nat)

  datatype Poi = Poi(
    positionOffset: LatLong,
    layer: int,
    tagIds: seq<nat>,
    tags: Option<seq<Tag>>)

  datatype WayCoordinateBlock = WayCoordinateBlock(initialPosition: LatLong, coordinates: seq<LatLong>)

  datatype Way = Way(
    subTileBitmap: nat,
    layer: int,
    tagIds: seq<nat>,
    tags: Option<seq<Tag>>,
    labelPosition: Option<LatLong>,
    coordinateBlocks: seq<WayCoordinateBlock>)

  /** An opened map: its header and one tile index per zoom interval, in header order. */
  datatype MapFile = MapFile(header: MapHeader, tileIndices: seq<seq<TileIndexEntry>>)
}
