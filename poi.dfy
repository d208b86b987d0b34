// The POIs of a tile (`process_pois` in src/poi.rs): for each POI an optional debug
// signature, the position, a special byte holding the layer and the tag count, and the
// tag references, each resolved against the header's POI tag dictionary.
module Pois {
  import opened Errors
  import opened ByteStream
  import opened Types
  import opened Utils
  import opened Tags

  const LAYER_BITMASK: Byte := 0xf0
  const NUMBER_OF_TAGS_BITMASK: Byte := 0x0f
  const LAYER_SHIFT: nat := 4

  /** The 16-byte signature in front of a record when the debug bit is set. It is read
      and only printed, never compared. Without the debug bit nothing is read. */
  function SignatureAt(d: seq<Byte>, p: nat, debug: bool): (r: Result<Decoded<seq<Byte>>>)
    ensures !debug ==> r == Ok(Decoded([], p))
    ensures debug ==> (r.Ok? <==> p + 16 <= |d|)
    ensures r.Err? ==> r.error == Io
  {
    if debug then BytesAt(d, p, 16) else Ok(Decoded([], p))
  }

  method ReadSignature(rd: Reader, debug: bool) returns (r: Result<seq<Byte>>)
    modifies rd
    ensures Tie(r, rd.pos) == SignatureAt(rd.data, old(rd.pos), debug)
  {
    if debug {
      r := rd.ReadExact(16);
    } else {
      r := Ok([]);
    }
  }

  /** `((special & 0xf0) >> 4) as i8`: the high nibble. */
  function LayerOf(special: Byte): (r: int)
    ensures 0 <= r < 16
  {
    special / 16
  }

  /** The low nibble: the tag count as the file states it. */
  function TagCountOf(special: Byte): (r: nat)
    ensures r < 16
  {
    special % 16
  }

  /** A tag reference resolved against a dictionary: the id and the tag it names. */
  datatype TagRef = TagRef(id: nat, tag: Tag)

  /** One reference: a VBE id; an id outside the dictionary panics, and so does an entry
      that does not split into key and value, or whose text is not ASCII. */
  function TagRefAt(dict: seq<seq<Byte>>, d: seq<Byte>, p: nat): Result<Decoded<TagRef>> {
    var id :- VbeUIntAt(d, p);
    if id.value >= |dict| then Err(Panic(TagIdOutOfRange))
    else
      var tag :- TagFromEntry(dict[id.value]);
      Ok(Decoded(TagRef(id.value, tag), id.next))
  }

  function TagRefParser(dict: seq<seq<Byte>>): Parser<TagRef> {
    (d: seq<Byte>, p: nat) => TagRefAt(dict, d, p)
  }

  /** `n` references one after another; the first failure aborts. */
  function TagRefsAt(dict: seq<seq<Byte>>, d: seq<Byte>, p: nat, n: nat): Result<Decoded<seq<TagRef>>> {
    Many(TagRefParser(dict), d, p, n)
  }

  function IdsOf(refs: seq<TagRef>): (r: seq<nat>) {
    seq(|refs|, i requires 0 <= i < |refs| => refs[i].id)
  }

  function TagsOf(refs: seq<TagRef>): (r: seq<Tag>) {
    seq(|refs|, i requires 0 <= i < |refs| => refs[i].tag)
  }

  /** The ids and the tags of a record's references, in two vectors side by side. */
  datatype TagList = TagList(ids: seq<nat>, tags: seq<Tag>)

  /** The references that follow a special byte stating `count` tags. */
  function TagListAt(dict: seq<seq<Byte>>, count: nat, d: seq<Byte>, p: nat): Result<Decoded<TagList>> {
    var refs :- TagRefsAt(dict, d, p, FromOne(count));
    Ok(Decoded(TagList(IdsOf(refs.value), TagsOf(refs.value)), refs.next))
  }

  /** One POI: signature, position (latitude then longitude, microdegrees), special byte,
      then the tag references. */
  function PoiAt(dict: seq<seq<Byte>>, debug: bool, d: seq<Byte>, p: nat): Result<Decoded<Poi>> {
    var sig :- SignatureAt(d, p, debug);
    var position :- LatLongAt(d, sig.next);
    var special :- U8At(d, position.next);
    var list :- TagListAt(dict, TagCountOf(special.value), d, special.next);
    Ok(Decoded(Poi(position.value, LayerOf(special.value), list.value.ids, Some(list.value.tags)), list.next))
  }

  /** One POI read, as a `Parser`. */
  function PoiParser(dict: seq<seq<Byte>>, debug: bool): Parser<Poi> {
    (d: seq<Byte>, p: nat) => PoiAt(dict, debug, d, p)
  }

  /** `process_pois`: `n` POIs one after another; the first failure aborts. */
  function PoisAt(d: seq<Byte>, p: nat, n: nat, dict: seq<seq<Byte>>, debug: bool): Result<Decoded<seq<Poi>>> {
    Many(PoiParser(dict, debug), d, p, n)
  }

  /** `item` reads a POI exactly as `PoiAt` does. The equation is instantiated only where a
      `PoiAt` term is already present, so the loop below reasons about `item` without
      unfolding the POI decoder. */
  ghost predicate ReadsPoi(item: Parser<Poi>, dict: seq<seq<Byte>>, debug: bool) {
    forall d: seq<Byte>, p: nat {:trigger PoiAt(dict, debug, d, p)} :: item(d, p) == PoiAt(dict, debug, d, p)
  }

  method ReadTagRef(rd: Reader, dict: seq<seq<Byte>>) returns (r: Result<TagRef>)
    modifies rd
    ensures Tie(r, rd.pos) == TagRefAt(dict, rd.data, old(rd.pos))
  {
    var id :- ReadVbeUInt(rd);
    if id >= |dict| {
      return Err(Panic(TagIdOutOfRange));
    }
    var tag :- TagFromEntry(dict[id]);
    r := Ok(TagRef(id, tag));
  }

  /** `for _ in 1..number_of_tags`: each reference is resolved and its id and tag pushed. */
  method ReadTagList(rd: Reader, dict: seq<seq<Byte>>, numberOfTags: nat) returns (r: Result<TagList>)
    modifies rd
    ensures Tie(r, rd.pos) == TagListAt(dict, numberOfTags, rd.data, old(rd.pos))
  {
    ghost var start := rd.pos;
    ghost var n := FromOne(numberOfTags);
    ghost var refs: seq<TagRef> := [];
    var tagIds: seq<nat> := [];
    var tags: seq<Tag> := [];
    PrependNothing(TagRefsAt(dict, rd.data, start, n));
    var k := 1;
    while k < numberOfTags
      invariant 1 <= k && k - 1 <= n
      invariant tagIds == IdsOf(refs) && tags == TagsOf(refs)
      invariant Prepend(refs, TagRefsAt(dict, rd.data, rd.pos, n - (k - 1))) == TagRefsAt(dict, rd.data, start, n)
    {
      ghost var here := rd.pos;
      var ref := ReadTagRef(rd, dict);
      ManyRead(TagRefParser(dict), rd.data, here, n - (k - 1), refs, ref, rd.pos);
      if ref.Err? {
        return Err(ref.error);
      }
      refs := refs + [ref.value];
      tagIds := tagIds + [ref.value.id];
      tags := tags + [ref.value.tag];
      k := k + 1;
    }
    assert refs + [] == refs;
    r := Ok(TagList(tagIds, tags));
  }

  /** The body of the POI loop. */
  method ReadPoi(rd: Reader, dict: seq<seq<Byte>>, debug: bool) returns (r: Result<Poi>)
    modifies rd
    ensures Tie(r, rd.pos) == PoiAt(dict, debug, rd.data, old(rd.pos))
  {
    var sig :- ReadSignature(rd, debug);
    var position :- ReadLatLong(rd);
    var special :- rd.ReadU8();
    var layer := special / 16;
    var numberOfTags := special % 16;
    var list :- ReadTagList(rd, dict, numberOfTags);
    r := Ok(Poi(position, layer, list.ids, Some(list.tags)));
  }

  /** A POI read inside the loop, stated as its effect on the remaining repetition. */
  method ReadPoiStep(rd: Reader, dict: seq<seq<Byte>>, debug: bool, ghost item: Parser<Poi>,
                     ghost done: seq<Poi>, ghost n: nat)
    returns (r: Result<Poi>)
    requires n > 0 && ReadsPoi(item, dict, debug)
    modifies rd
    ensures r.Ok? ==> Prepend(done, Many(item, rd.data, old(rd.pos), n))
                      == Prepend(done + [r.value], Many(item, rd.data, rd.pos, n - 1))
    ensures r.Err? ==> Prepend(done, Many(item, rd.data, old(rd.pos), n)) == Err(r.error)
  {
    ghost var here := rd.pos;
    r := ReadPoi(rd, dict, debug);
    ManyRead(item, rd.data, here, n, done, r, rd.pos);
  }

  /** The loop of `process_pois`, against any `item` that reads POIs as `PoiAt` does. */
  method ReadPois(rd: Reader, count: nat, dict: seq<seq<Byte>>, debug: bool, ghost item: Parser<Poi>)
    returns (r: Result<seq<Poi>>)
    requires ReadsPoi(item, dict, debug)
    modifies rd
    ensures Tie(r, rd.pos) == Many(item, rd.data, old(rd.pos), count)
  {
    ghost var start := rd.pos;
    ghost var left := count;
    var pois: seq<Poi> := [];
    PrependEnds(item, rd.data, start, count, pois);
    var i := 0;
    while i < count
      invariant i + left == count
      invariant Prepend(pois, Many(item, rd.data, rd.pos, left)) == Many(item, rd.data, start, count)
    {
      var poi := ReadPoiStep(rd, dict, debug, item, pois, left);
      if poi.Err? {
        return Err(poi.error);
      }
      pois := pois + [poi.value];
      i := i + 1;
      left := left - 1;
    }
    PrependEnds(item, rd.data, rd.pos, 0, pois);
    r := Ok(pois);
  }

  /** `process_pois`: `poisOnQueryZoomLevel` POIs, or the first error. */
  method ProcessPois(rd: Reader, poisOnQueryZoomLevel: nat, dict: seq<seq<Byte>>, debug: bool)
    returns (r: Result<seq<Poi>>)
    modifies rd
    ensures Tie(r, rd.pos) == PoisAt(rd.data, old(rd.pos), poisOnQueryZoomLevel, dict, debug)
  {
    r := ReadPois(rd, poisOnQueryZoomLevel, dict, debug, PoiParser(dict, debug));
  }
}

// What the POI decoder promises, as lemmas about the specification functions.
module PoisProperties {
  import opened Errors
  import opened ByteStream
  import opened Types
  import opened Utils
  import opened UtilsProperties
  import opened Tags
  import opened Pois

  /** Each kept id names an entry of the dictionary, and the tag beside it is the tag that
      entry parses to. */
  predicate Resolved(dict: seq<seq<Byte>>, ids: seq<nat>, tags: seq<Tag>) {
    |ids| == |tags| && forall i :: 0 <= i < |ids| ==> Names(dict, ids[i], tags[i])
  }

  /** Entry `id` of the dictionary exists and stands for `tag`. */
  predicate Names(dict: seq<seq<Byte>>, id: nat, tag: Tag) {
    id < |dict| && TagFromEntry(dict[id]) == Ok(tag)
  }

  /** One reference succeeds exactly when its id is read, lies inside the dictionary and
      names an entry that parses; an id outside the dictionary panics. */
  lemma TagRefOutcome(dict: seq<seq<Byte>>, d: seq<Byte>, p: nat)
    ensures match TagRefAt(dict, d, p)
      case Ok(x) =>
        VbeUIntAt(d, p) == Ok(Decoded(x.value.id, x.next))
        && Names(dict, x.value.id, x.value.tag)
      case Err(e) =>
        match VbeUIntAt(d, p)
        case Err(e') => e == e'
        case Ok(id) =>
          (id.value >= |dict| ==> e == Panic(TagIdOutOfRange))
          && (id.value < |dict| ==> TagFromEntry(dict[id.value]) == Err(e))
  {
  }

  predicate RefsResolved(dict: seq<seq<Byte>>, refs: seq<TagRef>) {
    forall i :: 0 <= i < |refs| ==> Names(dict, refs[i].id, refs[i].tag)
  }

  /** Every reference of a run is resolved. */
  lemma {:induction false} TagRefsResolved(dict: seq<seq<Byte>>, d: seq<Byte>, p: nat, n: nat)
    ensures TagRefsAt(dict, d, p, n).Ok? ==> RefsResolved(dict, TagRefsAt(dict, d, p, n).value.value)
    decreases n
  {
    if n > 0 && TagRefsAt(dict, d, p, n).Ok? {
      var first := TagRefAt(dict, d, p).value;
      var rest := TagRefsAt(dict, d, first.next, n - 1).value;
      assert TagRefsAt(dict, d, p, n).value.value == [first.value] + rest.value;
      TagRefOutcome(dict, d, p);
      TagRefsResolved(dict, d, first.next, n - 1);
    }
  }

  /** A stated count of 0 and a stated count of 1 both read no reference at all, wherever
      the stream stands; a count `c >= 2` reads `c - 1`, each resolved. */
  lemma TagListShape(dict: seq<seq<Byte>>, count: nat, d: seq<Byte>, p: nat)
    ensures count <= 1 ==> TagListAt(dict, count, d, p) == Ok(Decoded(TagList([], []), p))
    ensures TagListAt(dict, count, d, p).Ok? ==>
      var x := TagListAt(dict, count, d, p).value;
      |x.value.ids| == FromOne(count) && Resolved(dict, x.value.ids, x.value.tags)
  {
    TagRefsResolved(dict, d, p, FromOne(count));
    assert IdsOf([]) == [] && TagsOf([]) == [];
    if TagListAt(dict, count, d, p).Ok? {
      var refs := TagRefsAt(dict, d, p, FromOne(count)).value.value;
      forall i | 0 <= i < |refs| ensures Names(dict, IdsOf(refs)[i], TagsOf(refs)[i]) {
        assert IdsOf(refs)[i] == refs[i].id && TagsOf(refs)[i] == refs[i].tag;
      }
    }
  }

  /** A decoded POI has its layer in the high nibble's range, carries tags, and keeps only
      resolved references, at most 14 of them. */
  lemma PoiShape(dict: seq<seq<Byte>>, debug: bool, d: seq<Byte>, p: nat)
    ensures PoiAt(dict, debug, d, p).Ok? ==>
      var x := PoiAt(dict, debug, d, p).value;
      0 <= x.value.layer < 16 && x.value.tags.Some?
      && |x.value.tagIds| <= 14 && Resolved(dict, x.value.tagIds, x.value.tags.value)
      && p < x.next <= |d|
  {
    var sig := SignatureAt(d, p, debug);
    if sig.Ok? {
      var pos := LatLongAt(d, sig.value.next);
      if pos.Ok? {
        VbeSIntAdvances(d, sig.value.next);
        var special := U8At(d, pos.value.next);
        if special.Ok? {
          TagListShape(dict, TagCountOf(special.value.value), d, special.value.next);
          TagListWithin(dict, TagCountOf(special.value.value), d, special.value.next);
        }
      }
    }
  }

  /** A signed VBE read consumes at least one byte and stays inside the stream. */
  lemma VbeSIntAdvances(d: seq<Byte>, p: nat)
    ensures LatLongAt(d, p).Ok? ==> p < LatLongAt(d, p).value.next <= |d|
  {
    VbeSMagnitudeShape(d, p);
    if VbeSIntAt(d, p).Ok? {
      VbeSMagnitudeShape(d, VbeSIntAt(d, p).value.next);
    }
  }

  /** References never read past the end of the stream nor move backwards. */
  lemma {:induction false} TagRefsWithin(dict: seq<seq<Byte>>, d: seq<Byte>, p: nat, n: nat)
    requires p <= |d|
    ensures TagRefsAt(dict, d, p, n).Ok? ==> p <= TagRefsAt(dict, d, p, n).value.next <= |d|
    decreases n
  {
    if n > 0 && TagRefAt(dict, d, p).Ok? {
      var first := TagRefAt(dict, d, p).value;
      TagRefOutcome(dict, d, p);
      VbeUIntShape(d, p);
      TagRefsWithin(dict, d, first.next, n - 1);
    }
  }

  lemma TagListWithin(dict: seq<seq<Byte>>, count: nat, d: seq<Byte>, p: nat)
    requires p <= |d|
    ensures TagListAt(dict, count, d, p).Ok? ==> p <= TagListAt(dict, count, d, p).value.next <= |d|
  {
    TagRefsWithin(dict, d, p, FromOne(count));
  }

  // ---------------------------------------------------------------------------
  // Round trip

  function EncodeIds(ids: seq<nat>): seq<Byte> {
    if ids == [] then [] else EncodeVbeU(ids[0]) + EncodeIds(ids[1..])
  }

  /** A POI that a file can state: a layer that fits the high nibble and at most 14 tags,
      so that the tag count `|ids| + 1` fits the low nibble. */
  predicate PoiFits(dict: seq<seq<Byte>>, x: Poi) {
    0 <= x.layer < 16 && |x.tagIds| <= 14 && x.tags.Some?
    && Resolved(dict, x.tagIds, x.tags.value)
  }

  /** The model encoder: the signature when the debug bit is set, the position, the
      special byte with the layer above a tag count one larger than the number of ids, and
      the ids. */
  function EncodePoi(debug: bool, sig: seq<Byte>, x: Poi): seq<Byte>
    requires 0 <= x.layer < 16 && |x.tagIds| <= 14
  {
    (if debug then sig else [])
    + (EncodeLatLong(x.positionOffset) + ([x.layer * 16 + |x.tagIds| + 1] + EncodeIds(x.tagIds)))
  }

  lemma IdsSplit(d: seq<Byte>, p: nat, ids: seq<nat>)
    requires ids != [] && Holds(d, p, EncodeIds(ids))
    ensures Holds(d, p, EncodeVbeU(ids[0]))
    ensures Holds(d, p + |EncodeVbeU(ids[0])|, EncodeIds(ids[1..]))
    ensures |EncodeIds(ids)| == |EncodeVbeU(ids[0])| + |EncodeIds(ids[1..])|
  {
    HoldsSplit(d, p, EncodeVbeU(ids[0]), EncodeIds(ids[1..]));
  }

  /** `item` reads a reference exactly as `TagRefAt` does. */
  ghost predicate ReadsTagRef(item: Parser<TagRef>, dict: seq<seq<Byte>>) {
    forall d: seq<Byte>, p: nat {:trigger TagRefAt(dict, d, p)} :: item(d, p) == TagRefAt(dict, d, p)
  }

  /** Encoded ids read back as references to their entries, for any `item` that reads a
      reference as `TagRefAt` does. */
  lemma {:induction false} IdsPlaced(item: Parser<TagRef>, dict: seq<seq<Byte>>, d: seq<Byte>, p: nat,
                                     ids: seq<nat>, tags: seq<Tag>)
    requires ReadsTagRef(item, dict) && Resolved(dict, ids, tags) && Holds(d, p, EncodeIds(ids))
    ensures Many(item, d, p, |ids|) == Ok(Decoded(Zip(ids, tags), p + |EncodeIds(ids)|))
    decreases |ids|
  {
    if ids != [] {
      IdsSplit(d, p, ids);
      ResolvedTail(dict, ids, tags);
      TagRefPlaced(item, dict, d, p, ids[0], tags[0]);
      var q := p + |EncodeVbeU(ids[0])|;
      IdsPlaced(item, dict, d, q, ids[1..], tags[1..]);
      IdsCons(item, d, p, ids, tags, q, q + |EncodeIds(ids[1..])|);
    }
  }

  /** The references of `ids` paired with the tags they name. */
  function Zip(ids: seq<nat>, tags: seq<Tag>): (r: seq<TagRef>)
    requires |ids| == |tags|
    ensures |r| == |ids|
  {
    if ids == [] then [] else [TagRef(ids[0], tags[0])] + Zip(ids[1..], tags[1..])
  }

  lemma {:induction false} ZipParts(ids: seq<nat>, tags: seq<Tag>)
    requires |ids| == |tags|
    ensures IdsOf(Zip(ids, tags)) == ids && TagsOf(Zip(ids, tags)) == tags
  {
    if ids != [] {
      ZipParts(ids[1..], tags[1..]);
      var z := Zip(ids, tags);
      assert forall i | 1 <= i < |ids| :: z[i] == Zip(ids[1..], tags[1..])[i - 1];
      assert IdsOf(z) == ids by {
        forall i | 1 <= i < |ids| ensures IdsOf(z)[i] == ids[i] {
          assert IdsOf(Zip(ids[1..], tags[1..]))[i - 1] == ids[1..][i - 1];
        }
      }
      assert TagsOf(z) == tags by {
        forall i | 1 <= i < |ids| ensures TagsOf(z)[i] == tags[i] {
          assert TagsOf(Zip(ids[1..], tags[1..]))[i - 1] == tags[1..][i - 1];
        }
      }
    }
  }

  lemma ResolvedTail(dict: seq<seq<Byte>>, ids: seq<nat>, tags: seq<Tag>)
    requires ids != [] && Resolved(dict, ids, tags)
    ensures Names(dict, ids[0], tags[0]) && Resolved(dict, ids[1..], tags[1..])
  {
    forall i | 0 <= i < |ids| - 1
      ensures ids[1..][i] == ids[i + 1] && tags[1..][i] == tags[i + 1]
    {
    }
  }

  /** One reference written as its VBE id reads back as that id and the tag it names. */
  lemma TagRefPlaced(item: Parser<TagRef>, dict: seq<seq<Byte>>, d: seq<Byte>, p: nat, id: nat, tag: Tag)
    requires ReadsTagRef(item, dict) && Names(dict, id, tag) && Holds(d, p, EncodeVbeU(id))
    ensures item(d, p) == Ok(Decoded(TagRef(id, tag), p + |EncodeVbeU(id)|))
  {
    VbeUIntRoundTrip(d, p, id);
    assert TagRefAt(dict, d, p) == Ok(Decoded(TagRef(id, tag), p + |EncodeVbeU(id)|));
  }

  lemma IdsCons(item: Parser<TagRef>, d: seq<Byte>, p: nat, ids: seq<nat>, tags: seq<Tag>, q: nat, e: nat)
    requires ids != [] && |ids| == |tags|
    requires item(d, p) == Ok(Decoded(TagRef(ids[0], tags[0]), q))
    requires Many(item, d, q, |ids[1..]|) == Ok(Decoded(Zip(ids[1..], tags[1..]), e))
    ensures Many(item, d, p, |ids|) == Ok(Decoded(Zip(ids, tags), e))
  {
  }

  /** The ids of a tag list read back, after a count one larger. */
  lemma TagListPlaced(dict: seq<seq<Byte>>, d: seq<Byte>, p: nat, ids: seq<nat>, tags: seq<Tag>, e: nat)
    requires Resolved(dict, ids, tags) && Holds(d, p, EncodeIds(ids)) && e == p + |EncodeIds(ids)|
    ensures TagListAt(dict, |ids| + 1, d, p) == Ok(Decoded(TagList(ids, tags), e))
  {
    IdsPlaced(TagRefParser(dict), dict, d, p, ids, tags);
    ZipParts(ids, tags);
  }

  /** Where the pieces of an encoded POI sit; `s` is the signature part, empty without the
      debug bit. */
  lemma PoiLayout(debug: bool, d: seq<Byte>, p: nat, sig: seq<Byte>, s: seq<Byte>, x: Poi)
    requires 0 <= x.layer < 16 && |x.tagIds| <= 14 && s == (if debug then sig else [])
    requires Holds(d, p, EncodePoi(debug, sig, x))
    ensures Holds(d, p, s) && Holds(d, p + |s|, EncodeLatLong(x.positionOffset))
    ensures var r := p + |s| + |EncodeLatLong(x.positionOffset)|;
      r < |d| && d[r] == x.layer * 16 + |x.tagIds| + 1 && Holds(d, r + 1, EncodeIds(x.tagIds))
    ensures |EncodePoi(debug, sig, x)| == |s| + |EncodeLatLong(x.positionOffset)| + 1 + |EncodeIds(x.tagIds)|
  {
    HoldsSplitAround(d, p, s, EncodeLatLong(x.positionOffset), x.layer * 16 + |x.tagIds| + 1, EncodeIds(x.tagIds));
  }

  /** A POI written by the model encoder reads back as itself, with or without the debug
      signature, consuming exactly its encoding. */
  lemma PoiRoundTrip(dict: seq<seq<Byte>>, debug: bool, d: seq<Byte>, p: nat, sig: seq<Byte>, x: Poi)
    requires PoiFits(dict, x) && (debug ==> |sig| == 16)
    requires Holds(d, p, EncodePoi(debug, sig, x))
    ensures PoiAt(dict, debug, d, p) == Ok(Decoded(x, p + |EncodePoi(debug, sig, x)|))
  {
    var s := if debug then sig else [];
    PoiLayout(debug, d, p, sig, s, x);
    var r := p + |s| + |EncodeLatLong(x.positionOffset)|;
    TagListPlaced(dict, d, r + 1, x.tagIds, x.tags.value, p + |EncodePoi(debug, sig, x)|);
    PoiPieces(dict, debug, d, p, s, x, p + |EncodePoi(debug, sig, x)|);
  }

  /** The pieces of an encoded POI, each in its place, read back as the POI. */
  lemma PoiPieces(dict: seq<seq<Byte>>, debug: bool, d: seq<Byte>, p: nat, s: seq<Byte>, x: Poi, e: nat)
    requires 0 <= x.layer < 16 && |x.tagIds| <= 14 && x.tags.Some?
    requires |s| == (if debug then 16 else 0)
    requires Holds(d, p, s) && Holds(d, p + |s|, EncodeLatLong(x.positionOffset))
    requires var r := p + |s| + |EncodeLatLong(x.positionOffset)|;
      r < |d| && d[r] == x.layer * 16 + |x.tagIds| + 1
      && TagListAt(dict, |x.tagIds| + 1, d, r + 1) == Ok(Decoded(TagList(x.tagIds, x.tags.value), e))
    ensures PoiAt(dict, debug, d, p) == Ok(Decoded(x, e))
  {
    var q := p + |s|;
    SignaturePlaced(d, p, debug, s);
    LatLongRoundTrip(d, q, x.positionOffset);
    PoiPlaced(dict, debug, d, p, x, s, q, q + |EncodeLatLong(x.positionOffset)|, e);
  }

  /** The signature field reads back as the bytes in it, and as nothing without the debug bit. */
  lemma SignaturePlaced(d: seq<Byte>, p: nat, debug: bool, s: seq<Byte>)
    requires |s| == (if debug then 16 else 0) && Holds(d, p, s)
    ensures SignatureAt(d, p, debug) == Ok(Decoded(s, p + |s|))
  {
    HoldsSlice(d, p, s);
  }

  /** A POI whose pieces each read back as themselves reads back as the POI. */
  lemma PoiPlaced(dict: seq<seq<Byte>>, debug: bool, d: seq<Byte>, p: nat, x: Poi,
                  s: seq<Byte>, q: nat, r: nat, e: nat)
    requires 0 <= x.layer < 16 && |x.tagIds| <= 14 && x.tags.Some?
    requires SignatureAt(d, p, debug) == Ok(Decoded(s, q))
    requires LatLongAt(d, q) == Ok(Decoded(x.positionOffset, r))
    requires r < |d| && d[r] == x.layer * 16 + |x.tagIds| + 1
    requires TagListAt(dict, |x.tagIds| + 1, d, r + 1) == Ok(Decoded(TagList(x.tagIds, x.tags.value), e))
    ensures PoiAt(dict, debug, d, p) == Ok(Decoded(x, e))
  {
    var special: Byte := x.layer * 16 + |x.tagIds| + 1;
    SpecialByte(x.layer, |x.tagIds|);
    PoiParts(dict, debug, d, p, Decoded(s, q), Decoded(x.positionOffset, r), Decoded(special, r + 1),
             Decoded(TagList(x.tagIds, x.tags.value), e));
  }

  /** The special byte a POI is written with splits back into its layer and tag count. */
  lemma SpecialByte(layer: int, n: nat)
    requires 0 <= layer < 16 && n <= 14
    ensures 0 <= layer * 16 + n + 1 < 256
    ensures LayerOf(layer * 16 + n + 1) == layer && TagCountOf(layer * 16 + n + 1) == n + 1
  {
  }

  /** A POI is its four parts, read one after another. */
  lemma PoiParts(dict: seq<seq<Byte>>, debug: bool, d: seq<Byte>, p: nat,
                 sig: Decoded<seq<Byte>>, pos: Decoded<LatLong>, special: Decoded<Byte>, list: Decoded<TagList>)
    requires SignatureAt(d, p, debug) == Ok(sig)
    requires LatLongAt(d, sig.next) == Ok(pos)
    requires U8At(d, pos.next) == Ok(special)
    requires TagListAt(dict, TagCountOf(special.value), d, special.next) == Ok(list)
    ensures PoiAt(dict, debug, d, p)
         == Ok(Decoded(Poi(pos.value, LayerOf(special.value), list.value.ids, Some(list.value.tags)), list.next))
  {
  }
}
