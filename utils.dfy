// The variable-byte-encoding (VBE) layer of src/utils.rs: unsigned and signed VBE
// integers, VBE-length-prefixed UTF-8 strings, and microdegree coordinates.
//
// A VBE integer is a run of bytes whose high bit (0x80) says "another byte follows";
// each byte carries 7 data bits, least significant group first. In the signed form the
// last byte carries only 6 data bits and its bit 0x40 is the sign.
module Utils {
  import opened Errors
  import opened ByteStream
  import opened Types

  /** Coordinate limits, in microdegrees. */
  const LONGITUDE_MAX: int := 180_000_000
  const LONGITUDE_MIN: int := -LONGITUDE_MAX
  const LATITUDE_MAX: int := 90_000_000
  const LATITUDE_MIN: int := -LATITUDE_MAX

  /** `(g as usize) << shift` on unbounded integers: `g` doubled `shift` times. */
  function Place(g: nat, shift: nat): nat
    decreases shift
  {
    if shift == 0 then g else 2 * Place(g, shift - 1)
  }

  /** Shifting distributes over addition. */
  lemma {:induction false} PlaceAdd(a: nat, b: nat, shift: nat)
    ensures Place(a + b, shift) == Place(a, shift) + Place(b, shift)
    decreases shift
  {
    if shift > 0 {
      PlaceAdd(a, b, shift - 1);
    }
  }

  /** Two shifts are one shift by the sum. */
  lemma {:induction false} PlacePlace(g: nat, t: nat, s: nat)
    ensures Place(Place(g, t), s) == Place(g, t + s)
    decreases s
  {
    if s > 0 {
      PlacePlace(g, t, s - 1);
    }
  }

  /** A shift by 7 multiplies by 0x80. */
  lemma Place7(g: nat)
    ensures Place(g, 7) == 0x80 * g
  {
    assert Place(g, 1) == 2 * g;
    assert Place(g, 2) == 4 * g;
    assert Place(g, 3) == 8 * g;
    assert Place(g, 4) == 16 * g;
    assert Place(g, 5) == 32 * g;
    assert Place(g, 6) == 64 * g;
  }

  // ---------------------------------------------------------------------------
  // Unsigned VBE

  /** `low | (tail << shift)`: a decoded tail placed above the groups already read. */
  function Scaled(r: Result<Decoded<nat>>, low: nat, shift: nat): Result<Decoded<nat>> {
    match r
    case Ok(x) => Ok(Decoded(low + Place(x.value, shift), x.next))
    case Err(e) => Err(e)
  }

  lemma PlaceTwice(a: nat, s: nat, b: nat, t: nat, v: nat)
    ensures a + Place(b + Place(v, t), s) == a + Place(b, s) + Place(v, t + s)
  {
    PlaceAdd(b, Place(v, t), s);
    PlacePlace(v, t, s);
  }

  lemma ScaledTwice(r: Result<Decoded<nat>>, a: nat, s: nat, b: nat, t: nat)
    ensures Scaled(Scaled(r, b, t), a, s) == Scaled(r, a + Place(b, s), t + s)
  {
    match r
    case Ok(x) => PlaceTwice(a, s, b, t, x.value);
    case Err(_) =>
  }

  /** An unsigned VBE integer at `p`: the 7-bit groups up to and including the first byte
      whose bit 0x80 is clear. */
  function VbeUIntAt(d: seq<Byte>, p: nat): Result<Decoded<nat>>
    decreases |d| - p
  {
    if p >= |d| then Err(Io)
    else if d[p] < 0x80 then Ok(Decoded(d[p], p + 1))
    else Scaled(VbeUIntAt(d, p + 1), d[p] - 0x80, 7)
  }

  /** One continuation byte moves from the stream into the accumulator. */
  lemma VbeUIntStep(d: seq<Byte>, p: nat, length: nat, shift: nat)
    requires p < |d| && d[p] >= 0x80
    ensures Scaled(VbeUIntAt(d, p), length, shift)
         == Scaled(VbeUIntAt(d, p + 1), length + Place(d[p] % 0x80, shift), shift + 7)
  {
    ScaledTwice(VbeUIntAt(d, p + 1), length, shift, d[p] % 0x80, 7);
  }

  /** The last byte completes the value. */
  lemma VbeUIntLast(d: seq<Byte>, p: nat, length: nat, shift: nat)
    requires p < |d| && d[p] < 0x80
    ensures Scaled(VbeUIntAt(d, p), length, shift) == Ok(Decoded(length + Place(d[p], shift), p + 1))
  {
  }

  /** Sum over i of (s[i] & 0x7F) * 128^i. */
  function GroupSum(s: seq<Byte>): nat {
    if s == [] then 0 else s[0] % 0x80 + 0x80 * GroupSum(s[1..])
  }

  /** The model encoder: 7-bit groups, least significant first, 0x80 on all but the last. */
  function EncodeVbeU(n: nat): (r: seq<Byte>)
    ensures |r| >= 1
  {
    if n < 0x80 then [n] else [n % 0x80 + 0x80] + EncodeVbeU(n / 0x80)
  }

  /** `read_vbe_u_int`. */
  method ReadVbeUInt(rd: Reader) returns (r: Result<nat>)
    modifies rd
    ensures Tie(r, rd.pos) == VbeUIntAt(rd.data, old(rd.pos))
  {
    var length: nat := 0;
    var shift: nat := 0;
    ghost var start := rd.pos;
    var byte: Byte;
    while true
      invariant VbeUIntAt(rd.data, start) == Scaled(VbeUIntAt(rd.data, rd.pos), length, shift)
      decreases rd.Remaining()
    {
      ghost var here := rd.pos;
      var b := rd.ReadU8();
      if b.Err? {
        return Err(b.error);
      }
      byte := b.value;
      if byte < 0x80 {
        VbeUIntLast(rd.data, here, length, shift);
        break;
      }
      // the groups occupy disjoint bits, so `|=` adds them
      VbeUIntStep(rd.data, here, length, shift);
      length := length + Place(byte % 0x80, shift);
      shift := shift + 7;
    }
    r := Ok(length + Place(byte, shift));
  }

  // ---------------------------------------------------------------------------
  // Signed VBE

  datatype SignedMagnitude = SignedMagnitude(magnitude: nat, negative: bool)

  function ScaledS(r: Result<Decoded<SignedMagnitude>>, low: nat, shift: nat)
    : Result<Decoded<SignedMagnitude>>
  {
    match r
    case Ok(x) => Ok(Decoded(SignedMagnitude(low + Place(x.value.magnitude, shift), x.value.negative), x.next))
    case Err(e) => Err(e)
  }

  lemma ScaledSTwice(r: Result<Decoded<SignedMagnitude>>, a: nat, s: nat, b: nat, t: nat)
    ensures ScaledS(ScaledS(r, b, t), a, s) == ScaledS(r, a + Place(b, s), t + s)
  {
    match r
    case Ok(x) => PlaceTwice(a, s, b, t, x.value.magnitude);
    case Err(_) =>
  }

  /** Magnitude and sign of a signed VBE integer at `p`: 7 bits from each byte before the
      last, the low 6 bits of the last, whose bit 0x40 is the sign. */
  function VbeSMagnitudeAt(d: seq<Byte>, p: nat): Result<Decoded<SignedMagnitude>>
    decreases |d| - p
  {
    if p >= |d| then Err(Io)
    else if d[p] < 0x80 then Ok(Decoded(SignedMagnitude(d[p] % 0x40, d[p] >= 0x40), p + 1))
    else ScaledS(VbeSMagnitudeAt(d, p + 1), d[p] - 0x80, 7)
  }

  lemma VbeSIntStep(d: seq<Byte>, p: nat, length: nat, shift: nat)
    requires p < |d| && d[p] >= 0x80
    ensures ScaledS(VbeSMagnitudeAt(d, p), length, shift)
         == ScaledS(VbeSMagnitudeAt(d, p + 1), length + Place(d[p] % 0x80, shift), shift + 7)
  {
    ScaledSTwice(VbeSMagnitudeAt(d, p + 1), length, shift, d[p] % 0x80, 7);
  }

  /** The last byte completes the value: its low 6 bits are the top group and its bit 0x40
      the sign. */
  lemma VbeSIntLast(d: seq<Byte>, start: nat, p: nat, length: nat, shift: nat)
    requires p < |d| && d[p] < 0x80
    requires VbeSMagnitudeAt(d, start) == ScaledS(VbeSMagnitudeAt(d, p), length, shift)
    ensures VbeSIntAt(d, start) == Ok(Decoded(
      if d[p] >= 0x40 then -((length + Place(d[p] % 0x40, shift)) as int)
      else length + Place(d[p] % 0x80, shift), p + 1))
  {
    var last := SignedMagnitude(d[p] % 0x40, d[p] >= 0x40);
    assert VbeSMagnitudeAt(d, p) == Ok(Decoded(last, p + 1));
    assert VbeSMagnitudeAt(d, start) == Ok(Decoded(SignedMagnitude(length + Place(last.magnitude, shift), last.negative), p + 1));
    if d[p] < 0x40 {
      assert d[p] % 0x80 == d[p] % 0x40;
    }
  }

  function VbeSIntAt(d: seq<Byte>, p: nat): Result<Decoded<int>> {
    var m :- VbeSMagnitudeAt(d, p);
    var v: int := if m.value.negative then -(m.value.magnitude as int) else m.value.magnitude;
    Ok(Decoded(v, m.next))
  }

  function SignedGroups(m: nat, negative: bool): (r: seq<Byte>)
    ensures |r| >= 1
  {
    if m < 0x40 then [m + if negative then 0x40 else 0]
    else [m % 0x80 + 0x80] + SignedGroups(m / 0x80, negative)
  }

  /** The model encoder for signed values: the magnitude in groups, the sign in bit 0x40
      of the last byte. */
  function EncodeVbeS(x: int): seq<Byte> {
    SignedGroups(if x < 0 then -x else x, x < 0)
  }

  /** `read_vbe_s_int`. */
  method ReadVbeSInt(rd: Reader) returns (r: Result<int>)
    modifies rd
    ensures Tie(r, rd.pos) == VbeSIntAt(rd.data, old(rd.pos))
  {
    var length: nat := 0;
    var shift: nat := 0;
    ghost var start := rd.pos;
    while true
      invariant VbeSMagnitudeAt(rd.data, start)
        == ScaledS(VbeSMagnitudeAt(rd.data, rd.pos), length, shift)
      decreases rd.Remaining()
    {
      ghost var here := rd.pos;
      var b := rd.ReadU8();
      if b.Err? {
        return Err(b.error);
      }
      var byte := b.value;
      if byte < 0x80 {
        // the six data bits of the last byte
        VbeSIntLast(rd.data, start, here, length, shift);
        if byte >= 0x40 {
          length := length + Place(byte % 0x40, shift);
          return Ok(-(length as int));
        } else {
          length := length + Place(byte % 0x80, shift);
          return Ok(length);
        }
      }
      VbeSIntStep(rd.data, here, length, shift);
      length := length + Place(byte % 0x80, shift);
      shift := shift + 7;
    }
  }

  /** `read_microdegrees`: one signed VBE value, kept in microdegrees. */
  method ReadMicrodegrees(rd: Reader) returns (r: Result<int>)
    modifies rd
    ensures Tie(r, rd.pos) == VbeSIntAt(rd.data, old(rd.pos))
  {
    r := ReadVbeSInt(rd);
  }

  /** A latitude followed by a longitude, each read with `read_microdegrees`. */
  function LatLongAt(d: seq<Byte>, p: nat): Result<Decoded<LatLong>> {
    var lat :- VbeSIntAt(d, p);
    var lon :- VbeSIntAt(d, lat.next);
    Ok(Decoded(LatLong(lat.value, lon.value), lon.next))
  }

  /** Two `read_microdegrees` calls, latitude first, as every position is read. */
  method ReadLatLong(rd: Reader) returns (r: Result<LatLong>)
    modifies rd
    ensures Tie(r, rd.pos) == LatLongAt(rd.data, old(rd.pos))
  {
    var latitude :- ReadMicrodegrees(rd);
    var longitude :- ReadMicrodegrees(rd);
    r := Ok(LatLong(latitude, longitude));
  }

  // ---------------------------------------------------------------------------
  // Strings

  predicate IsContinuation(b: Byte) { 0x80 <= b <= 0xBF }

  /** Well-formed UTF-8 as `String::from_utf8` accepts it (no overlong forms, no
      surrogates, nothing above U+10FFFF). */
  predicate ValidUtf8(s: seq<Byte>)
    decreases |s|
  {
    if s == [] then true
    else if s[0] < 0x80 then ValidUtf8(s[1..])
    else if 0xC2 <= s[0] <= 0xDF then
      |s| >= 2 && IsContinuation(s[1]) && ValidUtf8(s[2..])
    else if 0xE0 <= s[0] <= 0xEF then
      |s| >= 3
      && (if s[0] == 0xE0 then 0xA0 <= s[1] <= 0xBF
          else if s[0] == 0xED then 0x80 <= s[1] <= 0x9F
          else IsContinuation(s[1]))
      && IsContinuation(s[2]) && ValidUtf8(s[3..])
    else if 0xF0 <= s[0] <= 0xF4 then
      |s| >= 4
      && (if s[0] == 0xF0 then 0x90 <= s[1] <= 0xBF
          else if s[0] == 0xF4 then 0x80 <= s[1] <= 0x8F
          else IsContinuation(s[1]))
      && IsContinuation(s[2]) && IsContinuation(s[3]) && ValidUtf8(s[4..])
    else false
  }

  predicate IsAscii(s: seq<Byte>) {
    forall i :: 0 <= i < |s| ==> s[i] < 0x80
  }

  lemma {:induction false} AsciiIsUtf8(s: seq<Byte>)
    requires IsAscii(s)
    ensures ValidUtf8(s)
  {
    if s != [] {
      AsciiIsUtf8(s[1..]);
    }
  }

  /** A VBE string at `p`: an unsigned VBE length, then exactly that many bytes, which
      must be valid UTF-8. */
  function VbeStringAt(d: seq<Byte>, p: nat): (r: Result<Decoded<seq<Byte>>>)
    ensures r.Ok? ==> r.value.next <= |d| && ValidUtf8(r.value.value)
  {
    var len :- VbeUIntAt(d, p);
    var bytes :- BytesAt(d, len.next, len.value);
    if ValidUtf8(bytes.value) then Ok(bytes) else Err(Panic(InvalidUtf8))
  }

  function EncodeVbeString(s: seq<Byte>): seq<Byte> {
    EncodeVbeU(|s|) + s
  }

  /** The length loop of `read_vbe_u`: each group is added before the continuation bit is
      tested, so the last group needs no separate step. */
  method ReadStringLength(rd: Reader) returns (r: Result<nat>)
    modifies rd
    ensures Tie(r, rd.pos) == VbeUIntAt(rd.data, old(rd.pos))
  {
    var length: nat := 0;
    var shift: nat := 0;
    ghost var start := rd.pos;
    while true
      invariant VbeUIntAt(rd.data, start) == Scaled(VbeUIntAt(rd.data, rd.pos), length, shift)
      decreases rd.Remaining()
    {
      ghost var here := rd.pos;
      var b := rd.ReadU8();
      if b.Err? {
        return Err(b.error);
      }
      var byte := b.value;
      if byte < 0x80 {
        VbeUIntLast(rd.data, here, length, shift);
        length := length + Place(byte, shift);
        break;
      }
      VbeUIntStep(rd.data, here, length, shift);
      length := length + Place(byte % 0x80, shift);
      shift := shift + 7;
    }
    r := Ok(length);
  }

  /** `read_vbe_u` (src/utils.rs), of which `MapHeader::read_vbe_u` is a verbatim copy. */
  method ReadVbeU(rd: Reader) returns (r: Result<seq<Byte>>)
    modifies rd
    ensures Tie(r, rd.pos) == VbeStringAt(rd.data, old(rd.pos))
  {
    var length :- ReadStringLength(rd);
    var bytes := rd.ReadExact(length);
    if bytes.Err? {
      return Err(bytes.error);
    }
    if !ValidUtf8(bytes.value) {
      return Err(Panic(InvalidUtf8));
    }
    r := Ok(bytes.value);
  }
}

// The properties of the VBE layer, as lemmas about the specification functions.
module UtilsProperties {
  import opened Errors
  import opened ByteStream
  import opened Types
  import opened Utils

  /** Decoding inverts the encoder wherever the encoding sits, and consumes exactly it. */
  lemma {:induction false} VbeUIntRoundTrip(d: seq<Byte>, p: nat, n: nat)
    requires Holds(d, p, EncodeVbeU(n))
    ensures VbeUIntAt(d, p) == Ok(Decoded(n, p + |EncodeVbeU(n)|))
    decreases n
  {
    if n >= 0x80 {
      HoldsCons(d, p, n % 0x80 + 0x80, EncodeVbeU(n / 0x80));
      VbeUIntRoundTrip(d, p + 1, n / 0x80);
      Place7(n / 0x80);
    } else {
      assert EncodeVbeU(n)[0] == n;
    }
  }

  /** The bytes an unsigned VBE read consumes: every one before the last has bit 0x80 set,
      the last has it clear, and the value is the sum of their 7-bit groups. Without such a
      last byte before the end of the stream the read fails with an I/O error. */
  lemma {:induction false} VbeUIntShape(d: seq<Byte>, p: nat)
    ensures match VbeUIntAt(d, p)
      case Ok(x) =>
        p < x.next <= |d| && d[x.next - 1] < 0x80
        && (forall i :: p <= i < x.next - 1 ==> d[i] >= 0x80)
        && x.value == GroupSum(d[p..x.next])
      case Err(e) =>
        e == Io && forall i :: p <= i < |d| ==> d[i] >= 0x80
    decreases |d| - p
  {
    if p < |d| && d[p] >= 0x80 {
      VbeUIntShape(d, p + 1);
      match VbeUIntAt(d, p + 1)
      case Ok(x) =>
        assert d[p..x.next][1..] == d[p + 1..x.next];
        Place7(x.value);
      case Err(_) =>
    }
  }

  lemma {:induction false} SignedGroupsRoundTrip(d: seq<Byte>, p: nat, m: nat, negative: bool)
    requires Holds(d, p, SignedGroups(m, negative))
    ensures VbeSMagnitudeAt(d, p)
         == Ok(Decoded(SignedMagnitude(m, negative), p + |SignedGroups(m, negative)|))
    decreases m
  {
    if m >= 0x40 {
      HoldsCons(d, p, m % 0x80 + 0x80, SignedGroups(m / 0x80, negative));
      SignedGroupsRoundTrip(d, p + 1, m / 0x80, negative);
      Place7(m / 0x80);
    } else {
      assert SignedGroups(m, negative)[0] == m + if negative then 0x40 else 0;
    }
  }

  lemma VbeSIntRoundTrip(d: seq<Byte>, p: nat, x: int)
    requires Holds(d, p, EncodeVbeS(x))
    ensures VbeSIntAt(d, p) == Ok(Decoded(x, p + |EncodeVbeS(x)|))
  {
    SignedGroupsRoundTrip(d, p, if x < 0 then -x else x, x < 0);
  }

  /** The model encoder for a position: latitude, then longitude. */
  function EncodeLatLong(x: LatLong): seq<Byte> {
    EncodeVbeS(x.latitude) + EncodeVbeS(x.longitude)
  }

  /** A position reads back as itself, latitude first. */
  lemma LatLongRoundTrip(d: seq<Byte>, p: nat, x: LatLong)
    requires Holds(d, p, EncodeLatLong(x))
    ensures LatLongAt(d, p) == Ok(Decoded(x, p + |EncodeLatLong(x)|))
  {
    HoldsSplit(d, p, EncodeVbeS(x.latitude), EncodeVbeS(x.longitude));
    VbeSIntRoundTrip(d, p, x.latitude);
    VbeSIntRoundTrip(d, p + |EncodeVbeS(x.latitude)|, x.longitude);
  }

  /** The magnitude a run of signed VBE bytes carries: 7 bits from each byte before the
      last, the low 6 bits of the last, least significant group first. */
  function SignedGroupSum(s: seq<Byte>): nat
    requires s != []
  {
    if |s| == 1 then s[0] % 0x40 else s[0] % 0x80 + 0x80 * SignedGroupSum(s[1..])
  }

  /** A signed VBE read consumes the same run of bytes as an unsigned one; its magnitude is
      the 7-bit groups of the bytes before the last plus the low 6 bits of the last, and
      the result is negative only when bit 0x40 of the last byte is set. */
  lemma {:induction false} VbeSMagnitudeShape(d: seq<Byte>, p: nat)
    ensures match VbeSMagnitudeAt(d, p)
      case Ok(x) =>
        p < x.next <= |d| && d[x.next - 1] < 0x80
        && (forall i :: p <= i < x.next - 1 ==> d[i] >= 0x80)
        && x.value.negative == (d[x.next - 1] >= 0x40)
        && x.value.magnitude == SignedGroupSum(d[p..x.next])
      case Err(e) =>
        e == Io && forall i :: p <= i < |d| ==> d[i] >= 0x80
    decreases |d| - p
  {
    if p < |d| && d[p] >= 0x80 {
      VbeSMagnitudeShape(d, p + 1);
      match VbeSMagnitudeAt(d, p + 1)
      case Ok(x) =>
        assert d[p..x.next][1..] == d[p + 1..x.next];
        Place7(x.value.magnitude);
      case Err(_) =>
    }
  }

  /** The sign never changes the magnitude: the result is the accumulated groups, negated
      exactly when the sign bit is set and the groups are not 0 (a set sign bit with a zero
      magnitude gives 0). */
  lemma VbeSIntSign(d: seq<Byte>, p: nat)
    ensures VbeSMagnitudeAt(d, p).Ok? <==> VbeSIntAt(d, p).Ok?
    ensures VbeSIntAt(d, p).Ok? ==>
      var m := VbeSMagnitudeAt(d, p).value;
      var v := VbeSIntAt(d, p).value;
      v.next == m.next
      && (v.value >= 0 ==> v.value == m.value.magnitude)
      && (v.value < 0 ==> m.value.negative && -v.value == m.value.magnitude)
      && (m.value.negative && m.value.magnitude > 0 ==> v.value == -(m.value.magnitude as int))
      && (!m.value.negative ==> v.value == m.value.magnitude)
  {
  }

  /** A VBE string written by the model encoder reads back unchanged, consuming exactly
      the length prefix and the bytes. */
  lemma VbeStringRoundTrip(d: seq<Byte>, p: nat, s: seq<Byte>)
    requires ValidUtf8(s) && Holds(d, p, EncodeVbeString(s))
    ensures VbeStringAt(d, p) == Ok(Decoded(s, p + |EncodeVbeString(s)|))
  {
    var q := p + |EncodeVbeU(|s|)|;
    HoldsSplit(d, p, EncodeVbeU(|s|), s);
    VbeUIntRoundTrip(d, p, |s|);
    HoldsSlice(d, q, s);
    assert BytesAt(d, q, |s|) == Ok(Decoded(s, q + |s|));
  }

  /** A string read never yields part of its bytes: it yields all `L` of them, or fails with
      an I/O error when fewer than `L` follow the prefix, or panics on invalid UTF-8. */
  lemma VbeStringOutcome(d: seq<Byte>, p: nat)
    requires VbeUIntAt(d, p).Ok?
    ensures var len := VbeUIntAt(d, p).value;
      match VbeStringAt(d, p)
      case Ok(x) =>
        |x.value| == len.value && x.next == len.next + len.value <= |d| && ValidUtf8(x.value)
        && x.value == d[len.next..x.next]
      case Err(e) =>
        (e == Io <==> len.next + len.value > |d|)
        && (e == Panic(InvalidUtf8) <==> len.next + len.value <= |d|)
  {
  }

  /** The test vectors of `read_vbe_u_int`. */
  lemma VbeUIntTestVectors()
    ensures VbeUIntAt([0x05], 0) == Ok(Decoded(5, 1))
    ensures VbeUIntAt([0x00], 0) == Ok(Decoded(0, 1))
    ensures VbeUIntAt([0x82, 0x01], 0) == Ok(Decoded(130, 2))
  {
  }

  /** The test vectors of `read_vbe_s_int`, and a sign bit on a zero magnitude. */
  lemma VbeSIntTestVectors()
    ensures VbeSIntAt([0x05], 0) == Ok(Decoded(5, 1))
    ensures VbeSIntAt([0x00], 0) == Ok(Decoded(0, 1))
    ensures VbeSIntAt([0x45], 0) == Ok(Decoded(-5, 1))
    ensures VbeSIntAt([0xc2, 0x40], 0) == Ok(Decoded(-66, 2))
    ensures VbeSIntAt([0x81, 0x41], 0) == Ok(Decoded(-129, 2))
    ensures VbeSIntAt([0x40], 0) == Ok(Decoded(0, 1))
  {
  }

  /** The test vectors of `read_vbe_u`, a string cut short, and invalid UTF-8. */
  lemma VbeStringTestVectors()
    ensures VbeStringAt([0x05, 0x48, 0x65, 0x6c, 0x6c, 0x6f], 0)
         == Ok(Decoded([0x48, 0x65, 0x6c, 0x6c, 0x6f], 6))
    ensures VbeStringAt([0x00], 0) == Ok(Decoded([], 1))
    ensures VbeStringAt([0x82, 0x01] + seq(130, _ => 0x41), 0) == Ok(Decoded(seq(130, _ => 0x41), 132))
    ensures VbeStringAt([0x05, 0x48], 0) == Err(Io)
    ensures VbeStringAt([0x01, 0xFF], 0) == Err(Panic(InvalidUtf8))
  {
    var hello: seq<Byte> := [0x48, 0x65, 0x6c, 0x6c, 0x6f];
    assert [0x05, 0x48, 0x65, 0x6c, 0x6c, 0x6f][1..6] == hello;
    AsciiIsUtf8(hello);
    var a: seq<Byte> := seq(130, _ => 0x41);
    var d: seq<Byte> := [0x82, 0x01] + a;
    assert d[0] == 0x82 && d[1] == 0x01;
    assert VbeUIntAt(d, 0) == Ok(Decoded(130, 2));
    assert d[2..132] == a;
    AsciiIsUtf8(a);
  }
}
