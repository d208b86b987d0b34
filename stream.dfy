// The seekable byte stream the decoder reads from (a `BufReader` over a file, with the
// big-endian fixed-width reads of the `byteorder` crate), modelled as an immutable byte
// sequence and a mutable cursor. Every read is specified by a function of the whole
// stream and a start position that gives the value and the position after it.
module ByteStream {
  import opened Errors

  type Byte = x: int | 0 <= x < 256

  /** A specification of one read: from a start position, the value and the next position. */
  type Parser<T> = (seq<Byte>, nat) -> Result<Decoded<T>>

  /** `e` sits in `d` at position `p`. */
  predicate Holds(d: seq<Byte>, p: nat, e: seq<Byte>) {
    p + |e| <= |d| && forall i :: 0 <= i < |e| ==> d[p + i] == e[i]
  }

  /** The bytes of `e` are the slice of `d` it occupies. */
  lemma HoldsSlice(d: seq<Byte>, p: nat, e: seq<Byte>)
    requires Holds(d, p, e)
    ensures d[p..p + |e|] == e
  {
    assert forall i | 0 <= i < |e| :: d[p..p + |e|][i] == e[i];
  }

  /** A byte in front of the rest. */
  lemma HoldsCons(d: seq<Byte>, p: nat, c: Byte, e: seq<Byte>)
    requires Holds(d, p, [c] + e)
    ensures p < |d| && d[p] == c && Holds(d, p + 1, e)
  {
    assert ([c] + e)[0] == c;
    forall i | 0 <= i < |e| ensures d[p + 1 + i] == e[i] {
      assert ([c] + e)[1 + i] == e[i];
    }
  }

  /** A record of three pieces around a single byte. */
  lemma HoldsSplitAround(d: seq<Byte>, p: nat, a: seq<Byte>, b: seq<Byte>, c: Byte, e: seq<Byte>)
    requires Holds(d, p, a + (b + ([c] + e)))
    ensures Holds(d, p, a) && Holds(d, p + |a|, b)
    ensures p + |a| + |b| < |d| && d[p + |a| + |b|] == c && Holds(d, p + |a| + |b| + 1, e)
    ensures |a + (b + ([c] + e))| == |a| + |b| + 1 + |e|
  {
    HoldsSplit(d, p, a, b + ([c] + e));
    HoldsSplit(d, p + |a|, b, [c] + e);
    HoldsCons(d, p + |a| + |b|, c, e);
  }

  lemma HoldsSplit(d: seq<Byte>, p: nat, a: seq<Byte>, b: seq<Byte>)
    requires Holds(d, p, a + b)
    ensures Holds(d, p, a) && Holds(d, p + |a|, b)
  {
    forall i | 0 <= i < |a| ensures d[p + i] == a[i] {
      assert (a + b)[i] == a[i];
    }
    forall i | 0 <= i < |b| ensures d[p + |a| + i] == b[i] {
      assert (a + b)[|a| + i] == b[i];
    }
  }

  /** `flags & mask != 0` for a single-bit `mask` (1, 2, 4, ..., 0x80): the bit of `flags`
      at that weight is one. */
  predicate IsSet(flags: Byte, mask: Byte) {
    mask > 0 && (flags / mask) % 2 == 1
  }

  function U8At(d: seq<Byte>, p: nat): Result<Decoded<Byte>> {
    if p < |d| then Ok(Decoded(d[p], p + 1)) else Err(Io)
  }

  /** `read_exact` of `n` bytes: all of them, or an I/O error. */
  function BytesAt(d: seq<Byte>, p: nat, n: nat): Result<Decoded<seq<Byte>>> {
    if p + n <= |d| then Ok(Decoded(d[p..p + n], p + n)) else Err(Io)
  }

  function Pow256(w: nat): (r: nat)
    ensures r >= 1
  {
    if w == 0 then 1 else 256 * Pow256(w - 1)
  }

  /** The unsigned value of bytes read most significant first. */
  function BeValue(s: seq<Byte>): nat {
    if s == [] then 0 else BeValue(s[..|s| - 1]) * 256 + s[|s| - 1]
  }

  /** `read_u16` / `read_u32` / `read_u64` with `BigEndian`, for `width` 2, 4, 8. */
  function BeUintAt(d: seq<Byte>, p: nat, width: nat): Result<Decoded<nat>> {
    var b :- BytesAt(d, p, width);
    Ok(Decoded(BeValue(b.value), b.next))
  }

  /** Two's complement reading of a 32-bit pattern. */
  function AsI32(u: nat): int {
    if u < 0x8000_0000 then u else u - 0x1_0000_0000
  }

  /** `read_i32::<BigEndian>`. */
  function I32At(d: seq<Byte>, p: nat): Result<Decoded<int>> {
    var u :- BeUintAt(d, p, 4);
    Ok(Decoded(AsI32(u.value), u.next))
  }

  /** The big-endian encoding of `n` in `w` bytes (the inverse of `BeValue`). */
  function BeBytes(n: nat, w: nat): (r: seq<Byte>)
    ensures |r| == w
  {
    if w == 0 then [] else BeBytes(n / 256, w - 1) + [n % 256]
  }

  function I32Bytes(x: int): seq<Byte> {
    BeBytes(x % 0x1_0000_0000, 4)
  }

  lemma {:induction false} BeValueBound(s: seq<Byte>)
    ensures BeValue(s) < Pow256(|s|)
  {
    if s != [] {
      BeValueBound(s[..|s| - 1]);
    }
  }

  lemma {:induction false} BeRoundTrip(n: nat, w: nat)
    requires n < Pow256(w)
    ensures BeValue(BeBytes(n, w)) == n
  {
    if w > 0 {
      var s := BeBytes(n, w);
      assert s[..|s| - 1] == BeBytes(n / 256, w - 1);
      BeRoundTrip(n / 256, w - 1);
    }
  }

  /** A fixed-width field written with `BeBytes` reads back as the same number. */
  lemma BeUintAtPlaced(d: seq<Byte>, p: nat, n: nat, w: nat)
    requires n < Pow256(w) && Holds(d, p, BeBytes(n, w))
    ensures BeUintAt(d, p, w) == Ok(Decoded(n, p + w))
  {
    HoldsSlice(d, p, BeBytes(n, w));
    BeRoundTrip(n, w);
  }

  /** Every 32-bit signed value survives the big-endian round trip, and `read_i32` never
      yields anything outside the signed 32-bit range. */
  lemma I32AtPlaced(d: seq<Byte>, p: nat, x: int)
    requires -0x8000_0000 <= x < 0x8000_0000 && Holds(d, p, I32Bytes(x))
    ensures I32At(d, p) == Ok(Decoded(x, p + 4))
  {
    BeUintAtPlaced(d, p, x % 0x1_0000_0000, 4);
  }

  lemma I32AtRange(d: seq<Byte>, p: nat)
    ensures I32At(d, p).Ok? ==> -0x8000_0000 <= I32At(d, p).value.value < 0x8000_0000
  {
    if p + 4 <= |d| {
      BeValueBound(d[p..p + 4]);
    }
  }

  // ---------------------------------------------------------------------------
  // Repetition: `for _ in 0..n { v.push(read()?) }`

  /** The number of iterations of `for _ in 1..n`: one fewer than `n`, and none when `n`
      is 0. */
  function FromOne(n: nat): nat {
    if n == 0 then 0 else n - 1
  }

  /** `n` reads of `item` one after another, in stream order; the first failure aborts. */
  function Many<T>(item: Parser<T>, d: seq<Byte>, p: nat, n: nat): (r: Result<Decoded<seq<T>>>)
    ensures r.Ok? ==> |r.value.value| == n
    ensures n == 0 ==> r == Ok(Decoded([], p))
    decreases n
  {
    if n == 0 then Ok(Decoded([], p))
    else
      var x :- item(d, p);
      var rest :- Many(item, d, x.next, n - 1);
      Ok(Decoded([x.value] + rest.value, rest.next))
  }

  /** The items a loop has already collected, in front of what the rest of the loop reads. */
  function Prepend<T>(done: seq<T>, r: Result<Decoded<seq<T>>>): Result<Decoded<seq<T>>> {
    match r
    case Ok(x) => Ok(Decoded(done + x.value, x.next))
    case Err(e) => Err(e)
  }

  /** Nothing in front changes nothing. */
  lemma PrependNothing<T>(r: Result<Decoded<seq<T>>>)
    ensures Prepend([], r) == r
  {
    if r.Ok? {
      assert [] + r.value.value == r.value.value;
    }
  }

  /** Leading zero bytes do not change a big-endian value. */
  lemma {:induction false} BeValueLeadingZeros(z: seq<Byte>, s: seq<Byte>)
    requires forall i | 0 <= i < |z| :: z[i] == 0
    ensures BeValue(z + s) == BeValue(s)
    decreases |s|
  {
    if s == [] {
      BeValueZeros(z);
      assert z + s == z;
    } else {
      assert (z + s)[..|z + s| - 1] == z + s[..|s| - 1];
      BeValueLeadingZeros(z, s[..|s| - 1]);
    }
  }

  lemma {:induction false} BeValueZeros(z: seq<Byte>)
    requires forall i | 0 <= i < |z| :: z[i] == 0
    ensures BeValue(z) == 0
    decreases |z|
  {
    if z != [] {
      BeValueZeros(z[..|z| - 1]);
    }
  }

  /** The bytes in front count `256^|b|` times as much as those behind. */
  lemma {:induction false} BeValueConcat(a: seq<Byte>, b: seq<Byte>)
    ensures BeValue(a + b) == BeValue(a) * Pow256(|b|) + BeValue(b)
    decreases |b|
  {
    if b == [] {
      assert a + b == a;
    } else {
      var b' := b[..|b| - 1];
      assert (a + b)[..|a + b| - 1] == a + b';
      BeValueConcat(a, b');
      calc {
        BeValue(a + b);
        BeValue(a + b') * 256 + b[|b| - 1];
        (BeValue(a) * Pow256(|b'|) + BeValue(b')) * 256 + b[|b| - 1];
        { assert (BeValue(a) * Pow256(|b'|)) * 256 == BeValue(a) * (Pow256(|b'|) * 256); }
        BeValue(a) * Pow256(|b|) + BeValue(b);
      }
    }
  }

  /** Before the first iteration nothing is in front; after the last nothing is left. */
  lemma PrependEnds<T>(item: Parser<T>, d: seq<Byte>, p: nat, n: nat, done: seq<T>)
    ensures Prepend([], Many(item, d, p, n)) == Many(item, d, p, n)
    ensures Prepend(done, Many(item, d, p, 0)) == Ok(Decoded(done, p))
  {
    match Many(item, d, p, n)
    case Ok(x) => assert [] + x.value == x.value;
    case Err(_) =>
    assert done + [] == done;
  }

  /** One loop iteration: a successful read moves an item into `done`; a failed one is the
      failure of the whole repetition. */
  lemma ManyStep<T>(item: Parser<T>, d: seq<Byte>, p: nat, n: nat, done: seq<T>)
    requires n > 0
    ensures item(d, p).Ok? ==>
      Prepend(done, Many(item, d, p, n))
        == Prepend(done + [item(d, p).value.value], Many(item, d, item(d, p).value.next, n - 1))
    ensures item(d, p).Err? ==> Prepend(done, Many(item, d, p, n)) == Err(item(d, p).error)
  {
    if item(d, p).Ok? {
      var x := item(d, p).value;
      match Many(item, d, x.next, n - 1)
      case Ok(rest) =>
        assert done + ([x.value] + rest.value) == done + [x.value] + rest.value;
      case Err(e) =>
    }
  }

  /** A loop iteration in terms of the value a read method returned: `Tie(x, q)` is what
      `item` gives at `p`. */
  lemma ManyRead<T>(item: Parser<T>, d: seq<Byte>, p: nat, n: nat, done: seq<T>, x: Result<T>, q: nat)
    requires n > 0 && Tie(x, q) == item(d, p)
    ensures x.Ok? ==> Prepend(done, Many(item, d, p, n)) == Prepend(done + [x.value], Many(item, d, q, n - 1))
    ensures x.Err? ==> Prepend(done, Many(item, d, p, n)) == Err(x.error)
  {
    ManyStep(item, d, p, n, done);
  }

  /** A repetition that reads `xs[0]` and then the rest of `xs` yields `xs`. */
  lemma ManyCons<T>(item: Parser<T>, d: seq<Byte>, p: nat, xs: seq<T>, q: nat, r: nat)
    requires |xs| > 0 && item(d, p) == Ok(Decoded(xs[0], q))
    requires Many(item, d, q, |xs| - 1) == Ok(Decoded(xs[1..], r))
    ensures Many(item, d, p, |xs|) == Ok(Decoded(xs, r))
  {
    assert [xs[0]] + xs[1..] == xs;
  }

  /** What every single read promises of its item holds of every item a repetition yields. */
  lemma {:induction false} ManyEach<T>(item: Parser<T>, P: T -> bool, d: seq<Byte>, p: nat, n: nat)
    requires forall e: seq<Byte>, q: nat :: item(e, q).Ok? ==> P(item(e, q).value.value)
    ensures Many(item, d, p, n).Ok? ==> forall i :: 0 <= i < n ==> P(Many(item, d, p, n).value.value[i])
    decreases n
  {
    if n > 0 && Many(item, d, p, n).Ok? {
      var x := item(d, p).value;
      ManyEach(item, P, d, x.next, n - 1);
      assert Many(item, d, p, n).value.value == [x.value] + Many(item, d, x.next, n - 1).value.value;
    }
  }

  class Reader {
    const data: seq<Byte>
    var pos: nat

    constructor (data: seq<Byte>)
      ensures this.data == data && pos == 0
    {
      this.data := data;
      pos := 0;
    }

    /** How far the cursor still is from the end of the stream. */
    function Remaining(): nat
      reads this
    {
      if pos <= |data| then |data| - pos else 0
    }

    /** `seek(SeekFrom::Start(p))`: any position is allowed; reads past the end fail. */
    method Seek(p: nat)
      modifies this
      ensures pos == p
    {
      pos := p;
    }

    method ReadU8() returns (r: Result<Byte>)
      modifies this
      ensures Tie(r, pos) == U8At(data, old(pos))
    {
      if pos < |data| {
        r := Ok(data[pos]);
        pos := pos + 1;
      } else {
        r := Err(Io);
      }
    }

    method ReadExact(n: nat) returns (r: Result<seq<Byte>>)
      modifies this
      ensures Tie(r, pos) == BytesAt(data, old(pos), n)
    {
      if pos + n <= |data| {
        r := Ok(data[pos..pos + n]);
        pos := pos + n;
      } else {
        r := Err(Io);
      }
    }

    method ReadBeUint(width: nat) returns (r: Result<nat>)
      modifies this
      ensures Tie(r, pos) == BeUintAt(data, old(pos), width)
    {
      var b := ReadExact(width);
      if b.Err? {
        return Err(b.error);
      }
      r := Ok(BeValue(b.value));
    }

    method ReadI32() returns (r: Result<int>)
      modifies this
      ensures Tie(r, pos) == I32At(data, old(pos))
    {
      var u := ReadBeUint(4);
      if u.Err? {
        return Err(u.error);
      }
      r := Ok(AsI32(u.value));
    }
  }
}
