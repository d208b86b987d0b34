// Tag construction (src/tag.rs): the dictionary separator, the keys of the three tags a
// way record can carry outside the dictionary, and `Tag::new`, which stores a key and a
// value with the hash codes of both (src/utils.rs `hash_tag_parameter`).
module Tags {
  import opened Errors
  import opened ByteStream
  import opened Types
  import opened Utils

  /** The bytes of an ASCII string literal. */
  function Ascii(s: string): seq<Byte> {
    seq(|s|, i requires 0 <= i < |s| => (s[i] as int) % 0x80)
  }

  const KEY_VALUE_SEPARATOR: Byte := 0x3D  // '='
  const TAG_KEY_NAME: seq<Byte> := Ascii("name")
  const TAG_KEY_HOUSE_NUMBER: seq<Byte> := Ascii("addr:housenumber")
  const TAG_KEY_REF: seq<Byte> := Ascii("ref")

  // ---------------------------------------------------------------------------
  // hash_tag_parameter

  const WORD: nat := 0x1_0000_0000_0000_0000  // usize arithmetic wraps modulo 2^64

  /** `31_usize.wrapping_pow(k)`. */
  function Pow31(k: nat): (r: nat)
    ensures r < WORD
  {
    if k == 0 then 1 else (31 * Pow31(k - 1)) % WORD
  }

  /** `x.wrapping_mul(31_usize.wrapping_pow(k))`, one factor 31 at a time (equal to the
      product, as `WrappingMulPow31` shows). */
  function MulPow31(x: nat, k: nat): (r: nat)
    ensures r < WORD
    decreases k
  {
    if k == 0 then x % WORD else MulPow31(x * 31 % WORD, k - 1)
  }

  /** The loop of `hash_tag_parameter` from index `i` on, with `h` the hash so far:
      `hash = hash.wrapping_add(c).wrapping_mul(31.wrapping_pow((n - i + 1) as u32))`. */
  function HashFrom(s: seq<Byte>, i: nat, h: nat): (r: nat)
    requires h < WORD
    ensures r < WORD
    decreases |s| - i
  {
    if i >= |s| then h
    else HashFrom(s, i + 1, MulPow31((h + s[i]) % WORD, (|s| - i + 1) % 0x1_0000_0000))
  }

  /** `hash_tag_parameter` takes the i-th char for every byte index i: on text that is not
      ASCII there are fewer chars than bytes and the `unwrap` panics. */
  function HashTagParameter(s: seq<Byte>): Result<nat> {
    if IsAscii(s) then Ok(HashFrom(s, 0, 0)) else Err(Panic(NonAsciiTagText))
  }

  /** `Tag::new`: key and value are stored unchanged, each with its hash code; the codes
      depend on the text alone. */
  function NewTag(key: seq<Byte>, value: seq<Byte>): (r: Result<Tag>)
    ensures r.Ok? <==> IsAscii(key) && IsAscii(value)
    ensures r.Err? ==> r.error == Panic(NonAsciiTagText)
    ensures r.Ok? ==>
      r.value.key == key && r.value.value == value
      && HashTagParameter(key) == Ok(r.value.keyCode)
      && HashTagParameter(value) == Ok(r.value.valueCode)
      && r.value.keyCode < WORD && r.value.valueCode < WORD
  {
    var keyCode :- HashTagParameter(key);
    var valueCode :- HashTagParameter(value);
    Ok(Tag(key, keyCode, value, valueCode))
  }

  // ---------------------------------------------------------------------------
  // split_terminator on the dictionary separator

  /** `str::split`: the pieces between separators; always at least one. */
  function Split(s: seq<Byte>, sep: Byte): (r: seq<seq<Byte>>)
    ensures |r| >= 1
    decreases |s|
  {
    if s == [] then [[]]
    else if s[0] == sep then [[]] + Split(s[1..], sep)
    else
      var rest := Split(s[1..], sep);
      [[s[0]] + rest[0]] + rest[1..]
  }

  /** `str::split_terminator`: as `split`, but an empty last piece is dropped. */
  function SplitTerminator(s: seq<Byte>, sep: Byte): seq<seq<Byte>> {
    if s == [] then []
    else if s[|s| - 1] == sep then Split(s[..|s| - 1], sep)
    else Split(s, sep)
  }

  function Join(pieces: seq<seq<Byte>>, sep: Byte): seq<Byte> {
    if |pieces| == 0 then []
    else if |pieces| == 1 then pieces[0]
    else pieces[0] + [sep] + Join(pieces[1..], sep)
  }

  /** A dictionary entry as the POI and way decoders use it: split on '=' with
      `split_terminator`, then `Tag::new(kv[0], kv[1])`, which panics when there are fewer
      than two pieces. */
  function TagFromEntry(entry: seq<Byte>): Result<Tag> {
    var kv := SplitTerminator(entry, KEY_VALUE_SEPARATOR);
    if |kv| < 2 then Err(Panic(SplitIndexOutOfRange)) else NewTag(kv[0], kv[1])
  }
}

module TagsProperties {
  import opened Errors
  import opened ByteStream
  import opened Types
  import opened Utils
  import opened Tags

  /** The constants of src/tag.rs, byte for byte. */
  lemma TagConstants()
    ensures KEY_VALUE_SEPARATOR == '=' as int
    ensures TAG_KEY_NAME == [0x6E, 0x61, 0x6D, 0x65]
    ensures TAG_KEY_REF == [0x72, 0x65, 0x66]
    ensures TAG_KEY_HOUSE_NUMBER
         == [0x61, 0x64, 0x64, 0x72, 0x3A, 0x68, 0x6F, 0x75, 0x73, 0x65, 0x6E, 0x75, 0x6D, 0x62, 0x65, 0x72]
    ensures IsAscii(TAG_KEY_NAME) && IsAscii(TAG_KEY_HOUSE_NUMBER) && IsAscii(TAG_KEY_REF)
  {
  }

  /** Reducing the left factor first does not change a product modulo 2^64. */
  lemma {:induction false} MulModLeft(a: nat, b: nat)
    ensures (a % WORD * b) % WORD == (a * b) % WORD
    decreases b
  {
    if b > 0 {
      MulModLeft(a, b - 1);
      var r := a % WORD;
      var u, v := r * (b - 1), a * (b - 1);
      MulOneMore(r, b);
      MulOneMore(a, b);
      AddCongruent(u, v, r, a);
    }
  }

  lemma AddCongruent(u: nat, v: nat, r: nat, a: nat)
    requires u % WORD == v % WORD && r == a % WORD
    ensures (u + r) % WORD == (v + a) % WORD
  {
  }

  lemma MulOneMore(x: nat, b: nat)
    requires b > 0
    ensures x * b == x * (b - 1) + x
  {
  }

  /** Multiplying by 31 `k` times, reducing each time, is the wrapping product with the
      wrapping power `31^k`. */
  lemma {:induction false} WrappingMulPow31(x: nat, k: nat)
    ensures MulPow31(x, k) == (x * Pow31(k)) % WORD
    decreases k
  {
    if k > 0 {
      WrappingMulPow31(x * 31 % WORD, k - 1);
      WrappingStep(x, Pow31(k - 1));
    }
  }

  /** One factor 31 taken into the wrapping power: reducing `x * 31` first gives the same
      product as multiplying by the reduced `31 * p`. */
  lemma WrappingStep(x: nat, p: nat)
    ensures (x * 31 % WORD * p) % WORD == (x * ((31 * p) % WORD)) % WORD
  {
    var a, b := x * 31, 31 * p;
    var c := b % WORD;
    MulModLeft(a, p);
    MulModLeft(b, x);
    assert a * p == b * x;
    assert c * x == x * c;
  }

  /** Splitting loses nothing: joining the pieces with the separator gives the text back,
      and no piece contains the separator. */
  lemma SplitJoin(s: seq<Byte>, sep: Byte)
    ensures Join(Split(s, sep), sep) == s
    ensures forall i :: 0 <= i < |Split(s, sep)| ==> sep !in Split(s, sep)[i]
  {
    JoinSplit(s, sep);
    SplitPiecesFree(s, sep);
  }

  lemma {:induction false} JoinSplit(s: seq<Byte>, sep: Byte)
    ensures Join(Split(s, sep), sep) == s
    decreases |s|
  {
    if s != [] {
      JoinSplit(s[1..], sep);
      var rest := Split(s[1..], sep);
      if s[0] == sep {
        assert Split(s, sep)[1..] == rest;
      } else {
        var r := Split(s, sep);
        assert r[1..] == rest[1..];
        if |rest| == 1 {
          assert Join(r, sep) == [s[0]] + rest[0];
        } else {
          assert Join(rest, sep) == rest[0] + [sep] + Join(rest[1..], sep);
          assert Join(r, sep) == [s[0]] + rest[0] + [sep] + Join(rest[1..], sep);
        }
        assert s == [s[0]] + s[1..];
      }
    }
  }

  lemma {:induction false} SplitPiecesFree(s: seq<Byte>, sep: Byte)
    ensures forall i :: 0 <= i < |Split(s, sep)| ==> sep !in Split(s, sep)[i]
    decreases |s|
  {
    if s != [] {
      SplitPiecesFree(s[1..], sep);
      var rest, r := Split(s[1..], sep), Split(s, sep);
      if s[0] == sep {
        forall i | 0 <= i < |r| ensures sep !in r[i] {
          if i > 0 {
            assert r[i] == rest[i - 1];
          }
        }
      } else {
        forall i | 0 <= i < |r| ensures sep !in r[i] {
          if i == 0 {
            assert r[0] == [s[0]] + rest[0];
          } else {
            assert r[i] == rest[i];
          }
        }
      }
    }
  }

  /** There is more than one piece exactly when the text contains the separator. */
  lemma {:induction false} SplitSingle(s: seq<Byte>, sep: Byte)
    ensures |Split(s, sep)| == 1 <==> sep !in s
    ensures sep !in s ==> Split(s, sep) == [s]
    decreases |s|
  {
    if s != [] {
      SplitSingle(s[1..], sep);
      assert s == [s[0]] + s[1..];
    }
  }

  /** A key free of the separator, then the separator: the key is the first piece and the
      rest is split on its own. */
  lemma {:induction false} SplitAfterKey(k: seq<Byte>, t: seq<Byte>, sep: Byte)
    requires sep !in k
    ensures Split(k + [sep] + t, sep) == [k] + Split(t, sep)
    decreases |k|
  {
    if k == [] {
      assert [sep] + t == k + [sep] + t;
      assert ([sep] + t)[1..] == t;
    } else {
      SplitAfterKey(k[1..], t, sep);
      assert (k + [sep] + t)[1..] == k[1..] + [sep] + t;
      assert [k[0]] + k[1..] == k;
    }
  }

  /** `split_terminator` yields at least two pieces exactly when some separator is not the
      last byte; "a" and "a=" have only one. */
  lemma TwoPiecesExactly(s: seq<Byte>, sep: Byte)
    ensures |SplitTerminator(s, sep)| >= 2 <==> exists i :: 0 <= i < |s| - 1 && s[i] == sep
  {
    if s != [] {
      var n := |s|;
      if s[n - 1] == sep {
        SplitSingle(s[..n - 1], sep);
        assert (exists i :: 0 <= i < n - 1 && s[i] == sep) <==> sep in s[..n - 1];
      } else {
        SplitSingle(s, sep);
        assert (exists i :: 0 <= i < n - 1 && s[i] == sep) <==> sep in s;
      }
    }
  }

  /** An entry "key=value" with a non-empty value gives Tag(key, value). */
  lemma TagFromKeyValue(k: seq<Byte>, v: seq<Byte>)
    requires '=' as int !in k && '=' as int !in v && v != []
    ensures TagFromEntry(k + [0x3D] + v) == NewTag(k, v)
  {
    var e := k + [KEY_VALUE_SEPARATOR] + v;
    SplitAfterKey(k, v, KEY_VALUE_SEPARATOR);
    SplitSingle(v, KEY_VALUE_SEPARATOR);
    assert e[|e| - 1] == v[|v| - 1];
  }

  /** After a second '=' the rest of the entry is ignored: "a=b=c" gives Tag("a", "b"),
      and "a==" gives Tag("a", ""). */
  lemma TagStopsAtSecondSeparator(k: seq<Byte>, v: seq<Byte>, t: seq<Byte>)
    requires '=' as int !in k && '=' as int !in v
    ensures TagFromEntry(k + [0x3D] + v + [0x3D] + t) == NewTag(k, v)
  {
    var sep := KEY_VALUE_SEPARATOR;
    var e := k + [sep] + v + [sep] + t;
    var n := |e|;
    if t == [] {
      assert e[..n - 1] == k + [sep] + v;
      SplitAfterKey(k, v, sep);
      SplitSingle(v, sep);
    } else if t[|t| - 1] == sep {
      var t' := t[..|t| - 1];
      assert e[..n - 1] == k + [sep] + (v + [sep] + t');
      SplitAfterKey(k, v + [sep] + t', sep);
      SplitAfterKey(v, t', sep);
    } else {
      assert e == k + [sep] + (v + [sep] + t);
      SplitAfterKey(k, v + [sep] + t, sep);
      SplitAfterKey(v, t, sep);
    }
  }

  /** Without a '=' before the last byte there is no value piece and the decoder panics:
      "a" and "a=" are such entries. */
  lemma TagWithoutValuePanics(k: seq<Byte>)
    requires '=' as int !in k
    ensures TagFromEntry(k) == Err(Panic(SplitIndexOutOfRange))
    ensures TagFromEntry(k + [0x3D]) == Err(Panic(SplitIndexOutOfRange))
  {
    var sep := KEY_VALUE_SEPARATOR;
    TwoPiecesExactly(k, sep);
    TwoPiecesExactly(k + [sep], sep);
    assert forall i :: 0 <= i < |k + [sep]| - 1 ==> (k + [sep])[i] == k[i];
  }

  /** Equal texts give equal codes: a tag's codes are functions of its key and value. */
  lemma TagCodesFollowText(k1: seq<Byte>, v1: seq<Byte>, k2: seq<Byte>, v2: seq<Byte>)
    requires NewTag(k1, v1).Ok? && NewTag(k2, v2).Ok?
    ensures k1 == k2 ==> NewTag(k1, v1).value.keyCode == NewTag(k2, v2).value.keyCode
    ensures v1 == v2 ==> NewTag(k1, v1).value.valueCode == NewTag(k2, v2).value.valueCode
  {
  }
}
