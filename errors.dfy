// The decoder's error kinds (src/error.rs), the result type every read returns,
// and the shape of a successful read from the byte stream.
module Errors {

  /** The places where the decoder stops the process instead of returning an error. */
  datatype PanicKind =
    | InvalidUtf8           // `expect` on the bytes of a VBE string
    | TagIdOutOfRange       // `panic!` on a tag id not below the dictionary length
    | SplitIndexOutOfRange  // `kv[0]` / `kv[1]` past the pieces of a dictionary entry
    | NonAsciiTagText       // `unwrap` in the tag hash, which indexes chars by byte position
    | ArithmeticOverflow    // u8 / u32 arithmetic overflow (checked in a debug build)

  /** `MapforgeError`, with the index-signature error that the tile index uses and a
      `Panic` outcome standing for the aborts listed above. */
  datatype MapforgeError =
    | Io
    | InvalidMagic
    | UnsupportedVersion(found: nat)
    | InvalidBoundingBox
    | InvalidHeaderSize(size: nat)
    | InvalidIndexSignature
    | Panic(kind: PanicKind)

  datatype Result<T> = Ok(value: T) | Err(error: MapforgeError) {
    predicate IsFailure() { Err? }

    function PropagateFailure<U>(): Result<U>
      requires Err?
    {
      Err(error)
    }

    function Extract(): T
      requires Ok?
    {
      value
    }
  }

  /** A value read from the stream together with the position just after it. */
  datatype Decoded<T> = Decoded(value: T, next: nat)

  /** Pairs a method's result with the cursor it left behind, so that it can be compared
      with the specification of the same read. */
  function Tie<T>(r: Result<T>, next: nat): Result<Decoded<T>> {
    match r
    case Ok(v) => Ok(Decoded(v, next))
    case Err(e) => Err(e)
  }
}
