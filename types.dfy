/** Machine-level types shared by the model of the photo-show server. */
module Types {

  /** 2^64: the number of values of Go's `uint64`. */
  const UINT64_MODULUS: int := 0x1_0000_0000_0000_0000

  /** The largest `uint64`, 2^64 - 1. */
  const MAX_UINT64: int := UINT64_MODULUS - 1

  /** Go's `uint64`. */
  type uint64 = x: int | 0 <= x < UINT64_MODULUS

  /** Go's `byte`. */
  type byte = x: int | 0 <= x < 256

  /** Subtraction on `uint64` as Go performs it: modulo 2^64. */
  function WrappingSub(a: uint64, b: uint64): (r: uint64)
    ensures b <= a ==> r == a - b
    ensures a < b ==> r == a - b + UINT64_MODULUS
  {
    (a - b) % UINT64_MODULUS
  }

  datatype Option<+T> = None | Some(value: T)

  datatype Result<+T, +E> = Ok(value: T) | Err(error: E)

  /** The bytes of a string whose characters are all ASCII (Go's `[]byte(s)` on such a string). */
  function AsciiBytes(s: string): (r: seq<byte>)
    requires forall i :: 0 <= i < |s| ==> s[i] as int < 128
    ensures |r| == |s|
    ensures forall i :: 0 <= i < |s| ==> r[i] == s[i] as int
  {
    if s == [] then [] else [s[0] as int] + AsciiBytes(s[1..])
  }
}
