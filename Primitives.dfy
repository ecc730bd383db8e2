// Values shared by every component: bytes, addresses, hashes, the reserved
// system sender, and the Option/Result wrappers used for null and for faults.
module Primitives {

  newtype byte = x: int | 0 <= x < 256

  /** A 20-byte account address. */
  type Address = a: seq<byte> | |a| == 20 witness seq(20, _ => 0)

  /** A 32-byte Keccak hash. */
  type Hash = h: seq<byte> | |h| == 32 witness seq(32, _ => 0)

  /** The reserved sender of protocol-issued transactions: 0xff..fffe. */
  const SystemUser: Address :=
    [0xff, 0xff, 0xff, 0xff, 0xff, 0xff, 0xff, 0xff, 0xff, 0xff,
     0xff, 0xff, 0xff, 0xff, 0xff, 0xff, 0xff, 0xff, 0xff, 0xfe]

  /** `long.MaxValue`, the largest 64-bit signed integer. */
  const LongMaxValue: int := 0x7FFF_FFFF_FFFF_FFFF

  /** A reference that may be null. */
  datatype Option<+T> = None | Some(value: T)

  /** The outcome of an operation that may raise an uncaught fault. */
  datatype Result<+T, +E> = Ok(value: T) | Err(error: E)
}
