/**
 The foreign value types the fetch command consumes: byte strings, Java's
 32-bit integers, quorums, vector clocks and locations. Only the accessors
 the command calls are modelled.
 */
module RiakTypes {

  /** One byte of a byte string. */
  newtype uint8 = x: int | 0 <= x < 0x100

  /** The byte string carried by a ByteArrayWrapper or a byte[]. */
  type Bytes = seq<uint8>

  /** Java's `int` / `Integer`. */
  newtype int32 = x: int | -0x8000_0000 <= x < 0x8000_0000

  /** A read quorum; `GetIntValue` is the integer the wire protocol carries. */
  datatype Quorum = Quorum(intValue: int32) {
    function GetIntValue(): int32 { intValue }
  }

  /** A vector clock, known to this layer only through its byte encoding. */
  datatype VClock = VClock(bytes: Bytes) {
    function GetBytes(): Bytes { bytes }
  }

  /** The address of one stored value: bucket type, bucket and key. */
  datatype Location = Location(bucketType: Bytes, bucket: Bytes, key: Bytes)
}
