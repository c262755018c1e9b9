/** Types shared by every module of the chunk server model. */
module Common {

  newtype Byte = x: int | 0 <= x < 256

  datatype Option<+T> = None | Some(value: T)

  /** Capacity of a chunk: 64 MB. */
  const CHUNKSIZE: nat := 0x400_0000

  /** Granularity of checksums: 64 KB. */
  const CHECKSUM_BLOCKSIZE: nat := 0x1_0000

  /** The same, for formulas. */
  const B: nat := CHECKSUM_BLOCKSIZE

  /** Number of values of a 64 bit `size_t`. */
  const SIZE_MODULUS: nat := 0x1_0000_0000_0000_0000

  /** Subtraction on `size_t`, with its wrap-around. */
  function SizeSub(x: nat, y: nat): nat {
    if x >= y then x - y else (x - y) % SIZE_MODULUS
  }
}
