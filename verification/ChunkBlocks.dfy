/**
 A chunk file and its checksums, as values.

 A chunk is a sequence of bytes with one checksum for each block of CHECKSUM_BLOCKSIZE bytes, taken
 over the block padded with zeros. The checksum itself is any function `ck` of a block. The file may
 hold bytes past the end of the chunk: padding, or what is left of a chunk that got truncated.
 */
module ChunkBlocks {
  import opened Common

  const MAX_BLOCKS: nat := CHUNKSIZE / B

  type Checksum = seq<Byte> -> nat

  datatype Info = Info(file: seq<Byte>, size: nat, sums: seq<nat>)
  {
    predicate Valid() { size <= |file| && size <= CHUNKSIZE && |sums| == MAX_BLOCKS }

    /** The bytes of the chunk. */
    function Content(): seq<Byte>
      requires Valid()
    {
      file[..size]
    }
  }

  // ----- bytes and blocks

  /** Reading past the end gives zeros. */
  function At(c: seq<Byte>, k: int): Byte {
    if 0 <= k < |c| then c[k] else 0
  }

  function Window(c: seq<Byte>, start: int, len: nat): (r: seq<Byte>)
    ensures |r| == len && forall i :: 0 <= i < len ==> r[i] == At(c, start + i)
  {
    seq(len, i requires 0 <= i => At(c, start + i))
  }

  /** Block `b`, padded with zeros. */
  function Block(c: seq<Byte>, b: nat): seq<Byte> {
    Window(c, b * B, B)
  }

  /** `d` written over `c` at offset `o`; a gap between the two reads as zeros. */
  function Overlay(c: seq<Byte>, o: nat, d: seq<Byte>): (r: seq<Byte>)
    ensures |r| == if |c| >= o + |d| then |c| else o + |d|
    ensures forall i :: 0 <= i < |r| ==> r[i] == if o <= i < o + |d| then d[i - o] else At(c, i)
  {
    seq(if |c| >= o + |d| then |c| else o + |d|,
        i requires 0 <= i => if o <= i < o + |d| then d[i - o] else At(c, i))
  }

  /** Smallest multiple of the block size that is not below `n`. */
  function RoundUp(n: nat): (r: nat)
    ensures r % B == 0 && n <= r < n + B
  {
    (n + B - 1) / B * B
  }

  function ZeroPad(c: seq<Byte>): seq<Byte> {
    Window(c, 0, RoundUp(|c|))
  }

  /** Every checksum of the chunk is that of its block. */
  ghost predicate Agrees(ck: Checksum, c: seq<Byte>, sums: seq<nat>) {
    forall b: nat | b < |sums| && b * B < |c| :: sums[b] == ck(Block(c, b))
  }

  /** A chunk all of whose checksums are right. */
  ghost predicate Sound(ck: Checksum, f: Info) {
    f.Valid() && Agrees(ck, f.Content(), f.sums)
  }

  // ----- checksums of a buffer

  function ComputeChecksums(ck: Checksum, data: seq<Byte>): seq<nat> {
    if |data| <= B then [ck(data)] else [ck(data[..B])] + ComputeChecksums(ck, data[B..])
  }

  lemma WindowIsSlice(c: seq<Byte>, start: nat, len: nat)
    requires start + len <= |c|
    ensures Window(c, start, len) == c[start..start + len]
  {
  }

  lemma BlockOfRest(data: seq<Byte>, i: nat)
    requires 0 < i && B <= |data|
    ensures Block(data[B..], i - 1) == Block(data, i)
  {
  }

  lemma {:induction false} ChecksumsAreOfBlocks(ck: Checksum, data: seq<Byte>, i: nat)
    requires data != [] && |data| % B == 0
    ensures |ComputeChecksums(ck, data)| == |data| / B
    ensures i < |data| / B ==> ComputeChecksums(ck, data)[i] == ck(Block(data, i))
  {
    if |data| <= B {
      assert Block(data, 0) == data;
    } else {
      ChecksumsAreOfBlocks(ck, data[B..], if i == 0 then 0 else i - 1);
      if i == 0 { WindowIsSlice(data, 0, B); } else { BlockOfRest(data, i); }
    }
  }

  // ----- writes

  datatype Error = EInvalid | ENoSpace | EBusy | EBadVersion | EIo | EBadChecksum

  datatype WriteOp = WriteOp(
    offset: int, data: seq<Byte>,
    prepared: bool,            // came through write prepare, not from re-replication
    supplied: seq<nat>,        // checksums that came with the data
    readBack: Option<seq<Byte>>)  // the blocks to modify, once they were read

  datatype WriteResult =
    | Refused(error: Error)
    | ReadFirst(start: nat, length: nat)
    | Written(info: Info)

  /** What the outside contributes to a write: space, a free disk queue, where buffers start and end. */
  datatype WriteEnv = WriteEnv(spaceLeft: int, diskOk: bool, skip: nat, extra: nat)

  /** The checksums of consecutive blocks, the first of them the one `offset` is in. */
  function UpdateChecksums(f: Info, offset: nat, n: nat, sums: seq<nat>): Info {
    f.(sums := seq(|f.sums|, b requires 0 <= b < |f.sums| =>
         if offset / B <= b < offset / B + |sums| then sums[b - offset / B] else f.sums[b]),
       size := if f.size < offset + n then offset + n else f.size)
  }

  function PutOnDisk(f: Info, start: nat, data: seq<Byte>): Info {
    f.(file := Overlay(f.file, start, data))
  }

  /** Bytes of the operation that fit into the chunk. */
  function Clipped(op: WriteOp): seq<Byte>
    requires op.offset <= CHUNKSIZE
  {
    if |op.data| <= CHUNKSIZE - op.offset then op.data else op.data[..CHUNKSIZE - op.offset]
  }

  predicate Aligned(offset: nat, n: nat) {
    offset % B == 0 && n >= B
  }

  /** Size of the blocks a write that is not aligned goes to. */
  function PartialLength(offset: nat, n: nat): nat {
    if offset % B + n > B then 2 * B else B
  }

  /** The checksums of an aligned write: those that came with it when there is one for every block. */
  function AlignedSums(ck: Checksum, op: WriteOp, d: seq<Byte>): seq<nat> {
    if op.prepared && |op.supplied| == |d| / B then op.supplied else ComputeChecksums(ck, d)
  }

  /** The blocks a partial write makes: from nothing past the end of the chunk, or from what was read. */
  function PartialBlocks(f: Info, offset: nat, d: seq<Byte>, readBack: seq<Byte>): (r: seq<Byte>)
    requires |d| < B
    ensures |r| >= offset % B + |d|
  {
    if offset - offset % B >= f.size then Window(Overlay([], offset % B, d), 0, PartialLength(offset, |d|))
    else ZeroPad(Overlay(readBack, offset % B, d))
  }

  function WriteAligned(ck: Checksum, f: Info, op: WriteOp, d: seq<Byte>): Info
    requires op.offset >= 0
  {
    UpdateChecksums(PutOnDisk(f, op.offset, d), op.offset, |d|, AlignedSums(ck, op, d))
  }

  /** Only whole buffers go to disk: up to `skip` bytes before the data stay behind, and `extra` after it go along. */
  function WritePartial(ck: Checksum, f: Info, offset: nat, d: seq<Byte>, readBack: seq<Byte>, env: WriteEnv): Info
    requires |d| < B
  {
    var blocks := PartialBlocks(f, offset, d, readBack);
    SendBlocks(ck, f, offset, |d|, blocks, FirstSent(offset % B, env), LastSent(offset % B + |d|, env, |blocks|))
  }

  /** Write bytes `lo` to `hi` of the blocks, and note the checksums of all of them. */
  function SendBlocks(ck: Checksum, f: Info, offset: nat, n: nat, blocks: seq<Byte>, lo: nat, hi: nat): Info
    requires lo <= hi <= |blocks|
  {
    UpdateChecksums(PutOnDisk(f, offset - offset % B + lo, blocks[lo..hi]), offset, n, ComputeChecksums(ck, blocks))
  }

  function FirstSent(off: nat, env: WriteEnv): (lo: nat)
    ensures lo <= off
  {
    if env.skip <= off then env.skip else off
  }

  function LastSent(end: nat, env: WriteEnv, len: nat): (hi: nat)
    ensures hi <= len && (end <= len ==> end <= hi)
  {
    if end + env.extra <= len then end + env.extra else len
  }

  function WriteChunk(ck: Checksum, f: Info, op: WriteOp, env: WriteEnv): WriteResult
    requires op.offset <= CHUNKSIZE
  {
    var d := Clipped(op);
    var n := |d|;
    if n == 0 || op.offset < 0 then Refused(EInvalid)
    else if op.offset + n > f.size && op.offset + n - f.size >= env.spaceLeft then Refused(ENoSpace)
    else if Aligned(op.offset, n) then
      if n % B != 0 then Refused(EInvalid)
      else if !env.diskOk then Refused(EBusy)
      else Written(WriteAligned(ck, f, op, d))
    else if n >= B then Refused(EInvalid)
    else
      var start := op.offset - op.offset % B;
      if start < f.size && op.readBack.None? then ReadFirst(start, PartialLength(op.offset, n))
      else if !env.diskOk then Refused(EBusy)
      else Written(WritePartial(ck, f, op.offset, d, if op.readBack.Some? then op.readBack.value else [], env))
  }

  // ----- reads

  /** Bytes that a read gets, at most up to the end of the chunk. */
  function ReadLength(f: Info, offset: nat, n: nat): nat {
    if offset >= f.size then 0 else if offset + n > f.size then f.size - offset else n
  }

  datatype ReadResult = ReadError(error: Error) | Data(data: seq<Byte>)

  /** The whole blocks that `len` bytes at `offset` lie in, up to the end of the chunk. */
  function RawBlocks(f: Info, offset: nat, len: nat): seq<Byte>
    requires f.Valid() && len > 0 && offset + len <= f.size
  {
    var end := RoundUp(offset + len);
    f.file[offset - offset % B..if end <= f.size then end else f.size]
  }

  /** Verifies the blocks that were read, and cuts out what was asked for. */
  function Verified(ck: Checksum, f: Info, offset: nat, len: nat, raw: seq<Byte>): ReadResult
    requires offset % B + len <= |raw|
  {
    if Matches(f.sums, offset / B, ComputeChecksums(ck, ZeroPad(raw))) then Data(raw[offset % B..offset % B + len])
    else ReadError(EBadChecksum)
  }

  function ReadChunk(ck: Checksum, f: Info, offset: nat, n: nat, versionOk: bool, diskOk: bool): ReadResult
    requires f.Valid()
  {
    if !versionOk then ReadError(EBadVersion)
    else if !diskOk then ReadError(EBusy)
    else
      var len := ReadLength(f, offset, n);
      if len == 0 then ReadError(EIo) else Verified(ck, f, offset, len, RawBlocks(f, offset, len))
  }

  predicate Matches(stored: seq<nat>, first: nat, sums: seq<nat>) {
    forall i: nat | i < |sums| && first + i < |stored| :: sums[i] == stored[first + i]
  }
}
