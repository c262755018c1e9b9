/**
 One open chunk of the chunk manager: its file, its size and its block checksums, updated in place.
 Each method does what the function of the same name in ChunkBlocks or ChunkTruncate says.
 */
module ChunkFile {
  import opened Common
  import opened ChunkBlocks
  import opened ChunkTruncate
  import ChunkName

  /** Checksums of consecutive blocks of a buffer. */
  method ComputeBlockChecksums(ck: Checksum, data: seq<Byte>) returns (sums: seq<nat>)
    ensures sums == ComputeChecksums(ck, data)
  {
    sums := [];
    var curr := 0;
    while |data| - curr > B
      invariant 0 <= curr <= |data|
      invariant sums + ComputeChecksums(ck, data[curr..]) == ComputeChecksums(ck, data)
    {
      assert data[curr..][..B] == data[curr..curr + B] && data[curr..][B..] == data[curr + B..];
      sums := sums + [ck(data[curr..curr + B])];
      curr := curr + B;
    }
    sums := sums + [ck(data[curr..])];
  }

  /** Compares checksums with the stored ones, up to the first difference. */
  method Verify(stored: array<nat>, first: nat, sums: seq<nat>) returns (mismatch: bool)
    ensures mismatch == !Matches(stored[..], first, sums)
  {
    mismatch := false;
    var i, block := 0, first;
    while i < |sums| && block < stored.Length
      invariant 0 <= i <= |sums| && block == first + i
      invariant forall j: nat | j < i && first + j < stored.Length :: sums[j] == stored[..][first + j]
    {
      if sums[i] != stored[block] {
        assert sums[i] != stored[..][first + i];
        return true;
      }
      i, block := i + 1, block + 1;
    }
  }

  class ChunkFile {
    const ck: Checksum
    const sums: array<nat>
    var file: seq<Byte>
    var size: nat

    /** The file, the size and the checksums as a value. */
    ghost function Model(): Info
      reads this, sums
    {
      Info(file, size, sums[..])
    }

    ghost predicate Valid()
      reads this, sums
    {
      Model().Valid()
    }

    constructor (ck: Checksum)
      ensures Valid() && fresh(sums) && this.ck == ck && Sound(ck, Model()) && Model().Content() == []
    {
      this.ck := ck;
      this.sums := new nat[MAX_BLOCKS];
      this.file, this.size := [], 0;
    }

    method UpdateChecksums(offset: nat, n: nat, blockSums: seq<nat>)
      requires Valid() && offset / B + |blockSums| <= MAX_BLOCKS
      modifies this`size, sums
      ensures Model() == ChunkBlocks.UpdateChecksums(old(Model()), offset, n, blockSums)
    {
      var i := 0;
      while i < |blockSums|
        invariant 0 <= i <= |blockSums| && size == old(size)
        invariant forall b: nat | b < sums.Length ::
          sums[b] == if offset / B <= b < offset / B + i then blockSums[b - offset / B] else old(sums[b])
      {
        sums[(offset + i * B) / B] := blockSums[i];
        i := i + 1;
      }
      if size < offset + n { size := offset + n; }
      ghost var after := ChunkBlocks.UpdateChecksums(old(Model()), offset, n, blockSums);
      assert sums[..] == after.sums;
      assert file == after.file && size == after.size;
    }

    /** Puts the data on disk and notes the checksums. */
    method Store(start: nat, data: seq<Byte>, offset: nat, n: nat, blockSums: seq<nat>)
      requires Valid() && offset / B + |blockSums| <= MAX_BLOCKS
      modifies this, sums
      ensures Model() == ChunkBlocks.UpdateChecksums(PutOnDisk(old(Model()), start, data), offset, n, blockSums)
    {
      file := Overlay(file, start, data);
      assert Model() == PutOnDisk(old(Model()), start, data);
      UpdateChecksums(offset, n, blockSums);
    }
  
    method WriteChunk(op: WriteOp, env: WriteEnv) returns (r: WriteResult)
      requires Valid() && op.offset <= CHUNKSIZE
      requires op.readBack.Some? && op.offset >= 0 ==> |op.readBack.value| <= PartialLength(op.offset, |Clipped(op)|)
      modifies this, sums
      ensures r == ChunkBlocks.WriteChunk(ck, old(Model()), op, env)
      ensures Model() == if r.Written? then r.info else old(Model())
    {
      ghost var f := Model();
      var d := Clipped(op);
      var n := |d|;
      if n == 0 || op.offset < 0 { return Refused(EInvalid); }
      if op.offset + n > size && op.offset + n - size >= env.spaceLeft { return Refused(ENoSpace); }
      if op.offset % B == 0 && n >= B {
        if n % B != 0 { return Refused(EInvalid); }
        if !env.diskOk { return Refused(EBusy); }
        var checksums := op.supplied;
        if !(op.prepared && |op.supplied| == n / B) { checksums := ComputeBlockChecksums(ck, d); }
        ChecksumsAreOfBlocks(ck, d, 0);
        Store(op.offset, d, op.offset, n, checksums);
        assert Model() == WriteAligned(ck, f, op, d);
        r := Written(Info(file, size, sums[..]));
      } else {
        if n >= B { return Refused(EInvalid); }
        r := WritePart(op, d, env);
      }
    }

    /** The path of a write that covers a block in part: no block yet, read first, or modify what was read. */
    method WritePart(op: WriteOp, d: seq<Byte>, env: WriteEnv) returns (r: WriteResult)
      requires Valid() && 0 <= op.offset <= CHUNKSIZE && 0 < |d| < B && op.offset + |d| <= CHUNKSIZE
      requires op.readBack.Some? ==> |op.readBack.value| <= PartialLength(op.offset, |d|)
      modifies this, sums
      ensures r == if op.offset - op.offset % B < old(size) && op.readBack.None? then ReadFirst(op.offset - op.offset % B, PartialLength(op.offset, |d|))
                   else if !env.diskOk then Refused(EBusy)
                   else Written(WritePartial(ck, old(Model()), op.offset, d, if op.readBack.Some? then op.readBack.value else [], env))
      ensures Model() == if r.Written? then r.info else old(Model())
    {
      ghost var f := Model();
      var off := op.offset % B;
      if op.offset - off < size && op.readBack.None? {
        return ReadFirst(op.offset - off, if off + |d| > B then 2 * B else B);
      }
      if !env.diskOk { return Refused(EBusy); }
      var readBack := if op.readBack.Some? then op.readBack.value else [];
      var blocks := BuildBlocks(op.offset, d, readBack);
      SendBlocks(op.offset, |d|, blocks, FirstSent(off, env), LastSent(off + |d|, env, |blocks|));
      assert Model() == WritePartial(ck, f, op.offset, d, readBack, env);
      r := Written(Info(file, size, sums[..]));
    }

    method BuildBlocks(offset: nat, d: seq<Byte>, readBack: seq<Byte>) returns (blocks: seq<Byte>)
      requires Valid() && 0 < |d| < B
      requires |readBack| <= PartialLength(offset, |d|)
      ensures blocks == PartialBlocks(Model(), offset, d, readBack)
      ensures |blocks| == PartialLength(offset, |d|)
    {
      var off := offset % B;
      var length := if off + |d| > B then 2 * B else B;
      if offset - off >= size {
        blocks := Window(Overlay([], off, d), 0, length);
      } else {
        blocks := ZeroPad(Overlay(readBack, off, d));
        assert |blocks| == length;
      }
    }

    method SendBlocks(offset: nat, n: nat, blocks: seq<Byte>, lo: nat, hi: nat)
      requires Valid() && lo <= hi <= |blocks| && 0 < n < B && offset + n <= CHUNKSIZE && |blocks| == PartialLength(offset, n)
      modifies this, sums
      ensures Model() == ChunkBlocks.SendBlocks(ck, old(Model()), offset, n, blocks, lo, hi)
    {
      var checksums := ComputeBlockChecksums(ck, blocks);
      ChecksumsAreOfBlocks(ck, blocks, 0);
      Store(offset - offset % B + lo, blocks[lo..hi], offset, n, checksums);
    }

    method ReadChunk(offset: nat, n: nat, versionOk: bool, diskOk: bool) returns (r: ReadResult)
      requires Valid()
      ensures r == ChunkBlocks.ReadChunk(ck, Model(), offset, n, versionOk, diskOk)
    {
      if !versionOk { return ReadError(EBadVersion); }
      if !diskOk { return ReadError(EBusy); }
      var len := if offset >= size then 0 else if offset + n > size then size - offset else n;
      if len == 0 { return ReadError(EIo); }
      r := ReadBlocks(offset, len);
    }

    method ReadBlocks(offset: nat, len: nat) returns (r: ReadResult)
      requires Valid() && len > 0 && offset + len <= size
      ensures r == Verified(ck, Model(), offset, len, RawBlocks(Model(), offset, len))
    {
      var end := ((offset + len - 1) / B + 1) * B;
      assert end == RoundUp(offset + len);
      if end > size { end := size; }
      var raw := file[offset - offset % B..end];
      var computed := ComputeBlockChecksums(ck, ZeroPad(raw));
      var mismatch := Verify(sums, offset / B, computed);
      if mismatch { return ReadError(EBadChecksum); }
      return Data(raw[offset % B..offset % B + len]);
    }

    /** Prints the block checksums one after the other, and takes the checksum of that. */
    method ComputeChecksum() returns (checksum: nat)
      requires Valid()
      ensures checksum == ChunkChecksum(ck, Model())
    {
      var text := "";
      var i, block := 0, 0;
      while i < size
        invariant i == block * B && i < size + B && text == Printed(sums[..block])
      {
        assert sums[..block + 1][..block] == sums[..block];
        text := text + ChunkName.Digits(sums[block]);
        i, block := i + B, block + 1;
      }
      assert block == BlockCount(size);
      return ck(Ascii(text));
    }
  
    /** Cuts the chunk, and gives its last block a new checksum if it is cut inside a block. */
    method Truncate(next: nat, newSize: nat, diskOk: bool) returns (ok: bool)
      requires Valid()
      modifies this`size, sums
      ensures var after := ChunkTruncate.Truncate(ck, old(Model()), next, newSize, diskOk);
        ok == after.Some? && Model() == if ok then after.value else old(Model())
    {
      if newSize >= next { return newSize == next; }
      if newSize % B != 0 {
        var r := ReadChunk(newSize - newSize % B, newSize % B, true, diskOk);
        if r.ReadError? || |r.data| != newSize % B || size < newSize { return false; }
        sums[newSize / B] := ck(Window(r.data, 0, B));
      } else if size < newSize {
        return false;
      }
      size := newSize;
      return true;
    }
  }
}
