/** Writes keep every block checksum right, and reads return exactly the bytes asked for. */
module ChunkAgreement {
  import opened Common
  import opened ChunkBlocks

  /** The write replaced the bytes from `o` on by `d` and nothing else, and the chunk is sound. */
  ghost predicate Carried(ck: Checksum, f: Info, o: nat, d: seq<Byte>, r: WriteResult)
    requires f.Valid()
  {
    r.Written? && Sound(ck, r.info) && r.info.Content() == Overlay(f.Content(), o, d)
  }

  lemma CarriedSame(ck: Checksum, f: Info, o: nat, d: seq<Byte>, r: WriteResult, r': WriteResult)
    requires f.Valid() && Carried(ck, f, o, d, r) && r == r'
    ensures Carried(ck, f, o, d, r')
  {
  }

  // ----- blocks of a written chunk

  lemma BlockUntouched(c: seq<Byte>, o: nat, d: seq<Byte>, b: nat)
    requires b < o / B || o + |d| <= b * B
    ensures Block(Overlay(c, o, d), b) == Block(c, b)
  {
  }

  /**
   New checksums for the blocks of `[o, o + |d|)`, on a file that holds the new content, make a sound chunk.
   Every way to write ends here.
   */
  lemma Installed(ck: Checksum, f: Info, file: seq<Byte>, o: nat, d: seq<Byte>, sums: seq<nat>)
    requires Sound(ck, f) && o <= f.size && d != [] && o + |d| <= CHUNKSIZE
    requires var c := Overlay(f.Content(), o, d);
      && |c| <= |file| && file[..|c|] == c
      && o + |d| <= (o / B + |sums|) * B
      && (forall i: nat | i < |sums| :: sums[i] == ck(Block(c, o / B + i)))
    ensures Carried(ck, f, o, d, Written(UpdateChecksums(f.(file := file), o, |d|, sums)))
  {
    var c := f.Content();
    var c' := Overlay(c, o, d);
    var g := UpdateChecksums(f.(file := file), o, |d|, sums);
    forall b: nat | b < |g.sums| && b * B < |c'| ensures g.sums[b] == ck(Block(c', b)) {
      if o / B <= b < o / B + |sums| {
        assert g.sums[b] == sums[b - o / B];
      } else {
        BlockUntouched(c, o, d, b);
        assert b * B < |c|;
      }
    }
  }

  // ----- aligned writes

  lemma AlignedBlock(c: seq<Byte>, o: nat, d: seq<Byte>, i: nat)
    requires o % B == 0 && (i + 1) * B <= |d|
    ensures Block(Overlay(c, o, d), o / B + i) == Block(d, i)
  {
  }

  lemma AlignedKeeps(ck: Checksum, f: Info, o: nat, d: seq<Byte>, sums: seq<nat>)
    requires Sound(ck, f) && o <= f.size && o + |d| <= CHUNKSIZE
    requires o % B == 0 && d != [] && |d| % B == 0
    requires |sums| == |d| / B && forall i: nat | i < |sums| :: sums[i] == ck(Block(d, i))
    ensures Carried(ck, f, o, d, Written(UpdateChecksums(PutOnDisk(f, o, d), o, |d|, sums)))
  {
    var c := Overlay(f.Content(), o, d);
    var file := Overlay(f.file, o, d);
    assert file[..|c|] == c;
    forall i: nat | i < |sums| ensures sums[i] == ck(Block(c, o / B + i)) { AlignedBlock(f.Content(), o, d, i); }
    Installed(ck, f, file, o, d, sums);
    assert PutOnDisk(f, o, d) == f.(file := file);
  }

  // ----- partial writes

  /** The part of the chunk that a partial write modifies. */
  function BlocksRead(f: Info, start: nat, len: nat): seq<Byte>
    requires f.Valid() && start <= f.size
  {
    f.Content()[start..if start + len <= f.size then start + len else f.size]
  }

  /** Built from zeros or from what was read, the blocks are those of the new content. */
  lemma PartialBlocksAre(f: Info, o: nat, d: seq<Byte>, readBack: seq<Byte>)
    requires f.Valid() && o <= f.size && 0 < |d| < B
    requires o - o % B < f.size ==> readBack == BlocksRead(f, o - o % B, PartialLength(o, |d|))
    ensures PartialBlocks(f, o, d, readBack) == Window(Overlay(f.Content(), o, d), o - o % B, PartialLength(o, |d|))
  {
    var start, len := o - o % B, PartialLength(o, |d|);
    var blocks, c := PartialBlocks(f, o, d, readBack), Overlay(f.Content(), o, d);
    assert |blocks| == len;
    forall k | 0 <= k < len ensures blocks[k] == At(c, start + k) {}
  }

  lemma WindowBlock(c: seq<Byte>, start: nat, len: nat, i: nat)
    requires start % B == 0 && (i + 1) * B <= len
    ensures Block(Window(c, start, len), i) == Block(c, start / B + i)
  {
  }

  /** Whatever part of the blocks goes to disk, as long as it covers the data. */
  lemma PartialOnDisk(f: Info, o: nat, d: seq<Byte>, start: nat, len: nat, lo: nat, hi: nat)
    requires f.Valid() && start + lo <= o <= f.size && d != [] && o + |d| <= start + hi && hi <= len
    ensures var c := Overlay(f.Content(), o, d);
      var file := Overlay(f.file, start + lo, Window(c, start, len)[lo..hi]);
      |c| <= |file| && file[..|c|] == c
  {
    var c := Overlay(f.Content(), o, d);
    var piece := Window(c, start, len)[lo..hi];
    var file := Overlay(f.file, start + lo, piece);
    forall k | 0 <= k < |c| ensures file[k] == c[k] {
      if start + lo <= k < start + hi { assert piece[k - start - lo] == At(c, k); }
    }
  }

  predicate ReadBackOk(f: Info, o: nat, n: nat, readBack: seq<Byte>)
    requires f.Valid()
  {
    o - o % B < f.size ==> readBack == BlocksRead(f, o - o % B, PartialLength(o, n))
  }

  lemma WindowSums(ck: Checksum, c: seq<Byte>, start: nat, len: nat)
    requires start % B == 0 && len % B == 0 && len > 0
    ensures var sums := ComputeChecksums(ck, Window(c, start, len));
      |sums| * B == len && forall i: nat | i < |sums| :: sums[i] == ck(Block(c, start / B + i))
  {
    var w := Window(c, start, len);
    ChecksumsAreOfBlocks(ck, w, 0);
    forall i: nat | i < len / B ensures ComputeChecksums(ck, w)[i] == ck(Block(c, start / B + i)) {
      ChecksumsAreOfBlocks(ck, w, i);
      WindowBlock(c, start, len, i);
    }
  }

  lemma SentBlocks(ck: Checksum, f: Info, o: nat, d: seq<Byte>, blocks: seq<Byte>, lo: nat, hi: nat)
    requires Sound(ck, f) && o <= f.size && 0 < |d| < B && o + |d| <= CHUNKSIZE
    requires lo <= o % B && o % B + |d| <= hi <= |blocks|
    requires blocks == Window(Overlay(f.Content(), o, d), o - o % B, PartialLength(o, |d|))
    ensures Carried(ck, f, o, d, Written(SendBlocks(ck, f, o, |d|, blocks, lo, hi)))
  {
    var start, len := o - o % B, PartialLength(o, |d|);
    var file := Overlay(f.file, start + lo, blocks[lo..hi]);
    WindowSums(ck, Overlay(f.Content(), o, d), start, len);
    PartialOnDisk(f, o, d, start, len, lo, hi);
    Installed(ck, f, file, o, d, ComputeChecksums(ck, blocks));
    assert SendBlocks(ck, f, o, |d|, blocks, lo, hi) == UpdateChecksums(f.(file := file), o, |d|, ComputeChecksums(ck, blocks));
  }

  lemma PartialKeeps(ck: Checksum, f: Info, o: nat, d: seq<Byte>, readBack: seq<Byte>, env: WriteEnv)
    requires Sound(ck, f) && o <= f.size && 0 < |d| < B && o + |d| <= CHUNKSIZE
    requires ReadBackOk(f, o, |d|, readBack)
    ensures Carried(ck, f, o, d, Written(WritePartial(ck, f, o, d, readBack, env)))
  {
    var blocks := PartialBlocks(f, o, d, readBack);
    PartialBlocksAre(f, o, d, readBack);
    var lo, hi := FirstSent(o % B, env), LastSent(o % B + |d|, env, |blocks|);
    SentBlocks(ck, f, o, d, blocks, lo, hi);
    assert WritePartial(ck, f, o, d, readBack, env) == SendBlocks(ck, f, o, |d|, blocks, lo, hi);
  }

  // ----- reads

  lemma RawIsWindow(f: Info, offset: nat, len: nat)
    requires f.Valid() && len > 0 && offset + len <= f.size
    ensures var start, end := offset - offset % B, RoundUp(offset + len);
      ZeroPad(RawBlocks(f, offset, len)) == Window(f.Content(), start, end - start)
  {
    var raw := RawBlocks(f, offset, len);
    assert RoundUp(|raw|) == RoundUp(offset + len) - (offset - offset % B);
  }

  /** Blocks that a read of `len` bytes at `offset` looks at. */
  predicate InRange(offset: nat, len: nat, b: nat) {
    offset / B <= b && b * B < offset + len
  }

  lemma SumsOfRange(ck: Checksum, f: Info, offset: nat, len: nat)
    requires f.Valid() && len > 0 && offset + len <= f.size
    ensures var start, end := offset - offset % B, RoundUp(offset + len);
      var sums := ComputeChecksums(ck, Window(f.Content(), start, end - start));
      Matches(f.sums, offset / B, sums) <==>
      (forall b: nat | InRange(offset, len, b) :: b < |f.sums| && f.sums[b] == ck(Block(f.Content(), b)))
  {
    var start, end := offset - offset % B, RoundUp(offset + len);
    var sums := ComputeChecksums(ck, Window(f.Content(), start, end - start));
    WindowSums(ck, f.Content(), start, end - start);
    RangeMatches(f.sums, offset, len, sums, b => ck(Block(f.Content(), b)));
  }

  /** Checksums of all the blocks of a range match the stored ones exactly if each of them does. */
  lemma RangeMatches(stored: seq<nat>, offset: nat, len: nat, sums: seq<nat>, sum: nat -> nat)
    requires len > 0 && |stored| == MAX_BLOCKS && offset + len <= CHUNKSIZE
    requires |sums| * B == RoundUp(offset + len) - (offset - offset % B)
    requires forall i: nat | i < |sums| :: sums[i] == sum(offset / B + i)
    ensures Matches(stored, offset / B, sums) <==> (forall b: nat | InRange(offset, len, b) :: b < |stored| && stored[b] == sum(b))
  {
    var first := offset / B;
    forall b: nat ensures InRange(offset, len, b) <==> first <= b < first + |sums| {}
    assert first + |sums| <= |stored|;
    if Matches(stored, first, sums) {
      forall b: nat | InRange(offset, len, b) ensures b < |stored| && stored[b] == sum(b) {
        assert sums[b - first] == stored[first + (b - first)];
      }
    }
    if forall b: nat | InRange(offset, len, b) :: b < |stored| && stored[b] == sum(b) {
      forall i: nat | i < |sums| ensures sums[i] == stored[first + i] { assert InRange(offset, len, first + i); }
    }
  }

  lemma SliceOfSlice(c: seq<Byte>, size: nat, start: nat, n: nat, off: nat, len: nat)
    requires start + n <= size <= |c| && off + len <= n
    ensures c[start..start + n][off..off + len] == c[..size][start + off..start + off + len]
  {
    var a, b := c[start..start + n][off..off + len], c[..size][start + off..start + off + len];
    forall k: nat | k < len ensures a[k] == b[k] {
      assert a[k] == c[start..start + n][off + k] == c[start + (off + k)];
      assert b[k] == c[..size][start + off + k];
    }
  }

  /** A read is refused for these reasons only, and in this order. */
  lemma ReadRefusedIff(ck: Checksum, f: Info, offset: nat, n: nat, versionOk: bool, diskOk: bool)
    requires f.Valid()
    ensures var r := ReadChunk(ck, f, offset, n, versionOk, diskOk);
      && (r == ReadError(EBadVersion) <==> !versionOk)
      && (r == ReadError(EBusy) <==> versionOk && !diskOk)
      && (r == ReadError(EIo) <==> versionOk && diskOk && (offset >= f.size || n == 0))
  {
    if versionOk && diskOk && offset < f.size && n > 0 { ReadIff(ck, f, offset, n); }
  }

  /**
   A read that starts within the chunk returns the bytes from `offset` on, as many as asked for or up to the end of
   the chunk, exactly when the checksums of all blocks it touches are right.
   */
  lemma ReadIff(ck: Checksum, f: Info, offset: nat, n: nat)
    requires f.Valid() && offset < f.size && n > 0
    ensures var end := if offset + n <= f.size then offset + n else f.size;
      ReadChunk(ck, f, offset, n, true, true) ==
      if forall b: nat | offset / B <= b <= (end - 1) / B :: b < |f.sums| && f.sums[b] == ck(Block(f.Content(), b))
      then Data(f.Content()[offset..end]) else ReadError(EBadChecksum)
  {
    var len := ReadLength(f, offset, n);
    RawIsWindow(f, offset, len);
    SumsOfRange(ck, f, offset, len);
    RawSlice(f, offset, len);
    forall b: nat ensures InRange(offset, len, b) <==> offset / B <= b <= (offset + len - 1) / B {}
  }

  lemma RawSlice(f: Info, offset: nat, len: nat)
    requires f.Valid() && len > 0 && offset + len <= f.size
    ensures offset % B + len <= |RawBlocks(f, offset, len)|
    ensures RawBlocks(f, offset, len)[offset % B..offset % B + len] == f.Content()[offset..offset + len]
  {
    SliceOfSlice(f.file, f.size, offset - offset % B, |RawBlocks(f, offset, len)|, offset % B, len);
  }

  /** Reads of a sound chunk never see a mismatch: they get all that was asked for, up to the end of the chunk. */
  lemma ReadSound(ck: Checksum, f: Info, offset: nat, n: nat)
    requires Sound(ck, f) && offset < f.size && n > 0
    ensures ReadChunk(ck, f, offset, n, true, true) ==
            Data(f.Content()[offset..if offset + n <= f.size then offset + n else f.size])
  {
    ReadIff(ck, f, offset, n);
    var end := if offset + n <= f.size then offset + n else f.size;
    forall b: nat | offset / B <= b <= (end - 1) / B ensures b < |f.sums| && f.sums[b] == ck(Block(f.Content(), b)) {
      assert b * B < f.size;
    }
  }

  // ----- a write from start to end

  /** Where a write gets the blocks it has to read. */
  type Reader = (nat, nat) -> ReadResult

  function ReaderOf(ck: Checksum, f: Info, diskOk: bool): Reader
    requires f.Valid()
  {
    (start: nat, len: nat) => ReadChunk(ck, f, start, len, true, diskOk)
  }

  /** A write, with the read it may need first. */
  function WriteWith(ck: Checksum, f: Info, op: WriteOp, env: WriteEnv, read: Reader): WriteResult
    requires op.offset <= CHUNKSIZE
  {
    match WriteChunk(ck, f, op.(readBack := None), env)
    case ReadFirst(start, len) =>
      (match read(start, len)
       case ReadError(e) => Refused(e)
       case Data(blocks) => WriteChunk(ck, f, op.(readBack := Some(blocks)), env))
    case Refused(e) => Refused(e)
    case Written(g) => Written(g)
  }

  function PerformWrite(ck: Checksum, f: Info, op: WriteOp, env: WriteEnv): WriteResult
    requires f.Valid() && op.offset <= CHUNKSIZE
  {
    WriteWith(ck, f, op, env, ReaderOf(ck, f, env.diskOk))
  }

  /** A write of `n` bytes that the chunk manager takes. */
  predicate Accepts(size: nat, op: WriteOp, env: WriteEnv)
    requires op.offset <= CHUNKSIZE
  {
    var n := |Clipped(op)|;
    && n > 0 && op.offset >= 0 && env.diskOk
    && (op.offset + n > size ==> op.offset + n - size < env.spaceLeft)
    && (if Aligned(op.offset, n) then n % B == 0 else n < B)
  }

  /** Checksums that are taken over without a look at the data are right. */
  ghost predicate SuppliedOk(ck: Checksum, op: WriteOp)
    requires op.offset <= CHUNKSIZE
  {
    var d := Clipped(op);
    op.prepared && |op.supplied| == |d| / B ==> forall i: nat | i < |op.supplied| :: op.supplied[i] == ck(Block(d, i))
  }

  lemma AlignedWrite(ck: Checksum, f: Info, op: WriteOp, env: WriteEnv, read: Reader)
    requires Sound(ck, f) && 0 <= op.offset <= f.size && SuppliedOk(ck, op)
    requires Accepts(f.size, op, env) && Aligned(op.offset, |Clipped(op)|)
    ensures Carried(ck, f, op.offset, Clipped(op), WriteWith(ck, f, op, env, read))
  {
    var d := Clipped(op);
    ChecksumsAreOfBlocks(ck, d, 0);
    forall i: nat | i < |d| / B ensures AlignedSums(ck, op, d)[i] == ck(Block(d, i)) { ChecksumsAreOfBlocks(ck, d, i); }
    AlignedKeeps(ck, f, op.offset, d, AlignedSums(ck, op, d));
  }

  lemma PartialDone(ck: Checksum, f: Info, op: WriteOp, env: WriteEnv)
    requires Sound(ck, f) && 0 <= op.offset <= f.size
    requires Accepts(f.size, op, env) && !Aligned(op.offset, |Clipped(op)|)
    requires if op.readBack.Some? then ReadBackOk(f, op.offset, |Clipped(op)|, op.readBack.value)
             else op.offset - op.offset % B >= f.size
    ensures Carried(ck, f, op.offset, Clipped(op), WriteChunk(ck, f, op, env))
  {
    PartialKeeps(ck, f, op.offset, Clipped(op), if op.readBack.Some? then op.readBack.value else [], env);
  }

  lemma NeedsRead(ck: Checksum, f: Info, op: WriteOp, env: WriteEnv)
    requires f.Valid() && 0 <= op.offset <= f.size
    requires Accepts(f.size, op, env) && !Aligned(op.offset, |Clipped(op)|)
    ensures op.offset - op.offset % B < f.size ==>
      WriteChunk(ck, f, op.(readBack := None), env) == ReadFirst(op.offset - op.offset % B, PartialLength(op.offset, |Clipped(op)|))
  {
  }

  /** A partial write, given that reads return what the chunk holds. */
  lemma PartialWrite(ck: Checksum, f: Info, op: WriteOp, env: WriteEnv, read: Reader)
    requires Sound(ck, f) && 0 <= op.offset <= f.size && op.readBack.None?
    requires Accepts(f.size, op, env) && !Aligned(op.offset, |Clipped(op)|)
    requires var start, len := op.offset - op.offset % B, PartialLength(op.offset, |Clipped(op)|);
      start < f.size ==> read(start, len) == Data(BlocksRead(f, start, len))
    ensures Carried(ck, f, op.offset, Clipped(op), WriteWith(ck, f, op, env, read))
  {
    var start, len := op.offset - op.offset % B, PartialLength(op.offset, |Clipped(op)|);
    var again := if start < f.size then op.(readBack := Some(BlocksRead(f, start, len))) else op;
    assert Clipped(again) == Clipped(op);
    PartialDone(ck, f, again, env);
    PartialShape(ck, f, op, env, read, again);
    CarriedSame(ck, f, op.offset, Clipped(op), WriteChunk(ck, f, again, env), WriteWith(ck, f, op, env, read));
  }

  /** The write is carried out with the blocks that were read, if there was anything to read. */
  lemma PartialShape(ck: Checksum, f: Info, op: WriteOp, env: WriteEnv, read: Reader, again: WriteOp)
    requires f.Valid() && 0 <= op.offset <= f.size && op.readBack.None?
    requires Accepts(f.size, op, env) && !Aligned(op.offset, |Clipped(op)|)
    requires var start, len := op.offset - op.offset % B, PartialLength(op.offset, |Clipped(op)|);
      if start < f.size then read(start, len).Data? && again == op.(readBack := Some(read(start, len).data)) else again == op
    ensures WriteWith(ck, f, op, env, read) == WriteChunk(ck, f, again, env)
  {
    if op.offset - op.offset % B >= f.size {
      NothingToRead(ck, f, op, env);
      NoReadShape(ck, f, op, env, read);
    } else {
      NeedsRead(ck, f, op, env);
      ReadShape(ck, f, op, env, read, again);
    }
  }

  lemma NoReadShape(ck: Checksum, f: Info, op: WriteOp, env: WriteEnv, read: Reader)
    requires op.offset <= CHUNKSIZE && op.readBack.None? && !WriteChunk(ck, f, op, env).ReadFirst?
    ensures WriteWith(ck, f, op, env, read) == WriteChunk(ck, f, op, env)
  {
    assert op.(readBack := None) == op;
  }

  lemma ReadShape(ck: Checksum, f: Info, op: WriteOp, env: WriteEnv, read: Reader, again: WriteOp)
    requires op.offset <= CHUNKSIZE && op.readBack.None?
    requires var r := WriteChunk(ck, f, op.(readBack := None), env);
      r.ReadFirst? && read(r.start, r.length).Data? && again == op.(readBack := Some(read(r.start, r.length).data))
    ensures WriteWith(ck, f, op, env, read) == WriteChunk(ck, f, again, env)
  {
  }

  lemma NothingToRead(ck: Checksum, f: Info, op: WriteOp, env: WriteEnv)
    requires f.Valid() && 0 <= op.offset <= CHUNKSIZE && op.offset - op.offset % B >= f.size
    ensures !WriteChunk(ck, f, op, env).ReadFirst?
  {
  }

  /** Partial writes read all of the blocks they change that the chunk has. */
  lemma ReadBackIsExact(ck: Checksum, f: Info, o: nat, n: nat)
    requires Sound(ck, f) && o <= f.size && 0 < n < B && o - o % B < f.size
    ensures ReaderOf(ck, f, true)(o - o % B, PartialLength(o, n)) == Data(BlocksRead(f, o - o % B, PartialLength(o, n)))
  {
    ReadSound(ck, f, o - o % B, PartialLength(o, n));
  }

  lemma RefusedWrite(ck: Checksum, f: Info, op: WriteOp, env: WriteEnv, read: Reader)
    requires op.offset <= f.size && f.Valid() && !Accepts(f.size, op, env)
    requires !env.diskOk ==> forall start, len :: !read(start, len).Data?
    ensures !WriteWith(ck, f, op, env, read).Written?
  {
  }

  /**
   A write that starts at or before the end of a sound chunk is accepted exactly as `Accepts` says. It replaces
   its bytes and nothing else, and leaves a sound chunk, whichever way it was carried out.
   */
  lemma WriteKeepsSound(ck: Checksum, f: Info, op: WriteOp, env: WriteEnv)
    requires Sound(ck, f) && op.offset <= f.size && SuppliedOk(ck, op) && op.readBack.None?
    ensures var r := PerformWrite(ck, f, op, env);
      && r.Written? == Accepts(f.size, op, env)
      && (r.Written? ==> Carried(ck, f, op.offset, Clipped(op), r))
  {
    var read := ReaderOf(ck, f, env.diskOk);
    if Accepts(f.size, op, env) {
      var o, n := op.offset, |Clipped(op)|;
      if Aligned(o, n) { AlignedWrite(ck, f, op, env, read); } else {
        if o - o % B < f.size { ReadBackIsExact(ck, f, o, n); }
        PartialWrite(ck, f, op, env, read);
      }
    } else {
      RefusedWrite(ck, f, op, env, read);
    }
  }

  /** Why a write is refused: it is empty or at no place, there is no space, it covers a second block in part, or the disk is busy. */
  lemma WriteRefusedIff(ck: Checksum, f: Info, op: WriteOp, env: WriteEnv)
    requires Sound(ck, f) && op.offset <= f.size && SuppliedOk(ck, op) && op.readBack.None?
    ensures var r, n := PerformWrite(ck, f, op, env), |Clipped(op)|;
      var empty, short := n == 0 || op.offset < 0, op.offset + n > f.size && op.offset + n - f.size >= env.spaceLeft;
      var whole := if op.offset % B == 0 && n >= B then n % B == 0 else n < B;
      && (r == Refused(EInvalid) <==> empty || (!short && !whole))
      && (r == Refused(ENoSpace) <==> !empty && short)
      && (r == Refused(EBusy) <==> !empty && !short && whole && !env.diskOk)
      && (r.Written? <==> !empty && !short && whole && env.diskOk)
  {
    WriteKeepsSound(ck, f, op, env);
  }

  // ----- runs of writes

  datatype Request = Request(op: WriteOp, env: WriteEnv)

  /** The chunk after a write, taken or refused. */
  function AfterWrite(ck: Checksum, f: Info, r: Request): Info
    requires f.Valid() && r.op.offset <= CHUNKSIZE
  {
    var w := PerformWrite(ck, f, r.op, r.env);
    if w.Written? then w.info else f
  }

  /** What a byte array does with the same request. */
  function Expected(c: seq<Byte>, r: Request): seq<Byte>
    requires r.op.offset <= CHUNKSIZE
  {
    if Accepts(|c|, r.op, r.env) then Overlay(c, r.op.offset, Clipped(r.op)) else c
  }

  function ExpectedAll(c: seq<Byte>, rs: seq<Request>): seq<Byte>
    requires forall r | r in rs :: r.op.offset <= CHUNKSIZE
  {
    if rs == [] then c else Expected(ExpectedAll(c, rs[..|rs| - 1]), rs[|rs| - 1])
  }

  /** Requests that never leave a hole and carry no wrong checksum. */
  ghost predicate Orderly(ck: Checksum, c: seq<Byte>, rs: seq<Request>)
    decreases |rs|
  {
    && (forall r | r in rs :: r.op.offset <= CHUNKSIZE)
    && (rs != [] ==>
          && Orderly(ck, c, rs[..|rs| - 1])
          && rs[|rs| - 1].op.offset <= |ExpectedAll(c, rs[..|rs| - 1])|
          && SuppliedOk(ck, rs[|rs| - 1].op) && rs[|rs| - 1].op.readBack.None?)
  }

  /** The state after all the writes, one after the other. */
  ghost predicate Performed(ck: Checksum, f: Info, rs: seq<Request>, g: Info)
    decreases |rs|
  {
    if rs == [] then g == f
    else exists m: Info :: Performed(ck, f, rs[..|rs| - 1], m) && m.Valid()
                          && rs[|rs| - 1].op.offset <= CHUNKSIZE && g == AfterWrite(ck, m, rs[|rs| - 1])
  }

  /** Over any such run the chunk does what a byte array does, and stays sound. */
  lemma {:induction false} RunIsSound(ck: Checksum, f: Info, rs: seq<Request>, g: Info)
    requires Sound(ck, f) && Orderly(ck, f.Content(), rs) && Performed(ck, f, rs, g)
    ensures Sound(ck, g) && g.Content() == ExpectedAll(f.Content(), rs)
    decreases |rs|
  {
    if rs != [] {
      var last := rs[|rs| - 1];
      var m: Info :| Performed(ck, f, rs[..|rs| - 1], m) && m.Valid() && g == AfterWrite(ck, m, last);
      RunIsSound(ck, f, rs[..|rs| - 1], m);
      WriteKeepsSound(ck, m, last.op, last.env);
    }
  }

  // ----- checksums that clients send

  /** Write prepare compares the data with the checksum that came along, unless that is zero. */
  predicate PrepareAccepts(ck: Checksum, checksum: nat, data: seq<Byte>) {
    checksum == 0 || checksum == ck(data)
  }

  /**
   A prepared write of which exactly one block fits into the chunk stores the checksum that came along, whatever was
   cut off. After a prepared write the chunk is sound if and only if that checksum, if stored, is that of the block.
   */
  lemma PreparedWriteIff(ck: Checksum, f: Info, op: WriteOp, env: WriteEnv)
    requires Sound(ck, f) && 0 <= op.offset <= f.size
    requires op.prepared && |op.supplied| == 1 && op.readBack.None?
    requires PrepareAccepts(ck, op.supplied[0], op.data) && Accepts(f.size, op, env)
    ensures var r := PerformWrite(ck, f, op, env);
      r.Written? && (Sound(ck, r.info) <==> (|Clipped(op)| == B ==> op.supplied[0] == ck(Clipped(op))))
  {
    var d := Clipped(op);
    if |d| == B {
      WindowIsSlice(d, 0, B);
      assert Block(d, 0) == d;
      if op.supplied[0] == ck(d) { WriteKeepsSound(ck, f, op, env); } else { WrongChecksumStored(ck, f, op, env); }
    } else {
      WriteKeepsSound(ck, f, op, env);
    }
  }

  lemma WrongChecksumStored(ck: Checksum, f: Info, op: WriteOp, env: WriteEnv)
    requires Sound(ck, f) && 0 <= op.offset <= f.size && |Clipped(op)| == B
    requires op.prepared && |op.supplied| == 1 && Accepts(f.size, op, env) && op.supplied[0] != ck(Clipped(op))
    ensures var r := PerformWrite(ck, f, op, env); r.Written? && !Sound(ck, r.info)
  {
    var d := Clipped(op);
    assert PerformWrite(ck, f, op, env) == Written(WriteAligned(ck, f, op, d));
    AlignedUnsound(ck, f, op.offset, d, op.supplied[0]);
    assert AlignedSums(ck, op, d) == [op.supplied[0]];
  }

  lemma AlignedUnsound(ck: Checksum, f: Info, o: nat, d: seq<Byte>, sum: nat)
    requires f.Valid() && o <= f.size && o % B == 0 && |d| == B && o + B <= CHUNKSIZE && sum != ck(d)
    ensures !Sound(ck, UpdateChecksums(PutOnDisk(f, o, d), o, B, [sum]))
  {
    var b := BlockNoted(f, o, d, sum);
    SoundBlock(ck, UpdateChecksums(PutOnDisk(f, o, d), o, B, [sum]), b);
  }

  lemma BlockNoted(f: Info, o: nat, d: seq<Byte>, sum: nat) returns (b: nat)
    requires f.Valid() && o <= f.size && o % B == 0 && |d| == B && o + B <= CHUNKSIZE
    ensures var g := UpdateChecksums(PutOnDisk(f, o, d), o, B, [sum]);
      g.Valid() && (b + 1) * B <= g.size && b < |g.sums| && g.sums[b] == sum && Block(g.file, b) == d
  {
    b := o / B;
    BlockWritten(f.file, o, d);
  }

  lemma BlockWritten(c: seq<Byte>, o: nat, d: seq<Byte>)
    requires o % B == 0 && |d| == B
    ensures Block(Overlay(c, o, d), o / B) == d
  {
    AlignedBlock(c, o, d, 0);
    WindowIsSlice(d, 0, B);
    assert Block(d, 0) == d;
  }

  lemma SoundBlock(ck: Checksum, g: Info, b: nat)
    requires g.Valid() && (b + 1) * B <= g.size && b < |g.sums|
    ensures Sound(ck, g) ==> g.sums[b] == ck(Block(g.file, b))
  {
    BlockOfPrefix(g.file, g.size, b);
  }

  /** A whole block that fits: the checksum is wrong only if it is zero, which is never compared. */
  lemma UnclippedBlockIff(ck: Checksum, f: Info, op: WriteOp, env: WriteEnv)
    requires Sound(ck, f) && 0 <= op.offset <= f.size && |op.data| == B && op.offset + B <= CHUNKSIZE
    requires op.prepared && |op.supplied| == 1 && op.readBack.None?
    requires PrepareAccepts(ck, op.supplied[0], op.data) && Accepts(f.size, op, env)
    ensures var r := PerformWrite(ck, f, op, env);
      r.Written? && (Sound(ck, r.info) <==> op.supplied[0] != 0 || ck(op.data) == 0)
  {
    assert Clipped(op) == op.data;
    PreparedWriteIff(ck, f, op, env);
  }

  /** Two blocks with the right checksum, of which only the first fits. */
  lemma ClippedBlockIff(ck: Checksum, f: Info, first: seq<Byte>, second: seq<Byte>, env: WriteEnv)
    requires Sound(ck, f) && CHUNKSIZE - B <= f.size && |first| == |second| == B
    requires env.diskOk && env.spaceLeft > B
    ensures var r := PerformWrite(ck, f, WriteOp(CHUNKSIZE - B, first + second, true, [ck(first + second)], None), env);
      r.Written? && (Sound(ck, r.info) <==> ck(first + second) == ck(first))
  {
    var op := WriteOp(CHUNKSIZE - B, first + second, true, [ck(first + second)], None);
    assert Clipped(op) == first;
    PreparedWriteIff(ck, f, op, env);
  }

  lemma BlockOfPrefix(c: seq<Byte>, size: nat, b: nat)
    requires (b + 1) * B <= size <= |c|
    ensures Block(c[..size], b) == Block(c, b)
  {
  }
}
