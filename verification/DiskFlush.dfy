/**
 A record appender's writes on their way to disk.

 Several writes are in flight at a time, and complete in any order. A write that covers a block in part
 waits for the block to be read; meanwhile others go ahead, past the current end of the chunk. Nevertheless
 the chunk ends up with exactly the data that was appended, under the right checksums.
 */
module DiskFlush {
  import opened Common
  import opened ChunkBlocks
  import Flush

  /** A write that waits for its block; `readBack` is the part of the block before the write. */
  datatype Pending = Pending(w: Flush.Write, readBack: seq<Byte>)
  {
    function Block(): nat { w.offset / B }
  }

  datatype Disk = Disk(f: Flush.Flusher, c: Info, pending: seq<Pending>)

  // ----- what is on disk

  ghost predicate Covered(ps: seq<Pending>, k: nat) {
    exists i: nat :: i < |ps| && ps[i].w.offset <= k < ps[i].w.End()
  }

  ghost predicate Busy(ps: seq<Pending>, b: nat) {
    exists i: nat :: i < |ps| && ps[i].Block() == b
  }

  /** `t` is the chunk as it will be. */
  ghost predicate PendingOk(ck: Checksum, t: seq<Byte>, c: Info, p: Pending) {
    var o, off := p.w.offset, p.w.offset % B;
    && p.w.data != [] && 0 < off && off + |p.w.data| <= B
    && p.w.End() <= |t| && t[o..p.w.End()] == p.w.data && t[o - off..o] == p.readBack
    && (p.w.End() % B != 0 ==> p.w.End() == |t|)
    && o <= c.size && p.Block() < |c.sums| && c.sums[p.Block()] == ck(Block(t[..o], p.Block()))
  }

  ghost predicate BytesOk(t: seq<Byte>, file: seq<Byte>, ps: seq<Pending>) {
    forall k: nat | k < |t| && !Covered(ps, k) :: k < |file| && file[k] == t[k]
  }

  ghost predicate SumsOk(ck: Checksum, t: seq<Byte>, sums: seq<nat>, ps: seq<Pending>) {
    forall b: nat | b * B < |t| && !Busy(ps, b) :: b < |sums| && sums[b] == ck(Block(t, b))
  }

  ghost predicate PendingsOk(ck: Checksum, t: seq<Byte>, c: Info, ps: seq<Pending>) {
    && (forall i: nat | i < |ps| :: PendingOk(ck, t, c, ps[i]))
    && (forall i: nat, j: nat | i < j < |ps| :: ps[i].Block() < ps[j].Block())
  }

  ghost predicate EndsAt(ps: seq<Pending>, end: nat) {
    exists i: nat :: i < |ps| && ps[i].w.End() == end
  }

  /** All of `t` is on disk under the right checksums, except for what is pending. */
  ghost predicate Stored(ck: Checksum, t: seq<Byte>, c: Info, ps: seq<Pending>) {
    && c.Valid() && c.size <= |t| <= CHUNKSIZE
    && PendingsOk(ck, t, c, ps)
    && BytesOk(t, c.file, ps)
    && SumsOk(ck, t, c.sums, ps)
    && (c.size == |t| || EndsAt(ps, |t|))
  }

  /** Nothing pending: the chunk is as it should be. */
  lemma StoredAll(ck: Checksum, t: seq<Byte>, c: Info)
    requires Stored(ck, t, c, [])
    ensures Sound(ck, c) && c.Content() == t
  {
    forall k: nat | k < |t| ensures c.file[k] == t[k] { assert !Covered([], k); }
    assert c.Content() == t;
    forall b: nat | b * B < |t| ensures b < |c.sums| && c.sums[b] == ck(Block(t, b)) { assert !Busy([], b); }
  }

  // ----- a write that need not read

  lemma BlockGrows(t: seq<Byte>, d: seq<Byte>, b: nat)
    requires (b + 1) * B <= |t|
    ensures Block(t + d, b) == Block(t, b)
  {
  }

  lemma BlockOfAdded(t: seq<Byte>, d: seq<Byte>, i: nat)
    requires |t| % B == 0
    ensures Block(t + d, |t| / B + i) == Block(d, i)
  {
  }

  lemma PendingGrows(ck: Checksum, t: seq<Byte>, c: Info, p: Pending, d: seq<Byte>, g: Info)
    requires PendingOk(ck, t, c, p) && (p.w.End() % B == 0)
    requires c.size <= g.size && |c.sums| == |g.sums| && g.sums[p.Block()] == c.sums[p.Block()]
    ensures PendingOk(ck, t + d, g, p)
  {
    var o, off := p.w.offset, p.w.offset % B;
    assert (t + d)[..o] == t[..o];
    assert (t + d)[o..p.w.End()] == t[o..p.w.End()];
    assert (t + d)[o - off..o] == t[o - off..o];
  }

  lemma NewBytes(t: seq<Byte>, before: seq<Byte>, ps: seq<Pending>, d: seq<Byte>, file: seq<Byte>)
    requires BytesOk(t, before, ps) && |t| + |d| <= |file| && |before| <= |file|
    requires forall k | 0 <= k < |t| && k < |before| :: file[k] == before[k]
    requires forall k | 0 <= k < |d| :: file[|t| + k] == d[k]
    ensures BytesOk(t + d, file, ps)
  {
    forall k: nat | k < |t + d| && !Covered(ps, k) ensures k < |file| && file[k] == (t + d)[k] {
      if k >= |t| { assert file[|t| + (k - |t|)] == d[k - |t|]; }
    }
  }

  lemma NewSums(ck: Checksum, t: seq<Byte>, c: Info, ps: seq<Pending>, d: seq<Byte>, n: nat, sums: seq<nat>)
    requires SumsOk(ck, t, c.sums, ps) && |t| % B == 0 && |t| + |d| <= CHUNKSIZE && |c.sums| == MAX_BLOCKS
    requires |d| <= |sums| * B && forall i: nat | i < |sums| :: sums[i] == ck(Block(d, i))
    ensures SumsOk(ck, t + d, UpdateChecksums(c, |t|, n, sums).sums, ps)
  {
    var g := UpdateChecksums(c, |t|, n, sums);
    forall b: nat | b * B < |t + d| && !Busy(ps, b) ensures b < |g.sums| && g.sums[b] == ck(Block(t + d, b)) {
      if b * B < |t| { BlockGrows(t, d, b); } else {
        BlockOfAdded(t, d, b - |t| / B);
        assert sums[b - |t| / B] == ck(Block(d, b - |t| / B));
      }
    }
  }

  /** Data for new blocks goes to disk at once. */
  lemma StoreNew(ck: Checksum, t: seq<Byte>, c: Info, ps: seq<Pending>, d: seq<Byte>, file: seq<Byte>, sums: seq<nat>)
    requires Stored(ck, t, c, ps) && |t| % B == 0 && d != [] && |t| + |d| <= CHUNKSIZE
    requires |t| + |d| <= |file| && |c.file| <= |file|
    requires forall k | 0 <= k < |t| && k < |c.file| :: file[k] == c.file[k]
    requires forall k | 0 <= k < |d| :: file[|t| + k] == d[k]
    requires |d| <= |sums| * B && forall i: nat | i < |sums| :: sums[i] == ck(Block(d, i))
    ensures Stored(ck, t + d, UpdateChecksums(c.(file := file), |t|, |d|, sums), ps)
  {
    var g := UpdateChecksums(c.(file := file), |t|, |d|, sums);
    forall i: nat | i < |ps| ensures PendingOk(ck, t + d, g, ps[i]) { PendingGrows(ck, t, c, ps[i], d, g); }
    NewBytes(t, c.file, ps, d, file);
    NewSums(ck, t, c.(file := file), ps, d, |d|, sums);
  }

  // ----- a write that has to read first

  lemma LaterPendings(ck: Checksum, t: seq<Byte>, c: Info, ps: seq<Pending>, p: Pending, d: seq<Byte>)
    requires PendingsOk(ck, t, c, ps) && PendingOk(ck, t + d, c, p) && p.w.offset == |t|
    requires forall i: nat | i < |ps| :: ps[i].w.End() % B == 0
    ensures PendingsOk(ck, t + d, c, ps + [p])
  {
    var qs := ps + [p];
    forall i: nat | i < |qs| ensures PendingOk(ck, t + d, c, qs[i]) {
      if i < |ps| { PendingGrows(ck, t, c, ps[i], d, c); }
    }
    forall i: nat, j: nat | i < j < |qs| ensures qs[i].Block() < qs[j].Block() {
      if j == |ps| { assert PendingOk(ck, t, c, ps[i]); }
    }
  }

  lemma LaterBytes(t: seq<Byte>, file: seq<Byte>, ps: seq<Pending>, p: Pending, d: seq<Byte>)
    requires BytesOk(t, file, ps) && p.w == Flush.Write(|t|, d)
    ensures BytesOk(t + d, file, ps + [p])
  {
    forall k: nat | k < |t + d| && !Covered(ps + [p], k) ensures k < |file| && file[k] == (t + d)[k] { CoveredMore(ps, p, k); }
  }

  lemma LaterSums(ck: Checksum, t: seq<Byte>, sums: seq<nat>, ps: seq<Pending>, p: Pending, d: seq<Byte>)
    requires SumsOk(ck, t, sums, ps) && p.Block() == |t| / B && |t| % B + |d| <= B
    ensures SumsOk(ck, t + d, sums, ps + [p])
  {
    forall b: nat | b * B < |t + d| && !Busy(ps + [p], b) ensures b < |sums| && sums[b] == ck(Block(t + d, b)) {
      BusyMore(ps, p, b);
      BlockGrows(t, d, b);
    }
  }

  lemma NewPending(ck: Checksum, t: seq<Byte>, c: Info, ps: seq<Pending>, p: Pending)
    requires Stored(ck, t, c, ps) && |t| % B != 0 && c.size == |t|
    requires p.w.data != [] && p.w.offset == |t| && |t| % B + |p.w.data| <= B && |t| + |p.w.data| <= CHUNKSIZE
    requires p.readBack == t[|t| - |t| % B..]
    requires forall i: nat | i < |ps| :: ps[i].w.End() % B == 0
    ensures PendingOk(ck, t + p.w.data, c, p)
  {
    assert !Busy(ps, p.Block()) by {
      forall i: nat | i < |ps| ensures ps[i].Block() < p.Block() { assert PendingOk(ck, t, c, ps[i]); }
    }
    var u := t + p.w.data;
    assert u[..|t|] == t && u[|t|..|u|] == p.w.data && u[|t| - |t| % B..|t|] == p.readBack;
  }

  lemma EndsLater(ps: seq<Pending>, p: Pending)
    ensures EndsAt(ps + [p], p.w.End())
  {
    assert (ps + [p])[|ps|] == p;
  }

  lemma StoreLater(ck: Checksum, t: seq<Byte>, c: Info, ps: seq<Pending>, p: Pending, d: seq<Byte>)
    requires Stored(ck, t, c, ps) && |t| % B != 0 && c.size == |t| && p.w == Flush.Write(|t|, d)
    requires d != [] && |t| % B + |d| <= B && |t| + |d| <= CHUNKSIZE
    requires p.readBack == t[|t| - |t| % B..]
    requires forall i: nat | i < |ps| :: ps[i].w.End() % B == 0
    ensures Stored(ck, t + d, c, ps + [p])
  {
    NewPending(ck, t, c, ps, p);
    LaterPendings(ck, t, c, ps, p, d);
    LaterBytes(t, c.file, ps, p, d);
    LaterSums(ck, t, c.sums, ps, p, d);
    EndsLater(ps, p);
  }

  lemma CoveredMore(ps: seq<Pending>, p: Pending, k: nat)
    ensures Covered(ps, k) || p.w.offset <= k < p.w.End() ==> Covered(ps + [p], k)
  {
    assert (ps + [p])[|ps|] == p;
    if Covered(ps, k) {
      var i: nat :| i < |ps| && ps[i].w.offset <= k < ps[i].w.End();
      assert (ps + [p])[i] == ps[i];
    }
  }

  lemma BusyMore(ps: seq<Pending>, p: Pending, b: nat)
    ensures Busy(ps, b) || p.Block() == b ==> Busy(ps + [p], b)
  {
    assert (ps + [p])[|ps|] == p;
    if Busy(ps, b) {
      var i: nat :| i < |ps| && ps[i].Block() == b;
      assert (ps + [p])[i] == ps[i];
    }
  }

  // ----- the read is over

  function Drop(ps: seq<Pending>, k: nat): seq<Pending>
    requires k < |ps|
  {
    ps[..k] + ps[k + 1..]
  }

  /** What was read is what the stored checksum is for. */
  lemma ReadBackMatches(ck: Checksum, t: seq<Byte>, c: Info, p: Pending)
    requires PendingOk(ck, t, c, p)
    ensures ComputeChecksums(ck, ZeroPad(p.readBack)) == [c.sums[p.Block()]]
  {
    var o := p.w.offset;
    assert ZeroPad(p.readBack) == Block(t[..o], p.Block());
  }

  /** The blocks that go out are those of the final chunk. */
  lemma PendingBlocks(ck: Checksum, t: seq<Byte>, c: Info, p: Pending)
    requires c.Valid() && PendingOk(ck, t, c, p)
    ensures PartialBlocks(c, p.w.offset, p.w.data, p.readBack) == Block(t, p.Block())
  {
    var o, off, d := p.w.offset, p.w.offset % B, p.w.data;
    var u := Overlay(p.readBack, off, d);
    assert PartialBlocks(c, o, d, p.readBack) == ZeroPad(u) && |ZeroPad(u)| == B && p.Block() * B == o - off;
    forall k | 0 <= k < B ensures At(u, k) == At(t, o - off + k) {
      if k < off {
        assert u[k] == p.readBack[k] == t[o - off..o][k];
      } else if k < off + |d| {
        assert u[k] == d[k - off] == t[o..p.w.End()][k - off];
      } else {
        assert p.w.End() == |t| <= o - off + k;
      }
    }
  }

  /** The blocks of one pending write are on disk, and nothing else changed. */
  ghost predicate Applied(ck: Checksum, t: seq<Byte>, c: Info, p: Pending, g: Info) {
    && g.Valid() && |c.file| <= |g.file| && |c.sums| == |g.sums|
    && g.size == (if c.size < p.w.End() then p.w.End() else c.size)
    && (forall k: nat | k < |t| && p.w.offset <= k < p.w.End() :: k < |g.file| && g.file[k] == t[k])
    && (forall k: nat | k < |t| && k < |c.file| :: g.file[k] == c.file[k] || g.file[k] == t[k])
    && (forall b: nat | b < |g.sums| :: g.sums[b] == if b == p.Block() then ck(Block(t, b)) else c.sums[b])
  }

  lemma AppliedPending(ck: Checksum, t: seq<Byte>, c: Info, ps: seq<Pending>, m: nat, g: Info, i: nat)
    requires PendingsOk(ck, t, c, ps) && m < |ps| && Applied(ck, t, c, ps[m], g) && i < |Drop(ps, m)|
    ensures PendingOk(ck, t, g, Drop(ps, m)[i])
  {
    var j := if i < m then i else i + 1;
    assert Drop(ps, m)[i] == ps[j];
    assert PendingOk(ck, t, c, ps[j]);
    assert if j < m then ps[j].Block() < ps[m].Block() else ps[m].Block() < ps[j].Block();
  }

  lemma AppliedPendings(ck: Checksum, t: seq<Byte>, c: Info, ps: seq<Pending>, m: nat, g: Info)
    requires PendingsOk(ck, t, c, ps) && m < |ps| && Applied(ck, t, c, ps[m], g)
    ensures PendingsOk(ck, t, g, Drop(ps, m))
  {
    var qs := Drop(ps, m);
    forall i: nat | i < |qs| ensures PendingOk(ck, t, g, qs[i]) { AppliedPending(ck, t, c, ps, m, g, i); }
    forall i: nat, j: nat | i < j < |qs| ensures qs[i].Block() < qs[j].Block() {
      assert qs[i] == ps[if i < m then i else i + 1] && qs[j] == ps[if j < m then j else j + 1];
    }
  }

  lemma AppliedBytes(ck: Checksum, t: seq<Byte>, c: Info, ps: seq<Pending>, m: nat, g: Info)
    requires BytesOk(t, c.file, ps) && m < |ps| && Applied(ck, t, c, ps[m], g)
    ensures BytesOk(t, g.file, Drop(ps, m))
  {
    forall k: nat | k < |t| && !Covered(Drop(ps, m), k) ensures k < |g.file| && g.file[k] == t[k] { CoveredDrop(ps, m, k); }
  }

  lemma AppliedSums(ck: Checksum, t: seq<Byte>, c: Info, ps: seq<Pending>, m: nat, g: Info)
    requires SumsOk(ck, t, c.sums, ps) && m < |ps| && Applied(ck, t, c, ps[m], g) && ps[m].Block() < |g.sums|
    ensures SumsOk(ck, t, g.sums, Drop(ps, m))
  {
    forall b: nat | b * B < |t| && !Busy(Drop(ps, m), b) ensures b < |g.sums| && g.sums[b] == ck(Block(t, b)) {
      BusyDrop(ps, m, b);
    }
  }

  lemma StorePending(ck: Checksum, t: seq<Byte>, c: Info, ps: seq<Pending>, m: nat, g: Info)
    requires Stored(ck, t, c, ps) && m < |ps| && Applied(ck, t, c, ps[m], g)
    ensures Stored(ck, t, g, Drop(ps, m))
  {
    assert PendingOk(ck, t, c, ps[m]);
    AppliedPendings(ck, t, c, ps, m, g);
    AppliedBytes(ck, t, c, ps, m, g);
    AppliedSums(ck, t, c, ps, m, g);
    if c.size != |t| { EndDrop(ps, m, |t|); }
  }

  lemma CoveredDrop(ps: seq<Pending>, m: nat, k: nat)
    requires m < |ps|
    ensures Covered(ps, k) ==> ps[m].w.offset <= k < ps[m].w.End() || Covered(Drop(ps, m), k)
  {
    if Covered(ps, k) {
      var i: nat :| i < |ps| && ps[i].w.offset <= k < ps[i].w.End();
      assert i != m ==> Drop(ps, m)[if i < m then i else i - 1] == ps[i];
    }
  }

  lemma BusyDrop(ps: seq<Pending>, m: nat, b: nat)
    requires m < |ps|
    ensures Busy(ps, b) ==> ps[m].Block() == b || Busy(Drop(ps, m), b)
  {
    if Busy(ps, b) {
      var i: nat :| i < |ps| && ps[i].Block() == b;
      assert i != m ==> Drop(ps, m)[if i < m then i else i - 1] == ps[i];
    }
  }

  lemma EndDrop(ps: seq<Pending>, m: nat, end: nat)
    requires m < |ps| && EndsAt(ps, end)
    ensures ps[m].w.End() == end || EndsAt(Drop(ps, m), end)
  {
    var i: nat :| i < |ps| && ps[i].w.End() == end;
    assert i != m ==> Drop(ps, m)[if i < m then i else i - 1] == ps[i];
  }

  // ----- one write, from the flush to the disk

  /** The chunk once all that was issued is on disk. */
  ghost function Target(f: Flush.Flusher): seq<Byte> {
    f.base + Flush.DataOf(f.issued)
  }

  function AppendOp(w: Flush.Write, readBack: Option<seq<Byte>>): WriteOp {
    WriteOp(w.offset, w.data, false, [], readBack)
  }

  /** A disk with space and queue entries left; writes that cannot be started fail in the flush. */
  function Env(skip: nat, extra: nat): WriteEnv {
    WriteEnv(CHUNKSIZE + 1, true, skip, extra)
  }

  function StartWrite(ck: Checksum, c: Info, ps: seq<Pending>, w: Flush.Write, env: WriteEnv): (Info, seq<Pending>) {
    if w.offset > CHUNKSIZE then (c, ps)
    else
      match WriteChunk(ck, c, AppendOp(w, None), env)
      case Written(g) => (g, ps)
      case ReadFirst(start, len) => (c, ps + [Pending(w, Window(c.file, start, ReadLength(c, start, len)))])
      case Refused(_) => (c, ps)
  }

  function StartAll(ck: Checksum, c: Info, ps: seq<Pending>, ws: seq<Flush.Write>, env: WriteEnv): (Info, seq<Pending>)
    decreases |ws|
  {
    if ws == [] then (c, ps)
    else
      var (d, qs) := StartWrite(ck, c, ps, ws[0], env);
      StartAll(ck, d, qs, ws[1..], env)
  }

  lemma StartAligned(ck: Checksum, t: seq<Byte>, c: Info, ps: seq<Pending>, d: seq<Byte>, env: WriteEnv)
    requires Stored(ck, t, c, ps) && |t| % B == 0 && |d| >= B && |d| % B == 0 && |t| + |d| <= CHUNKSIZE
    requires forall i: nat | i < |ps| :: ps[i].w.End() % B == 0
    ensures Stored(ck, t + d, WriteAligned(ck, c, AppendOp(Flush.Write(|t|, d), None), d), ps)
  {
    ChecksumsAreOfBlocks(ck, d, 0);
    var sums := ComputeChecksums(ck, d);
    forall i: nat | i < |sums| ensures sums[i] == ck(Block(d, i)) { ChecksumsAreOfBlocks(ck, d, i); }
    var file := Overlay(c.file, |t|, d);
    StoreNew(ck, t, c, ps, d, file, sums);
    assert PutOnDisk(c, |t|, d) == c.(file := file);
  }

  lemma StartBlock(ck: Checksum, t: seq<Byte>, c: Info, ps: seq<Pending>, d: seq<Byte>, env: WriteEnv)
    requires Stored(ck, t, c, ps) && |t| % B == 0 && 0 < |d| < B && |t| + |d| <= CHUNKSIZE
    requires forall i: nat | i < |ps| :: ps[i].w.End() % B == 0
    ensures Stored(ck, t + d, WritePartial(ck, c, |t|, d, [], env), ps)
  {
    var blocks := PartialBlocks(c, |t|, d, []);
    assert blocks == Block(d, 0);
    var hi := LastSent(|d|, env, B);
    var file := Overlay(c.file, |t|, blocks[0..hi]);
    StoreNew(ck, t, c, ps, d, file, [ck(blocks)]);
    assert WritePartial(ck, c, |t|, d, [], env) == UpdateChecksums(c.(file := file), |t|, |d|, [ck(blocks)]);
  }

  /** All bytes of the last block that were issued are on disk, once no write for it is pending. */
  lemma LastBlockStored(ck: Checksum, t: seq<Byte>, c: Info, ps: seq<Pending>, k: nat)
    requires BytesOk(t, c.file, ps) && |t| - |t| % B <= k < |t|
    requires forall i: nat | i < |ps| :: ps[i].w.End() % B == 0 && ps[i].w.End() <= |t|
    ensures k < |c.file| && c.file[k] == t[k]
  {
    assert forall i: nat | i < |ps| :: ps[i].w.End() <= k;
    assert !Covered(ps, k);
  }

  lemma StartRead(ck: Checksum, t: seq<Byte>, c: Info, ps: seq<Pending>, d: seq<Byte>)
    requires Stored(ck, t, c, ps) && |t| % B != 0 && d != [] && |t| % B + |d| <= B && |t| + |d| <= CHUNKSIZE
    requires forall i: nat | i < |ps| :: ps[i].w.End() % B == 0
    ensures c.size == |t|
    ensures Stored(ck, t + d, c, ps + [Pending(Flush.Write(|t|, d), Window(c.file, |t| - |t| % B, |t| % B))])
  {
    var start := |t| - |t| % B;
    forall i: nat | i < |ps| ensures ps[i].w.End() <= |t| { assert PendingOk(ck, t, c, ps[i]); }
    forall k: nat | start <= k < |t| ensures k < |c.file| && c.file[k] == t[k] { LastBlockStored(ck, t, c, ps, k); }
    assert Window(c.file, start, |t| % B) == t[start..];
    StoreLater(ck, t, c, ps, Pending(Flush.Write(|t|, d), t[start..]), d);
  }

  lemma StartShape(ck: Checksum, c: Info, ps: seq<Pending>, w: Flush.Write, env: WriteEnv)
    requires w.End() <= CHUNKSIZE && Flush.Legal(w) && env == Env(env.skip, env.extra)
    ensures Aligned(w.offset, |w.data|) ==> StartWrite(ck, c, ps, w, env) == (WriteAligned(ck, c, AppendOp(w, None), w.data), ps)
    ensures w.offset % B == 0 && |w.data| < B && c.size <= w.offset ==>
      StartWrite(ck, c, ps, w, env) == (WritePartial(ck, c, w.offset, w.data, [], env), ps)
    ensures w.offset % B != 0 && c.size == w.offset ==>
      StartWrite(ck, c, ps, w, env) == (c, ps + [Pending(w, Window(c.file, w.offset - w.offset % B, w.offset % B))])
  {
  }

  /** Pending writes are in flight. */
  ghost predicate Known(ps: seq<Pending>, f: Flush.Flusher) {
    forall i: nat | i < |ps| :: ps[i].w in f.inFlight
  }

  /** The write was started: it is on disk, or the only new one that is pending. */
  ghost predicate Started(ck: Checksum, t: seq<Byte>, ps: seq<Pending>, w: Flush.Write, r: (Info, seq<Pending>)) {
    && Stored(ck, t, r.0, r.1)
    && (r.1 == ps || (|r.1| == |ps| + 1 && r.1[..|ps|] == ps && r.1[|ps|].w == w))
  }

  lemma StartStores(ck: Checksum, t: seq<Byte>, c: Info, ps: seq<Pending>, w: Flush.Write, env: WriteEnv)
    requires Stored(ck, t, c, ps) && w.offset == |t| && w.End() <= CHUNKSIZE && Flush.Legal(w)
    requires env == Env(env.skip, env.extra)
    requires forall i: nat | i < |ps| :: ps[i].w.End() % B == 0
    ensures Started(ck, t + w.data, ps, w, StartWrite(ck, c, ps, w, env))
  {
    StartShape(ck, c, ps, w, env);
    if Aligned(|t|, |w.data|) {
      StartAligned(ck, t, c, ps, w.data, env);
      assert StartWrite(ck, c, ps, w, env) == (WriteAligned(ck, c, AppendOp(w, None), w.data), ps);
    } else if |t| % B == 0 {
      StartBlock(ck, t, c, ps, w.data, env);
      assert StartWrite(ck, c, ps, w, env) == (WritePartial(ck, c, w.offset, w.data, [], env), ps);
    } else {
      StartRead(ck, t, c, ps, w.data);
      assert StartWrite(ck, c, ps, w, env) == (c, ps + [Pending(w, Window(c.file, |t| - |t| % B, |t| % B))]);
    }
  }
}
