/**
 The disk as it is. A write is noted in the size and the checksums of the chunk when it is handed to the disk, and
 its bytes are on disk when it is done; writes are done in any order. A block that has to be read is read from the
 bytes that are on disk when the read is done.

 This machine refines the one of module DiskRuns, in which bytes are on disk as soon as they are handed over.
 */
module DiskWrites {
  import opened Common
  import opened ChunkBlocks
  import opened DiskFlush
  import opened ChunkTruncate
  import DiskRuns
  import FlushRuns
  import Flush

  /** Bytes that were handed to the disk for a write; whole buffers, so there may be more than the write's own. */
  datatype Sent = Sent(w: Flush.Write, at: nat, bytes: seq<Byte>)

  datatype Real = Real(f: Flush.Flusher, c: Info, pending: seq<Pending>, sent: seq<Sent>)

  function Land(file: seq<Byte>, x: Sent): seq<Byte> {
    Overlay(file, x.at, x.bytes)
  }

  /** The file once all that was handed over is there. */
  function LandAll(file: seq<Byte>, sent: seq<Sent>): seq<Byte> {
    if sent == [] then file else Land(LandAll(file, sent[..|sent| - 1]), sent[|sent| - 1])
  }

  function Planned(c: Info, sent: seq<Sent>): Info {
    c.(file := LandAll(c.file, sent))
  }

  function Plan(s: Real): Disk {
    Disk(s.f, Planned(s.c, s.sent), s.pending)
  }

  // ----- steps

  /** Bytes `lo` to `hi` of the blocks that a write is in. */
  function Cut(w: Flush.Write, blocks: seq<Byte>, lo: nat, hi: nat): Sent
    requires lo <= hi <= |blocks|
  {
    Sent(w, w.offset - w.offset % B + lo, blocks[lo..hi])
  }

  /** What a write that the chunk manager takes hands to the disk. */
  function PieceOf(c: Info, w: Flush.Write, readBack: seq<Byte>, env: WriteEnv): Sent {
    if |w.data| >= B then Sent(w, w.offset, w.data)
    else
      var off := w.offset % B;
      var blocks := PartialBlocks(c, w.offset, w.data, readBack);
      Cut(w, blocks, FirstSent(off, env), LastSent(off + |w.data|, env, |blocks|))
  }

  function Issue(ck: Checksum, c: Info, ps: seq<Pending>, sent: seq<Sent>, w: Flush.Write, env: WriteEnv): (Info, seq<Pending>, seq<Sent>) {
    if w.offset > CHUNKSIZE then (c, ps, sent)
    else
      match WriteChunk(ck, c, AppendOp(w, None), env)
      case Written(g) => (g.(file := c.file), ps, sent + [PieceOf(c, w, [], env)])
      case ReadFirst(start, len) => (c, ps + [Pending(w, Window(c.file, start, ReadLength(c, start, len)))], sent)
      case Refused(_) => (c, ps, sent)
  }

  function IssueAll(ck: Checksum, c: Info, ps: seq<Pending>, sent: seq<Sent>, ws: seq<Flush.Write>, env: WriteEnv): (Info, seq<Pending>, seq<Sent>)
    decreases |ws|
  {
    if ws == [] then (c, ps, sent)
    else
      var (d, qs, more) := Issue(ck, c, ps, sent, ws[0], env);
      IssueAll(ck, d, qs, more, ws[1..], env)
  }

  function FindSent(sent: seq<Sent>, w: Flush.Write): (k: nat)
    ensures k <= |sent| && (k < |sent| ==> sent[k].w == w)
    ensures forall i: nat | i < k :: sent[i].w != w
  {
    if sent == [] || sent[0].w == w then 0 else 1 + FindSent(sent[1..], w)
  }

  function Unsent(sent: seq<Sent>, k: nat): seq<Sent>
    requires k < |sent|
  {
    sent[..k] + sent[k + 1..]
  }

  /** The bytes of a write arrive. */
  function Complete(s: Real, w: Flush.Write): Real {
    var k := FindSent(s.sent, w);
    if k == |s.sent| then s
    else s.(c := s.c.(file := Land(s.c.file, s.sent[k])), sent := Unsent(s.sent, k))
  }

  function Arrive(s: Real, fe: Flush.Event): Real {
    if fe.Done? && fe.ok && fe.k < |s.f.inFlight| then Complete(s, s.f.inFlight[fe.k]) else s
  }

  /** The part of its block before a write, as it is on disk now. */
  function OnDisk(file: seq<Byte>, w: Flush.Write): seq<Byte> {
    Window(file, w.offset - w.offset % B, w.offset % B)
  }

  function Resume(ck: Checksum, s: Real, m: nat, env: WriteEnv): Real
    requires m < |s.pending|
  {
    var w, now := s.pending[m].w, OnDisk(s.c.file, s.pending[m].w);
    if Matches(s.c.sums, s.pending[m].Block(), ComputeChecksums(ck, ZeroPad(now))) && w.offset <= CHUNKSIZE then
      match WriteChunk(ck, s.c, AppendOp(w, Some(now)), env)
      case Written(g) => s.(c := g.(file := s.c.file), pending := Drop(s.pending, m), sent := s.sent + [PieceOf(s.c, w, now, env)])
      case _ => s.(f := Flush.Lose(s.f))
    else s.(f := Flush.Lose(s.f))
  }

  function Step(ck: Checksum, s: Real, e: DiskRuns.Event): Real {
    match e
    case Flusher(fe, skip, extra) =>
      var ge := DiskRuns.Allowed(Plan(s), fe);
      var g, t := Flush.Step(s.f, ge), Arrive(s, ge);
      if g.live && |s.f.issued| <= |g.issued| then
        var (c, ps, sent) := IssueAll(ck, t.c, t.pending, t.sent, g.issued[|s.f.issued|..], Env(skip, extra));
        Real(g, c, ps, sent)
      else t.(f := g)
    case ReadDone(m, skip, extra) => if m < |s.pending| then Resume(ck, s, m, Env(skip, extra)) else s
  }

  function NewReal(c: Info): Real
    requires c.Valid()
  {
    Real(Flush.NewFlusher(c.Content()), c, [], [])
  }

  function Run(ck: Checksum, s: Real, events: seq<DiskRuns.Event>): Real {
    if events == [] then s else Step(ck, Run(ck, s, events[..|events| - 1]), events[|events| - 1])
  }

  // ----- completions commute

  /** The bytes lie in the blocks of their write. */
  predicate Fits(x: Sent) {
    x.w.offset - x.w.offset % B <= x.at && x.at + |x.bytes| <= RoundUp(x.w.End())
  }

  predicate Apart(x: Sent, y: Sent) {
    x.at + |x.bytes| <= y.at || y.at + |y.bytes| <= x.at
  }

  lemma LandCommutes(file: seq<Byte>, x: Sent, y: Sent)
    requires Apart(x, y)
    ensures Land(Land(file, x), y) == Land(Land(file, y), x)
  {
    var a, b := Land(Land(file, x), y), Land(Land(file, y), x);
    forall k | 0 <= k < |a| ensures a[k] == b[k] {}
  }

  lemma {:induction false} LandBefore(file: seq<Byte>, x: Sent, sent: seq<Sent>)
    requires forall i: nat | i < |sent| :: Apart(x, sent[i])
    ensures LandAll(Land(file, x), sent) == Land(LandAll(file, sent), x)
  {
    if sent != [] {
      LandBefore(file, x, sent[..|sent| - 1]);
      LandCommutes(LandAll(file, sent[..|sent| - 1]), x, sent[|sent| - 1]);
    }
  }

  /** Any of the writes may be the first to be done. */
  lemma {:induction false} LandAny(file: seq<Byte>, sent: seq<Sent>, k: nat)
    requires k < |sent| && forall i: nat | i < |sent| && i != k :: Apart(sent[k], sent[i])
    ensures LandAll(Land(file, sent[k]), Unsent(sent, k)) == LandAll(file, sent)
  {
    var z := |sent| - 1;
    if k == z {
      LandBefore(file, sent[k], sent[..z]);
      assert Unsent(sent, k) == sent[..z];
    } else {
      LandAny(file, sent[..z], k);
      assert Unsent(sent, k)[..z - 1] == Unsent(sent[..z], k);
      assert Unsent(sent, k)[z - 1] == sent[z];
    }
  }

  /** Writes in flight are for different blocks, and so are their bytes. */
  lemma InFlightApart(f: Flush.Flusher, x: Sent, y: Sent)
    requires Flush.Staged(f) && x.w in f.inFlight && y.w in f.inFlight && x.w != y.w && Fits(x) && Fits(y)
    ensures Apart(x, y)
  {
    var i: nat :| i < |f.inFlight| && f.inFlight[i] == x.w;
    var j: nat :| j < |f.inFlight| && f.inFlight[j] == y.w;
    if i < j { EndsBefore(f, i, j); } else { EndsBefore(f, j, i); }
  }

  lemma EndsBefore(f: Flush.Flusher, i: nat, j: nat)
    requires Flush.Staged(f) && i < j < |f.inFlight|
    ensures RoundUp(f.inFlight[i].End()) <= f.inFlight[j].offset - f.inFlight[j].offset % B
  {
    assert !f.inFlight[i].EndsInside() && f.inFlight[i].End() <= f.inFlight[j].offset;
  }

  // ----- what is known about the bytes on their way

  ghost predicate SentOk(f: Flush.Flusher, file: seq<Byte>, ps: seq<Pending>, sent: seq<Sent>) {
    && (forall i: nat | i < |sent| :: sent[i].w in f.inFlight && Fits(sent[i]))
    && (forall i: nat, j: nat | i < |sent| && j < |ps| :: sent[i].w != ps[j].w)
    && (forall i: nat, j: nat | i < j < |sent| :: sent[i].w != sent[j].w)
    && (forall j: nat | j < |ps| :: ps[j].readBack == OnDisk(file, ps[j].w))
  }

  lemma SentInFlight(f: Flush.Flusher, file: seq<Byte>, ps: seq<Pending>, sent: seq<Sent>)
    requires SentOk(f, file, ps, sent)
    ensures sent == [] || sent[0].w in f.inFlight
  {
  }

  ghost predicate Inv(ck: Checksum, s: Real) {
    && DiskRuns.Inv(ck, Plan(s))
    && (s.f.live ==> SentOk(s.f, s.c.file, s.pending, s.sent))
  }

  // ----- a write is handed over

  lemma IssueShape(ck: Checksum, c: Info, ps: seq<Pending>, sent: seq<Sent>, w: Flush.Write, env: WriteEnv)
    requires w.End() <= CHUNKSIZE && Flush.Legal(w) && env == Env(env.skip, env.extra)
    ensures Aligned(w.offset, |w.data|) ==>
      Issue(ck, c, ps, sent, w, env) ==
      (WriteAligned(ck, c, AppendOp(w, None), w.data).(file := c.file), ps, sent + [PieceOf(c, w, [], env)])
    ensures w.offset % B == 0 && |w.data| < B && c.size <= w.offset ==>
      Issue(ck, c, ps, sent, w, env) ==
      (WritePartial(ck, c, w.offset, w.data, [], env).(file := c.file), ps, sent + [PieceOf(c, w, [], env)])
    ensures w.offset % B != 0 && c.size == w.offset ==>
      Issue(ck, c, ps, sent, w, env) == (c, ps + [Pending(w, OnDisk(c.file, w))], sent)
  {
  }

  lemma LandLast(file: seq<Byte>, sent: seq<Sent>, x: Sent)
    ensures LandAll(file, sent + [x]) == Land(LandAll(file, sent), x)
  {
    assert (sent + [x])[..|sent|] == sent;
  }

  /** Whole blocks: what is planned is what the simple form writes. */
  lemma AlignedPlanned(ck: Checksum, c: Info, sent: seq<Sent>, w: Flush.Write, env: WriteEnv)
    requires |w.data| >= B
    ensures Planned(WriteAligned(ck, c, AppendOp(w, None), w.data).(file := c.file), sent + [PieceOf(c, w, [], env)]) ==
            WriteAligned(ck, Planned(c, sent), AppendOp(w, None), w.data)
  {
    LandLast(c.file, sent, PieceOf(c, w, [], env));
  }

  lemma PartialPlanned(ck: Checksum, c: Info, sent: seq<Sent>, w: Flush.Write, readBack: seq<Byte>, env: WriteEnv)
    requires |w.data| < B
    ensures Planned(WritePartial(ck, c, w.offset, w.data, readBack, env).(file := c.file), sent + [PieceOf(c, w, readBack, env)]) ==
            WritePartial(ck, Planned(c, sent), w.offset, w.data, readBack, env)
  {
    var blocks, lo, hi := PartialCut(ck, c, w, readBack, env);
    PartialSends(ck, Planned(c, sent), w, readBack, env, blocks);
    LandLast(c.file, sent, Cut(w, blocks, lo, hi));
    SendPlanned(ck, c, LandAll(c.file, sent), w, blocks, lo, hi);
  }

  lemma PartialCut(ck: Checksum, c: Info, w: Flush.Write, readBack: seq<Byte>, env: WriteEnv) returns (blocks: seq<Byte>, lo: nat, hi: nat)
    requires |w.data| < B
    ensures blocks == PartialBlocks(c, w.offset, w.data, readBack) && |blocks| >= w.offset % B + |w.data|
    ensures lo == FirstSent(w.offset % B, env) <= hi == LastSent(w.offset % B + |w.data|, env, |blocks|) <= |blocks|
    ensures PieceOf(c, w, readBack, env) == Cut(w, blocks, lo, hi)
    ensures WritePartial(ck, c, w.offset, w.data, readBack, env) == SendBlocks(ck, c, w.offset, |w.data|, blocks, lo, hi)
  {
    blocks := PartialBlocks(c, w.offset, w.data, readBack);
    lo, hi := FirstSent(w.offset % B, env), LastSent(w.offset % B + |w.data|, env, |blocks|);
    PartialSends(ck, c, w, readBack, env, blocks);
  }

  lemma PartialSends(ck: Checksum, c: Info, w: Flush.Write, readBack: seq<Byte>, env: WriteEnv, blocks: seq<Byte>)
    requires |w.data| < B && blocks == PartialBlocks(c, w.offset, w.data, readBack)
    ensures WritePartial(ck, c, w.offset, w.data, readBack, env) ==
            SendBlocks(ck, c, w.offset, |w.data|, blocks, FirstSent(w.offset % B, env), LastSent(w.offset % B + |w.data|, env, |blocks|))
  {
  }

  /** What is noted about a write does not depend on what is on disk. */
  lemma SendPlanned(ck: Checksum, c: Info, file: seq<Byte>, w: Flush.Write, blocks: seq<Byte>, lo: nat, hi: nat)
    requires lo <= hi <= |blocks|
    ensures SendBlocks(ck, c.(file := file), w.offset, |w.data|, blocks, lo, hi) ==
            SendBlocks(ck, c, w.offset, |w.data|, blocks, lo, hi).(file := Land(file, Cut(w, blocks, lo, hi)))
  {
    var a := SendBlocks(ck, c.(file := file), w.offset, |w.data|, blocks, lo, hi);
    var b := SendBlocks(ck, c, w.offset, |w.data|, blocks, lo, hi);
    var x := Cut(w, blocks, lo, hi);
    NotedAlike(c, file, x.at, x.bytes, w.offset, |w.data|, ComputeChecksums(ck, blocks));
    assert a.sums == b.sums;
  }

  lemma NotedAlike(c: Info, file: seq<Byte>, at: nat, bytes: seq<Byte>, offset: nat, n: nat, sums: seq<nat>)
    ensures UpdateChecksums(PutOnDisk(c.(file := file), at, bytes), offset, n, sums) ==
            UpdateChecksums(PutOnDisk(c, at, bytes), offset, n, sums).(file := Overlay(file, at, bytes))
  {
    var a := UpdateChecksums(PutOnDisk(c.(file := file), at, bytes), offset, n, sums);
    var b := UpdateChecksums(PutOnDisk(c, at, bytes), offset, n, sums);
    forall k: nat | k < |a.sums| ensures a.sums[k] == b.sums[k] {}
  }

  lemma NewPieceFits(c: Info, w: Flush.Write, env: WriteEnv)
    requires Flush.Legal(w) && w.offset % B == 0 && c.size <= w.offset
    ensures Fits(PieceOf(c, w, [], env))
  {
  }

  lemma NewSentOk(f: Flush.Flusher, file: seq<Byte>, ps: seq<Pending>, sent: seq<Sent>, x: Sent)
    requires SentOk(f, file, ps, sent) && Flush.Staged(f) && Known(ps, f) && f.buffer != []
    requires x.w == Flush.TakeWrite(f).issued[|f.issued|] && Fits(x)
    ensures SentOk(Flush.TakeWrite(f), file, ps, sent + [x])
  {
    var g := Flush.TakeWrite(f);
    assert g.inFlight == f.inFlight + [x.w];
    forall v | v in f.inFlight ensures v != x.w && v in g.inFlight {
      var i: nat :| i < |f.inFlight| && f.inFlight[i] == v;
      assert Flush.Legal(v) && v.End() <= f.next && g.inFlight[i] == v;
    }
    assert g.inFlight[|f.inFlight|] == x.w;
  }

  lemma NewPendingOk(f: Flush.Flusher, file: seq<Byte>, ps: seq<Pending>, sent: seq<Sent>, p: Pending)
    requires SentOk(f, file, ps, sent) && Flush.Staged(f) && f.buffer != [] && sent == []
    requires p.readBack == OnDisk(file, p.w)
    ensures SentOk(Flush.TakeWrite(f), file, ps + [p], sent)
  {
  }

  /** One write of the flush: the real disk and the simple form take the same decision. */
  lemma IssueRefines(ck: Checksum, f: Flush.Flusher, full: bool, c: Info, ps: seq<Pending>, sent: seq<Sent>, env: WriteEnv)
    requires Flush.Flushing(f, full) && !f.staggered && f.buffer != [] && (full ==> |f.buffer| > B)
    requires |f.base| + |f.taken| <= CHUNKSIZE && env == Env(env.skip, env.extra)
    requires DiskRuns.Settled(ck, f, (Planned(c, sent), ps)) && SentOk(f, c.file, ps, sent)
    ensures var g := Flush.TakeWrite(f);
      var r := Issue(ck, c, ps, sent, g.issued[|f.issued|], env);
      && StartWrite(ck, Planned(c, sent), ps, g.issued[|f.issued|], env) == (Planned(r.0, r.2), r.1)
      && SentOk(g, r.0.file, r.1, r.2)
  {
    var g := Flush.TakeWrite(f);
    var w := g.issued[|f.issued|];
    Flush.TakeWriteKeeps(f, full);
    DiskRuns.TargetGrows(f, full);
    assert w in g.issued && w.offset == f.next;
    Flush.TiledLength(g.issued, |g.base|, g.next);
    IssueShape(ck, c, ps, sent, w, env);
    StartShape(ck, Planned(c, sent), ps, w, env);
    if Aligned(w.offset, |w.data|) {
      AlignedPlanned(ck, c, sent, w, env);
      NewPieceFits(c, w, env);
      NewSentOk(f, c.file, ps, sent, PieceOf(c, w, [], env));
    } else if w.offset % B == 0 {
      PartialPlanned(ck, c, sent, w, [], env);
      NewPieceFits(c, w, env);
      NewSentOk(f, c.file, ps, sent, PieceOf(c, w, [], env));
    } else {
      FirstIsAlone(f, full, sent, c.file, ps);
      DiskRuns.AllEndOnBoundary(f, ps);
      StartRead(ck, Target(f), Planned(c, sent), ps, w.data);
      NewPendingOk(f, c.file, ps, sent, Pending(w, OnDisk(c.file, w)));
    }
  }

  /** Only the first write of an appender starts inside a block. */
  lemma FirstIsAlone(f: Flush.Flusher, full: bool, sent: seq<Sent>, file: seq<Byte>, ps: seq<Pending>)
    requires Flush.Flushing(f, full) && f.buffer != [] && f.next % B != 0 && SentOk(f, file, ps, sent)
    ensures sent == []
  {
    SentInFlight(f, file, ps, sent);
  }

  lemma IssueFirst(ck: Checksum, c: Info, ps: seq<Pending>, sent: seq<Sent>, ws: seq<Flush.Write>, env: WriteEnv)
    requires ws != []
    ensures var (d, qs, more) := Issue(ck, c, ps, sent, ws[0], env);
      IssueAll(ck, c, ps, sent, ws, env) == IssueAll(ck, d, qs, more, ws[1..], env)
  {
  }

  lemma {:induction false} LoopRefines(ck: Checksum, f: Flush.Flusher, full: bool, starts: nat -> bool,
                                       c: Info, ps: seq<Pending>, sent: seq<Sent>, env: WriteEnv)
    requires Flush.Flushing(f, full) && |f.base| + |f.taken| <= CHUNKSIZE && env == Env(env.skip, env.extra)
    requires DiskRuns.Settled(ck, f, (Planned(c, sent), ps)) && SentOk(f, c.file, ps, sent)
    ensures var g := Flush.FlushLoop(f, full, starts);
      |f.issued| <= |g.issued| &&
      (g.live ==>
         var r := IssueAll(ck, c, ps, sent, g.issued[|f.issued|..], env);
         && StartAll(ck, Planned(c, sent), ps, g.issued[|f.issued|..], env) == (Planned(r.0, r.2), r.1)
         && SentOk(g, r.0.file, r.1, r.2))
    decreases |f.buffer|
  {
    var g := Flush.FlushLoop(f, full, starts);
    DiskRuns.LoopExtends(f, full, starts);
    if |f.buffer| > (if full then B else 0) {
      if starts(f.next) {
        var h := Flush.TakeWrite(f);
        IssueRefines(ck, f, full, c, ps, sent, env);
        DiskRuns.OneWrite(ck, f, full, Planned(c, sent), ps, env);
        Flush.TakeWriteKeeps(f, full);
        var (d, qs, more) := Issue(ck, c, ps, sent, h.issued[|f.issued|], env);
        DiskRuns.LoopExtends(h, full, starts);
        LoopRefines(ck, h, full, starts, d, qs, more, env);
        var ws := g.issued[|f.issued|..];
        IssueFirst(ck, c, ps, sent, ws, env);
        DiskRuns.StartFirst(ck, Planned(c, sent), ps, ws, env);
        assert ws[1..] == g.issued[|h.issued|..] && ws[0] == h.issued[|f.issued|];
      }
    } else {
      assert g.issued[|f.issued|..] == [];
    }
  }

  // ----- every step is a step of the simple form

  /** Nothing is issued: the disk stays as it is, but for what arrives. */
  lemma NothingIssued(ck: Checksum, s: Real, e: DiskRuns.Event)
    requires e.Flusher?
    requires var ge := DiskRuns.Allowed(Plan(s), e.e);
      Flush.Step(s.f, ge).issued == s.f.issued || !Flush.Step(s.f, ge).live
    ensures var ge := DiskRuns.Allowed(Plan(s), e.e);
      && Step(ck, s, e) == Arrive(s, ge).(f := Flush.Step(s.f, ge))
      && DiskRuns.Step(ck, Plan(s), e) == Plan(s).(f := Flush.Step(s.f, ge))
  {
    assert s.f.issued[|s.f.issued|..] == [];
  }

  lemma TakeRefines(ck: Checksum, s: Real, e: DiskRuns.Event)
    requires Inv(ck, s) && s.f.live && e.Flusher? && (e.e.Take? || e.e.Stop?)
    ensures Plan(Step(ck, s, e)) == DiskRuns.Step(ck, Plan(s), e)
    ensures var t := Step(ck, s, e); t.f.live ==> SentOk(t.f, t.c.file, t.pending, t.sent)
  {
    NothingIssued(ck, s, e);
  }

  lemma FlushShape(ck: Checksum, s: Real, e: DiskRuns.Event, f: Flush.Flusher, full: bool, starts: nat -> bool)
    requires e.Flusher? && !s.f.staggered && !s.f.restart
    requires (e.e == Flush.FlushFullBlocks(starts) && full && f == s.f) || (e.e == Flush.CloseAndFlushAll(starts) && !full && f == s.f.(closed := true))
    requires var g := Flush.FlushLoop(f, full, starts); |f.issued| <= |g.issued| && g.live
    ensures var g := Flush.FlushLoop(f, full, starts);
      var r := IssueAll(ck, s.c, s.pending, s.sent, g.issued[|f.issued|..], Env(e.skip, e.extra));
      Step(ck, s, e) == Real(g, r.0, r.1, r.2)
  {
    assert f.(restart := false) == f;
  }

  lemma FlushRefines(ck: Checksum, s: Real, e: DiskRuns.Event)
    requires Inv(ck, s) && s.f.live && e.Flusher? && (e.e.FlushFullBlocks? || e.e.CloseAndFlushAll?)
    ensures Plan(Step(ck, s, e)) == DiskRuns.Step(ck, Plan(s), e)
    ensures var t := Step(ck, s, e); t.f.live ==> SentOk(t.f, t.c.file, t.pending, t.sent)
  {
    var full, starts := e.e.FlushFullBlocks?, e.e.starts;
    var f := if full then s.f else s.f.(closed := true);
    assert f.(restart := false) == f;
    if f.staggered {
      NothingIssued(ck, s, e);
    } else {
      LoopRefines(ck, f, full, starts, s.c, s.pending, s.sent, Env(e.skip, e.extra));
      if Flush.FlushLoop(f, full, starts).live {
        FlushShape(ck, s, e, f, full, starts);
        DiskRuns.FlushShape(ck, Plan(s), e, f, full, starts);
      } else {
        NothingIssued(ck, s, e);
      }
    }
  }

  /** What is on its way ends up in the same file, whichever write is done first. */
  lemma CompleteKeepsPlan(s: Real, w: Flush.Write)
    requires Flush.Staged(s.f) && SentOk(s.f, s.c.file, s.pending, s.sent)
    ensures Plan(Complete(s, w)) == Plan(s)
  {
    var k := FindSent(s.sent, w);
    if k < |s.sent| {
      forall i: nat | i < |s.sent| && i != k ensures Apart(s.sent[k], s.sent[i]) { InFlightApart(s.f, s.sent[k], s.sent[i]); }
      LandAny(s.c.file, s.sent, k);
    }
  }

  lemma ReadUnaffected(f: Flush.Flusher, file: seq<Byte>, x: Sent, w: Flush.Write)
    requires Flush.Staged(f) && x.w in f.inFlight && w in f.inFlight && x.w != w && Fits(x)
    ensures OnDisk(Land(file, x), w) == OnDisk(file, w)
  {
    var y := Sent(w, w.offset - w.offset % B, OnDisk(file, w));
    InFlightApart(f, x, y);
    forall k | 0 <= k < w.offset % B ensures OnDisk(Land(file, x), w)[k] == OnDisk(file, w)[k] {}
  }

  lemma CompleteSentOk(s: Real, k: nat)
    requires Flush.Staged(s.f) && Known(s.pending, s.f) && SentOk(s.f, s.c.file, s.pending, s.sent)
    requires k < |s.f.inFlight| && !DiskRuns.IsPending(s.pending, s.f.inFlight[k])
    ensures var t := Complete(s, s.f.inFlight[k]); SentOk(Flush.Retire(s.f, k, true), t.c.file, t.pending, t.sent)
  {
    var w := s.f.inFlight[k];
    var j := FindSent(s.sent, w);
    if j < |s.sent| {
      UnsentOk(s.f, s.c.file, s.pending, s.sent, j, k);
      LandedOk(s.f, s.c.file, s.pending, s.sent, j);
    } else {
      forall i: nat | i < |s.sent| ensures s.sent[i].w in Flush.Retire(s.f, k, true).inFlight { OtherStays(s.f, k, s.sent[i].w); }
    }
  }

  /** The rest of what was handed over, once one write is done. */
  lemma UnsentOk(f: Flush.Flusher, file: seq<Byte>, ps: seq<Pending>, sent: seq<Sent>, j: nat, k: nat)
    requires SentOk(f, file, ps, sent) && j < |sent| && k < |f.inFlight| && sent[j].w == f.inFlight[k]
    ensures SentOk(Flush.Retire(f, k, true), file, ps, Unsent(sent, j))
  {
    var rest := Unsent(sent, j);
    forall i: nat | i < |rest| ensures rest[i] == sent[if i < j then i else i + 1] {}
    forall i: nat | i < |rest| ensures rest[i].w in Flush.Retire(f, k, true).inFlight && Fits(rest[i]) {
      var m := if i < j then i else i + 1;
      assert rest[i] == sent[m] && sent[m].w != sent[j].w;
      OtherStays(f, k, rest[i].w);
    }
    forall i: nat, m: nat | i < |rest| && m < |ps| ensures rest[i].w != ps[m].w {
      assert rest[i] == sent[if i < j then i else i + 1];
    }
    forall i: nat, m: nat | i < m < |rest| ensures rest[i].w != rest[m].w {
      assert rest[i] == sent[if i < j then i else i + 1] && rest[m] == sent[if m < j then m else m + 1];
    }
  }

  /** The blocks that wait to be read are as before. */
  lemma LandedOk(f: Flush.Flusher, file: seq<Byte>, ps: seq<Pending>, sent: seq<Sent>, j: nat)
    requires SentOk(f, file, ps, sent) && j < |sent| && Flush.Staged(f) && Known(ps, f)
    ensures forall i: nat | i < |ps| :: ps[i].readBack == OnDisk(Land(file, sent[j]), ps[i].w)
  {
    forall i: nat | i < |ps| ensures ps[i].readBack == OnDisk(Land(file, sent[j]), ps[i].w) {
      ReadUnaffected(f, file, sent[j], ps[i].w);
    }
  }

  lemma OtherStays(f: Flush.Flusher, k: nat, v: Flush.Write)
    requires k < |f.inFlight| && v in f.inFlight && v != f.inFlight[k]
    ensures v in Flush.Retire(f, k, true).inFlight
  {
    var i: nat :| i < |f.inFlight| && f.inFlight[i] == v;
    assert Flush.Retire(f, k, true).inFlight[if i < k then i else i - 1] == v;
  }

  lemma DoneRefines(ck: Checksum, s: Real, e: DiskRuns.Event)
    requires Inv(ck, s) && s.f.live && e.Flusher? && e.e.Done? && e.e.k < |s.f.inFlight|
    ensures Plan(Step(ck, s, e)) == DiskRuns.Step(ck, Plan(s), e)
    ensures var t := Step(ck, s, e); t.f.live ==> SentOk(t.f, t.c.file, t.pending, t.sent)
  {
    var k := e.e.k;
    var ok := e.e.ok && !DiskRuns.IsPending(s.pending, s.f.inFlight[k]);
    assert Flush.Step(s.f, DiskRuns.Allowed(Plan(s), e.e)) == Flush.Retire(s.f, k, ok);
    NothingIssued(ck, s, e);
    if ok {
      CompleteKeepsPlan(s, s.f.inFlight[k]);
      CompleteSentOk(s, k);
    }
  }

  /** The block that was read, whatever was done meanwhile, matches its checksum, and the write goes ahead. */
  lemma ResumeRefines(ck: Checksum, s: Real, e: DiskRuns.Event)
    requires Inv(ck, s) && s.f.live && e.ReadDone? && e.m < |s.pending|
    ensures Plan(Step(ck, s, e)) == DiskRuns.Step(ck, Plan(s), e)
    ensures var t := Step(ck, s, e); t.f == s.f && SentOk(t.f, t.c.file, t.pending, t.sent)
  {
    var p, env := s.pending[e.m], Env(e.skip, e.extra);
    var t, d := Target(s.f), Planned(s.c, s.sent);
    assert PendingOk(ck, t, d, p) && p.readBack == OnDisk(s.c.file, p.w);
    ReadBackMatches(ck, t, d, p);
    DiskRuns.ResumeShape(ck, d, p, env);
    DiskRuns.ResumeShape(ck, s.c, p, env);
    var g := WritePartial(ck, s.c, p.w.offset, p.w.data, p.readBack, env);
    DiskRuns.ReadDoneShape(ck, Plan(s), e, WritePartial(ck, d, p.w.offset, p.w.data, p.readBack, env));
    ResumeShape(ck, s, e, g);
    PartialPlanned(ck, s.c, s.sent, p.w, p.readBack, env);
    ResumedFits(ck, t, s.c, s.sent, p, env);
    ResumedSentOk(ck, t, d, s, e.m, PieceOf(s.c, p.w, p.readBack, env));
  }

  lemma ResumeShape(ck: Checksum, s: Real, e: DiskRuns.Event, g: Info)
    requires e.ReadDone? && e.m < |s.pending|
    requires var p := s.pending[e.m];
      && p.w.offset <= CHUNKSIZE && p.Block() < |s.c.sums| && p.readBack == OnDisk(s.c.file, p.w)
      && ComputeChecksums(ck, ZeroPad(p.readBack)) == [s.c.sums[p.Block()]]
      && WriteChunk(ck, s.c, AppendOp(p.w, Some(p.readBack)), Env(e.skip, e.extra)) == Written(g)
    ensures var p := s.pending[e.m];
      Step(ck, s, e) == s.(c := g.(file := s.c.file), pending := Drop(s.pending, e.m),
                           sent := s.sent + [PieceOf(s.c, p.w, p.readBack, Env(e.skip, e.extra))])
  {
  }

  lemma ResumedFits(ck: Checksum, t: seq<Byte>, c: Info, sent: seq<Sent>, p: Pending, env: WriteEnv)
    requires Planned(c, sent).Valid() && PendingOk(ck, t, Planned(c, sent), p)
    ensures Fits(PieceOf(c, p.w, p.readBack, env))
  {
    PendingBlocks(ck, t, Planned(c, sent), p);
    assert PartialBlocks(Planned(c, sent), p.w.offset, p.w.data, p.readBack) == PartialBlocks(c, p.w.offset, p.w.data, p.readBack);
  }

  lemma ResumedSentOk(ck: Checksum, t: seq<Byte>, d: Info, s: Real, m: nat, x: Sent)
    requires SentOk(s.f, s.c.file, s.pending, s.sent) && PendingsOk(ck, t, d, s.pending) && Known(s.pending, s.f)
    requires m < |s.pending| && x.w == s.pending[m].w && Fits(x)
    ensures SentOk(s.f, s.c.file, Drop(s.pending, m), s.sent + [x])
  {
    var qs := Drop(s.pending, m);
    forall i: nat | i < |qs| ensures qs[i] in s.pending && qs[i].w != x.w {
      var j := if i < m then i else i + 1;
      assert qs[i] == s.pending[j];
      assert if j < m then s.pending[j].Block() < s.pending[m].Block() else s.pending[m].Block() < s.pending[j].Block();
    }
  }

  /** A disk that is given up stays so. */
  lemma DeadStays(ck: Checksum, s: Real, e: DiskRuns.Event)
    requires Inv(ck, s) && !s.f.live
    ensures Inv(ck, Step(ck, s, e)) && !Step(ck, s, e).f.live
  {
    if e.Flusher? {
      var ge := DiskRuns.Allowed(Plan(s), e.e);
      Flush.StepKeeps(s.f, ge);
      DeadFlusher(s.f, ge);
      NothingIssued(ck, s, e);
    } else {
      Flush.LoseKeeps(s.f);
    }
  }

  lemma DeadFlusher(f: Flush.Flusher, e: Flush.Event)
    requires !f.live
    ensures !Flush.Step(f, e).live && Flush.Step(f, e).base == f.base && Flush.Step(f, e).taken == f.taken
  {
  }

  /** As long as no write failed, every step of the real disk is the same step of the simple form. */
  lemma StepRefines(ck: Checksum, s: Real, e: DiskRuns.Event)
    requires Inv(ck, s) && s.f.live
    ensures Plan(Step(ck, s, e)) == DiskRuns.Step(ck, Plan(s), e) && Inv(ck, Step(ck, s, e))
  {
    DiskRuns.StepKeeps(ck, Plan(s), e);
    if e.ReadDone? {
      if e.m < |s.pending| { ResumeRefines(ck, s, e); }
    } else {
      match e.e
      case Take(_) => TakeRefines(ck, s, e);
      case Stop => TakeRefines(ck, s, e);
      case FlushFullBlocks(_) => FlushRefines(ck, s, e);
      case CloseAndFlushAll(_) => FlushRefines(ck, s, e);
      case Done(k, _, _) => if k < |s.f.inFlight| { DoneRefines(ck, s, e); } else { NothingIssued(ck, s, e); }
    }
  }

  lemma {:induction false} Reachable(ck: Checksum, c: Info, events: seq<DiskRuns.Event>)
    requires Sound(ck, c)
    ensures var s := Run(ck, NewReal(c), events);
      && Inv(ck, s) && s.f.base == c.Content()
      && (s.f.live ==> Plan(s) == DiskRuns.Run(ck, DiskRuns.NewDisk(c), events))
  {
    if events == [] {
      DiskRuns.InitStored(ck, c);
    } else {
      var before, e := events[..|events| - 1], events[|events| - 1];
      Reachable(ck, c, before);
      var s := Run(ck, NewReal(c), before);
      StepFrame(ck, s, e);
      if s.f.live { StepRefines(ck, s, e); } else { DeadStays(ck, s, e); }
    }
  }

  lemma StepFrame(ck: Checksum, s: Real, e: DiskRuns.Event)
    ensures Step(ck, s, e).f.base == s.f.base
  {
    if e.Flusher? { Flush.StepFrame(s.f, DiskRuns.Allowed(Plan(s), e.e)); }
  }

  // ----- what ends up on disk

  /** Two writes in flight may be done in either order: the disk is the same. */
  lemma CompletionsCommute(ck: Checksum, c: Info, events: seq<DiskRuns.Event>, v: Flush.Write, w: Flush.Write)
    requires Sound(ck, c)
    ensures var s := Run(ck, NewReal(c), events);
      s.f.live && v != w ==> Complete(Complete(s, v), w).c == Complete(Complete(s, w), v).c
  {
    Reachable(ck, c, events);
    var s := Run(ck, NewReal(c), events);
    if s.f.live && v != w {
      CompleteOther(s, v, w);
      CompleteOther(s, w, v);
      var i, j := FindSent(s.sent, v), FindSent(s.sent, w);
      if i < |s.sent| && j < |s.sent| {
        InFlightApart(s.f, s.sent[i], s.sent[j]);
        LandCommutes(s.c.file, s.sent[i], s.sent[j]);
      }
    }
  }

  /** Completing one write leaves what was handed over for another one. */
  lemma CompleteOther(s: Real, v: Flush.Write, w: Flush.Write)
    requires SentOk(s.f, s.c.file, s.pending, s.sent) && v != w
    ensures var t, i, k := Complete(s, v), FindSent(s.sent, w), FindSent(Complete(s, v).sent, w);
      (i < |s.sent| <==> k < |t.sent|) && (i < |s.sent| ==> t.sent[k] == s.sent[i])
  {
    var t, i, k, j := Complete(s, v), FindSent(s.sent, w), FindSent(Complete(s, v).sent, w), FindSent(s.sent, v);
    if j < |s.sent| {
      if i < |s.sent| { assert t.sent[if i < j then i else i - 1] == s.sent[i]; }
      if k < |t.sent| { assert t.sent[k] == s.sent[if k < j then k else k + 1]; }
    }
  }

  lemma NoneSent(s: Real)
    requires SentOk(s.f, s.c.file, s.pending, s.sent) && s.f.inFlight == []
    ensures Plan(s).c == s.c
  {
    SentInFlight(s.f, s.c.file, s.pending, s.sent);
  }

  /**
   Whenever nothing is in flight and no write failed, the chunk holds its first content and the data of all
   the writes issued so far, in order, under the right checksums, whatever the order in which they were done.
   Once the appender is closed this is all the data it ever took.
   */
  lemma QuietIsExact(ck: Checksum, c: Info, events: seq<DiskRuns.Event>)
    requires Sound(ck, c)
    ensures var s := Run(ck, NewReal(c), events);
      s.f.live && s.f.inFlight == [] ==>
        && Sound(ck, s.c)
        && s.c.Content() == c.Content() + Flush.DataOf(s.f.issued)
        && s.c.size == s.f.next
        && (s.f.closed ==> s.c.Content() == c.Content() + s.f.taken)
  {
    Reachable(ck, c, events);
    DiskRuns.PlannedIsExact(ck, c, events);
    var s := Run(ck, NewReal(c), events);
    if s.f.live && s.f.inFlight == [] { NoneSent(s); }
  }

  /**
   From the first append to the stable chunk: a closed appender without a failed write can be made stable at any
   size up to what it holds, and the chunk is then the prefix of that size of all it started with and ever took.
   */
  lemma StableOnDisk(ck: Checksum, c: Info, events: seq<DiskRuns.Event>, size: nat)
    requires Sound(ck, c)
    ensures var s := Run(ck, NewReal(c), events);
      s.f.live && s.f.closed && s.f.inFlight == [] ==>
        && s.c.Valid() && s.f.next == |c.Content() + s.f.taken|
        && var g := MakeStable(ck, s.c, s.f.next, StableRequest(Some(size), None), true);
        && g.Some? == (size <= s.f.next)
        && (g.Some? ==> Sound(ck, g.value) && g.value.Content() == (c.Content() + s.f.taken)[..size])
  {
    QuietIsExact(ck, c, events);
    var s := Run(ck, NewReal(c), events);
    if s.f.live && s.f.closed && s.f.inFlight == [] && size <= s.f.next { TruncateSound(ck, s.c, size); }
  }

  // ----- runs in which nothing fails

  /** No write fails, none is reported done before its block was read, and no more data comes than fits into the chunk. */
  ghost predicate Healthy(s: Real, e: DiskRuns.Event) {
    e.Flusher? ==> FlushRuns.Healthy(s.f, e.e) && DiskRuns.Allowed(Plan(s), e.e) == e.e
  }

  ghost predicate HealthyRun(ck: Checksum, c: Info, events: seq<DiskRuns.Event>)
    requires c.Valid()
    decreases |events|
  {
    events == [] ||
    (HealthyRun(ck, c, events[..|events| - 1]) && Healthy(Run(ck, NewReal(c), events[..|events| - 1]), events[|events| - 1]))
  }

  /** The flush events of a run. */
  function FlushEvents(events: seq<DiskRuns.Event>): seq<Flush.Event> {
    if events == [] then []
    else FlushEvents(events[..|events| - 1]) + (if events[|events| - 1].Flusher? then [events[|events| - 1].e] else [])
  }

  lemma FlusherStep(ck: Checksum, s: Real, e: DiskRuns.Event)
    requires Inv(ck, s) && s.f.live
    ensures Step(ck, s, e).f == if e.Flusher? then Flush.Step(s.f, DiskRuns.Allowed(Plan(s), e.e)) else s.f
  {
    if e.ReadDone? && e.m < |s.pending| { ResumeRefines(ck, s, e); }
  }

  lemma OfferedNext(events: seq<Flush.Event>, e: Flush.Event)
    ensures FlushRuns.Offered(events + [e]) == FlushRuns.Offered(events) + (if e.Take? && !FlushRuns.HasClose(events) then e.data else [])
    ensures FlushRuns.HasClose(events + [e]) <==> FlushRuns.HasClose(events) || e.CloseAndFlushAll?
  {
    assert (events + [e])[..|events|] == events;
    FlushRuns.HasCloseLast(events + [e]);
  }

  lemma {:induction false} HealthyRunTakes(ck: Checksum, c: Info, events: seq<DiskRuns.Event>)
    requires Sound(ck, c) && HealthyRun(ck, c, events)
    ensures var s, fs := Run(ck, NewReal(c), events), FlushEvents(events);
      Inv(ck, s) && s.f.live && s.f.taken == FlushRuns.Offered(fs) && (s.f.closed <==> FlushRuns.HasClose(fs))
    decreases |events|
  {
    Reachable(ck, c, events);
    if events != [] {
      var before, e := events[..|events| - 1], events[|events| - 1];
      HealthyRunTakes(ck, c, before);
      var s := Run(ck, NewReal(c), before);
      FlusherStep(ck, s, e);
      if e.Flusher? {
        FlushRuns.StepIsHealthy(s.f, e.e);
        OfferedNext(FlushEvents(before), e.e);
      } else {
        assert FlushEvents(events) == FlushEvents(before);
      }
    }
  }

  /** If nothing fails, all data offered before the close is on disk once all writes are done. */
  lemma AllOfferedIsOnDisk(ck: Checksum, c: Info, events: seq<DiskRuns.Event>)
    requires Sound(ck, c) && HealthyRun(ck, c, events)
    ensures var s, fs := Run(ck, NewReal(c), events), FlushEvents(events);
      s.f.live && (FlushRuns.HasClose(fs) && s.f.inFlight == [] ==>
        Sound(ck, s.c) && s.c.Content() == c.Content() + FlushRuns.Offered(fs))
  {
    HealthyRunTakes(ck, c, events);
    QuietIsExact(ck, c, events);
  }
}
