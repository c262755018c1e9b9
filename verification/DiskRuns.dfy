/** All the runs of an appender's flush, its disk reads and its disk writes. */
module DiskRuns {
  import opened Common
  import opened ChunkBlocks
  import opened DiskFlush
  import Flush

  // ----- the read of a pending write is over

  lemma ResumeShape(ck: Checksum, c: Info, p: Pending, env: WriteEnv)
    requires 0 < |p.w.data| < B && p.w.End() <= CHUNKSIZE && env == Env(env.skip, env.extra)
    ensures WriteChunk(ck, c, AppendOp(p.w, Some(p.readBack)), env) ==
            Written(WritePartial(ck, c, p.w.offset, p.w.data, p.readBack, env))
  {
  }

  /** Part of a block of `t` on disk, at its place. */
  lemma BlockOnDisk(t: seq<Byte>, file: seq<Byte>, b: nat, lo: nat, hi: nat, k: nat)
    requires lo <= hi <= B && k < |t|
    ensures var after := Overlay(file, b * B + lo, Block(t, b)[lo..hi]);
      && (b * B + lo <= k < b * B + hi ==> k < |after| && after[k] == t[k])
      && (k < |file| ==> after[k] == file[k] || after[k] == t[k])
  {
    if b * B + lo <= k < b * B + hi {
      assert Block(t, b)[lo..hi][k - b * B - lo] == At(t, k);
    }
  }

  lemma SentApplied(ck: Checksum, t: seq<Byte>, c: Info, p: Pending, lo: nat, hi: nat)
    requires c.Valid() && |t| <= CHUNKSIZE && PendingOk(ck, t, c, p)
    requires lo <= p.w.offset % B && p.w.offset % B + |p.w.data| <= hi <= B
    ensures Applied(ck, t, c, p, SendBlocks(ck, c, p.w.offset, |p.w.data|, Block(t, p.Block()), lo, hi))
  {
    var o, b := p.w.offset, p.Block();
    var blocks := Block(t, b);
    var g := SendBlocks(ck, c, o, |p.w.data|, blocks, lo, hi);
    assert ComputeChecksums(ck, blocks) == [ck(blocks)];
    assert g.file == Overlay(c.file, b * B + lo, blocks[lo..hi]);
    forall k: nat | k < |t|
      ensures o <= k < p.w.End() ==> k < |g.file| && g.file[k] == t[k]
      ensures k < |c.file| ==> g.file[k] == c.file[k] || g.file[k] == t[k]
    {
      BlockOnDisk(t, c.file, b, lo, hi, k);
    }
  }

  lemma ResumeApplies(ck: Checksum, t: seq<Byte>, c: Info, p: Pending, env: WriteEnv)
    requires c.Valid() && |t| <= CHUNKSIZE && PendingOk(ck, t, c, p)
    ensures Applied(ck, t, c, p, WritePartial(ck, c, p.w.offset, p.w.data, p.readBack, env))
  {
    PendingBlocks(ck, t, c, p);
    var off := p.w.offset % B;
    SentApplied(ck, t, c, p, FirstSent(off, env), LastSent(off + |p.w.data|, env, B));
  }

  // ----- runs

  datatype Event =
    | Flusher(e: Flush.Event, skip: nat, extra: nat)
    | ReadDone(m: nat, skip: nat, extra: nat)

  function NewDisk(c: Info): Disk
    requires c.Valid()
  {
    Disk(Flush.NewFlusher(c.Content()), c, [])
  }

  predicate IsPending(ps: seq<Pending>, w: Flush.Write) {
    exists i: nat :: i < |ps| && ps[i].w == w
  }

  /** The appender takes only what fits, and a write that still waits for its block can only fail. */
  function Allowed(s: Disk, e: Flush.Event): Flush.Event {
    match e
    case Take(data) => if s.f.next + |s.f.buffer| + |data| <= CHUNKSIZE then e else Flush.Take([])
    case Done(k, ok, starts) => if k < |s.f.inFlight| && IsPending(s.pending, s.f.inFlight[k]) then Flush.Done(k, false, starts) else e
    case _ => e
  }

  function Step(ck: Checksum, s: Disk, e: Event): Disk {
    match e
    case Flusher(fe, skip, extra) =>
      var g := Flush.Step(s.f, Allowed(s, fe));
      if g.live && |s.f.issued| <= |g.issued| then
        var (c, ps) := StartAll(ck, s.c, s.pending, g.issued[|s.f.issued|..], Env(skip, extra));
        Disk(g, c, ps)
      else s.(f := g)
    case ReadDone(m, skip, extra) =>
      if m < |s.pending| then
        var p := s.pending[m];
        if Matches(s.c.sums, p.Block(), ComputeChecksums(ck, ZeroPad(p.readBack))) && p.w.offset <= CHUNKSIZE then
          match WriteChunk(ck, s.c, AppendOp(p.w, Some(p.readBack)), Env(skip, extra))
          case Written(g) => s.(c := g, pending := Drop(s.pending, m))
          case _ => s.(f := Flush.Lose(s.f))
        else s.(f := Flush.Lose(s.f))
      else s
  }

  function Run(ck: Checksum, s: Disk, events: seq<Event>): Disk {
    if events == [] then s else Step(ck, Run(ck, s, events[..|events| - 1]), events[|events| - 1])
  }

  // ----- the invariant

  ghost predicate Inv(ck: Checksum, s: Disk) {
    && Flush.Inv(s.f) && |s.f.base| + |s.f.taken| <= CHUNKSIZE
    && (s.f.live ==> Settled(ck, s.f, (s.c, s.pending)))
  }

  /** Without a staggered write, all writes in flight end on a block boundary. */
  lemma AllEndOnBoundary(f: Flush.Flusher, ps: seq<Pending>)
    requires Flush.Staged(f) && Known(ps, f) && !f.staggered
    ensures forall i: nat | i < |ps| :: ps[i].w.End() % B == 0
  {
    forall i: nat | i < |ps| ensures ps[i].w.End() % B == 0 {
      var j: nat :| j < |f.inFlight| && f.inFlight[j] == ps[i].w;
      assert !f.inFlight[j].EndsInside();
    }
  }

  /** What the flusher issued is on disk or pending. */
  ghost predicate Settled(ck: Checksum, f: Flush.Flusher, r: (Info, seq<Pending>)) {
    Stored(ck, Target(f), r.0, r.1) && Known(r.1, f)
  }

  lemma TargetGrows(f: Flush.Flusher, full: bool)
    requires Flush.Flushing(f, full) && f.buffer != []
    ensures var g := Flush.TakeWrite(f);
      |Target(f)| == f.next && Target(g) == Target(f) + g.issued[|f.issued|].data
  {
    var g := Flush.TakeWrite(f);
    Flush.TiledLength(f.issued, |f.base|, f.next);
    assert g.issued[..|f.issued|] == f.issued;
  }

  lemma OneWrite(ck: Checksum, f: Flush.Flusher, full: bool, c: Info, ps: seq<Pending>, env: WriteEnv)
    requires Flush.Flushing(f, full) && !f.staggered && f.buffer != [] && (full ==> |f.buffer| > B)
    requires |f.base| + |f.taken| <= CHUNKSIZE && env == Env(env.skip, env.extra)
    requires Settled(ck, f, (c, ps))
    ensures var g := Flush.TakeWrite(f);
      Settled(ck, g, StartWrite(ck, c, ps, g.issued[|f.issued|], env))
  {
    var g := Flush.TakeWrite(f);
    var w := g.issued[|f.issued|];
    Flush.TakeWriteKeeps(f, full);
    AllEndOnBoundary(f, ps);
    TargetGrows(f, full);
    assert w in g.issued;
    StartStores(ck, Target(f), c, ps, w, env);
    StartKnown(ck, f, Target(g), ps, w, StartWrite(ck, c, ps, w, env));
  }

  lemma StartKnown(ck: Checksum, f: Flush.Flusher, t: seq<Byte>, ps: seq<Pending>, w: Flush.Write, r: (Info, seq<Pending>))
    requires f.buffer != [] && Known(ps, f) && Started(ck, t, ps, w, r) && w == Flush.TakeWrite(f).issued[|f.issued|]
    ensures Known(r.1, Flush.TakeWrite(f))
  {
    var g := Flush.TakeWrite(f);
    forall i: nat | i < |r.1| ensures r.1[i].w in g.inFlight {
      if i < |ps| { assert r.1[i] == ps[i]; } else { assert g.inFlight[|f.inFlight|] == w; }
    }
  }

  lemma {:induction false} LoopExtends(f: Flush.Flusher, full: bool, starts: nat -> bool)
    ensures f.issued <= Flush.FlushLoop(f, full, starts).issued
    decreases |f.buffer|
  {
    if f.live && |f.buffer| > (if full then B else 0) && starts(f.next) { LoopExtends(Flush.TakeWrite(f), full, starts); }
  }

  /** Every write of a flush is started. */
  lemma {:induction false} LoopStores(ck: Checksum, f: Flush.Flusher, full: bool, starts: nat -> bool, c: Info, ps: seq<Pending>, env: WriteEnv)
    requires Flush.Flushing(f, full) && |f.base| + |f.taken| <= CHUNKSIZE && env == Env(env.skip, env.extra)
    requires Settled(ck, f, (c, ps))
    ensures var g := Flush.FlushLoop(f, full, starts);
      |f.issued| <= |g.issued| && (g.live ==> Settled(ck, g, StartAll(ck, c, ps, g.issued[|f.issued|..], env)))
    decreases |f.buffer|
  {
    var g := Flush.FlushLoop(f, full, starts);
    LoopExtends(f, full, starts);
    if |f.buffer| > (if full then B else 0) {
      if starts(f.next) {
        var h := Flush.TakeWrite(f);
        OneWrite(ck, f, full, c, ps, env);
        Flush.TakeWriteKeeps(f, full);
        var (d, qs) := StartWrite(ck, c, ps, h.issued[|f.issued|], env);
        LoopExtends(h, full, starts);
        LoopStores(ck, h, full, starts, d, qs, env);
        StartFirst(ck, c, ps, g.issued[|f.issued|..], env);
        assert g.issued[|f.issued|..][1..] == g.issued[|h.issued|..];
        assert g.issued[|f.issued|] == h.issued[|f.issued|];
      }
    } else {
      assert g.issued[|f.issued|..] == [];
    }
  }

  lemma StartFirst(ck: Checksum, c: Info, ps: seq<Pending>, ws: seq<Flush.Write>, env: WriteEnv)
    requires ws != []
    ensures var (d, qs) := StartWrite(ck, c, ps, ws[0], env); StartAll(ck, c, ps, ws, env) == StartAll(ck, d, qs, ws[1..], env)
  {
  }

  // ----- every step keeps the invariant

  /** A step of the flusher that issues nothing. */
  lemma NothingIssued(ck: Checksum, s: Disk, e: Event)
    requires e.Flusher? && Flush.Step(s.f, Allowed(s, e.e)).issued == s.f.issued
    ensures Step(ck, s, e) == s.(f := Flush.Step(s.f, Allowed(s, e.e)))
  {
    assert s.f.issued[|s.f.issued|..] == [];
  }

  lemma TakeKeeps(ck: Checksum, s: Disk, e: Event)
    requires Inv(ck, s) && e.Flusher? && e.e.Take?
    ensures Inv(ck, Step(ck, s, e))
  {
    NothingIssued(ck, s, e);
    Flush.StepKeeps(s.f, Allowed(s, e.e));
    Flush.TiledLength(s.f.issued, |s.f.base|, s.f.next);
  }

  lemma FlushShape(ck: Checksum, s: Disk, e: Event, f: Flush.Flusher, full: bool, starts: nat -> bool)
    requires e.Flusher? && !s.f.staggered && !s.f.restart
    requires (e.e == Flush.FlushFullBlocks(starts) && full && f == s.f) || (e.e == Flush.CloseAndFlushAll(starts) && !full && f == s.f.(closed := true))
    requires var g := Flush.FlushLoop(f, full, starts); |f.issued| <= |g.issued| && g.live
    ensures var g := Flush.FlushLoop(f, full, starts);
      var r := StartAll(ck, s.c, s.pending, g.issued[|f.issued|..], Env(e.skip, e.extra));
      Step(ck, s, e) == Disk(g, r.0, r.1)
  {
    assert f.(restart := false) == f;
  }

  lemma FlushKeeps(ck: Checksum, s: Disk, e: Event)
    requires Inv(ck, s) && e.Flusher? && (e.e.FlushFullBlocks? || e.e.CloseAndFlushAll?)
    ensures Inv(ck, Step(ck, s, e))
  {
    var full, starts := e.e.FlushFullBlocks?, e.e.starts;
    var f := if full then s.f else s.f.(closed := true);
    assert Allowed(s, e.e) == e.e;
    Flush.StepKeeps(s.f, e.e);
    assert f.(restart := false) == f;
    if f.staggered || !f.live {
      NothingIssued(ck, s, e);
    } else {
      Flush.FlushLoopFrame(f, full, starts);
      LoopStores(ck, f, full, starts, s.c, s.pending, Env(e.skip, e.extra));
      if Flush.FlushLoop(f, full, starts).live { FlushShape(ck, s, e, f, full, starts); }
    }
  }

  lemma DoneShape(ck: Checksum, s: Disk, e: Event, ok: bool)
    requires e.Flusher? && e.e.Done? && e.e.k < |s.f.inFlight| && !s.f.restart
    requires ok == (e.e.ok && !IsPending(s.pending, s.f.inFlight[e.e.k]))
    ensures Step(ck, s, e) == s.(f := Flush.Retire(s.f, e.e.k, ok))
  {
    assert Flush.Step(s.f, Allowed(s, e.e)) == Flush.Retire(s.f, e.e.k, ok);
    NothingIssued(ck, s, e);
  }

  lemma RetireKnown(f: Flush.Flusher, ps: seq<Pending>, k: nat)
    requires Known(ps, f) && k < |f.inFlight| && !IsPending(ps, f.inFlight[k])
    ensures Known(ps, Flush.Retire(f, k, true))
  {
    var g := Flush.Retire(f, k, true);
    forall i: nat | i < |ps| ensures ps[i].w in g.inFlight {
      var j: nat :| j < |f.inFlight| && f.inFlight[j] == ps[i].w;
      assert g.inFlight[if j < k then j else j - 1] == f.inFlight[j];
    }
  }

  lemma DoneKeeps(ck: Checksum, s: Disk, e: Event)
    requires Inv(ck, s) && e.Flusher? && e.e.Done? && e.e.k < |s.f.inFlight|
    ensures Inv(ck, Step(ck, s, e))
  {
    var k := e.e.k;
    var ok := e.e.ok && !IsPending(s.pending, s.f.inFlight[k]);
    DoneShape(ck, s, e, ok);
    Flush.RetireKeeps(s.f, k, ok);
    if ok && s.f.live { RetireKnown(s.f, s.pending, k); }
  }

  lemma ReadDoneShape(ck: Checksum, s: Disk, e: Event, g: Info)
    requires e.ReadDone? && e.m < |s.pending|
    requires var p := s.pending[e.m];
      && p.w.offset <= CHUNKSIZE && p.Block() < |s.c.sums|
      && ComputeChecksums(ck, ZeroPad(p.readBack)) == [s.c.sums[p.Block()]]
      && WriteChunk(ck, s.c, AppendOp(p.w, Some(p.readBack)), Env(e.skip, e.extra)) == Written(g)
    ensures Step(ck, s, e) == s.(c := g, pending := Drop(s.pending, e.m))
  {
  }

  lemma Resumed(ck: Checksum, t: seq<Byte>, s: Disk, e: Event) returns (g: Info)
    requires e.ReadDone? && e.m < |s.pending| && s.c.Valid() && |t| <= CHUNKSIZE && PendingOk(ck, t, s.c, s.pending[e.m])
    ensures Applied(ck, t, s.c, s.pending[e.m], g)
    ensures Step(ck, s, e) == s.(c := g, pending := Drop(s.pending, e.m))
  {
    var p := s.pending[e.m];
    ReadBackMatches(ck, t, s.c, p);
    g := WritePartial(ck, s.c, p.w.offset, p.w.data, p.readBack, Env(e.skip, e.extra));
    ResumeShape(ck, s.c, p, Env(e.skip, e.extra));
    ReadDoneShape(ck, s, e, g);
    ResumeApplies(ck, t, s.c, p, Env(e.skip, e.extra));
  }

  lemma InvSame(ck: Checksum, s: Disk, t: Disk)
    requires Inv(ck, s) && s == t
    ensures Inv(ck, t)
  {
  }

  /** The block that was read always matches its checksum, and the write goes ahead. */
  lemma ReadDoneKeeps(ck: Checksum, s: Disk, e: Event)
    requires Inv(ck, s) && e.ReadDone? && s.f.live && e.m < |s.pending|
    ensures Inv(ck, Step(ck, s, e)) && Step(ck, s, e).f == s.f
  {
    var t := Target(s.f);
    assert PendingOk(ck, t, s.c, s.pending[e.m]);
    var g := Resumed(ck, t, s, e);
    StorePending(ck, t, s.c, s.pending, e.m, g);
    assert Known(Drop(s.pending, e.m), s.f);
    InvSame(ck, s.(c := g, pending := Drop(s.pending, e.m)), Step(ck, s, e));
  }

  lemma StopKeeps(ck: Checksum, s: Disk, e: Event)
    requires Inv(ck, s) && ((e.Flusher? && e.e.Stop?) || (e.ReadDone? && (!s.f.live || e.m >= |s.pending|)))
    ensures Inv(ck, Step(ck, s, e))
  {
    Flush.LoseKeeps(s.f);
  }

  lemma StepKeeps(ck: Checksum, s: Disk, e: Event)
    requires Inv(ck, s)
    ensures Inv(ck, Step(ck, s, e))
  {
    if e.ReadDone? {
      if s.f.live && e.m < |s.pending| { ReadDoneKeeps(ck, s, e); } else { StopKeeps(ck, s, e); }
    } else {
      match e.e
      case Take(_) => TakeKeeps(ck, s, e);
      case FlushFullBlocks(_) => FlushKeeps(ck, s, e);
      case CloseAndFlushAll(_) => FlushKeeps(ck, s, e);
      case Done(k, _, _) => if k < |s.f.inFlight| { DoneKeeps(ck, s, e); } else { NothingIssued(ck, s, e); }
      case Stop => StopKeeps(ck, s, e);
    }
  }

  lemma {:induction false} Reachable(ck: Checksum, c: Info, events: seq<Event>)
    requires Sound(ck, c)
    ensures Inv(ck, Run(ck, NewDisk(c), events))
    ensures Run(ck, NewDisk(c), events).f.base == c.Content()
  {
    if events == [] {
      InitStored(ck, c);
    } else {
      Reachable(ck, c, events[..|events| - 1]);
      var s := Run(ck, NewDisk(c), events[..|events| - 1]);
      StepKeeps(ck, s, events[|events| - 1]);
      StepFrame(ck, s, events[|events| - 1]);
    }
  }

  lemma StepFrame(ck: Checksum, s: Disk, e: Event)
    ensures Step(ck, s, e).f.base == s.f.base
  {
    if e.Flusher? { Flush.StepFrame(s.f, Allowed(s, e.e)); }
  }

  lemma InitStored(ck: Checksum, c: Info)
    requires Sound(ck, c)
    ensures Inv(ck, NewDisk(c))
  {
    var t := c.Content();
    assert Target(NewDisk(c).f) == t;
    forall b: nat | b * B < |t| ensures b < |c.sums| && c.sums[b] == ck(Block(t, b)) {}
  }

  // ----- what ends up on disk

  lemma NonePending(ps: seq<Pending>, f: Flush.Flusher)
    requires Known(ps, f)
    ensures f.inFlight == [] ==> ps == []
  {
    if ps != [] { assert ps[0].w in f.inFlight; }
  }

  /**
   Whenever nothing is in flight and no write failed, the chunk holds its first content and the data of all
   the writes issued so far, in order, under the right checksums. Once the appender is closed this is all the
   data it ever took.
   */
  lemma PlannedIsExact(ck: Checksum, c: Info, events: seq<Event>)
    requires Sound(ck, c)
    ensures var s := Run(ck, NewDisk(c), events);
      s.f.live && s.f.inFlight == [] ==>
        && Sound(ck, s.c)
        && s.c.Content() == c.Content() + Flush.DataOf(s.f.issued)
        && s.c.size == s.f.next
        && (s.f.closed ==> s.c.Content() == c.Content() + s.f.taken)
  {
    Reachable(ck, c, events);
    var s := Run(ck, NewDisk(c), events);
    if s.f.live && s.f.inFlight == [] {
      NonePending(s.pending, s.f);
      StoredAll(ck, Target(s.f), s.c);
      Flush.TiledLength(s.f.issued, |s.f.base|, s.f.next);
    }
  }
}
