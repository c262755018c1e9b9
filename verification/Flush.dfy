/**
 How a record appender moves its write buffer to disk.

 The write buffer is cut into writes that the chunk manager accepts. Completion order is
 undefined, and a write that covers a checksum block only in part reads, modifies and writes
 that block. So at most one write may be in flight for a block, and while a write that
 ends inside a block is in flight (`staggered`) no other is issued.

 `base` is the content of the chunk when the appender opened it, `taken` all the data it accepted,
 `issued` all the writes it made: they are history.
 */
module Flush {
  import opened Common

  datatype Write = Write(offset: nat, data: seq<Byte>)
  {
    function End(): nat { offset + |data| }
    predicate EndsInside() { End() % B != 0 }
  }

  datatype Flusher = Flusher(
    live: bool,               // open, closed or replication failed
    closed: bool,             // accepts no more data
    next: nat,                // where the next write goes
    buffer: seq<Byte>,
    staggered: bool,
    restart: bool,            // flush again once the staggered write is over
    fullBlocks: bool,
    inFlight: seq<Write>,
    base: seq<Byte>, taken: seq<Byte>, issued: seq<Write>)

  function NewFlusher(base: seq<Byte>): Flusher {
    Flusher(true, false, |base|, [], false, false, false, [], base, [], [])
  }

  // ----- one write

  /** Whole blocks when there is more than one; up to the block boundary when the write starts inside a block. */
  function FlushLength(next: nat, n: nat): (len: nat)
    requires n > 0
    ensures 0 < len <= n
    ensures (next + len) % B == 0 || (len == n && next % B + len < B)
    ensures len < B ==> next % B + len <= B
    ensures len >= B ==> next % B == 0 && len % B == 0
  {
    var whole := if n <= B then n else n / B * B;
    if next % B > 0 && next % B + whole >= B then B - next % B else whole
  }

  /** The write would end inside a checksum block. */
  predicate Staggers(next: nat, n: nat)
    requires n > 0
  {
    var whole := if n <= B then n else n / B * B;
    if next % B > 0 then next % B + whole < B else whole < B
  }

  function TakeWrite(f: Flusher): (g: Flusher)
    requires f.buffer != []
    ensures |g.buffer| < |f.buffer|
  {
    var len := FlushLength(f.next, |f.buffer|);
    var w := Write(f.next, f.buffer[..len]);
    f.(next := f.next + len, buffer := f.buffer[len..], staggered := Staggers(f.next, |f.buffer|),
       inFlight := f.inFlight + [w], issued := f.issued + [w])
  }

  /** The chunk is lost, or the appender is stable or being deleted: no more writes. */
  function Lose(f: Flusher): Flusher {
    f.(live := false, buffer := [])
  }

  /** A write is over. Does not restart the flush. */
  function Retire(f: Flusher, k: nat, ok: bool): Flusher
    requires k < |f.inFlight|
  {
    var w := f.inFlight[k];
    var g := f.(inFlight := f.inFlight[..k] + f.inFlight[k + 1..],
                staggered := f.staggered && !w.EndsInside());
    if ok then g else Lose(g)
  }

  /** `starts` tells for every offset whether a write there can be started. */
  function FlushLoop(f: Flusher, full: bool, starts: nat -> bool): Flusher
    decreases |f.buffer|
  {
    if !f.live || |f.buffer| <= (if full then B else 0) then f
    else
      var g := TakeWrite(f);
      if starts(f.next) then FlushLoop(g, full, starts)
      else Retire(g, |g.inFlight| - 1, false)
  }

  function FlushSelf(f: Flusher, full: bool, starts: nat -> bool): Flusher {
    if f.staggered then f.(restart := f.buffer != [], fullBlocks := f.fullBlocks || full)
    else FlushLoop(f.(restart := false), full, starts)
  }

  function WriteDone(f: Flusher, k: nat, ok: bool, starts: nat -> bool): Flusher
    requires k < |f.inFlight|
  {
    var g := Retire(f, k, ok);
    if f.staggered && !g.staggered && g.restart then FlushSelf(g, g.fullBlocks, starts) else g
  }

  // ----- runs

  datatype Event =
    | Take(data: seq<Byte>)
    | FlushFullBlocks(starts: nat -> bool)
    | CloseAndFlushAll(starts: nat -> bool)
    | Done(k: nat, ok: bool, starts: nat -> bool)
    | Stop

  function Step(f: Flusher, e: Event): Flusher {
    match e
    case Take(data) =>
      if f.live && !f.closed then f.(buffer := f.buffer + data, taken := f.taken + data) else f
    case FlushFullBlocks(starts) => FlushSelf(f, true, starts)
    case CloseAndFlushAll(starts) => FlushSelf(f.(closed := true), false, starts)
    case Done(k, ok, starts) => if k < |f.inFlight| then WriteDone(f, k, ok, starts) else f
    case Stop => Lose(f)
  }

  function Run(f: Flusher, events: seq<Event>): Flusher {
    if events == [] then f else Step(Run(f, events[..|events| - 1]), events[|events| - 1])
  }

  // ----- the writes tile the chunk

  /** The writes follow each other from `start` to `end`, without a gap or an overlap. */
  ghost predicate Tiles(ws: seq<Write>, start: nat, end: nat) {
    if ws == [] then start == end
    else
      var last := ws[|ws| - 1];
      last.data != [] && last.End() == end && Tiles(ws[..|ws| - 1], start, last.offset)
  }

  ghost function DataOf(ws: seq<Write>): seq<Byte> {
    if ws == [] then [] else DataOf(ws[..|ws| - 1]) + ws[|ws| - 1].data
  }

  /** What the chunk manager accepts, in one go and without touching a second block in part. */
  predicate Legal(w: Write) {
    && w.data != []
    && (if w.offset % B == 0 && |w.data| >= B then |w.data| % B == 0 else w.offset % B + |w.data| <= B)
  }

  /** Writes in flight, oldest first: only the last one may end inside a block. */
  ghost predicate Staged(f: Flusher) {
    && (forall i: nat, j: nat | i < j < |f.inFlight| :: f.inFlight[i].End() <= f.inFlight[j].offset)
    && (forall i: nat | i < |f.inFlight| ::
          Legal(f.inFlight[i]) && f.inFlight[i].End() <= f.next
          && (f.inFlight[i].EndsInside() ==> f.staggered && i == |f.inFlight| - 1 && f.inFlight[i].End() == f.next))
    && (f.staggered ==> f.inFlight != [] && f.inFlight[|f.inFlight| - 1].EndsInside())
  }

  /** Only the first write may start inside a block, and nothing follows a write that ends inside one. */
  ghost predicate Started(f: Flusher) {
    && (forall w | w in f.issued :: w.offset % B == 0 || w.offset == |f.base|)
    && (f.issued == [] ==> f.next == |f.base|)
    && (f.issued != [] && f.next % B != 0 ==> f.buffer == [] && (f.closed || !f.live))
  }

  ghost predicate Inv(f: Flusher) {
    && Tiles(f.issued, |f.base|, f.next)
    && (forall w | w in f.issued :: Legal(w))
    && (forall w | w in f.inFlight :: w in f.issued)
    && Staged(f)
    && (if f.live then DataOf(f.issued) + f.buffer == f.taken else DataOf(f.issued) <= f.taken && f.buffer == [])
    && (f.closed || f.staggered ==> f.buffer == [])
    && (f.live && f.staggered ==> f.closed)
    && !f.restart
    && Started(f)
  }

  lemma StaggersIff(next: nat, n: nat)
    requires n > 0
    ensures Staggers(next, n) <==> (next + FlushLength(next, n)) % B != 0
    ensures Staggers(next, n) ==> FlushLength(next, n) == n < B
  {
  }

  lemma TakeWriteStaged(f: Flusher)
    requires Staged(f) && !f.staggered && f.buffer != []
    ensures Staged(TakeWrite(f))
  {
    StaggersIff(f.next, |f.buffer|);
    var g := TakeWrite(f);
    var n := |f.inFlight|;
    assert forall i: nat | i < n :: g.inFlight[i] == f.inFlight[i];
  }

  lemma TakeWriteTiles(f: Flusher)
    requires Tiles(f.issued, |f.base|, f.next) && f.buffer != []
    ensures var g := TakeWrite(f); Tiles(g.issued, |g.base|, g.next) && DataOf(g.issued) + g.buffer == DataOf(f.issued) + f.buffer
  {
    var g := TakeWrite(f);
    var len := FlushLength(f.next, |f.buffer|);
    assert g.issued[..|g.issued| - 1] == f.issued;
    assert f.buffer == f.buffer[..len] + f.buffer[len..];
  }

  /** The invariant inside the flush loop. */
  ghost predicate Flushing(f: Flusher, full: bool) {
    && Tiles(f.issued, |f.base|, f.next)
    && (forall w | w in f.issued :: Legal(w))
    && (forall w | w in f.inFlight :: w in f.issued)
    && Staged(f)
    && f.live && DataOf(f.issued) + f.buffer == f.taken
    && (f.staggered ==> f.buffer == [] && !full)
    && !f.restart
    && Started(f) && (full || f.closed)
  }

  lemma TakeWriteKeeps(f: Flusher, full: bool)
    requires Flushing(f, full) && !f.staggered && f.buffer != [] && (full ==> |f.buffer| > B)
    ensures Flushing(TakeWrite(f), full)
  {
    TakeWriteStaged(f);
    TakeWriteTiles(f);
    StaggersIff(f.next, |f.buffer|);
    var g := TakeWrite(f);
    var w := g.issued[|f.issued|];
    assert Legal(w);
    forall v | v in g.issued ensures Legal(v) { assert v in f.issued || v == w; }
    forall v | v in g.inFlight ensures v in g.issued { assert v in f.inFlight || v == w; }
  }

  lemma RetireStaged(f: Flusher, k: nat, ok: bool)
    requires Staged(f) && k < |f.inFlight|
    ensures Staged(Retire(f, k, ok))
  {
    var g := Retire(f, k, ok);
    forall i: nat | i < |g.inFlight| ensures g.inFlight[i] == f.inFlight[if i < k then i else i + 1] {}
    if f.staggered && k == |f.inFlight| - 1 { assert f.inFlight[k].EndsInside() && !g.staggered; }
  }

  lemma {:induction false} FlushLoopKeeps(f: Flusher, full: bool, starts: nat -> bool)
    requires Flushing(f, full) && (f.closed ==> !full || f.buffer == [])
    ensures Inv(FlushLoop(f, full, starts))
    decreases |f.buffer|
  {
    if |f.buffer| > (if full then B else 0) {
      TakeWriteKeeps(f, full);
      var g := TakeWrite(f);
      if starts(f.next) {
        FlushLoopKeeps(g, full, starts);
      } else {
        RetireStaged(g, |g.inFlight| - 1, false);
      }
    }
  }

  lemma FlushFullKeeps(f: Flusher, starts: nat -> bool)
    requires Inv(f)
    ensures Inv(FlushSelf(f, true, starts))
  {
    assert f.(restart := false) == f;
    if f.live && !f.staggered { FlushLoopKeeps(f, true, starts); }
  }

  lemma FlushAllKeeps(f: Flusher, starts: nat -> bool)
    requires Inv(f)
    ensures Inv(FlushSelf(f.(closed := true), false, starts))
  {
    var g := f.(closed := true);
    assert g.(restart := false) == g;
    if f.live && !f.staggered { FlushLoopKeeps(g, false, starts); }
  }

  lemma TakeKeeps(f: Flusher, data: seq<Byte>)
    requires Inv(f) && f.live && !f.closed
    ensures Inv(f.(buffer := f.buffer + data, taken := f.taken + data))
  {
    assert DataOf(f.issued) + (f.buffer + data) == DataOf(f.issued) + f.buffer + data;
  }

  lemma RetireKeeps(f: Flusher, k: nat, ok: bool)
    requires Inv(f) && k < |f.inFlight|
    ensures Inv(Retire(f, k, ok))
  {
    RetireStaged(f, k, ok);
    var g := Retire(f, k, ok);
    forall w | w in g.inFlight ensures w in g.issued { assert w in f.inFlight; }
  }

  lemma LoseKeeps(f: Flusher)
    requires Inv(f)
    ensures Inv(Lose(f))
  {
    assert DataOf(f.issued) <= f.taken;
  }

  lemma StepKeeps(f: Flusher, e: Event)
    requires Inv(f)
    ensures Inv(Step(f, e))
  {
    match e
    case Take(data) => if f.live && !f.closed { TakeKeeps(f, data); }
    case FlushFullBlocks(starts) => FlushFullKeeps(f, starts);
    case CloseAndFlushAll(starts) => FlushAllKeeps(f, starts);
    case Done(k, ok, starts) => if k < |f.inFlight| { RetireKeeps(f, k, ok); }
    case Stop => LoseKeeps(f);
  }

  lemma {:induction false} FlushLoopFrame(f: Flusher, full: bool, starts: nat -> bool)
    ensures FlushLoop(f, full, starts).base == f.base
    ensures FlushLoop(f, full, starts).taken == f.taken
    decreases |f.buffer|
  {
    if f.live && |f.buffer| > (if full then B else 0) && starts(f.next) { FlushLoopFrame(TakeWrite(f), full, starts); }
  }

  lemma StepFrame(f: Flusher, e: Event)
    ensures Step(f, e).base == f.base
  {
    match e
    case FlushFullBlocks(starts) => FlushLoopFrame(f.(restart := false), true, starts);
    case CloseAndFlushAll(starts) => FlushLoopFrame(f.(closed := true, restart := false), false, starts);
    case Done(k, ok, starts) =>
      if k < |f.inFlight| { FlushLoopFrame(Retire(f, k, ok).(restart := false), f.fullBlocks, starts); }
    case _ =>
  }

  /** The invariant holds in every run, whatever the order in which writes complete or fail. */
  lemma {:induction false} RunKeeps(base: seq<Byte>, events: seq<Event>)
    ensures Inv(Run(NewFlusher(base), events))
    ensures Run(NewFlusher(base), events).base == base
  {
    if events != [] {
      RunKeeps(base, events[..|events| - 1]);
      StepKeeps(Run(NewFlusher(base), events[..|events| - 1]), events[|events| - 1]);
      StepFrame(Run(NewFlusher(base), events[..|events| - 1]), events[|events| - 1]);
    }
  }

  // ----- what the chunk manager gets to see

  /** In every run the writes tile the chunk, carry exactly the data taken so far, and each one is acceptable. */
  lemma WritesTile(base: seq<Byte>, events: seq<Event>)
    ensures var f := Run(NewFlusher(base), events);
      && Tiles(f.issued, |base|, f.next)
      && (forall w | w in f.issued :: Legal(w))
      && DataOf(f.issued) <= f.taken
      && (f.live ==> DataOf(f.issued) + f.buffer == f.taken && f.next + |f.buffer| == |base| + |f.taken|)
  {
    RunKeeps(base, events);
    var f := Run(NewFlusher(base), events);
    TiledLength(f.issued, |base|, f.next);
  }

  lemma {:induction false} TiledLength(ws: seq<Write>, start: nat, end: nat)
    requires Tiles(ws, start, end)
    ensures start + |DataOf(ws)| == end
  {
    if ws != [] { TiledLength(ws[..|ws| - 1], start, ws[|ws| - 1].offset); }
  }

  function FirstBlock(w: Write): nat { w.offset / B }

  function LastBlock(w: Write): nat
    requires w.data != []
  {
    (w.End() - 1) / B
  }

  /** No two writes in flight touch the same checksum block, and at most one ends inside a block. */
  lemma InFlightDisjoint(base: seq<Byte>, events: seq<Event>, i: nat, j: nat)
    requires i < j < |Run(NewFlusher(base), events).inFlight|
    ensures var ws := Run(NewFlusher(base), events).inFlight;
      && ws[i].data != [] && ws[j].data != []
      && FirstBlock(ws[i]) <= LastBlock(ws[i]) < FirstBlock(ws[j]) <= LastBlock(ws[j])
      && !ws[i].EndsInside()
  {
    RunKeeps(base, events);
    var f := Run(NewFlusher(base), events);
    assert f.inFlight[i].End() <= f.inFlight[j].offset;
    BlocksApart(f.inFlight[i], f.inFlight[j]);
  }

  lemma BlocksApart(v: Write, w: Write)
    requires Legal(v) && Legal(w) && v.End() <= w.offset && !v.EndsInside()
    ensures FirstBlock(v) <= LastBlock(v) < FirstBlock(w) <= LastBlock(w)
  {
  }

  /**
   A closed appender has handed all its data to the chunk manager, unless a write failed. So the flush
   that waits for a staggered write is never needed.
   */
  lemma ClosedIsDrained(base: seq<Byte>, events: seq<Event>)
    ensures var f := Run(NewFlusher(base), events);
      && !f.restart
      && (f.live && f.closed ==> f.buffer == [] && DataOf(f.issued) == f.taken && f.next == |base| + |f.taken|)
      && (f.live && f.staggered ==> f.closed)
  {
    RunKeeps(base, events);
    WritesTile(base, events);
  }

  /** What the completion handler takes for granted: a short write is the staggered one. */
  predicate ShortOnlyIfStaggered(f: Flusher, k: nat)
    requires k < |f.inFlight|
  {
    f.staggered || |f.inFlight[k].data| >= B
  }

  /** It holds except for the first write of an appender that started inside a block. */
  lemma ShortOnlyIfStaggeredIff(base: seq<Byte>, events: seq<Event>, k: nat)
    requires k < |Run(NewFlusher(base), events).inFlight|
    ensures var f := Run(NewFlusher(base), events);
      ShortOnlyIfStaggered(f, k) <==> (f.staggered || |base| % B == 0 || f.inFlight[k].offset != |base|)
  {
    RunKeeps(base, events);
    var f := Run(NewFlusher(base), events);
    var w := f.inFlight[k];
    assert w in f.inFlight;
    assert Legal(w);
  }

  /** And every such appender gets there, once it flushed more than a block. */
  lemma UnalignedStartBreaksIt(base: seq<Byte>, data: seq<Byte>, starts: nat -> bool)
    requires |base| % B != 0 && |data| > B && (forall o: nat :: starts(o))
    ensures var f := Run(NewFlusher(base), [Take(data), FlushFullBlocks(starts)]);
      |f.inFlight| > 0 && !ShortOnlyIfStaggered(f, 0)
  {
    var f0 := NewFlusher(base);
    var events := [Take(data), FlushFullBlocks(starts)];
    var f1 := Step(f0, events[0]);
    assert events[..1] == [events[0]] && events[..1][..0] == [];
    assert Run(f0, events[..1][..0]) == f0;
    assert Run(f0, events[..1]) == f1;
    var f := Run(f0, events);
    assert f == FlushLoop(f1, true, starts);
    assert f1.buffer == data;
    FlushLoopExtends(TakeWrite(f1), true, starts);
    FlushAllStarted(f1, true, starts);
    RunKeeps(base, events);
  }

  lemma {:induction false} FlushLoopExtends(f: Flusher, full: bool, starts: nat -> bool)
    requires forall o: nat :: starts(o)
    ensures f.inFlight <= FlushLoop(f, full, starts).inFlight
    decreases |f.buffer|
  {
    if f.live && |f.buffer| > (if full then B else 0) { FlushLoopExtends(TakeWrite(f), full, starts); }
  }

  lemma {:induction false} FlushAllStarted(f: Flusher, full: bool, starts: nat -> bool)
    requires forall o: nat :: starts(o)
    requires full
    ensures f.live && |f.buffer| > 0 && !f.staggered ==> !FlushLoop(f, full, starts).staggered
    decreases |f.buffer|
  {
    if f.live && |f.buffer| > B {
      StaggersIff(f.next, |f.buffer|);
      FlushAllStarted(TakeWrite(f), full, starts);
    }
  }
}
