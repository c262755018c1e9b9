/** When a flush fails, how many writes it makes, and that without a failure all data gets to be written. */
module FlushRuns {
  import opened Common
  import opened Flush

  // ----- one flush

  /** A flush goes wrong exactly if one of the writes it made cannot be started. */
  lemma {:induction false} LoopLiveIff(f: Flusher, full: bool, starts: nat -> bool)
    requires f.live
    ensures var g := FlushLoop(f, full, starts);
      && f.issued <= g.issued
      && (g.live <==> forall i: nat | |f.issued| <= i < |g.issued| :: starts(g.issued[i].offset))
    decreases |f.buffer|
  {
    if |f.buffer| > (if full then B else 0) {
      var h, g := TakeWrite(f), FlushLoop(f, full, starts);
      if starts(f.next) {
        LoopLiveIff(h, full, starts);
        assert g.issued[|f.issued|] == h.issued[|f.issued|];
        forall i: nat | |f.issued| <= i < |g.issued| && (g.live || i < |h.issued|) ensures starts(g.issued[i].offset) {
          if i < |h.issued| { assert g.issued[i] == h.issued[i]; }
        }
      } else {
        assert g.issued[|f.issued|].offset == f.next;
      }
    }
  }

  /** What a flush leaves in the buffer. */
  lemma {:induction false} LoopDrains(f: Flusher, full: bool, starts: nat -> bool)
    ensures var g := FlushLoop(f, full, starts); g.live ==> |g.buffer| <= if full then B else 0
    ensures FlushLoop(f, full, starts).closed == f.closed
    decreases |f.buffer|
  {
    if f.live && |f.buffer| > (if full then B else 0) && starts(f.next) { LoopDrains(TakeWrite(f), full, starts); }
  }

  /** One write up to the block boundary, one of whole blocks, one for the rest: a flush never makes more than three. */
  lemma {:induction false} AtMostThreeWrites(f: Flusher, full: bool, starts: nat -> bool)
    ensures var n := |FlushLoop(f, full, starts).issued| - |f.issued|;
      n <= 3 && (f.next % B == 0 ==> n <= 2) && (f.next % B == 0 && |f.buffer| <= B ==> n <= 1)
    decreases |f.buffer|
  {
    if f.live && |f.buffer| > (if full then B else 0) {
      var g := TakeWrite(f);
      LengthOfWrite(f.next, |f.buffer|);
      if starts(f.next) { AtMostThreeWrites(g, full, starts); }
      if g.buffer == [] { assert FlushLoop(g, full, starts) == g; }
    }
  }

  lemma LengthOfWrite(next: nat, n: nat)
    requires n > 0
    ensures var len := FlushLength(next, n);
      && (next % B == 0 && n <= B ==> len == n)
      && (next % B == 0 && n > B ==> (next + len) % B == 0 && n - len < B)
      && (next % B != 0 ==> len == n || (next + len) % B == 0)
  {
  }

  // ----- what can go wrong

  /** An event at which nothing fails. */
  ghost predicate Healthy(f: Flusher, e: Event) {
    match e
    case Take(_) => true
    case FlushFullBlocks(starts) => forall o: nat :: starts(o)
    case CloseAndFlushAll(starts) => forall o: nat :: starts(o)
    case Done(k, ok, starts) => (k < |f.inFlight| ==> ok) && forall o: nat :: starts(o)
    case Stop => false
  }

  lemma SelfStaysLive(f: Flusher, full: bool, starts: nat -> bool)
    requires f.live && forall o: nat :: starts(o)
    ensures FlushSelf(f, full, starts).live && FlushSelf(f, full, starts).taken == f.taken && FlushSelf(f, full, starts).closed == f.closed
  {
    var g := f.(restart := false);
    LoopLiveIff(g, full, starts);
    LoopDrains(g, full, starts);
    FlushLoopFrame(g, full, starts);
  }

  /** As long as nothing fails the appender stays live, takes what it is offered until it is closed, and no more. */
  lemma StepIsHealthy(f: Flusher, e: Event)
    requires f.live && Healthy(f, e)
    ensures var g := Step(f, e);
      && g.live
      && g.taken == (if e.Take? && !f.closed then f.taken + e.data else f.taken)
      && (g.closed <==> f.closed || e.CloseAndFlushAll?)
  {
    match e
    case Take(_) =>
    case FlushFullBlocks(starts) => SelfStaysLive(f, true, starts);
    case CloseAndFlushAll(starts) => SelfStaysLive(f.(closed := true), false, starts);
    case Done(k, ok, starts) => if k < |f.inFlight| { SelfStaysLive(Retire(f, k, ok), f.fullBlocks, starts); }
  }

  /** And any failure of a write, or a stop, ends it for good. */
  lemma FailureEnds(f: Flusher, e: Event)
    requires !f.live || e.Stop? || (e.Done? && e.k < |f.inFlight| && !e.ok)
    ensures !Step(f, e).live
  {
  }

  // ----- runs in which nothing fails

  ghost predicate HealthyRun(base: seq<Byte>, events: seq<Event>)
    decreases |events|
  {
    events == [] ||
    (HealthyRun(base, events[..|events| - 1]) && Healthy(Run(NewFlusher(base), events[..|events| - 1]), events[|events| - 1]))
  }

  predicate HasClose(events: seq<Event>) {
    exists i: nat :: i < |events| && events[i].CloseAndFlushAll?
  }

  /** All data offered before the close. */
  function Offered(events: seq<Event>): seq<Byte> {
    if events == [] then []
    else
      var before, e := events[..|events| - 1], events[|events| - 1];
      if e.Take? && !HasClose(before) then Offered(before) + e.data else Offered(before)
  }

  lemma HasCloseLast(events: seq<Event>)
    requires events != []
    ensures HasClose(events) <==> HasClose(events[..|events| - 1]) || events[|events| - 1].CloseAndFlushAll?
  {
    var before := events[..|events| - 1];
    if i: nat :| i < |before| && before[i].CloseAndFlushAll? { assert events[i].CloseAndFlushAll?; }
    if i: nat :| i < |events| && events[i].CloseAndFlushAll? { assert i < |before| ==> before[i].CloseAndFlushAll?; }
  }

  lemma {:induction false} HealthyRunTakes(base: seq<Byte>, events: seq<Event>)
    requires HealthyRun(base, events)
    ensures var f := Run(NewFlusher(base), events);
      f.live && f.taken == Offered(events) && (f.closed <==> HasClose(events))
    decreases |events|
  {
    if events != [] {
      HealthyRunTakes(base, events[..|events| - 1]);
      HasCloseLast(events);
      StepIsHealthy(Run(NewFlusher(base), events[..|events| - 1]), events[|events| - 1]);
    }
  }

  /**
   If nothing fails, all data that was offered before the close has been handed to the chunk manager once the
   appender is closed, and before that all but what was offered after the last flush and at most one block.
   */
  lemma AllOfferedIsWritten(base: seq<Byte>, events: seq<Event>)
    requires HealthyRun(base, events)
    ensures var f := Run(NewFlusher(base), events);
      && (HasClose(events) ==> DataOf(f.issued) == Offered(events))
      && (events != [] && events[|events| - 1].FlushFullBlocks? ==>
            DataOf(f.issued) <= Offered(events) && |Offered(events)| - |DataOf(f.issued)| <= B)
  {
    HealthyRunTakes(base, events);
    ClosedIsDrained(base, events);
    RunKeeps(base, events);
    if events != [] && events[|events| - 1].FlushFullBlocks? {
      var before, e := events[..|events| - 1], events[|events| - 1];
      var f := Run(NewFlusher(base), before);
      RunKeeps(base, before);
      HealthyRunTakes(base, before);
      FlushLeaves(f, e.starts);
    }
  }

  lemma FlushLeaves(f: Flusher, starts: nat -> bool)
    requires f.live && Flush.Inv(f) && forall o: nat :: starts(o)
    ensures |Step(f, FlushFullBlocks(starts)).buffer| <= B
  {
    SelfStaysLive(f, true, starts);
    LoopDrains(f.(restart := false), true, starts);
  }
}
