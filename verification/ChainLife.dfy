/** A chain in which nothing goes wrong: it closes, and all replicas become stable with all the data. */
module ChainLife {
  import opened Common
  import opened RecordAppender
  import opened Chain
  import opened ChainInvariant
  import opened ChainTheorems
  import opened ChainSafety
  import opened ChainConverge
  import opened ChainRoundTrip

  /** The master can close: nothing in flight, and its slaves know how far it committed. */
  predicate CanClose(s: System) {
    |s.nodes| > 0 && CanIdleClose(s.nodes[0].app)
  }

  /** Servers from `i` on are neither stable nor lost, and have nothing to trim; all logs are those of `s`. */
  ghost predicate StableBelow(s: System, t: System, i: nat) {
    && |t.nodes| == |s.nodes| && i <= |s.nodes|
    && (forall k: nat | k < i :: t.nodes[k].app.phase.Stable?)
    && (forall k: nat | i <= k < |s.nodes| :: Undecided(t.nodes[k].app) && !t.nodes[k].app.trim)
    && (forall k: nat | k < |s.nodes| :: t.nodes[k].app.log == s.nodes[k].app.log)
  }

  ghost predicate Decided(s: System, t: System) {
    t.decision.Some? && forall k: nat | k < |s.nodes| :: |s.nodes[k].app.log| == t.decision.value.size
  }

  // ----- the master closes

  lemma CloseReached(s: System, e: Event)
    requires Reached(s) && (e.IdleClose? || e.Finish? || e.DecideRelinquished? || e.MakeStable?)
    ensures Reached(Step(s, e)) && |Step(s, e).nodes| == |s.nodes|
  {
    ReachedInv(s);
    assert Harmless(s, e);
    if |s.nodes| > 0 { GoesDownIff(s, e, 0); }
    StepFrame(s, e);
  }

  lemma IdleCloses(s: System) returns (t: System)
    requires Reached(s) && Idle(s) && CanClose(s)
    ensures Leads(s, [IdleClose], t) && Reached(t) && |t.nodes| == |s.nodes|
    ensures t == WithApp(s, 0, s.nodes[0].app.(phase := Closed, trim := true))
  {
    CloseReached(s, IdleClose);
    ReachedInv(s);
    assert NodeOk(ContextOf(s), 0, s.nodes[0]);
    ClosesApp(s.nodes[0].app);
    t := LeadsOne(s, IdleClose);
  }

  lemma ClosesApp(a: App)
    requires a.IsOpen() && a.IsMaster() && !a.HasStableOp() && !a.beginPending
    ensures TryToCloseFailed(a) == a.(phase := Closed, trim := true)
  {
  }

  /** Nobody has a size to go to. */
  lemma IdleHasNoTarget(s: System, i: nat)
    requires Inv(s) && Idle(s) && i < |s.nodes|
    ensures var a := s.nodes[i].app; !a.HasStableOp() && !a.beginPending && a.nextCommit == |a.log| && a.log == s.nodes[0].app.log
  {
    assert NodeOk(ContextOf(s), i, s.nodes[i]);
    IdleSame(s, i);
    IdleSame(s, 0);
  }

  /** The master has trimmed itself, which changes nothing, and gives up its lease. */
  lemma MasterRelinquishes(s: System, u: System) returns (t: System)
    requires Reached(u) && Inv(s) && Idle(s) && |s.nodes| > 0 && u == WithApp(s, 0, s.nodes[0].app.(phase := Closed, trim := true))
    ensures var size := |s.nodes[0].app.log|;
      && Leads(u, [Finish(0, size, true)], t) && Reached(t) && |t.nodes| == |s.nodes|
      && t.relinquished == Some(size) && t.decision == s.decision
      && StableBelow(s, t, 0)
  {
    var size := |s.nodes[0].app.log|;
    IdleHasNoTarget(s, 0);
    FinishOutcome(u, 0, size, true);
    CloseReached(u, Finish(0, size, true));
    FinishElsewhere(u, 0, size, true);
    t := LeadsOne(u, Finish(0, size, true));
    forall k: nat | k < |s.nodes| ensures Undecided(t.nodes[k].app) && !t.nodes[k].app.trim && t.nodes[k].app.log == s.nodes[k].app.log {
      IdleHasNoTarget(s, k);
    }
  }

  lemma FinishElsewhere(s: System, i: nat, written: nat, ioOk: bool)
    requires i < |s.nodes|
    ensures var t := Step(s, Finish(i, written, ioOk));
      |t.nodes| == |s.nodes| && t.decision == s.decision && forall k: nat | k < |s.nodes| && k != i :: t.nodes[k] == s.nodes[k]
  {
  }

  // ----- one replica after the other becomes stable

  /** What the meta server and the disk of replica `i` do. */
  function StableEvents(i: nat, size: nat): seq<Event> { [MakeStable(i)] + [Finish(i, size, true)] }

  lemma OneBecomesStable(s: System, t: System, i: nat) returns (u: System)
    requires Reached(t) && Decided(s, t) && i < |s.nodes| && StableBelow(s, t, i)
    ensures Leads(t, StableEvents(i, |s.nodes[i].app.log|), u) && Reached(u) && Decided(s, u) && StableBelow(s, u, i + 1)
  {
    var size := |s.nodes[i].app.log|;
    BecomesStableIff(t, i);
    CloseReached(t, MakeStable(i));
    var v := LeadsOne(t, MakeStable(i));
    RequestOutcome(t, i);
    CloseReached(v, Finish(i, size, true));
    FinishElsewhere(v, i, size, true);
    u := LeadsOne(v, Finish(i, size, true));
    LeadsOn(t, [MakeStable(i)], v, [Finish(i, size, true)], u);
    assert s.nodes[i].app.log[..size] == s.nodes[i].app.log;
  }

  function AllStableEvents(i: nat, n: nat, size: nat): seq<Event>
    decreases n - i
  {
    if i >= n then [] else StableEvents(i, size) + AllStableEvents(i + 1, n, size)
  }

  lemma {:induction false} AllBecomeStable(s: System, t: System, i: nat, size: nat) returns (u: System)
    requires Reached(t) && Decided(s, t) && StableBelow(s, t, i) && size == t.decision.value.size
    ensures Leads(t, AllStableEvents(i, |s.nodes|, size), u) && Reached(u) && StableBelow(s, u, |s.nodes|)
    decreases |s.nodes| - i
  {
    if i == |s.nodes| {
      LeadsNowhere(t);
      u := t;
    } else {
      var v := OneBecomesStable(s, t, i);
      u := AllBecomeStable(s, v, i + 1, size);
      LeadsOn(t, StableEvents(i, size), v, AllStableEvents(i + 1, |s.nodes|, size), u);
    }
  }

  // ----- the end of a chain

  /** Nobody is open any more once a size was decided. */
  lemma NoDecision(s: System)
    requires Inv(s) && Idle(s)
    ensures s.decision.None?
  {
  }

  /** The master closes, trims, gives up its lease; the meta server decides, and every replica becomes stable. */
  function ClosingEvents(n: nat, size: nat): seq<Event> {
    [IdleClose] + ([Finish(0, size, true)] + ([DecideRelinquished] + AllStableEvents(0, n, size)))
  }

  lemma Closes(s: System) returns (t: System)
    requires Reached(s) && Idle(s) && CanClose(s)
    ensures Leads(s, ClosingEvents(|s.nodes|, |s.nodes[0].app.log|), t) && Reached(t) && StableBelow(s, t, |s.nodes|)
  {
    var n, size := |s.nodes|, |s.nodes[0].app.log|;
    ReachedInv(s);
    NoDecision(s);
    var u := IdleCloses(s);
    var v := MasterRelinquishes(s, u);
    CloseReached(v, DecideRelinquished);
    var w := LeadsOne(v, DecideRelinquished);
    forall k: nat | k < n ensures |s.nodes[k].app.log| == size { IdleHasNoTarget(s, k); }
    t := AllBecomeStable(s, w, 0, size);
    LeadsOn(v, [DecideRelinquished], w, AllStableEvents(0, n, size), t);
    LeadsOn(u, [Finish(0, size, true)], v, [DecideRelinquished] + AllStableEvents(0, n, size), t);
    LeadsOn(s, [IdleClose], u, [Finish(0, size, true)] + ([DecideRelinquished] + AllStableEvents(0, n, size)), t);
  }

  /**
   Every chain that has come to rest can be brought to its end: after one more round in which the master tells how far
   it committed, it closes, and all replicas become stable with every byte that was in their logs.
   */
  lemma EveryReplicaBecomesStable(s: System) returns (t: System, events: seq<Event>)
    requires Reached(s) && Idle(s) && |s.nodes| > 0 && s.nodes[0].app.nextOffset == |s.nodes[0].app.log|
    ensures t == Run(s, events) && Reached(t) && |t.nodes| == |s.nodes|
    ensures forall i: nat | i < |t.nodes| :: t.nodes[i].app.phase.Stable? && t.nodes[i].app.log == s.nodes[i].app.log
  {
    var n, size := |s.nodes|, |s.nodes[0].app.log|;
    if CanClose(s) {
      t := Closes(s);
      events := ClosingEvents(n, size);
    } else {
      var u := NewsFirst(s);
      t := Closes(u);
      events := RoundTrip(n, AckEvent()) + ClosingEvents(n, size);
      LeadsOn(s, RoundTrip(n, AckEvent()), u, ClosingEvents(n, size), t);
    }
  }

  lemma NewsFirst(s: System) returns (u: System)
    requires Reached(s) && Idle(s) && |s.nodes| > 0 && s.nodes[0].app.nextOffset == |s.nodes[0].app.log| && !CanClose(s)
    ensures Leads(s, RoundTrip(|s.nodes|, AckEvent()), u) && Reached(u) && Idle(u) && CanClose(u) && |u.nodes| == |s.nodes|
    ensures forall i: nat | i < |u.nodes| :: u.nodes[i].app.log == s.nodes[i].app.log
  {
    ReachedInv(s);
    NodeFactsHere(s);
    u := NewsGoThrough(s);
    InvNoneDown(u);
    ReachedRun(s, RoundTrip(|s.nodes|, AckEvent()));
  }

  lemma NodeFactsHere(s: System)
    requires Inv(s)
    ensures s.nodes[0].app.numServers == |s.nodes|
  {
    assert NodeOk(ContextOf(s), 0, s.nodes[0]);
  }
}
