/** When a replica reports its size, becomes stable or is lost, in every state of every run. */
module ChainConverge {
  import opened Common
  import opened RecordAppender
  import opened Chain
  import opened ChainInvariant
  import opened ChainTheorems
  import opened ChainSafety

  // ----- the last step of a closed replica

  /** The size that a closed replica works on first: a trim goes before what the meta server asked for. */
  function FirstSize(a: App): nat
    requires a.HasStableOp()
  {
    if a.trim then a.nextCommit else a.target.value
  }

  /** All it takes to become stable is there: a size to go to, on disk, and no trim to another one before it. */
  predicate CanBecomeStable(a: App, written: nat, ioOk: bool) {
    ioOk && a.target.Some? && a.target.value <= written && (a.trim ==> a.nextCommit == a.target.value)
  }

  /** The replica has to give up. */
  predicate MustBeLost(a: App, written: nat, ioOk: bool)
    requires a.HasStableOp()
  {
    !ioOk || FirstSize(a) > written || (a.trim && a.target.Some? && a.target.value != a.nextCommit)
  }

  /** The trim is done, and there is nothing else to do. */
  predicate TrimOnly(a: App, written: nat, ioOk: bool) {
    ioOk && a.trim && a.target.None? && a.nextCommit <= written
  }

  /**
   What becomes of a closed replica once its writes are over: stable with the size the meta server decided on, lost,
   or cut to what it committed. Only the master, and only in the last case, gives up its lease.
   */
  lemma FinishOutcome(s: System, i: nat, written: nat, ioOk: bool)
    requires Reached(s) && i < |s.nodes|
    requires var a := s.nodes[i].app; a.phase.Closed? && a.HasStableOp() && written <= |a.log|
    ensures var a, t := s.nodes[i].app, Step(s, Finish(i, written, ioOk));
      && i < |t.nodes|
      && var b := t.nodes[i].app;
      && (b.phase.Stable? <==> CanBecomeStable(a, written, ioOk))
      && (b.phase.ChunkLost? <==> MustBeLost(a, written, ioOk))
      && (b.phase.Closed? <==> TrimOnly(a, written, ioOk))
      && (b.phase.Stable? ==> s.decision.Some? && s.decision.value.size <= written && b.makeStableSucceeded && b.log == a.log[..s.decision.value.size])
      && (b.phase.Closed? ==> b.log == a.log[..a.nextCommit] && b.chunkSize == a.nextCommit && !b.HasStableOp())
      && t.relinquished == (if i == 0 && b.phase.Closed? && !a.beginPending then Some(a.nextCommit) else s.relinquished)
  {
    if s.nodes[i].app.target.Some? { TargetDecided(s, i); }
    FinishApp(s.nodes[i].app, written, ioOk);
  }

  lemma FinishApp(a: App, written: nat, ioOk: bool)
    requires a.phase.Closed? && a.HasStableOp() && written <= |a.log|
    ensures var (b, gives) := FinishStable(a, written, ioOk);
      && (b.phase.Stable? <==> CanBecomeStable(a, written, ioOk))
      && (b.phase.ChunkLost? <==> MustBeLost(a, written, ioOk))
      && (b.phase.Closed? <==> TrimOnly(a, written, ioOk))
      && (b.phase.Stable? ==> b.makeStableSucceeded && b.log == a.log[..a.target.value])
      && (b.phase.Closed? ==> a.nextCommit <= written && b.log == a.log[..a.nextCommit] && b.chunkSize == a.nextCommit && !b.HasStableOp())
      && gives == if b.phase.Closed? && !a.beginPending then Some(a.nextCommit) else None
  {
  }

  lemma TargetDecided(s: System, i: nat)
    requires Reached(s) && i < |s.nodes| && s.nodes[i].app.target.Some?
    ensures s.decision.Some? && s.nodes[i].app.target.value == s.decision.value.size
  {
    ReachedInv(s);
    assert NodeOk(ContextOf(s), i, s.nodes[i]);
  }

  /** Steps that make nobody commit lead to states of the same kind. */
  lemma StaysReached(s: System, e: Event)
    requires Reached(s) && (e.BeginStable? || e.MakeStable? || e.Finish? || e.DecideRelinquished? || e.DecideShortest?)
    ensures Reached(Step(s, e)) && |Step(s, e).nodes| == |s.nodes| && Step(s, e).version == s.version
  {
    ReachedInv(s);
    assert Harmless(s, e);
    GoesDownIff(s, e, 0);
    StepFrame(s, e);
  }

  // ----- from the decision to the stable replica

  /** The replica is not stable, lost or deleted. */
  predicate Undecided(a: App) {
    a.phase.Open? || a.phase.ReplicationFailed? || a.phase.Closed?
  }

  lemma RequestOutcome(s: System, i: nat)
    requires Reached(s) && i < |s.nodes| && s.decision.Some? && Undecided(s.nodes[i].app)
    ensures var a, t := s.nodes[i].app, Step(s, MakeStable(i));
      t == WithApp(s, i, a.(phase := Closed, target := Some(s.decision.value.size)))
  {
    if s.nodes[i].app.target.Some? { TargetDecided(s, i); }
    RequestApp(s.nodes[i].app, s.decision.value.size);
  }

  lemma RequestApp(a: App, size: nat)
    requires Undecided(a) && (a.target.Some? ==> a.target.value == size)
    ensures RequestStable(a, size) == a.(phase := Closed, target := Some(size))
  {
  }

  /**
   Told to become stable, a replica whose disk works does so if and only if it has as much as was decided, and was
   not about to trim itself to another size. Otherwise it is lost.
   */
  lemma BecomesStableIff(s: System, i: nat)
    requires Reached(s) && i < |s.nodes| && s.decision.Some? && Undecided(s.nodes[i].app)
    ensures var a, size := s.nodes[i].app, s.decision.value.size;
      var t := Step(Step(s, MakeStable(i)), Finish(i, |a.log|, true));
      && i < |t.nodes|
      && var b := t.nodes[i].app;
      && (b.phase.Stable? <==> size <= |a.log| && (a.trim ==> a.nextCommit == size))
      && (b.phase.Stable? || b.phase.ChunkLost?)
      && (b.phase.Stable? ==> b.log == a.log[..size])
  {
    RequestOutcome(s, i);
    StaysReached(s, MakeStable(i));
    FinishOutcome(Step(s, MakeStable(i)), i, |s.nodes[i].app.log|, true);
  }

  /** Every replica that holds what the master gave up its lease with becomes stable, unless a trim goes before. */
  lemma RelinquishedConverges(s: System, j: nat)
    requires Reached(s) && s.relinquished.Some? && s.decision.None? && j < |s.nodes| && Undecided(s.nodes[j].app)
    ensures var a, size := s.nodes[j].app, s.nodes[0].app.nextCommit;
      var t := Step(Step(Step(s, DecideRelinquished), MakeStable(j)), Finish(j, |a.log|, true));
      && size <= |a.log| && j < |t.nodes|
      && (t.nodes[j].app.phase.Stable? <==> (a.trim ==> a.nextCommit == size))
      && (t.nodes[j].app.phase.Stable? ==> t.nodes[j].app.log == a.log[..size])
  {
    RelinquishedHeld(s, j);
    StaysReached(s, DecideRelinquished);
    BecomesStableIff(Step(s, DecideRelinquished), j);
  }

  // ----- replicas that reported their size

  /** A replica that told its size has nothing left to trim. */
  predicate Reported(a: App) {
    !a.AcceptsClose() && !a.trim && a.chunkSize >= 0
  }

  lemma ReportedAppend(a: App, op: Op, internal: bool, env: BeginEnv)
    requires Reported(a)
    ensures Reported(AppendBegin(a, op, internal, env).0.app)
  {
  }

  lemma ReportedDone(a: App, op: Op, ok: bool)
    requires Reported(a)
    ensures Reported(Commit(a, op, ok).0)
  {
  }

  lemma ReportedInvalidate(a: App, w: int, flag: bool)
    requires Reported(a)
    ensures Reported(InvalidateWriteId(a, w, flag).0)
  {
  }

  lemma ReportedTable(a: App, w: int, mc: int, n: nat, flag: bool)
    requires Reported(a)
    ensures Reported(ChangeReservation(a, w, n, flag, true).0)
    ensures Reported(GetOpStatus(a, w).0)
    ensures Reported(CloseWriteId(a, w, mc).0)
  {
  }

  lemma ReportedStable(a: App, version: int, ioInFlight: bool, size: nat, written: nat, ioOk: bool)
    requires Reported(a) && (a.phase.Closed? ==> a.nextCommit == |a.log|)
    ensures Reported(BeginMakeStable(a, version, ioInFlight).0)
    ensures Reported(RequestStable(a, size))
    ensures written <= |a.log| ==> Reported(FinishStable(a, written, ioOk).0)
  {
  }

  lemma ReportedMaster(s: System, op: Op, internal: bool, env: BeginEnv, j: nat)
    requires j < |s.nodes| && Reported(s.nodes[j].app)
    ensures var t := StepMaster(s, op, internal, env); j < |t.nodes| && Reported(t.nodes[j].app)
  {
    if j == 0 { ReportedAppend(s.nodes[0].app, op, internal, env); }
  }

  lemma ReportedSlave(s: System, i: nat, op: Op, checksumOk: bool, peerUp: bool, j: nat)
    requires 0 < i < |s.nodes| && j < |s.nodes| && Reported(s.nodes[j].app)
    ensures var t := StepAppend(s, i, op, checksumOk, peerUp); j < |t.nodes| && Reported(t.nodes[j].app)
  {
    if j == i { ReportedAppend(s.nodes[i].app, op, false, BeginEnv(i, i + 1, true, checksumOk, peerUp, None)); }
  }

  lemma ReportedDeliver(s: System, i: nat, checksumOk: bool, peerUp: bool, j: nat)
    requires j < |s.nodes| && Reported(s.nodes[j].app)
    ensures var t := StepDeliver(s, i, checksumOk, peerUp); j < |t.nodes| && Reported(t.nodes[j].app)
  {
    if 0 < i < |s.nodes| && s.nodes[i].inbox != [] {
      var n := s.nodes[i];
      match n.inbox[0]
      case Append(op) =>
        var t := s.(nodes := s.nodes[i := n.(inbox := n.inbox[1..], received := n.received + 1)]);
        assert StepDeliver(s, i, checksumOk, peerUp) == StepAppend(t, i, op, checksumOk, peerUp);
        ReportedSlave(t, i, op, checksumOk, peerUp, j);
      case Close(w, mc) =>
        var t := s.(nodes := s.nodes[i := n.(inbox := n.inbox[1..])]);
        assert StepDeliver(s, i, checksumOk, peerUp) == StepClose(t, i, w, mc);
        ReportedClose(t, i, w, mc, j);
    }
  }

  lemma ReportedClose(s: System, i: nat, w: int, mc: int, j: nat)
    requires 0 < i < |s.nodes| && j < |s.nodes| && Reported(s.nodes[j].app)
    ensures var t := StepClose(s, i, w, mc); j < |t.nodes| && Reported(t.nodes[j].app)
  {
    if j == i { ReportedTable(s.nodes[i].app, w, mc, 0, true); }
  }

  lemma ReportedWire(s: System, i: nat, keep: nat, j: nat)
    requires j < |s.nodes| && Reported(s.nodes[j].app)
    ensures j < |StepReply(s, i).nodes| && Reported(StepReply(s, i).nodes[j].app)
    ensures j < |StepLinkDown(s, i, keep).nodes| && Reported(StepLinkDown(s, i, keep).nodes[j].app)
  {
    if i == j && i + 1 < |s.nodes| {
      var a := s.nodes[i].app;
      if a.inFlight != [] { ReportedDone(a.(inFlight := []), a.inFlight[0], false); }
      if s.nodes[i + 1].outbox != [] {
        var r := s.nodes[i + 1].outbox[0];
        var k := Find(a.inFlight, r.id);
        if k < |a.inFlight| { ReportedDone(a.(inFlight := Without(a.inFlight, a.inFlight[k].id)), a.inFlight[k], r.ok); }
      }
    }
  }

  lemma ReportedTableStep(s: System, e: Event, j: nat)
    requires j < |s.nodes| && Reported(s.nodes[j].app)
    requires e.Allocate? || e.Invalidate? || e.Reserve? || e.Inquire? || e.ClientClose?
    ensures j < |Step(s, e).nodes| && Reported(Step(s, e).nodes[j].app)
  {
    var a := s.nodes[j].app;
    match e
    case Allocate(_, _, _) =>
    case Invalidate(_, w, declare) => ReportedInvalidate(a, w, declare);
    case Reserve(w, n, release) => ReportedTable(a, w, 0, n, release);
    case Inquire(_, w) => ReportedTable(a, w, 0, 0, true);
    case ClientClose(w) => ReportedTable(a, w, -1, 0, true);
  }

  lemma ReportedStableStep(s: System, e: Event, j: nat)
    requires Inv(s) && j < |s.nodes| && Reported(s.nodes[j].app) && (e.BeginStable? || e.MakeStable? || e.Finish?)
    ensures j < |Step(s, e).nodes| && Reported(Step(s, e).nodes[j].app)
  {
    assert NodeOk(ContextOf(s), j, s.nodes[j]);
    ReportedStableApp(s, e, j);
  }

  lemma ReportedStableApp(s: System, e: Event, j: nat)
    requires j < |s.nodes| && Reported(s.nodes[j].app) && (e.BeginStable? || e.MakeStable? || e.Finish?)
    requires var a := s.nodes[j].app; a.phase.Closed? ==> a.nextCommit == |a.log|
    ensures j < |Step(s, e).nodes| && Reported(Step(s, e).nodes[j].app)
  {
    var a := s.nodes[j].app;
    match e
    case BeginStable(_, version, io) => ReportedStable(a, version, io, 0, 0, true);
    case MakeStable(_) => if s.decision.Some? { ReportedStable(a, 0, true, s.decision.value.size, 0, true); }
    case Finish(_, written, ioOk) => ReportedStable(a, 0, true, 0, written, ioOk);
  }

  lemma ReportedLocal(s: System, e: Event, j: nat)
    requires j < |s.nodes| && Reported(s.nodes[j].app)
    requires e.Fail? || e.IdleClose? || e.Lose? || e.Delete? || e.DecideRelinquished? || e.DecideShortest?
    ensures j < |Step(s, e).nodes| && Reported(Step(s, e).nodes[j].app)
  {
    ReportedSet(s.nodes[j].app);
  }

  lemma ReportedSet(a: App)
    requires Reported(a)
    ensures Reported(SetState(a, ChunkLost)) && Reported(SetState(a.(wids := map[]), PendingDelete)) && TryToCloseFailed(a) == a
  {
  }

  lemma ReportedStays(s: System, e: Event, j: nat)
    requires Inv(s) && j < |s.nodes| && Reported(s.nodes[j].app)
    ensures j < |Step(s, e).nodes| && Reported(Step(s, e).nodes[j].app)
  {
    if e.ClientAppend? { ReportedMaster(s, ClientOp(s, e), false, e.env, j); }
    else if e.SendCommitAck? {
      ReportedMaster(s, CommitAck(s, s.nodes[0].app), true, e.env.(replicationPos := 0, peer := s.nodes[0].app.peer), j);
    }
    else if e.Deliver? { ReportedDeliver(s, e.node, e.checksumOk, e.peerUp, j); }
    else if e.TakeReply? { ReportedWire(s, e.node, 0, j); }
    else if e.LinkDown? { ReportedWire(s, e.node, e.keep, j); }
    else if e.Allocate? || e.Invalidate? || e.Reserve? || e.Inquire? || e.ClientClose? { ReportedTableStep(s, e, j); }
    else if e.BeginStable? || e.MakeStable? || e.Finish? { ReportedStableStep(s, e, j); }
    else { ReportedLocal(s, e, j); }
  }

  lemma NewReport(s: System, e: Event, j: nat)
    requires j in Step(s, e).reports && j !in s.reports
    ensures j < |Step(s, e).nodes| && Reported(Step(s, e).nodes[j].app)
  {
    assert e.BeginStable?;
  }

  ghost predicate ReportersOk(s: System) {
    forall j | j in s.reports :: j < |s.nodes| && Reported(s.nodes[j].app)
  }

  lemma {:induction false} ReportersReachable(chunkId: int, version: int, numServers: nat, start: seq<Byte>, events: seq<Event>)
    requires numServers > 0 && |start| <= CHUNKSIZE
    requires NoneDown(Run(Init(chunkId, version, numServers, start), events))
    ensures ReportersOk(Run(Init(chunkId, version, numServers, start), events))
  {
    if events != [] {
      var before, e := events[..|events| - 1], events[|events| - 1];
      var s := Run(Init(chunkId, version, numServers, start), before);
      DownStays(s, e);
      Reachable(chunkId, version, numServers, start, before);
      ReportersReachable(chunkId, version, numServers, start, before);
      forall j | j in Step(s, e).reports ensures j < |Step(s, e).nodes| && Reported(Step(s, e).nodes[j].app) {
        if j in s.reports { ReportedStays(s, e, j); } else { NewReport(s, e, j); }
      }
    }
  }

  lemma ReachedReporters(s: System)
    requires Reached(s)
    ensures ReportersOk(s)
  {
    var chunkId: int, version: int, numServers: nat, start: seq<Byte>, events: seq<Event> :|
      numServers > 0 && |start| <= CHUNKSIZE && s == Run(Init(chunkId, version, numServers, start), events);
    ReportersReachable(chunkId, version, numServers, start, events);
  }

  /**
   If the meta server decides for the shortest of the sizes it was told, then every replica that told one and is
   not lost has that much, and becomes stable with it when told to.
   */
  lemma ReportersConverge(s: System, source: nat, among: set<nat>, j: nat)
    requires Reached(s) && s.decision.None? && source in among && among <= s.reports.Keys
    requires forall k :: k in among ==> s.reports[source] <= s.reports[k]
    requires j in among && j < |s.nodes| && s.nodes[j].app.phase.Closed?
    ensures var a, size := s.nodes[j].app, s.reports[source];
      var t := Step(Step(Step(s, DecideShortest(source, among)), MakeStable(j)), Finish(j, |a.log|, true));
      && size <= |a.log| && j < |t.nodes| && t.nodes[j].app.phase.Stable? && t.nodes[j].app.log == a.log[..size]
  {
    ReachedReporters(s);
    ReportHeld(s, j);
    var e := DecideShortest(source, among);
    StaysReached(s, e);
    DecideShape(s, source, among);
    BecomesStableIff(Step(s, e), j);
  }

  lemma DecideShape(s: System, source: nat, among: set<nat>)
    requires s.decision.None? && source in among && among <= s.reports.Keys
    requires forall k :: k in among ==> s.reports[source] <= s.reports[k]
    ensures Step(s, DecideShortest(source, among)) == s.(decision := Some(Decision(s.reports[source], source)))
  {
  }

  /** What was told is still there. */
  lemma ReportHeld(s: System, j: nat)
    requires Reached(s) && j in s.reports && j < |s.nodes| && s.nodes[j].app.phase.Closed? && Reported(s.nodes[j].app)
    ensures s.reports[j] == |s.nodes[j].app.log|
  {
    ReachedInv(s);
    assert NodeOk(ContextOf(s), j, s.nodes[j]);
  }

  // ----- the size is told

  /** Asked for its size, a replica tells it, trims itself first, waits, or fails: exactly one of these, and exactly then. */
  lemma BeginOutcome(s: System, i: nat, version: int, ioInFlight: bool)
    requires Reached(s) && i < |s.nodes|
    ensures var a, t := s.nodes[i].app, Step(s, BeginStable(i, version, ioInFlight));
      && i < |t.nodes|
      && var b := t.nodes[i].app;
      && (version != s.version || (!Undecided(a) && !a.HasStableOp()) ==> b.phase == a.phase && t.reports == s.reports)
      && (version == s.version && Undecided(a) && !a.HasStableOp() ==>
            && b.phase.Closed? && b.log == a.log && b.nextCommit == a.nextCommit && b.target == a.target
            && (b.trim <==> a.nextCommit < |a.log|)
            && t.reports == (if a.nextCommit < |a.log| || ioInFlight then s.reports else s.reports[i := a.nextCommit])
            && (b.beginPending <==> a.nextCommit < |a.log| || ioInFlight))
      && (version == s.version && a.HasStableOp() ==> b == a.(beginPending := true) && t.reports == s.reports)
  {
    BeginFacts(s, i);
    BeginApp(s.nodes[i].app, version, ioInFlight);
    var (b, r) := BeginMakeStable(s.nodes[i].app, version, ioInFlight);
    BeginShape(s, i, version, ioInFlight, b, r);
  }

  lemma BeginShape(s: System, i: nat, version: int, ioInFlight: bool, b: App, r: BeginReply)
    requires i < |s.nodes| && (b, r) == BeginMakeStable(s.nodes[i].app, version, ioInFlight)
    ensures Step(s, BeginStable(i, version, ioInFlight)) ==
            WithApp(s, i, b).(reports := if r.Size? then s.reports[i := r.size] else s.reports)
  {
  }

  lemma BeginFacts(s: System, i: nat)
    requires Reached(s) && i < |s.nodes|
    ensures var a := s.nodes[i].app;
      && a.version == s.version
      && (Undecided(a) ==> a.nextCommit <= |a.log| || a.target.Some?)
      && (a.phase.Closed? && a.chunkSize >= 0 ==> a.chunkSize == a.nextCommit == |a.log|)
      && (Undecided(a) && !a.phase.Closed? ==> a.chunkSize < 0)
  {
    ReachedInv(s);
    assert NodeOk(ContextOf(s), i, s.nodes[i]);
    LogPrefix(ContextOf(s), s.nodes[i].committed, s.nodes[i].begun);
  }

  lemma BeginApp(a: App, version: int, ioInFlight: bool)
    requires Undecided(a) ==> a.nextCommit <= |a.log| || a.target.Some?
    requires a.phase.Closed? && a.chunkSize >= 0 ==> a.chunkSize == a.nextCommit == |a.log|
    requires Undecided(a) && !a.phase.Closed? ==> a.chunkSize < 0
    ensures var (b, r) := BeginMakeStable(a, version, ioInFlight);
      && (version != a.version || (!Undecided(a) && !a.HasStableOp()) ==> b.phase == a.phase && !r.Size?)
      && (version == a.version && Undecided(a) && !a.HasStableOp() ==>
            && b.phase.Closed? && b.log == a.log && b.nextCommit == a.nextCommit && b.target == a.target
            && (b.trim <==> a.nextCommit < |a.log|)
            && (b.beginPending <==> a.nextCommit < |a.log| || ioInFlight)
            && r == if a.nextCommit < |a.log| || ioInFlight then NoReply else Size(a.nextCommit))
      && (version == a.version && a.HasStableOp() ==> b == a.(beginPending := true) && !r.Size?)
  {
  }

  /** Once a replica is closed, asking it, trimming if need be, and asking again makes it tell what it committed. */
  lemma EveryReplicaReports(s: System, i: nat)
    requires Reached(s) && i < |s.nodes| && Undecided(s.nodes[i].app) && !s.nodes[i].app.HasStableOp()
    ensures var a, ask := s.nodes[i].app, BeginStable(i, s.version, false);
      var t := if a.nextCommit < |a.log| then Step(Step(Step(s, ask), Finish(i, |a.log|, true)), ask) else Step(s, ask);
      i in t.reports && t.reports[i] == a.nextCommit
  {
    var a, ask := s.nodes[i].app, BeginStable(i, s.version, false);
    BeginOutcome(s, i, s.version, false);
    if a.nextCommit < |a.log| {
      StaysReached(s, ask);
      ReportsAfterTrim(Step(s, ask), i);
    }
  }

  lemma ReportsAfterTrim(s: System, i: nat)
    requires Reached(s) && i < |s.nodes|
    requires var a := s.nodes[i].app; a.phase.Closed? && a.trim && a.target.None? && a.nextCommit <= |a.log|
    ensures var a := s.nodes[i].app;
      var t := Step(Step(s, Finish(i, |a.log|, true)), BeginStable(i, s.version, false));
      i in t.reports && t.reports[i] == a.nextCommit
  {
    var a := s.nodes[i].app;
    var e := Finish(i, |a.log|, true);
    FinishOutcome(s, i, |a.log|, true);
    StaysReached(s, e);
    FinishKeepsCommit(s, i, |a.log|);
    BeginOutcome(Step(s, e), i, s.version, false);
  }

  lemma FinishKeepsCommit(s: System, i: nat, written: nat)
    requires i < |s.nodes| && written <= |s.nodes[i].app.log|
    ensures Step(s, Finish(i, written, true)).nodes[i].app.nextCommit == s.nodes[i].app.nextCommit
  {
  }
}
