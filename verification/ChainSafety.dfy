/** The safety properties of the record append protocol, for every run of every chain. */
module ChainSafety {
  import opened Common
  import opened RecordAppender
  import opened Chain
  import opened ChainInvariant
  import opened ChainSteps
  import opened ChainTheorems

  /** A state that some run leads to, whatever clients send, and in which no server is down. */
  ghost predicate Reached(s: System) {
    NoneDown(s) &&
    exists chunkId: int, version: int, numServers: nat, start: seq<Byte>, events: seq<Event> ::
      numServers > 0 && |start| <= CHUNKSIZE && s == Run(Init(chunkId, version, numServers, start), events)
  }

  lemma ReachedInv(s: System)
    requires Reached(s)
    ensures Inv(s)
  {
    var chunkId: int, version: int, numServers: nat, start: seq<Byte>, events: seq<Event> :|
      numServers > 0 && |start| <= CHUNKSIZE && s == Run(Init(chunkId, version, numServers, start), events);
    Reachable(chunkId, version, numServers, start, events);
  }

  // ----- order along the chain

  /** A replica that still has everything it ever took in. */
  predicate Untrimmed(a: App) {
    a.chunkSize < 0
  }

  /**
   Commit offsets do not decrease from the master to the tail, no server commits beyond its log,
   and the log of a server is a prefix of the log of every server closer to the master.
   */
  lemma ChainOrder(s: System, i: nat, j: nat)
    requires Reached(s) && i <= j < |s.nodes|
    ensures s.nodes[i].app.nextCommit <= s.nodes[j].app.nextCommit
    ensures Untrimmed(s.nodes[j].app) ==> s.nodes[j].app.nextCommit <= |s.nodes[j].app.log|
    ensures Untrimmed(s.nodes[i].app) ==> s.nodes[j].app.log <= s.nodes[i].app.log
  {
    ReachedInv(s);
    var c := ContextOf(s);
    CommitsNested(s, i, j);
    assert NodeOk(c, i, s.nodes[i]) && NodeOk(c, j, s.nodes[j]);
    LogPrefix(c, s.nodes[j].committed, s.nodes[j].begun);
    LogPrefix(c, s.nodes[j].begun, s.nodes[i].begun);
  }

  /** Two replicas, trimmed or not, agree on every byte both of them have. */
  lemma ReplicasAgree(s: System, i: nat, j: nat)
    requires Reached(s) && i < |s.nodes| && j < |s.nodes|
    ensures s.nodes[i].app.log <= s.nodes[j].app.log || s.nodes[j].app.log <= s.nodes[i].app.log
  {
    ReachedInv(s);
    var c := ContextOf(s);
    assert NodeOk(c, i, s.nodes[i]) && NodeOk(c, j, s.nodes[j]);
    var m, n := s.nodes[i], s.nodes[j];
    LogPrefix(c, if m.begun <= n.begun then m.begun else n.begun, if m.begun <= n.begun then n.begun else m.begun);
  }

  // ----- convergence

  /** What the meta server decided covers everything the master acknowledged, and always will. */
  lemma DecisionCovers(s: System)
    requires Inv(s) && s.decision.Some?
    ensures s.nodes[0].app.nextCommit <= s.decision.value.size
  {
    CommitsNested(s, 0, s.decision.value.source);
  }

  /** Append `k` of the history, byte for byte, at the offset the master gave it. */
  ghost predicate Holds(log: seq<Byte>, op: Op) {
    0 <= op.fileOffset && op.fileOffset + |op.data| <= |log| && log[op.fileOffset..op.fileOffset + |op.data|] == op.data
  }

  lemma StableHolds(s: System, j: nat, k: nat)
    requires Inv(s) && j < |s.nodes| && s.nodes[j].app.makeStableSucceeded
    requires WellPlaced(ContextOf(s), k) && Safe(ContextOf(s), Off(ContextOf(s), k) + |s.hist[k].data|)
    ensures Holds(s.nodes[j].app.log, s.hist[k])
  {
    var c, n := ContextOf(s), s.nodes[j];
    assert NodeOk(c, j, n) && OpOk(c, k);
    DecisionCovers(s);
    var log := n.app.log;
    var off := Off(c, k);
    assert off + |c.hist[k].data| <= |log|;
    if k < n.begun {
      LogSlice(c, k, n.begun);
      assert log[off..off + |c.hist[k].data|] == LogAt(c, n.begun)[off..off + |c.hist[k].data|];
    } else {
      LogPrefix(c, n.begun, k);
      assert c.hist[k].data == [] && log[off..off] == [];
    }
  }

  /**
   All replicas that became stable are byte for byte the same, of the size the meta server chose,
   and hold every append the master acknowledged, where the master said it is.
   */
  lemma Converged(s: System, i: nat, j: nat)
    requires Reached(s) && i < |s.nodes| && j < |s.nodes|
    requires s.nodes[i].app.makeStableSucceeded && s.nodes[j].app.makeStableSucceeded
    ensures s.decision.Some? && |s.nodes[i].app.log| == s.decision.value.size
    ensures s.nodes[i].app.log == s.nodes[j].app.log
    ensures forall k: nat | k < s.nodes[0].committed :: k < |s.hist| && Holds(s.nodes[i].app.log, s.hist[k])
  {
    ReachedInv(s);
    ReplicasAgree(s, i, j);
    var c := ContextOf(s);
    assert NodeOk(c, i, s.nodes[i]) && NodeOk(c, j, s.nodes[j]) && NodeOk(c, 0, s.nodes[0]);
    forall k: nat | k < s.nodes[0].committed ensures k < |s.hist| && Holds(s.nodes[i].app.log, s.hist[k]) {
      LogSlice(c, k, s.nodes[0].committed);
      assert WellPlaced(c, k);
      StableHolds(s, i, k);
    }
  }

  /** The size the master gives up its lease with is held by every replica that is not lost. */
  lemma RelinquishedHeld(s: System, j: nat)
    requires Reached(s) && s.relinquished.Some? && j < |s.nodes|
    ensures s.relinquished.value == s.nodes[0].app.nextCommit
    ensures !s.nodes[j].app.phase.ChunkLost? && !s.nodes[j].app.phase.PendingDelete? ==>
              s.relinquished.value <= |s.nodes[j].app.log|
  {
    ReachedInv(s);
    ShortestHeld(s, 0, j);
  }

  lemma ShortestHeld(s: System, i: nat, j: nat)
    requires Inv(s) && i <= j < |s.nodes|
    ensures !s.nodes[j].app.phase.ChunkLost? && !s.nodes[j].app.phase.PendingDelete? ==>
              s.nodes[i].app.nextCommit <= |s.nodes[j].app.log| || s.nodes[j].app.makeStableSucceeded
    ensures i == 0 && !s.nodes[j].app.phase.ChunkLost? && !s.nodes[j].app.phase.PendingDelete? ==>
              s.nodes[0].app.nextCommit <= |s.nodes[j].app.log|
  {
    var c, n := ContextOf(s), s.nodes[j];
    CommitsNested(s, i, j);
    assert NodeOk(c, j, n);
    LogPrefix(c, n.committed, n.begun);
    if s.decision.Some? { DecisionCovers(s); }
  }

  // ----- status inquiry

  /**
   A definite answer is never wrong, whenever and wherever it was given. Success: the append is in every
   replica that is stable, now or later, with the bytes the master accepted. Failure: it is in none.
   */
  lemma AnswersNeverLie(s: System, x: Answer, j: nat)
    requires Reached(s) && x in s.answers && x.offset >= 0
    requires j < |s.nodes| && s.nodes[j].app.makeStableSucceeded
    ensures x.status.Success? ==>
              exists k: nat :: About(ContextOf(s), x, k) && Holds(s.nodes[j].app.log, s.hist[k])
    ensures x.status.EFailedState? ==> |s.nodes[j].app.log| <= x.offset
  {
    ReachedInv(s);
    var c := ContextOf(s);
    assert AnswerOk(c, x) && NodeOk(c, j, s.nodes[j]);
    if x.status.Success? {
      var k: nat :| About(c, x, k) && WellPlaced(c, k);
      StableHolds(s, j, k);
    } else if x.status.EFailedState? {
      var k: nat :| About(c, x, k);
      DoomedIsBeyond(s, k);
    }
  }

  /** The chosen size never cuts through an append. */
  lemma DoomedIsBeyond(s: System, k: nat)
    requires Inv(s) && k < |s.hist| && Doomed(ContextOf(s), s.hist[k].fileOffset + |s.hist[k].data|)
    ensures s.decision.value.size <= s.hist[k].fileOffset
  {
    var c, i := ContextOf(s), s.decision.value.source;
    assert NodeOk(c, i, s.nodes[i]) && OpOk(c, k);
    var done := s.nodes[i].committed;
    if done <= k {
      LogPrefix(c, done, k);
    } else {
      assert WellPlaced(c, k);
      LogSlice(c, k, done);
    }
  }

  /** No two answers ever contradict each other. */
  lemma AnswersAgree(s: System, x: Answer, y: Answer)
    requires Reached(s) && x in s.answers && y in s.answers && x.offset >= 0
    requires x.offset == y.offset && x.length == y.length
    ensures !(x.status.Success? && y.status.EFailedState?)
  {
    ReachedInv(s);
    var c := ContextOf(s);
    assert AnswerOk(c, x) && AnswerOk(c, y);
    if s.decision.Some? { DecisionCovers(s); }
  }

  // ----- inquiry is final

  lemma {:induction false} RunAppend(s: System, before: seq<Event>, after: seq<Event>)
    ensures Run(s, before + after) == Run(Run(s, before), after)
  {
    if after == [] {
      assert before + after == before;
    } else {
      var init := after[..|after| - 1];
      assert (before + after)[..|before + after| - 1] == before + init;
      RunAppend(s, before, init);
    }
  }

  /** What a node remembers of its first inquiries. */
  ghost predicate Remembers(n: Node, m: Node) {
    forall w | w in n.inquired :: w in m.inquired && m.inquired[w] == n.inquired[w]
  }

  lemma WireRemembers(s: System, e: Event, j: nat)
    requires j < |s.nodes| && (e.TakeReply? || e.LinkDown? || e.ClientClose?)
    ensures j < |Step(s, e).nodes| && Remembers(s.nodes[j], Step(s, e).nodes[j])
  {
  }

  lemma DeliverRemembers(s: System, e: Event, j: nat)
    requires j < |s.nodes| && e.Deliver?
    ensures j < |Step(s, e).nodes| && Remembers(s.nodes[j], Step(s, e).nodes[j])
  {
    var i := e.node;
    if 0 < i < |s.nodes| && s.nodes[i].inbox != [] {
      var n := s.nodes[i];
      match n.inbox[0]
      case Append(op) =>
        var t := s.(nodes := s.nodes[i := n.(inbox := n.inbox[1..], received := n.received + 1)]);
        AppendRemembers(t, i, op, e.checksumOk, e.peerUp, j);
        assert Step(s, e) == StepAppend(t, i, op, e.checksumOk, e.peerUp);
      case Close(w, mc) =>
        var t := s.(nodes := s.nodes[i := n.(inbox := n.inbox[1..])]);
        CloseRemembers(t, i, w, mc, j);
        assert Step(s, e) == StepClose(t, i, w, mc);
    }
  }

  lemma CloseRemembers(s: System, i: nat, w: int, mc: int, j: nat)
    requires 0 < i < |s.nodes| && j < |s.nodes|
    ensures var t := StepClose(s, i, w, mc); |t.nodes| == |s.nodes| && t.nodes[j].inquired == s.nodes[j].inquired
  {
  }

  lemma AppendRemembers(s: System, i: nat, op: Op, checksumOk: bool, peerUp: bool, j: nat)
    requires 0 < i < |s.nodes| && j < |s.nodes|
    ensures var t := StepAppend(s, i, op, checksumOk, peerUp);
      |t.nodes| == |s.nodes| && t.nodes[j].inquired == s.nodes[j].inquired
  {
    var (b, ok) := AppendBegin(s.nodes[i].app, op, false, BeginEnv(i, i + 1, true, checksumOk, peerUp, None));
  }

  lemma StepRemembers(s: System, e: Event, j: nat)
    requires j < |s.nodes|
    ensures j < |Step(s, e).nodes| && Remembers(s.nodes[j], Step(s, e).nodes[j])
  {
    if e.Deliver? { DeliverRemembers(s, e, j); }
    else if e.TakeReply? || e.LinkDown? || e.ClientClose? { WireRemembers(s, e, j); }
  }

  lemma {:induction false} RunRemembers(s: System, events: seq<Event>, j: nat)
    requires j < |s.nodes|
    ensures j < |Run(s, events).nodes| && Remembers(s.nodes[j], Run(s, events).nodes[j])
  {
    if events != [] {
      RunRemembers(s, events[..|events| - 1], j);
      StepRemembers(Run(s, events[..|events| - 1]), events[|events| - 1], j);
    }
  }

  lemma NotBegunAfterInquiry(t: System, i: nat, w: int, k: nat)
    requires Inv(t) && i < |t.nodes| && w in t.nodes[i].inquired
    requires t.nodes[i].inquired[w] <= k < t.nodes[0].committed
    ensures k < |t.hist| && t.hist[k].writeId != w
  {
    CommitsNested(t, 0, i);
    assert NodeOk(ContextOf(t), i, t.nodes[i]);
  }

  /**
   Once a replica answered an inquiry for a write id, no append with that id that the replica had not
   begun by then is ever committed by the master, however the run goes on.
   */
  lemma InquiryIsFinal(chunkId: int, version: int, numServers: nat, start: seq<Byte>,
                       before: seq<Event>, i: nat, w: int, after: seq<Event>, k: nat)
    requires numServers > 0 && |start| <= CHUNKSIZE && i < numServers
    requires NoneDown(Run(Init(chunkId, version, numServers, start), before + [Inquire(i, w)] + after))
    ensures var s := Run(Init(chunkId, version, numServers, start), before);
      var t := Run(Init(chunkId, version, numServers, start), before + [Inquire(i, w)] + after);
      && |s.nodes| == |t.nodes| == numServers
      && (w in s.nodes[i].app.wids && s.nodes[i].begun <= k < t.nodes[0].committed ==>
            k < |t.hist| && t.hist[k].writeId != w)
  {
    var first := Init(chunkId, version, numServers, start);
    var s := Run(first, before);
    var u := Step(s, Inquire(i, w));
    RunAppend(first, before, [Inquire(i, w)]);
    RunAppend(first, before + [Inquire(i, w)], after);
    RunOne(s, Inquire(i, w));
    RunFrame(first, before);
    StepFrame(s, Inquire(i, w));
    RunFrame(u, after);
    NoneDownBefore(u, after);
    DownStays(s, Inquire(i, w));
    Reachable(chunkId, version, numServers, start, before);
    Reachable(chunkId, version, numServers, start, before + [Inquire(i, w)] + after);
    RunRemembers(u, after, i);
    var t := Run(u, after);
    if w in s.nodes[i].app.wids && s.nodes[i].begun <= k < t.nodes[0].committed {
      InquiredBound(s, i, w);
      NotBegunAfterInquiry(t, i, w, k);
    }
  }

  lemma RunOne(s: System, e: Event)
    ensures Run(s, [e]) == Step(s, e)
  {
    assert [e][..0] == [];
    assert Run(s, []) == s;
  }

  lemma InquiredBound(s: System, i: nat, w: int)
    requires Inv(s) && i < |s.nodes| && w in s.nodes[i].app.wids
    ensures var u := Step(s, Inquire(i, w)); w in u.nodes[i].inquired && u.nodes[i].inquired[w] <= s.nodes[i].begun
  {
    assert NodeOk(ContextOf(s), i, s.nodes[i]);
  }

  lemma {:induction false} NoneDownBefore(s: System, events: seq<Event>)
    requires NoneDown(Run(s, events))
    ensures NoneDown(s)
  {
    if events != [] {
      DownStays(Run(s, events[..|events| - 1]), events[|events| - 1]);
      NoneDownBefore(s, events[..|events| - 1]);
    }
  }

  // ----- what brings a server down

  /**
   From any such state, a step brings server `i` down exactly if it makes the server commit an append of another
   version of the chunk, or one without data that an inquiry at this server has settled.
   */
  lemma GoesDownIff(s: System, e: Event, i: nat)
    requires Reached(s) && i < |s.nodes|
    ensures |Step(s, e).nodes| == |s.nodes|
    ensures Step(s, e).nodes[i].app.aborted <==> BringsDown(s, e, i)
    ensures Harmless(s, e) ==> Reached(Step(s, e))
  {
    ReachedInv(s);
    DownIff(s, e, i);
    if Harmless(s, e) {
      StepKeeps(s, e);
      InvNoneDown(Step(s, e));
      ReachedStep(s, e);
    }
  }

  lemma InvNoneDown(s: System)
    requires Inv(s)
    ensures NoneDown(s)
  {
    forall i: nat | i < |s.nodes| ensures !s.nodes[i].app.aborted { assert NodeOk(ContextOf(s), i, s.nodes[i]); }
  }

  lemma ReachedStep(s: System, e: Event)
    requires Reached(s) && NoneDown(Step(s, e))
    ensures Reached(Step(s, e))
  {
    var chunkId: int, version: int, numServers: nat, start: seq<Byte>, events: seq<Event> :|
      numServers > 0 && |start| <= CHUNKSIZE && s == Run(Init(chunkId, version, numServers, start), events);
    assert (events + [e])[..|events + [e]| - 1] == events;
    assert Step(s, e) == Run(Init(chunkId, version, numServers, start), events + [e]);
  }

  // ----- nothing goes wrong while clients keep to the protocol

  /** Every append in the history names the chunk's version, and carries data unless it is the master's own. */
  predicate GoodHistory(s: System) {
    forall k: nat | k < |s.hist| :: s.hist[k].version == s.version && (s.hist[k].writeId >= 0 ==> s.hist[k].data != [])
  }

  lemma BegunOp(a: App, op: Op, internal: bool, env: BeginEnv)
    ensures var b := AppendBegin(a, op, internal, env).0;
      b.op.version == op.version && b.op.writeId == op.writeId && b.op.data == op.data
  {
  }

  lemma MasterHistory(s: System, op: Op, internal: bool, env: BeginEnv)
    requires |s.nodes| > 0 && GoodHistory(s) && op.version == s.version && (op.writeId >= 0 ==> op.data != [])
    ensures GoodHistory(StepMaster(s, op, internal, env))
  {
    BegunOp(s.nodes[0].app, op, internal, env);
  }

  lemma HistoryStaysGood(s: System, e: Event)
    requires Inv(s) && GoodHistory(s) && WellBehaved(s.version, e)
    ensures GoodHistory(Step(s, e))
  {
    var a := s.nodes[0].app;
    if e.ClientAppend? {
      MasterHistory(s, ClientOp(s, e), false, e.env);
    } else if e.SendCommitAck? {
      assert NodeOk(ContextOf(s), 0, s.nodes[0]);
      MasterHistory(s, CommitAck(s, a), true, e.env.(replicationPos := 0, peer := a.peer));
    } else {
      HistoryKept(s, e);
      StepFrame(s, e);
    }
  }

  /** Only the master adds to the history. */
  lemma HistoryKept(s: System, e: Event)
    requires !e.ClientAppend? && !e.SendCommitAck?
    ensures Step(s, e).hist == s.hist
  {
  }

  lemma GoodIsHarmless(s: System, e: Event)
    requires Inv(s) && GoodHistory(s) && WellBehaved(s.version, e)
    ensures Harmless(s, e)
  {
    var c := ContextOf(s);
    forall i: nat | i < |s.nodes| ensures !BringsDown(s, e, i) {
      assert NodeOk(c, i, s.nodes[i]);
      assert s.nodes[i].committed < |s.hist| ==> OpOk(c, s.nodes[i].committed);
      if e.Deliver? && e.node == i && TailDies(s, i, e.checksumOk, e.peerUp) {
        ArrivalFacts(s, i, s.nodes[i].inbox[0].op);
      }
    }
  }

  predicate WellBehavedRun(version: int, events: seq<Event>) {
    forall k: nat | k < |events| :: WellBehaved(version, events[k])
  }

  lemma {:induction false} GoodRun(chunkId: int, version: int, numServers: nat, start: seq<Byte>, events: seq<Event>)
    requires numServers > 0 && |start| <= CHUNKSIZE && WellBehavedRun(version, events)
    ensures var s := Run(Init(chunkId, version, numServers, start), events); Inv(s) && GoodHistory(s)
  {
    var first := Init(chunkId, version, numServers, start);
    if events == [] {
      InitOk(chunkId, version, numServers, start);
    } else {
      var s, e := Run(first, events[..|events| - 1]), events[|events| - 1];
      GoodRun(chunkId, version, numServers, start, events[..|events| - 1]);
      RunFrame(first, events[..|events| - 1]);
      GoodIsHarmless(s, e);
      StepKeeps(s, e);
      HistoryStaysGood(s, e);
    }
  }

  /**
   As long as clients send appends with data that name the version of the chunk, no server ever goes down,
   and no piggy-backed commit offset falls outside the window.
   */
  lemma NeverAborts(chunkId: int, version: int, numServers: nat, start: seq<Byte>, events: seq<Event>, i: nat)
    requires numServers > 0 && |start| <= CHUNKSIZE && WellBehavedRun(version, events) && i < numServers
    ensures var s := Run(Init(chunkId, version, numServers, start), events);
      |s.nodes| == numServers && !s.nodes[i].app.aborted && s.nodes[i].app.windowErrors == 0
  {
    GoodRun(chunkId, version, numServers, start, events);
    RunFrame(Init(chunkId, version, numServers, start), events);
    var s := Run(Init(chunkId, version, numServers, start), events);
    assert NodeOk(ContextOf(s), i, s.nodes[i]);
  }
}
