/** What the master answers to a status inquiry. */
module ChainMasterAnswers {
  import opened Common
  import opened RecordAppender
  import opened Chain
  import opened ChainInvariant
  import opened ChainAppend
  import opened ChainReplies
  import opened ChainAccept
  import opened ChainTheorems
  import opened ChainSafety
  import opened ChainAnswers

  /** Until it is stable, an append is open in its row exactly as long as the master did not commit it. */
  predicate RowsSettled(n: Node) {
    n.app.makeStableSucceeded ||
    forall w | w in n.app.wids && n.app.wids[w].offset >= 0 ::
      w in n.last && (n.app.wids[w].status.InProgress? <==> n.committed <= n.last[w])
  }

  /** Nothing is begun or committed, and rows keep their status, or go. */
  predicate Unmoved(n: Node, m: Node) {
    && m.last == n.last && m.committed == n.committed && (n.app.makeStableSucceeded ==> m.app.makeStableSucceeded)
    && (m.app.makeStableSucceeded ||
        forall w | w in m.app.wids && m.app.wids[w].offset >= 0 ::
          w in n.app.wids && m.app.wids[w].offset == n.app.wids[w].offset && m.app.wids[w].status == n.app.wids[w].status)
  }

  lemma UnmovedKeeps(n: Node, m: Node)
    requires RowsSettled(n) && Unmoved(n, m)
    ensures RowsSettled(m)
  {
  }

  lemma SameRowsUnmoved(n: Node, m: Node)
    requires m.last == n.last && m.committed == n.committed && RowsKept(n.app, m.app)
    ensures Unmoved(n, m)
  {
  }

  // ----- an append begins at the master

  lemma Begins(n: Node, op: Op)
    requires RowsSettled(n) && n.committed <= n.begun
    ensures RowsSettled(Accepting(n, op)) && Accepting(n, op).committed == n.committed
  {
    var m := Accepting(n, op);
    if !m.app.makeStableSucceeded {
      forall w | w in m.app.wids && m.app.wids[w].offset >= 0
        ensures w in m.last && (m.app.wids[w].status.InProgress? <==> m.committed <= m.last[w])
      {
        if op.IsAck() || op.writeId !in n.app.wids || w != op.writeId { assert w in n.app.wids && m.app.wids[w] == n.app.wids[w]; }
      }
    }
  }

  /** A commit settles the row of the append, and no other. */
  lemma Commits(n: Node, m: Node, op: Op)
    requires RowsSettled(n) && !CommitInvalid(n.app, op) && n.app.IsOpen() && n.app.IsMaster()
    requires m.app == Commit(n.app, op, true).0 && m.last == n.last && m.committed == n.committed + 1
    requires op.writeId in n.app.wids && !op.IsAck() ==> op.writeId in n.last && n.last[op.writeId] == n.committed
    requires forall w | w in n.app.wids && n.app.wids[w].offset >= 0 && w in n.last && (op.IsAck() || w != op.writeId) :: n.last[w] != n.committed
    ensures RowsSettled(m)
  {
  }

  lemma MasterBegins(s: System, op: Op, internal: bool, env: BeginEnv)
    requires Inv(s) && RowsSettled(s.nodes[0]) && AtMaster(s.nodes[0].app, op, internal, env)
    requires !AloneDies(s, op, internal, env) && op.id == |s.hist|
    ensures RowsSettled(StepMaster(s, op, internal, env).nodes[0])
  {
    var c, n := ContextOf(s), s.nodes[0];
    assert NodeOk(c, 0, n) && NO_WRITE_ID !in n.app.wids;
    if !Begin(n.app, op, internal, env).status.Success? {
      Refused(s, op, internal, env);
    } else {
      MasterAccepts(n.app, op, internal, env);
      if |s.nodes| > 1 { Begins(n, op); BegunHere(s, op, internal, env); } else { BegunAlone(s, op, internal, env); }
    }
  }

  lemma Refused(s: System, op: Op, internal: bool, env: BeginEnv)
    requires Inv(s) && RowsSettled(s.nodes[0]) && AtMaster(s.nodes[0].app, op, internal, env)
    requires NO_WRITE_ID !in s.nodes[0].app.wids && s.nodes[0].app.nextOffset <= CHUNKSIZE
    requires !Begin(s.nodes[0].app, op, internal, env).status.Success?
    ensures RowsSettled(StepMaster(s, op, internal, env).nodes[0])
  {
    var n := s.nodes[0];
    MasterRefuses(n.app, op, internal, env);
    RefusedShape(s, op, internal, env);
    LeaseUnmoved(n, env.leaseValid);
    UnmovedKeeps(n, n.(app := CheckLease(n.app, env.leaseValid)));
    ChargedUnmoved(n, op);
    UnmovedKeeps(n, n.(app := Charged(n.app, op)));
  }

  lemma LeaseUnmoved(n: Node, leaseValid: bool)
    ensures Unmoved(n, n.(app := CheckLease(n.app, leaseValid)))
  {
    LeaseRowsKept(n.app, leaseValid);
  }

  lemma ChargedUnmoved(n: Node, op: Op)
    ensures Unmoved(n, n.(app := Charged(n.app, op)))
  {
  }

  lemma RefusedShape(s: System, op: Op, internal: bool, env: BeginEnv)
    requires |s.nodes| > 0 && var b := Begin(s.nodes[0].app, op, internal, env); !b.status.Success? && b.app.IsMaster()
    ensures StepMaster(s, op, internal, env).nodes[0] == s.nodes[0].(app := Begin(s.nodes[0].app, op, internal, env).app)
  {
  }

  lemma LeaseRowsKept(a: App, leaseValid: bool)
    ensures RowsKept(a, CheckLease(a, leaseValid))
  {
    EnterRows(a, ReplicationFailed);
    CloseRows(Enter(a, ReplicationFailed));
  }

  lemma BegunHere(s: System, op: Op, internal: bool, env: BeginEnv)
    requires Inv(s) && |s.nodes| > 1 && var b := Begin(s.nodes[0].app, op, internal, env);
      b.status.Success? && b.forwarded && b.app == AfterAccept(s.nodes[0].app, op) && b.op == Stamped(s.nodes[0].app, op)
    requires RowsSettled(Accepting(s.nodes[0], op)) && s.nodes[0].app.numServers > 1
    ensures RowsSettled(StepMaster(s, op, internal, env).nodes[0])
  {
    var n := s.nodes[0];
    StepMasterForwards(s, op, internal, env);
    AcceptingShape(n, op);
    var m := NoteBegun(n.(app := AfterAccept(n.app, op)), Stamped(n.app, op));
    assert StepMaster(s, op, internal, env).nodes[0] == m;
    SameRowsUnmoved(Accepting(n, op), m);
    UnmovedKeeps(Accepting(n, op), m);
  }

  /** A commit at a single server that does not abort leaves only rows open that were open before. */
  lemma AloneRows(a: App, op: Op, w: int)
    requires a.IsOpen() && a.IsMaster() && a.numServers <= 1
    requires var b := Commit(AfterAccept(a, op), Stamped(a, op), true).0;
      !b.aborted && w in b.wids && b.wids[w].status.InProgress?
    ensures w in a.wids && Commit(AfterAccept(a, op), Stamped(a, op), true).0.wids[w] == a.wids[w]
  {
  }

  lemma AloneOpen(a: App, op: Op)
    requires a.IsOpen()
    ensures Commit(AfterAccept(a, op), Stamped(a, op), true).0.IsOpen()
  {
  }

  /** Where everything begun is committed no row is open. */
  lemma NoneOpen(c: Context, n: Node)
    requires NodeOk(c, 0, n) && n.committed == n.begun && RowsSettled(n) && !n.app.makeStableSucceeded
    ensures forall w | w in n.app.wids && n.app.wids[w].offset >= 0 :: !n.app.wids[w].status.InProgress?
  {
    forall w | w in n.app.wids && n.app.wids[w].offset >= 0 ensures !n.app.wids[w].status.InProgress? { assert RowOk(c, n, w); }
  }

  lemma BegunAlone(s: System, op: Op, internal: bool, env: BeginEnv)
    requires Inv(s) && |s.nodes| == 1 && AtMaster(s.nodes[0].app, op, internal, env) && op.version == s.version && op.id == |s.hist|
    requires Begin(s.nodes[0].app, op, internal, env).status.Success? && RowsSettled(s.nodes[0])
    ensures RowsSettled(StepMaster(s, op, internal, env).nodes[0])
  {
    var n, t := s.nodes[0], StepMaster(s, op, internal, env);
    assert NodeOk(ContextOf(s), 0, n) && NO_WRITE_ID !in n.app.wids && EndsOk(s);
    MasterAccepts(n.app, op, internal, env);
    StepMasterAlone(s, op, internal, env);
    MasterAlone(s, op, internal, env);
    AloneOpen(n.app, op);
    NoneOpen(ContextOf(s), n);
    var m := t.nodes[0];
    assert m.app == Commit(AfterAccept(n.app, op), Stamped(n.app, op), true).0;
    assert NodeOk(ContextOf(t), 0, m) && EndsOk(t);
    forall w | w in m.app.wids && m.app.wids[w].offset >= 0
      ensures w in m.last && m.last[w] < m.committed && !m.app.wids[w].status.InProgress?
    {
      assert RowOk(ContextOf(t), m, w);
      if m.app.wids[w].status.InProgress? { AloneRows(n.app, op, w); }
    }
  }

  // ----- an answer comes back to the master

  lemma MasterHears(s: System)
    requires Inv(s) && RowsSettled(s.nodes[0]) && !ReplyKills(s, 0)
    ensures RowsSettled(StepReply(s, 0).nodes[0])
  {
    if 1 < |s.nodes| && s.nodes[1].outbox != [] {
      var n, r := s.nodes[0], s.nodes[1].outbox[0];
      var k := Find(n.app.inFlight, r.id);
      if n.app.IsOpen() && r.ok {
        MasterCommits(s);
      } else if k < |n.app.inFlight| {
        ReplyShape(s, 0, k);
        NotCommitted(n.app, n.app.inFlight[k], r.ok);
        var m := StepReply(s, 0).nodes[0];
        SameRowsUnmoved(n, m);
        UnmovedKeeps(n, m);
      }
    }
  }

  lemma NotCommitted(a: App, op: Op, ok: bool)
    requires !a.IsOpen() || !ok
    ensures var (b, done) := OpDone(a, op, ok); RowsKept(a, b) && !done
  {
    var c := a.(inFlight := Without(a.inFlight, op.id));
    EnterRows(c, ReplicationFailed);
    CloseRows(Enter(c, ReplicationFailed));
  }

  lemma MasterCommits(s: System)
    requires Inv(s) && RowsSettled(s.nodes[0]) && !ReplyKills(s, 0)
    requires 1 < |s.nodes| && s.nodes[1].outbox != [] && s.nodes[0].app.IsOpen() && s.nodes[1].outbox[0].ok
    ensures RowsSettled(StepReply(s, 0).nodes[0])
  {
    var c, n, down := ContextOf(s), s.nodes[0], s.nodes[1];
    assert NodeOk(c, 0, n) && NodeOk(c, 1, down) && LinkOk(c, 0, n, s.nodes[0 + 1]);
    ReplyFacts(c, 0, n, down);
    CommitInvalidIff(c, 0, n);
    ReplyShape(s, 0, 0);
    var op := n.app.inFlight[0];
    assert op == c.hist[n.committed] && OpOk(c, n.committed);
    if !op.IsAck() { assert PendingRow(n, op, n.committed); }
    forall w | w in n.app.wids && n.app.wids[w].offset >= 0 && w in n.last && (op.IsAck() || w != op.writeId) ensures n.last[w] != n.committed {
      assert RowOk(c, n, w);
    }
    var m := StepReply(s, 0).nodes[0];
    Commits(n.(app := n.app.(inFlight := Without(n.app.inFlight, op.id))), m, op);
  }

  // ----- everything else

  lemma TableUnmoved(s: System, e: Event)
    requires |s.nodes| > 0 && s.nodes[0].app.IsMaster() && (e.Allocate? || e.Invalidate? || e.Reserve?)
    ensures |Step(s, e).nodes| > 0 && Unmoved(s.nodes[0], Step(s, e).nodes[0])
  {
    if e.Invalidate? { InvalidateUnmoved(s.nodes[0], e.writeId, e.declareFailure); }
    else if e.Reserve? { ReserveUnmoved(s.nodes[0], e.writeId, e.bytes, e.release); }
  }

  lemma InvalidateUnmoved(n: Node, w: int, declare: bool)
    ensures Unmoved(n, n.(app := InvalidateWriteId(n.app, w, declare).0))
  {
    EnterRows(n.app.(wids := n.app.wids - {w}), ReplicationFailed);
    CloseRows(Enter(n.app.(wids := n.app.wids - {w}), ReplicationFailed));
  }

  lemma ReserveUnmoved(n: Node, w: int, bytes: nat, release: bool)
    ensures Unmoved(n, n.(app := ChangeReservation(n.app, w, bytes, release, true).0))
  {
  }

  lemma ClientUnmoved(s: System, e: Event)
    requires |s.nodes| > 0 && s.nodes[0].app.IsMaster() && (e.Inquire? || e.ClientClose?)
    ensures |Step(s, e).nodes| > 0 && Unmoved(s.nodes[0], Step(s, e).nodes[0])
  {
  }

  lemma StableUnmoved(s: System, e: Event)
    requires |s.nodes| > 0 && (e.BeginStable? || e.MakeStable? || e.Finish?)
    ensures |Step(s, e).nodes| > 0 && Unmoved(s.nodes[0], Step(s, e).nodes[0])
  {
    var n := s.nodes[0];
    match e
    case BeginStable(i, version, io) => BeginStepUnmoved(s, i, version, io);
    case MakeStable(_) => if s.decision.Some? { RequestUnmoved(n, s.decision.value.size); }
    case Finish(_, written, ioOk) => if written <= |n.app.log| { FinishUnmoved(n, written, ioOk); }
  }

  lemma BeginStepUnmoved(s: System, i: nat, version: int, io: bool)
    requires |s.nodes| > 0
    ensures var t := StepBeginStable(s, i, version, io); |t.nodes| > 0 && Unmoved(s.nodes[0], t.nodes[0])
  {
    BeginUnmoved(s.nodes[0], version, io);
  }

  lemma BeginUnmoved(n: Node, version: int, io: bool)
    ensures Unmoved(n, n.(app := BeginMakeStable(n.app, version, io).0))
  {
    BeginRows(n.app, version, io);
  }

  lemma RequestUnmoved(n: Node, size: nat)
    ensures Unmoved(n, n.(app := RequestStable(n.app, size)))
  {
    StableRows(n.app, 0, true, size, 0, true);
  }

  lemma FinishUnmoved(n: Node, written: nat, ioOk: bool)
    requires written <= |n.app.log|
    ensures Unmoved(n, n.(app := FinishStable(n.app, written, ioOk).0))
  {
    FinishRows(n.app, written, ioOk);
  }

  lemma LocalUnmoved(s: System, e: Event)
    requires |s.nodes| > 0
    requires e.Fail? || e.IdleClose? || e.Lose? || e.Delete? || e.DecideRelinquished? || e.DecideShortest?
    ensures |Step(s, e).nodes| > 0 && Unmoved(s.nodes[0], Step(s, e).nodes[0])
  {
    if e.Fail? || e.IdleClose? { FailStepUnmoved(s, e); } else if e.Lose? || e.Delete? { LostUnmoved(s, e); }
  }

  lemma LostUnmoved(s: System, e: Event)
    requires |s.nodes| > 0 && (e.Lose? || e.Delete?)
    ensures |Step(s, e).nodes| > 0 && Unmoved(s.nodes[0], Step(s, e).nodes[0])
  {
    DeletedUnmoved(s.nodes[0]);
  }

  lemma FailStepUnmoved(s: System, e: Event)
    requires |s.nodes| > 0 && (e.Fail? || e.IdleClose?)
    ensures |Step(s, e).nodes| > 0 && Unmoved(s.nodes[0], Step(s, e).nodes[0])
  {
    FailUnmoved(s.nodes[0]);
  }

  lemma FailUnmoved(n: Node)
    ensures Unmoved(n, n.(app := SetState(n.app, ReplicationFailed))) && Unmoved(n, n.(app := TryToCloseFailed(n.app)))
  {
    EnterRows(n.app, ReplicationFailed);
    CloseRows(n.app);
    CloseRows(Enter(n.app, ReplicationFailed));
  }

  lemma DeletedUnmoved(n: Node)
    ensures Unmoved(n, n.(app := SetState(n.app.(wids := map[]), PendingDelete))) && Unmoved(n, n.(app := SetState(n.app, ChunkLost)))
  {
  }

  lemma WireUnmoved(s: System, e: Event)
    requires |s.nodes| > 0 && (e.Deliver? || e.LinkDown? || (e.TakeReply? && e.node > 0))
    ensures |Step(s, e).nodes| > 0 && Unmoved(s.nodes[0], Step(s, e).nodes[0])
  {
    if e.LinkDown? { BreakUnmoved(s, e.node, e.keep); }
  }

  lemma BreakUnmoved(s: System, i: nat, keep: nat)
    requires |s.nodes| > 0
    ensures var t := StepLinkDown(s, i, keep); |t.nodes| > 0 && Unmoved(s.nodes[0], t.nodes[0])
  {
    if i == 0 && 1 < |s.nodes| && s.nodes[0].app.inFlight != [] {
      var a := s.nodes[0].app.(inFlight := []);
      EnterRows(a, ReplicationFailed);
      CloseRows(Enter(a, ReplicationFailed));
    }
  }

  lemma StepSettled(s: System, e: Event)
    requires Inv(s) && Harmless(s, e) && RowsSettled(s.nodes[0])
    ensures |Step(s, e).nodes| > 0 && RowsSettled(Step(s, e).nodes[0])
  {
    StepFrame(s, e);
    assert NodeOk(ContextOf(s), 0, s.nodes[0]);
    if e.ClientAppend? {
      assert !BringsDown(s, e, 0);
      MasterBegins(s, ClientOp(s, e), false, e.env);
    } else if e.SendCommitAck? {
      var a := s.nodes[0].app;
      if CanSendCommitAck(a) && e.env.leaseValid {
        MasterBegins(s, CommitAck(s, a), true, e.env.(replicationPos := 0, peer := a.peer));
      }
    } else if e.TakeReply? && e.node == 0 {
      assert !BringsDown(s, e, 0);
      MasterHears(s);
    } else {
      RestUnmoved(s, e);
      UnmovedKeeps(s.nodes[0], Step(s, e).nodes[0]);
    }
  }

  lemma RestUnmoved(s: System, e: Event)
    requires |s.nodes| > 0 && s.nodes[0].app.IsMaster() && !e.ClientAppend? && !e.SendCommitAck? && !(e.TakeReply? && e.node == 0)
    ensures |Step(s, e).nodes| > 0 && Unmoved(s.nodes[0], Step(s, e).nodes[0])
  {
    if e.Allocate? || e.Invalidate? || e.Reserve? { TableUnmoved(s, e); }
    else if e.Inquire? || e.ClientClose? { ClientUnmoved(s, e); }
    else if e.BeginStable? || e.MakeStable? || e.Finish? { StableUnmoved(s, e); }
    else if e.Deliver? || e.LinkDown? || e.TakeReply? { WireUnmoved(s, e); }
    else { LocalUnmoved(s, e); }
  }

  lemma {:induction false} RunSettled(chunkId: int, version: int, numServers: nat, start: seq<Byte>, events: seq<Event>)
    requires numServers > 0 && |start| <= CHUNKSIZE
    requires NoneDown(Run(Init(chunkId, version, numServers, start), events))
    ensures var s := Run(Init(chunkId, version, numServers, start), events); |s.nodes| > 0 && RowsSettled(s.nodes[0])
  {
    if events != [] {
      var before, e := events[..|events| - 1], events[|events| - 1];
      var s := Run(Init(chunkId, version, numServers, start), before);
      DownStays(s, e);
      Reachable(chunkId, version, numServers, start, before);
      RunSettled(chunkId, version, numServers, start, before);
      forall i: nat | i < |s.nodes| ensures !BringsDown(s, e, i) { DownIff(s, e, i); }
      StepSettled(s, e);
    }
  }

  /**
   A master that is not stable answers success exactly if it committed the append the inquiry is about; otherwise the
   answer is open, and never failure.
   */
  lemma MasterAnswerIff(s: System, w: int)
    requires Reached(s) && |s.nodes| > 0 && w in s.nodes[0].app.wids && !s.nodes[0].app.makeStableSucceeded
    requires s.nodes[0].app.wids[w].offset >= 0
    ensures var n, x := s.nodes[0], AnswerAt(s, 0, w);
      && w in n.last && About(ContextOf(s), x, n.last[w])
      && x.status == if n.last[w] < n.committed then Success else InProgress
  {
    var chunkId: int, version: int, numServers: nat, start: seq<Byte>, events: seq<Event> :|
      numServers > 0 && |start| <= CHUNKSIZE && s == Run(Init(chunkId, version, numServers, start), events);
    RunFrame(Init(chunkId, version, numServers, start), events);
    RunSettled(chunkId, version, numServers, start, events);
    RunKnows(chunkId, version, numServers, start, events, 0);
    RowFacts(s, 0, w);
    ReachedInv(s);
    var n := s.nodes[0];
    assert NodeOk(ContextOf(s), 0, n) && RowOk(ContextOf(s), n, w) && RowKnown(n.app, n.app.wids[w]);
    MasterResolves(n.app, w);
  }

  lemma MasterResolves(a: App, w: int)
    requires a.IsMaster() && w in a.wids && !a.makeStableSucceeded
    ensures var x := GetOpStatus(a, w).1.value;
      x.status == a.wids[w].status && x.offset == a.wids[w].offset && x.length == a.wids[w].length && x.writeId == w
  {
  }

  /**
   A client closes a write id exactly if it can still be used and the master committed its last append. The master then
   forgets the id, and tells its slaves how far it committed.
   */
  lemma ClientCloseIff(s: System, w: int)
    requires Reached(s) && |s.nodes| > 0 && w in s.nodes[0].app.wids && !s.nodes[0].app.makeStableSucceeded
    ensures var n, t := s.nodes[0], Step(s, ClientClose(w));
      var ws := n.app.wids[w];
      && |t.nodes| == |s.nodes|
      && (ws.offset >= 0 ==> w in n.last)
      && if !ws.readOnly && (ws.offset < 0 || n.last[w] < n.committed) then
           && t.nodes[0].app.wids == n.app.wids - {w} && t.closed == s.closed + {w}
           && (1 < |s.nodes| ==> t.nodes[1].inbox == s.nodes[1].inbox + [Close(w, n.app.nextCommit)])
         else t.nodes[0] == n && t.closed == s.closed
  {
    RowSettledIff(s, w);
    ClosesHere(s, w);
  }

  lemma ClosesHere(s: System, w: int)
    requires |s.nodes| > 0 && s.nodes[0].app.IsMaster() && w in s.nodes[0].app.wids
    ensures var n, t := s.nodes[0], Step(s, ClientClose(w));
      && |t.nodes| == |s.nodes|
      && if !n.app.wids[w].readOnly && n.app.wids[w].status.Success? then
           && t.nodes[0].app.wids == n.app.wids - {w} && t.closed == s.closed + {w}
           && (1 < |s.nodes| ==> t.nodes[1].inbox == s.nodes[1].inbox + [Close(w, n.app.nextCommit)])
         else t.nodes[0] == n && t.closed == s.closed
  {
    MasterCloses(s.nodes[0].app, w);
    CloseShape(s, w);
  }

  /** The last append with an id is over exactly if the master committed it. */
  lemma RowSettledIff(s: System, w: int)
    requires Reached(s) && |s.nodes| > 0 && w in s.nodes[0].app.wids && !s.nodes[0].app.makeStableSucceeded
    ensures var n := s.nodes[0];
      var ws := n.app.wids[w];
      && n.app.IsMaster() && (ws.offset >= 0 ==> w in n.last)
      && (ws.status.Success? <==> ws.offset < 0 || n.last[w] < n.committed)
  {
    ReachedInv(s);
    var n := s.nodes[0];
    assert NodeOk(ContextOf(s), 0, n) && RowOk(ContextOf(s), n, w);
    if n.app.wids[w].offset >= 0 {
      MasterAnswerIff(s, w);
      MasterResolves(n.app, w);
    }
  }

  lemma MasterCloses(a: App, w: int)
    requires a.IsMaster() && w in a.wids
    ensures var (b, st) := CloseWriteId(a, w, -1);
      && (st.Success? <==> a.wids[w].status.Success? && !a.wids[w].readOnly)
      && (if st.Success? then b.wids == a.wids - {w} && b.nextCommit == a.nextCommit else b == a)
  {
  }

  lemma CloseShape(s: System, w: int)
    requires |s.nodes| > 0
    ensures var t := StepClientClose(s, w); var (b, st) := CloseWriteId(s.nodes[0].app, w, -1);
      && |t.nodes| == |s.nodes| && t.nodes[0] == s.nodes[0].(app := b)
      && t.closed == (if st.Success? then s.closed + {w} else s.closed)
      && (1 < |s.nodes| && st.Success? ==> t.nodes[1].inbox == s.nodes[1].inbox + [Close(w, b.nextCommit)])
  {
  }
}
