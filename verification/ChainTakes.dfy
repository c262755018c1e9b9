/** Which appends get into the history and into the logs, in every state of every run. */
module ChainTakes {
  import opened Common
  import opened RecordAppender
  import opened Chain
  import opened ChainInvariant
  import opened ChainAppend
  import opened ChainSteps
  import opened ChainLinks
  import opened ChainReplies
  import opened ChainTheorems
  import opened ChainSafety
  import opened AppendAccept

  /** The servers other than `i` have the same log as before. */
  ghost predicate OtherLogsKept(s: System, t: System, i: nat) {
    |t.nodes| == |s.nodes| && forall j: nat | j < |s.nodes| && j != i :: t.nodes[j].app.log == s.nodes[j].app.log
  }

  lemma NodeFacts(s: System, i: nat)
    requires Inv(s) && i < |s.nodes|
    ensures var a := s.nodes[i].app; a.pos == i && a.numServers == |s.nodes| && a.version == s.version && a.peer == i + 1 && a.chunkId == s.nodes[0].app.chunkId
  {
    assert NodeOk(ContextOf(s), i, s.nodes[i]);
  }

  /** A commit writes nothing. */
  lemma CommitLog(a: App, op: Op, ok: bool)
    ensures Commit(a, op, ok).0.log == a.log
  {
    SetUntouched(a, ReplicationFailed);
  }

  lemma MasterAppendLog(a: App, op: Op, env: BeginEnv)
    requires a.IsMaster()
    ensures var b, r := Begin(a, op, false, env), AppendBegin(a, op, false, env).0;
      r.app.log == b.app.log && r.op == b.op && r.status == b.status && r.forwarded == b.forwarded && (b.forwarded ==> r.app == b.app)
  {
    var b := Begin(a, op, false, env);
    CommitLog(b.app, b.op, b.status.Success?);
  }

  /**
   A client's append enters the history, and the master's log, exactly if the master can take it. What is refused
   leaves no byte anywhere.
   */
  lemma ClientAppendIff(s: System, e: Event)
    requires Reached(s) && |s.nodes| > 0 && e.ClientAppend?
    ensures var a, t := s.nodes[0].app, Step(s, e);
      && OtherLogsKept(s, t, 0)
      && if MasterTakes(a, ClientOp(s, e), e.env) then
           && |t.hist| == |s.hist| + 1 && t.hist[..|s.hist|] == s.hist
           && t.nodes[0].app.log == a.log + e.data
           && var x := t.hist[|s.hist|];
           && x.data == e.data && x.writeId == e.writeId && x.version == e.version && x.fileOffset == a.nextOffset
           && (1 < |s.nodes| ==> t.nodes[1].inbox == s.nodes[1].inbox + [Append(x)])
         else t.hist == s.hist && t.nodes[0].app.log == a.log
  {
    ReachedInv(s);
    NodeFacts(s, 0);
    MasterBeginIff(s.nodes[0].app, ClientOp(s, e), e.env);
    MasterAppendLog(s.nodes[0].app, ClientOp(s, e), e.env);
    MasterShape(s, ClientOp(s, e), e.env);
  }

  lemma MasterShape(s: System, op: Op, env: BeginEnv)
    requires |s.nodes| > 0
    ensures var t, b := StepMaster(s, op, false, env), AppendBegin(s.nodes[0].app, op, false, env).0;
      && |t.nodes| == |s.nodes| && t.nodes[0].app == b.app
      && (forall j: nat | 0 < j < |s.nodes| :: t.nodes[j].app == s.nodes[j].app)
      && t.hist == (if b.status.Success? then s.hist + [b.op] else s.hist)
      && (b.forwarded && 1 < |s.nodes| ==> t.nodes[1].inbox == s.nodes[1].inbox + [Append(b.op)])
  {
  }

  // ----- a slave

  /** The slave can take the append that arrived: it is next, and it carries intact data of a free id, or no data. */
  predicate Ready(a: App, op: Op, checksumOk: bool, peerUp: bool) {
    && a.IsOpen() && op.fileOffset == a.nextOffset && a.nextOffset + |op.data| <= CHUNKSIZE
    && (a.pos + 1 < a.numServers ==> peerUp)
    && (op.IsAck() ||
        (checksumOk && op.writeId in a.wids &&
         var ws := a.wids[op.writeId];
         !ws.readOnly && (ws.status.Success? || (ws.status.InProgress? && ws.End() <= op.masterCommitted))))
  }

  lemma ReadyIsTakes(s: System, i: nat, op: Op, checksumOk: bool, peerUp: bool)
    requires Inv(s) && Arrives(s, i, op)
    ensures SlaveTakes(s.nodes[i].app, op, SlaveEnv(i, checksumOk, peerUp)) <==> Ready(s.nodes[i].app, op, checksumOk, peerUp)
    ensures op.id == s.nodes[i].received
  {
    ArrivalFacts(s, i, op);
    NodeFacts(s, i);
  }

  /** What the slave does with the append, apart from its appender. */
  lemma SlaveShape(s: System, i: nat, op: Op, checksumOk: bool, peerUp: bool)
    requires 0 < i < |s.nodes| && s.nodes[i].inbox != [] && s.nodes[i].inbox[0] == Append(op)
    ensures var t := Step(s, Deliver(i, checksumOk, peerUp));
      var (b, ok) := AppendBegin(s.nodes[i].app, op, false, SlaveEnv(i, checksumOk, peerUp));
      && |t.nodes| == |s.nodes| && t.nodes[i].app == b.app && t.hist == s.hist
      && (forall j: nat | j < |s.nodes| && j != i :: t.nodes[j].app == s.nodes[j].app)
      && (b.forwarded && i + 1 < |s.nodes| ==>
            t.nodes[i + 1].inbox == s.nodes[i + 1].inbox + [Append(op)] && t.nodes[i].outbox == s.nodes[i].outbox)
      && (!b.forwarded ==> t.nodes[i].outbox == s.nodes[i].outbox + [Reply(op.id, ok)])
  {
  }

  /** The slave took the append, and passed it on or answered it. */
  ghost predicate TakenAt(s: System, t: System, i: nat, op: Op)
    requires i < |s.nodes| == |t.nodes|
  {
    var n, m := s.nodes[i], t.nodes[i];
    && m.app.log == n.app.log + op.data
    && (i + 1 < |s.nodes| ==>
          && m.app.IsOpen() && m.app.inFlight == n.app.inFlight + [op] && m.outbox == n.outbox
          && t.nodes[i + 1].inbox == s.nodes[i + 1].inbox + [Append(op)])
    && (i + 1 == |s.nodes| ==>
          && m.outbox == n.outbox + [Reply(op.id, op.version == s.version)]
          && (if op.version == s.version then m.app.IsOpen() else m.app.aborted))
  }

  lemma DeliverOutcome(s: System, i: nat, op: Op, checksumOk: bool, peerUp: bool)
    requires Arrives(s, i, op)
    ensures var a, t := s.nodes[i].app, Step(s, Deliver(i, checksumOk, peerUp));
      && OtherLogsKept(s, t, i) && t.hist == s.hist
      && if Ready(a, op, checksumOk, peerUp) then TakenAt(s, t, i, op)
         else
           && t.nodes[i].app.log == a.log && !t.nodes[i].app.IsOpen()
           && t.nodes[i].outbox == s.nodes[i].outbox + [Reply(op.id, false)]
  {
    var env := SlaveEnv(i, checksumOk, peerUp);
    NodeFacts(s, i);
    ReadyIsTakes(s, i, op, checksumOk, peerUp);
    SlaveAppendIff(s.nodes[i].app, op, env);
    SlaveShape(s, i, op, checksumOk, peerUp);
    if i + 1 == |s.nodes| && Ready(s.nodes[i].app, op, checksumOk, peerUp) { TailAnswers(s, i, op, env); }
  }

  /**
   An append that arrives is taken, and passed on or answered, exactly if the slave is ready for it. A slave that is
   open and not ready refuses it, and leaves the chain.
   */
  lemma DeliverIff(s: System, i: nat, op: Op, checksumOk: bool, peerUp: bool)
    requires Reached(s) && 0 < i < |s.nodes| && s.nodes[i].inbox != [] && s.nodes[i].inbox[0] == Append(op)
    ensures var a, t := s.nodes[i].app, Step(s, Deliver(i, checksumOk, peerUp));
      && OtherLogsKept(s, t, i) && t.hist == s.hist
      && if Ready(a, op, checksumOk, peerUp) then TakenAt(s, t, i, op)
         else
           && t.nodes[i].app.log == a.log && !t.nodes[i].app.IsOpen()
           && t.nodes[i].outbox == s.nodes[i].outbox + [Reply(op.id, false)]
  {
    ReachedInv(s);
    DeliverOutcome(s, i, op, checksumOk, peerUp);
  }

  /** The last server commits at once what it takes, unless it is for another version. */
  lemma TailAnswers(s: System, i: nat, op: Op, env: BeginEnv)
    requires Arrives(s, i, op) && i + 1 == |s.nodes|
    requires env == SlaveEnv(i, env.checksumOk, env.peerUp) && SlaveTakes(s.nodes[i].app, op, env)
    ensures var (b, ok) := AppendBegin(s.nodes[i].app, op, false, env);
      b.app.log == s.nodes[i].app.log + op.data && (ok <==> op.version == s.version) && (ok ==> b.app.IsOpen()) && (b.app.aborted <==> !ok)
  {
    var c, n0 := ContextOf(s), s.nodes[i];
    var n := n0.(inbox := n0.inbox[1..], received := n0.received + 1);
    assert NodeOk(c, i, n0) && EndsOk(s);
    NodeWire(c, i, n0, n);
    ArrivalFacts(s, i, op);
    SlaveBeginIff(n.app, op, env);
    NodeFacts(s, i);
    CommitLog(Begin(n.app, op, false, env).app, op, true);
    if op.version == s.version { TailNode(c, i, n, op, env); } else { BegunAborts(n.app, op, env); BegunFails(n.app, op, env); }
  }

  lemma BegunFails(a: App, op: Op, env: BeginEnv)
    requires var b := Begin(a, op, false, env); !b.forwarded && b.app.IsOpen() && b.op == op && op.version != b.app.version
    ensures !AppendBegin(a, op, false, env).1
  {
  }

  // ----- damaged data

  /** Data that the master finds damaged gets nowhere. */
  lemma DamagedAtMaster(s: System, e: Event)
    requires Reached(s) && |s.nodes| > 0 && e.ClientAppend? && !e.env.checksumOk
    ensures var t := Step(s, e); t.hist == s.hist && OtherLogsKept(s, t, |s.nodes|)
  {
    ClientAppendIff(s, e);
  }

  /** Data that a slave finds damaged gets into no log, and the slave leaves the chain. */
  lemma DamagedAtSlave(s: System, i: nat, op: Op, peerUp: bool)
    requires Reached(s) && 0 < i < |s.nodes| && s.nodes[i].inbox != [] && s.nodes[i].inbox[0] == Append(op) && !op.IsAck()
    ensures var t := Step(s, Deliver(i, false, peerUp));
      t.hist == s.hist && OtherLogsKept(s, t, |s.nodes|) && !t.nodes[i].app.IsOpen()
  {
    DeliverIff(s, i, op, false, peerUp);
  }

  // ----- answers on their way back

  /** What an answer does: success commits the oldest append in flight, failure ends the server's part in the chain. */
  ghost predicate AnswerTaken(s: System, t: System, i: nat)
    requires i + 1 < |s.nodes| && s.nodes[i + 1].outbox != []
  {
    var n, r := s.nodes[i], s.nodes[i + 1].outbox[0];
    && |t.nodes| == |s.nodes| && t.hist == s.hist
    && (r.ok ==>
          && r.id == n.committed < |s.hist| && n.app.inFlight != [] && n.app.inFlight[0] == s.hist[n.committed]
          && t.nodes[i].committed == n.committed + 1 && t.nodes[i].app.IsOpen() && t.nodes[i].app.inFlight == n.app.inFlight[1..]
          && t.nodes[i].app.nextCommit == n.app.nextCommit + |s.hist[n.committed].data| && t.nodes[i].app.log == n.app.log && t.nodes[i].app.ackSent == n.app.ackSent
          && t.nodes[i].outbox == (if i == 0 then n.outbox else n.outbox + [Reply(r.id, true)]))
    && (!r.ok && Find(n.app.inFlight, r.id) < |n.app.inFlight| ==>
          && t.nodes[i].committed == n.committed && !t.nodes[i].app.IsOpen() && t.nodes[i].app.nextCommit == n.app.nextCommit
          && t.nodes[i].outbox == (if i == 0 then n.outbox else n.outbox + [Reply(r.id, false)]))
    && (forall j: nat | j < |s.nodes| && j != i :: t.nodes[j].app == s.nodes[j].app && t.nodes[j].inbox == s.nodes[j].inbox)
    && t.nodes[i + 1].outbox == s.nodes[i + 1].outbox[1..]
    && (forall j: nat | j < |s.nodes| && j != i && j != i + 1 :: t.nodes[j] == s.nodes[j])
  }

  lemma AnswerOutcome(s: System, i: nat)
    requires Inv(s) && i + 1 < |s.nodes| && s.nodes[i + 1].outbox != [] && s.nodes[i].app.IsOpen() && !ReplyKills(s, i)
    ensures AnswerTaken(s, Step(s, TakeReply(i)), i)
  {
    var n, r := s.nodes[i], s.nodes[i + 1].outbox[0];
    var k := Find(n.app.inFlight, r.id);
    if r.ok {
      OldestAnswered(s, i);
      CommitShape(n.app, n.app.inFlight[0]);
      ReplyShape(s, i, 0);
    } else if k < |n.app.inFlight| {
      ReplyShape(s, i, k);
      FailShape(n.app, n.app.inFlight[k]);
    }
  }

  /**
   What an answer does to an open server that it does not bring down. Success commits the oldest append in flight,
   which is the one it is about, and goes on to the next server; failure ends the server's part in the chain.
   */
  lemma ReplyOutcome(s: System, i: nat)
    requires Reached(s) && i + 1 < |s.nodes| && s.nodes[i + 1].outbox != [] && s.nodes[i].app.IsOpen() && !ReplyKills(s, i)
    ensures AnswerTaken(s, Step(s, TakeReply(i)), i)
  {
    ReachedInv(s);
    AnswerOutcome(s, i);
  }

  /** A success is about the oldest append in flight, which can be committed. */
  lemma OldestAnswered(s: System, i: nat)
    requires Inv(s) && i + 1 < |s.nodes| && s.nodes[i + 1].outbox != [] && s.nodes[i].app.IsOpen()
    requires s.nodes[i + 1].outbox[0].ok && !ReplyKills(s, i)
    ensures var n, r := s.nodes[i], s.nodes[i + 1].outbox[0];
      && r.id == n.committed < |s.hist| && n.app.inFlight != [] && n.app.inFlight[0] == s.hist[n.committed]
      && Find(n.app.inFlight, r.id) == 0 && !CommitInvalid(n.app, n.app.inFlight[0])
  {
    var c, n, down := ContextOf(s), s.nodes[i], s.nodes[i + 1];
    assert NodeOk(c, i, n) && NodeOk(c, i + 1, down) && LinkOk(c, i, n, down);
    ReplyFacts(c, i, n, down);
    CommitInvalidIff(c, i, n);
  }

  lemma CommitShape(a: App, op: Op)
    requires a.IsOpen() && a.inFlight != [] && op == a.inFlight[0] && !CommitInvalid(a, op)
    ensures var (b, ok) := OpDone(a, op, true);
      && ok && b.IsOpen() && b.inFlight == a.inFlight[1..] && b.log == a.log && b.ackSent == a.ackSent
      && b.nextCommit == a.nextCommit + |op.data|
      && (a.IsMaster() && !op.IsAck() ==> op.writeId in b.wids && b.wids[op.writeId].status.Success?)
  {
  }

  lemma FailShape(a: App, op: Op)
    requires a.IsOpen()
    ensures var (b, ok) := OpDone(a, op, false); !ok && !b.IsOpen() && b.nextCommit == a.nextCommit
  {
    SetUntouched(a.(inFlight := Without(a.inFlight, op.id)), ReplicationFailed);
  }
}
