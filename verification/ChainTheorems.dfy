/** What holds in every state the replication chain can reach. */
module ChainTheorems {
  import opened Common
  import opened RecordAppender
  import opened Chain
  import opened ChainInvariant
  import opened ChainQuiet
  import opened ChainAppend
  import opened ChainLinks
  import opened ChainSteps
  import opened ChainReplies
  import opened ChainMaster
  import opened ChainAccept
  import ChainLimits

  // ----- steps that bring a server down

  /** The op a client's append starts out as. */
  function ClientOp(s: System, e: Event): Op
    requires |s.nodes| > 0 && e.ClientAppend?
  {
    Op(|s.hist|, s.nodes[0].app.chunkId, e.version, |s.nodes|, e.writeId, e.data, -1, -1, e.clientSeq)
  }

  /** Node `i` hears that its oldest append in flight succeeded, and must not commit it. */
  predicate ReplyKills(s: System, i: nat) {
    && i + 1 < |s.nodes| && s.nodes[i].app.IsOpen() && s.nodes[i + 1].outbox != [] && s.nodes[i + 1].outbox[0].ok
    && s.nodes[i].committed < |s.hist| && Fatal(s.nodes[i], s.hist[s.nodes[i].committed])
  }

  /**
   The step makes server `i` commit an append of another version of the chunk, or one without data that an inquiry
   at this server has settled.
   */
  predicate BringsDown(s: System, e: Event, i: nat) {
    match e
    case TakeReply(j) => i == j && ReplyKills(s, i)
    case Deliver(j, checksumOk, peerUp) => i == j && TailDies(s, i, checksumOk, peerUp)
    case ClientAppend(_, _, _, _, env) => i == 0 && |s.nodes| > 0 && AloneDies(s, ClientOp(s, e), false, env)
    case _ => false
  }

  predicate Harmless(s: System, e: Event) {
    forall i: nat | i < |s.nodes| :: !BringsDown(s, e, i)
  }

  // ----- every other step keeps the invariant

  lemma InitOk(chunkId: int, version: int, numServers: nat, start: seq<Byte>)
    requires numServers > 0 && |start| <= CHUNKSIZE
    ensures Inv(Init(chunkId, version, numServers, start))
  {
    var s := Init(chunkId, version, numServers, start);
    var c := ContextOf(s);
    assert LogAt(c, 0) == start;
    forall i: nat | i < |s.nodes| ensures NodeOk(c, i, s.nodes[i]) {}
    forall i: nat | i + 1 < |s.nodes| ensures LinkOk(c, i, s.nodes[i], s.nodes[i + 1]) {}
  }

  lemma DeliverKeeps(s: System, i: nat, checksumOk: bool, peerUp: bool)
    requires Inv(s) && !TailDies(s, i, checksumOk, peerUp)
    ensures Inv(StepDeliver(s, i, checksumOk, peerUp))
  {
    if 0 < i < |s.nodes| && s.nodes[i].inbox != [] {
      match s.nodes[i].inbox[0]
      case Append(op) => DeliverAppend(s, i, op, checksumOk, peerUp);
      case Close(w, mc) => DeliverClose(s, i, w, mc, checksumOk, peerUp);
    }
  }

  lemma ReplyKeeps(s: System, i: nat)
    requires Inv(s) && !ReplyKills(s, i)
    ensures Inv(StepReply(s, i))
  {
    if i + 1 < |s.nodes| && s.nodes[i + 1].outbox != [] {
      var c, n, down := ContextOf(s), s.nodes[i], s.nodes[i + 1];
      var k := Find(n.app.inFlight, down.outbox[0].id);
      assert NodeOk(c, i, n) && NodeOk(c, i + 1, down) && LinkOk(c, i, n, down);
      if n.app.IsOpen() && down.outbox[0].ok {
        ReplyFacts(c, i, n, down);
        if i == 0 { MasterReplyCommits(s); } else { ReplyCommits(s, i); }
      } else if k == |n.app.inFlight| {
        ReplyDropped(s, i);
      } else {
        if i == 0 { MasterReplyFails(s, k); } else { ReplyFails(s, i, k); }
      }
    }
  }

  lemma LinkDownKeeps(s: System, i: nat, keep: nat)
    requires Inv(s)
    ensures Inv(StepLinkDown(s, i, keep))
  {
    if i + 1 < |s.nodes| {
      if s.nodes[i].app.inFlight == [] { BreakQuiet(s, i, keep); }
      else if i == 0 { MasterBreakFails(s, keep); }
      else { BreakFails(s, i, keep); }
    }
  }

  lemma InquireKeeps(s: System, i: nat, w: int)
    requires Inv(s)
    ensures Inv(StepInquire(s, i, w))
  {
    if i < |s.nodes| && w in s.nodes[i].app.wids {
      InquireNode(s, i, w);
      var n := s.nodes[i];
      var (a, x) := GetOpStatus(n.app, w);
      var m := n.(app := a, inquired := if w in n.inquired then n.inquired else n.inquired[w := n.begun]);
      var t := s.(nodes := s.nodes[i := m], answers := s.answers + {x.value});
      assert StepInquire(s, i, w) == t;
      MetaKept(s, t);
      QuietStep(s, t, i, m);
      InvSame(t, StepInquire(s, i, w));
    }
  }

  lemma DecideKeeps(s: System, d: Decision)
    requires Inv(s) && s.decision.None? && MetaOk(s.(decision := Some(d)))
    ensures Inv(s.(decision := Some(d)))
  {
    var t := s.(decision := Some(d));
    var b, c := ContextOf(s), ContextOf(t);
    HistGrows(b, c);
    forall i: nat | i < |t.nodes| ensures NodeOk(c, i, t.nodes[i]) { NodeGrows(b, c, i, s.nodes[i]); }
    forall i: nat | i + 1 < |t.nodes| ensures LinkOk(c, i, t.nodes[i], t.nodes[i + 1]) {
      LinkGrows(b, c, i, s.nodes[i], s.nodes[i + 1]);
    }
    forall x | x in t.answers ensures AnswerOk(c, x) { AnswerGrows(b, c, x); }
  }

  lemma BeginStableKeeps(s: System, i: nat, version: int, ioInFlight: bool)
    requires Inv(s)
    ensures Inv(StepBeginStable(s, i, version, ioInFlight))
  {
    if i < |s.nodes| {
      var c, n := ContextOf(s), s.nodes[i];
      assert NodeOk(c, i, n);
      BeginStableNode(c, i, n, version, ioInFlight);
      var (a, r) := BeginMakeStable(n.app, version, ioInFlight);
      var t := WithApp(s, i, a).(reports := if r.Size? then s.reports[i := r.size] else s.reports);
      assert StepBeginStable(s, i, version, ioInFlight) == t;
      ReportsKept(s, t, i, a, r);
      QuietStep(s, t, i, n.(app := a));
      InvSame(t, StepBeginStable(s, i, version, ioInFlight));
    }
  }

  /** A new report is the commit offset of the node that made it. */
  lemma ReportsKept(s: System, t: System, i: nat, a: App, r: BeginReply)
    requires |s.nodes| > 0 && MetaOk(s) && i < |s.nodes| && Quiet(s.nodes[i], s.nodes[i].(app := a))
    requires t == WithApp(s, i, a).(reports := if r.Size? then s.reports[i := r.size] else s.reports)
    requires r.Size? ==> r.size == s.nodes[i].app.nextCommit && !a.IsOpen()
    ensures |t.nodes| > 0 && MetaOk(t)
  {
  }

  lemma FinishKeeps(s: System, i: nat, written: nat, ioOk: bool)
    requires Inv(s)
    ensures Inv(StepFinish(s, i, written, ioOk))
  {
    if i < |s.nodes| && written <= |s.nodes[i].app.log| {
      var c, n := ContextOf(s), s.nodes[i];
      assert NodeOk(c, i, n);
      FinishNode(c, i, n, written, ioOk);
      var (a, r) := FinishStable(n.app, written, ioOk);
      MetaKept(s, WithApp(s, i, a));
      QuietStep(s, StepFinish(s, i, written, ioOk), i, n.(app := a));
    }
  }

  lemma AllocateKeeps(s: System, e: Event)
    requires Inv(s) && e.Allocate?
    ensures Inv(Step(s, e))
  {
    var c, i, w := ContextOf(s), e.node, e.request.writeId;
    if i < |s.nodes| && w >= 0 && w !in s.nodes[i].issued {
      var n := s.nodes[i];
      assert NodeOk(c, i, n);
      AllocateNode(c, i, n, e.request, e.maxWriteIds);
      var m := n.(app := AllocateWriteId(n.app, e.request, e.maxWriteIds, true).0, issued := n.issued + {w});
      var t := s.(nodes := s.nodes[i := m]);
      MetaKept(s, t);
      QuietStep(s, t, i, m);
      assert Step(s, e) == t;
      InvSame(t, Step(s, e));
    }
  }

  lemma FailKeeps(s: System, e: Event)
    requires Inv(s) && e.Fail?
    ensures Inv(Step(s, e))
  {
    if e.node < |s.nodes| && s.nodes[e.node].app.IsOpen() {
      var n := s.nodes[e.node];
      assert NodeOk(ContextOf(s), e.node, n);
      FailNode(ContextOf(s), e.node, n);
      QuietApp(s, e.node, SetState(n.app, ReplicationFailed));
      assert Step(s, e) == WithApp(s, e.node, SetState(n.app, ReplicationFailed));
    }
  }

  lemma IdleCloseKeeps(s: System, e: Event)
    requires Inv(s) && e.IdleClose?
    ensures Inv(Step(s, e))
  {
    if CanIdleClose(s.nodes[0].app) {
      var n := s.nodes[0];
      assert NodeOk(ContextOf(s), 0, n);
      IdleCloseNode(ContextOf(s), n);
      QuietApp(s, 0, TryToCloseFailed(n.app));
      assert Step(s, e) == WithApp(s, 0, TryToCloseFailed(n.app));
    }
  }

  lemma InvalidateKeeps(s: System, e: Event)
    requires Inv(s) && e.Invalidate?
    ensures Inv(Step(s, e))
  {
    if e.node < |s.nodes| {
      var n := s.nodes[e.node];
      assert NodeOk(ContextOf(s), e.node, n);
      InvalidateNode(ContextOf(s), e.node, n, e.writeId, e.declareFailure);
      QuietApp(s, e.node, InvalidateWriteId(n.app, e.writeId, e.declareFailure).0);
      assert Step(s, e) == WithApp(s, e.node, InvalidateWriteId(n.app, e.writeId, e.declareFailure).0);
    }
  }

  lemma ReserveKeeps(s: System, e: Event)
    requires Inv(s) && e.Reserve?
    ensures Inv(Step(s, e))
  {
    if |s.nodes| > 0 {
      var n := s.nodes[0];
      assert NodeOk(ContextOf(s), 0, n);
      ReserveNode(ContextOf(s), n, e.writeId, e.bytes, e.release);
      QuietApp(s, 0, ChangeReservation(n.app, e.writeId, e.bytes, e.release, true).0);
      assert Step(s, e) == WithApp(s, 0, ChangeReservation(n.app, e.writeId, e.bytes, e.release, true).0);
    }
  }

  lemma MakeStableKeeps(s: System, e: Event)
    requires Inv(s) && e.MakeStable?
    ensures Inv(Step(s, e))
  {
    if e.node < |s.nodes| && s.decision.Some? {
      var n := s.nodes[e.node];
      assert NodeOk(ContextOf(s), e.node, n);
      RequestStableNode(ContextOf(s), e.node, n);
      QuietApp(s, e.node, RequestStable(n.app, s.decision.value.size));
      assert Step(s, e) == WithApp(s, e.node, RequestStable(n.app, s.decision.value.size));
    }
  }

  lemma LoseKeeps(s: System, e: Event)
    requires Inv(s) && e.Lose?
    ensures Inv(Step(s, e))
  {
    if e.node < |s.nodes| {
      var n := s.nodes[e.node];
      assert NodeOk(ContextOf(s), e.node, n);
      LoseNode(ContextOf(s), e.node, n);
      QuietApp(s, e.node, SetState(n.app, ChunkLost));
      assert Step(s, e) == WithApp(s, e.node, SetState(n.app, ChunkLost));
    }
  }

  lemma DeleteKeeps(s: System, e: Event)
    requires Inv(s) && e.Delete?
    ensures Inv(Step(s, e))
  {
    if e.node < |s.nodes| {
      var n := s.nodes[e.node];
      assert NodeOk(ContextOf(s), e.node, n);
      DeleteNode(ContextOf(s), e.node, n);
      QuietApp(s, e.node, SetState(n.app.(wids := map[]), PendingDelete));
      assert Step(s, e) == WithApp(s, e.node, SetState(n.app.(wids := map[]), PendingDelete));
    }
  }

  lemma AppendKeeps(s: System, e: Event)
    requires Inv(s) && (e.ClientAppend? || e.SendCommitAck?) && !BringsDown(s, e, 0)
    ensures Inv(Step(s, e))
  {
    var a := s.nodes[0].app;
    assert NodeOk(ContextOf(s), 0, s.nodes[0]);
    if e.ClientAppend? {
      MasterAppend(s, ClientOp(s, e), false, e.env);
      InvSame(StepMaster(s, ClientOp(s, e), false, e.env), Step(s, e));
    } else if CanSendCommitAck(a) && e.env.leaseValid {
      var env := e.env.(replicationPos := 0, peer := a.peer);
      MasterAppend(s, CommitAck(s, a), true, env);
      InvSame(StepMaster(s, CommitAck(s, a), true, env), Step(s, e));
    }
  }

  lemma MetaKeeps(s: System, e: Event)
    requires Inv(s) && (e.DecideRelinquished? || e.DecideShortest?)
    ensures Inv(Step(s, e))
  {
    var t := Step(s, e);
    if t != s { DecideKeeps(s, t.decision.value); }
  }

  /** No step changes the number of servers, the version or the initial content. */
  lemma StepFrame(s: System, e: Event)
    ensures Step(s, e).version == s.version && |Step(s, e).nodes| == |s.nodes| && Step(s, e).start == s.start
  {
  }

  lemma SystemKeeps(s: System, e: Event)
    requires Inv(s) && (e.Deliver? || e.TakeReply? || e.LinkDown?)
    requires (e.Deliver? ==> !TailDies(s, e.node, e.checksumOk, e.peerUp)) && (e.TakeReply? ==> !ReplyKills(s, e.node))
    ensures Inv(Step(s, e))
  {
    if e.Deliver? { DeliverKeeps(s, e.node, e.checksumOk, e.peerUp); }
    else if e.TakeReply? { ReplyKeeps(s, e.node); }
    else { LinkDownKeeps(s, e.node, e.keep); }
  }

  lemma ClientKeeps(s: System, e: Event)
    requires Inv(s) && (e.Inquire? || e.ClientClose?)
    ensures Inv(Step(s, e))
  {
    if e.Inquire? { InquireKeeps(s, e.node, e.writeId); } else { MasterCloses(s, e.writeId); }
  }

  lemma StableKeeps(s: System, e: Event)
    requires Inv(s) && (e.BeginStable? || e.Finish?)
    ensures Inv(Step(s, e))
  {
    if e.BeginStable? { BeginStableKeeps(s, e.node, e.version, e.ioInFlight); } else { FinishKeeps(s, e.node, e.written, e.ioOk); }
  }

  /** Every step that brings no server down keeps the invariant, whatever clients send. */
  lemma StepKeeps(s: System, e: Event)
    requires Inv(s) && Harmless(s, e)
    ensures Inv(Step(s, e))
  {
    match e
    case ClientAppend(_, _, _, _, _) => assert !BringsDown(s, e, 0); AppendKeeps(s, e);
    case SendCommitAck(_) => assert !BringsDown(s, e, 0); AppendKeeps(s, e);
    case Deliver(i, _, _) => HarmlessAt(s, e, i); SystemKeeps(s, e);
    case TakeReply(i) => HarmlessAt(s, e, i); SystemKeeps(s, e);
    case LinkDown(_, _) => SystemKeeps(s, e);
    case Fail(_) => FailKeeps(s, e);
    case IdleClose => IdleCloseKeeps(s, e);
    case Allocate(_, _, _) => AllocateKeeps(s, e);
    case Invalidate(_, _, _) => InvalidateKeeps(s, e);
    case Reserve(_, _, _) => ReserveKeeps(s, e);
    case Inquire(_, _) => ClientKeeps(s, e);
    case ClientClose(_) => ClientKeeps(s, e);
    case BeginStable(_, _, _) => StableKeeps(s, e);
    case MakeStable(_) => MakeStableKeeps(s, e);
    case Finish(_, _, _) => StableKeeps(s, e);
    case DecideRelinquished => MetaKeeps(s, e);
    case DecideShortest(_, _) => MetaKeeps(s, e);
    case Lose(_) => LoseKeeps(s, e);
    case Delete(_) => DeleteKeeps(s, e);
  }

  lemma HarmlessAt(s: System, e: Event, i: nat)
    requires Harmless(s, e) && (e.Deliver? || e.TakeReply?) && e.node == i
    ensures e.Deliver? ==> !TailDies(s, i, e.checksumOk, e.peerUp)
    ensures e.TakeReply? ==> !ReplyKills(s, i)
  {
    if i < |s.nodes| { assert !BringsDown(s, e, i); }
  }

  // ----- those that do

  /** The appenders of all other servers stay as they are. */
  ghost predicate OnlyDown(s: System, t: System, i: nat) {
    && i < |s.nodes| && |t.nodes| == |s.nodes| && t.nodes[i].app.aborted
    && forall j: nat | j < |s.nodes| && j != i :: t.nodes[j].app == s.nodes[j].app
  }

  lemma ReplyKillsOne(s: System, i: nat)
    requires Inv(s) && ReplyKills(s, i)
    ensures OnlyDown(s, StepReply(s, i), i)
  {
    var c, n, down := ContextOf(s), s.nodes[i], s.nodes[i + 1];
    assert NodeOk(c, i, n) && NodeOk(c, i + 1, down) && LinkOk(c, i, n, down);
    ReplyFacts(c, i, n, down);
    CommitInvalidIff(c, i, n);
    ReplyShape(s, i, 0);
    InvalidAborts(n.app, n.app.inFlight[0]);
  }

  lemma InvalidAborts(a: App, op: Op)
    requires a.IsOpen() && CommitInvalid(a, op)
    ensures OpDone(a, op, true).0.aborted
  {
  }

  lemma TailKillsOne(s: System, i: nat, checksumOk: bool, peerUp: bool)
    requires Inv(s) && TailDies(s, i, checksumOk, peerUp)
    ensures OnlyDown(s, StepDeliver(s, i, checksumOk, peerUp), i)
  {
    var c, n0, op, env := ContextOf(s), s.nodes[i], s.nodes[i].inbox[0].op, SlaveEnv(i, checksumOk, peerUp);
    var n := n0.(inbox := n0.inbox[1..], received := n0.received + 1);
    assert NodeOk(c, i, n0) && EndsOk(s);
    NodeWire(c, i, n0, n);
    ArrivalFacts(s, i, op);
    var took := TailTakes(c, i, n, op, env);
    BegunAborts(n.app, op, env);
    DeliverShape(s, i, op, checksumOk, peerUp, n);
  }

  lemma BegunAborts(a: App, op: Op, env: BeginEnv)
    requires var b := Begin(a, op, false, env);
      b.status.Success? && !b.forwarded && b.app.IsOpen() && b.op.version != b.app.version
    ensures var (b, ok) := AppendBegin(a, op, false, env); !b.forwarded && b.app.aborted && b.status.Success?
  {
  }

  lemma AloneKillsOne(s: System, op: Op, env: BeginEnv)
    requires Inv(s) && AloneDies(s, op, false, env) && AtMaster(s.nodes[0].app, op, false, env)
    ensures OnlyDown(s, StepMaster(s, op, false, env), 0)
  {
    var n := s.nodes[0];
    assert NodeOk(ContextOf(s), 0, n);
    MasterAccepts(n.app, op, false, env);
    BegunAborts(n.app, op, env);
  }

  lemma KillsOne(s: System, e: Event, i: nat)
    requires Inv(s) && i < |s.nodes| && BringsDown(s, e, i)
    ensures OnlyDown(s, Step(s, e), i)
  {
    match e
    case TakeReply(j) => ReplyKillsOne(s, i);
    case Deliver(j, checksumOk, peerUp) => TailKillsOne(s, i, checksumOk, peerUp);
    case ClientAppend(_, _, _, _, env) =>
      assert NodeOk(ContextOf(s), 0, s.nodes[0]);
      AloneKillsOne(s, ClientOp(s, e), env);
  }

  /** Exactly which steps bring a server down, from any state in which none is. */
  lemma DownIff(s: System, e: Event, i: nat)
    requires Inv(s) && i < |s.nodes|
    ensures |Step(s, e).nodes| == |s.nodes|
    ensures Step(s, e).nodes[i].app.aborted <==> BringsDown(s, e, i)
  {
    StepFrame(s, e);
    if Harmless(s, e) {
      StepKeeps(s, e);
      assert NodeOk(ContextOf(Step(s, e)), i, Step(s, e).nodes[i]);
    } else {
      var j: nat :| j < |s.nodes| && BringsDown(s, e, j);
      KillsOne(s, e, j);
      assert NodeOk(ContextOf(s), i, s.nodes[i]);
    }
  }

  // ----- runs

  predicate NoneDown(s: System) {
    forall i: nat | i < |s.nodes| :: !s.nodes[i].app.aborted
  }

  lemma DownStays(s: System, e: Event)
    requires NoneDown(Step(s, e))
    ensures NoneDown(s)
  {
    StepFrame(s, e);
    forall i: nat | i < |s.nodes| ensures !s.nodes[i].app.aborted { ChainLimits.PhasesOnlyMoveUp(s, e, i); }
  }

  lemma RunFrame(s: System, events: seq<Event>)
    ensures var t := Run(s, events); t.version == s.version && |t.nodes| == |s.nodes| && t.start == s.start
  {
    if events != [] { StepFrame(Run(s, events[..|events| - 1]), events[|events| - 1]); }
  }

  /** The invariant holds in every state of every run, as long as no server went down. */
  lemma {:induction false} Reachable(chunkId: int, version: int, numServers: nat, start: seq<Byte>, events: seq<Event>)
    requires numServers > 0 && |start| <= CHUNKSIZE
    requires NoneDown(Run(Init(chunkId, version, numServers, start), events))
    ensures Inv(Run(Init(chunkId, version, numServers, start), events))
  {
    if events == [] {
      InitOk(chunkId, version, numServers, start);
    } else {
      var s, e := Run(Init(chunkId, version, numServers, start), events[..|events| - 1]), events[|events| - 1];
      DownStays(s, e);
      Reachable(chunkId, version, numServers, start, events[..|events| - 1]);
      forall i: nat | i < |s.nodes| ensures !BringsDown(s, e, i) { DownIff(s, e, i); }
      StepKeeps(s, e);
    }
  }
}
