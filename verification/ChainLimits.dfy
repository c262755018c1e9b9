/** Where the protocol's promises end, and the order of an appender's phases. */
module ChainLimits {
  import opened Common
  import opened RecordAppender
  import opened Chain

  // ----- phases only move up

  /** In the same phase or a later one, and still down if it ever was. */
  predicate Later(a: App, b: App) {
    Rank(a.phase) <= Rank(b.phase) && (a.aborted ==> b.aborted)
  }

  lemma BeginUp(a: App, op: Op, internal: bool, env: BeginEnv)
    ensures Later(a, Begin(a, op, internal, env).app)
  {
    var b := CheckLease(a, env.leaseValid);
    if BeginCheck(b, op, internal, env).Success? { PlaceUp(b, op, internal, env); }
  }

  lemma PlaceUp(a: App, op: Op, internal: bool, env: BeginEnv)
    requires a.IsOpen()
    ensures Later(a, Place(a, op, internal, env).app)
  {
    PlaceDataUp(a, op, env.checksumOk);
  }

  lemma PlaceDataUp(a: App, op: Op, checksumOk: bool)
    requires a.IsOpen()
    ensures Later(a, PlaceData(a, op, checksumOk).app)
  {
  }

  lemma AppendUp(a: App, op: Op, internal: bool, env: BeginEnv)
    ensures Later(a, AppendBegin(a, op, internal, env).0.app)
  {
    BeginUp(a, op, internal, env);
  }

  lemma BeginMakeUp(a: App, version: int, ioInFlight: bool)
    ensures Later(a, BeginMakeStable(a, version, ioInFlight).0)
  {
  }

  lemma ConvergeUp(a: App, size: nat, written: nat, ioOk: bool)
    ensures Later(a, RequestStable(a, size))
    ensures written <= |a.log| ==> Later(a, FinishStable(a, written, ioOk).0)
  {
  }

  lemma TableUp(a: App, w: int, mc: int, n: nat, flag: bool)
    ensures Later(a, InvalidateWriteId(a, w, flag).0)
    ensures Later(a, ChangeReservation(a, w, n, flag, true).0)
    ensures Later(a, GetOpStatus(a, w).0)
    ensures Later(a, CloseWriteId(a, w, mc).0)
  {
    CheckLeaseUp(a, true);
    CloseUp(a, w, mc);
  }

  lemma CloseUp(a: App, w: int, mc: int)
    ensures Later(a, CloseWriteId(a, w, mc).0)
  {
  }

  lemma AllocateUp(a: App, r: WriteIdRequest, max: nat)
    ensures Later(a, AllocateWriteId(a, r, max, true).0)
  {
    CheckLeaseUp(a, true);
  }

  lemma CheckLeaseUp(a: App, leaseValid: bool)
    ensures Later(a, CheckLease(a, leaseValid))
  {
  }

  lemma MasterUp(s: System, op: Op, internal: bool, env: BeginEnv, j: nat)
    requires j < |s.nodes|
    ensures var t := StepMaster(s, op, internal, env);
      j < |t.nodes| && Later(s.nodes[j].app, t.nodes[j].app)
  {
    AppendUp(s.nodes[0].app, op, internal, env);
  }

  lemma DeliverUp(s: System, i: nat, checksumOk: bool, peerUp: bool, j: nat)
    requires j < |s.nodes|
    ensures var t := StepDeliver(s, i, checksumOk, peerUp);
      j < |t.nodes| && Later(s.nodes[j].app, t.nodes[j].app)
  {
    if 0 < i < |s.nodes| && s.nodes[i].inbox != [] {
      var n := s.nodes[i];
      match n.inbox[0]
      case Append(op) =>
        var t := s.(nodes := s.nodes[i := n.(inbox := n.inbox[1..], received := n.received + 1)]);
        assert StepDeliver(s, i, checksumOk, peerUp) == StepAppend(t, i, op, checksumOk, peerUp);
        SlaveUp(t, i, op, checksumOk, peerUp, j);
      case Close(w, mc) => CloseUp(n.app, w, mc);
    }
  }

  lemma SlaveUp(s: System, i: nat, op: Op, checksumOk: bool, peerUp: bool, j: nat)
    requires 0 < i < |s.nodes| && j < |s.nodes|
    ensures var t := StepAppend(s, i, op, checksumOk, peerUp);
      |t.nodes| == |s.nodes| && Later(s.nodes[j].app, t.nodes[j].app)
  {
    AppendUp(s.nodes[i].app, op, false, BeginEnv(i, i + 1, true, checksumOk, peerUp, None));
  }

  lemma CommitUp(a: App, op: Op, ok: bool)
    ensures Later(a, Commit(a, op, ok).0)
  {
  }

  lemma AnswerUp(s: System, i: nat, keep: nat, j: nat)
    requires j < |s.nodes|
    ensures |StepReply(s, i).nodes| == |StepLinkDown(s, i, keep).nodes| == |s.nodes|
    ensures Later(s.nodes[j].app, StepReply(s, i).nodes[j].app)
    ensures Later(s.nodes[j].app, StepLinkDown(s, i, keep).nodes[j].app)
  {
    if i + 1 < |s.nodes| {
      var a := s.nodes[i].app;
      if a.inFlight != [] { CommitUp(a.(inFlight := []), a.inFlight[0], false); }
      if s.nodes[i + 1].outbox != [] {
        var r := s.nodes[i + 1].outbox[0];
        var k := Find(a.inFlight, r.id);
        if k < |a.inFlight| { CommitUp(a.(inFlight := Without(a.inFlight, a.inFlight[k].id)), a.inFlight[k], r.ok); }
      }
    }
  }

  /** Node `j` is in the same phase after the step, or in a later one, and still down if it was. */
  predicate MovesUp(s: System, t: System, j: nat) {
    j < |s.nodes| && j < |t.nodes| && Later(s.nodes[j].app, t.nodes[j].app)
  }

  lemma AppStepUp(s: System, e: Event, j: nat)
    requires j < |s.nodes| && (e.ClientAppend? || e.SendCommitAck?)
    ensures MovesUp(s, Step(s, e), j)
  {
    var a := s.nodes[0].app;
    if e.ClientAppend? {
      MasterUp(s, Op(|s.hist|, a.chunkId, e.version, |s.nodes|, e.writeId, e.data, -1, -1, e.clientSeq), false, e.env, j);
    } else {
      MasterUp(s, CommitAck(s, a), true, e.env.(replicationPos := 0, peer := a.peer), j);
    }
  }

  lemma WireStepUp(s: System, e: Event, j: nat)
    requires j < |s.nodes| && (e.Deliver? || e.TakeReply? || e.LinkDown?)
    ensures MovesUp(s, Step(s, e), j)
  {
    match e
    case Deliver(i, checksumOk, peerUp) => DeliverUp(s, i, checksumOk, peerUp, j);
    case TakeReply(i) => AnswerUp(s, i, 0, j);
    case LinkDown(i, keep) => AnswerUp(s, i, keep, j);
  }

  lemma TableStepUp(s: System, e: Event, j: nat)
    requires j < |s.nodes| && (e.Allocate? || e.Invalidate? || e.Reserve?)
    ensures MovesUp(s, Step(s, e), j)
  {
    match e
    case Allocate(i, r, max) => AllocateUp(s.nodes[j].app, r, max);
    case Invalidate(i, w, declare) => TableUp(s.nodes[j].app, w, 0, 0, declare);
    case Reserve(w, n, release) => TableUp(s.nodes[j].app, w, 0, n, release);
  }

  lemma ClientStepUp(s: System, e: Event, j: nat)
    requires j < |s.nodes| && (e.Inquire? || e.ClientClose?)
    ensures MovesUp(s, Step(s, e), j)
  {
    TableUp(s.nodes[j].app, e.writeId, -1, 0, true);
  }

  lemma StableStepUp(s: System, e: Event, j: nat)
    requires j < |s.nodes| && (e.BeginStable? || e.MakeStable? || e.Finish?)
    ensures MovesUp(s, Step(s, e), j)
  {
    match e
    case BeginStable(i, version, ioInFlight) => BeginStableUp(s, i, version, ioInFlight, j);
    case MakeStable(i) => if s.decision.Some? { ConvergeUp(s.nodes[j].app, s.decision.value.size, 0, true); }
    case Finish(i, written, ioOk) => FinishUp(s, i, written, ioOk, j);
  }

  lemma BeginStableUp(s: System, i: nat, version: int, ioInFlight: bool, j: nat)
    requires j < |s.nodes|
    ensures MovesUp(s, StepBeginStable(s, i, version, ioInFlight), j)
  {
    BeginMakeUp(s.nodes[j].app, version, ioInFlight);
  }

  lemma FinishUp(s: System, i: nat, written: nat, ioOk: bool, j: nat)
    requires j < |s.nodes|
    ensures MovesUp(s, StepFinish(s, i, written, ioOk), j)
  {
    ConvergeUp(s.nodes[j].app, 0, written, ioOk);
  }

  lemma FailUp(a: App)
    ensures a.IsOpen() ==> Later(a, SetState(a, ReplicationFailed))
    ensures Later(a, TryToCloseFailed(a))
  {
  }

  lemma LocalUp(a: App)
    ensures Later(a, SetState(a, ChunkLost))
    ensures Later(a, SetState(a.(wids := map[]), PendingDelete))
  {
  }

  lemma LocalStepUp(s: System, e: Event, j: nat)
    requires j < |s.nodes|
    requires e.Fail? || e.IdleClose? || e.Lose? || e.Delete? || e.DecideRelinquished? || e.DecideShortest?
    ensures MovesUp(s, Step(s, e), j)
  {
    FailUp(s.nodes[j].app);
    LocalUp(s.nodes[j].app);
  }

  /** Whatever happens, no appender ever moves back. */
  lemma PhasesOnlyMoveUp(s: System, e: Event, j: nat)
    requires j < |s.nodes|
    ensures MovesUp(s, Step(s, e), j)
  {
    if e.ClientAppend? || e.SendCommitAck? { AppStepUp(s, e, j); }
    else if e.Deliver? || e.TakeReply? || e.LinkDown? { WireStepUp(s, e, j); }
    else if e.Allocate? || e.Invalidate? || e.Reserve? { TableStepUp(s, e, j); }
    else if e.Inquire? || e.ClientClose? { ClientStepUp(s, e, j); }
    else if e.BeginStable? || e.MakeStable? || e.Finish? { StableStepUp(s, e, j); }
    else { LocalStepUp(s, e, j); }
  }

  // ----- exactly when a commit brings a server down

  /** An append at the head of the line at an open appender, begun and not yet committed. */
  predicate AtHead(a: App, op: Op) {
    && a.IsOpen() && op.writeId in a.wids && !op.IsAck()
    && a.wids[op.writeId].status.InProgress? && a.wids[op.writeId].offset == op.fileOffset
    && a.wids[op.writeId].length == |op.data|
    && op.fileOffset == a.nextCommit && op.chunkId == a.chunkId
    && a.masterCommitted <= a.nextCommit && !a.makeStableSucceeded && !a.aborted
  }

  /**
   A status inquiry that arrives between begin and commit of an append makes the commit abort the server
   in one case only: at a slave, the append is empty, and the slave knows that the master committed all before it.
   Without such an inquiry the commit aborts exactly when the append names another version of the chunk,
   which AppendBegin does not check.
   */
  lemma CommitAbortsIff(a: App, op: Op)
    requires AtHead(a, op)
    ensures Commit(a, op, true).0.aborted <==> op.version != a.version
    ensures Commit(GetOpStatus(a, op.writeId).0, op, true).0.aborted <==>
            (op.version != a.version || (!a.IsMaster() && op.data == [] && a.masterCommitted == a.nextCommit))
  {
  }

  /** Other than that, an inquiry never gets in the way of a commit. */
  lemma InquiryThenCommit(a: App, op: Op)
    requires AtHead(a, op) && op.version == a.version && op.data != []
    ensures var (b, ok) := Commit(GetOpStatus(a, op.writeId).0, op, true);
      ok && b.nextCommit == Commit(a, op, true).0.nextCommit && b.wids[op.writeId].readOnly
  {
  }

  // ----- a run with an empty append

  const ROUTE := BeginEnv(0, 1, true, true, true, None)

  function IdFive(i: nat): WriteIdRequest { WriteIdRequest(7, 1, i, i + 1, 3, 5, 0) }

  /** Three servers know write id 5; nothing was appended yet. */
  function Ready(): (s: System)
    ensures |s.nodes| == 3 && s.hist == []
    ensures forall i: nat | i < 3 ::
      s.nodes[i] == NewNode(7, 1, i, 3, []).(app := NewAppender(7, 1, i, 3, i + 1, []).(wids := map[5 := FRESH_WRITE_ID]), issued := {5})
  {
    var s := Init(7, 1, 3, []);
    Step(Step(Step(s, Allocate(0, IdFive(0), 9)), Allocate(1, IdFive(1), 9)), Allocate(2, IdFive(2), 9))
  }

  function ReadyApp(i: nat): App {
    NewAppender(7, 1, i, 3, i + 1, []).(wids := map[5 := FRESH_WRITE_ID])
  }

  const EMPTY := Op(0, 7, 1, 3, 5, [], 0, 0, 0)
  const BUSY := FRESH_WRITE_ID.(status := InProgress, offset := 0)

  lemma EmptyAtMaster()
    ensures var (b, ok) := AppendBegin(ReadyApp(0), Op(0, 7, 1, 3, 5, [], -1, -1, 0), false, ROUTE);
      b.forwarded && b.status.Success? && b.op == EMPTY
  {
  }

  lemma EmptyAtMiddle()
    ensures var (b, ok) := AppendBegin(ReadyApp(1), EMPTY, false, BeginEnv(1, 2, true, true, true, None));
      b.forwarded && b.app == ReadyApp(1).(masterCommitted := 0, inFlight := [EMPTY], wids := map[5 := BUSY])
  {
  }

  lemma EmptyAtTail()
    ensures var (b, ok) := AppendBegin(ReadyApp(2), EMPTY, false, BeginEnv(2, 3, true, true, true, None));
      !b.forwarded && b.status.Success? && ok
  {
  }

  /** The master accepts the empty append and puts it on the wire. */
  lemma EmptySent(s: System)
    requires s == Step(Ready(), ClientAppend(5, [], 0, 1, ROUTE))
    ensures |s.nodes| == 3 && s.nodes[1] == Ready().nodes[1].(inbox := [Append(EMPTY)]) && s.nodes[2] == Ready().nodes[2]
  {
    EmptyAtMaster();
    assert Ready().nodes[0].app == ReadyApp(0);
  }

  lemma EmptyForwarded(s: System, t: System)
    requires |s.nodes| == 3 && s.nodes[1] == Ready().nodes[1].(inbox := [Append(EMPTY)]) && s.nodes[2] == Ready().nodes[2]
    requires t == Step(s, Deliver(1, true, true))
    ensures |t.nodes| == 3 && t.nodes[2] == Ready().nodes[2].(inbox := [Append(EMPTY)])
    ensures t.nodes[1].app == ReadyApp(1).(masterCommitted := 0, inFlight := [EMPTY], wids := map[5 := BUSY])
  {
    EmptyAtMiddle();
    assert s.nodes[1].app == ReadyApp(1);
    assert Ready().nodes[2].inbox + [Append(EMPTY)] == [Append(EMPTY)];
  }

  lemma EmptyAnswered(s: System, t: System)
    requires |s.nodes| == 3 && s.nodes[2] == Ready().nodes[2].(inbox := [Append(EMPTY)])
    requires t == Step(s, Deliver(2, true, true))
    ensures |t.nodes| == 3 && t.nodes[1] == s.nodes[1] && t.nodes[2].outbox == [Reply(0, true)]
  {
    EmptyAtTail();
    assert s.nodes[2].app == ReadyApp(2);
  }

  lemma EmptySettled(s: System, t: System)
    requires |s.nodes| == 3 && t == Step(s, Inquire(1, 5))
    requires s.nodes[1].app == ReadyApp(1).(masterCommitted := 0, inFlight := [EMPTY], wids := map[5 := BUSY])
    ensures |t.nodes| == 3 && t.nodes[2] == s.nodes[2]
    ensures t.nodes[1].app == s.nodes[1].app.(wids := map[5 := BUSY.(status := Success, readOnly := true)])
  {
  }

  lemma EmptyReturns(s: System, t: System)
    requires |s.nodes| == 3 && t == Step(s, TakeReply(1)) && s.nodes[2].outbox == [Reply(0, true)]
    requires s.nodes[1].app == ReadyApp(1).(masterCommitted := 0, inFlight := [EMPTY],
                                            wids := map[5 := BUSY.(status := Success, readOnly := true)])
    ensures |t.nodes| == 3 && t.nodes[1].app.aborted
  {
    assert Find(s.nodes[1].app.inFlight, 0) == 0;
  }

  /** The empty append travels to the tail; meanwhile a client asks the middle server for its status. */
  lemma EmptyAppendAborts(s: System, t: System)
    requires s == Step(Ready(), ClientAppend(5, [], 0, 1, ROUTE))
    requires t == Step(Step(Step(s, Deliver(1, true, true)), Inquire(1, 5)), Deliver(2, true, true))
    ensures |t.nodes| == |Step(t, TakeReply(1)).nodes| == 3
    ensures !t.nodes[1].app.aborted && Step(t, TakeReply(1)).nodes[1].app.aborted
  {
    EmptySent(s);
    var u := Step(s, Deliver(1, true, true));
    EmptyForwarded(s, u);
    var v := Step(u, Inquire(1, 5));
    EmptySettled(u, v);
    EmptyAnswered(v, t);
    EmptyReturns(t, Step(t, TakeReply(1)));
  }

  // ----- a run with an append of another version

  const SPARE := FRESH_WRITE_ID.(reserved := 1)

  /** The only replica of version 1 of a chunk; a client holds write id 5 and one reserved byte. */
  function AloneApp(): App {
    NewAppender(7, 1, 0, 1, 1, []).(wids := map[5 := SPARE], bytesReserved := 1)
  }

  /** The client appends its byte to version 2, and the server goes down. */
  lemma OtherVersionAborts(s: System, x: Byte)
    requires s == Step(Step(Init(7, 1, 1, []), Allocate(0, WriteIdRequest(7, 1, 0, 1, 1, 5, 0), 9)), Reserve(5, 1, false))
    ensures var t := Step(s, ClientAppend(5, [x], 0, 2, ROUTE));
      |s.nodes| == |t.nodes| == 1 && !s.nodes[0].app.aborted && t.nodes[0].app.aborted
  {
    assert s.nodes[0].app == AloneApp();
    OtherVersionBegun(x);
  }

  lemma OtherVersionBegun(x: Byte)
    ensures var (b, ok) := AppendBegin(AloneApp(), Op(0, 7, 2, 1, 5, [x], -1, -1, 0), false, ROUTE);
      b.status.Success? && !b.forwarded && b.app.aborted
  {
  }
}
