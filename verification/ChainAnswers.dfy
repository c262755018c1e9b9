/** When the answer to a status inquiry is definite, in every state of every run. */
module ChainAnswers {
  import opened Common
  import opened RecordAppender
  import opened Chain
  import opened ChainInvariant
  import opened ChainReplies
  import opened ChainTheorems
  import opened ChainSafety

  predicate Definite(x: Answer) { x.status.Success? || x.status.EFailedState? }

  /** The answer that node `i` gives to an inquiry for write id `w`. */
  function AnswerAt(s: System, i: nat, w: int): Answer
    requires i < |s.nodes| && w in s.nodes[i].app.wids
  {
    GetOpStatus(s.nodes[i].app, w).1.value
  }

  lemma InquireReached(s: System, i: nat, w: int)
    requires Reached(s) && i < |s.nodes| && w in s.nodes[i].app.wids
    ensures var t := Step(s, Inquire(i, w));
      && Reached(t) && AnswerAt(s, i, w) in t.answers && |t.nodes| == |s.nodes| && t.hist == s.hist
      && t.nodes[i] == s.nodes[i].(app := GetOpStatus(s.nodes[i].app, w).0, inquired := t.nodes[i].inquired)
  {
    InquireShape(s, i, w);
    StaysReached(s, Inquire(i, w));
  }

  lemma StaysReached(s: System, e: Event)
    requires Reached(s) && e.Inquire?
    ensures Reached(Step(s, e))
  {
    ReachedInv(s);
    assert Harmless(s, e);
    GoesDownIff(s, e, 0);
  }

  lemma InquireShape(s: System, i: nat, w: int)
    requires i < |s.nodes| && w in s.nodes[i].app.wids
    ensures var t := Step(s, Inquire(i, w));
      && AnswerAt(s, i, w) in t.answers && |t.nodes| == |s.nodes| && t.hist == s.hist
      && t.nodes[i] == s.nodes[i].(app := GetOpStatus(s.nodes[i].app, w).0, inquired := t.nodes[i].inquired)
  {
  }

  /** What an inquiry leaves in the row is what it answered. */
  lemma AnswerInRow(a: App, w: int)
    requires w in a.wids
    ensures var (b, x) := GetOpStatus(a, w);
      && x.Some? && w in b.wids && b.wids[w].status == x.value.status && x.value.writeId == w
      && x.value.wasReadOnly == a.wids[w].readOnly
      && x.value.offset == a.wids[w].offset == b.wids[w].offset && x.value.length == a.wids[w].length == b.wids[w].length
      && b.log == a.log && b.chunkSize == a.chunkSize && b.makeStableSucceeded == a.makeStableSucceeded
  {
  }

  lemma StableFacts(s: System, i: nat, w: int)
    requires Inv(s) && i < |s.nodes| && w in s.nodes[i].app.wids && s.nodes[i].app.makeStableSucceeded
    requires s.nodes[i].app.wids[w].offset >= 0
    ensures var n := s.nodes[i]; var ws := n.app.wids[w];
      && n.app.chunkSize == |n.app.log| && w in n.last && n.last[w] < |s.hist|
      && About(ContextOf(s), Answer(w, ws.status, ws.offset, ws.length, ws.clientSeq, ws.readOnly), n.last[w])
      && (ws.status.Success? ==> ws.End() <= |n.app.log| && Holds(n.app.log, s.hist[n.last[w]]))
      && (ws.status.EFailedState? ==> |n.app.log| < ws.End())
      && (ws.status.Success? || ws.status.EFailedState? || ws.status.InProgress?)
  {
    var c, n := ContextOf(s), s.nodes[i];
    assert NodeOk(c, i, n) && RowOk(c, n, w);
    DecisionCovers(s);
    if n.app.wids[w].status.Success? { StableHolds(s, i, n.last[w]); }
  }

  /**
   A stable replica always knows: it answers success if and only if the append lies within its log, and then it
   holds the bytes the master accepted; otherwise it answers failure.
   */
  lemma StableAnswersAreDefinite(s: System, i: nat, w: int)
    requires Reached(s) && i < |s.nodes| && w in s.nodes[i].app.wids && s.nodes[i].app.makeStableSucceeded
    requires s.nodes[i].app.wids[w].offset >= 0
    ensures var n, x := s.nodes[i], AnswerAt(s, i, w);
      && w in n.last && About(ContextOf(s), x, n.last[w]) && Definite(x)
      && (x.status.Success? <==> x.offset + x.length <= |n.app.log|)
      && (x.status.Success? <==> Holds(n.app.log, s.hist[n.last[w]]))
  {
    var n := s.nodes[i];
    ReachedInv(s);
    StableFacts(s, i, w);
    AnswerInRow(n.app, w);
    InquireReached(s, i, w);
    var t := Step(s, Inquire(i, w));
    ReachedInv(t);
    StableFacts(t, i, w);
    StableResolves(n.app, w);
  }

  lemma StableResolves(a: App, w: int)
    requires w in a.wids && a.makeStableSucceeded
    ensures a.wids[w].status.InProgress? ==>
      GetOpStatus(a, w).1.value.status == if a.wids[w].End() <= a.chunkSize then Success else EFailedState
    ensures !a.wids[w].status.InProgress? ==> GetOpStatus(a, w).1.value.status == a.wids[w].status
  {
  }

  // ----- a slave that is not stable yet

  /** A slave takes an append for good only if the master told that it committed it. */
  predicate RowKnown(a: App, ws: WriteId) {
    !ws.status.EFailedState? && (a.pos > 0 && ws.offset >= 0 && ws.status.Success? ==> ws.End() <= a.masterCommitted)
  }

  /** Before a replica is stable it takes no append for lost. */
  predicate KnowsWhy(a: App) {
    !a.makeStableSucceeded ==> forall w | w in a.wids :: RowKnown(a, a.wids[w])
  }

  /** It stays so if rows, place and what is known of the master stay as they are, or rows go. */
  lemma KnowsSame(a: App, b: App)
    requires KnowsWhy(a) && b.pos == a.pos && a.masterCommitted <= b.masterCommitted
    requires a.makeStableSucceeded ==> b.makeStableSucceeded
    requires forall w | w in b.wids :: w in a.wids && (b.wids[w] == a.wids[w] || b.wids[w] == a.wids[w].(reserved := b.wids[w].reserved))
    ensures KnowsWhy(b)
  {
    if !b.makeStableSucceeded {
      forall w | w in b.wids ensures RowKnown(b, b.wids[w]) { assert w in a.wids; }
    }
  }

  /** One row changes. */
  lemma KnowsRow(a: App, b: App, w: int)
    requires KnowsWhy(a) && b.pos == a.pos && a.masterCommitted <= b.masterCommitted
    requires a.makeStableSucceeded ==> b.makeStableSucceeded
    requires w in b.wids && forall v | v in b.wids && v != w :: v in a.wids && b.wids[v] == a.wids[v]
    requires !b.makeStableSucceeded ==> RowKnown(b, b.wids[w])
    ensures KnowsWhy(b)
  {
    if !b.makeStableSucceeded {
      forall v | v in b.wids ensures RowKnown(b, b.wids[v]) { assert v != w ==> RowKnown(a, a.wids[v]); }
    }
  }

  lemma SetKnows(a: App, p: Phase)
    requires KnowsWhy(a)
    ensures KnowsWhy(SetState(a, p)) && KnowsWhy(TryToCloseFailed(a))
  {
    EnterRows(a, p);
    CloseRows(a);
    CloseRows(Enter(a, p));
    KnowsSame(a, TryToCloseFailed(a));
    KnowsSame(a, SetState(a, p));
  }

  predicate RowsKept(a: App, b: App) {
    a.wids == b.wids && a.pos == b.pos && a.masterCommitted == b.masterCommitted && (a.makeStableSucceeded ==> b.makeStableSucceeded)
  }

  lemma EnterRows(a: App, p: Phase)
    ensures RowsKept(a, Enter(a, p))
  {
  }

  lemma CloseRows(a: App)
    ensures RowsKept(a, TryToCloseFailed(a))
  {
  }

  lemma HeardKnows(a: App, mc: int)
    requires KnowsWhy(a)
    ensures KnowsWhy(UpdateMasterCommitted(a, mc)) && UpdateMasterCommitted(a, mc).wids == a.wids
  {
    KnowsSame(a, UpdateMasterCommitted(a, mc));
  }

  lemma SettleKnows(a: App, w: int)
    requires KnowsWhy(a) && w in a.wids
    ensures KnowsWhy(Settle(a, w))
  {
    KnowsRow(a, Settle(a, w), w);
  }

  lemma PlaceKnows(a: App, op: Op, internal: bool, env: BeginEnv)
    requires KnowsWhy(a)
    ensures KnowsWhy(Place(a, op, internal, env).app)
  {
    if IsMasterAck(a, op, internal) {
      HeardKnows(a, op.masterCommitted);
      SetKnows(a, ReplicationFailed);
    } else if op.writeId in a.wids && a.pos == 0 {
      KnowsSame(a, PlaceData(a, op, env.checksumOk).app);
    } else if op.writeId in a.wids {
      HeardKnows(a, op.masterCommitted);
      var h := UpdateMasterCommitted(a, op.masterCommitted);
      SettleKnows(h, op.writeId);
      var b := Settle(h, op.writeId);
      SetKnows(a, ReplicationFailed);
      SetKnows(b, ReplicationFailed);
      if op.fileOffset == a.nextOffset { PlacedNext(a, op, env.checksumOk, b); } else { PlacedElsewhere(a, op, env.checksumOk); }
    }
  }

  lemma PlacedElsewhere(a: App, op: Op, checksumOk: bool)
    requires op.writeId in a.wids && a.pos > 0 && op.fileOffset != a.nextOffset
    ensures PlaceData(a, op, checksumOk).app == SetState(a, ReplicationFailed)
  {
  }

  lemma PlacedNext(a: App, op: Op, checksumOk: bool, b: App)
    requires op.writeId in a.wids && a.pos > 0 && op.fileOffset == a.nextOffset
    requires b == Settle(UpdateMasterCommitted(a, op.masterCommitted), op.writeId) && b.pos == a.pos
    ensures var p := PlaceData(a, op, checksumOk).app; SameRows(p, b) || p == SetState(b, ReplicationFailed)
  {
  }

  lemma RecordKnows(a: App, op: Op)
    requires KnowsWhy(a) && op.writeId in a.wids
    ensures KnowsWhy(Record(a, op))
  {
    KnowsRow(a, Record(a, op), op.writeId);
  }

  lemma BeginKnows(a: App, op: Op, internal: bool, env: BeginEnv)
    requires KnowsWhy(a)
    ensures KnowsWhy(Begin(a, op, internal, env).app)
  {
    var b := CheckLease(a, env.leaseValid);
    SetKnows(a, ReplicationFailed);
    if BeginCheck(b, op, internal, env).Success? {
      PlaceKnows(b, op, internal, env);
      var p := Place(b, op, internal, env);
      if p.op.writeId in p.app.wids { RecordKnows(p.app, p.op); }
      BeginShape(a, op, internal, env, p);
    }
  }

  /** Begin is place and record, as far as rows and the master's commit offset are concerned. */
  lemma BeginShape(a: App, op: Op, internal: bool, env: BeginEnv, p: Placed)
    requires var b := CheckLease(a, env.leaseValid); BeginCheck(b, op, internal, env).Success? && p == Place(b, op, internal, env)
    ensures var r, b := Begin(a, op, internal, env).app, CheckLease(a, env.leaseValid);
      || SameRows(r, p.app) || SameRows(r, b) || (p.op.writeId in p.app.wids && SameRows(r, Record(p.app, p.op)))
  {
  }

  predicate SameRows(a: App, b: App) {
    a.wids == b.wids && a.pos == b.pos && a.masterCommitted == b.masterCommitted && a.makeStableSucceeded == b.makeStableSucceeded
  }

  lemma CommitKnows(a: App, op: Op, ok: bool)
    requires KnowsWhy(a)
    ensures KnowsWhy(Commit(a, op, ok).0)
  {
    SetKnows(a, ReplicationFailed);
    if op.writeId in a.wids && ok && a.IsOpen() && !CommitInvalid(a, op) && !(a.IsMaster() && op.IsAck()) {
      KnowsRow(a, Commit(a, op, ok).0, op.writeId);
    }
  }

  lemma AppendKnows(a: App, op: Op, internal: bool, env: BeginEnv)
    requires KnowsWhy(a)
    ensures KnowsWhy(AppendBegin(a, op, internal, env).0.app)
  {
    BeginKnows(a, op, internal, env);
    var b := Begin(a, op, internal, env);
    CommitKnows(b.app, b.op, b.status.Success?);
  }

  lemma InquireKnows(a: App, w: int)
    requires KnowsWhy(a) && w in a.wids
    ensures KnowsWhy(GetOpStatus(a, w).0)
  {
    KnowsRow(a, GetOpStatus(a, w).0, w);
  }

  lemma CloseKnows(a: App, w: int, mc: int)
    requires KnowsWhy(a)
    ensures KnowsWhy(CloseWriteId(a, w, mc).0)
  {
    if w in a.wids {
      HeardKnows(a, mc);
      var h := if a.IsMaster() || mc < 0 then a else UpdateMasterCommitted(a, mc);
      var b := CloseSettle(a, w, mc);
      KnowsRow(h, b, w);
      KnowsSame(b, CloseWriteId(a, w, mc).0);
    }
  }

  lemma AllocateKnows(a: App, r: WriteIdRequest, max: nat)
    requires KnowsWhy(a)
    ensures KnowsWhy(AllocateWriteId(a, r, max, true).0)
  {
    var b := AllocateWriteId(a, r, max, true).0;
    if b.wids != a.wids { KnowsRow(a, b, r.writeId); }
  }

  lemma TableKnows(a: App, w: int, n: nat, flag: bool)
    requires KnowsWhy(a)
    ensures KnowsWhy(InvalidateWriteId(a, w, flag).0) && KnowsWhy(ChangeReservation(a, w, n, flag, true).0)
  {
    KnowsSame(a, ChangeReservation(a, w, n, flag, true).0);
    KnowsSame(a, a.(wids := a.wids - {w}));
    SetKnows(a.(wids := a.wids - {w}), ReplicationFailed);
  }

  lemma StableKnows(a: App, version: int, ioInFlight: bool, size: nat, written: nat, ioOk: bool)
    requires KnowsWhy(a)
    ensures KnowsWhy(BeginMakeStable(a, version, ioInFlight).0)
    ensures KnowsWhy(RequestStable(a, size))
    ensures written <= |a.log| ==> KnowsWhy(FinishStable(a, written, ioOk).0)
  {
    StableRows(a, version, ioInFlight, size, written, ioOk);
    KnowsSame(a, BeginMakeStable(a, version, ioInFlight).0);
    KnowsSame(a, RequestStable(a, size));
    if written <= |a.log| { KnowsSame(a, FinishStable(a, written, ioOk).0); }
  }

  lemma StableRows(a: App, version: int, ioInFlight: bool, size: nat, written: nat, ioOk: bool)
    ensures RowsKept(a, BeginMakeStable(a, version, ioInFlight).0)
    ensures RowsKept(a, RequestStable(a, size))
    ensures written <= |a.log| ==> RowsKept(a, FinishStable(a, written, ioOk).0)
  {
    FinishRows(a, written, ioOk);
    BeginRows(a, version, ioInFlight);
  }

  lemma BeginRows(a: App, version: int, ioInFlight: bool)
    ensures RowsKept(a, BeginMakeStable(a, version, ioInFlight).0)
  {
  }

  lemma FinishRows(a: App, written: nat, ioOk: bool)
    ensures written <= |a.log| ==> RowsKept(a, FinishStable(a, written, ioOk).0)
  {
  }

  // ----- every step

  predicate KnowsAt(s: System, j: nat) { j < |s.nodes| && KnowsWhy(s.nodes[j].app) }

  lemma MasterKnows(s: System, op: Op, internal: bool, env: BeginEnv, j: nat)
    requires |s.nodes| > 0 && KnowsAt(s, j)
    ensures KnowsAt(StepMaster(s, op, internal, env), j)
  {
    if j == 0 { AppendKnows(s.nodes[0].app, op, internal, env); }
  }

  lemma SlaveKnows(s: System, i: nat, op: Op, checksumOk: bool, peerUp: bool, j: nat)
    requires 0 < i < |s.nodes| && KnowsAt(s, j)
    ensures KnowsAt(StepAppend(s, i, op, checksumOk, peerUp), j)
  {
    if j == i { AppendKnows(s.nodes[i].app, op, false, BeginEnv(i, i + 1, true, checksumOk, peerUp, None)); }
  }

  lemma DeliverKnows(s: System, i: nat, checksumOk: bool, peerUp: bool, j: nat)
    requires KnowsAt(s, j)
    ensures KnowsAt(StepDeliver(s, i, checksumOk, peerUp), j)
  {
    if 0 < i < |s.nodes| && s.nodes[i].inbox != [] {
      var n := s.nodes[i];
      match n.inbox[0]
      case Append(op) =>
        var t := s.(nodes := s.nodes[i := n.(inbox := n.inbox[1..], received := n.received + 1)]);
        assert StepDeliver(s, i, checksumOk, peerUp) == StepAppend(t, i, op, checksumOk, peerUp);
        SlaveKnows(t, i, op, checksumOk, peerUp, j);
      case Close(w, mc) => if i == j { CloseKnows(n.app, w, mc); }
    }
  }

  lemma BreakKnows(s: System, i: nat, keep: nat, j: nat)
    requires KnowsAt(s, j)
    ensures KnowsAt(StepLinkDown(s, i, keep), j)
  {
    if i == j && i + 1 < |s.nodes| {
      var a := s.nodes[i].app;
      if a.inFlight != [] { CommitKnows(a.(inFlight := []), a.inFlight[0], false); }
    }
  }

  lemma DoneKnows(a: App, op: Op, ok: bool)
    requires KnowsWhy(a)
    ensures KnowsWhy(OpDone(a, op, ok).0)
  {
    KnowsSame(a, a.(inFlight := Without(a.inFlight, op.id)));
    CommitKnows(a.(inFlight := Without(a.inFlight, op.id)), op, ok);
  }

  lemma ReplyKnows(s: System, i: nat, j: nat)
    requires KnowsAt(s, j)
    ensures KnowsAt(StepReply(s, i), j)
  {
    var known, k, ok := ReplyApp(s, i, j);
    if known { DoneKnows(s.nodes[j].app, s.nodes[j].app.inFlight[k], ok); }
  }

  /** An appender that hears from its peer is done with an append it knows; all others stay as they are. */
  lemma ReplyApp(s: System, i: nat, j: nat) returns (known: bool, k: nat, ok: bool)
    requires j < |s.nodes|
    ensures known ==> k < |s.nodes[j].app.inFlight|
    ensures var t := StepReply(s, i);
      j < |t.nodes| && t.nodes[j].app == if known then OpDone(s.nodes[j].app, s.nodes[j].app.inFlight[k], ok).0 else s.nodes[j].app
  {
    known, k, ok := false, 0, false;
    if i == j && i + 1 < |s.nodes| && s.nodes[i + 1].outbox != [] {
      var r := s.nodes[i + 1].outbox[0];
      k, ok := Find(s.nodes[i].app.inFlight, r.id), r.ok;
      known := k < |s.nodes[i].app.inFlight|;
      if known { ReplyShape(s, i, k); }
    }
  }

  lemma TableStepKnows(s: System, e: Event, j: nat)
    requires KnowsAt(s, j) && (e.Allocate? || e.Invalidate? || e.Reserve?)
    ensures KnowsAt(Step(s, e), j)
  {
    var a := s.nodes[j].app;
    match e
    case Allocate(_, r, max) => AllocateKnows(a, r, max);
    case Invalidate(_, w, declare) => TableKnows(a, w, 0, declare);
    case Reserve(w, n, release) => TableKnows(a, w, n, release);
  }

  lemma ClientStepKnows(s: System, e: Event, j: nat)
    requires KnowsAt(s, j) && (e.Inquire? || e.ClientClose?)
    ensures KnowsAt(Step(s, e), j)
  {
    var a := s.nodes[j].app;
    if e.ClientClose? { CloseKnows(a, e.writeId, -1); }
    else if e.writeId in a.wids { InquireKnows(a, e.writeId); }
  }

  lemma StableStepKnows(s: System, e: Event, j: nat)
    requires KnowsAt(s, j) && (e.BeginStable? || e.MakeStable? || e.Finish?)
    ensures KnowsAt(Step(s, e), j)
  {
    var a := s.nodes[j].app;
    var size := if s.decision.Some? then s.decision.value.size else 0;
    if e.BeginStable? { StableKnows(a, e.version, e.ioInFlight, 0, 0, true); BeginStepKnows(s, e.node, e.version, e.ioInFlight, j); }
    else if e.Finish? { StableKnows(a, 0, true, 0, e.written, e.ioOk); FinishStepKnows(s, e.node, e.written, e.ioOk, j); }
    else { StableKnows(a, 0, true, size, 0, true); }
  }

  lemma BeginStepKnows(s: System, i: nat, version: int, io: bool, j: nat)
    requires KnowsAt(s, j) && KnowsWhy(BeginMakeStable(s.nodes[j].app, version, io).0)
    ensures KnowsAt(StepBeginStable(s, i, version, io), j)
  {
  }

  lemma FinishStepKnows(s: System, i: nat, written: nat, ioOk: bool, j: nat)
    requires KnowsAt(s, j) && (written <= |s.nodes[j].app.log| ==> KnowsWhy(FinishStable(s.nodes[j].app, written, ioOk).0))
    ensures KnowsAt(StepFinish(s, i, written, ioOk), j)
  {
  }

  lemma LocalStepKnows(s: System, e: Event, j: nat)
    requires KnowsAt(s, j)
    requires e.Fail? || e.IdleClose? || e.Lose? || e.Delete? || e.DecideRelinquished? || e.DecideShortest?
    ensures KnowsAt(Step(s, e), j)
  {
    LocalKnows(s.nodes[j].app);
  }

  lemma LocalKnows(a: App)
    requires KnowsWhy(a)
    ensures KnowsWhy(SetState(a, ReplicationFailed)) && KnowsWhy(TryToCloseFailed(a)) && KnowsWhy(SetState(a, ChunkLost))
    ensures KnowsWhy(SetState(a.(wids := map[]), PendingDelete))
  {
    SetKnows(a, ReplicationFailed);
    SetKnows(a, ChunkLost);
    KnowsSame(a, a.(wids := map[]));
    SetKnows(a.(wids := map[]), PendingDelete);
  }

  lemma StepKnows(s: System, e: Event, j: nat)
    requires KnowsAt(s, j)
    ensures KnowsAt(Step(s, e), j)
  {
    if e.ClientAppend? { MasterKnows(s, ClientOp(s, e), false, e.env, j); }
    else if e.SendCommitAck? {
      var a := s.nodes[0].app;
      MasterKnows(s, CommitAck(s, a), true, e.env.(replicationPos := 0, peer := a.peer), j);
    }
    else if e.Deliver? { DeliverKnows(s, e.node, e.checksumOk, e.peerUp, j); }
    else if e.TakeReply? { ReplyKnows(s, e.node, j); }
    else if e.LinkDown? { BreakKnows(s, e.node, e.keep, j); }
    else if e.Allocate? || e.Invalidate? || e.Reserve? { TableStepKnows(s, e, j); }
    else if e.Inquire? || e.ClientClose? { ClientStepKnows(s, e, j); }
    else if e.BeginStable? || e.MakeStable? || e.Finish? { StableStepKnows(s, e, j); }
    else { LocalStepKnows(s, e, j); }
  }

  lemma {:induction false} RunKnows(chunkId: int, version: int, numServers: nat, start: seq<Byte>, events: seq<Event>, j: nat)
    requires j < numServers
    ensures KnowsAt(Run(Init(chunkId, version, numServers, start), events), j)
  {
    if events != [] {
      RunKnows(chunkId, version, numServers, start, events[..|events| - 1], j);
      StepKnows(Run(Init(chunkId, version, numServers, start), events[..|events| - 1]), events[|events| - 1], j);
    }
  }

  /**
   A slave that is not stable knows if and only if the master told it a commit offset at or past the end of the
   append. It then answers success, and never failure.
   */
  lemma SlaveAnswerIff(s: System, i: nat, w: int)
    requires Reached(s) && 0 < i < |s.nodes| && w in s.nodes[i].app.wids && !s.nodes[i].app.makeStableSucceeded
    requires s.nodes[i].app.wids[w].offset >= 0
    ensures var x := AnswerAt(s, i, w);
      && (Definite(x) <==> x.offset + x.length <= s.nodes[i].app.masterCommitted)
      && (if Definite(x) then x.status.Success? else x.status.InProgress?)
  {
    var chunkId: int, version: int, numServers: nat, start: seq<Byte>, events: seq<Event> :|
      numServers > 0 && |start| <= CHUNKSIZE && s == Run(Init(chunkId, version, numServers, start), events);
    RunFrame(Init(chunkId, version, numServers, start), events);
    RunKnows(chunkId, version, numServers, start, events, i);
    RowFacts(s, i, w);
    SlaveResolves(s.nodes[i].app, w);
  }

  lemma SlaveResolves(a: App, w: int)
    requires KnowsWhy(a) && a.pos > 0 && w in a.wids && !a.makeStableSucceeded && a.wids[w].offset >= 0
    requires var st := a.wids[w].status; st.Success? || st.InProgress? || st.EFailedState?
    ensures var x := GetOpStatus(a, w).1.value;
      x.status == (if x.offset + x.length <= a.masterCommitted then Success else InProgress) && x.offset == a.wids[w].offset && x.length == a.wids[w].length
  {
    assert RowKnown(a, a.wids[w]);
  }

  lemma RowFacts(s: System, i: nat, w: int)
    requires Reached(s) && i < |s.nodes| && w in s.nodes[i].app.wids
    ensures s.nodes[i].app.pos == i
    ensures var st := s.nodes[i].app.wids[w].status; st.Success? || st.InProgress? || st.EFailedState?
  {
    ReachedInv(s);
    assert NodeOk(ContextOf(s), i, s.nodes[i]) && RowOk(ContextOf(s), s.nodes[i], w);
  }

  /** An answer tells whether the replica was asked about the id before. */
  lemma AskedBeforeIff(s: System, i: nat, w: int)
    requires Reached(s) && i < |s.nodes| && w in s.nodes[i].app.wids && !s.nodes[i].app.phase.PendingDelete?
    ensures AnswerAt(s, i, w).wasReadOnly <==> w in s.nodes[i].inquired
  {
    ReachedInv(s);
    AnswerInRow(s.nodes[i].app, w);
    assert NodeOk(ContextOf(s), i, s.nodes[i]) && RowOk(ContextOf(s), s.nodes[i], w);
  }
}
