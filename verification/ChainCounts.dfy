/** What an appender knows about the use of a write id, and when a write id can be dropped. */
module ChainCounts {
  import opened Common
  import opened RecordAppender
  import opened Chain
  import opened ChainInvariant
  import opened ChainQuiet
  import opened ChainAccept
  import opened ChainSteps
  import opened ChainLinks
  import opened ChainReplies
  import opened ChainTheorems
  import opened ChainSafety
  import opened AppendAccept
  import ChainAnswers
  import ChainTakes
  import ChainMasterAnswers

  /** How many of the first `k` appends have the write id. */
  ghost function Uses(hist: seq<Op>, k: nat, w: int): nat
    requires k <= |hist|
  {
    if k == 0 then 0 else Uses(hist, k - 1, w) + if hist[k - 1].writeId == w then 1 else 0
  }

  lemma {:induction false} UsesSame(hist: seq<Op>, more: seq<Op>, k: nat, w: int)
    requires k <= |hist| && hist <= more
    ensures Uses(hist, k, w) == Uses(more, k, w)
  {
    if k > 0 { UsesSame(hist, more, k - 1, w); }
  }

  lemma {:induction false} NoUses(hist: seq<Op>, k: nat, w: int)
    requires k <= |hist| && forall j: nat | j < k :: hist[j].writeId != w
    ensures Uses(hist, k, w) == 0
  {
    if k > 0 { NoUses(hist, k - 1, w); }
  }

  lemma {:induction false} SomeUse(hist: seq<Op>, k: nat, w: int)
    requires k <= |hist| && Uses(hist, k, w) == 0
    ensures forall j: nat | j < k :: hist[j].writeId != w
  {
    if k > 0 { SomeUse(hist, k - 1, w); }
  }

  /** Every row counts the appends with its id that the server committed. */
  ghost predicate Counted(hist: seq<Op>, n: Node) {
    n.committed <= |hist| && forall w | w in n.app.wids :: n.app.wids[w].appendCount == Uses(hist, n.committed, w)
  }

  predicate CountsKept(a: App, b: App) {
    forall w | w in b.wids :: w in a.wids && b.wids[w].appendCount == a.wids[w].appendCount
  }

  /** An append with the id `w` was committed. */
  predicate CountsUp(a: App, b: App, w: int) {
    forall v | v in b.wids :: v in a.wids && b.wids[v].appendCount == a.wids[v].appendCount + if v == w then 1 else 0
  }

  lemma CountedKept(hist: seq<Op>, more: seq<Op>, n: Node, m: Node)
    requires Counted(hist, n) && hist <= more && m.committed == n.committed && CountsKept(n.app, m.app)
    ensures Counted(more, m)
  {
    forall w | w in m.app.wids ensures m.app.wids[w].appendCount == Uses(more, m.committed, w) { UsesSame(hist, more, n.committed, w); }
  }

  lemma CountedUp(hist: seq<Op>, more: seq<Op>, n: Node, m: Node)
    requires Counted(hist, n) && hist <= more && n.committed < |more| && m.committed == n.committed + 1
    requires CountsUp(n.app, m.app, more[n.committed].writeId)
    ensures Counted(more, m)
  {
    forall w | w in m.app.wids ensures m.app.wids[w].appendCount == Uses(more, m.committed, w) { UsesSame(hist, more, n.committed, w); }
  }

  lemma SameRowsKept(a: App, b: App)
    requires a.wids == b.wids
    ensures CountsKept(a, b)
  {
  }

  // ----- begin and commit

  lemma PlaceCounts(a: App, op: Op, internal: bool, env: BeginEnv)
    ensures var p := Place(a, op, internal, env); CountsKept(a, p.app) && p.op.writeId == op.writeId
  {
    PlaceDataCounts(a, op, env.checksumOk);
    SetRows(a, ReplicationFailed);
  }

  lemma SetRows(a: App, p: Phase)
    ensures SetState(a, p).wids == a.wids && SetState(a, p).pos == a.pos
  {
    ChainAnswers.EnterRows(a, p);
    ChainAnswers.CloseRows(Enter(a, p));
  }

  lemma PlaceDataCounts(a: App, op: Op, checksumOk: bool)
    ensures CountsKept(a, PlaceData(a, op, checksumOk).app)
  {
    if op.writeId in a.wids && a.pos > 0 {
      if op.fileOffset != a.nextOffset {
        SetRows(a, ReplicationFailed);
        ChainAnswers.PlacedElsewhere(a, op, checksumOk);
      } else {
        var b := Settle(UpdateMasterCommitted(a, op.masterCommitted), op.writeId);
        SettleCounts(a, op);
        SetRows(b, ReplicationFailed);
        ChainAnswers.PlacedNext(a, op, checksumOk, b);
      }
    }
  }

  lemma SettleCounts(a: App, op: Op)
    requires op.writeId in a.wids
    ensures var b := Settle(UpdateMasterCommitted(a, op.masterCommitted), op.writeId); CountsKept(a, b) && b.pos == a.pos
  {
  }

  lemma BeginCounts(a: App, op: Op, internal: bool, env: BeginEnv)
    ensures var b := Begin(a, op, internal, env); CountsKept(a, b.app) && b.op.writeId == op.writeId
  {
    var c := CheckLease(a, env.leaseValid);
    SetRows(a, ReplicationFailed);
    if BeginCheck(c, op, internal, env).Success? {
      PlaceCounts(c, op, internal, env);
      var p := Place(c, op, internal, env);
      if p.op.writeId in p.app.wids { RecordCounts(p.app, p.op); }
      ChainAnswers.BeginShape(a, op, internal, env, p);
    }
    BeginKeepsId(a, op, internal, env);
  }

  lemma BeginKeepsId(a: App, op: Op, internal: bool, env: BeginEnv)
    ensures Begin(a, op, internal, env).op.writeId == op.writeId
  {
  }

  lemma RecordCounts(a: App, op: Op)
    requires op.writeId in a.wids
    ensures CountsKept(a, Record(a, op))
  {
  }

  lemma CommitCounts(a: App, op: Op, ok: bool)
    requires NO_WRITE_ID !in a.wids
    ensures var (b, done) := Commit(a, op, ok); if done then CountsUp(a, b, op.writeId) else CountsKept(a, b)
  {
    CommitsIff(a, op, ok);
    if !ok { SetRows(a, ReplicationFailed); }
  }

  lemma AppendCounts(a: App, op: Op, internal: bool, env: BeginEnv)
    requires NO_WRITE_ID !in a.wids
    ensures var (b, ok) := AppendBegin(a, op, internal, env);
      b.op.writeId == op.writeId && if !b.forwarded && ok then CountsUp(a, b.app, op.writeId) else CountsKept(a, b.app)
  {
    BeginCounts(a, op, internal, env);
    var b := Begin(a, op, internal, env);
    CommitCounts(b.app, b.op, b.status.Success?);
  }

  lemma DoneCounts(a: App, op: Op, ok: bool)
    requires NO_WRITE_ID !in a.wids
    ensures var (b, done) := OpDone(a, op, ok); if done then CountsUp(a, b, op.writeId) else CountsKept(a, b)
  {
    CommitCounts(a.(inFlight := Without(a.inFlight, op.id)), op, ok);
  }

  // ----- steps

  ghost predicate CountedAt(s: System, j: nat) { j < |s.nodes| && Counted(s.hist, s.nodes[j]) }

  lemma NoAckRow(s: System, j: nat)
    requires Inv(s) && j < |s.nodes|
    ensures NO_WRITE_ID !in s.nodes[j].app.wids
  {
    assert NodeOk(ContextOf(s), j, s.nodes[j]);
  }

  lemma MasterCounts(s: System, op: Op, internal: bool, env: BeginEnv, j: nat)
    requires Inv(s) && CountedAt(s, j)
    ensures CountedAt(StepMaster(s, op, internal, env), j)
  {
    var n, t := s.nodes[j], StepMaster(s, op, internal, env);
    NoAckRow(s, 0);
    AppendCounts(s.nodes[0].app, op, internal, env);
    MasterNode(s, op, internal, env, j);
    var (b, ok) := AppendBegin(s.nodes[0].app, op, internal, env);
    if j == 0 && !b.forwarded && ok {
      AloneIsDone(s, op, internal, env);
      CountedUp(s.hist, t.hist, n, t.nodes[j]);
    } else {
      SameRowsKept(n.app, n.app);
      CountedKept(s.hist, t.hist, n, t.nodes[j]);
    }
  }

  lemma MasterNode(s: System, op: Op, internal: bool, env: BeginEnv, j: nat)
    requires j < |s.nodes|
    ensures var t := StepMaster(s, op, internal, env);
      var (b, ok) := AppendBegin(s.nodes[0].app, op, internal, env);
      && j < |t.nodes| && t.hist == (if b.status.Success? then s.hist + [b.op] else s.hist)
      && (j > 0 ==> t.nodes[j].app == s.nodes[j].app && t.nodes[j].committed == s.nodes[j].committed)
      && (j == 0 ==> t.nodes[0].app == b.app)
      && (j == 0 ==> t.nodes[0].committed == s.nodes[0].committed + if b.status.Success? && !b.forwarded && ok then 1 else 0)
  {
  }

  /** A commit at once happens to a single open server that committed all before. */
  lemma AloneIsDone(s: System, op: Op, internal: bool, env: BeginEnv)
    requires Inv(s)
    requires var (b, ok) := AppendBegin(s.nodes[0].app, op, internal, env); !b.forwarded && ok
    ensures var (b, ok) := AppendBegin(s.nodes[0].app, op, internal, env); b.status.Success?
    ensures s.nodes[0].committed == |s.hist|
  {
    var n := s.nodes[0];
    assert NodeOk(ContextOf(s), 0, n) && EndsOk(s);
    AtOnce(n.app, op, internal, env);
  }

  lemma AtOnce(a: App, op: Op, internal: bool, env: BeginEnv)
    requires a.pos == 0 && a.numServers > 0
    requires var (b, ok) := AppendBegin(a, op, internal, env); !b.forwarded && ok
    ensures var (b, ok) := AppendBegin(a, op, internal, env); b.status.Success?
    ensures a.IsOpen() && a.numServers == 1
  {
    OnlySuccess(a, op, internal, env);
    SuccessMeansOpen(a, op, internal, env);
    ForwardedIff(a, op, internal, env);
  }

  /** What is not begun is not committed. */
  lemma OnlySuccess(a: App, op: Op, internal: bool, env: BeginEnv)
    requires AppendBegin(a, op, internal, env).1
    ensures Begin(a, op, internal, env).status.Success?
    ensures AppendBegin(a, op, internal, env).0.forwarded == Begin(a, op, internal, env).forwarded
    ensures AppendBegin(a, op, internal, env).0.status.Success?
  {
  }

  lemma ForwardedIff(a: App, op: Op, internal: bool, env: BeginEnv)
    requires Begin(a, op, internal, env).status.Success? && CheckLease(a, env.leaseValid) == a
    ensures Begin(a, op, internal, env).forwarded <==> a.pos + 1 < a.numServers
  {
  }

  lemma SlaveCounts(s: System, i: nat, op: Op, checksumOk: bool, peerUp: bool, j: nat)
    requires Arrives(s, i, op) && CountedAt(s, j)
    ensures CountedAt(StepDeliver(s, i, checksumOk, peerUp), j)
  {
    var env, t := SlaveEnv(i, checksumOk, peerUp), StepDeliver(s, i, checksumOk, peerUp);
    NoAckRow(s, i);
    AppendCounts(s.nodes[i].app, op, false, env);
    SlaveNode(s, i, op, checksumOk, peerUp, j);
    var (b, ok) := AppendBegin(s.nodes[i].app, op, false, env);
    if j == i && !b.forwarded && ok {
      TailIsDone(s, i, op, env);
      CountedUp(s.hist, t.hist, s.nodes[j], t.nodes[j]);
    } else {
      CountedKept(s.hist, t.hist, s.nodes[j], t.nodes[j]);
    }
  }

  lemma SlaveNode(s: System, i: nat, op: Op, checksumOk: bool, peerUp: bool, j: nat)
    requires 0 < i < |s.nodes| && s.nodes[i].inbox != [] && s.nodes[i].inbox[0] == Append(op) && j < |s.nodes|
    ensures var t := StepDeliver(s, i, checksumOk, peerUp);
      var (b, ok) := AppendBegin(s.nodes[i].app, op, false, SlaveEnv(i, checksumOk, peerUp));
      && j < |t.nodes| && t.hist == s.hist
      && t.nodes[j].app == (if i == j then b.app else s.nodes[j].app)
      && t.nodes[j].committed == s.nodes[j].committed + if i == j && !b.forwarded && ok then 1 else 0
  {
  }

  /** A slave commits at once only if it is the last one, and then the append that comes next. */
  lemma TailIsDone(s: System, i: nat, op: Op, env: BeginEnv)
    requires Arrives(s, i, op)
    requires var (b, ok) := AppendBegin(s.nodes[i].app, op, false, env); !b.forwarded && ok
    ensures s.nodes[i].committed < |s.hist| && s.hist[s.nodes[i].committed] == op
  {
    var a := s.nodes[i].app;
    ArrivalFacts(s, i, op);
    ChainTakes.NodeFacts(s, i);
    assert EndsOk(s);
    SlaveAppendIff(a, op, env);
    assert a.IsOpen() && i + 1 == |s.nodes|;
  }

  lemma CloseCounts(s: System, i: nat, w: int, mc: int, j: nat)
    requires 0 < i < |s.nodes| && CountedAt(s, j)
    ensures CountedAt(StepClose(s, i, w, mc), j)
  {
    CloseKept(s.nodes[i].app, w, mc);
    CountedKept(s.hist, s.hist, s.nodes[j], StepClose(s, i, w, mc).nodes[j]);
  }

  lemma CloseKept(a: App, w: int, mc: int)
    ensures CountsKept(a, CloseWriteId(a, w, mc).0)
  {
  }

  lemma ReplyCounts(s: System, i: nat, j: nat)
    requires Inv(s) && CountedAt(s, j) && !ReplyKills(s, i)
    ensures CountedAt(StepReply(s, i), j)
  {
    var t := StepReply(s, i);
    if i + 1 < |s.nodes| && s.nodes[i + 1].outbox != [] {
      var n, r := s.nodes[i], s.nodes[i + 1].outbox[0];
      var k := Find(n.app.inFlight, r.id);
      NoAckRow(s, i);
      if k < |n.app.inFlight| {
        DoneCounts(n.app, n.app.inFlight[k], r.ok);
        ReplyShape(s, i, k);
        if j == i && OpDone(n.app, n.app.inFlight[k], r.ok).1 {
          DoneIsOldest(s, i);
          CountedUp(s.hist, t.hist, n, t.nodes[j]);
        } else {
          CountedKept(s.hist, t.hist, s.nodes[j], t.nodes[j]);
        }
      } else {
        CountedKept(s.hist, t.hist, s.nodes[j], t.nodes[j]);
      }
    }
  }

  lemma DoneIsOldest(s: System, i: nat)
    requires Inv(s) && i + 1 < |s.nodes| && s.nodes[i + 1].outbox != [] && !ReplyKills(s, i)
    requires var n, r := s.nodes[i], s.nodes[i + 1].outbox[0];
      var k := Find(n.app.inFlight, r.id); k < |n.app.inFlight| && OpDone(n.app, n.app.inFlight[k], r.ok).1
    ensures var n, r := s.nodes[i], s.nodes[i + 1].outbox[0];
      n.committed < |s.hist| && n.app.inFlight[Find(n.app.inFlight, r.id)] == s.hist[n.committed]
  {
    ChainTakes.OldestAnswered(s, i);
  }

  lemma BreakCounts(s: System, i: nat, keep: nat, j: nat)
    requires CountedAt(s, j)
    ensures CountedAt(StepLinkDown(s, i, keep), j)
  {
    if i + 1 < |s.nodes| && s.nodes[i].app.inFlight != [] { SetRows(s.nodes[i].app.(inFlight := []), ReplicationFailed); }
    CountedKept(s.hist, s.hist, s.nodes[j], StepLinkDown(s, i, keep).nodes[j]);
  }

  lemma AllocateCounts(s: System, e: Event, j: nat)
    requires Inv(s) && CountedAt(s, j) && e.Allocate?
    ensures CountedAt(Step(s, e), j)
  {
    var n, w := s.nodes[j], e.request.writeId;
    if j == e.node && w >= 0 && w !in n.issued {
      assert NodeOk(ContextOf(s), j, n);
      NoUses(s.hist, n.committed, w);
      RowsIssued(ContextOf(s), j, n);
      AllocateRows(n.app, e.request, e.maxWriteIds);
    } else {
      CountedKept(s.hist, s.hist, n, Step(s, e).nodes[j]);
    }
  }

  lemma AllocateRows(a: App, r: WriteIdRequest, max: nat)
    requires r.writeId !in a.wids
    ensures var b := AllocateWriteId(a, r, max, true).0;
      forall w | w in b.wids :: if w == r.writeId then b.wids[w].appendCount == 0 else w in a.wids && b.wids[w] == a.wids[w]
  {
  }

  lemma TableCounts(s: System, e: Event, j: nat)
    requires CountedAt(s, j) && (e.Invalidate? || e.Reserve? || e.Inquire? || e.ClientClose?)
    ensures CountedAt(Step(s, e), j)
  {
    var n := s.nodes[j];
    if e.Invalidate? { SetRows(n.app.(wids := n.app.wids - {e.writeId}), ReplicationFailed); }
    else if e.Reserve? { ReserveKept(n.app, e.writeId, e.bytes, e.release); }
    else if e.ClientClose? { CloseKept(s.nodes[0].app, e.writeId, -1); }
    CountedKept(s.hist, s.hist, n, Step(s, e).nodes[j]);
  }

  lemma ReserveKept(a: App, w: int, n: nat, release: bool)
    ensures CountsKept(a, ChangeReservation(a, w, n, release, true).0)
  {
  }

  lemma StableCounts(s: System, e: Event, j: nat)
    requires CountedAt(s, j) && (e.BeginStable? || e.MakeStable? || e.Finish?)
    ensures CountedAt(Step(s, e), j)
  {
    var a := s.nodes[j].app;
    match e
    case BeginStable(i, version, io) => ChainAnswers.BeginRows(a, version, io); BeginRowsKept(s, i, version, io, j);
    case MakeStable(_) => if s.decision.Some? { ChainAnswers.StableRows(a, 0, true, s.decision.value.size, 0, true); }
    case Finish(_, written, ioOk) => ChainAnswers.FinishRows(a, written, ioOk);
    CountedKept(s.hist, s.hist, s.nodes[j], Step(s, e).nodes[j]);
  }

  lemma BeginRowsKept(s: System, i: nat, version: int, io: bool, j: nat)
    requires j < |s.nodes|
    ensures var t := StepBeginStable(s, i, version, io);
      j < |t.nodes| && t.hist == s.hist && t.nodes[j].committed == s.nodes[j].committed && t.nodes[j].app.wids == s.nodes[j].app.wids
  {
    ChainAnswers.BeginRows(s.nodes[j].app, version, io);
  }

  lemma LocalCounts(s: System, e: Event, j: nat)
    requires CountedAt(s, j)
    requires e.Fail? || e.IdleClose? || e.Lose? || e.Delete? || e.DecideRelinquished? || e.DecideShortest?
    ensures CountedAt(Step(s, e), j)
  {
    LocalKept(s.nodes[j].app);
    CountedKept(s.hist, s.hist, s.nodes[j], Step(s, e).nodes[j]);
  }

  lemma LocalKept(a: App)
    ensures SetState(a, ReplicationFailed).wids == a.wids && SetState(a, ChunkLost).wids == a.wids && TryToCloseFailed(a).wids == a.wids
    ensures SetState(a.(wids := map[]), PendingDelete).wids == map[]
  {
    SetRows(a, ReplicationFailed);
    SetRows(a, ChunkLost);
    ChainAnswers.CloseRows(a);
    SetRows(a.(wids := map[]), PendingDelete);
  }

  lemma DeliverCounts(s: System, e: Event, j: nat)
    requires Inv(s) && CountedAt(s, j) && e.Deliver?
    ensures CountedAt(Step(s, e), j)
  {
    var i := e.node;
    if 0 < i < |s.nodes| && s.nodes[i].inbox != [] {
      var n := s.nodes[i];
      match n.inbox[0]
      case Append(op) => SlaveCounts(s, i, op, e.checksumOk, e.peerUp, j);
      case Close(w, mc) =>
        var t := s.(nodes := s.nodes[i := n.(inbox := n.inbox[1..])]);
        assert Step(s, e) == StepClose(t, i, w, mc);
        CloseCounts(t, i, w, mc, j);
    }
  }

  lemma StepCounts(s: System, e: Event, j: nat)
    requires Inv(s) && Harmless(s, e) && CountedAt(s, j)
    ensures CountedAt(Step(s, e), j)
  {
    if e.ClientAppend? { MasterCounts(s, ClientOp(s, e), false, e.env, j); }
    else if e.SendCommitAck? {
      var a := s.nodes[0].app;
      MasterCounts(s, CommitAck(s, a), true, e.env.(replicationPos := 0, peer := a.peer), j);
    }
    else if e.Deliver? { DeliverCounts(s, e, j); }
    else if e.TakeReply? { HarmlessAt(s, e, e.node); ReplyCounts(s, e.node, j); }
    else if e.LinkDown? { BreakCounts(s, e.node, e.keep, j); }
    else if e.Allocate? { AllocateCounts(s, e, j); }
    else if e.Invalidate? || e.Reserve? || e.Inquire? || e.ClientClose? { TableCounts(s, e, j); }
    else if e.BeginStable? || e.MakeStable? || e.Finish? { StableCounts(s, e, j); }
    else { LocalCounts(s, e, j); }
  }

  lemma {:induction false} RunCounts(chunkId: int, version: int, numServers: nat, start: seq<Byte>, events: seq<Event>, j: nat)
    requires numServers > 0 && |start| <= CHUNKSIZE && j < numServers
    requires NoneDown(Run(Init(chunkId, version, numServers, start), events))
    ensures CountedAt(Run(Init(chunkId, version, numServers, start), events), j)
  {
    if events != [] {
      var before, e := events[..|events| - 1], events[|events| - 1];
      var s := Run(Init(chunkId, version, numServers, start), before);
      DownStays(s, e);
      Reachable(chunkId, version, numServers, start, before);
      RunCounts(chunkId, version, numServers, start, before, j);
      forall i: nat | i < |s.nodes| ensures !BringsDown(s, e, i) { DownIff(s, e, i); }
      StepCounts(s, e, j);
    }
  }

  lemma ReachedCounts(s: System, j: nat)
    requires Reached(s) && j < |s.nodes|
    ensures CountedAt(s, j)
  {
    var chunkId: int, version: int, numServers: nat, start: seq<Byte>, events: seq<Event> :|
      numServers > 0 && |start| <= CHUNKSIZE && s == Run(Init(chunkId, version, numServers, start), events);
    RunFrame(Init(chunkId, version, numServers, start), events);
    RunCounts(chunkId, version, numServers, start, events, j);
  }

  // ----- which ids can be dropped

  /**
   A master that is not stable takes a write id back exactly if it is known, was not inquired about, and no append
   with it was ever begun.
   */
  lemma InvalidateIff(s: System, w: int, declareFailure: bool)
    requires Reached(s) && |s.nodes| > 0 && w in s.nodes[0].app.wids && !s.nodes[0].app.makeStableSucceeded
    ensures var n := s.nodes[0];
      var t := Step(s, Invalidate(0, w, declareFailure));
      && |t.nodes| == |s.nodes|
      && (w !in t.nodes[0].app.wids <==>
            !n.app.wids[w].readOnly && forall k: nat | k < |s.hist| :: s.hist[k].writeId != w)
  {
    var n := s.nodes[0];
    ReachedInv(s);
    ReachedCounts(s, 0);
    assert NodeOk(ContextOf(s), 0, n) && RowOk(ContextOf(s), n, w) && EndsOk(s);
    SetRows(n.app.(wids := n.app.wids - {w}), ReplicationFailed);
    if forall k: nat | k < |s.hist| :: s.hist[k].writeId != w {
      NoUses(s.hist, n.committed, w);
    } else if n.app.wids[w].status.Success? && n.app.wids[w].appendCount == 0 {
      SomeUse(s.hist, n.committed, w);
      ChainMasterAnswers.MasterAnswerIff(s, w);
      ChainMasterAnswers.MasterResolves(n.app, w);
    }
  }
}
