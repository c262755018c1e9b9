/** The master begins an append. */
module ChainAccept {
  import opened Common
  import opened RecordAppender
  import opened Chain
  import opened ChainInvariant
  import opened ChainQuiet
  import opened ChainAppend
  import opened ChainLinks
  import opened ChainSteps
  import opened ChainReplies
  import opened ChainMaster

  /** An op as it reaches the master: from a client, or the master's own commit ack. */
  ghost predicate AtMaster(a: App, op: Op, internal: bool, env: BeginEnv) {
    && a.IsMaster() && op.fileOffset < 0 && op.chunkId == a.chunkId && op.numServers == a.numServers
    && (internal ==> op.IsAck() && a.IsOpen() && env.leaseValid && env.peer == a.peer && env.replicationPos == 0)
  }

  /** The master's reservation bookkeeping for an append it gives a place. */
  function Charged(a: App, op: Op): App {
    if op.writeId in a.wids && a.wids[op.writeId].reserved >= |op.data| && a.bytesReserved >= |op.data| then
      a.(nextOffset := a.nextOffset + |op.data|, bytesReserved := a.bytesReserved - |op.data|,
         wids := a.wids[op.writeId := a.wids[op.writeId].(reserved := a.wids[op.writeId].reserved - |op.data|)])
    else a
  }

  lemma MasterPlace(a: App, op: Op, internal: bool, env: BeginEnv)
    requires AtMaster(a, op, internal, env) && NO_WRITE_ID !in a.wids
    ensures var p := Place(a, op, internal, env);
      if p.status.Success? then
        && p.op == op.(fileOffset := a.nextOffset) && p.app == Charged(a, op)
        && (!internal ==> op.writeId in a.wids && !a.wids[op.writeId].readOnly && a.wids[op.writeId].status.Success?
                          && a.wids[op.writeId].reserved >= |op.data| && a.bytesReserved >= |op.data|)
      else p.app == a && !internal
  {
  }

  /** The shape of an append the master refuses. */
  lemma MasterRefuses(a: App, op: Op, internal: bool, env: BeginEnv)
    requires AtMaster(a, op, internal, env) && NO_WRITE_ID !in a.wids && a.nextOffset <= CHUNKSIZE
    requires !Begin(a, op, internal, env).status.Success?
    ensures var b := Begin(a, op, internal, env).app;
      || b == CheckLease(a, env.leaseValid)
      || (b == Charged(a, op) && a.numServers > 1 && a.nextOffset + |op.data| <= CHUNKSIZE)
  {
    OpenLease(a, env.leaseValid);
    if CheckLease(a, env.leaseValid).IsOpen() { MasterPlace(a, op, internal, env); }
  }

  lemma OpenLease(a: App, leaseValid: bool)
    ensures CheckLease(a, leaseValid).IsOpen() ==> CheckLease(a, leaseValid) == a
  {
  }

  lemma ChargedNode(c: Context, n: Node, op: Op)
    requires NodeOk(c, 0, n) && c.size > 1 && n.app.nextOffset + |op.data| <= CHUNKSIZE
    ensures NodeOk(c, 0, n.(app := Charged(n.app, op))) && Quiet(n, n.(app := Charged(n.app, op)))
  {
    var m := n.(app := Charged(n.app, op));
    forall w | w in m.app.wids ensures RowOk(c, m, w) { assert RowOk(c, n, w); }
  }

  lemma MasterRefusedNode(c: Context, n: Node, op: Op, internal: bool, env: BeginEnv)
    requires NodeOk(c, 0, n) && AtMaster(n.app, op, internal, env)
    requires !Begin(n.app, op, internal, env).status.Success?
    ensures var b := Begin(n.app, op, internal, env).app; NodeOk(c, 0, n.(app := b)) && Quiet(n, n.(app := b))
  {
    assert NO_WRITE_ID !in n.app.wids;
    MasterRefuses(n.app, op, internal, env);
    if n.app.IsOpen() { FailNode(c, 0, n); }
    if n.app.numServers > 1 && n.app.nextOffset + |op.data| <= CHUNKSIZE { ChargedNode(c, n, op); }
  }

  /** The op the master passes on. */
  function Stamped(a: App, op: Op): Op {
    op.(fileOffset := a.nextOffset, masterCommitted := if a.numServers > 1 then a.nextCommit else op.masterCommitted)
  }

  function Left(a: App, w: int, bytes: nat): nat {
    if w in a.wids && a.wids[w].reserved >= bytes then a.wids[w].reserved - bytes else 0
  }

  function Rest(a: App, bytes: nat): nat {
    if a.bytesReserved >= bytes then a.bytesReserved - bytes else 0
  }

  /** What the master insists on before it accepts an append. */
  ghost predicate Fits(a: App, op: Op, internal: bool) {
    && a.IsOpen() && a.nextOffset + |op.data| <= CHUNKSIZE
    && (!internal ==> op.writeId in a.wids && !a.wids[op.writeId].readOnly && a.wids[op.writeId].status.Success?)
  }

  /** The appender of the master after it accepted an append. */
  function AfterAccept(a: App, op: Op): App {
    var z := Stamped(a, op);
    var t := Taken(a, z, Left(a, op.writeId, |op.data|), Rest(a, |op.data|));
    if a.numServers > 1 then t.(ackSent := a.nextCommit) else t.(inFlight := a.inFlight)
  }

  /** What is left to do for an append that was given its place. */
  function Handed(a: App, p: Placed, ack: bool): App {
    var b := if ack || p.op.writeId !in p.app.wids then p.app else Record(p.app, p.op);
    if a.numServers > 1 then
      b.(ackSent := b.nextCommit, inFlight := b.inFlight + [p.op.(masterCommitted := b.nextCommit)])
    else b
  }

  lemma BeginPlaced(a: App, op: Op, internal: bool, env: BeginEnv, p: Placed)
    requires a.IsMaster() && a.IsOpen() && CheckLease(a, env.leaseValid) == a && a.pos + 1 <= a.numServers
    requires Begin(a, op, internal, env).status.Success? && p == Place(a, op, internal, env)
    ensures var b := Begin(a, op, internal, env);
      && p.status.Success? && a.nextOffset + |op.data| <= CHUNKSIZE
      && (b.forwarded <==> a.numServers > 1) && b.app == Handed(a, p, IsMasterAck(a, op, internal))
      && b.op == if a.numServers > 1 then p.op.(masterCommitted := b.app.nextCommit) else p.op
  {
  }

  /** The shape of an append the master accepts. */
  lemma MasterAccepts(a: App, op: Op, internal: bool, env: BeginEnv)
    requires AtMaster(a, op, internal, env) && NO_WRITE_ID !in a.wids && a.pos + 1 <= a.numServers
    requires Begin(a, op, internal, env).status.Success?
    ensures var b := Begin(a, op, internal, env);
      Fits(a, op, internal) && b.op == Stamped(a, op) && (b.forwarded <==> a.numServers > 1) && b.app == AfterAccept(a, op)
  {
    SuccessMeansOpen(a, op, internal, env);
    MasterPlace(a, op, internal, env);
    BeginPlaced(a, op, internal, env, Place(a, op, internal, env));
  }

  lemma SuccessMeansOpen(a: App, op: Op, internal: bool, env: BeginEnv)
    requires a.IsMaster() && Begin(a, op, internal, env).status.Success?
    ensures a.IsOpen() && CheckLease(a, env.leaseValid) == a
  {
  }

  /** The node of the master after it accepted an append, as the chain sees it. */
  function Accepting(n: Node, op: Op): Node {
    Took(n, Stamped(n.app, op), Left(n.app, op.writeId, |op.data|), Rest(n.app, |op.data|))
  }

  lemma AcceptingShape(n: Node, op: Op)
    ensures NoteBegun(n.(app := AfterAccept(n.app, op)), Stamped(n.app, op)) ==
            if n.app.numServers > 1 then Accepting(n, op).(app := Accepting(n, op).app.(ackSent := n.app.nextCommit))
            else Accepting(n, op).(app := Accepting(n, op).app.(inFlight := n.app.inFlight))
  {
  }

  lemma AckSentNode(c: Context, i: nat, n: Node, k: nat)
    requires NodeOk(c, i, n)
    ensures NodeOk(c, i, n.(app := n.app.(ackSent := k)))
  {
    var m := n.(app := n.app.(ackSent := k));
    forall w | w in m.app.wids ensures RowOk(c, m, w) { assert RowOk(c, n, w); }
  }

  // ----- the history grows

  ghost function Extended(c: Context, op: Op): Context {
    c.(hist := c.hist + [op])
  }

  lemma ExtendedHist(c: Context, n: Node, op: Op)
    requires HistOk(c) && NodeOk(c, 0, n) && n.begun == |c.hist| && c.masterCommit == n.app.nextCommit
    requires op.id == |c.hist| && op.chunkId == c.chunkId && op.numServers == c.size
    requires op.fileOffset == n.app.nextOffset && (op.writeId >= 0 || op.IsAck())
    requires !op.IsAck() ==> op.writeId !in c.closed && forall k: nat | k < |c.hist| && c.hist[k].writeId == op.writeId :: k < c.masterDone
    requires c.size > 1 ==> op.masterCommitted == n.app.nextCommit
    ensures var d := Extended(c, op); Grows(c, d) && HistOk(d) && NodeOk(d, 0, n)
  {
    var d := Extended(c, op);
    LogsGrow(c, d);
    HistGrows(c, d);
    NodeGrows(c, d, 0, n);
    assert OpOk(d, |c.hist|);
    ExtendedSerial(c, op);
  }

  lemma ExtendedSerial(c: Context, op: Op)
    requires SerialOk(c) && (op.writeId >= 0 || op.IsAck())
    requires !op.IsAck() ==> op.writeId !in c.closed && forall k: nat | k < |c.hist| && c.hist[k].writeId == op.writeId :: k < c.masterDone
    ensures SerialOk(Extended(c, op))
  {
    var d := Extended(c, op);
    forall k: nat | k < |c.hist| ensures d.hist[k] == c.hist[k] {}
    forall j: nat, k: nat | j < k < |d.hist| && d.hist[j].writeId == d.hist[k].writeId >= 0 ensures j < d.masterDone {
      if k == |c.hist| { assert d.hist[k] == op && c.hist[j].writeId == op.writeId; }
    }
  }

  lemma MasterTakes(c: Context, n: Node, op: Op, internal: bool)
    requires HistOk(c) && NodeOk(c, 0, n) && n.begun == |c.hist| && c.masterCommit == n.app.nextCommit
    requires c.masterDone == n.committed && Fits(n.app, op, internal) && (internal ==> op.IsAck())
    requires op.id == |c.hist| && op.chunkId == c.chunkId && op.numServers == c.size && (!internal ==> op.writeId !in c.closed)
    ensures var d := Extended(c, Stamped(n.app, op));
      Grows(c, d) && HistOk(d) && NodeOk(d, 0, n) && NodeOk(d, 0, Accepting(n, op))
  {
    var z := Stamped(n.app, op);
    var d := Extended(c, z);
    assert NO_WRITE_ID !in n.app.wids;
    if !internal { assert RowOk(c, n, op.writeId); }
    ExtendedHist(c, n, z);
    assert d.hist[n.begun] == z;
    TakeNode(d, 0, n, z, Left(n.app, op.writeId, |op.data|), Rest(n.app, |op.data|));
  }

  lemma StepMasterForwards(s: System, op: Op, internal: bool, env: BeginEnv)
    requires |s.nodes| > 1 && var b := Begin(s.nodes[0].app, op, internal, env); b.forwarded && b.status.Success?
    ensures var n := s.nodes[0]; var b := Begin(n.app, op, internal, env);
      StepMaster(s, op, internal, env) ==
      s.(hist := s.hist + [b.op], nodes := Send(s.nodes[0 := NoteBegun(n.(app := b.app), b.op)], 1, Append(b.op)))
  {
  }

  /** With slaves: the append goes into the history and onto the wire. */
  lemma MasterForwards(s: System, op: Op, internal: bool, env: BeginEnv)
    requires Inv(s) && AtMaster(s.nodes[0].app, op, internal, env) && 1 < |s.nodes|
    requires op.id == |s.hist|
    requires Begin(s.nodes[0].app, op, internal, env).status.Success?
    ensures Inv(StepMaster(s, op, internal, env))
  {
    var c, n := ContextOf(s), s.nodes[0];
    var z := Stamped(n.app, op);
    assert NodeOk(c, 0, n) && NO_WRITE_ID !in n.app.wids && EndsOk(s) && RetiredOk(s);
    MasterAccepts(n.app, op, internal, env);
    StepMasterForwards(s, op, internal, env);
    MasterTakes(c, n, op, internal);
    AckSentNode(Extended(c, z), 0, Accepting(n, op), n.app.nextCommit);
    AcceptingShape(n, op);
    MasterSends(s, StepMaster(s, op, internal, env), z, NoteBegun(n.(app := AfterAccept(n.app, op)), z));
  }

  lemma MasterSends(s: System, t: System, z: Op, m: Node)
    requires Inv(s) && 1 < |s.nodes| && s.nodes[0].app.IsOpen() && m.app.IsOpen()
    requires t == s.(hist := s.hist + [z], nodes := Send(s.nodes[0 := m], 1, Append(z)))
    requires var c := ContextOf(s); var d := Extended(c, z); Grows(c, d) && HistOk(d) && NodeOk(d, 0, m)
    requires m.begun == s.nodes[0].begun + 1 && m.committed == s.nodes[0].committed && z.masterCommitted == m.app.nextCommit
    requires OnlyFresh(s.nodes[0], m)
    ensures Inv(t)
  {
    var c, n, down := ContextOf(s), s.nodes[0], s.nodes[1];
    var d := Extended(c, z);
    assert NodeOk(c, 0, n) && NodeOk(c, 1, down) && LinkOk(c, 0, n, s.nodes[0 + 1]) && EndsOk(s);
    LogsGrow(c, d);
    assert m.app.nextCommit == n.app.nextCommit;
    LinkGrows(c, d, 0, n, down);
    LinkSend(d, 0, n, down, m, Append(z));
    NodeGrows(c, d, 1, down);
    NodeWire(d, 1, down, t.nodes[1]);
    assert ContextOf(t) == d;
    MetaKept(s, t);
    MasterEnds(s, t);
    Rebuild(s, t, 0);
  }

  lemma StepMasterAlone(s: System, op: Op, internal: bool, env: BeginEnv)
    requires |s.nodes| == 1 && var b := Begin(s.nodes[0].app, op, internal, env); !b.forwarded && b.status.Success?
    ensures var n := s.nodes[0]; var b := Begin(n.app, op, internal, env); var (a, ok) := Commit(b.app, b.op, true);
      var m := NoteBegun(n.(app := a), b.op);
      StepMaster(s, op, internal, env) ==
      s.(hist := s.hist + [b.op], nodes := s.nodes[0 := if ok then m.(committed := n.committed + 1) else m])
  {
  }

  /** Alone: the append commits at once. */
  lemma MasterAlone(s: System, op: Op, internal: bool, env: BeginEnv)
    requires Inv(s) && AtMaster(s.nodes[0].app, op, internal, env) && |s.nodes| == 1
    requires op.id == |s.hist| && op.version == s.version
    requires Begin(s.nodes[0].app, op, internal, env).status.Success?
    ensures Inv(StepMaster(s, op, internal, env))
  {
    var c, n := ContextOf(s), s.nodes[0];
    var z := Stamped(n.app, op);
    assert NodeOk(c, 0, n) && NO_WRITE_ID !in n.app.wids && EndsOk(s) && RetiredOk(s);
    MasterAccepts(n.app, op, internal, env);
    StepMasterAlone(s, op, internal, env);
    MasterTakes(c, n, op, internal);
    var took := Accepting(n, op);
    assert n.app.inFlight == [];
    AcceptedAlone(n, op);
    var a := Commit(AfterAccept(n.app, op), z, true).0;
    var m := took.(app := a, committed := n.committed + 1);
    var t := s.(hist := s.hist + [z], nodes := s.nodes[0 := m]);
    AloneCommits(s, t, z, took, m);
    InvSame(t, StepMaster(s, op, internal, env));
  }

  /** With nothing in flight before it, the append is the only one the master waits for. */
  lemma AcceptedAlone(n: Node, op: Op)
    requires n.app.inFlight == [] && n.app.numServers == 1
    ensures var took := Accepting(n, op);
      took.app.inFlight == [Stamped(n.app, op)] && AfterAccept(n.app, op) == took.app.(inFlight := took.app.inFlight[1..])
  {
    assert [Stamped(n.app, op)][1..] == [];
  }

  lemma AloneCommits(s: System, t: System, z: Op, took: Node, m: Node)
    requires Inv(s) && |s.nodes| == 1 && s.nodes[0].app.IsOpen() && took.app.IsOpen() && took.app.inFlight == [z]
    requires took.begun == s.nodes[0].begun + 1 && took.committed == s.nodes[0].committed
    requires var c := ContextOf(s); var d := Extended(c, z); Grows(c, d) && HistOk(d) && NodeOk(d, 0, took)
    requires m == took.(app := Commit(took.app.(inFlight := took.app.inFlight[1..]), z, true).0, committed := took.committed + 1)
    requires t == s.(hist := s.hist + [z], nodes := s.nodes[0 := m])
    requires z.version == s.version && OnlyFresh(s.nodes[0], took)
    requires z.IsAck() || (z.writeId in took.app.wids && took.app.wids[z.writeId].status.InProgress?)
    ensures Commit(took.app.(inFlight := took.app.inFlight[1..]), z, true).1
    ensures Inv(t)
  {
    var c, n := ContextOf(s), s.nodes[0];
    var d := Extended(c, z);
    assert NodeOk(c, 0, n) && EndsOk(s);
    LogPrefix(d, took.committed, took.committed + 1);
    LogGrows(c, d, n.committed);
    var e := Advanced(d, Off(d, took.committed + 1), took.committed + 1);
    LogsGrow(d, e);
    HistGrows(d, e);
    NodeGrows(d, e, 0, took);
    assert WellPlaced(e, took.committed);
    CommitInvalidIff(e, 0, took);
    FreshNotSettled(e, 0, took, z);
    CommitNode(e, 0, took);
    assert e.hist[took.committed] == z;
    assert ContextOf(t) == e;
    MetaKept(s, t);
    Rebuild(s, t, 0);
  }

  /** A master without slaves takes in an append of another version. */
  predicate AloneDies(s: System, op: Op, internal: bool, env: BeginEnv) {
    |s.nodes| == 1 && op.version != s.version && Begin(s.nodes[0].app, op, internal, env).status.Success?
  }

  lemma MasterAppend(s: System, op: Op, internal: bool, env: BeginEnv)
    requires Inv(s) && AtMaster(s.nodes[0].app, op, internal, env)
    requires op.id == |s.hist| && !AloneDies(s, op, internal, env)
    ensures Inv(StepMaster(s, op, internal, env))
  {
    var n := s.nodes[0];
    var b := Begin(n.app, op, internal, env);
    if b.status.Success? {
      if |s.nodes| == 1 { MasterAlone(s, op, internal, env); } else { MasterForwards(s, op, internal, env); }
    } else {
      assert NodeOk(ContextOf(s), 0, n);
      MasterRefusedNode(ContextOf(s), n, op, internal, env);
      assert b.app.IsMaster() && !b.forwarded;
      QuietApp(s, 0, b.app);
    }
  }
}
