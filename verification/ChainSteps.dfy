/** Every step of the chain keeps the invariant. */
module ChainSteps {
  import opened Common
  import opened RecordAppender
  import opened Chain
  import opened ChainInvariant
  import opened ChainQuiet
  import opened ChainAppend
  import opened ChainLinks

  // ----- a slave takes or refuses an append

  function SlaveEnv(i: nat, checksumOk: bool, peerUp: bool): BeginEnv {
    BeginEnv(i, i + 1, true, checksumOk, peerUp, None)
  }

  /** A slave after it learned from the append how far the master committed. */
  function Heard(a: App, op: Op): App {
    var h := a.(masterCommitted := op.masterCommitted);
    if op.IsAck() || op.writeId !in h.wids then h else Settle(h, op.writeId)
  }

  function KeptReservation(a: App, w: int): nat {
    if w in a.wids then a.wids[w].reserved else 0
  }

  ghost predicate InWindow(a: App, op: Op) {
    a.masterCommitted <= op.masterCommitted <= a.nextCommit && 0 <= op.masterCommitted
  }

  /** The shape of what an open slave does with an append it accepts. */
  lemma SlaveAccepts(a: App, op: Op, env: BeginEnv)
    requires a.pos > 0 && a.IsOpen() && InWindow(a, op) && NO_WRITE_ID !in a.wids
    requires op.writeId >= 0 || op.IsAck()
    requires Begin(a, op, false, env).status.Success?
    ensures var b := Begin(a, op, false, env);
      var h := Heard(a, op);
      && op.fileOffset == a.nextOffset && a.nextOffset + |op.data| <= CHUNKSIZE
      && (!op.IsAck() ==> op.writeId in h.wids && !h.wids[op.writeId].readOnly && h.wids[op.writeId].status.Success?)
      && b.op == op && (b.forwarded <==> a.pos + 1 < a.numServers)
      && b.app == Taken(h, op, KeptReservation(h, op.writeId), h.bytesReserved).(
                    inFlight := if b.forwarded then h.inFlight + [op] else h.inFlight)
  {
  }

  /** Where a refused append leaves an open slave, before and after it gives up. */
  ghost predicate Refusal(a: App, op: Op, h: App, r: App) {
    && (h == a || h == Heard(a, op))
    && r == SetState(h, ReplicationFailed).(nextOffset := r.nextOffset)
  }

  lemma SlaveRefusesPlace(a: App, op: Op, env: BeginEnv) returns (h: App)
    requires a.pos > 0 && a.IsOpen() && InWindow(a, op)
    requires NO_WRITE_ID !in a.wids
    requires !Place(a, op, false, env).status.Success?
    ensures var p := Place(a, op, false, env).app;
      (h == a || h == Heard(a, op)) && (p == h || p == SetState(h, ReplicationFailed))
  {
    if IsMasterAck(a, op, false) {
      h := a;
    } else if op.writeId !in a.wids {
      h := a;
    } else if op.fileOffset != a.nextOffset {
      h := a;
    } else {
      h := Heard(a, op);
    }
  }

  /** Giving up after the append failed locally. */
  lemma SlaveGivesUp(a: App, op: Op, h: App, r: App)
    requires a.pos > 0 && a.IsOpen() && (h == a || h == Heard(a, op))
    requires r == h.(nextOffset := r.nextOffset) || r == SetState(h, ReplicationFailed)
    ensures var (x, ok) := Commit(r, op, false); !ok && Refusal(a, op, h, x)
  {
    assert h.phase.Open? && h.pos == a.pos;
  }

  lemma SlaveRefusesBegin(a: App, op: Op, env: BeginEnv) returns (h: App)
    requires a.pos > 0 && a.IsOpen() && InWindow(a, op) && NO_WRITE_ID !in a.wids
    requires op.writeId >= 0 || op.IsAck()
    requires !Begin(a, op, false, env).status.Success?
    ensures var b := Begin(a, op, false, env);
      && !b.forwarded && b.op == op && (h == a || h == Heard(a, op))
      && (b.app == h.(nextOffset := b.app.nextOffset) || b.app == SetState(h, ReplicationFailed))
  {
    if !BeginCheck(a, op, false, env).Success? {
      h := a;
    } else if !Place(a, op, false, env).status.Success? {
      h := SlaveRefusesPlace(a, op, env);
    } else {
      h := Heard(a, op);
      SlavePlaces(a, op, env);
    }
  }

  /** The shape of what an open slave does with an append it refuses: it leaves the open phase. */
  lemma SlaveRefuses(a: App, op: Op, env: BeginEnv) returns (h: App)
    requires a.pos > 0 && a.IsOpen() && InWindow(a, op) && NO_WRITE_ID !in a.wids
    requires op.writeId >= 0 || op.IsAck()
    requires !Begin(a, op, false, env).status.Success?
    ensures var (b, ok) := AppendBegin(a, op, false, env);
      !b.forwarded && !b.status.Success? && !ok && Refusal(a, op, h, b.app)
  {
    h := SlaveRefusesBegin(a, op, env);
    SlaveGivesUp(a, op, h, Begin(a, op, false, env).app);
    assert h.pos == a.pos;
  }

  lemma SlavePlaces(a: App, op: Op, env: BeginEnv)
    requires a.pos > 0 && a.IsOpen() && InWindow(a, op) && NO_WRITE_ID !in a.wids
    requires op.writeId >= 0 || op.IsAck()
    requires Place(a, op, false, env).status.Success?
    ensures var p := Place(a, op, false, env);
      p.op == op && p.app == Heard(a, op).(nextOffset := a.nextOffset + |op.data|)
  {
  }

  /** When an append arrives, no earlier one with its write id is in flight here: the master had committed it. */
  lemma ArrivesAlone(c: Context, n: Node, op: Op)
    requires HistOk(c) && n.begun <= |c.hist| && c.masterDone <= n.committed
    requires n.app.IsOpen() ==> n.begun < |c.hist| && op == c.hist[n.begun]
    ensures !op.IsAck() ==> NoneInFlight(c, n, op.writeId)
  {
    assert n.app.IsOpen() ==> OpOk(c, n.begun);
  }

  lemma HeardOk(c: Context, i: nat, n: Node, op: Op)
    requires HistOk(c) && NodeOk(c, i, n) && i > 0 && InWindow(n.app, op) && op.masterCommitted <= c.masterCommit
    requires !op.IsAck() ==> NoneInFlight(c, n, op.writeId)
    ensures NodeOk(c, i, n.(app := n.app.(masterCommitted := op.masterCommitted)))
    ensures NodeOk(c, i, n.(app := Heard(n.app, op)))
    ensures Heard(n.app, op).nextCommit == n.app.nextCommit && Heard(n.app, op).phase == n.app.phase
  {
    HeardNode(c, i, n, op.masterCommitted);
    var m := n.(app := n.app.(masterCommitted := op.masterCommitted));
    if !op.IsAck() && op.writeId in m.app.wids { SettleNode(c, i, m, op.writeId); }
  }

  /** An open slave refused: what is left of its invariant is all that is needed of a closed one. */
  lemma RefuseNode(c: Context, i: nat, n: Node, op: Op, h: App, r: App)
    requires NodeOk(c, i, n.(app := h)) && i > 0 && n.app.IsOpen() && h.IsOpen()
    requires r == SetState(h, ReplicationFailed).(nextOffset := r.nextOffset)
    ensures NodeOk(c, i, n.(app := r)) && !r.IsOpen() && r.nextCommit == h.nextCommit && r.masterCommitted == h.masterCommitted
  {
    var m := n.(app := h);
    FailNode(c, i, m);
    var f := n.(app := SetState(h, ReplicationFailed));
    SameTable(c, i, f, n.(app := r));
  }

  // ----- delivery of an append

  /** Everything that is known when node `i` takes an append off its inbox. */
  ghost predicate Arrives(s: System, i: nat, op: Op) {
    && Inv(s) && 0 < i < |s.nodes| && s.nodes[i].inbox != [] && s.nodes[i].inbox[0] == Append(op)
  }

  /** The node after it took a packet off its inbox. */
  predicate Popped(n: Node, m: Node) {
    && n.inbox != [] && m.inbox == n.inbox[1..]
    && m.received == n.received + (if n.inbox[0].Append? then 1 else 0)
  }

  /** FIFO delivery: the append is the next one of the history, and its commit offset is in the window. */
  lemma ArrivalFacts(s: System, i: nat, op: Op)
    requires Arrives(s, i, op)
    ensures var c, n := ContextOf(s), s.nodes[i];
      && n.received < s.nodes[i - 1].begun && op == c.hist[n.received] && OpOk(c, n.received)
      && InWindow(n.app, op) && op.masterCommitted <= c.masterCommit && c.masterDone <= n.committed
      && (n.app.IsOpen() ==> n.received == n.begun)
  {
    var c, n, up := ContextOf(s), s.nodes[i], s.nodes[i - 1];
    assert LinkOk(c, i - 1, up, s.nodes[i - 1 + 1]);
    WirePop(c, i - 1, up, n, n.(inbox := n.inbox[1..], received := n.received + 1, begun := 0, app := n.app.(phase := Closed)));
    CommitsNested(s, 0, i);
    assert NodeOk(c, i, n) && NodeOk(c, i - 1, up);
    assert n.inbox[0].MasterCommitted() == op.masterCommitted;
  }

  /** The link above a node that took an append off the wire. */
  lemma LinkAbove(s: System, i: nat, op: Op, m: Node)
    requires Arrives(s, i, op) && Popped(s.nodes[i], m)
    requires s.nodes[i].begun <= m.begun <= s.nodes[i].begun + 1 && (m.begun == s.nodes[i].begun || s.nodes[i].app.IsOpen())
    requires m.app.IsOpen() ==> s.nodes[i].app.IsOpen() && m.begun == s.nodes[i].begun + 1
    requires m.app.masterCommitted == s.nodes[i].app.masterCommitted || m.app.masterCommitted == op.masterCommitted
    requires s.nodes[i].committed <= m.committed && RepliesOk(s.nodes[i - 1], m)
    ensures LinkOk(ContextOf(s), i - 1, s.nodes[i - 1], m)
  {
    var c, n, up := ContextOf(s), s.nodes[i], s.nodes[i - 1];
    ArrivalFacts(s, i, op);
    assert LinkOk(c, i - 1, up, s.nodes[i - 1 + 1]);
    WirePop(c, i - 1, up, n, m);
  }

  lemma EndsKept(s: System, t: System, i: nat)
    requires 0 < i < |s.nodes| && EndsOk(s) && OnlyChanged(s, t, i) && t.hist == s.hist
    requires t.nodes[i].app.IsOpen() && i + 1 == |s.nodes| ==> t.nodes[i].committed == t.nodes[i].begun
    requires i + 1 < |s.nodes| ==> SameAsUpper(s.nodes[i + 1], t.nodes[i + 1])
    ensures EndsOk(t)
  {
    var z := |s.nodes| - 1;
    if z != i && z != i + 1 { assert t.nodes[z] == s.nodes[z]; }
  }

  /** Node `i` changed, and maybe put a packet on the wire below. */
  lemma Replace(s: System, t: System, i: nat, m: Node)
    requires Inv(s) && 0 < i < |s.nodes| && OnlyChanged(s, t, i) && t == s.(nodes := t.nodes)
    requires t.nodes[i] == m && NodeOk(ContextOf(s), i, m)
    requires m.app.IsOpen() || m.app.nextCommit == s.nodes[i].app.nextCommit
    requires m.app.IsOpen() ==> s.nodes[i].app.IsOpen() && (i + 1 == |s.nodes| ==> m.committed == m.begun)
    requires LinkOk(ContextOf(s), i - 1, s.nodes[i - 1], m)
    requires i + 1 < |s.nodes| ==>
               && t.nodes[i + 1] == s.nodes[i + 1].(inbox := t.nodes[i + 1].inbox, outbox := t.nodes[i + 1].outbox)
               && LinkOk(ContextOf(s), i, m, t.nodes[i + 1])
    ensures Inv(t)
  {
    var c := ContextOf(s);
    assert ContextOf(t) == c;
    if i + 1 < |s.nodes| {
      assert NodeOk(c, i + 1, s.nodes[i + 1]);
      NodeWire(c, i + 1, s.nodes[i + 1], t.nodes[i + 1]);
    }
    MetaKept(s, t);
    assert t.nodes[i - 1] == s.nodes[i - 1];
    assert t.nodes[0] == s.nodes[0];
    EndsKept(s, t, i);
    Rebuild(s, t, i);
  }

  lemma DeliverForwarded(s: System, i: nat, op: Op, m: Node)
    requires Arrives(s, i, op) && i + 1 < |s.nodes| && s.nodes[i].app.IsOpen()
    requires Popped(s.nodes[i], m) && NodeOk(ContextOf(s), i, m) && m.app.IsOpen()
    requires m.begun == s.nodes[i].begun + 1 && m.committed == s.nodes[i].committed
    requires m.outbox == s.nodes[i].outbox && m.app.masterCommitted == op.masterCommitted
    ensures Inv(s.(nodes := Send(s.nodes[i := m], i + 1, Append(op))))
  {
    var c, n, down := ContextOf(s), s.nodes[i], s.nodes[i + 1];
    ArrivalFacts(s, i, op);
    assert LinkOk(c, i, n, down) && LinkOk(c, i - 1, s.nodes[i - 1], s.nodes[i - 1 + 1]);
    LinkAbove(s, i, op, m);
    LinkSend(c, i, n, down, m, Append(op));
    Replace(s, s.(nodes := Send(s.nodes[i := m], i + 1, Append(op))), i, m);
  }

  lemma DeliverTail(s: System, i: nat, op: Op, m: Node)
    requires Arrives(s, i, op) && i + 1 == |s.nodes| && s.nodes[i].app.IsOpen()
    requires Popped(s.nodes[i], m) && NodeOk(ContextOf(s), i, m) && m.app.IsOpen()
    requires m.begun == s.nodes[i].begun + 1 && m.committed == s.nodes[i].committed + 1
    requires m.outbox == s.nodes[i].outbox + [Reply(op.id, true)] && m.app.masterCommitted == op.masterCommitted
    ensures Inv(s.(nodes := s.nodes[i := m]))
  {
    ArrivalFacts(s, i, op);
    assert LinkOk(ContextOf(s), i - 1, s.nodes[i - 1], s.nodes[i - 1 + 1]);
    RepliesSuccess(s.nodes[i - 1], s.nodes[i], m);
    LinkAbove(s, i, op, m);
    Replace(s, s.(nodes := s.nodes[i := m]), i, m);
  }

  lemma DeliverRefused(s: System, i: nat, op: Op, m: Node)
    requires Arrives(s, i, op) && Popped(s.nodes[i], m) && NodeOk(ContextOf(s), i, m) && !m.app.IsOpen()
    requires m.begun == s.nodes[i].begun && m.committed == s.nodes[i].committed
    requires m.outbox == s.nodes[i].outbox + [Reply(op.id, false)] && m.app.nextCommit == s.nodes[i].app.nextCommit
    requires m.app.masterCommitted == s.nodes[i].app.masterCommitted || m.app.masterCommitted == op.masterCommitted
    ensures Inv(s.(nodes := s.nodes[i := m]))
  {
    var c, n := ContextOf(s), s.nodes[i];
    ArrivalFacts(s, i, op);
    assert LinkOk(c, i - 1, s.nodes[i - 1], s.nodes[i - 1 + 1]);
    RepliesFailure(s.nodes[i - 1], n, m, [Reply(op.id, false)]);
    LinkAbove(s, i, op, m);
    if i + 1 < |s.nodes| {
      assert LinkOk(c, i, n, s.nodes[i + 1]);
      LinkUpperKept(c, i, n, s.nodes[i + 1], m);
    }
    Replace(s, s.(nodes := s.nodes[i := m]), i, m);
  }

  /** The node after it begins an append that is passed on. */
  lemma ForwardNode(c: Context, i: nat, n: Node, op: Op, env: BeginEnv)
    requires HistOk(c) && NodeOk(c, i, n) && 0 < i && i + 1 < c.size && n.app.IsOpen()
    requires n.begun < |c.hist| && op == c.hist[n.begun] && InWindow(n.app, op) && op.masterCommitted <= c.masterCommit
    requires c.masterDone <= n.committed
    requires Begin(n.app, op, false, env).status.Success?
    ensures var b := Begin(n.app, op, false, env);
      && b.forwarded && b.app.IsOpen() && b.app.masterCommitted == op.masterCommitted
      && NodeOk(c, i, NoteBegun(n.(app := b.app), op))
  {
    assert OpOk(c, n.begun);
    assert NO_WRITE_ID !in n.app.wids;
    SlaveAccepts(n.app, op, env);
    ArrivesAlone(c, n, op);
    HeardOk(c, i, n, op);
    var h := Heard(n.app, op);
    TakeNode(c, i, n.(app := h), op, KeptReservation(h, op.writeId), h.bytesReserved);
  }

  /** An append that was just recorded is not settled. */
  lemma FreshNotSettled(c: Context, i: nat, n: Node, op: Op)
    requires op.IsAck() || (op.writeId in n.app.wids && n.app.wids[op.writeId].status.InProgress?)
    ensures !(!op.IsAck() && SettledEmpty(n, op))
  {
  }

  /** The last node once it took the append into its log, before it commits. */
  lemma TailTakes(c: Context, i: nat, n: Node, op: Op, env: BeginEnv) returns (took: Node)
    requires HistOk(c) && NodeOk(c, i, n) && i > 0 && i + 1 == c.size && n.app.IsOpen() && n.committed == n.begun
    requires n.begun < |c.hist| && op == c.hist[n.begun] && InWindow(n.app, op) && op.masterCommitted <= c.masterCommit
    requires c.masterDone <= n.committed
    requires Begin(n.app, op, false, env).status.Success?
    ensures NodeOk(c, i, took) && took.app.IsOpen() && took.app.masterCommitted == op.masterCommitted
    ensures took.app.inFlight == [op] && took.begun == n.begun + 1 && took.committed == n.committed
    ensures op.IsAck() || (op.writeId in took.app.wids && took.app.wids[op.writeId].status.InProgress?)
    ensures Begin(n.app, op, false, env).app == took.app.(inFlight := []) && !Begin(n.app, op, false, env).forwarded
    ensures Begin(n.app, op, false, env).op == op
    ensures NoteBegun(n, op) == took.(app := n.app)
  {
    assert OpOk(c, n.begun);
    assert NO_WRITE_ID !in n.app.wids;
    SlaveAccepts(n.app, op, env);
    ArrivesAlone(c, n, op);
    HeardOk(c, i, n, op);
    var h := Heard(n.app, op);
    TakeNode(c, i, n.(app := h), op, KeptReservation(h, op.writeId), h.bytesReserved);
    took := Took(n.(app := h), op, KeptReservation(h, op.writeId), h.bytesReserved);
    HeardFlight(n.app, op);
    TookNoted(n, h, op, KeptReservation(h, op.writeId), h.bytesReserved);
  }

  lemma HeardFlight(a: App, op: Op)
    ensures Heard(a, op).inFlight == a.inFlight
  {
  }

  lemma TookNoted(n: Node, h: App, op: Op, reserved: nat, bytesReserved: nat)
    ensures NoteBegun(n, op) == Took(n.(app := h), op, reserved, bytesReserved).(app := n.app)
  {
  }

  lemma TailCommits(c: Context, i: nat, took: Node, op: Op)
    requires HistOk(c) && NodeOk(c, i, took) && i > 0 && i + 1 == c.size && took.app.IsOpen() && took.begun == took.committed + 1
    requires op == c.hist[took.committed] && op.version == c.version
    requires took.app.inFlight == [op] && took.app.masterCommitted <= c.masterCommit && c.masterDone <= took.committed
    requires op.IsAck() || (op.writeId in took.app.wids && took.app.wids[op.writeId].status.InProgress?)
    ensures var a := took.app.(inFlight := took.app.inFlight[1..]);
      && !CommitInvalid(a, op) && Commit(a, op, true).1
      && NodeOk(c, i, took.(app := Commit(a, op, true).0, committed := took.committed + 1))
      && Commit(a, op, true).0.IsOpen() && Commit(a, op, true).0.masterCommitted == took.app.masterCommitted
  {
    assert WellPlaced(c, took.committed);
    CommitInvalidIff(c, i, took);
    FreshNotSettled(c, i, took, op);
    CommitNode(c, i, took);
  }

  /** The last node begins and commits at once. */
  lemma TailNode(c: Context, i: nat, n: Node, op: Op, env: BeginEnv)
    requires HistOk(c) && NodeOk(c, i, n) && i > 0 && i + 1 == c.size && n.app.IsOpen() && n.committed == n.begun
    requires n.begun < |c.hist| && op == c.hist[n.begun] && InWindow(n.app, op) && op.masterCommitted <= c.masterCommit
    requires c.masterDone <= n.committed
    requires Begin(n.app, op, false, env).status.Success? && op.version == c.version
    ensures var (b, ok) := AppendBegin(n.app, op, false, env);
      && !b.forwarded && b.status.Success? && ok && b.app.IsOpen() && b.app.masterCommitted == op.masterCommitted
      && NodeOk(c, i, NoteBegun(n.(app := b.app), op).(committed := n.committed + 1))
  {
    var took := TailTakes(c, i, n, op, env);
    TailCommits(c, i, took, op);
    TailShape(n, op, env, took);
    TailNoted(n, op, took, Commit(took.app.(inFlight := took.app.inFlight[1..]), op, true).0);
  }

  lemma TailNoted(n: Node, op: Op, took: Node, a: App)
    requires NoteBegun(n, op) == took.(app := n.app)
    ensures NoteBegun(n.(app := a), op).(committed := n.committed + 1) == took.(app := a, committed := n.committed + 1)
  {
  }

  lemma TailShape(n: Node, op: Op, env: BeginEnv, took: Node)
    requires Begin(n.app, op, false, env) == Begun(took.app.(inFlight := []), op, Success, false) && n.app.pos > 0
    requires took.app.inFlight == [op] && took.app.pos > 0
    ensures var (b, ok) := AppendBegin(n.app, op, false, env);
      (b, ok) == (Begun(Commit(took.app.(inFlight := took.app.inFlight[1..]), op, true).0, op, Success, false),
                  Commit(took.app.(inFlight := took.app.inFlight[1..]), op, true).1)
  {
    assert took.app.inFlight[1..] == [];
  }

  /** A node that is not open answers that it does not know. */
  lemma NotOpenRefuses(a: App, op: Op, env: BeginEnv)
    requires a.pos > 0 && !a.IsOpen()
    ensures var (b, ok) := AppendBegin(a, op, false, env); !b.forwarded && !b.status.Success? && !ok && b.app == a
  {
  }

  lemma RefusedNode(c: Context, i: nat, n: Node, op: Op, env: BeginEnv)
    requires HistOk(c) && NodeOk(c, i, n) && i > 0 && InWindow(n.app, op) && op.masterCommitted <= c.masterCommit
    requires op.writeId >= 0 || op.IsAck()
    requires n.app.IsOpen() ==> !Begin(n.app, op, false, env).status.Success? && n.begun < |c.hist| && op == c.hist[n.begun]
    requires c.masterDone <= n.committed
    ensures var (b, ok) := AppendBegin(n.app, op, false, env);
      && !b.forwarded && !b.status.Success? && !ok
      && NodeOk(c, i, n.(app := b.app)) && !b.app.IsOpen() && b.app.nextCommit == n.app.nextCommit
      && (b.app.masterCommitted == n.app.masterCommitted || b.app.masterCommitted == op.masterCommitted)
  {
    if n.app.IsOpen() {
      assert NO_WRITE_ID !in n.app.wids;
      var h := SlaveRefuses(n.app, op, env);
      ArrivesAlone(c, n, op);
      HeardOk(c, i, n, op);
      RefuseNode(c, i, n, op, h, AppendBegin(n.app, op, false, env).0.app);
    } else {
      NotOpenRefuses(n.app, op, env);
    }
  }

  /** What a delivery amounts to, given the fate of the append at the node. */
  lemma DeliverShape(s: System, i: nat, op: Op, checksumOk: bool, peerUp: bool, n: Node)
    requires 0 < i < |s.nodes| && s.nodes[i].inbox != [] && s.nodes[i].inbox[0] == Append(op)
    requires n == s.nodes[i].(inbox := s.nodes[i].inbox[1..], received := s.nodes[i].received + 1)
    ensures var (b, ok) := AppendBegin(n.app, op, false, SlaveEnv(i, checksumOk, peerUp));
      var m := if b.status.Success? then NoteBegun(n.(app := b.app), op) else n.(app := b.app);
      var m' := if ok then m.(committed := m.committed + 1) else m;
      StepDeliver(s, i, checksumOk, peerUp) ==
        if b.forwarded then s.(nodes := Send(s.nodes[i := m], i + 1, Append(op)))
        else s.(nodes := s.nodes[i := m'.(outbox := m'.outbox + [Reply(op.id, ok)])])
  {
    var t := s.(nodes := s.nodes[i := n]);
    var (b, ok) := AppendBegin(n.app, op, false, SlaveEnv(i, checksumOk, peerUp));
    var m := if b.status.Success? then NoteBegun(n.(app := b.app), op) else n.(app := b.app);
    var m' := if ok then m.(committed := m.committed + 1) else m;
    var z := m'.(outbox := m'.outbox + [Reply(op.id, ok)]);
    assert t.nodes[i := m] == s.nodes[i := m] && t.nodes[i := z] == s.nodes[i := z];
  }

  lemma DeliverAccepted(s: System, i: nat, op: Op, checksumOk: bool, peerUp: bool, n: Node)
    requires Arrives(s, i, op)
    requires n == s.nodes[i].(inbox := s.nodes[i].inbox[1..], received := s.nodes[i].received + 1)
    requires n.app.IsOpen() && Begin(n.app, op, false, SlaveEnv(i, checksumOk, peerUp)).status.Success?
    requires i + 1 == |s.nodes| ==> op.version == s.version
    ensures Inv(StepDeliver(s, i, checksumOk, peerUp))
  {
    var c, env := ContextOf(s), SlaveEnv(i, checksumOk, peerUp);
    assert NodeOk(c, i, s.nodes[i]);
    NodeWire(c, i, s.nodes[i], n);
    ArrivalFacts(s, i, op);
    DeliverShape(s, i, op, checksumOk, peerUp, n);
    var (b, ok) := AppendBegin(n.app, op, false, env);
    var m := NoteBegun(n.(app := b.app), op);
    if i + 1 < |s.nodes| {
      ForwardNode(c, i, n, op, env);
      DeliverForwarded(s, i, op, m);
    } else {
      TailNode(c, i, n, op, env);
      var m' := m.(committed := n.committed + 1);
      var z := m'.(outbox := m'.outbox + [Reply(op.id, ok)]);
      NodeWire(c, i, m', z);
      DeliverTail(s, i, op, z);
    }
  }

  /** The last node takes in an append of another version. */
  predicate TailDies(s: System, i: nat, checksumOk: bool, peerUp: bool) {
    && 0 < i && i + 1 == |s.nodes| && s.nodes[i].inbox != [] && s.nodes[i].inbox[0].Append? && s.nodes[i].app.IsOpen()
    && s.nodes[i].inbox[0].op.version != s.version
    && Begin(s.nodes[i].app, s.nodes[i].inbox[0].op, false, SlaveEnv(i, checksumOk, peerUp)).status.Success?
  }

  lemma DeliverAppend(s: System, i: nat, op: Op, checksumOk: bool, peerUp: bool)
    requires Arrives(s, i, op) && !TailDies(s, i, checksumOk, peerUp)
    ensures Inv(StepDeliver(s, i, checksumOk, peerUp))
  {
    var env := SlaveEnv(i, checksumOk, peerUp);
    var c, n0 := ContextOf(s), s.nodes[i];
    var n := n0.(inbox := n0.inbox[1..], received := n0.received + 1);
    if n.app.IsOpen() && Begin(n.app, op, false, env).status.Success? {
      DeliverAccepted(s, i, op, checksumOk, peerUp, n);
    } else {
      assert NodeOk(c, i, n0);
      NodeWire(c, i, n0, n);
      ArrivalFacts(s, i, op);
      DeliverShape(s, i, op, checksumOk, peerUp, n);
      RefusedNode(c, i, n, op, env);
      var (b, ok) := AppendBegin(n.app, op, false, env);
      var m := n.(app := b.app);
      var z := m.(outbox := m.outbox + [Reply(op.id, ok)]);
      NodeWire(c, i, m, z);
      DeliverRefused(s, i, op, z);
    }
  }
}
