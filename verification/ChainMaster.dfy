/** Steps of the append master, and closes travelling down the chain, keep the invariant. */
module ChainMaster {
  import opened Common
  import opened RecordAppender
  import opened Chain
  import opened ChainInvariant
  import opened ChainQuiet
  import opened ChainAppend
  import opened ChainLinks
  import opened ChainSteps
  import opened ChainReplies

  // ----- closes on their way down

  lemma CloseArrives(s: System, i: nat, w: int, mc: int)
    requires Inv(s) && 0 < i < |s.nodes| && s.nodes[i].inbox != [] && s.nodes[i].inbox[0] == Close(w, mc)
    ensures var a := s.nodes[i].app; 0 <= mc && a.masterCommitted <= mc <= a.nextCommit && mc <= ContextOf(s).masterCommit
    ensures s.nodes[i].begun <= |s.hist| && NoneInFlight(ContextOf(s), s.nodes[i], w) && w in ContextOf(s).closed
  {
    var c, n, up := ContextOf(s), s.nodes[i], s.nodes[i - 1];
    assert LinkOk(c, i - 1, up, s.nodes[i - 1 + 1]);
    assert n.inbox[0].MasterCommitted() == mc;
    CommitsNested(s, 0, i);
    assert NodeOk(c, i, n) && NodeOk(c, i - 1, up);
    assert RetiredOk(s) && w in c.closed;
  }

  /** Node `i` took a close off the wire, and passed it on or not. */
  lemma ClosePassed(s: System, i: nat, w: int, mc: int, m: Node, sent: bool)
    requires Inv(s) && 0 < i < |s.nodes| && s.nodes[i].inbox != [] && s.nodes[i].inbox[0] == Close(w, mc)
    requires NodeOk(ContextOf(s), i, m) && m == s.nodes[i].(inbox := s.nodes[i].inbox[1..], app := m.app)
    requires m.app.phase == s.nodes[i].app.phase && m.app.nextCommit == s.nodes[i].app.nextCommit
    requires m.app.masterCommitted == s.nodes[i].app.masterCommitted || m.app.masterCommitted == mc
    requires sent ==> m.app.masterCommitted == mc
    ensures Inv(s.(nodes := if sent then Send(s.nodes[i := m], i + 1, Close(w, mc)) else s.nodes[i := m]))
  {
    var c, n := ContextOf(s), s.nodes[i];
    var t := s.(nodes := if sent then Send(s.nodes[i := m], i + 1, Close(w, mc)) else s.nodes[i := m]);
    CloseArrives(s, i, w, mc);
    assert LinkOk(c, i - 1, s.nodes[i - 1], s.nodes[i - 1 + 1]);
    WirePop(c, i - 1, s.nodes[i - 1], n, m);
    if i + 1 < |s.nodes| {
      assert LinkOk(c, i, n, s.nodes[i + 1]);
      if sent { LinkSend(c, i, n, s.nodes[i + 1], m, Close(w, mc)); } else { LinkUpperKept(c, i, n, s.nodes[i + 1], m); }
    }
    Replace(s, t, i, m);
  }

  lemma DeliverClose(s: System, i: nat, w: int, mc: int, checksumOk: bool, peerUp: bool)
    requires Inv(s) && 0 < i < |s.nodes| && s.nodes[i].inbox != [] && s.nodes[i].inbox[0] == Close(w, mc)
    ensures Inv(StepDeliver(s, i, checksumOk, peerUp))
  {
    var c, n0 := ContextOf(s), s.nodes[i];
    var n := n0.(inbox := n0.inbox[1..]);
    CloseArrives(s, i, w, mc);
    assert NodeOk(c, i, n0);
    NodeWire(c, i, n0, n);
    CloseNode(c, i, n, w, mc);
    var (a, st) := CloseWriteId(n.app, w, mc);
    ClosePassed(s, i, w, mc, n.(app := a), st.Success?);
    assert s.nodes[i := n][i := n.(app := a)] == s.nodes[i := n.(app := a)];
  }

  // ----- the master's node changes

  /** Same context but for how far the master committed. */
  ghost function Advanced(c: Context, commit: nat, done: nat): Context {
    c.(masterCommit := commit, masterDone := done)
  }

  lemma MasterEnds(s: System, t: System)
    requires |s.nodes| > 0 && EndsOk(s) && OnlyChanged(s, t, 0) && t.nodes[0].begun == |t.hist|
    requires |s.nodes| == 1 && t.nodes[0].app.IsOpen() ==> t.nodes[0].committed == t.nodes[0].begun
    requires 1 < |s.nodes| ==> SameAsUpper(s.nodes[1], t.nodes[1])
    ensures EndsOk(t)
  {
    var z := |s.nodes| - 1;
    if z > 1 { assert t.nodes[z] == s.nodes[z]; }
  }

  lemma MasterContext(s: System, t: System)
    requires |s.nodes| > 0 && |t.nodes| == |s.nodes| && t == s.(nodes := t.nodes, closed := t.closed)
    requires t.nodes[0].app.chunkId == s.nodes[0].app.chunkId
    ensures ContextOf(t) == Advanced(ContextOf(s).(closed := t.closed), t.nodes[0].app.nextCommit, t.nodes[0].committed)
    ensures s.closed <= t.closed && s.nodes[0].app.nextCommit <= t.nodes[0].app.nextCommit && s.nodes[0].committed <= t.nodes[0].committed ==>
              Grows(ContextOf(s), ContextOf(t))
  {
  }

  /** Node 0 changed; the history stays, the master may have committed an append or closed a write id. */
  lemma ReplaceMaster(s: System, t: System, m: Node)
    requires Inv(s) && OnlyChanged(s, t, 0) && t == s.(nodes := t.nodes, closed := t.closed) && t.nodes[0] == m
    requires s.closed <= t.closed && RetiredOk(t) && HistOk(ContextOf(t)) && m.app.chunkId == s.nodes[0].app.chunkId
    requires var d := ContextOf(t);
      && NodeOk(d, 0, m)
      && (1 < |s.nodes| ==>
           && t.nodes[1] == s.nodes[1].(inbox := t.nodes[1].inbox, outbox := t.nodes[1].outbox)
           && LinkOk(d, 0, m, t.nodes[1]))
    requires m.begun == s.nodes[0].begun && s.nodes[0].app.nextCommit <= m.app.nextCommit && s.nodes[0].committed <= m.committed
    requires m.app.IsOpen() ==> s.nodes[0].app.IsOpen() && (|s.nodes| == 1 ==> m.committed == m.begun)
    requires s.nodes[0].app.IsOpen() || m.app.nextCommit == s.nodes[0].app.nextCommit
    ensures Inv(t)
  {
    var c, d := ContextOf(s), ContextOf(t);
    MasterContext(s, t);
    if 1 < |s.nodes| {
      assert NodeOk(c, 1, s.nodes[1]);
      NodeGrows(c, d, 1, s.nodes[1]);
      NodeWire(d, 1, s.nodes[1], t.nodes[1]);
    }
    MetaKept(s, t);
    MasterEnds(s, t);
    Rebuild(s, t, 0);
  }

  /** The master's node after a commit, in the context that knows of it. */
  lemma MasterCommitNode(c: Context, n: Node, down: Node) returns (a: App)
    requires HistOk(c) && NodeOk(c, 0, n) && NodeOk(c, 1, down) && LinkOk(c, 0, n, down)
    requires c.masterCommit == n.app.nextCommit && c.masterDone == n.committed
    requires n.app.IsOpen() && down.outbox != [] && down.outbox[0].ok
    requires n.committed < |c.hist| && !Fatal(n, c.hist[n.committed])
    ensures n.app.inFlight != [] && Find(n.app.inFlight, down.outbox[0].id) == 0
    ensures OpDone(n.app, n.app.inFlight[0], true) == (a, true)
    ensures a.IsOpen() && a.nextCommit >= n.app.nextCommit
    ensures var m, d := n.(app := a, committed := n.committed + 1), Advanced(c, a.nextCommit, n.committed + 1);
      HistOk(d) && NodeOk(d, 0, m) && LinkOk(d, 0, m, down.(outbox := down.outbox[1..]))
    ensures OnlyFresh(n, n.(app := a))
  {
    ReplyFacts(c, 0, n, down);
    LogPrefix(c, n.committed, n.committed + 1);
    var d := Advanced(c, Off(c, n.committed + 1), n.committed + 1);
    HistGrows(c, d);
    NodeGrows(c, d, 0, n);
    LogsGrow(c, d);
    LinkGrows(c, d, 0, n, down);
    CommitInvalidIff(d, 0, n);
    CommitNode(d, 0, n);
    a := OpDone(n.app, n.app.inFlight[0], true).0;
    LinkTakeReply(d, 0, n, down, n.(app := a, committed := n.committed + 1));
  }

  lemma MasterReplyCommits(s: System)
    requires Inv(s) && 1 < |s.nodes| && s.nodes[1].outbox != []
    requires s.nodes[0].app.IsOpen() && s.nodes[1].outbox[0].ok
    requires s.nodes[0].committed < |s.hist| && !Fatal(s.nodes[0], s.hist[s.nodes[0].committed])
    ensures Inv(StepReply(s, 0))
  {
    var a, t := MasterReplied(s);
    ReplyCommitShape(s, 0, a);
    InvSame(t, StepReply(s, 0));
  }

  lemma MasterReplied(s: System) returns (a: App, t: System)
    requires Inv(s) && 1 < |s.nodes| && s.nodes[1].outbox != []
    requires s.nodes[0].app.IsOpen() && s.nodes[1].outbox[0].ok
    requires s.nodes[0].committed < |s.hist| && !Fatal(s.nodes[0], s.hist[s.nodes[0].committed])
    ensures var n, down := s.nodes[0], s.nodes[1];
      && n.app.inFlight != [] && Find(n.app.inFlight, down.outbox[0].id) == 0
      && OpDone(n.app, n.app.inFlight[0], true) == (a, true)
      && t == s.(nodes := s.nodes[1 := down.(outbox := down.outbox[1..])][0 := n.(app := a, committed := n.committed + 1)])
    ensures Inv(t)
  {
    var c, n, down := ContextOf(s), s.nodes[0], s.nodes[1];
    assert NodeOk(c, 0, n) && NodeOk(c, 1, down) && LinkOk(c, 0, n, s.nodes[0 + 1]);
    a := MasterCommitNode(c, n, down);
    var m := n.(app := a, committed := n.committed + 1);
    t := s.(nodes := s.nodes[1 := down.(outbox := down.outbox[1..])][0 := m]);
    MasterCommitted(s, t, m);
  }

  lemma MasterCommitted(s: System, t: System, m: Node)
    requires Inv(s) && 1 < |s.nodes| && s.nodes[1].outbox != [] && s.nodes[0].app.IsOpen() && m.app.IsOpen()
    requires t == s.(nodes := s.nodes[1 := s.nodes[1].(outbox := s.nodes[1].outbox[1..])][0 := m])
    requires m == s.nodes[0].(app := m.app, committed := s.nodes[0].committed + 1) && OnlyFresh(s.nodes[0], m)
    requires m.app.nextCommit >= s.nodes[0].app.nextCommit
    requires var d := Advanced(ContextOf(s), m.app.nextCommit, m.committed);
      HistOk(d) && NodeOk(d, 0, m) && LinkOk(d, 0, m, t.nodes[1])
    ensures Inv(t)
  {
    MasterContext(s, t);
    ReplaceMaster(s, t, m);
  }

  /** A step of the master that leaves the context as it is. */
  lemma MasterSame(s: System, t: System, m: Node)
    requires Inv(s) && OnlyChanged(s, t, 0) && t == s.(nodes := t.nodes) && t.nodes[0] == m
    requires var c := ContextOf(s);
      && NodeOk(c, 0, m)
      && (1 < |s.nodes| ==>
           && t.nodes[1] == s.nodes[1].(inbox := t.nodes[1].inbox, outbox := t.nodes[1].outbox)
           && LinkOk(c, 0, m, t.nodes[1]))
    requires m.begun == s.nodes[0].begun && s.nodes[0].app.nextCommit == m.app.nextCommit && s.nodes[0].committed == m.committed
    requires m.app.IsOpen() ==> s.nodes[0].app.IsOpen() && (|s.nodes| == 1 ==> m.committed == m.begun)
    requires OnlyFresh(s.nodes[0], m) && m.app.chunkId == s.nodes[0].app.chunkId
    ensures Inv(t)
  {
    MasterContext(s, t);
    assert ContextOf(t) == ContextOf(s);
    ReplaceMaster(s, t, m);
  }

  lemma MasterReplyFails(s: System, k: nat)
    requires Inv(s) && 1 < |s.nodes| && s.nodes[1].outbox != []
    requires k == Find(s.nodes[0].app.inFlight, s.nodes[1].outbox[0].id) < |s.nodes[0].app.inFlight|
    requires s.nodes[0].app.IsOpen() ==> !s.nodes[1].outbox[0].ok
    ensures Inv(StepReply(s, 0))
  {
    var c, n, down := ContextOf(s), s.nodes[0], s.nodes[1];
    var op, r := n.app.inFlight[k], down.outbox[0];
    assert NodeOk(c, 0, n) && LinkOk(c, 0, n, s.nodes[0 + 1]);
    var a := FailedApp(c, 0, n, Without(n.app.inFlight, op.id), op, r.ok);
    var m := n.(app := a);
    LinkTakeReply(c, 0, n, down, m);
    var t := s.(nodes := s.nodes[1 := down.(outbox := down.outbox[1..])][0 := m]);
    MasterSame(s, t, m);
    MasterFailShape(s, k, a);
    InvSame(t, StepReply(s, 0));
  }

  lemma MasterFailShape(s: System, k: nat, a: App)
    requires 1 < |s.nodes| && s.nodes[1].outbox != []
    requires k == Find(s.nodes[0].app.inFlight, s.nodes[1].outbox[0].id) < |s.nodes[0].app.inFlight|
    requires var n, r := s.nodes[0], s.nodes[1].outbox[0];
      var op := n.app.inFlight[k];
      Commit(n.app.(inFlight := Without(n.app.inFlight, op.id)), op, r.ok) == (a, false)
    ensures var n, down := s.nodes[0], s.nodes[1];
      StepReply(s, 0) == s.(nodes := s.nodes[1 := down.(outbox := down.outbox[1..])][0 := n.(app := a)])
  {
  }

  lemma MasterBreakFails(s: System, keep: nat)
    requires Inv(s) && 1 < |s.nodes| && s.nodes[0].app.inFlight != []
    ensures Inv(StepLinkDown(s, 0, keep))
  {
    var down := s.nodes[1];
    var inbox := if keep < |down.inbox| then down.inbox[..keep] else down.inbox;
    var a, t := MasterBroken(s, inbox);
    MasterBreakShape(s, keep, inbox, a);
    InvSame(t, StepLinkDown(s, 0, keep));
  }

  lemma MasterBroken(s: System, inbox: seq<Packet>) returns (a: App, t: System)
    requires Inv(s) && 1 < |s.nodes| && s.nodes[0].app.inFlight != [] && inbox <= s.nodes[1].inbox
    ensures var n, down := s.nodes[0], s.nodes[1];
      && Commit(n.app.(inFlight := []), n.app.inFlight[0], false) == (a, false)
      && t == s.(nodes := s.nodes[0 := n.(app := a)][1 := down.(inbox := inbox, outbox := [])])
    ensures Inv(t)
  {
    var c, n, down := ContextOf(s), s.nodes[0], s.nodes[1];
    assert NodeOk(c, 0, n) && NodeOk(c, 1, down) && LinkOk(c, 0, n, s.nodes[0 + 1]);
    a := FailedApp(c, 0, n, [], n.app.inFlight[0], false);
    var m := n.(app := a);
    LinkBreak(c, 0, n, down, m, inbox);
    t := s.(nodes := s.nodes[0 := m][1 := down.(inbox := inbox, outbox := [])]);
    MasterSame(s, t, m);
  }

  lemma MasterBreakShape(s: System, keep: nat, inbox: seq<Packet>, a: App)
    requires 1 < |s.nodes| && s.nodes[0].app.inFlight != []
    requires inbox == if keep < |s.nodes[1].inbox| then s.nodes[1].inbox[..keep] else s.nodes[1].inbox
    requires Commit(s.nodes[0].app.(inFlight := []), s.nodes[0].app.inFlight[0], false) == (a, false)
    ensures var n, down := s.nodes[0], s.nodes[1];
      StepLinkDown(s, 0, keep) == s.(nodes := s.nodes[0 := n.(app := a)][1 := down.(inbox := inbox, outbox := [])])
  {
  }

  // ----- a client closes a write id

  lemma MasterCloseNode(c: Context, n: Node, w: int)
    requires NodeOk(c, 0, n)
    ensures var (a, st) := CloseWriteId(n.app, w, -1);
      && NodeOk(c, 0, n.(app := a)) && a.phase == n.app.phase && a.nextCommit == n.app.nextCommit
      && OnlyFresh(n, n.(app := a)) && a.pos == 0
      && (st.Success? ==> w >= 0 && w !in a.wids && w in n.issued)
      && (st.Success? ==> forall k: nat | k < n.begun && c.hist[k].writeId == w :: k < n.committed)
      && (!st.Success? ==> a == n.app)
  {
    if w in n.app.wids {
      assert RowOk(c, n, w);
      var (a, st) := CloseWriteId(n.app, w, -1);
      if st.Success? { DropRow(c, 0, n, w, a.bytesReserved); }
    }
  }

  /** The context once the master closed a write id all of whose appends it committed. */
  lemma ClosedContext(c: Context, w: int)
    requires HistOk(c) && forall k: nat | k < |c.hist| && c.hist[k].writeId == w :: k < c.masterDone
    ensures var d := c.(closed := c.closed + {w}); Grows(c, d) && HistOk(d)
  {
    HistGrows(c, c.(closed := c.closed + {w}));
  }

  lemma MasterCloses(s: System, w: int)
    requires Inv(s)
    ensures Inv(StepClientClose(s, w))
  {
    var c, n := ContextOf(s), s.nodes[0];
    assert NodeOk(c, 0, n) && EndsOk(s);
    MasterCloseNode(c, n, w);
    var (a, st) := CloseWriteId(n.app, w, -1);
    var m := n.(app := a);
    if st.Success? {
      var d := c.(closed := c.closed + {w});
      ClosedContext(c, w);
      MasterClosed(s, w, m, d);
      var t := s.(nodes := Send(s.nodes[0 := m], 1, Close(w, a.nextCommit)), closed := s.closed + {w});
      assert StepClientClose(s, w) == t;
      InvSame(t, StepClientClose(s, w));
    } else {
      assert s.nodes[0 := n] == s.nodes;
      InvSame(s, StepClientClose(s, w));
    }
  }

  lemma MasterClosed(s: System, w: int, m: Node, d: Context)
    requires Inv(s) && d == ContextOf(s).(closed := s.closed + {w}) && HistOk(d) && Grows(ContextOf(s), d)
    requires NodeOk(ContextOf(s), 0, m) && m == s.nodes[0].(app := m.app)
    requires m.app.phase == s.nodes[0].app.phase && m.app.nextCommit == s.nodes[0].app.nextCommit
    requires OnlyFresh(s.nodes[0], m) && w >= 0 && w !in m.app.wids && w in m.issued
    ensures Inv(s.(nodes := Send(s.nodes[0 := m], 1, Close(w, m.app.nextCommit)), closed := s.closed + {w}))
  {
    var c, n := ContextOf(s), s.nodes[0];
    var t := s.(nodes := Send(s.nodes[0 := m], 1, Close(w, m.app.nextCommit)), closed := s.closed + {w});
    assert EndsOk(s) && NodeOk(c, 0, n);
    NodeGrows(c, d, 0, m);
    MasterContext(s, t);
    if 1 < |s.nodes| {
      assert LinkOk(c, 0, n, s.nodes[0 + 1]);
      LinkGrows(c, d, 0, n, s.nodes[1]);
      LinkSend(d, 0, n, s.nodes[1], m, Close(w, m.app.nextCommit));
    }
    ReplaceMaster(s, t, m);
  }
}
