/** Answers, broken connections and closes keep the invariant. */
module ChainReplies {
  import opened Common
  import opened RecordAppender
  import opened Chain
  import opened ChainInvariant
  import opened ChainQuiet
  import opened ChainAppend
  import opened ChainLinks
  import opened ChainSteps

  // ----- a failed append

  /** A node told of a failure, or told anything after it left the open phase, gives no success. */
  lemma FailedNode(c: Context, i: nat, n: Node, ops: seq<Op>, op: Op, ok: bool)
    requires NodeOk(c, i, n) && (ok ==> !n.app.IsOpen())
    ensures var (a, r) := Commit(n.app.(inFlight := ops), op, ok);
      && !r && !a.IsOpen() && NodeOk(c, i, n.(app := a))
      && a.nextCommit == n.app.nextCommit && a.masterCommitted == n.app.masterCommitted
  {
    var f := if n.app.IsOpen() then SetState(n.app, ReplicationFailed) else n.app;
    if n.app.IsOpen() { FailNode(c, i, n); }
    var m := n.(app := f.(inFlight := ops));
    assert Commit(n.app.(inFlight := ops), op, ok).0 == m.app;
    assert NodeOk(c, i, n.(app := f)) && !f.IsOpen();
    forall w | w in m.app.wids ensures RowOk(c, m, w) { assert RowOk(c, n.(app := f), w); }
  }

  lemma FailedApp(c: Context, i: nat, n: Node, ops: seq<Op>, op: Op, ok: bool) returns (a: App)
    requires NodeOk(c, i, n) && (ok ==> !n.app.IsOpen())
    ensures Commit(n.app.(inFlight := ops), op, ok) == (a, false)
    ensures !a.IsOpen() && NodeOk(c, i, n.(app := a))
    ensures a.nextCommit == n.app.nextCommit && a.masterCommitted == n.app.masterCommitted
  {
    FailedNode(c, i, n, ops, op, ok);
    a := Commit(n.app.(inFlight := ops), op, ok).0;
  }

  // ----- the oldest append in flight came back

  /** FIFO answers: the first success on the wire is for the oldest append in flight. */
  lemma ReplyFacts(c: Context, i: nat, n: Node, down: Node)
    requires HistOk(c) && NodeOk(c, i, n) && NodeOk(c, i + 1, down) && LinkOk(c, i, n, down)
    requires n.app.IsOpen() && down.outbox != [] && down.outbox[0].ok
    ensures down.outbox[0].id == n.committed < n.begun && WellPlaced(c, n.committed)
    ensures n.app.inFlight != [] && n.app.inFlight[0] == c.hist[n.committed]
    ensures Find(n.app.inFlight, down.outbox[0].id) == 0
    ensures Without(n.app.inFlight, down.outbox[0].id) == n.app.inFlight[1..]
  {
    assert n.committed < down.committed;
    assert OpOk(c, n.committed);
    assert n.app.inFlight[0] == c.hist[n.committed];
  }

  lemma LinkAboveCommit(c: Context, i: nat, up: Node, n: Node, m: Node)
    requires LinkOk(c, i, up, n) && n.app.IsOpen() && m.app.IsOpen()
    requires m.committed == n.committed + 1 && m.outbox == n.outbox + [Reply(n.committed, true)]
    requires m.begun == n.begun && m.received == n.received && m.inbox == n.inbox
    requires m.app.masterCommitted == n.app.masterCommitted
    ensures LinkOk(c, i, up, m)
  {
    RepliesSuccess(up, n, m);
  }

  lemma LinkAboveFailure(c: Context, i: nat, up: Node, n: Node, m: Node, failures: seq<Reply>)
    requires LinkOk(c, i, up, n) && !m.app.IsOpen()
    requires m.committed == n.committed && m.outbox == n.outbox + failures
    requires forall t: nat | t < |failures| :: !failures[t].ok
    requires m.begun == n.begun && m.received == n.received && m.inbox == n.inbox
    requires m.app.masterCommitted == n.app.masterCommitted
    ensures LinkOk(c, i, up, m)
  {
    RepliesFailure(up, n, m, failures);
  }

  /** The shape of a reply step at a slave. */
  lemma ReplyShape(s: System, i: nat, k: nat)
    requires i + 1 < |s.nodes| && s.nodes[i + 1].outbox != []
    requires k == Find(s.nodes[i].app.inFlight, s.nodes[i + 1].outbox[0].id) < |s.nodes[i].app.inFlight|
    ensures var n, down := s.nodes[i], s.nodes[i + 1];
      var (a, ok) := OpDone(n.app, n.app.inFlight[k], down.outbox[0].ok);
      StepReply(s, i) == s.(nodes := s.nodes[i + 1 := down.(outbox := down.outbox[1..])][i := n.(
        app := a,
        committed := if ok then n.committed + 1 else n.committed,
        outbox := if i == 0 then n.outbox else n.outbox + [Reply(down.outbox[0].id, ok)])])
  {
  }

  /** The node commits its oldest append in flight. */
  lemma CommittedApp(c: Context, i: nat, n: Node, down: Node) returns (a: App)
    requires HistOk(c) && NodeOk(c, i, n) && NodeOk(c, i + 1, down) && LinkOk(c, i, n, down)
    requires n.app.IsOpen() && down.outbox != [] && down.outbox[0].ok && (i == 0 ==> Off(c, down.committed) <= c.masterCommit)
    requires n.committed < |c.hist| && !Fatal(n, c.hist[n.committed])
    ensures n.app.inFlight != [] && Find(n.app.inFlight, down.outbox[0].id) == 0 && down.outbox[0].id == n.committed
    ensures OpDone(n.app, n.app.inFlight[0], true) == (a, true)
    ensures a.IsOpen() && a.masterCommitted == n.app.masterCommitted && NodeOk(c, i, n.(app := a, committed := n.committed + 1))
  {
    ReplyFacts(c, i, n, down);
    CommitInvalidIff(c, i, n);
    LogPrefix(c, n.committed + 1, down.committed);
    CommitNode(c, i, n);
    a := OpDone(n.app, n.app.inFlight[0], true).0;
  }

  lemma ReplyCommits(s: System, i: nat)
    requires Inv(s) && 0 < i && i + 1 < |s.nodes| && s.nodes[i + 1].outbox != []
    requires s.nodes[i].app.IsOpen() && s.nodes[i + 1].outbox[0].ok
    requires s.nodes[i].committed < |s.hist| && !Fatal(s.nodes[i], s.hist[s.nodes[i].committed])
    ensures Inv(StepReply(s, i))
  {
    var c, n, down := ContextOf(s), s.nodes[i], s.nodes[i + 1];
    assert NodeOk(c, i, n) && NodeOk(c, i + 1, down) && LinkOk(c, i, n, down);
    var a := CommittedApp(c, i, n, down);
    var m := n.(app := a, committed := n.committed + 1, outbox := n.outbox + [Reply(n.committed, true)]);
    NodeWire(c, i, n.(app := a, committed := n.committed + 1), m);
    assert LinkOk(c, i - 1, s.nodes[i - 1], s.nodes[i - 1 + 1]);
    LinkAboveCommit(c, i - 1, s.nodes[i - 1], n, m);
    LinkTakeReply(c, i, n, down, m);
    var t := s.(nodes := s.nodes[i + 1 := down.(outbox := down.outbox[1..])][i := m]);
    Replace(s, t, i, m);
    ReplyCommitShape(s, i, a);
    InvSame(t, StepReply(s, i));
  }

  lemma ReplyCommitShape(s: System, i: nat, a: App)
    requires i + 1 < |s.nodes| && s.nodes[i + 1].outbox != [] && s.nodes[i + 1].outbox[0].ok && s.nodes[i].app.inFlight != []
    requires Find(s.nodes[i].app.inFlight, s.nodes[i + 1].outbox[0].id) == 0
    requires OpDone(s.nodes[i].app, s.nodes[i].app.inFlight[0], true) == (a, true)
    ensures var n, down := s.nodes[i], s.nodes[i + 1];
      StepReply(s, i) == s.(nodes := s.nodes[i + 1 := down.(outbox := down.outbox[1..])][i := n.(
        app := a, committed := n.committed + 1,
        outbox := if i == 0 then n.outbox else n.outbox + [Reply(down.outbox[0].id, true)])])
  {
  }

  lemma ReplyFails(s: System, i: nat, k: nat)
    requires Inv(s) && 0 < i && i + 1 < |s.nodes| && s.nodes[i + 1].outbox != []
    requires k == Find(s.nodes[i].app.inFlight, s.nodes[i + 1].outbox[0].id) < |s.nodes[i].app.inFlight|
    requires s.nodes[i].app.IsOpen() ==> !s.nodes[i + 1].outbox[0].ok
    ensures Inv(StepReply(s, i))
  {
    var c, n, down := ContextOf(s), s.nodes[i], s.nodes[i + 1];
    var op, r := n.app.inFlight[k], down.outbox[0];
    assert NodeOk(c, i, n) && LinkOk(c, i, n, down);
    var a := FailedApp(c, i, n, Without(n.app.inFlight, op.id), op, r.ok);
    var m := n.(app := a, outbox := n.outbox + [Reply(r.id, false)]);
    NodeWire(c, i, n.(app := a), m);
    assert LinkOk(c, i - 1, s.nodes[i - 1], s.nodes[i - 1 + 1]);
    LinkAboveFailure(c, i - 1, s.nodes[i - 1], n, m, [Reply(r.id, false)]);
    LinkTakeReply(c, i, n, down, m);
    var t := s.(nodes := s.nodes[i + 1 := down.(outbox := down.outbox[1..])][i := m]);
    Replace(s, t, i, m);
    ReplyFailShape(s, i, k, a);
    InvSame(t, StepReply(s, i));
  }

  lemma ReplyFailShape(s: System, i: nat, k: nat, a: App)
    requires 0 < i && i + 1 < |s.nodes| && s.nodes[i + 1].outbox != []
    requires k == Find(s.nodes[i].app.inFlight, s.nodes[i + 1].outbox[0].id) < |s.nodes[i].app.inFlight|
    requires var n, r := s.nodes[i], s.nodes[i + 1].outbox[0];
      var op := n.app.inFlight[k];
      Commit(n.app.(inFlight := Without(n.app.inFlight, op.id)), op, r.ok) == (a, false)
    ensures var n, down := s.nodes[i], s.nodes[i + 1];
      StepReply(s, i) == s.(nodes := s.nodes[i + 1 := down.(outbox := down.outbox[1..])][i :=
        n.(app := a, outbox := n.outbox + [Reply(down.outbox[0].id, false)])])
  {
  }

  /** An answer for an op no longer in flight: the node cannot be open. */
  lemma ReplyDropped(s: System, i: nat)
    requires Inv(s) && i + 1 < |s.nodes| && s.nodes[i + 1].outbox != []
    requires Find(s.nodes[i].app.inFlight, s.nodes[i + 1].outbox[0].id) == |s.nodes[i].app.inFlight|
    requires !s.nodes[i].app.IsOpen() || !s.nodes[i + 1].outbox[0].ok
    ensures Inv(StepReply(s, i))
  {
    var c, n, down := ContextOf(s), s.nodes[i], s.nodes[i + 1];
    var m := down.(outbox := down.outbox[1..]);
    var t := s.(nodes := s.nodes[i + 1 := m]);
    assert NodeOk(c, i, n) && NodeOk(c, i + 1, down) && LinkOk(c, i, n, down);
    assert StepReply(s, i) == t;
    NodeWire(c, i + 1, down, m);
    LinkDropFailure(c, i, n, down, m);
    if i + 2 < |s.nodes| { assert LinkOk(c, i + 1, down, s.nodes[i + 1 + 1]); LinkUpperKept(c, i + 1, down, s.nodes[i + 2], m); }
    assert t.nodes[i + 1] == m;
    Replace(s, t, i + 1, m);
  }

  lemma LinkDropFailure(c: Context, i: nat, up: Node, down: Node, m: Node)
    requires LinkOk(c, i, up, down) && down.outbox != [] && m == down.(outbox := down.outbox[1..])
    requires !up.app.IsOpen() || !down.outbox[0].ok
    ensures LinkOk(c, i, up, m)
  {
    assert forall t: nat | t < |m.outbox| :: m.outbox[t] == down.outbox[t + 1];
  }

  // ----- broken connections

  lemma BreakQuiet(s: System, i: nat, keep: nat)
    requires Inv(s) && i + 1 < |s.nodes| && s.nodes[i].app.inFlight == []
    ensures Inv(StepLinkDown(s, i, keep))
  {
    var c, n, down := ContextOf(s), s.nodes[i], s.nodes[i + 1];
    var inbox := if keep < |down.inbox| then down.inbox[..keep] else down.inbox;
    var m := down.(inbox := inbox, outbox := []);
    var t := s.(nodes := s.nodes[i + 1 := m]);
    assert NodeOk(c, i, n) && NodeOk(c, i + 1, down) && LinkOk(c, i, n, down);
    NothingInFlight(c, i, n, down, inbox);
    NodeWire(c, i + 1, down, m);
    if i + 2 < |s.nodes| { assert LinkOk(c, i + 1, down, s.nodes[i + 1 + 1]); LinkUpperKept(c, i + 1, down, s.nodes[i + 2], m); }
    assert t.nodes[i + 1] == m;
    Replace(s, t, i + 1, m);
    BreakQuietShape(s, i, keep, inbox);
    InvSame(t, StepLinkDown(s, i, keep));
  }

  lemma NothingInFlight(c: Context, i: nat, n: Node, down: Node, inbox: seq<Packet>)
    requires NodeOk(c, i, n) && n.app.inFlight == [] && LinkOk(c, i, n, down) && NodeOk(c, i + 1, down) && inbox <= down.inbox
    ensures LinkOk(c, i, n, down.(inbox := inbox, outbox := []))
  {
    assert n.app.IsOpen() ==> |c.hist[n.committed..n.begun]| == 0;
    LinkBreak(c, i, n, down, n, inbox);
  }

  lemma BreakQuietShape(s: System, i: nat, keep: nat, inbox: seq<Packet>)
    requires i + 1 < |s.nodes| && s.nodes[i].app.inFlight == []
    requires inbox == if keep < |s.nodes[i + 1].inbox| then s.nodes[i + 1].inbox[..keep] else s.nodes[i + 1].inbox
    ensures StepLinkDown(s, i, keep) == s.(nodes := s.nodes[i + 1 := s.nodes[i + 1].(inbox := inbox, outbox := [])])
  {
  }

  lemma BreakFails(s: System, i: nat, keep: nat)
    requires Inv(s) && 0 < i && i + 1 < |s.nodes| && s.nodes[i].app.inFlight != []
    ensures Inv(StepLinkDown(s, i, keep))
  {
    var c, n, down := ContextOf(s), s.nodes[i], s.nodes[i + 1];
    var inbox := if keep < |down.inbox| then down.inbox[..keep] else down.inbox;
    var ops := n.app.inFlight;
    assert NodeOk(c, i, n) && NodeOk(c, i + 1, down) && LinkOk(c, i, n, down);
    var a := FailedApp(c, i, n, [], ops[0], false);
    var m := n.(app := a, outbox := n.outbox + Failures(ops));
    NodeWire(c, i, n.(app := a), m);
    assert LinkOk(c, i - 1, s.nodes[i - 1], s.nodes[i - 1 + 1]);
    LinkAboveFailure(c, i - 1, s.nodes[i - 1], n, m, Failures(ops));
    LinkBreak(c, i, n, down, m, inbox);
    var t := s.(nodes := s.nodes[i := m][i + 1 := down.(inbox := inbox, outbox := [])]);
    Replace(s, t, i, m);
    BreakFailShape(s, i, keep, inbox, a);
    InvSame(t, StepLinkDown(s, i, keep));
  }

  lemma BreakFailShape(s: System, i: nat, keep: nat, inbox: seq<Packet>, a: App)
    requires 0 < i && i + 1 < |s.nodes| && s.nodes[i].app.inFlight != []
    requires inbox == if keep < |s.nodes[i + 1].inbox| then s.nodes[i + 1].inbox[..keep] else s.nodes[i + 1].inbox
    requires Commit(s.nodes[i].app.(inFlight := []), s.nodes[i].app.inFlight[0], false) == (a, false)
    ensures var n, down := s.nodes[i], s.nodes[i + 1];
      StepLinkDown(s, i, keep) == s.(nodes := s.nodes[i := n.(app := a, outbox := n.outbox + Failures(n.app.inFlight))]
                                                     [i + 1 := down.(inbox := inbox, outbox := [])])
  {
  }

  // ----- a slave closes a write id

  /** A write id row that the master is known to have committed past, or that the stable size covers. */
  lemma CloseNode(c: Context, i: nat, n: Node, w: int, mc: int)
    requires HistOk(c) && NodeOk(c, i, n) && i > 0
    requires 0 <= mc && n.app.masterCommitted <= mc <= n.app.nextCommit && mc <= c.masterCommit
    requires NoneInFlight(c, n, w)
    ensures var (a, st) := CloseWriteId(n.app, w, mc);
      && NodeOk(c, i, n.(app := a)) && a.phase == n.app.phase && a.nextCommit == n.app.nextCommit
      && (a.masterCommitted == n.app.masterCommitted || a.masterCommitted == mc)
      && (st.Success? ==> a.masterCommitted == mc)
  {
    if w in n.app.wids {
      HeardNode(c, i, n, mc);
      var h := n.app.(masterCommitted := mc);
      CloseTable(c, i, n.(app := h), w);
      CloseHeard(n.app, w, mc);
    }
  }

  lemma CloseHeard(a: App, w: int, mc: int)
    requires w in a.wids && 0 <= mc && a.masterCommitted <= mc <= a.nextCommit && a.pos > 0
    ensures CloseWriteId(a, w, mc) == CloseWriteId(a.(masterCommitted := mc), w, mc)
  {
  }

  /** The table once the close has settled what it can. */
  lemma CloseMarked(c: Context, i: nat, n: Node, w: int, b: App)
    requires HistOk(c) && NodeOk(c, i, n) && i > 0 && w in n.app.wids && n.app.masterCommitted <= n.app.nextCommit && NoneInFlight(c, n, w)
    requires b == if n.app.wids[w].status.InProgress? &&
                     (if n.app.makeStableSucceeded then n.app.chunkSize else n.app.masterCommitted) >= n.app.wids[w].End()
                  then Marked(n.app, w) else n.app
    ensures NodeOk(c, i, n.(app := b))
  {
    assert RowOk(c, n, w);
    if b != n.app {
      assert n.app.wids[w].offset >= 0 ==> WellPlaced(c, n.last[w]);
      MarkNode(c, i, n, w);
    }
  }

  lemma CloseTable(c: Context, i: nat, n: Node, w: int)
    requires HistOk(c) && NodeOk(c, i, n) && i > 0 && w in n.app.wids && 0 <= n.app.masterCommitted <= n.app.nextCommit
    requires NoneInFlight(c, n, w)
    ensures var (a, st) := CloseWriteId(n.app, w, n.app.masterCommitted);
      && NodeOk(c, i, n.(app := a)) && a.phase == n.app.phase && a.nextCommit == n.app.nextCommit
      && a.masterCommitted == n.app.masterCommitted
  {
    var ws := n.app.wids[w];
    var b := if ws.status.InProgress? && (if n.app.makeStableSucceeded then n.app.chunkSize else n.app.masterCommitted) >= ws.End()
             then Marked(n.app, w) else n.app;
    CloseMarked(c, i, n, w, b);
    var free := if b.bytesReserved >= ws.reserved then b.bytesReserved - ws.reserved else 0;
    CloseShape(n.app, w, b, free);
    if b.wids[w].status.Success? && !ws.readOnly { DropRow(c, i, n.(app := b), w, free); }
  }

  lemma CloseShape(a: App, w: int, b: App, free: nat)
    requires a.pos > 0 && w in a.wids && 0 <= a.masterCommitted <= a.nextCommit
    requires b == if a.wids[w].status.InProgress? &&
                     (if a.makeStableSucceeded then a.chunkSize else a.masterCommitted) >= a.wids[w].End()
                  then Marked(a, w) else a
    requires free == if b.bytesReserved >= a.wids[w].reserved then b.bytesReserved - a.wids[w].reserved else 0
    ensures CloseWriteId(a, w, a.masterCommitted).0 ==
            if b.wids[w].status.Success? && !a.wids[w].readOnly
            then b.(wids := b.wids - {w}, bytesReserved := free) else b
  {
  }
}
