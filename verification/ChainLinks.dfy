/** What each use of a wire does to the invariant of the link. */
module ChainLinks {
  import opened Common
  import opened RecordAppender
  import opened Chain
  import opened ChainInvariant

  // ----- the node at the upper end

  /** Nothing the lower neighbour relies on went away. */
  predicate UpperKept(i: nat, up: Node, up': Node) {
    && up'.begun == up.begun && up'.committed == up.committed
    && Known(i, up) <= Known(i, up') && (up'.app.IsOpen() ==> up.app.IsOpen())
  }

  lemma LinkUpperKept(c: Context, i: nat, up: Node, down: Node, up': Node)
    requires LinkOk(c, i, up, down) && UpperKept(i, up, up')
    ensures LinkOk(c, i, up', down)
  {
  }

  lemma WireSend(c: Context, up: Node, down: Node, up': Node, p: Packet)
    requires WireOk(c, up, down) && up'.begun <= |c.hist|
    requires up'.begun == up.begun + (if p.Append? then 1 else 0)
    requires up'.app.IsOpen() ==> up.app.IsOpen()
    requires p.Append? ==> up.app.IsOpen() && p.op == c.hist[up.begun]
    ensures WireOk(c, up', down.(inbox := down.inbox + [p]))
  {
    var q := Appends(down.inbox);
    AppendsPush(down.inbox, p);
    if p.Append? {
      var lo, hi := down.received, down.received + |q|;
      assert c.hist[lo..hi] + [c.hist[hi]] == c.hist[lo..hi + 1];
    }
  }

  lemma OffsetsSend(i: nat, up: Node, down: Node, up': Node, p: Packet)
    requires OffsetsOk(i, up, down)
    requires Known(i, up) <= p.MasterCommitted() <= Known(i, up') && 0 <= p.MasterCommitted()
    ensures OffsetsOk(i, up', down.(inbox := down.inbox + [p]))
  {
    var q, r := down.inbox, down.inbox + [p];
    assert forall t: nat | t < |q| :: r[t] == q[t];
    assert r[|q|] == p;
  }

  /** The upper node sends a packet that carries its newest knowledge of the master's commit. */
  lemma LinkSend(c: Context, i: nat, up: Node, down: Node, up': Node, p: Packet)
    requires LinkOk(c, i, up, down)
    requires up'.committed == up.committed && up'.begun <= |c.hist|
    requires up'.begun == up.begun + (if p.Append? then 1 else 0)
    requires Known(i, up) <= p.MasterCommitted() <= Known(i, up') && 0 <= p.MasterCommitted()
    requires up'.app.IsOpen() ==> up.app.IsOpen()
    requires if p.Append? then up.app.IsOpen() && p.op == c.hist[up.begun] else p.writeId in c.closed
    ensures LinkOk(c, i, up', down.(inbox := down.inbox + [p]))
  {
    WireSend(c, up, down, up', p);
    OffsetsSend(i, up, down, up', p);
  }

  /** The upper node took the oldest answer. */
  lemma LinkTakeReply(c: Context, i: nat, up: Node, down: Node, up': Node)
    requires LinkOk(c, i, up, down) && down.outbox != []
    requires up'.begun == up.begun && Known(i, up) <= Known(i, up')
    requires up'.app.IsOpen() ==> up.app.IsOpen() && down.outbox[0].ok && up'.committed == up.committed + 1
    requires !up'.app.IsOpen() ==> up'.committed == up.committed
    ensures LinkOk(c, i, up', down.(outbox := down.outbox[1..]))
  {
    var down' := down.(outbox := down.outbox[1..]);
    assert forall t: nat | t < |down'.outbox| :: down'.outbox[t] == down.outbox[t + 1];
  }

  /** The connection broke: a tail of the wire is gone, and so are the answers. */
  lemma LinkBreak(c: Context, i: nat, up: Node, down: Node, up': Node, inbox: seq<Packet>)
    requires LinkOk(c, i, up, down) && UpperKept(i, up, up')
    requires inbox <= down.inbox
    requires up'.app.IsOpen() ==> up.committed == up.begun && down.committed <= down.begun
    ensures LinkOk(c, i, up', down.(inbox := inbox, outbox := []))
  {
    AppendsKeep(down.inbox, |inbox|);
    assert down.inbox[..|inbox|] == inbox;
    var p, q := Appends(inbox), Appends(down.inbox);
    var lo := down.received;
    assert p == q[..|p|] == c.hist[lo..lo + |q|][..|p|] == c.hist[lo..lo + |p|];
  }

  // ----- the node at the lower end

  /** The lower node took a packet off the wire, and maybe learned how far the master committed. */
  lemma WirePop(c: Context, i: nat, up: Node, down: Node, m: Node)
    requires WireOk(c, up, down) && OffsetsOk(i, up, down) && ClosesOk(c, down) && down.inbox != []
    requires m.inbox == down.inbox[1..]
    requires m.app.masterCommitted == down.app.masterCommitted || m.app.masterCommitted == down.inbox[0].MasterCommitted()
    requires m.received == down.received + (if down.inbox[0].Append? then 1 else 0)
    requires m.begun <= m.received && (m.app.IsOpen() ==> m.received == m.begun)
    ensures WireOk(c, up, m) && OffsetsOk(i, up, m) && ClosesOk(c, m)
    ensures down.inbox[0].Append? ==> down.received < up.begun && down.inbox[0].op == c.hist[down.received]
  {
    var q := Appends(down.inbox);
    assert forall t: nat | t < |m.inbox| :: m.inbox[t] == down.inbox[t + 1];
    if down.inbox[0].Append? {
      assert q[0] == down.inbox[0].op && q[1..] == Appends(m.inbox);
      var lo, hi := down.received, down.received + |q|;
      assert c.hist[lo..hi][0] == c.hist[lo];
      assert c.hist[lo..hi][1..] == c.hist[lo + 1..hi];
    }
  }

  lemma RepliesSuccess(up: Node, down: Node, m: Node)
    requires RepliesOk(up, down) && down.app.IsOpen() && m.committed == down.committed + 1 && up.committed <= down.committed
    requires m.outbox == down.outbox + [Reply(down.committed, true)]
    ensures RepliesOk(up, m)
  {
  }

  lemma RepliesFailure(up: Node, down: Node, m: Node, failures: seq<Reply>)
    requires RepliesOk(up, down) && !m.app.IsOpen() && m.committed == down.committed
    requires m.outbox == down.outbox + failures && forall t: nat | t < |failures| :: !failures[t].ok
    ensures RepliesOk(up, m)
  {
    assert forall t: nat | t < |failures| :: m.outbox[|down.outbox| + t] == failures[t];
  }

  // ----- putting the system back together

  /** What the node below relies on is unchanged. */
  predicate SameAsUpper(n: Node, m: Node) {
    && m.begun == n.begun && m.committed == n.committed
    && m.app == n.app
  }

  lemma NodeWire(c: Context, i: nat, n: Node, m: Node)
    requires NodeOk(c, i, n) && m == n.(inbox := m.inbox, outbox := m.outbox, received := m.received)
    ensures NodeOk(c, i, m)
  {
    forall w | w in m.app.wids ensures RowOk(c, m, w) { assert RowOk(c, n, w); }
  }

  /** A node that is not open keeps its commit offset for good, and so does what the meta server knows. */
  lemma MetaKept(s: System, t: System)
    requires |s.nodes| > 0 && MetaOk(s) && |t.nodes| == |s.nodes|
    requires t.relinquished == s.relinquished && t.reports == s.reports && t.decision == s.decision
    requires forall j: nat | j < |s.nodes| && !s.nodes[j].app.IsOpen() ::
               !t.nodes[j].app.IsOpen() && t.nodes[j].app.nextCommit == s.nodes[j].app.nextCommit
    ensures MetaOk(t)
  {
  }

  ghost predicate OnlyChanged(s: System, t: System, i: nat) {
    |t.nodes| == |s.nodes| && forall j: nat | j < |s.nodes| && j != i && j != i + 1 :: t.nodes[j] == s.nodes[j]
  }

  lemma RebuildNodes(s: System, t: System, i: nat)
    requires Inv(s) && i < |s.nodes| && OnlyChanged(s, t, i) && Grows(ContextOf(s), ContextOf(t))
    requires NodeOk(ContextOf(t), i, t.nodes[i])
    requires i + 1 < |s.nodes| ==> NodeOk(ContextOf(t), i + 1, t.nodes[i + 1])
    ensures forall j: nat | j < |t.nodes| :: NodeOk(ContextOf(t), j, t.nodes[j])
  {
    var c, d := ContextOf(s), ContextOf(t);
    forall j: nat | j < |t.nodes| ensures NodeOk(d, j, t.nodes[j]) {
      if j != i && j != i + 1 { NodeGrows(c, d, j, s.nodes[j]); }
    }
  }

  lemma RebuildLinks(s: System, t: System, i: nat)
    requires Inv(s) && i < |s.nodes| && OnlyChanged(s, t, i) && Grows(ContextOf(s), ContextOf(t))
    requires i > 0 ==> LinkOk(ContextOf(t), i - 1, t.nodes[i - 1], t.nodes[i])
    requires i + 1 < |s.nodes| ==>
               SameAsUpper(s.nodes[i + 1], t.nodes[i + 1]) && LinkOk(ContextOf(t), i, t.nodes[i], t.nodes[i + 1])
    ensures forall j: nat | j + 1 < |t.nodes| :: LinkOk(ContextOf(t), j, t.nodes[j], t.nodes[j + 1])
  {
    var c, d := ContextOf(s), ContextOf(t);
    forall j: nat | j + 1 < |t.nodes| ensures LinkOk(d, j, t.nodes[j], t.nodes[j + 1]) {
      if j + 1 != i && j != i {
        LinkGrows(c, d, j, s.nodes[j], s.nodes[j + 1]);
        if j == i + 1 { LinkUpperKept(d, j, s.nodes[j], s.nodes[j + 1], t.nodes[j]); }
      }
    }
  }

  lemma Rebuild(s: System, t: System, i: nat)
    requires Inv(s) && i < |s.nodes| && OnlyChanged(s, t, i)
    requires Grows(ContextOf(s), ContextOf(t)) && HistOk(ContextOf(t)) && EndsOk(t) && RetiredOk(t) && MetaOk(t) && t.answers == s.answers
    requires NodeOk(ContextOf(t), i, t.nodes[i])
    requires i > 0 ==> LinkOk(ContextOf(t), i - 1, t.nodes[i - 1], t.nodes[i])
    requires i + 1 < |s.nodes| ==>
               && NodeOk(ContextOf(t), i + 1, t.nodes[i + 1]) && SameAsUpper(s.nodes[i + 1], t.nodes[i + 1])
               && LinkOk(ContextOf(t), i, t.nodes[i], t.nodes[i + 1])
    ensures Inv(t)
  {
    RebuildNodes(s, t, i);
    RebuildLinks(s, t, i);
    forall x | x in t.answers ensures AnswerOk(ContextOf(t), x) { AnswerGrows(ContextOf(s), ContextOf(t), x); }
  }
}
