/** The invariant of the replication chain, and facts about the master's history. */
module ChainInvariant {
  import opened Common
  import opened RecordAppender
  import opened Chain

  /** What the invariant of one node needs to know about the rest of the system. */
  datatype Context = Context(
    start: seq<Byte>, hist: seq<Op>, size: nat, chunkId: int, version: int,
    masterCommit: nat, masterDone: nat,   // how far the master committed, in bytes and in appends
    decision: Option<Decision>, closed: set<int>)

  /** The log of a server that took the first `k` appends of the history. */
  ghost function LogAt(c: Context, k: nat): seq<Byte>
    requires k <= |c.hist|
  {
    if k == 0 then c.start else LogAt(c, k - 1) + c.hist[k - 1].data
  }

  ghost function Off(c: Context, k: nat): nat
    requires k <= |c.hist|
  {
    |LogAt(c, k)|
  }

  lemma {:induction false} LogPrefix(c: Context, j: nat, k: nat)
    requires j <= k <= |c.hist|
    ensures LogAt(c, j) <= LogAt(c, k)
    ensures Off(c, j) <= Off(c, k)
    decreases k
  {
    if j < k { LogPrefix(c, j, k - 1); }
  }

  /** Append `k` of the history sits at its offset in every log that reaches past it. */
  lemma LogSlice(c: Context, k: nat, m: nat)
    requires k < m <= |c.hist|
    ensures Off(c, k) + |c.hist[k].data| == Off(c, k + 1) <= Off(c, m)
    ensures LogAt(c, m)[Off(c, k)..Off(c, k + 1)] == c.hist[k].data
  {
    LogPrefix(c, k + 1, m);
    var whole, part := LogAt(c, m), LogAt(c, k + 1);
    assert part == LogAt(c, k) + c.hist[k].data;
    assert whole[Off(c, k)..Off(c, k + 1)] == part[Off(c, k)..];
  }

  // ----- history

  /** The context only ever grows. */
  ghost predicate Grows(c: Context, d: Context) {
    && c.start == d.start && c.size == d.size && c.chunkId == d.chunkId && c.version == d.version
    && c.hist <= d.hist
    && c.masterCommit <= d.masterCommit && c.masterDone <= d.masterDone && c.closed <= d.closed
    && (c.decision.Some? ==> d.decision == c.decision)
  }

  lemma {:induction false} LogGrows(c: Context, d: Context, k: nat)
    requires Grows(c, d) && k <= |c.hist|
    ensures LogAt(c, k) == LogAt(d, k)
    ensures Off(c, k) == Off(d, k)
  {
    if k > 0 { LogGrows(c, d, k - 1); }
  }

  lemma LogsGrow(c: Context, d: Context)
    requires Grows(c, d)
    ensures forall k: nat {:trigger LogAt(c, k)} {:trigger LogAt(d, k)} | k <= |c.hist| :: LogAt(c, k) == LogAt(d, k)
    ensures forall k: nat | k < |c.hist| :: c.hist[k] == d.hist[k]
  {
    forall k: nat | k <= |c.hist| ensures LogAt(c, k) == LogAt(d, k) { LogGrows(c, d, k); }
  }

  ghost predicate OpOk(c: Context, k: nat)
    requires k < |c.hist|
  {
    var op := c.hist[k];
    && op.id == k && op.chunkId == c.chunkId && op.numServers == c.size
    && op.fileOffset >= Off(c, k)
    && (op.writeId >= 0 || op.IsAck())
    && (c.size > 1 ==> 0 <= op.masterCommitted <= c.masterCommit)
  }

  /** The master begins an append with a write id only when it committed all earlier ones with that id, and closes an id only then. */
  ghost predicate SerialOk(c: Context) {
    && (forall j: nat, k: nat | j < k < |c.hist| && c.hist[j].writeId == c.hist[k].writeId >= 0 :: j < c.masterDone)
    && (forall k: nat | k < |c.hist| && c.hist[k].writeId >= 0 && c.hist[k].writeId in c.closed :: k < c.masterDone)
  }

  ghost predicate HistOk(c: Context) {
    (forall k: nat | k < |c.hist| :: OpOk(c, k)) && SerialOk(c)
  }

  /** The master placed the append right behind everything it forwarded before. */
  ghost predicate WellPlaced(c: Context, k: nat) {
    k < |c.hist| && c.hist[k].fileOffset == Off(c, k)
  }

  /** An end offset that every replica that becomes stable reaches. */
  ghost predicate Safe(c: Context, end: int) {
    end <= c.masterCommit || (c.decision.Some? && end <= c.decision.value.size)
  }

  ghost predicate Doomed(c: Context, end: int) {
    c.decision.Some? && c.decision.value.size < end
  }

  // ----- one node

  ghost predicate Basic(c: Context, i: nat, n: Node) {
    var a := n.app;
    && i < c.size
    && a.chunkId == c.chunkId && a.version == c.version && a.pos == i && a.numServers == c.size && a.peer == i + 1
    && n.committed <= n.begun <= |c.hist|
    && a.nextCommit == Off(c, n.committed)
    && !a.aborted && a.windowErrors == 0
    && (a.HasStableOp() || a.beginPending ==> !a.AcceptsClose())
    && (i == 0 ==> !a.phase.ReplicationFailed?)
    && (i > 0 ==> a.masterCommitted <= c.masterCommit)
    && (i == 0 ==> a.nextOffset <= CHUNKSIZE)
  }

  ghost predicate LogOk(c: Context, i: nat, n: Node)
    requires n.begun <= |c.hist|
  {
    var a := n.app;
    && a.log <= LogAt(c, n.begun)
    && (a.chunkSize < 0 ==> a.log == LogAt(c, n.begun))
    && (a.AcceptsClose() ==> a.chunkSize < 0)
    && (i == 0 ==> Off(c, n.begun) <= a.nextOffset)
    && (a.IsOpen() && (i > 0 || c.size == 1) ==> a.nextOffset == Off(c, n.begun))
    && (a.phase.Closed? && a.chunkSize >= 0 ==> a.chunkSize == a.nextCommit == |a.log|)
  }

  ghost predicate PlacedOk(c: Context, i: nat, n: Node) {
    && (forall k: nat | k < n.committed :: WellPlaced(c, k))
    && (i > 0 || c.size == 1 ==> forall k: nat | k < n.begun :: WellPlaced(c, k))
  }

  ghost predicate FlightOk(c: Context, n: Node)
    requires n.committed <= n.begun <= |c.hist|
  {
    n.app.IsOpen() ==> n.app.inFlight == c.hist[n.committed..n.begun]
  }

  /** The row of the write id table is about this append. */
  predicate RowOf(a: App, op: Op) {
    && op.writeId in a.wids && a.wids[op.writeId].offset == op.fileOffset && a.wids[op.writeId].length == |op.data|
    && a.wids[op.writeId].clientSeq == op.clientSeq
  }

  /** An append at a slave without data, that an inquiry there has settled. */
  predicate SettledEmpty(n: Node, op: Op) {
    n.app.pos > 0 && op.data == [] && op.writeId in n.inquired && op.writeId in n.app.wids && n.app.wids[op.writeId].status.Success?
  }

  /** The row of an append in flight is about that append; its status is open, but for one that an inquiry settled. */
  predicate PendingRow(n: Node, op: Op, k: nat) {
    && RowOf(n.app, op) && op.writeId in n.last && n.last[op.writeId] == k
    && (n.app.wids[op.writeId].status.InProgress? || SettledEmpty(n, op))
  }

  ghost predicate PendingOk(c: Context, n: Node)
    requires n.begun <= |c.hist|
  {
    n.app.IsOpen() ==>
      forall k: nat | n.committed <= k < n.begun && !c.hist[k].IsAck() ::
        PendingRow(n, c.hist[k], k)
  }

  ghost predicate RowOk(c: Context, n: Node, w: int)
    requires w in n.app.wids && n.begun <= |c.hist|
  {
    var ws := n.app.wids[w];
    && w >= 0 && w in n.issued
    && (ws.status.Success? || ws.status.InProgress? || ws.status.EFailedState?)
    && (ws.readOnly ==> ws.reserved == 0 && w in n.inquired)
    && (ws.offset < 0 ==> ws.status.Success? && forall k: nat | k < n.begun :: c.hist[k].writeId != w)
    && (ws.offset >= 0 ==>
          && (forall k: nat | k < n.begun && w in n.last && n.last[w] < k :: c.hist[k].writeId != w)
          && (n.app.pos == 0 && ws.status.Success? && !ws.readOnly ==> w in n.last && n.last[w] < n.committed)
          && w in n.last && n.last[w] < n.begun && c.hist[n.last[w]].writeId == w && RowOf(n.app, c.hist[n.last[w]])
          && (ws.status.Success? ==> Safe(c, ws.End()) && WellPlaced(c, n.last[w]))
          && (ws.status.EFailedState? ==> Doomed(c, ws.End())))
  }

  ghost predicate TableOk(c: Context, n: Node)
    requires n.begun <= |c.hist|
  {
    && (forall w | w in n.app.wids :: RowOk(c, n, w))
    && (forall k: nat | k < n.begun && c.hist[k].writeId >= 0 :: c.hist[k].writeId in n.issued)
  }

  ghost predicate StableOk(c: Context, n: Node) {
    var a := n.app;
    && (a.phase.Stable? ==> a.makeStableSucceeded)
    && (a.makeStableSucceeded ==>
          c.decision.Some? && a.chunkSize == c.decision.value.size == |a.log| && IsChunkStable(a.phase))
    && (a.target.Some? ==> c.decision.Some? && a.target.value == c.decision.value.size)
  }

  ghost predicate InquiryOk(c: Context, n: Node)
    requires n.begun <= |c.hist|
  {
    forall w | w in n.inquired ::
      && w >= 0 && n.inquired[w] <= n.begun
      && ((w in n.app.wids && n.app.wids[w].readOnly) || n.app.phase.PendingDelete?)
      && forall k: nat | n.inquired[w] <= k < n.begun :: c.hist[k].writeId != w
  }

  ghost predicate NodeOk(c: Context, i: nat, n: Node) {
    && Basic(c, i, n) && LogOk(c, i, n) && PlacedOk(c, i, n) && FlightOk(c, n)
    && PendingOk(c, n) && TableOk(c, n) && StableOk(c, n) && InquiryOk(c, n)
  }

  // ----- one link

  /** The appends on a wire, in order. */
  function Appends(q: seq<Packet>): seq<Op> {
    if q == [] then []
    else if q[0].Append? then [q[0].op] + Appends(q[1..])
    else Appends(q[1..])
  }

  /** How far the master is known to have committed at a node. */
  function Known(i: nat, n: Node): int {
    if i == 0 then n.app.nextCommit else n.app.masterCommitted
  }

  ghost predicate WireOk(c: Context, up: Node, down: Node) {
    var q := Appends(down.inbox);
    && down.begun <= down.received
    && down.received + |q| <= up.begun <= |c.hist|
    && q == c.hist[down.received..down.received + |q|]
    && (down.app.IsOpen() ==> down.received == down.begun)
    && (up.app.IsOpen() ==> down.received + |q| == up.begun)
  }

  ghost predicate OffsetsOk(i: nat, up: Node, down: Node) {
    var q := down.inbox;
    && down.app.masterCommitted <= Known(i, up)
    && (forall t: nat | t < |q| :: 0 <= q[t].MasterCommitted() && down.app.masterCommitted <= q[t].MasterCommitted() <= Known(i, up))
    && (forall t: nat, u: nat | t < u < |q| :: q[t].MasterCommitted() <= q[u].MasterCommitted())
  }

  /** Answers on the wire: first the successes, in order, then the failures. */
  ghost predicate RepliesOk(up: Node, down: Node) {
    var q := down.outbox;
    up.app.IsOpen() ==>
      && (forall t: nat | t < |q| && q[t].ok :: q[t].id == up.committed + t < down.committed)
      && (forall t: nat, u: nat | t < u < |q| && q[u].ok :: q[t].ok)
      && (down.app.IsOpen() ==> |q| == down.committed - up.committed && forall t: nat | t < |q| :: q[t].ok)
  }

  /** Only ids that the master closed are closed further down. */
  ghost predicate ClosesOk(c: Context, down: Node) {
    forall t: nat | t < |down.inbox| && down.inbox[t].Close? :: down.inbox[t].writeId in c.closed
  }

  ghost predicate LinkOk(c: Context, i: nat, up: Node, down: Node) {
    && down.begun <= up.begun
    && up.committed <= down.committed
    && WireOk(c, up, down) && OffsetsOk(i, up, down) && RepliesOk(up, down) && ClosesOk(c, down)
  }

  // ----- the system

  ghost function ContextOf(s: System): Context
    requires |s.nodes| > 0
  {
    Context(s.start, s.hist, |s.nodes|, s.nodes[0].app.chunkId, s.version,
            s.nodes[0].app.nextCommit, s.nodes[0].committed, s.decision, s.closed)
  }

  ghost predicate MetaOk(s: System)
    requires |s.nodes| > 0
  {
    && (s.relinquished.Some? ==> s.relinquished.value == s.nodes[0].app.nextCommit && !s.nodes[0].app.IsOpen())
    && (forall j | j in s.reports ::
          j < |s.nodes| && s.reports[j] == s.nodes[j].app.nextCommit && !s.nodes[j].app.IsOpen())
    && (s.decision.Some? ==>
          var d := s.decision.value;
          d.source < |s.nodes| && d.size == s.nodes[d.source].app.nextCommit && !s.nodes[d.source].app.IsOpen())
  }

  /** The append an answer is about. */
  ghost predicate About(c: Context, x: Answer, k: nat) {
    && k < |c.hist| && c.hist[k].writeId == x.writeId
    && c.hist[k].fileOffset == x.offset && |c.hist[k].data| == x.length && c.hist[k].clientSeq == x.clientSeq
  }

  ghost predicate AnswerOk(c: Context, x: Answer) {
    && x.writeId >= 0
    && (x.offset >= 0 ==> exists k: nat :: About(c, x, k) && (x.status.Success? ==> WellPlaced(c, k)))
    && (x.offset >= 0 && x.status.Success? ==> Safe(c, x.offset + x.length))
    && (x.status.EFailedState? ==> x.offset >= 0 && Doomed(c, x.offset + x.length))
    && (x.status.Success? || x.status.InProgress? || x.status.EFailedState?)
  }

  /** The master begins everything in the history; the last node commits what it begins. */
  predicate EndsOk(s: System)
    requires |s.nodes| > 0
  {
    var tail := s.nodes[|s.nodes| - 1];
    s.nodes[0].begun == |s.hist| && (tail.app.IsOpen() ==> tail.committed == tail.begun)
  }

  /** An id that the master closed is not in its table, and never will be again. */
  predicate RetiredOk(s: System)
    requires |s.nodes| > 0
  {
    forall w | w in s.closed :: w >= 0 && w !in s.nodes[0].app.wids && w in s.nodes[0].issued
  }

  ghost predicate Inv(s: System) {
    && |s.nodes| > 0
    && var c := ContextOf(s);
    && HistOk(c) && EndsOk(s) && RetiredOk(s)
    && (forall i: nat {:trigger NodeOk(c, i, s.nodes[i])} | i < |s.nodes| :: NodeOk(c, i, s.nodes[i]))
    && (forall i: nat | i + 1 < |s.nodes| :: LinkOk(c, i, s.nodes[i], s.nodes[i + 1]))
    && MetaOk(s)
    && (forall x | x in s.answers :: AnswerOk(c, x))
  }

  lemma InvSame(s: System, t: System)
    requires Inv(s) && s == t
    ensures Inv(t)
  {
  }

  // ----- the invariant survives growth of the context

  lemma NodeGrows(c: Context, d: Context, i: nat, n: Node)
    requires NodeOk(c, i, n) && Grows(c, d)
    ensures NodeOk(d, i, n)
  {
    LogsGrow(c, d);
    forall k: nat | WellPlaced(c, k) ensures WellPlaced(d, k) {}
    forall w | w in n.app.wids ensures RowOk(d, n, w) { assert RowOk(c, n, w); }
  }

  lemma LinkGrows(c: Context, d: Context, i: nat, up: Node, down: Node)
    requires LinkOk(c, i, up, down) && Grows(c, d)
    ensures LinkOk(d, i, up, down)
  {
    LogsGrow(c, d);
  }

  lemma AnswerGrows(c: Context, d: Context, x: Answer)
    requires AnswerOk(c, x) && Grows(c, d)
    ensures AnswerOk(d, x)
  {
    LogsGrow(c, d);
    if x.offset >= 0 {
      var k: nat :| About(c, x, k) && (x.status.Success? ==> WellPlaced(c, k));
      assert About(d, x, k) && (x.status.Success? ==> WellPlaced(d, k));
    }
  }

  lemma HistGrows(c: Context, d: Context)
    requires HistOk(c) && Grows(c, d)
    ensures forall k: nat | k < |c.hist| :: OpOk(d, k)
    ensures d.hist == c.hist && d.closed == c.closed ==> HistOk(d)
  {
    LogsGrow(c, d);
    forall k: nat | k < |c.hist| ensures OpOk(d, k) { assert OpOk(c, k); }
  }

  // ----- wires

  lemma {:induction false} AppendsPush(q: seq<Packet>, p: Packet)
    ensures Appends(q + [p]) == Appends(q) + (if p.Append? then [p.op] else [])
  {
    if q == [] {
      assert q + [p] == [p];
    } else {
      assert (q + [p])[1..] == q[1..] + [p];
      AppendsPush(q[1..], p);
    }
  }

  lemma {:induction false} AppendsKeep(q: seq<Packet>, keep: nat)
    requires keep <= |q|
    ensures Appends(q[..keep]) <= Appends(q)
  {
    if keep > 0 {
      assert q[..keep][1..] == q[1..][..keep - 1];
      AppendsKeep(q[1..], keep - 1);
    }
  }

  // ----- commit offsets along the chain

  lemma {:induction false} CommitsNested(s: System, i: nat, j: nat)
    requires Inv(s) && i <= j < |s.nodes|
    ensures s.nodes[i].committed <= s.nodes[j].committed
    ensures s.nodes[j].begun <= s.nodes[i].begun
    ensures s.nodes[i].app.nextCommit <= s.nodes[j].app.nextCommit
    decreases j
  {
    assert NodeOk(ContextOf(s), i, s.nodes[i]) && NodeOk(ContextOf(s), j, s.nodes[j]);
    if i < j {
      CommitsNested(s, i, j - 1);
      assert LinkOk(ContextOf(s), j - 1, s.nodes[j - 1], s.nodes[j - 1 + 1]);
    }
    LogPrefix(ContextOf(s), s.nodes[i].committed, s.nodes[j].committed);
  }
}
