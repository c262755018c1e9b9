/** What beginning and committing an append does to the invariant of one node. */
module ChainAppend {
  import opened Common
  import opened RecordAppender
  import opened Chain
  import opened ChainInvariant
  import opened ChainQuiet

  // ----- news of the master's commit offset

  lemma HeardNode(c: Context, i: nat, n: Node, mc: int)
    requires NodeOk(c, i, n) && i > 0
    requires n.app.masterCommitted <= mc <= n.app.nextCommit && mc <= c.masterCommit
    ensures var a := UpdateMasterCommitted(n.app, mc);
      a == n.app.(masterCommitted := mc) && NodeOk(c, i, n.(app := a))
  {
    var m := n.(app := UpdateMasterCommitted(n.app, mc));
    forall w | w in m.app.wids ensures RowOk(c, m, w) { assert RowOk(c, n, w); }
  }

  /** No append with the write id is in flight at the node. */
  ghost predicate NoneInFlight(c: Context, n: Node, w: int)
    requires n.begun <= |c.hist|
  {
    n.app.IsOpen() ==> forall k: nat | n.committed <= k < n.begun :: c.hist[k].writeId != w
  }

  /** The slave learns that the last append with the id is in every stable replica. */
  function Marked(a: App, w: int): App
    requires w in a.wids
  {
    a.(wids := a.wids[w := a.wids[w].(status := Success)])
  }

  lemma MarkNode(c: Context, i: nat, n: Node, w: int)
    requires HistOk(c) && NodeOk(c, i, n) && i > 0 && w in n.app.wids && NoneInFlight(c, n, w)
    requires n.app.wids[w].offset >= 0 ==> Safe(c, n.app.wids[w].End()) && WellPlaced(c, n.last[w])
    ensures var m := n.(app := Marked(n.app, w)); NodeOk(c, i, m) && Quiet(n, m)
  {
    var m := n.(app := Marked(n.app, w));
    forall v | v in m.app.wids ensures RowOk(c, m, v) {
      assert RowOk(c, n, v);
      if v != w { RowKept(c, n, m, v); }
    }
    if n.app.IsOpen() {
      forall k: nat | n.committed <= k < n.begun && !c.hist[k].IsAck() ensures PendingRow(m, c.hist[k], k) {
        assert PendingRow(n, c.hist[k], k);
      }
    }
  }

  lemma SettleNode(c: Context, i: nat, n: Node, w: int)
    requires HistOk(c) && NodeOk(c, i, n) && i > 0 && w in n.app.wids && NoneInFlight(c, n, w)
    ensures var a := Settle(n.app, w); NodeOk(c, i, n.(app := a)) && Quiet(n, n.(app := a)) && a.phase == n.app.phase
  {
    assert RowOk(c, n, w);
    if n.app.wids[w].status.InProgress? && n.app.masterCommitted >= n.app.wids[w].End() {
      assert n.app.wids[w].offset >= 0 ==> WellPlaced(c, n.last[w]);
      MarkNode(c, i, n, w);
    }
  }

  // ----- an append is taken into the log

  /** The appender after it took in an append that fits; `reserved` is what the write id keeps. */
  function Taken(a: App, op: Op, reserved: nat, bytesReserved: nat): App {
    var b := a.(inFlight := a.inFlight + [op]);
    if op.IsAck() || op.writeId !in a.wids then b
    else b.(
      nextOffset := a.nextOffset + |op.data|, log := a.log + op.data, bytesReserved := bytesReserved,
      wids := a.wids[op.writeId := a.wids[op.writeId].(
        reserved := reserved, status := InProgress, length := |op.data|, offset := op.fileOffset, clientSeq := op.clientSeq)])
  }

  ghost predicate CanTake(c: Context, i: nat, n: Node, op: Op) {
    && NodeOk(c, i, n) && n.app.IsOpen()
    && n.begun < |c.hist| && op == c.hist[n.begun]
    && op.fileOffset == n.app.nextOffset
    && n.app.nextOffset + |op.data| <= CHUNKSIZE
    && (!op.IsAck() ==>
          op.writeId in n.app.wids && !n.app.wids[op.writeId].readOnly && n.app.wids[op.writeId].status.Success?)
  }

  function Took(n: Node, op: Op, reserved: nat, bytesReserved: nat): Node {
    NoteBegun(n.(app := Taken(n.app, op, reserved, bytesReserved)), op)
  }

  lemma TakeCore(c: Context, i: nat, n: Node, op: Op, reserved: nat, bytesReserved: nat)
    requires HistOk(c) && CanTake(c, i, n, op)
    ensures var m := Took(n, op, reserved, bytesReserved);
      CoreOk(c, i, m) && PlacedOk(c, i, m) && FlightOk(c, m)
  {
    var m := Took(n, op, reserved, bytesReserved);
    assert OpOk(c, n.begun);
    assert c.hist[n.committed..m.begun] == c.hist[n.committed..n.begun] + [op];
    if op.IsAck() { assert LogAt(c, n.begun) + op.data == LogAt(c, n.begun); }
    if i > 0 || c.size == 1 { assert WellPlaced(c, n.begun); }
  }

  lemma TakeTable(c: Context, i: nat, n: Node, op: Op, reserved: nat, bytesReserved: nat)
    requires HistOk(c) && CanTake(c, i, n, op)
    ensures TableOk(c, Took(n, op, reserved, bytesReserved))
  {
    var m := Took(n, op, reserved, bytesReserved);
    assert OpOk(c, n.begun);
    forall w | w in m.app.wids ensures RowOk(c, m, w) { assert RowOk(c, n, w); }
  }

  lemma TakePending(c: Context, i: nat, n: Node, op: Op, reserved: nat, bytesReserved: nat)
    requires HistOk(c) && CanTake(c, i, n, op)
    ensures var m := Took(n, op, reserved, bytesReserved); PendingOk(c, m) && InquiryOk(c, m)
  {
    var m := Took(n, op, reserved, bytesReserved);
    assert OpOk(c, n.begun);
    forall k: nat | m.committed <= k < m.begun && !c.hist[k].IsAck() ensures PendingRow(m, c.hist[k], k) {
      if k < n.begun {
        assert PendingRow(n, c.hist[k], k);
        if !op.IsAck() { NotPending(c, i, n, op.writeId, k); }
      }
    }
  }

  lemma TakeNode(c: Context, i: nat, n: Node, op: Op, reserved: nat, bytesReserved: nat)
    requires HistOk(c) && CanTake(c, i, n, op)
    ensures NodeOk(c, i, Took(n, op, reserved, bytesReserved))
  {
    TakeCore(c, i, n, op, reserved, bytesReserved);
    TakeTable(c, i, n, op, reserved, bytesReserved);
    TakePending(c, i, n, op, reserved, bytesReserved);
  }

  // ----- an append commits

  ghost predicate CanCommit(c: Context, i: nat, n: Node) {
    && NodeOk(c, i, n) && n.app.IsOpen()
    && n.committed < n.begun && WellPlaced(c, n.committed)
    && !CommitInvalid(n.app, c.hist[n.committed])
    && (i == 0 ==> Off(c, n.committed + 1) <= c.masterCommit)
  }

  /** The node after the oldest append in flight came back with success. */
  ghost function Committed(c: Context, n: Node): Node
    requires n.committed < |c.hist| && n.app.inFlight != []
  {
    var (a, _) := Commit(n.app.(inFlight := n.app.inFlight[1..]), c.hist[n.committed], true);
    n.(app := a, committed := n.committed + 1)
  }

  /** An append of another version, or one without data that an inquiry here has settled. */
  predicate Fatal(n: Node, op: Op) {
    op.version != n.app.version || (!op.IsAck() && SettledEmpty(n, op))
  }

  /** The oldest append in flight meets every condition the commit insists on, except in these two cases. */
  lemma CommitInvalidIff(c: Context, i: nat, n: Node)
    requires HistOk(c) && NodeOk(c, i, n) && n.app.IsOpen() && n.committed < n.begun && WellPlaced(c, n.committed)
    ensures CommitInvalid(n.app, c.hist[n.committed]) <==> Fatal(n, c.hist[n.committed])
  {
    var op := c.hist[n.committed];
    assert OpOk(c, n.committed);
    assert NO_WRITE_ID !in n.app.wids;
    if !op.IsAck() { assert PendingRow(n, op, n.committed); }
  }

  lemma CommitValid(c: Context, i: nat, n: Node)
    requires HistOk(c) && CanCommit(c, i, n)
    ensures n.app.inFlight != [] && n.app.inFlight[0] == c.hist[n.committed]
    ensures !CommitInvalid(n.app.(inFlight := n.app.inFlight[1..]), c.hist[n.committed])
    ensures !c.hist[n.committed].IsAck() ==> PendingRow(n, c.hist[n.committed], n.committed)
    ensures NO_WRITE_ID !in n.app.wids && OpOk(c, n.committed)
  {
  }

  lemma CommitCore(c: Context, i: nat, n: Node)
    requires HistOk(c) && CanCommit(c, i, n) && n.app.inFlight != []
    ensures var m := Committed(c, n); CoreOk(c, i, m) && PlacedOk(c, i, m) && FlightOk(c, m)
    ensures var m := Committed(c, n); m.app.IsOpen() && m.app.masterCommitted == n.app.masterCommitted
  {
    CommitValid(c, i, n);
    var m := Committed(c, n);
    assert c.hist[n.committed..n.begun][1..] == c.hist[m.committed..n.begun];
  }

  /** Two appends in flight at one node never share a row. */
  lemma CommitPending(c: Context, i: nat, n: Node)
    requires HistOk(c) && CanCommit(c, i, n) && n.app.inFlight != []
    ensures PendingOk(c, Committed(c, n))
  {
    CommitValid(c, i, n);
    var op, m := c.hist[n.committed], Committed(c, n);
    forall k: nat | m.committed <= k < m.begun && !c.hist[k].IsAck() ensures PendingRow(m, c.hist[k], k) {
      assert PendingRow(n, c.hist[k], k);
    }
  }

  lemma CommitTable(c: Context, i: nat, n: Node)
    requires HistOk(c) && CanCommit(c, i, n) && n.app.inFlight != []
    ensures var m := Committed(c, n); TableOk(c, m) && InquiryOk(c, m)
  {
    CommitValid(c, i, n);
    var op, m := c.hist[n.committed], Committed(c, n);
    forall w | w in m.app.wids ensures RowOk(c, m, w) {
      assert RowOk(c, n, w);
      if w != op.writeId { RowKept(c, n, m, w); }
    }
  }

  lemma CommitNode(c: Context, i: nat, n: Node)
    requires HistOk(c) && CanCommit(c, i, n)
    ensures n.app.inFlight != [] && n.app.inFlight[0] == c.hist[n.committed]
    ensures var (a, ok) := Commit(n.app.(inFlight := n.app.inFlight[1..]), c.hist[n.committed], true);
      ok && a.IsOpen() && a.masterCommitted == n.app.masterCommitted
      && NodeOk(c, i, n.(app := a, committed := n.committed + 1))
  {
    CommitValid(c, i, n);
    CommitCore(c, i, n);
    CommitPending(c, i, n);
    CommitTable(c, i, n);
  }
}
