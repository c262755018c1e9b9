/** Steps that change one node and put nothing on a wire keep the invariant. */
module ChainQuiet {
  import opened Common
  import opened RecordAppender
  import opened Chain
  import opened ChainInvariant

  /** The neighbours of the node cannot tell the difference, except that it may have left the open phase. */
  predicate Quiet(n: Node, m: Node) {
    && m.inbox == n.inbox && m.outbox == n.outbox
    && m.begun == n.begun && m.committed == n.committed && m.received == n.received
    && m.app.nextCommit == n.app.nextCommit && m.app.masterCommitted == n.app.masterCommitted
    && (m.app.IsOpen() ==> n.app.IsOpen())
    && OnlyFresh(n, m)
  }

  /** Only ids that were never handed out before are new in the table. */
  predicate OnlyFresh(n: Node, m: Node) {
    n.issued <= m.issued && forall w | w in m.app.wids :: w in n.app.wids || w !in n.issued
  }

  predicate SameOrQuiet(n: Node, m: Node) {
    m == n || Quiet(n, m)
  }

  lemma LinkQuiet(c: Context, j: nat, up: Node, down: Node, up': Node, down': Node)
    requires LinkOk(c, j, up, down) && SameOrQuiet(up, up') && SameOrQuiet(down, down')
    ensures LinkOk(c, j, up', down')
  {
  }

  lemma QuietContext(s: System, t: System, i: nat, m: Node)
    requires |s.nodes| > 0 && i < |s.nodes| && Basic(ContextOf(s), i, m) && Quiet(s.nodes[i], m)
    requires t.nodes == s.nodes[i := m] && t.hist == s.hist && t.start == s.start && t.version == s.version && t.decision == s.decision
    requires t.closed == s.closed
    ensures ContextOf(t) == ContextOf(s)
  {
  }

  lemma QuietStep(s: System, t: System, i: nat, m: Node)
    requires Inv(s) && i < |s.nodes|
    requires t.nodes == s.nodes[i := m] && t.hist == s.hist && t.start == s.start && t.version == s.version && t.decision == s.decision
    requires t.closed == s.closed
    requires NodeOk(ContextOf(s), i, m) && Quiet(s.nodes[i], m)
    requires MetaOk(t)
    requires forall x | x in t.answers :: AnswerOk(ContextOf(s), x)
    ensures Inv(t)
  {
    var c := ContextOf(s);
    QuietContext(s, t, i, m);
    forall j: nat | j + 1 < |t.nodes| ensures LinkOk(c, j, t.nodes[j], t.nodes[j + 1]) {
      LinkQuiet(c, j, s.nodes[j], s.nodes[j + 1], t.nodes[j], t.nodes[j + 1]);
    }
  }

  lemma QuietApp(s: System, i: nat, a: App)
    requires Inv(s) && i < |s.nodes|
    requires NodeOk(ContextOf(s), i, s.nodes[i].(app := a)) && Quiet(s.nodes[i], s.nodes[i].(app := a))
    ensures Inv(WithApp(s, i, a))
  {
    QuietStep(s, WithApp(s, i, a), i, s.nodes[i].(app := a));
  }

  /** Half of a node's invariant speaks only of the table and of history. */
  lemma SameTable(c: Context, i: nat, n: Node, m: Node)
    requires NodeOk(c, i, n) && Quiet(n, m)
    requires m.app.wids == n.app.wids && m.last == n.last && m.issued == n.issued && m.inquired == n.inquired
    requires m.app.pos == n.app.pos && m.app.inFlight == n.app.inFlight && (n.app.phase.PendingDelete? ==> m.app.phase.PendingDelete?)
    ensures PlacedOk(c, i, m) && FlightOk(c, m) && PendingOk(c, m) && TableOk(c, m) && InquiryOk(c, m)
  {
    forall w | w in m.app.wids ensures RowOk(c, m, w) { assert RowOk(c, n, w); }
  }

  // ----- leaving the open phase

  lemma FailNode(c: Context, i: nat, n: Node)
    requires NodeOk(c, i, n) && n.app.IsOpen()
    ensures var a := SetState(n.app, ReplicationFailed);
      NodeOk(c, i, n.(app := a)) && Quiet(n, n.(app := a)) && !a.IsOpen() && a.inFlight == n.app.inFlight
  {
    SameTable(c, i, n, n.(app := SetState(n.app, ReplicationFailed)));
  }

  lemma IdleCloseNode(c: Context, n: Node)
    requires NodeOk(c, 0, n) && n.app.IsOpen()
    ensures var a := TryToCloseFailed(n.app); NodeOk(c, 0, n.(app := a)) && Quiet(n, n.(app := a))
  {
    SameTable(c, 0, n, n.(app := TryToCloseFailed(n.app)));
  }

  lemma LoseNode(c: Context, i: nat, n: Node)
    requires NodeOk(c, i, n)
    ensures var a := SetState(n.app, ChunkLost); NodeOk(c, i, n.(app := a)) && Quiet(n, n.(app := a))
  {
    LoseShape(n.app);
    SameTable(c, i, n, n.(app := SetState(n.app, ChunkLost)));
  }

  lemma LoseShape(a: App)
    ensures SetState(a, ChunkLost) == if a.phase.PendingDelete? then a else a.(phase := ChunkLost)
  {
  }

  lemma DeleteNode(c: Context, i: nat, n: Node)
    requires NodeOk(c, i, n)
    ensures var a := SetState(n.app.(wids := map[]), PendingDelete); NodeOk(c, i, n.(app := a)) && Quiet(n, n.(app := a))
  {
    DeleteShape(n.app);
  }

  lemma DeleteShape(a: App)
    ensures SetState(a.(wids := map[]), PendingDelete) == a.(wids := map[], phase := PendingDelete)
  {
  }

  // ----- the write id table

  lemma AllocateNode(c: Context, i: nat, n: Node, r: WriteIdRequest, max: nat)
    requires NodeOk(c, i, n) && r.writeId >= 0 && r.writeId !in n.issued
    ensures var m := n.(app := AllocateWriteId(n.app, r, max, true).0, issued := n.issued + {r.writeId});
      NodeOk(c, i, m) && Quiet(n, m)
  {
    RowsIssued(c, i, n);
    AllocateShape(n.app, r, max);
    if AllocateCheck(n.app, r, max).Success? { AddRow(c, i, n, r.writeId, r.clientSeq); } else { NoteIssued(c, i, n, r.writeId); }
  }

  lemma AllocateShape(a: App, r: WriteIdRequest, max: nat)
    requires r.writeId !in a.wids
    ensures AllocateWriteId(a, r, max, true).0 ==
            if AllocateCheck(a, r, max).Success? then a.(wids := a.wids[r.writeId := FRESH_WRITE_ID.(clientSeq := r.clientSeq)]) else a
  {
  }

  lemma NoteIssued(c: Context, i: nat, n: Node, w: int)
    requires NodeOk(c, i, n)
    ensures var m := n.(issued := n.issued + {w}); NodeOk(c, i, m) && Quiet(n, m)
  {
    var m := n.(issued := n.issued + {w});
    forall v | v in m.app.wids ensures RowOk(c, m, v) { assert RowOk(c, n, v); RowKept(c, n, m, v); }
  }

  lemma AddRow(c: Context, i: nat, n: Node, w: int, clientSeq: int)
    requires NodeOk(c, i, n) && w >= 0 && w !in n.issued
    ensures var m := n.(app := n.app.(wids := n.app.wids[w := FRESH_WRITE_ID.(clientSeq := clientSeq)]), issued := n.issued + {w});
      NodeOk(c, i, m) && Quiet(n, m)
  {
    var m := n.(app := n.app.(wids := n.app.wids[w := FRESH_WRITE_ID.(clientSeq := clientSeq)]), issued := n.issued + {w});
    RowsIssued(c, i, n);
    forall v | v in m.app.wids ensures RowOk(c, m, v) { if v != w { assert RowOk(c, n, v); RowKept(c, n, m, v); } }
    if n.app.IsOpen() {
      forall k: nat | n.committed <= k < n.begun && !c.hist[k].IsAck() ensures PendingRow(m, c.hist[k], k) {
        assert PendingRow(n, c.hist[k], k);
      }
    }
  }

  lemma RowsIssued(c: Context, i: nat, n: Node)
    requires NodeOk(c, i, n)
    ensures forall v | v in n.app.wids :: v in n.issued
  {
    forall v | v in n.app.wids ensures v in n.issued { assert RowOk(c, n, v); }
  }

  /** A row that stays as it is. */
  lemma RowKept(c: Context, n: Node, m: Node, v: int)
    requires v in n.app.wids && n.begun <= |c.hist| && RowOk(c, n, v)
    requires v in m.app.wids && m.app.wids[v] == n.app.wids[v] && m.app.pos == n.app.pos
    requires m.begun == n.begun && n.committed <= m.committed && m.last == n.last && n.issued <= m.issued
    requires v in n.inquired ==> v in m.inquired
    ensures RowOk(c, m, v)
  {
  }

  /** A row that can still be used and is settled is not that of an append in flight. */
  lemma NotPending(c: Context, i: nat, n: Node, w: int, k: nat)
    requires NodeOk(c, i, n) && n.app.IsOpen() && w in n.app.wids && n.app.wids[w].status.Success? && !n.app.wids[w].readOnly
    requires n.committed <= k < n.begun && !c.hist[k].IsAck()
    ensures c.hist[k].writeId != w
  {
    assert PendingRow(n, c.hist[k], k);
  }

  lemma DropRow(c: Context, i: nat, n: Node, w: int, bytesReserved: nat)
    requires NodeOk(c, i, n) && w in n.app.wids && n.app.wids[w].status.Success? && !n.app.wids[w].readOnly
    ensures NodeOk(c, i, n.(app := n.app.(wids := n.app.wids - {w}, bytesReserved := bytesReserved)))
  {
    var m := n.(app := n.app.(wids := n.app.wids - {w}, bytesReserved := bytesReserved));
    forall v | v in m.app.wids ensures RowOk(c, m, v) { assert RowOk(c, n, v); RowKept(c, n, m, v); }
    if n.app.IsOpen() {
      forall k: nat | n.committed <= k < n.begun && !c.hist[k].IsAck() ensures PendingRow(m, c.hist[k], k) {
        NotPending(c, i, n, w, k);
        assert PendingRow(n, c.hist[k], k);
      }
    }
  }

  lemma InvalidateNode(c: Context, i: nat, n: Node, w: int, declare: bool)
    requires NodeOk(c, i, n)
    ensures var a := InvalidateWriteId(n.app, w, declare).0; NodeOk(c, i, n.(app := a)) && Quiet(n, n.(app := a))
  {
    if InvalidateWriteId(n.app, w, declare).1.Success? {
      DropRow(c, i, n, w, n.app.bytesReserved);
      var m := n.(app := n.app.(wids := n.app.wids - {w}));
      assert m.app == n.app.(wids := n.app.wids - {w}, bytesReserved := n.app.bytesReserved);
      if declare && m.app.IsOpen() { FailNode(c, i, m); }
    }
  }

  lemma ReserveNode(c: Context, n: Node, w: int, bytes: nat, release: bool)
    requires NodeOk(c, 0, n)
    ensures var a := ChangeReservation(n.app, w, bytes, release, true).0;
      NodeOk(c, 0, n.(app := a)) && Quiet(n, n.(app := a))
  {
    var m := n.(app := ChangeReservation(n.app, w, bytes, release, true).0);
    assert w in n.app.wids ==> RowOk(c, n, w);
    forall v | v in m.app.wids ensures RowOk(c, m, v) { assert RowOk(c, n, v); }
  }

  /** An append still in flight at an open slave cannot be settled early: it carries data. */
  lemma NotSettledEarly(c: Context, i: nat, n: Node, k: nat, mc: int)
    requires HistOk(c) && NodeOk(c, i, n) && n.app.IsOpen() && i > 0
    requires n.committed <= k < n.begun && c.hist[k].data != []
    requires mc <= n.app.nextCommit
    ensures RowOf(n.app, c.hist[k]) && mc < n.app.wids[c.hist[k].writeId].End()
  {
    LogPrefix(c, n.committed, k);
    assert WellPlaced(c, k);
    assert OpOk(c, k);
  }

  lemma ResolveOk(c: Context, i: nat, n: Node, w: int, e: Decision, source: Node)
    requires HistOk(c) && NodeOk(c, i, n) && w in n.app.wids && n.app.wids[w].offset >= 0
    requires n.app.makeStableSucceeded && c.decision == Some(e) && e.size >= n.app.wids[w].End()
    requires source.committed <= |c.hist| && e.size == Off(c, source.committed)
    requires forall k: nat | k < source.committed :: WellPlaced(c, k)
    ensures WellPlaced(c, n.last[w])
  {
    assert RowOk(c, n, w);
    var k := n.last[w];
    assert OpOk(c, k);
    if k >= source.committed { LogPrefix(c, source.committed, k); }
  }

  /** The row after an inquiry. */
  lemma InquireRow(s: System, i: nat, w: int, a: App, m: Node)
    requires Inv(s) && i < |s.nodes| && w in s.nodes[i].app.wids
    requires a == GetOpStatus(s.nodes[i].app, w).0 && m == s.nodes[i].(app := a, inquired := m.inquired) && w in m.inquired
    ensures m.begun <= |s.hist| && w in a.wids && RowOk(ContextOf(s), m, w)
  {
    var c, n := ContextOf(s), s.nodes[i];
    assert NodeOk(c, i, n) && RowOk(c, n, w);
    var ws := n.app.wids[w];
    if ws.status.InProgress? && n.app.makeStableSucceeded && n.app.chunkSize >= ws.End() {
      var d := c.decision.value;
      assert NodeOk(c, d.source, s.nodes[d.source]);
      ResolveOk(c, i, n, w, d, s.nodes[d.source]);
    } else if i > 0 {
      assert ws.offset >= 0 ==> WellPlaced(c, n.last[w]);
    }
  }

  /** The table after an inquiry. */
  lemma InquireTable(s: System, i: nat, w: int, a: App, m: Node)
    requires Inv(s) && i < |s.nodes| && w in s.nodes[i].app.wids
    requires a == GetOpStatus(s.nodes[i].app, w).0 && m == s.nodes[i].(app := a, inquired := m.inquired)
    requires w in m.inquired && forall v | v in s.nodes[i].inquired :: v in m.inquired
    ensures m.begun <= |s.hist| && TableOk(ContextOf(s), m)
  {
    var c, n := ContextOf(s), s.nodes[i];
    assert NodeOk(c, i, n);
    InquireRow(s, i, w, a, m);
    forall v | v in m.app.wids ensures RowOk(c, m, v) { if v != w { assert RowOk(c, n, v); RowKept(c, n, m, v); } }
  }

  lemma InquirePending(s: System, i: nat, w: int, a: App, m: Node)
    requires Inv(s) && i < |s.nodes| && w in s.nodes[i].app.wids
    requires a == GetOpStatus(s.nodes[i].app, w).0
    requires m == s.nodes[i].(app := a, inquired := m.inquired) && w in m.inquired
    requires forall v | v in s.nodes[i].inquired :: v in m.inquired
    ensures m.begun <= |s.hist| && PendingOk(ContextOf(s), m)
  {
    var c, n := ContextOf(s), s.nodes[i];
    assert NodeOk(c, i, n);
    if n.app.IsOpen() {
      if i > 0 { KnownBelow(s, i); }
      forall k: nat | n.committed <= k < n.begun && !c.hist[k].IsAck() ensures PendingRow(m, c.hist[k], k) {
        assert PendingRow(n, c.hist[k], k);
        if i > 0 && c.hist[k].data != [] { NotSettledEarly(c, i, n, k, n.app.masterCommitted); }
      }
    }
  }

  lemma InquireAnswer(s: System, i: nat, w: int, a: App)
    requires Inv(s) && i < |s.nodes| && w in s.nodes[i].app.wids
    requires a == GetOpStatus(s.nodes[i].app, w).0
    ensures AnswerOk(ContextOf(s), GetOpStatus(s.nodes[i].app, w).1.value)
  {
    var c, n := ContextOf(s), s.nodes[i];
    var x := GetOpStatus(n.app, w).1.value;
    assert NodeOk(c, i, n);
    InquireRow(s, i, w, a, n.(app := a, inquired := n.inquired[w := n.begun]));
    if x.offset >= 0 { assert About(c, x, n.last[w]); }
  }

  lemma InquireNode(s: System, i: nat, w: int)
    requires Inv(s) && i < |s.nodes| && w in s.nodes[i].app.wids
    ensures var n := s.nodes[i];
      var (a, x) := GetOpStatus(n.app, w);
      var m := n.(app := a, inquired := if w in n.inquired then n.inquired else n.inquired[w := n.begun]);
      NodeOk(ContextOf(s), i, m) && Quiet(n, m) && AnswerOk(ContextOf(s), x.value)
  {
    var c, n := ContextOf(s), s.nodes[i];
    var (a, x) := GetOpStatus(n.app, w);
    var m := n.(app := a, inquired := if w in n.inquired then n.inquired else n.inquired[w := n.begun]);
    assert NodeOk(c, i, n) && RowOk(c, n, w);
    InquireTable(s, i, w, a, m);
    InquirePending(s, i, w, a, m);
    InquireAnswer(s, i, w, a);
  }

  /** No node knows of a master commit beyond its own. */
  lemma KnownBelow(s: System, i: nat)
    requires Inv(s) && 0 < i < |s.nodes|
    ensures s.nodes[i].app.masterCommitted <= s.nodes[i].app.nextCommit
  {
    CommitsNested(s, 0, i);
    assert NodeOk(ContextOf(s), i, s.nodes[i]);
  }

  // ----- convergence

  /** The other half of a node's invariant. */
  ghost predicate CoreOk(c: Context, i: nat, n: Node) {
    Basic(c, i, n) && LogOk(c, i, n) && StableOk(c, n)
  }

  lemma BeginStableCore(c: Context, i: nat, n: Node, version: int, ioInFlight: bool)
    requires CoreOk(c, i, n)
    ensures var (a, r) := BeginMakeStable(n.app, version, ioInFlight);
      CoreOk(c, i, n.(app := a)) && Quiet(n, n.(app := a)) && (r.Size? ==> r.size == n.app.nextCommit && !a.IsOpen())
  {
    LogPrefix(c, n.committed, n.begun);
  }

  lemma BeginStableNode(c: Context, i: nat, n: Node, version: int, ioInFlight: bool)
    requires NodeOk(c, i, n)
    ensures var (a, r) := BeginMakeStable(n.app, version, ioInFlight);
      NodeOk(c, i, n.(app := a)) && Quiet(n, n.(app := a)) && (r.Size? ==> r.size == n.app.nextCommit && !a.IsOpen())
  {
    BeginStableCore(c, i, n, version, ioInFlight);
    SameTable(c, i, n, n.(app := BeginMakeStable(n.app, version, ioInFlight).0));
  }

  lemma RequestStableNode(c: Context, i: nat, n: Node)
    requires NodeOk(c, i, n) && c.decision.Some?
    ensures var a := RequestStable(n.app, c.decision.value.size); NodeOk(c, i, n.(app := a)) && Quiet(n, n.(app := a))
  {
    SameTable(c, i, n, n.(app := RequestStable(n.app, c.decision.value.size)));
  }

  lemma LoseCore(c: Context, i: nat, n: Node)
    requires CoreOk(c, i, n) && n.app.phase.Closed?
    ensures var m := n.(app := StableDone(Enter(n.app, ChunkLost))); CoreOk(c, i, m) && Quiet(n, m)
  {
  }

  /** A closed node cut to a size it has on disk. */
  lemma CutCore(c: Context, i: nat, n: Node, size: nat)
    requires CoreOk(c, i, n) && n.app.phase.Closed? && size <= |n.app.log|
    requires size == n.app.nextCommit || n.app.target == Some(size)
    ensures var m := n.(app := n.app.(log := n.app.log[..size], chunkSize := size, trim := false));
      && (n.app.target == Some(size) ==>
            CoreOk(c, i, n.(app := StableDone(Enter(m.app, Stable)))) && Quiet(n, n.(app := StableDone(Enter(m.app, Stable)))))
      && (size == n.app.nextCommit ==> CoreOk(c, i, m) && Quiet(n, m))
  {
  }

  lemma FinishCore(c: Context, i: nat, n: Node, written: nat, ioOk: bool)
    requires CoreOk(c, i, n) && written <= |n.app.log|
    ensures var (a, r) := FinishStable(n.app, written, ioOk);
      CoreOk(c, i, n.(app := a)) && Quiet(n, n.(app := a)) && (r.Some? ==> r.value == n.app.nextCommit && !a.IsOpen())
  {
    var a := n.app;
    if a.phase.Closed? && a.HasStableOp() {
      var size := if a.trim then a.nextCommit else a.target.value;
      if size > written || !ioOk {
        LoseCore(c, i, n);
      } else {
        CutCore(c, i, n, size);
        var m := n.(app := a.(log := a.log[..size], chunkSize := size, trim := false));
        if a.target.Some? && a.target.value != size { LoseCore(c, i, m); }
      }
    }
  }

  lemma FinishNode(c: Context, i: nat, n: Node, written: nat, ioOk: bool)
    requires NodeOk(c, i, n) && written <= |n.app.log|
    ensures var (a, r) := FinishStable(n.app, written, ioOk);
      NodeOk(c, i, n.(app := a)) && Quiet(n, n.(app := a)) && (r.Some? ==> r.value == n.app.nextCommit && !a.IsOpen())
  {
    FinishCore(c, i, n, written, ioOk);
    SameTable(c, i, n, n.(app := FinishStable(n.app, written, ioOk).0));
  }
}
