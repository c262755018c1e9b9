/**
 Space reservations on the append master, and the share of them that each client connection holds.

 A client reserves space before it appends. The master keeps one total, and one number for each write id;
 every connection keeps its own number for each write id, so that it can give the rest back when it closes.
 */
module Reservations {
  import opened Common
  import opened RecordAppender

  // ----- sums

  ghost function SumReserved(m: map<int, WriteId>): nat
    decreases |m|
  {
    if w :| w in m then m[w].reserved + SumReserved(m - {w}) else 0
  }

  /** The sum does not depend on the order. */
  lemma {:induction false} SumSplit(m: map<int, WriteId>, w: int)
    requires w in m
    ensures SumReserved(m) == m[w].reserved + SumReserved(m - {w})
    decreases |m|
  {
    var v :| v in m && SumReserved(m) == m[v].reserved + SumReserved(m - {v});
    if v != w {
      SumSplit(m - {v}, w);
      SumSplit(m - {w}, v);
      assert m - {v} - {w} == m - {w} - {v};
    }
  }

  lemma SumSet(m: map<int, WriteId>, w: int, ws: WriteId)
    ensures SumReserved(m[w := ws]) == ws.reserved + SumReserved(m - {w})
    ensures w !in m ==> SumReserved(m[w := ws]) == ws.reserved + SumReserved(m)
    ensures w in m ==> SumReserved(m[w := ws]) == SumReserved(m) - m[w].reserved + ws.reserved
  {
    SumSplit(m[w := ws], w);
    assert m[w := ws] - {w} == m - {w};
    if w in m { SumSplit(m, w); } else { assert m - {w} == m; }
  }

  type Book = map<int, nat>

  function Get(b: Book, w: int): nat { if w in b then b[w] else 0 }

  /** What all connections together hold for a write id. */
  function Held(books: seq<Book>, w: int): nat {
    if books == [] then 0 else Held(books[..|books| - 1], w) + Get(books[|books| - 1], w)
  }

  lemma {:induction false} HeldSet(books: seq<Book>, k: nat, b: Book, w: int)
    requires k < |books|
    ensures Held(books[k := b], w) + Get(books[k], w) == Held(books, w) + Get(b, w)
  {
    var n := |books| - 1;
    if k < n {
      HeldSet(books[..n], k, b, w);
      assert books[k := b][..n] == books[..n][k := b];
    } else {
      assert books[k := b][..n] == books[..n];
    }
  }

  lemma HeldAtLeast(books: seq<Book>, k: nat, w: int)
    requires k < |books|
    ensures Get(books[k], w) <= Held(books, w)
  {
    HeldSet(books, k, map[], w);
  }

  // ----- the master's ledger

  ghost predicate Balanced(a: App) {
    && a.bytesReserved == SumReserved(a.wids)
    && a.nextOffset + a.bytesReserved <= CHUNKSIZE
    && forall w | w in a.wids && a.wids[w].readOnly :: a.wids[w].reserved == 0
  }

  /** Same reservations, same marks. */
  ghost predicate SameReservations(m: map<int, WriteId>, n: map<int, WriteId>) {
    m.Keys == n.Keys && forall w | w in m :: m[w].reserved == n[w].reserved && m[w].readOnly == n[w].readOnly
  }

  lemma {:induction false} SameSum(m: map<int, WriteId>, n: map<int, WriteId>)
    requires SameReservations(m, n)
    ensures SumReserved(m) == SumReserved(n)
    decreases |m|
  {
    if w :| w in m {
      SumSplit(m, w);
      SumSplit(n, w);
      SameSum(m - {w}, n - {w});
    }
  }

  lemma ReservedWithin(a: App, w: int)
    requires Balanced(a) && w in a.wids
    ensures a.wids[w].reserved <= a.bytesReserved
  {
    SumSplit(a.wids, w);
  }

  /** Reservation of a write id after a request for `n` bytes more, or less. */
  function Changed(ws: WriteId, n: nat, release: bool, st: Status): nat {
    if ws.readOnly then 0
    else if !release then ws.reserved + (if st.Success? then n else 0)
    else if ws.reserved >= n then ws.reserved - n else 0
  }

  /** A master without a lease is no longer open. */
  lemma LeaseLost(a: App, w: int, n: nat, r: WriteIdRequest, release: bool)
    requires a.IsMaster() && a.IsOpen()
    ensures !ChangeReservation(a, w, n, release, false).0.IsOpen()
    ensures !AllocateWriteId(a, r, n, false).0.IsOpen()
  {
    assert !CheckLease(a, false).IsOpen();
  }

  /** A reservation is granted exactly to a known id that can still be used, while all reservations fit behind the data. */
  lemma ReserveIff(a: App, w: int, n: nat, leaseValid: bool)
    requires Balanced(a)
    ensures var (b, st) := ChangeReservation(a, w, n, false, leaseValid);
      && (st.Success? <==>
            && a.IsMaster() && a.IsOpen() && leaseValid && w in a.wids && !a.wids[w].readOnly
            && a.nextOffset + SumReserved(a.wids) + n <= CHUNKSIZE)
      && (st.Success? ==> w in b.wids && b.wids[w].reserved == a.wids[w].reserved + n && SumReserved(b.wids) == SumReserved(a.wids) + n)
      && (!st.Success? ==> SumReserved(b.wids) == SumReserved(a.wids) && b.wids == a.wids)
  {
    LeaseRows(a, leaseValid);
    if w in a.wids { SumSet(a.wids, w, a.wids[w].(reserved := a.wids[w].reserved + n)); }
  }

  lemma LeaseRows(a: App, leaseValid: bool)
    ensures CheckLease(a, leaseValid).wids == a.wids
    ensures a.IsMaster() && a.IsOpen() && !leaseValid ==> !CheckLease(a, leaseValid).IsOpen()
    ensures leaseValid || !a.IsMaster() || !a.IsOpen() ==> CheckLease(a, leaseValid) == a
  {
  }

  /** A release gives back what is asked, but no more than the id holds. */
  lemma ReleaseIff(a: App, w: int, n: nat, leaseValid: bool)
    requires Balanced(a)
    ensures var (b, st) := ChangeReservation(a, w, n, true, leaseValid);
      && (st.Success? <==> a.IsMaster() && a.IsOpen() && leaseValid)
      && (st.Success? && w in a.wids ==>
            && w in b.wids && !b.aborted == !a.aborted
            && b.wids[w].reserved == (if a.wids[w].reserved >= n then a.wids[w].reserved - n else 0)
            && SumReserved(b.wids) == SumReserved(a.wids) - a.wids[w].reserved + b.wids[w].reserved)
  {
    LeaseRows(a, leaseValid);
    if w in a.wids {
      ReservedWithin(a, w);
      SumSet(a.wids, w, a.wids[w].(reserved := if a.wids[w].reserved >= n then a.wids[w].reserved - n else 0));
      assert a.wids[w := a.wids[w]] == a.wids;
    }
  }

  /** One row changes, and the total with it. */
  lemma RowSet(a: App, w: int, ws: WriteId, total: nat, next: nat)
    requires Balanced(a) && w in a.wids
    requires total == a.bytesReserved - a.wids[w].reserved + ws.reserved && next + total <= CHUNKSIZE
    requires ws.readOnly ==> ws.reserved == 0
    ensures Balanced(a.(bytesReserved := total, wids := a.wids[w := ws], nextOffset := next))
  {
    SumSet(a.wids, w, ws);
  }

  lemma ChangeShape(a: App, w: int, n: nat, release: bool)
    requires a.IsMaster() && a.IsOpen() && w in a.wids && a.wids[w].reserved <= a.bytesReserved
    requires a.wids[w].readOnly ==> a.wids[w].reserved == 0
    ensures var (b, st) := ChangeReservation(a, w, n, release, true);
      var ws := a.wids[w].(reserved := Changed(a.wids[w], n, release, st));
      && a.bytesReserved - a.wids[w].reserved + ws.reserved >= 0
      && b == a.(bytesReserved := a.bytesReserved - a.wids[w].reserved + ws.reserved, wids := a.wids[w := ws])
      && (b.nextOffset + b.bytesReserved <= CHUNKSIZE || b.bytesReserved <= a.bytesReserved)
  {
    assert a.wids[w := a.wids[w]] == a.wids;
  }

  /** A reservation is granted or given back; the total moves with it and never wraps around. */
  lemma ChangeKeeps(a: App, w: int, n: nat, release: bool)
    requires a.IsMaster() && a.IsOpen() && Balanced(a)
    ensures var (b, st) := ChangeReservation(a, w, n, release, true);
      && Balanced(b) && b.IsOpen() && b.IsMaster() && b.wids.Keys == a.wids.Keys
      && (forall v | v in a.wids && v != w :: b.wids[v] == a.wids[v])
      && (w in a.wids ==> b.wids[w] == a.wids[w].(reserved := Changed(a.wids[w], n, release, st)))
      && (w !in a.wids ==> b == a)
  {
    if w in a.wids {
      ReservedWithin(a, w);
      ChangeShape(a, w, n, release);
      var b := ChangeReservation(a, w, n, release, true).0;
      RowSet(a, w, b.wids[w], b.bytesReserved, a.nextOffset);
    }
  }

  /** An inquiry gives the reservation of its write id back. */
  lemma InquireKeeps(a: App, w: int)
    requires Balanced(a)
    ensures Balanced(GetOpStatus(a, w).0)
  {
    if w in a.wids {
      ReservedWithin(a, w);
      SumSet(a.wids, w, GetOpStatus(a, w).0.wids[w]);
    }
  }

  /** So does a close. */
  lemma CloseKeeps(a: App, w: int, mc: int)
    requires a.IsMaster() && Balanced(a)
    ensures Balanced(CloseWriteId(a, w, mc).0)
  {
    if w in a.wids {
      ReservedWithin(a, w);
      SumSplit(a.wids, w);
    }
  }

  lemma AllocateKeeps(a: App, r: WriteIdRequest, max: nat)
    requires a.IsOpen() && Balanced(a)
    ensures Balanced(AllocateWriteId(a, r, max, true).0)
  {
    SumSet(a.wids, r.writeId, FRESH_WRITE_ID.(clientSeq := r.clientSeq));
  }

  /** An invalidated write id takes its reservation along, unless it has none. */
  lemma InvalidateIff(a: App, w: int, declareFailure: bool)
    requires a.IsOpen() && a.IsMaster() && !a.HasStableOp() && !a.beginPending && Balanced(a) && InvalidateWriteId(a, w, declareFailure).1.Success?
    ensures var b := InvalidateWriteId(a, w, declareFailure).0;
      (b.IsOpen() ==> Balanced(b)) <==> (declareFailure || a.wids[w].reserved == 0)
  {
    SumSplit(a.wids, w);
  }

  /** The answer for an append leaves all reservations alone. */
  lemma CommitShape(a: App, op: Op, ok: bool)
    ensures var b := Commit(a, op, ok).0;
      b.IsOpen() ==> a.IsOpen() && SameReservations(a.wids, b.wids) && a.bytesReserved == b.bytesReserved && a.nextOffset == b.nextOffset
  {
    if a.IsOpen() && !ok { FailedIsClosed(a); }
  }

  lemma FailedIsClosed(a: App)
    requires a.IsOpen()
    ensures !SetState(a, ReplicationFailed).IsOpen()
  {
  }

  lemma CommitKeeps(a: App, op: Op, ok: bool)
    requires Balanced(a)
    ensures var b := Commit(a, op, ok).0; b.IsOpen() ==> Balanced(b) && SameReservations(a.wids, b.wids)
  {
    var b := Commit(a, op, ok).0;
    CommitShape(a, op, ok);
    if b.IsOpen() { SameSum(a.wids, b.wids); }
  }

  // ----- appends

  /** The append was given a place, and its space was charged, even if it then could not be passed on. */
  predicate Charged(b: Begun) {
    b.status.Success? || b.status.EReplicationFailed?
  }

  /** At the master an append takes its bytes out of the total, out of its write id and out of the free space at once. */
  lemma PlaceCharges(a: App, op: Op, internal: bool, env: BeginEnv)
    requires a.IsMaster() && a.IsOpen() && Balanced(a)
    ensures var p := Place(a, op, internal, env);
      && p.app.IsOpen() && p.app.IsMaster() && Balanced(p.app)
      && !p.status.EReplicationFailed?
      && (!p.status.Success? ==> p.app == a)
      && (p.status.Success? && op.writeId !in a.wids ==> p.app == a)
      && p.app.wids.Keys == a.wids.Keys
      && (forall v | v in a.wids && v != op.writeId :: p.app.wids[v] == a.wids[v])
      && (op.writeId in a.wids && p.status.Success? ==>
            && p.app.wids[op.writeId].readOnly == a.wids[op.writeId].readOnly
            && p.app.wids[op.writeId].reserved == a.wids[op.writeId].reserved - |op.data|)
  {
    if op.writeId in a.wids { SumSet(a.wids, op.writeId, Place(a, op, internal, env).app.wids[op.writeId]); }
  }

  /** What an append does to the table: its write id pays, if the append was charged. */
  ghost predicate Paid(a: App, b: App, w: int, n: nat, charged: bool) {
    && b.IsMaster() && Balanced(b) && b.wids.Keys == a.wids.Keys
    && (forall v | v in a.wids :: b.wids[v].readOnly == a.wids[v].readOnly)
    && (forall v | v in a.wids ::
          b.wids[v].reserved == a.wids[v].reserved - if charged && v == w then n else 0)
  }

  lemma RecordPaid(a: App, p: App, op: Op)
    requires Paid(a, p, op.writeId, |op.data|, true) && op.writeId in p.wids
    ensures Paid(a, Record(p, op), op.writeId, |op.data|, true)
  {
    SameSum(p.wids, Record(p, op).wids);
  }

  lemma PlacePaid(a: App, op: Op, internal: bool, env: BeginEnv)
    requires a.IsMaster() && a.IsOpen() && Balanced(a)
    ensures var p := Place(a, op, internal, env);
      && p.app.IsOpen() && Paid(a, p.app, op.writeId, |op.data|, p.status.Success?)
      && !p.status.EReplicationFailed? && (!p.status.Success? ==> p.app == a)
      && p.op.writeId == op.writeId && p.op.data == op.data
  {
    PlaceCharges(a, op, internal, env);
  }

  /** The parts of an appender that reservations are about. */
  predicate SameBooks(a: App, b: App) {
    a.pos == b.pos && a.wids == b.wids && a.bytesReserved == b.bytesReserved && a.nextOffset == b.nextOffset
  }

  lemma BeginShape(a: App, op: Op, internal: bool, env: BeginEnv)
    requires a.IsMaster() && a.IsOpen() && env.leaseValid
    requires var p := Place(a, op, internal, env); !p.status.EReplicationFailed? && (!p.status.Success? ==> p.app == a)
    ensures var r, p := Begin(a, op, internal, env), Place(a, op, internal, env);
      && (!Charged(r) ==> SameBooks(r.app, a))
      && (Charged(r) ==> p.status.Success?)
      && (Charged(r) ==> SameBooks(r.app, p.app) || (p.op.writeId in p.app.wids && SameBooks(r.app, Record(p.app, p.op))))
      && (Charged(r) && !internal && env.clientReserved.Some? ==> |op.data| <= env.clientReserved.value)
  {
  }

  lemma BeginPaid(a: App, op: Op, internal: bool, env: BeginEnv)
    requires a.IsMaster() && a.IsOpen() && Balanced(a) && env.leaseValid
    ensures var r := Begin(a, op, internal, env);
      && Paid(a, r.app, op.writeId, |op.data|, Charged(r))
      && (Charged(r) && !internal && env.clientReserved.Some? ==> |op.data| <= env.clientReserved.value)
  {
    PlacePaid(a, op, internal, env);
    BeginShape(a, op, internal, env);
    var p := Place(a, op, internal, env);
    if p.status.Success? && p.op.writeId in p.app.wids { RecordPaid(a, p.app, p.op); }
  }

  lemma AppendPaid(a: App, op: Op, internal: bool, env: BeginEnv)
    requires a.IsMaster() && a.IsOpen() && Balanced(a) && env.leaseValid
    ensures var r := AppendBegin(a, op, internal, env).0;
      && (r.app.IsOpen() ==> Paid(a, r.app, op.writeId, |op.data|, Charged(r)))
      && (Charged(r) && !internal && env.clientReserved.Some? ==> |op.data| <= env.clientReserved.value)
  {
    BeginPaid(a, op, internal, env);
    var b := Begin(a, op, internal, env);
    CommitKeeps(b.app, b.op, b.status.Success?);
    CommitMaster(b.app, b.op, b.status.Success?);
  }

  lemma CommitMaster(a: App, op: Op, ok: bool)
    ensures Commit(a, op, ok).0.pos == a.pos
  {
  }
}
