/**
 The append master together with its client connections.

 Clients reserve, release and append through their connections; a connection that closes gives back all it
 still holds. Write ids are never handed out twice. Everything that makes the master stop is one event.
 */
module ConnectionLedger {
  import opened Common
  import opened RecordAppender
  import opened Reservations
  import ChainLimits

  datatype Ledger = Ledger(a: App, books: seq<Book>, issued: set<int>)

  datatype Event =
    | Reserve(k: nat, writeId: int, bytes: nat, leaseValid: bool)
    | Release(k: nat, writeId: int, bytes: nat, leaseValid: bool)
    | ClientAppend(k: nat, op: Op, env: BeginEnv)
    | SendCommitAck(op: Op, env: BeginEnv)
    | Answer(op: Op, ok: bool)
    | Allocate(request: WriteIdRequest, max: nat, leaseValid: bool)
    | Inquire(writeId: int)
    | Close(writeId: int)
    | AllocateFailed(writeId: int)
    | Disconnect(k: nat, ids: seq<int>)   // with the order in which reservations are given back
    | Stop(a: App)

  function Add(b: Book, w: int, n: nat): Book {
    b[w := Get(b, w) + n]
  }

  function Use(b: Book, w: int, n: nat): Book {
    if w in b then b[w := b[w] - if b[w] <= n then b[w] else n] else b
  }

  /** Give back one by one all that a connection holds. */
  function GiveBack(a: App, b: Book, ids: seq<int>): App
    decreases |ids|
  {
    if ids == [] then a
    else GiveBack(ChangeReservation(a, ids[0], Get(b, ids[0]), true, true).0, b, ids[1..])
  }

  /** The keys of a book, each once. */
  predicate Lists(ids: seq<int>, b: Book) {
    && (set w | w in ids) == b.Keys
    && (forall i, j | 0 <= i < j < |ids| :: ids[i] != ids[j])
  }

  function ReserveSpace(l: Ledger, k: nat, w: int, n: nat, leaseValid: bool): Ledger
    requires k < |l.books|
  {
    var (a, st) := ChangeReservation(l.a, w, n, false, leaseValid);
    l.(a := a, books := if st.Success? then l.books[k := Add(l.books[k], w, n)] else l.books)
  }

  /** A connection gives back no more than it holds. */
  function ReleaseSpace(l: Ledger, k: nat, w: int, n: nat, leaseValid: bool): Ledger
    requires k < |l.books|
  {
    var held := if Get(l.books[k], w) <= n then Get(l.books[k], w) else n;
    var (a, st) := ChangeReservation(l.a, w, held, true, leaseValid);
    l.(a := a, books := if st.Success? then l.books[k := Use(l.books[k], w, held)] else l.books)
  }

  /** An append uses what its own connection reserved. */
  function AppendFrom(l: Ledger, k: nat, op: Op, env: BeginEnv): Ledger
    requires k < |l.books|
  {
    var r := AppendBegin(l.a, op, false, env.(clientReserved := Some(Get(l.books[k], op.writeId)))).0;
    l.(a := r.app, books := if Charged(r) then l.books[k := Use(l.books[k], op.writeId, |op.data|)] else l.books)
  }

  function Step(l: Ledger, e: Event): Ledger {
    match e
    case Reserve(k, w, n, leaseValid) => if k < |l.books| then ReserveSpace(l, k, w, n, leaseValid) else l
    case Release(k, w, n, leaseValid) => if k < |l.books| then ReleaseSpace(l, k, w, n, leaseValid) else l
    case ClientAppend(k, op, env) => if k < |l.books| then AppendFrom(l, k, op, env) else l
    case SendCommitAck(op, env) => if op.IsAck() then l.(a := AppendBegin(l.a, op, true, env).0.app) else l
    case Answer(op, ok) => l.(a := OpDone(l.a, op, ok).0)
    case Allocate(r, max, leaseValid) =>
      if r.writeId !in l.issued then l.(a := AllocateWriteId(l.a, r, max, leaseValid).0, issued := l.issued + {r.writeId}) else l
    case Inquire(w) => l.(a := GetOpStatus(l.a, w).0)
    case Close(w) => l.(a := CloseWriteId(l.a, w, -1).0)
    case AllocateFailed(w) => l.(a := InvalidateWriteId(l.a, w, true).0)
    case Disconnect(k, ids) =>
      if k < |l.books| && Lists(ids, l.books[k])
      then l.(a := GiveBack(l.a, l.books[k], ids), books := l.books[k := map[]]) else l
    case Stop(a) => if !a.IsOpen() && a.pos == l.a.pos then l.(a := a) else l
  }

  function Run(l: Ledger, events: seq<Event>): Ledger {
    if events == [] then l else Step(Run(l, events[..|events| - 1]), events[|events| - 1])
  }

  /** For every write id that can be used, the connections together hold what the master has on the book. */
  ghost predicate Shared(m: map<int, WriteId>, books: seq<Book>, issued: set<int>) {
    && m.Keys <= issued
    && (forall w | w in m && !m[w].readOnly :: Held(books, w) == m[w].reserved)
    && (forall w | w !in issued :: Held(books, w) == 0)
  }

  ghost predicate Inv(l: Ledger) {
    l.a.IsMaster() && (l.a.IsOpen() ==> Balanced(l.a) && Shared(l.a.wids, l.books, l.issued))
  }

  // ----- the place in the chain never changes

  lemma SetStatePos(a: App, p: Phase)
    ensures SetState(a, p).pos == a.pos
  {
    EnterPos(a, p);
    ClosePos(Enter(a, p));
  }

  lemma EnterPos(a: App, p: Phase)
    ensures Enter(a, p).pos == a.pos
  {
  }

  lemma ClosePos(a: App)
    ensures TryToCloseFailed(a).pos == a.pos
  {
    EnterPos(a.(trim := true), Closed);
  }

  lemma LeasePos(a: App, leaseValid: bool)
    ensures CheckLease(a, leaseValid).pos == a.pos
  {
    SetStatePos(a, ReplicationFailed);
  }

  lemma PlacePos(a: App, op: Op, internal: bool, env: BeginEnv)
    requires a.IsMaster()
    ensures Place(a, op, internal, env).app.IsMaster()
  {
  }

  lemma BeginPos(a: App, op: Op, internal: bool, env: BeginEnv)
    requires a.IsMaster()
    ensures Begin(a, op, internal, env).app.IsMaster()
  {
    LeasePos(a, env.leaseValid);
    PlacePos(CheckLease(a, env.leaseValid), op, internal, env);
  }

  lemma AppendPos(a: App, op: Op, internal: bool, env: BeginEnv)
    requires a.IsMaster()
    ensures AppendBegin(a, op, internal, env).0.app.IsMaster()
  {
    BeginPos(a, op, internal, env);
    var b := Begin(a, op, internal, env);
    CommitMaster(b.app, b.op, b.status.Success?);
  }

  lemma ChangePos(a: App, w: int, n: nat, release: bool, leaseValid: bool)
    requires a.IsMaster()
    ensures ChangeReservation(a, w, n, release, leaseValid).0.IsMaster()
  {
    LeasePos(a, leaseValid);
  }

  lemma AllocatePos(a: App, r: WriteIdRequest, max: nat, leaseValid: bool)
    requires a.IsMaster()
    ensures AllocateWriteId(a, r, max, leaseValid).0.IsMaster()
  {
    LeasePos(a, leaseValid);
  }

  lemma InvalidatePos(a: App, w: int)
    requires a.IsMaster()
    ensures InvalidateWriteId(a, w, true).0.IsMaster()
  {
    SetStatePos(a.(wids := a.wids - {w}), ReplicationFailed);
  }

  // ----- steps of an open master

  lemma ReserveKeeps(l: Ledger, k: nat, w: int, n: nat)
    requires Inv(l) && l.a.IsOpen() && k < |l.books|
    ensures Inv(ReserveSpace(l, k, w, n, true))
  {
    ChangeKeeps(l.a, w, n, false);
    forall v ensures Held(l.books[k := Add(l.books[k], w, n)], v) == Held(l.books, v) + if v == w then n else 0 {
      HeldSet(l.books, k, Add(l.books[k], w, n), v);
    }
  }

  lemma UseHeld(books: seq<Book>, k: nat, w: int, n: nat, v: int)
    requires k < |books| && n <= Get(books[k], w)
    ensures Held(books[k := Use(books[k], w, n)], v) == Held(books, v) - if v == w then n else 0
  {
    HeldSet(books, k, Use(books[k], w, n), v);
  }

  lemma UseShared(m: map<int, WriteId>, m': map<int, WriteId>, books: seq<Book>, issued: set<int>, k: nat, w: int, n: nat)
    requires Shared(m, books, issued) && k < |books| && n <= Get(books[k], w) && m'.Keys == m.Keys
    requires forall v | v in m :: m'[v].readOnly == m[v].readOnly
    requires forall v | v in m && !m[v].readOnly :: m'[v].reserved == m[v].reserved - if v == w then n else 0
    ensures Shared(m', books[k := Use(books[k], w, n)], issued)
  {
    forall v ensures Held(books[k := Use(books[k], w, n)], v) == Held(books, v) - if v == w then n else 0 {
      UseHeld(books, k, w, n, v);
    }
  }

  lemma ReleaseKeeps(l: Ledger, k: nat, w: int, n: nat)
    requires Inv(l) && l.a.IsOpen() && k < |l.books|
    ensures Inv(ReleaseSpace(l, k, w, n, true))
  {
    var held := if Get(l.books[k], w) <= n then Get(l.books[k], w) else n;
    ChangeKeeps(l.a, w, held, true);
    HeldAtLeast(l.books, k, w);
    var (a, st) := ChangeReservation(l.a, w, held, true, true);
    UseShared(l.a.wids, a.wids, l.books, l.issued, k, w, held);
  }

  lemma AppendKeeps(l: Ledger, k: nat, op: Op, env: BeginEnv)
    requires Inv(l) && l.a.IsOpen() && k < |l.books| && env.leaseValid
    ensures Inv(AppendFrom(l, k, op, env))
  {
    var e := env.(clientReserved := Some(Get(l.books[k], op.writeId)));
    AppendPaid(l.a, op, false, e);
    AppendPos(l.a, op, false, e);
    var r := AppendBegin(l.a, op, false, e).0;
    if r.app.IsOpen() && Charged(r) { UseShared(l.a.wids, r.app.wids, l.books, l.issued, k, op.writeId, |op.data|); }
  }

  lemma AckKeeps(l: Ledger, op: Op, env: BeginEnv)
    requires Inv(l) && l.a.IsOpen() && env.leaseValid && op.IsAck()
    ensures Inv(l.(a := AppendBegin(l.a, op, true, env).0.app))
  {
    AppendPaid(l.a, op, true, env);
    AppendPos(l.a, op, true, env);
  }

  lemma AnswerKeeps(l: Ledger, op: Op, ok: bool)
    requires Inv(l) && l.a.IsOpen()
    ensures Inv(l.(a := OpDone(l.a, op, ok).0))
  {
    var b := l.a.(inFlight := Without(l.a.inFlight, op.id));
    CommitKeeps(b, op, ok);
    CommitMaster(b, op, ok);
  }

  lemma AllocateShared(l: Ledger, r: WriteIdRequest, max: nat)
    requires Inv(l) && l.a.IsOpen() && r.writeId !in l.issued
    ensures Inv(l.(a := AllocateWriteId(l.a, r, max, true).0, issued := l.issued + {r.writeId}))
  {
    Reservations.AllocateKeeps(l.a, r, max);
  }

  lemma ClientKeeps(l: Ledger, w: int)
    requires Inv(l) && l.a.IsOpen()
    ensures Inv(l.(a := GetOpStatus(l.a, w).0))
    ensures Inv(l.(a := CloseWriteId(l.a, w, -1).0))
  {
    InquireKeeps(l.a, w);
    CloseKeeps(l.a, w, -1);
  }

  // ----- a connection closes

  lemma {:induction false} GiveBackFrame(a: App, b: Book, c: Book, ids: seq<int>)
    requires forall w | w in ids :: Get(b, w) == Get(c, w)
    ensures GiveBack(a, b, ids) == GiveBack(a, c, ids)
    decreases |ids|
  {
    if ids != [] { GiveBackFrame(ChangeReservation(a, ids[0], Get(b, ids[0]), true, true).0, b, c, ids[1..]); }
  }

  lemma GiveBackOne(l: Ledger, k: nat, w: int)
    requires Inv(l) && l.a.IsOpen() && k < |l.books| && w in l.books[k]
    ensures var m := l.(a := ChangeReservation(l.a, w, l.books[k][w], true, true).0, books := l.books[k := l.books[k] - {w}]);
      Inv(m) && m.a.IsOpen()
  {
    var n := l.books[k][w];
    ChangeKeeps(l.a, w, n, true);
    HeldAtLeast(l.books, k, w);
    forall v ensures Held(l.books[k := l.books[k] - {w}], v) == Held(l.books, v) - if v == w then n else 0 {
      HeldSet(l.books, k, l.books[k] - {w}, v);
    }
  }

  lemma {:induction false} GiveBackKeeps(l: Ledger, k: nat, ids: seq<int>)
    requires Inv(l) && l.a.IsOpen() && k < |l.books| && Lists(ids, l.books[k])
    ensures Inv(l.(a := GiveBack(l.a, l.books[k], ids), books := l.books[k := map[]]))
    decreases |ids|
  {
    var b := l.books[k];
    if ids == [] {
      assert b == map[];
      assert l.books[k := map[]] == l.books;
    } else {
      var w, rest := ids[0], ids[1..];
      assert w in ids;
      GiveBackOne(l, k, w);
      var m := l.(a := ChangeReservation(l.a, w, b[w], true, true).0, books := l.books[k := b - {w}]);
      assert Lists(rest, b - {w}) by {
        forall v ensures v in rest <==> v in b && v != w { assert v in ids <==> v == w || v in rest; assert v in ids <==> v in b; }
      }
      GiveBackKeeps(m, k, rest);
      GiveBackFrame(m.a, b, b - {w}, rest);
      assert m.books[k := map[]] == l.books[k := map[]];
    }
  }

  lemma {:induction false} GiveBackClosed(a: App, b: Book, ids: seq<int>)
    requires a.IsMaster() && !a.IsOpen()
    ensures GiveBack(a, b, ids).IsMaster() && !GiveBack(a, b, ids).IsOpen()
    decreases |ids|
  {
    if ids != [] {
      var n := Get(b, ids[0]);
      ChainLimits.TableUp(a, ids[0], 0, n, true);
      ChangePos(a, ids[0], n, true, true);
      GiveBackClosed(ChangeReservation(a, ids[0], n, true, true).0, b, ids[1..]);
    }
  }

  // ----- a master that is not open any more, or loses its lease

  lemma BeginWithoutLease(a: App, op: Op, internal: bool, env: BeginEnv)
    requires a.IsMaster() && (!a.IsOpen() || !env.leaseValid)
    ensures !Begin(a, op, internal, env).app.IsOpen()
  {
    if a.IsOpen() { FailedIsClosed(a); }
  }

  lemma AppendWithoutLease(a: App, op: Op, internal: bool, env: BeginEnv)
    requires a.IsMaster() && (!a.IsOpen() || !env.leaseValid)
    ensures !AppendBegin(a, op, internal, env).0.app.IsOpen()
  {
    BeginWithoutLease(a, op, internal, env);
  }

  lemma ChangeWithoutLease(a: App, w: int, n: nat, release: bool, leaseValid: bool)
    requires a.IsMaster() && (!a.IsOpen() || !leaseValid)
    ensures !ChangeReservation(a, w, n, release, leaseValid).0.IsOpen()
  {
    TableWithoutLease(a, w, n, WriteIdRequest(0, 0, 0, 0, 0, w, 0), release, leaseValid);
  }

  lemma TableWithoutLease(a: App, w: int, n: nat, r: WriteIdRequest, release: bool, leaseValid: bool)
    requires a.IsMaster() && (!a.IsOpen() || !leaseValid)
    ensures !ChangeReservation(a, w, n, release, leaseValid).0.IsOpen()
    ensures !AllocateWriteId(a, r, n, leaseValid).0.IsOpen()
  {
    if a.IsOpen() { LeaseLost(a, w, n, r, release); }
  }

  lemma ClosedStays(l: Ledger, e: Event)
    requires Inv(l) && !l.a.IsOpen() && (e.Answer? || e.Inquire? || e.Close?)
    ensures Inv(Step(l, e))
  {
    match e
    case Answer(op, ok) => CommitMaster(l.a.(inFlight := Without(l.a.inFlight, op.id)), op, ok);
    case Inquire(w) => ChainLimits.TableUp(l.a, w, -1, 0, true);
    case Close(w) => ChainLimits.TableUp(l.a, w, -1, 0, true);
  }

  lemma FailedAllocation(a: App, w: int)
    requires a.IsMaster() && InvalidateWriteId(a, w, true).1.Success?
    ensures !InvalidateWriteId(a, w, true).0.IsOpen()
  {
    if a.IsOpen() { FailedIsClosed(a.(wids := a.wids - {w})); }
  }

  // ----- every step

  lemma SpaceKeeps(l: Ledger, e: Event)
    requires Inv(l) && (e.Reserve? || e.Release?)
    ensures Inv(Step(l, e))
  {
    if e.k < |l.books| {
      var w, n := e.writeId, e.bytes;
      var m := if n <= Get(l.books[e.k], w) then n else Get(l.books[e.k], w);
      if l.a.IsOpen() && e.leaseValid {
        if e.Reserve? { ReserveKeeps(l, e.k, w, n); } else { ReleaseKeeps(l, e.k, w, n); }
      } else {
        ChangeWithoutLease(l.a, w, n, false, e.leaseValid);
        ChangeWithoutLease(l.a, w, m, true, e.leaseValid);
        ChangePos(l.a, w, n, false, e.leaseValid);
        ChangePos(l.a, w, m, true, e.leaseValid);
      }
    }
  }

  lemma AppendsKeep(l: Ledger, e: Event)
    requires Inv(l) && (e.ClientAppend? || e.SendCommitAck?)
    ensures Inv(Step(l, e))
  {
    if e.ClientAppend? && e.k < |l.books| {
      var env := e.env.(clientReserved := Some(Get(l.books[e.k], e.op.writeId)));
      AppendPos(l.a, e.op, false, env);
      if l.a.IsOpen() && e.env.leaseValid { AppendKeeps(l, e.k, e.op, e.env); } else { AppendWithoutLease(l.a, e.op, false, env); }
    } else if e.SendCommitAck? && e.op.IsAck() {
      AppendPos(l.a, e.op, true, e.env);
      if l.a.IsOpen() && e.env.leaseValid { AckKeeps(l, e.op, e.env); } else { AppendWithoutLease(l.a, e.op, true, e.env); }
    }
  }

  lemma IdsKeep(l: Ledger, e: Event)
    requires Inv(l) && (e.Allocate? || e.AllocateFailed?)
    ensures Inv(Step(l, e))
  {
    if e.Allocate? {
      AllocatePos(l.a, e.request, e.max, e.leaseValid);
      if l.a.IsOpen() && e.leaseValid { if e.request.writeId !in l.issued { AllocateShared(l, e.request, e.max); } }
      else { TableWithoutLease(l.a, e.request.writeId, e.max, e.request, true, e.leaseValid); }
    } else {
      InvalidatePos(l.a, e.writeId);
      if InvalidateWriteId(l.a, e.writeId, true).1.Success? { FailedAllocation(l.a, e.writeId); }
    }
  }

  lemma StepKeeps(l: Ledger, e: Event)
    requires Inv(l)
    ensures Inv(Step(l, e))
  {
    if e.Reserve? || e.Release? { SpaceKeeps(l, e); }
    else if e.ClientAppend? || e.SendCommitAck? { AppendsKeep(l, e); }
    else if e.Allocate? || e.AllocateFailed? { IdsKeep(l, e); }
    else if e.Disconnect? {
      if e.k < |l.books| && Lists(e.ids, l.books[e.k]) {
        if l.a.IsOpen() { GiveBackKeeps(l, e.k, e.ids); } else { GiveBackClosed(l.a, l.books[e.k], e.ids); }
      }
    }
    else if e.Stop? {}
    else if !l.a.IsOpen() { ClosedStays(l, e); }
    else if e.Answer? { AnswerKeeps(l, e.op, e.ok); }
    else { ClientKeeps(l, e.writeId); }
  }

  /** A new master with any number of connections. */
  function NewLedger(a: App, connections: nat): Ledger {
    Ledger(a, seq(connections, i => map[]), {})
  }

  lemma {:induction false} NothingHeld(books: seq<Book>, w: int)
    requires forall i | 0 <= i < |books| :: books[i] == map[]
    ensures Held(books, w) == 0
  {
    if books != [] { NothingHeld(books[..|books| - 1], w); }
  }

  /**
   In every run, as long as the master is open: the total is the sum over the write ids, it fits into what is left
   of the chunk, ids that are read only hold nothing, and what an id holds is what the connections hold for it.
   */
  lemma {:induction false} LedgersAgree(chunkId: int, version: int, numServers: nat, peer: int, content: seq<Byte>,
                                        connections: nat, events: seq<Event>)
    requires |content| <= CHUNKSIZE
    ensures Inv(Run(NewLedger(NewAppender(chunkId, version, 0, numServers, peer, content), connections), events))
  {
    var l := NewLedger(NewAppender(chunkId, version, 0, numServers, peer, content), connections);
    if events == [] {
      forall w ensures Held(l.books, w) == 0 { NothingHeld(l.books, w); }
    } else {
      LedgersAgree(chunkId, version, numServers, peer, content, connections, events[..|events| - 1]);
      StepKeeps(Run(l, events[..|events| - 1]), events[|events| - 1]);
    }
  }
}
