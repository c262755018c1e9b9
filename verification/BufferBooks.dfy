/**
 The books of the io buffer manager. Clients take and give back bytes; a request that cannot be granted now waits in
 a queue. The bytes themselves live elsewhere: this is the bookkeeping.
 */
module BufferBooks {
  import opened Lists

  /** `bytes` the client has, `waiting` it asked for and does not have yet. */
  datatype Client = Client(bytes: nat, waiting: nat)

  datatype Totals = Totals(bytes: nat, waiting: nat, holders: nat)
  {
    function Plus(c: Client): Totals {
      Totals(bytes + c.bytes, waiting + c.waiting, holders + if c.bytes > 0 then 1 else 0)
    }
  }

  ghost function Sum(m: map<int, Client>): Totals
    decreases |m|
  {
    if c :| c in m then Sum(m - {c}).Plus(m[c]) else Totals(0, 0, 0)
  }

  lemma PlusCommutes(t: Totals, x: Client, y: Client)
    ensures t.Plus(x).Plus(y) == t.Plus(y).Plus(x)
  {
  }

  lemma {:induction false} SumSplit(m: map<int, Client>, c: int)
    requires c in m
    ensures Sum(m) == Sum(m - {c}).Plus(m[c])
    decreases |m|
  {
    var d :| d in m && Sum(m) == Sum(m - {d}).Plus(m[d]);
    if d != c {
      PlusCommutes(Sum(m - {c} - {d}), m[c], m[d]);
      SumSplit(m - {d}, c);
      SumSplit(m - {c}, d);
      assert m - {d} - {c} == m - {c} - {d};
    }
  }

  lemma SumSet(m: map<int, Client>, c: int, x: Client)
    ensures Sum(m[c := x]) == Sum(m - {c}).Plus(x)
    ensures c in m ==> Sum(m) == Sum(m - {c}).Plus(m[c])
    ensures c !in m ==> Sum(m) == Sum(m - {c})
  {
    SumSplit(m[c := x], c);
    assert m[c := x] - {c} == m - {c};
    if c in m { SumSplit(m, c); } else { assert m - {c} == m; }
  }

  // ----- the books

  datatype Books = Books(
    total: nat, maxQuota: nat,
    remaining: int, clients: map<int, Client>, queue: seq<int>,
    waitingBytes: int, waitingCount: int, clientsWithBuffers: int,
    requested: nat, granted: nat,
    cancelled: nat)           // history

  function NewBooks(total: nat, maxClientQuota: nat): Books {
    Books(total, if total <= maxClientQuota then total else maxClientQuota, total, map[], [], 0, 0, 0, 0, 0, 0)
  }

  /** The client is in the queue exactly while it waits for something. */
  ghost predicate Queued(b: Books) {
    && Distinct(b.queue)
    && (forall c | c in b.queue :: c in b.clients && b.clients[c].waiting > 0)
    && (forall c | c in b.clients && b.clients[c].waiting > 0 :: c in b.queue)
  }

  /** All counters equal a recount over the clients, and every byte that was asked for is accounted for. */
  ghost predicate Balanced(b: Books) {
    && Queued(b)
    && b.remaining >= 0 && b.remaining + Sum(b.clients).bytes == b.total
    && b.waitingBytes == Sum(b.clients).waiting && b.waitingCount == |b.queue|
    && b.clientsWithBuffers == Sum(b.clients).holders
    && b.requested == b.granted + b.waitingBytes + b.cancelled
  }

  function Of(b: Books, c: int): Client {
    if c in b.clients then b.clients[c] else Client(0, 0)
  }

  predicate IsOverQuota(b: Books, x: Client) { b.maxQuota < x.bytes + x.waiting }

  predicate CanGrant(b: Books, c: int, n: nat, poolOk: bool) {
    c !in b.queue && poolOk && Of(b, c).waiting + n < b.remaining && !IsOverQuota(b, Of(b, c))
  }

  /** A request: granted at once, or queued behind the others; a client that waits keeps its place. */
  function Get(b: Books, c: int, n: nat, poolOk: bool): Books {
    var x := Of(b, c);
    if n == 0 then b
    else if CanGrant(b, c, n, poolOk) then
      b.(requested := b.requested + n, granted := b.granted + n, remaining := b.remaining - x.waiting - n,
         clients := b.clients[c := Client(x.waiting + x.bytes + n, x.waiting)],
         clientsWithBuffers := b.clientsWithBuffers + if x.bytes == 0 then 1 else 0)
    else
      b.(requested := b.requested + n, waitingBytes := b.waitingBytes + n,
         clients := b.clients[c := Client(x.bytes, x.waiting + n)],
         queue := if c in b.queue then b.queue else b.queue + [c],
         waitingCount := b.waitingCount + if c in b.queue then 0 else 1)
  }

  /** Bytes come back; a client cannot give back more than it has. */
  function Put(b: Books, c: int, n: nat): Books {
    var x := Of(b, c);
    if n == 0 || c !in b.clients then b
    else
      var left := if x.bytes >= n then x.bytes - n else 0;
      b.(remaining := b.remaining + x.bytes - left, clients := b.clients[c := Client(left, x.waiting)],
         clientsWithBuffers := b.clientsWithBuffers - if x.bytes > 0 && left == 0 then 1 else 0)
  }

  function Cancel(b: Books, c: int): Books {
    if c !in b.queue || c !in b.clients then b
    else
      var x := b.clients[c];
      b.(queue := Removed(b.queue, c), waitingCount := b.waitingCount - 1, waitingBytes := b.waitingBytes - x.waiting,
         clients := b.clients[c := Client(x.bytes, 0)], cancelled := b.cancelled + x.waiting)
  }

  function Unregister(b: Books, c: int): Books {
    Put(Cancel(b, c), c, Of(b, c).bytes)
  }

  /** The first client in the queue that is within its quota. */
  function FirstWithinQuota(b: Books, q: seq<int>): (k: nat)
    ensures k <= |q|
    ensures forall j | 0 <= j < k :: IsOverQuota(b, Of(b, q[j]))
    ensures k < |q| ==> !IsOverQuota(b, Of(b, q[k]))
  {
    if q == [] then 0
    else if !IsOverQuota(b, Of(b, q[0])) then 0
    else 1 + FirstWithinQuota(b, q[1..])
  }

  function Grant(b: Books, c: int): Books {
    var x := Of(b, c);
    b.(queue := Removed(b.queue, c), waitingCount := b.waitingCount - 1, waitingBytes := b.waitingBytes - x.waiting,
       remaining := b.remaining - x.waiting, granted := b.granted + x.waiting,
       clients := b.clients[c := Client(x.bytes + x.waiting, 0)],
       clientsWithBuffers := b.clientsWithBuffers + if x.bytes == 0 && x.waiting > 0 then 1 else 0)
  }

  /** Nobody can be served: all are over quota, or the first that is not wants more than there is. */
  predicate Stuck(b: Books) {
    var k := FirstWithinQuota(b, b.queue);
    k == |b.queue| || Of(b, b.queue[k]).waiting > b.remaining
  }

  /** Serve the queue while buffers are free; `free(k)` tells whether they are after `k` clients were served. */
  function Serve(b: Books, free: nat -> bool, served: nat): Books
    decreases |b.queue|
  {
    if !free(served) || Stuck(b) then b
    else
      var c := b.queue[FirstWithinQuota(b, b.queue)];
      RemovedShorter(b.queue, c);
      Serve(Grant(b, c), free, served + 1)
  }

  // ----- the books stay balanced

  lemma RemoveQueued(b: Books, c: int, x: Client)
    requires Queued(b) && c in b.queue && x.waiting == 0
    ensures Queued(b.(queue := Removed(b.queue, c), clients := b.clients[c := x]))
    ensures |Removed(b.queue, c)| == |b.queue| - 1
  {
    RemovedIs(b.queue, c);
  }

  lemma GetKeeps(b: Books, c: int, n: nat, poolOk: bool)
    requires Balanced(b)
    ensures Balanced(Get(b, c, n, poolOk))
  {
    if n > 0 { SumSet(b.clients, c, Get(b, c, n, poolOk).clients[c]); }
  }

  lemma PutKeeps(b: Books, c: int, n: nat)
    requires Balanced(b)
    ensures Balanced(Put(b, c, n))
  {
    if n > 0 && c in b.clients { SumSet(b.clients, c, Put(b, c, n).clients[c]); }
  }

  lemma CancelKeeps(b: Books, c: int)
    requires Balanced(b)
    ensures Balanced(Cancel(b, c))
  {
    if c in b.queue {
      SumSet(b.clients, c, Client(b.clients[c].bytes, 0));
      RemoveQueued(b, c, Client(b.clients[c].bytes, 0));
    }
  }

  lemma GrantKeeps(b: Books, c: int)
    requires Balanced(b) && c in b.queue && b.clients[c].waiting <= b.remaining
    ensures Balanced(Grant(b, c))
  {
    var x := b.clients[c];
    SumSet(b.clients, c, Client(x.bytes + x.waiting, 0));
    RemoveQueued(b, c, Client(x.bytes + x.waiting, 0));
  }

  /** One round of service. */
  lemma ServeStep(b: Books, free: nat -> bool, served: nat)
    requires free(served)
    ensures Stuck(b) ==> Serve(b, free, served) == b
    ensures !Stuck(b) ==> Serve(b, free, served) == Serve(Grant(b, b.queue[FirstWithinQuota(b, b.queue)]), free, served + 1)
  {
  }

  /** A client after the queue was served: untouched, or given all it waited for. */
  predicate ServedOrSame(b: Books, g: Books, c: int) {
    if c in b.queue && c !in g.queue then Of(g, c) == Client(Of(b, c).bytes + Of(b, c).waiting, 0)
    else Of(g, c) == Of(b, c) && (c in g.queue ==> c in b.queue)
  }

  lemma FirstIsQueued(b: Books)
    requires Balanced(b) && !Stuck(b)
    ensures var c := b.queue[FirstWithinQuota(b, b.queue)];
      c in b.queue && c in b.clients && 0 < b.clients[c].waiting <= b.remaining
  {
  }

  lemma {:induction false} ServeKeeps(b: Books, free: nat -> bool, served: nat)
    requires Balanced(b)
    ensures var g := Serve(b, free, served);
      Balanced(g) && g.requested == b.requested && g.cancelled == b.cancelled
    decreases |b.queue|
  {
    if free(served) {
      ServeStep(b, free, served);
      if !Stuck(b) {
        FirstIsQueued(b);
        var d := b.queue[FirstWithinQuota(b, b.queue)];
        GrantKeeps(b, d);
        RemovedShorter(b.queue, d);
        ServeKeeps(Grant(b, d), free, served + 1);
      }
    }
  }

  /** Service ends when no more buffers are free, or when nobody can be served. */
  lemma {:induction false} ServeEnds(b: Books, free: nat -> bool, served: nat)
    ensures var g := Serve(b, free, served);
      |g.queue| <= |b.queue| && (Stuck(g) || !free(served + |b.queue| - |g.queue|))
    decreases |b.queue|
  {
    if free(served) {
      ServeStep(b, free, served);
      if !Stuck(b) {
        var d := b.queue[FirstWithinQuota(b, b.queue)];
        RemovedShorter(b.queue, d);
        ServeEnds(Grant(b, d), free, served + 1);
      }
    }
  }

  lemma GrantServes(b: Books, d: int, c: int)
    requires Queued(b) && d in b.queue
    ensures ServedOrSame(b, Grant(b, d), c) && d !in Grant(b, d).queue
  {
    RemovedIs(b.queue, d);
  }

  lemma ServedTwice(a: Books, b: Books, g: Books, c: int)
    requires ServedOrSame(a, b, c) && ServedOrSame(b, g, c)
    ensures ServedOrSame(a, g, c)
  {
  }

  /** Every client is left alone, or gets all it waited for. */
  lemma {:induction false} ServeAllOrNothing(b: Books, free: nat -> bool, served: nat, c: int)
    requires Balanced(b)
    ensures ServedOrSame(b, Serve(b, free, served), c)
    decreases |b.queue|
  {
    if free(served) {
      ServeStep(b, free, served);
      if !Stuck(b) {
        FirstIsQueued(b);
        var d := b.queue[FirstWithinQuota(b, b.queue)];
        GrantKeeps(b, d);
        GrantServes(b, d, c);
        RemovedShorter(b.queue, d);
        ServeAllOrNothing(Grant(b, d), free, served + 1, c);
        ServedTwice(b, Grant(b, d), Serve(Grant(b, d), free, served + 1), c);
      }
    }
  }

  /** Serving the client at `m` moves those behind it up by one place, and changes nothing else for them. */
  lemma GrantShifts(b: Books, m: nat, i: nat)
    requires Distinct(b.queue) && m < i < |b.queue|
    ensures var g := Grant(b, b.queue[m]);
      i - 1 < |g.queue| && g.queue[i - 1] == b.queue[i] && Of(g, b.queue[i]) == Of(b, b.queue[i]) && g.maxQuota == b.maxQuota
  {
    RemovedAt(b.queue, m);
  }

  lemma ServedStays(b: Books, free: nat -> bool, served: nat, c: int)
    requires Balanced(b) && c !in b.queue
    ensures c !in Serve(b, free, served).queue
  {
    ServeAllOrNothing(b, free, served, c);
  }

  /** The first client within its quota is not behind any other such client, and is served before it. */
  lemma FirstServed(b: Books, free: nat -> bool, served: nat, i: nat)
    requires Balanced(b) && free(served) && !Stuck(b) && i < |b.queue| && !IsOverQuota(b, Of(b, b.queue[i]))
    ensures var m := FirstWithinQuota(b, b.queue);
      m <= i && m < |b.queue| && Balanced(Grant(b, b.queue[m])) && |Grant(b, b.queue[m]).queue| < |b.queue|
      && Serve(b, free, served) == Serve(Grant(b, b.queue[m]), free, served + 1)
      && b.queue[m] !in Serve(b, free, served).queue
  {
    ServeStep(b, free, served);
    FirstIsQueued(b);
    var d := b.queue[FirstWithinQuota(b, b.queue)];
    GrantKeeps(b, d);
    GrantServes(b, d, d);
    RemovedShorter(b.queue, d);
    ServedStays(Grant(b, d), free, served + 1, d);
  }

  /** Clients within their quota are served in the order in which they queued up. */
  lemma ServedInOrder(b: Books, free: nat -> bool, served: nat, i: nat, j: nat)
    requires Balanced(b) && i < j < |b.queue|
    requires !IsOverQuota(b, Of(b, b.queue[i])) && b.queue[j] !in Serve(b, free, served).queue
    ensures b.queue[i] !in Serve(b, free, served).queue
  {
    InOrder(b, free, served, i, j, b.queue[i], b.queue[j], Serve(b, free, served));
  }

  lemma {:induction false} InOrder(b: Books, free: nat -> bool, served: nat, i: nat, j: nat, c: int, d: int, end: Books)
    requires Balanced(b) && i < j < |b.queue| && b.queue[i] == c && b.queue[j] == d && end == Serve(b, free, served)
    requires !IsOverQuota(b, Of(b, c)) && d !in end.queue
    ensures c !in end.queue
    decreases |b.queue|
  {
    if free(served) && !Stuck(b) {
      var m, g := ServesOne(b, free, served, i, j);
      if m < i { InOrder(g, free, served + 1, i - 1, j - 1, c, d, end); }
    } else {
      NobodyServed(b, free, served);
    }
  }

  /** The first round, seen by two clients of the queue. */
  lemma ServesOne(b: Books, free: nat -> bool, served: nat, i: nat, j: nat) returns (m: nat, g: Books)
    requires Balanced(b) && free(served) && !Stuck(b) && i < j < |b.queue| && !IsOverQuota(b, Of(b, b.queue[i]))
    ensures m <= i && b.queue[m] !in Serve(b, free, served).queue
    ensures Balanced(g) && |g.queue| < |b.queue| && Serve(b, free, served) == Serve(g, free, served + 1)
    ensures m < i ==>
      j - 1 < |g.queue| && g.queue[i - 1] == b.queue[i] && g.queue[j - 1] == b.queue[j] && !IsOverQuota(g, Of(g, b.queue[i]))
  {
    m := FirstWithinQuota(b, b.queue);
    FirstServed(b, free, served, i);
    g := Grant(b, b.queue[m]);
    if m < i {
      GrantShifts(b, m, i);
      GrantShifts(b, m, j);
    }
  }

  lemma NobodyServed(b: Books, free: nat -> bool, served: nat)
    requires !free(served) || Stuck(b)
    ensures Serve(b, free, served) == b
  {
  }

  // ----- runs

  datatype Event =
    | GetBytes(client: int, bytes: nat, poolOk: bool)
    | PutBytes(client: int, bytes: nat)
    | CancelRequest(client: int)
    | UnregisterClient(client: int)
    | Timeout(free: nat -> bool)

  function Step(b: Books, e: Event): Books {
    match e
    case GetBytes(c, n, poolOk) => Get(b, c, n, poolOk)
    case PutBytes(c, n) => Put(b, c, n)
    case CancelRequest(c) => Cancel(b, c)
    case UnregisterClient(c) => Unregister(b, c)
    case Timeout(free) => Serve(b, free, 0)
  }

  function Run(b: Books, events: seq<Event>): Books {
    if events == [] then b else Step(Run(b, events[..|events| - 1]), events[|events| - 1])
  }

  /** In every run the counters equal a recount, and no byte that was asked for is lost. */
  lemma {:induction false} AlwaysBalanced(total: nat, maxClientQuota: nat, events: seq<Event>)
    ensures Balanced(Run(NewBooks(total, maxClientQuota), events))
  {
    if events != [] {
      var b := Run(NewBooks(total, maxClientQuota), events[..|events| - 1]);
      AlwaysBalanced(total, maxClientQuota, events[..|events| - 1]);
      match events[|events| - 1]
      case GetBytes(c, n, poolOk) => GetKeeps(b, c, n, poolOk);
      case PutBytes(c, n) => PutKeeps(b, c, n);
      case CancelRequest(c) => CancelKeeps(b, c);
      case UnregisterClient(c) => CancelKeeps(b, c); PutKeeps(Cancel(b, c), c, Of(b, c).bytes);
      case Timeout(free) => ServeKeeps(b, free, 0);
    }
  }

  /** A client that unregisters leaves nothing behind. */
  lemma UnregisterLeavesNothing(b: Books, c: int)
    requires Balanced(b)
    ensures var g := Unregister(b, c);
      Of(g, c) == Client(0, 0) && c !in g.queue && g.remaining == b.remaining + Of(b, c).bytes
  {
    RemovedIs(b.queue, c);
  }

  // ----- quotas

  lemma {:induction false} SameQuota(total: nat, maxClientQuota: nat, events: seq<Event>)
    ensures Run(NewBooks(total, maxClientQuota), events).maxQuota == if total <= maxClientQuota then total else maxClientQuota
  {
    if events != [] {
      SameQuota(total, maxClientQuota, events[..|events| - 1]);
      var b, e := Run(NewBooks(total, maxClientQuota), events[..|events| - 1]), events[|events| - 1];
      if e.Timeout? { ServeQuota(b, e.free, 0); }
    }
  }

  lemma {:induction false} ServeQuota(b: Books, free: nat -> bool, served: nat)
    ensures Serve(b, free, served).maxQuota == b.maxQuota
    decreases |b.queue|
  {
    if free(served) && !Stuck(b) {
      ServeStep(b, free, served);
      var d := b.queue[FirstWithinQuota(b, b.queue)];
      RemovedShorter(b.queue, d);
      ServeQuota(Grant(b, d), free, served + 1);
    }
  }

  /**
   In every run a request is granted at once exactly if its client waits for nothing, has no more than its quota, and
   less is asked for than there is; otherwise the client waits for it, with all else it waits for.
   */
  lemma GrantedIff(total: nat, maxClientQuota: nat, events: seq<Event>, c: int, n: nat, poolOk: bool)
    requires n > 0
    ensures var b := Run(NewBooks(total, maxClientQuota), events);
      var x, y := Of(b, c), Of(Step(b, GetBytes(c, n, poolOk)), c);
      if poolOk && x.waiting == 0 && n < b.remaining && x.bytes <= total && x.bytes <= maxClientQuota
      then y == Client(x.bytes + n, 0)
      else y == Client(x.bytes, x.waiting + n) && c in Step(b, GetBytes(c, n, poolOk)).queue
  {
    AlwaysBalanced(total, maxClientQuota, events);
    SameQuota(total, maxClientQuota, events);
  }

  /** A client that has, and waits for, more than its quota gets nothing more, whatever happens to others. */
  lemma NothingMoreOverQuota(total: nat, maxClientQuota: nat, events: seq<Event>, e: Event, c: int)
    requires var x := Of(Run(NewBooks(total, maxClientQuota), events), c);
      x.bytes + x.waiting > (if total <= maxClientQuota then total else maxClientQuota)
    ensures var b := Run(NewBooks(total, maxClientQuota), events); Of(Step(b, e), c).bytes <= Of(b, c).bytes
  {
    AlwaysBalanced(total, maxClientQuota, events);
    SameQuota(total, maxClientQuota, events);
    if e.Timeout? { OverQuotaWaits(Run(NewBooks(total, maxClientQuota), events), e.free, 0, c); }
  }

  lemma {:induction false} OverQuotaWaits(b: Books, free: nat -> bool, served: nat, c: int)
    requires Balanced(b) && Of(b, c).bytes + Of(b, c).waiting > b.maxQuota
    ensures Of(Serve(b, free, served), c) == Of(b, c)
    decreases |b.queue|
  {
    if free(served) {
      ServeStep(b, free, served);
      if !Stuck(b) {
        FirstIsQueued(b);
        var d := b.queue[FirstWithinQuota(b, b.queue)];
        GrantKeeps(b, d);
        RemovedShorter(b.queue, d);
        OverQuotaWaits(Grant(b, d), free, served + 1, c);
      }
    }
  }
}
