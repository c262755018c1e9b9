/** The manager of io buffer space, updated in place. Each method does what the function of BufferBooks says. */
module BufferManager {
  import opened Lists
  import opened BufferBooks

  class BufferManager {
    const total: nat
    const maxQuota: nat
    var remaining: int
    var clients: map<int, Client>
    var queue: seq<int>
    var waitingBytes: int
    var waitingCount: int
    var clientsWithBuffers: int
    var requested: nat
    var granted: nat
    ghost var cancelled: nat   // history

    ghost function Model(): Books
      reads this
    {
      Books(total, maxQuota, remaining, clients, queue, waitingBytes, waitingCount, clientsWithBuffers, requested, granted, cancelled)
    }

    constructor (totalCount: nat, maxClientQuota: nat)
      ensures Model() == NewBooks(totalCount, maxClientQuota)
    {
      total := totalCount;
      maxQuota := if totalCount <= maxClientQuota then totalCount else maxClientQuota;
      remaining, clients, queue := totalCount, map[], [];
      waitingBytes, waitingCount, clientsWithBuffers, requested, granted, cancelled := 0, 0, 0, 0, 0, 0;
    }

    method Get(c: int, n: nat, poolOk: bool) returns (ok: bool)
      requires Queued(Model())
      modifies this
      ensures Model() == BufferBooks.Get(old(Model()), c, n, poolOk)
      ensures ok == (n > 0 && CanGrant(old(Model()), c, n, poolOk))
    {
      if n == 0 { return false; }
      var x := if c in clients then clients[c] else Client(0, 0);
      remaining := remaining + x.bytes;
      requested := requested + n;
      var want := x.waiting + x.bytes + n;
      ok := c !in queue && (want <= 0 || (poolOk && want < remaining && !(maxQuota < x.bytes + x.waiting)));
      if ok {
        clients := clients[c := Client(want, x.waiting)];
        remaining := remaining - want;
        granted := granted + n;
        if x.bytes == 0 { clientsWithBuffers := clientsWithBuffers + 1; }
      } else {
        if c !in queue {
          queue := queue + [c];
          waitingCount := waitingCount + 1;
        }
        waitingBytes := waitingBytes + n;
        remaining := remaining - x.bytes;
        clients := clients[c := Client(x.bytes, x.waiting + n)];
      }
    }

    method Put(c: int, n: nat)
      modifies this
      ensures Model() == BufferBooks.Put(old(Model()), c, n)
    {
      if n == 0 || c !in clients { return; }
      var x := clients[c];
      remaining := remaining + x.bytes;
      var left := x.bytes - n;
      if left < 0 { left := 0; }
      clients := clients[c := Client(left, x.waiting)];
      remaining := remaining - left;
      if x.bytes > 0 && left <= 0 { clientsWithBuffers := clientsWithBuffers - 1; }
    }

    /** Takes a client out of the wait queue. */
    method RemoveFromQueue(c: int)
      modifies this`queue
      ensures queue == Removed(old(queue), c)
    {
      var k := 0;
      ghost var all := queue;
      while k < |queue| && queue[k] != c
        invariant 0 <= k <= |queue| && queue == all
        invariant Removed(all, c) == all[..k] + Removed(all[k..], c)
      {
        assert all[..k + 1] == all[..k] + [all[k]] && all[k..][1..] == all[k + 1..];
        k := k + 1;
      }
      if k < |queue| {
        assert all[k..][1..] == all[k + 1..];
        queue := queue[..k] + queue[k + 1..];
      }
    }

    method CancelRequest(c: int)
      modifies this
      ensures Model() == Cancel(old(Model()), c)
    {
      if c !in queue || c !in clients { return; }
      var x := clients[c];
      RemoveFromQueue(c);
      waitingCount := waitingCount - 1;
      waitingBytes := waitingBytes - x.waiting;
      clients := clients[c := Client(x.bytes, 0)];
      cancelled := cancelled + x.waiting;
    }

    method Unregister(c: int)
      modifies this
      ensures Model() == BufferBooks.Unregister(old(Model()), c)
    {
      var bytes := if c in clients then clients[c].bytes else 0;
      CancelRequest(c);
      Put(c, bytes);
    }

    function Has(c: int): Client
      reads this
    {
      if c in clients then clients[c] else Client(0, 0)
    }

    /** Skips all that are over quota. */
    method FindWithinQuota() returns (k: nat)
      ensures k == FirstWithinQuota(Model(), queue)
    {
      k := 0;
      while k < |queue| && maxQuota < Has(queue[k]).bytes + Has(queue[k]).waiting
        invariant 0 <= k <= |queue|
        invariant FirstWithinQuota(Model(), queue) == k + FirstWithinQuota(Model(), queue[k..])
      {
        assert queue[k..][1..] == queue[k + 1..];
        k := k + 1;
      }
    }

    /** Gives a client all it waits for. */
    method GrantTo(c: int)
      modifies this
      ensures Model() == Grant(old(Model()), c)
    {
      var x := Has(c);
      RemoveFromQueue(c);
      waitingCount := waitingCount - 1;
      remaining := remaining - x.waiting;
      waitingBytes := waitingBytes - x.waiting;
      if x.bytes <= 0 && x.waiting > 0 { clientsWithBuffers := clientsWithBuffers + 1; }
      granted := granted + x.waiting;
      clients := clients[c := Client(x.bytes + x.waiting, 0)];
    }

    /** Serves waiting clients while buffers are free. */
    method Timeout(free: nat -> bool)
      modifies this
      ensures Model() == Serve(old(Model()), free, 0)
    {
      var served := 0;
      ghost var goal := Serve(Model(), free, 0);
      while free(served)
        invariant Serve(Model(), free, served) == goal
        decreases |queue|
      {
        ServeStep(Model(), free, served);
        var k := FindWithinQuota();
        if k == |queue| || Has(queue[k]).waiting > remaining { return; }
        RemovedShorter(queue, queue[k]);
        GrantTo(queue[k]);
        served := served + 1;
      }
    }
  }
}
