/**
 The connection object: queues that are spliced and drained in place, and the space the client has reserved.
 Submitting an op may complete it and others at once, and come back into these methods.
 */
module ClientObject {
  import opened ClientOrder
  import Reservations
  import ConnectionLedger

  class ClientSM {
    var ops: seq<Op>
    var pending: seq<Dependent>
    var submit: seq<Op>
    var reservations: map<int, nat>
    ghost var arrived: nat
    ghost var entered: seq<Op>
    ghost var answered: seq<Op>

    ghost function Model(): Connection
      reads this
    {
      Connection(ops, pending, submit, arrived, entered, answered)
    }

    constructor ()
      ensures Model() == NEW_CONNECTION && reservations == map[]
    {
      ops, pending, submit, reservations := [], [], [], map[];
      arrived, entered, answered := 0, [], [];
    }

    // ----- ops

    /** Sends the response of the op at position `k`, and takes it off the queue. */
    method Respond(k: nat)
      requires k < |ops|
      modifies this`ops, this`answered
      ensures Model() == Answer(old(Model()), k)
    {
      answered := answered + [ops[k]];
      ops := ops[..k] + ops[k + 1..];
    }

    method Find(id: nat) returns (k: nat)
      ensures k == FindOp(ops, id)
    {
      k := 0;
      while k < |ops| && ops[k].id != id
        invariant 0 <= k <= |ops| && FindOp(ops, id) == k + FindOp(ops[k..], id)
      {
        assert ops[k..][1..] == ops[k + 1..];
        k := k + 1;
      }
    }

    /** An op finished: answers it and all behind it that were waiting for it only. */
    method CommandDone(id: nat, now: nat -> seq<nat>)
      modifies this`ops, this`pending, this`submit, this`entered, this`answered
      ensures Model() == Complete(old(Model()), id, now)
      decreases Waiting(Model()), |ops|, 3
    {
      ghost var before := Model();
      var k := Find(id);
      if k == |ops| { return; }
      ops := ops[k := ops[k].(done := true)];
      assert ops == MarkDone(before.ops, id) && FindOp(ops, id) == k;
      if !ops[0].done && !ops[k].Ordered() {
        Respond(k);
        OpFinished(id, now);
        return;
      }
      DrainDone(now);
    }

    method DrainDone(now: nat -> seq<nat>)
      modifies this`ops, this`pending, this`submit, this`entered, this`answered
      ensures Model() == Drain(old(Model()), now)
      decreases Waiting(Model()), |ops|, 2
    {
      ghost var goal := Drain(Model(), now);
      ghost var start := Model();
      while ops != [] && ops[0].done
        invariant Drain(Model(), now) == goal
        invariant Waiting(Model()) < Waiting(start) || (Waiting(Model()) == Waiting(start) && |ops| <= |start.ops|)
        decreases Waiting(Model()), |ops|
      {
        var id := ops[0].id;
        Respond(0);
        OpFinished(id, now);
      }
    }

    /** Moves what waits for the op to the submit queue. */
    method ReleaseWaiting(id: nat)
      modifies this`pending, this`submit
      ensures Model() == Release(old(Model()), id)
    {
      ghost var before := Model();
      while pending != [] && pending[0].write == id
        invariant Release(Model(), id) == Release(before, id)
        decreases |pending|
      {
        ReleaseOne(Model(), id);
        submit, pending := submit + [pending[0].sync], pending[1..];
      }
      ReleaseNone(Model(), id);
    }

    /** Releases what was held back for the op, and submits it unless a call further out is doing so. */
    method OpFinished(id: nat, now: nat -> seq<nat>)
      modifies this`ops, this`pending, this`submit, this`entered, this`answered
      ensures Model() == ClientOrder.OpFinished(old(Model()), id, now)
      decreases Waiting(Model()), |ops|, 1
    {
      var run := submit == [];
      ReleaseWaiting(id);
      if run { SubmitAll(now); }
    }

    method SubmitAll(now: nat -> seq<nat>)
      modifies this`ops, this`pending, this`submit, this`entered, this`answered
      ensures Model() == RunSubmit(old(Model()), now)
      decreases Waiting(Model()), |ops|, 0
    {
      ghost var goal := RunSubmit(Model(), now);
      ghost var start := Model();
      while submit != []
        invariant RunSubmit(Model(), now) == goal
        invariant Waiting(Model()) <= Waiting(start)
        decreases Waiting(Model())
      {
        var op := submit[0];
        submit := submit[1..];
        ops := ops + [op];
        entered := entered + [op];
        CompleteEach(now(op.id), now);
      }
    }

    /** What completes while an op is being submitted. */
    method CompleteEach(ids: seq<nat>, now: nat -> seq<nat>)
      modifies this`ops, this`pending, this`submit, this`entered, this`answered
      ensures Model() == CompleteAll(old(Model()), ids, now)
      decreases Waiting(Model()), |ops|, 4
    {
      ghost var goal, start := CompleteAll(Model(), ids, now), Model();
      var rest := ids;
      while rest != []
        invariant CompleteAll(Model(), rest, now) == goal
        invariant Waiting(Model()) < Waiting(start) || (Waiting(Model()) == Waiting(start) && |ops| <= |start.ops|)
        decreases |rest|
      {
        CommandDone(rest[0], now);
        rest := rest[1..];
      }
    }

    /** An op finished after the connection was closed: drops it if it heads the queue, and all behind it that are done. */
    method TerminateDone(id: nat, now: nat -> seq<nat>)
      modifies this`ops, this`pending, this`submit, this`entered, this`answered
      ensures Model() == CompleteClosing(old(Model()), id, now)
    {
      ghost var before := Model();
      var k := Find(id);
      if k < |ops| { ops := ops[k := ops[k].(done := true)]; }
      assert ops == MarkDone(before.ops, id);
      if ops == [] || ops[0].id != id { return; }
      ghost var goal := DrainClosing(Model(), now);
      while ops != [] && ops[0].done
        invariant DrainClosing(Model(), now) == goal
        decreases Waiting(Model()), |ops|
      {
        FinishAfterClose(ops[0].id, now);
        Respond(0);
      }
    }

    method FinishAfterClose(id: nat, now: nat -> seq<nat>)
      modifies this`ops, this`pending, this`submit, this`entered
      ensures Model() == FinishClosing(old(Model()), id, now)
    {
      var run := submit == [];
      ReleaseWaiting(id);
      if !run { return; }
      ghost var goal := RunClosing(Model(), id, now);
      while submit != []
        invariant RunClosing(Model(), id, now) == goal
        decreases |submit|
      {
        var op := submit[0];
        submit := submit[1..];
        entered := entered + [op];
        ops := ops + [op];
        MarkEach(id, now(op.id));
      }
    }

    /** What completes while an op is submitted on a closed connection. */
    method MarkEach(head: nat, ids: seq<nat>)
      modifies this`ops
      ensures ops == MarkAll(old(ops), head, ids)
    {
      ghost var goal := MarkAll(ops, head, ids);
      var rest := ids;
      while rest != []
        invariant MarkAll(ops, head, rest) == goal
        decreases |rest|
      {
        if rest[0] != head { SetDone(rest[0]); }
        rest := rest[1..];
      }
    }

    method SetDone(id: nat)
      modifies this`ops
      ensures ops == MarkDone(old(ops), id)
    {
      var k := Find(id);
      if k < |ops| { ops := ops[k := ops[k].(done := true)]; }
    }

    /** A command was parsed: held back behind the last write, or queued and submitted. */
    method HandleCommand(op: Op, now: nat -> seq<nat>)
      requires op.id == arrived && !op.done
      modifies this`ops, this`pending, this`submit, this`arrived, this`entered, this`answered
      ensures Model() == Arrive(old(Model()), op.kind, now)
    {
      ghost var before := Model();
      arrived := arrived + 1;
      if op.kind.WriteSync? {
        var w := -1;
        var i := 0;
        while i < |ops|
          invariant 0 <= i <= |ops| && w == LastWrite(ops[..i])
        {
          assert ops[..i + 1][..i] == ops[..i];
          if ops[i].kind.Write? { w := i; }
          i := i + 1;
        }
        assert ops[..i] == ops;
        if w >= 0 {
          pending := pending + [Dependent(ops[w].id, op)];
          return;
        }
      }
      ops := ops + [op];
      entered := entered + [op];
      CompleteEach(now(op.id), now);
    }

    // ----- reserved space

    method ChunkSpaceReserve(w: int, n: nat)
      modifies this`reservations
      ensures reservations == ConnectionLedger.Add(old(reservations), w, n)
    {
      if w !in reservations { reservations := reservations[w := 0]; }
      reservations := reservations[w := reservations[w] + n];
    }

    method UseReservedSpace(w: int, n: nat) returns (used: nat)
      modifies this`reservations
      ensures reservations == ConnectionLedger.Use(old(reservations), w, n)
      ensures used == Reservations.Get(old(reservations), w) - Reservations.Get(reservations, w)
    {
      used := 0;
      if w in reservations {
        used := if reservations[w] <= n then reservations[w] else n;
        reservations := reservations[w := reservations[w] - used];
      }
    }
  }

  lemma SyncsFirst(ps: seq<Dependent>, before: seq<Op>)
    requires ps != []
    ensures (before + [ps[0].sync]) + Syncs(ps[1..]) == before + Syncs(ps)
  {
    assert Syncs(ps)[0] == ps[0].sync;
    assert forall i: nat | i < |ps| - 1 :: Syncs(ps[1..])[i] == Syncs(ps)[i + 1];
  }

  /** Releasing the first of those that wait, then the rest, releases all of them. */
  lemma ReleaseOne(s: Connection, id: nat)
    requires s.pending != [] && s.pending[0].write == id
    ensures Release(s.(submit := s.submit + [s.pending[0].sync], pending := s.pending[1..]), id) == Release(s, id)
  {
    var n := Released(s.pending, id);
    assert Released(s.pending[1..], id) == n - 1;
    SliceRest(s.pending, n);
    SyncsFirst(s.pending[..n], s.submit);
  }

  lemma SliceRest(ps: seq<Dependent>, n: nat)
    requires 0 < n <= |ps|
    ensures ps[1..][n - 1..] == ps[n..] && ps[..n][1..] == ps[1..][..n - 1] && ps[..n][0] == ps[0]
  {
  }

  lemma ReleaseNone(s: Connection, id: nat)
    requires s.pending == [] || s.pending[0].write != id
    ensures Release(s, id) == s
  {
    assert Syncs([]) == [];
  }
}
