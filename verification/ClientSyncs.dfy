/** Write syncs are let into the queue in the order in which they arrived. */
module ClientSyncs {
  import opened ClientOrder
  import opened ClientSafety
  import opened ClientAnswers

  /** What is held back is in order of arrival, and came after every sync that was let in; those were let in in order. */
  ghost predicate InOrder(s: Connection) {
    && (forall i: nat, j: nat | i < j < |HeldBack(s)| :: HeldBack(s)[i].id < HeldBack(s)[j].id)
    && (forall i: nat, j: nat | i < |s.entered| && s.entered[i].kind.WriteSync? && j < |HeldBack(s)| :: s.entered[i].id < HeldBack(s)[j].id)
    && (forall i: nat, j: nat | i < j < |s.entered| && s.entered[i].kind.WriteSync? && s.entered[j].kind.WriteSync? ::
          s.entered[i].id < s.entered[j].id)
  }

  lemma ReleaseInOrder(s: Connection, id: nat)
    requires InOrder(s)
    ensures InOrder(Release(s, id))
  {
    HeldBackSame(s, id);
  }

  lemma EnterInOrder(s: Connection)
    requires InOrder(s) && s.submit != []
    ensures var op := s.submit[0]; InOrder(s.(submit := s.submit[1..], ops := s.ops + [op], entered := s.entered + [op]))
  {
    var op := s.submit[0];
    var t := s.(submit := s.submit[1..], ops := s.ops + [op], entered := s.entered + [op]);
    assert HeldBack(s)[0] == op && HeldBack(t) == HeldBack(s)[1..];
  }

  lemma {:induction false} OpFinishedInOrder(s: Connection, id: nat, now: nat -> seq<nat>)
    requires InOrder(s)
    ensures InOrder(OpFinished(s, id, now))
    decreases Waiting(s), |s.ops|, 1
  {
    ReleaseInOrder(s, id);
    if s.submit == [] { RunSubmitInOrder(Release(s, id), now); }
  }

  lemma {:induction false} RunSubmitInOrder(s: Connection, now: nat -> seq<nat>)
    requires InOrder(s)
    ensures InOrder(RunSubmit(s, now))
    decreases Waiting(s), |s.ops|, 0
  {
    if s.submit != [] {
      var op := s.submit[0];
      var t := s.(submit := s.submit[1..], ops := s.ops + [op], entered := s.entered + [op]);
      EnterInOrder(s);
      CompleteAllInOrder(t, now(op.id), now);
      RunSubmitInOrder(CompleteAll(t, now(op.id), now), now);
    }
  }

  lemma {:induction false} CompleteAllInOrder(s: Connection, ids: seq<nat>, now: nat -> seq<nat>)
    requires InOrder(s)
    ensures InOrder(CompleteAll(s, ids, now))
    decreases Waiting(s), |s.ops|, 4 + |ids|
  {
    if ids != [] {
      CompleteInOrder(s, ids[0], now);
      CompleteAllInOrder(Complete(s, ids[0], now), ids[1..], now);
    }
  }

  lemma SameHeld(s: Connection, t: Connection)
    requires InOrder(s) && t.submit == s.submit && t.pending == s.pending && t.entered == s.entered
    ensures InOrder(t)
  {
    assert HeldBack(t) == HeldBack(s);
  }

  lemma {:induction false} CompleteInOrder(s: Connection, id: nat, now: nat -> seq<nat>)
    requires InOrder(s)
    ensures InOrder(Complete(s, id, now))
    decreases Waiting(s), |s.ops|, 3
  {
    var t := s.(ops := MarkDone(s.ops, id));
    var k := FindOp(t.ops, id);
    SameHeld(s, t);
    CompleteShape(s, id, now);
    if k < |t.ops| {
      if !t.ops[0].done && !t.ops[k].Ordered() { AnsweredInOrder(t, k, now); } else { DrainInOrder(t, now); }
    }
  }

  lemma {:induction false} AnsweredInOrder(t: Connection, k: nat, now: nat -> seq<nat>)
    requires InOrder(t) && k < |t.ops|
    ensures InOrder(OpFinished(Answer(t, k), t.ops[k].id, now))
    decreases Waiting(t), |t.ops|, 2
  {
    SameHeld(t, Answer(t, k));
    OpFinishedInOrder(Answer(t, k), t.ops[k].id, now);
  }

  lemma {:induction false} DrainInOrder(s: Connection, now: nat -> seq<nat>)
    requires InOrder(s)
    ensures InOrder(Drain(s, now))
    decreases Waiting(s), |s.ops|, 2
  {
    if s.ops != [] && s.ops[0].done {
      SameHeld(s, Answer(s, 0));
      OpFinishedInOrder(Answer(s, 0), s.ops[0].id, now);
      DrainInOrder(OpFinished(Answer(s, 0), s.ops[0].id, now), now);
    }
  }

  lemma {:induction false} RunClosingInOrder(s: Connection, head: nat, now: nat -> seq<nat>)
    requires InOrder(s)
    ensures InOrder(RunClosing(s, head, now))
    decreases |s.submit|
  {
    if s.submit != [] {
      var op := s.submit[0];
      var t := s.(submit := s.submit[1..], ops := s.ops + [op], entered := s.entered + [op]);
      var u := s.(submit := s.submit[1..], ops := MarkAll(s.ops + [op], head, now(op.id)), entered := s.entered + [op]);
      EnterInOrder(s);
      SameHeld(t, u);
      RunClosingInOrder(u, head, now);
    }
  }

  lemma {:induction false} DrainClosingInOrder(s: Connection, now: nat -> seq<nat>)
    requires InOrder(s)
    ensures InOrder(DrainClosing(s, now))
    decreases Waiting(s), |s.ops|
  {
    if s.ops != [] && s.ops[0].done {
      var id := s.ops[0].id;
      ReleaseInOrder(s, id);
      if s.submit == [] { RunClosingInOrder(Release(s, id), id, now); }
      var t := FinishClosing(s, id, now);
      SameHeld(t, Answer(t, 0));
      DrainClosingInOrder(Answer(t, 0), now);
    }
  }

  /** While no write is queued, nothing is held back. */
  lemma HeldForWrite(s: Connection)
    requires Inv(s) && s.submit == []
    ensures HeldBack(s) == [] || LastWrite(s.ops) >= 0
  {
    if s.pending != [] { assert DependentOk(s.ops, s.pending[0], -1); }
  }

  lemma ArrivesLast(s: Connection, j: nat)
    requires Inv(s) && j < |HeldBack(s)|
    ensures HeldBack(s)[j].id < s.arrived
  {
    if j >= |s.submit| { assert HeldBack(s)[j] == s.pending[j - |s.submit|].sync; }
  }

  lemma ArriveInOrder(s: Connection, kind: Kind, now: nat -> seq<nat>)
    requires Inv(s) && InOrder(s) && s.submit == []
    ensures InOrder(Arrive(s, kind, now))
  {
    BeforeArrival(s);
    HeldForWrite(s);
    if kind.WriteSync? && LastWrite(s.ops) >= 0 { HeldInOrder(s, kind, now); } else { EnteredInOrder(s, kind, now); }
  }

  lemma HeldInOrder(s: Connection, kind: Kind, now: nat -> seq<nat>)
    requires InOrder(s) && kind.WriteSync? && LastWrite(s.ops) >= 0
    requires forall i: nat | i < |s.entered| :: s.entered[i].id < s.arrived
    requires forall j: nat | j < |HeldBack(s)| :: HeldBack(s)[j].id < s.arrived
    ensures InOrder(Arrive(s, kind, now))
  {
    HeldLast(s, Dependent(s.ops[LastWrite(s.ops)].id, Op(s.arrived, kind, false)));
  }

  lemma EnteredInOrder(s: Connection, kind: Kind, now: nat -> seq<nat>)
    requires InOrder(s) && !(kind.WriteSync? && LastWrite(s.ops) >= 0) && (HeldBack(s) == [] || LastWrite(s.ops) >= 0)
    requires forall i: nat | i < |s.entered| :: s.entered[i].id < s.arrived
    ensures InOrder(Arrive(s, kind, now))
  {
    var op := Op(s.arrived, kind, false);
    EntersLast(s, op);
    CompleteAllInOrder(Entered(s, op), now(op.id), now);
    ArrivesAs(s, kind, now);
  }

  lemma BeforeArrival(s: Connection)
    requires Inv(s)
    ensures forall i: nat | i < |s.entered| :: s.entered[i].id < s.arrived
    ensures forall j: nat | j < |HeldBack(s)| :: HeldBack(s)[j].id < s.arrived
  {
    forall i: nat | i < |s.entered| ensures s.entered[i].id < s.arrived { EnteredBefore(s, i); }
    forall j: nat | j < |HeldBack(s)| ensures HeldBack(s)[j].id < s.arrived { ArrivesLast(s, j); }
  }

  lemma EntersLast(s: Connection, op: Op)
    requires InOrder(s) && op.id == s.arrived && (op.kind.WriteSync? ==> HeldBack(s) == [])
    requires forall i: nat | i < |s.entered| :: s.entered[i].id < s.arrived
    ensures InOrder(Entered(s, op))
  {
    assert HeldBack(Entered(s, op)) == HeldBack(s);
  }

  lemma ArrivesAs(s: Connection, kind: Kind, now: nat -> seq<nat>)
    requires !(kind.WriteSync? && LastWrite(s.ops) >= 0)
    ensures Arrive(s, kind, now) == CompleteAll(Entered(s, Op(s.arrived, kind, false)), now(s.arrived), now)
  {
  }

  lemma HeldLast(s: Connection, p: Dependent)
    requires InOrder(s) && p.sync.id == s.arrived
    requires forall i: nat | i < |s.entered| :: s.entered[i].id < s.arrived
    requires forall j: nat | j < |HeldBack(s)| :: HeldBack(s)[j].id < s.arrived
    ensures InOrder(s.(arrived := s.arrived + 1, pending := s.pending + [p]))
  {
    var t := s.(arrived := s.arrived + 1, pending := s.pending + [p]);
    assert HeldBack(t) == HeldBack(s) + [p.sync];
  }

  /** In every run write syncs are let into the queue in the order in which they arrived, and no sync overtakes another. */
  lemma {:induction false} SyncsInOrder(events: seq<Event>)
    ensures InOrder(Run(events))
  {
    if events != [] {
      var before, e := events[..|events| - 1], events[|events| - 1];
      SyncsInOrder(before);
      Reachable(before);
      var s := Run(before);
      match e
      case Command(kind, now) => ArriveInOrder(s, kind, now);
      case Done(id, now) => CompleteInOrder(s, id, now);
      case DoneAfterClose(id, now) =>
        SameHeld(s, s.(ops := MarkDone(s.ops, id)));
        DrainClosingInOrder(s.(ops := MarkDone(s.ops, id)), now);
    }
  }
}
