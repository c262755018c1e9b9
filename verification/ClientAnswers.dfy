/** Which operations of a connection are answered when one is done. */
module ClientAnswers {
  import opened ClientOrder
  import opened ClientSafety

  /** Answers were only added, and only for ops that are done. */
  predicate AnswersDone(s: Connection, t: Connection) {
    s.answered <= t.answered && forall i: nat | |s.answered| <= i < |t.answered| :: t.answered[i].done
  }

  lemma AnswersDoneTrans(s: Connection, t: Connection, u: Connection)
    requires AnswersDone(s, t) && AnswersDone(t, u)
    ensures AnswersDone(s, u)
  {
    forall i: nat | |s.answered| <= i < |u.answered| ensures u.answered[i].done {
      if i < |t.answered| { assert u.answered[i] == t.answered[i]; }
    }
  }

  lemma AnswerIsDone(s: Connection, k: nat)
    requires k < |s.ops| && s.ops[k].done
    ensures AnswersDone(s, Answer(s, k)) && s.ops[k] in Answer(s, k).answered
  {
  }

  lemma {:induction false} OpFinishedDone(s: Connection, id: nat, now: nat -> seq<nat>)
    ensures AnswersDone(s, OpFinished(s, id, now))
    decreases Waiting(s), |s.ops|, 1
  {
    if s.submit == [] { RunSubmitDone(Release(s, id), now); }
  }

  lemma {:induction false} RunSubmitDone(s: Connection, now: nat -> seq<nat>)
    ensures AnswersDone(s, RunSubmit(s, now))
    decreases Waiting(s), |s.ops|, 0
  {
    if s.submit != [] {
      var op := s.submit[0];
      var t := s.(submit := s.submit[1..], ops := s.ops + [op], entered := s.entered + [op]);
      CompleteAllDone(t, now(op.id), now);
      RunSubmitDone(CompleteAll(t, now(op.id), now), now);
      AnswersDoneTrans(s, CompleteAll(t, now(op.id), now), RunSubmit(s, now));
    }
  }

  lemma {:induction false} CompleteAllDone(s: Connection, ids: seq<nat>, now: nat -> seq<nat>)
    ensures AnswersDone(s, CompleteAll(s, ids, now))
    decreases Waiting(s), |s.ops|, 4 + |ids|
  {
    if ids != [] {
      CompleteDone(s, ids[0], now);
      CompleteAllDone(Complete(s, ids[0], now), ids[1..], now);
      AnswersDoneTrans(s, Complete(s, ids[0], now), CompleteAll(s, ids, now));
    }
  }

  lemma {:induction false} CompleteDone(s: Connection, id: nat, now: nat -> seq<nat>)
    ensures AnswersDone(s, Complete(s, id, now))
    decreases Waiting(s), |s.ops|, 3
  {
    var t := s.(ops := MarkDone(s.ops, id));
    var k := FindOp(t.ops, id);
    CompleteShape(s, id, now);
    if k < |t.ops| {
      if !t.ops[0].done && !t.ops[k].Ordered() { OutOfOrderDone(t, k, now); } else { DrainDone(t, now); }
    }
  }

  lemma {:induction false} OutOfOrderDone(t: Connection, k: nat, now: nat -> seq<nat>)
    requires k < |t.ops| && t.ops[k].done
    ensures AnswersDone(t, OpFinished(Answer(t, k), t.ops[k].id, now))
    decreases Waiting(t), |t.ops|, 2
  {
    AnswerIsDone(t, k);
    OpFinishedDone(Answer(t, k), t.ops[k].id, now);
    AnswersDoneTrans(t, Answer(t, k), OpFinished(Answer(t, k), t.ops[k].id, now));
  }

  lemma {:induction false} DrainDone(s: Connection, now: nat -> seq<nat>)
    ensures AnswersDone(s, Drain(s, now))
    ensures s.ops != [] && s.ops[0].done ==> s.ops[0] in Drain(s, now).answered
    decreases Waiting(s), |s.ops|, 2
  {
    if s.ops != [] && s.ops[0].done {
      var t := Answer(s, 0);
      AnswerIsDone(s, 0);
      OpFinishedDone(t, s.ops[0].id, now);
      var u := OpFinished(t, s.ops[0].id, now);
      AnswersDoneTrans(s, t, u);
      DrainDone(u, now);
      AnswersDoneTrans(s, u, Drain(s, now));
      assert s.ops[0] in t.answered;
      StillAnswered(t, u, s.ops[0]);
      StillAnswered(u, Drain(s, now), s.ops[0]);
    }
  }

  lemma StillAnswered(s: Connection, t: Connection, op: Op)
    requires s.answered <= t.answered && op in s.answered
    ensures op in t.answered
  {
    var i: nat :| i < |s.answered| && s.answered[i] == op;
    assert t.answered[i] == op;
  }

  lemma {:induction false} DrainClosingDone(s: Connection, now: nat -> seq<nat>)
    ensures AnswersDone(s, DrainClosing(s, now))
    ensures s.ops != [] && s.ops[0].done ==> exists op :: op in DrainClosing(s, now).answered && op.id == s.ops[0].id
    decreases Waiting(s), |s.ops|
  {
    if s.ops != [] && s.ops[0].done {
      var t := FinishClosing(s, s.ops[0].id, now);
      FinishKeepsHead(s, s.ops[0].id, now);
      AnswerIsDone(t, 0);
      AnswersDoneTrans(s, t, Answer(t, 0));
      DrainClosingDone(Answer(t, 0), now);
      AnswersDoneTrans(s, Answer(t, 0), DrainClosing(s, now));
      StillAnswered(Answer(t, 0), DrainClosing(s, now), t.ops[0]);
    }
  }

  lemma {:induction false} RunClosingHead(s: Connection, head: nat, now: nat -> seq<nat>)
    requires s.ops != [] && s.ops[0].id == head
    ensures var t := RunClosing(s, head, now); t.ops != [] && t.ops[0] == s.ops[0] && t.answered == s.answered
    decreases |s.submit|
  {
    if s.submit != [] {
      var op := s.submit[0];
      MarkAllRest(s.ops + [op], now(op.id));
      RunClosingHead(s.(submit := s.submit[1..], ops := MarkAll(s.ops + [op], head, now(op.id)), entered := s.entered + [op]), head, now);
    }
  }

  lemma FinishKeepsHead(s: Connection, id: nat, now: nat -> seq<nat>)
    requires s.ops != [] && s.ops[0].id == id
    ensures var t := FinishClosing(s, id, now); t.ops != [] && t.ops[0] == s.ops[0] && t.answered == s.answered
  {
    if s.submit == [] { RunClosingHead(Release(s, id), id, now); }
  }

  lemma StepAnswersDone(s: Connection, e: Event)
    ensures AnswersDone(s, Step(s, e))
  {
    match e
    case Command(kind, now) =>
      var op := Op(s.arrived, kind, false);
      CompleteAllDone(s.(arrived := s.arrived + 1, ops := s.ops + [op], entered := s.entered + [op]), now(op.id), now);
    case Done(id, now) => CompleteDone(s, id, now);
    case DoneAfterClose(id, now) => DrainClosingDone(s.(ops := MarkDone(s.ops, id)), now);
  }

  /** Only ops that are done are ever answered. */
  lemma {:induction false} AnsweredAreDone(events: seq<Event>)
    ensures forall i: nat | i < |Run(events).answered| :: Run(events).answered[i].done
  {
    if events != [] {
      AnsweredAreDone(events[..|events| - 1]);
      var s := Run(events[..|events| - 1]);
      StepAnswersDone(s, events[|events| - 1]);
      forall i: nat | i < |Run(events).answered| ensures Run(events).answered[i].done {
        if i < |s.answered| { assert Run(events).answered[i] == s.answered[i]; }
      }
    }
  }

  predicate Queued(s: Connection, id: nat) {
    exists i: nat :: i < |s.ops| && s.ops[i].id == id
  }

  /** What was answered is not in the queue any more, and never again. */
  lemma AnsweredNotQueued(s: Connection, op: Op)
    requires Conserved(s) && op in s.answered
    ensures !Queued(s, op.id)
  {
    var i: nat :| i < |s.answered| && s.answered[i] == op;
    InBag(s.answered, i);
    ArrivedOnce(s.arrived, op.id);
    forall j: nat | j < |s.ops| ensures s.ops[j].id != op.id { InBag(s.ops, j); }
  }

  /**
   In every run, an op that is done is answered at once exactly if it heads the queue, or is one of those that need not
   wait for others; any other op stays in the queue until it heads it.
   */
  lemma AnsweredAtOnceIff(events: seq<Event>, id: nat, now: nat -> seq<nat>)
    requires Queued(Run(events), id)
    ensures var s := Run(events);
      var k := FindOp(s.ops, id);
      && k < |s.ops| && s.ops[k].id == id
      && (Queued(Step(s, Done(id, now)), id) <==> k > 0 && s.ops[k].Ordered())
  {
    Reachable(events);
    var s := Run(events);
    var i: nat :| i < |s.ops| && s.ops[i].id == id;
    CompleteIff(s, id, now);
  }

  lemma CompleteIff(s: Connection, id: nat, now: nat -> seq<nat>)
    requires Inv(s) && HeadNotDone(s) && FindOp(s.ops, id) < |s.ops|
    ensures var k := FindOp(s.ops, id); Queued(Complete(s, id, now), id) <==> k > 0 && s.ops[k].Ordered()
  {
    var k, t := FindOp(s.ops, id), s.(ops := MarkDone(s.ops, id));
    CompleteKeeps(s, id, now);
    MarkFinds(s.ops, id);
    CompleteShape(s, id, now);
    if k == 0 {
      DrainDone(t, now);
      AnsweredNotQueued(Complete(s, id, now), t.ops[0]);
    } else if !s.ops[k].Ordered() {
      AnswerIsDone(t, k);
      OpFinishedDone(Answer(t, k), id, now);
      StillAnswered(Answer(t, k), Complete(s, id, now), t.ops[k]);
      AnsweredNotQueued(Complete(s, id, now), t.ops[k]);
    } else {
      assert Drain(t, now) == t;
      assert t.ops[k].id == id;
    }
  }

  lemma {:induction false} MarkFinds(ops: seq<Op>, id: nat)
    ensures FindOp(MarkDone(ops, id), id) == FindOp(ops, id)
  {
    var k, m := FindOp(ops, id), FindOp(MarkDone(ops, id), id);
    if k < |ops| { assert MarkDone(ops, id)[k].id == id; }
    if m < |ops| { assert ops[m].id == id; }
  }

  /** After the connection was closed an op is dropped exactly if it heads the queue. */
  lemma DroppedAtOnceIff(events: seq<Event>, id: nat, now: nat -> seq<nat>)
    requires Queued(Run(events), id)
    ensures var s := Run(events);
      s.ops != [] && (Queued(Step(s, DoneAfterClose(id, now)), id) <==> s.ops[0].id != id)
  {
    Reachable(events);
    var s := Run(events);
    StepKeeps(s, DoneAfterClose(id, now));
    var t := s.(ops := MarkDone(s.ops, id));
    var i: nat :| i < |s.ops| && s.ops[i].id == id;
    assert t.ops[i].id == id;
    if s.ops[0].id == id {
      assert FindOp(s.ops, id) == 0;
      DrainClosingDone(t, now);
      var op :| op in DrainClosing(t, now).answered && op.id == id;
      AnsweredNotQueued(Step(s, DoneAfterClose(id, now)), op);
    }
  }

  /**
   A command that is done while it is being submitted is answered at once exactly if nothing is before it, or it
   need not wait for others.
   */
  lemma DoneWhenSubmitted(events: seq<Event>, kind: Kind, now: nat -> seq<nat>)
    requires now(Run(events).arrived) == [Run(events).arrived]
    requires !(kind.WriteSync? && LastWrite(Run(events).ops) >= 0)
    ensures var s := Run(events);
      Queued(Step(s, Command(kind, now)), s.arrived) <==> s.ops != [] && Op(s.arrived, kind, false).Ordered()
  {
    Reachable(events);
    var s := Run(events);
    ArriveShape(s, kind, now);
    EntersAndCompletes(s, Op(s.arrived, kind, false), now);
  }

  lemma ArriveShape(s: Connection, kind: Kind, now: nat -> seq<nat>)
    requires !(kind.WriteSync? && LastWrite(s.ops) >= 0) && now(s.arrived) == [s.arrived]
    ensures Step(s, Command(kind, now)) == Complete(Entered(s, Op(s.arrived, kind, false)), s.arrived, now)
  {
    OneCompletes(Entered(s, Op(s.arrived, kind, false)), s.arrived, now);
  }

  /** The op is in the queue and not done. */
  function Entered(s: Connection, op: Op): Connection {
    s.(arrived := s.arrived + 1, ops := s.ops + [op], entered := s.entered + [op])
  }

  lemma EntersAndCompletes(s: Connection, op: Op, now: nat -> seq<nat>)
    requires Inv(s) && HeadNotDone(s) && op.id == s.arrived && !op.done && (op.kind.WriteSync? ==> LastWrite(s.ops) < 0)
    ensures Queued(Complete(Entered(s, op), op.id, now), op.id) <==> s.ops != [] && op.Ordered()
  {
    EnteredInv(s, op);
    EnteredHead(s, op);
    FoundLast(s, op);
    CompleteIff(Entered(s, op), op.id, now);
  }

  lemma EnteredInv(s: Connection, op: Op)
    requires Inv(s) && op.id == s.arrived && (op.kind.WriteSync? ==> LastWrite(s.ops) < 0)
    ensures Inv(Entered(s, op))
  {
    EnterKeeps(s, op);
    InvSame(s.(arrived := s.arrived + 1, ops := s.ops + [op], entered := s.entered + [op]), Entered(s, op));
  }

  lemma InvSame(s: Connection, t: Connection)
    requires Inv(s) && s == t
    ensures Inv(t)
  {
  }

  lemma EnteredHead(s: Connection, op: Op)
    requires HeadNotDone(s) && !op.done
    ensures var u := Entered(s, op); HeadNotDone(u) && u.ops == s.ops + [op] && u.ops[|s.ops|] == op
  {
  }

  lemma FoundLast(s: Connection, op: Op)
    requires Fresh(s) && op.id == s.arrived
    ensures FindOp(s.ops + [op], op.id) == |s.ops|
  {
    LastIsFound(s.ops, op);
  }

  lemma OneCompletes(s: Connection, id: nat, now: nat -> seq<nat>)
    ensures CompleteAll(s, [id], now) == Complete(s, id, now)
  {
    assert [id][1..] == [];
    assert CompleteAll(Complete(s, id, now), [], now) == Complete(s, id, now);
  }

  lemma {:induction false} LastIsFound(ops: seq<Op>, op: Op)
    requires forall i: nat | i < |ops| :: ops[i].id < op.id
    ensures FindOp(ops + [op], op.id) == |ops|
  {
    if ops != [] {
      assert (ops + [op])[1..] == ops[1..] + [op];
      LastIsFound(ops[1..], op);
    }
  }
}
