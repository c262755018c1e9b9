/** Every operation of a connection is answered once, in order, and no write sync is early or forgotten. */
module ClientSafety {
  import opened ClientOrder

  // ----- order and conservation

  /** The ids of the ops that are answered in order. */
  function Line(ops: seq<Op>): seq<nat> {
    if ops == [] then [] else (if ops[0].Ordered() then [ops[0].id] else []) + Line(ops[1..])
  }

  /** All ids. */
  function Bag(ops: seq<Op>): multiset<nat> {
    if ops == [] then multiset{} else multiset{ops[0].id} + Bag(ops[1..])
  }

  lemma {:induction false} LineAppended(a: seq<Op>, b: seq<Op>)
    ensures Line(a + b) == Line(a) + Line(b)
  {
    if a == [] {
      assert a + b == b;
    } else {
      assert (a + b)[1..] == a[1..] + b;
      LineAppended(a[1..], b);
      SumAssociates(if a[0].Ordered() then [a[0].id] else [], Line(a[1..]), Line(b));
    }
  }

  lemma {:induction false} BagAppended(a: seq<Op>, b: seq<Op>)
    ensures Bag(a + b) == Bag(a) + Bag(b)
  {
    if a == [] {
      assert a + b == b;
    } else {
      assert (a + b)[1..] == a[1..] + b;
      BagAppended(a[1..], b);
    }
  }

  predicate SameOps(a: seq<Op>, b: seq<Op>) {
    |a| == |b| && forall i | 0 <= i < |a| :: a[i].id == b[i].id && a[i].kind == b[i].kind
  }

  lemma {:induction false} SameLine(a: seq<Op>, b: seq<Op>)
    requires SameOps(a, b)
    ensures Line(a) == Line(b) && Bag(a) == Bag(b)
  {
    if a != [] { SameLine(a[1..], b[1..]); }
  }

  lemma One(op: Op)
    ensures Line([op]) == (if op.Ordered() then [op.id] else []) && Bag([op]) == multiset{op.id}
  {
    assert [op][1..] == [];
  }

  /** Taking out one op. */
  lemma {:induction false} TakenOut(ops: seq<Op>, k: nat)
    requires k < |ops|
    ensures Bag(ops) == Bag(ops[..k] + ops[k + 1..]) + multiset{ops[k].id}
    ensures !ops[k].Ordered() ==> Line(ops[..k] + ops[k + 1..]) == Line(ops)
  {
    var left := ops[..k] + ops[k + 1..];
    if k == 0 {
      assert left == ops[1..];
    } else {
      assert left[0] == ops[0] && left[1..] == ops[1..][..k - 1] + ops[1..][k..];
      TakenOut(ops[1..], k - 1);
    }
  }

  lemma {:induction false} InBag(ops: seq<Op>, k: nat)
    requires k < |ops|
    ensures ops[k].id in Bag(ops)
  {
    if k > 0 { InBag(ops[1..], k - 1); }
  }

  lemma {:induction false} ArrivedOnce(n: nat, id: nat)
    ensures Arrivals(n)[id] == if id < n then 1 else 0
  {
    if n > 0 { ArrivedOnce(n - 1, id); }
  }

  /** What arrived and did not enter the queue yet. */
  function HeldBack(s: Connection): seq<Op> {
    s.submit + Syncs(s.pending)
  }

  function Arrivals(n: nat): multiset<nat> {
    if n == 0 then multiset{} else Arrivals(n - 1) + multiset{n - 1}
  }

  /** Every op that arrived is held back, in the queue or answered, and that only once; the order is kept. */
  ghost predicate Conserved(s: Connection) {
    && Bag(s.entered) + Bag(HeldBack(s)) == Arrivals(s.arrived)
    && Bag(s.answered) + Bag(s.ops) == Bag(s.entered)
    && Line(s.answered) + Line(s.ops) == Line(s.entered)
  }

  // ----- writes and write syncs

  ghost predicate WritesInOrder(ops: seq<Op>) {
    && (forall i, j | 0 <= i < j < |ops| :: ops[i].id != ops[j].id)
    && (forall i, j | 0 <= i < j < |ops| && ops[i].kind.Write? && ops[j].kind.Write? :: ops[i].id < ops[j].id)
  }

  /** No write that arrived before the sync is in the queue any more. */
  ghost predicate WritesAnswered(ops: seq<Op>, sync: int) {
    forall i | 0 <= i < |ops| && ops[i].kind.Write? :: ops[i].id > sync
  }

  ghost predicate HasWrite(ops: seq<Op>, id: nat) {
    exists i: nat :: i < |ops| && ops[i].kind.Write? && ops[i].id == id
  }

  /** The sync waits for the last of the writes that came before it; `gone` was answered just now. */
  ghost predicate DependentOk(ops: seq<Op>, p: Dependent, gone: int) {
    && p.sync.kind.WriteSync? && p.write < p.sync.id
    && (HasWrite(ops, p.write) || p.write == gone)
    && (forall i | 0 <= i < |ops| && ops[i].kind.Write? && ops[i].id <= p.sync.id :: ops[i].id <= p.write)
  }

  ghost predicate DependentsOk(ops: seq<Op>, pending: seq<Dependent>, gone: int) {
    && (forall i | 0 <= i < |pending| :: DependentOk(ops, pending[i], gone))
    && (forall i, j | 0 <= i < j < |pending| :: pending[i].write <= pending[j].write)
  }

  ghost predicate SyncsOk(s: Connection) {
    && (forall i | 0 <= i < |s.submit| :: s.submit[i].kind.WriteSync? && WritesAnswered(s.ops, s.submit[i].id))
    && (forall i | 0 <= i < |s.entered| && s.entered[i].kind.WriteSync? :: WritesAnswered(s.ops, s.entered[i].id))
  }

  ghost predicate Fresh(s: Connection) {
    && (forall i | 0 <= i < |s.ops| :: s.ops[i].id < s.arrived)
    && (forall i | 0 <= i < |s.pending| :: s.pending[i].sync.id < s.arrived && !s.pending[i].sync.done)
    && (forall i | 0 <= i < |s.submit| :: s.submit[i].id < s.arrived && !s.submit[i].done)
  }

  ghost predicate Loose(s: Connection, gone: int) {
    && Conserved(s) && Fresh(s) && WritesInOrder(s.ops) && SyncsOk(s)
    && DependentsOk(s.ops, s.pending, gone)
    && (forall i | 0 <= i < |s.ops| && s.ops[i].kind.Write? :: s.ops[i].id != gone)
    && (forall i | 0 <= i < |s.pending| && s.pending[i].write == gone :: WritesAnswered(s.ops, gone))
  }

  ghost predicate Inv(s: Connection) { Loose(s, -1) }

  // ----- one op is answered

  lemma AnswerBag(s: Connection, k: nat)
    requires k < |s.ops|
    ensures Bag(Answer(s, k).answered) + Bag(Answer(s, k).ops) == Bag(s.answered) + Bag(s.ops)
  {
    TakenOut(s.ops, k);
    BagAppended(s.answered, [s.ops[k]]);
    One(s.ops[k]);
  }

  lemma LineFirst(answered: seq<Op>, ops: seq<Op>)
    requires ops != []
    ensures Line(answered + [ops[0]]) + Line(ops[1..]) == Line(answered) + Line(ops)
  {
    LineAppended(answered, [ops[0]]);
    One(ops[0]);
    var head := if ops[0].Ordered() then [ops[0].id] else [];
    assert Line(ops) == head + Line(ops[1..]);
    assert Line(answered) + head + Line(ops[1..]) == Line(answered) + (head + Line(ops[1..]));
  }

  lemma AnswerLine(s: Connection, k: nat)
    requires k < |s.ops| && (k == 0 || !s.ops[k].Ordered())
    ensures Line(Answer(s, k).answered) + Line(Answer(s, k).ops) == Line(s.answered) + Line(s.ops)
  {
    if k == 0 {
      assert s.ops[..0] + s.ops[1..] == s.ops[1..];
      LineFirst(s.answered, s.ops);
    } else {
      TakenOut(s.ops, k);
      LineAppended(s.answered, [s.ops[k]]);
      One(s.ops[k]);
      assert Line(s.answered) + [] == Line(s.answered);
    }
  }

  lemma AnswerConserves(s: Connection, k: nat)
    requires Conserved(s) && k < |s.ops| && (k == 0 || !s.ops[k].Ordered())
    ensures Conserved(Answer(s, k))
  {
    AnswerBag(s, k);
    AnswerLine(s, k);
    assert HeldBack(Answer(s, k)) == HeldBack(s);
  }

  /** Of the ops that stay, none changes. */
  lemma StillThere(ops: seq<Op>, k: nat, id: nat)
    requires k < |ops| && HasWrite(ops, id) && ops[k].id != id
    ensures HasWrite(ops[..k] + ops[k + 1..], id)
  {
    var i: nat :| i < |ops| && ops[i].kind.Write? && ops[i].id == id;
    var left := ops[..k] + ops[k + 1..];
    assert left[if i < k then i else i - 1] == ops[i];
  }

  lemma LeftIn(ops: seq<Op>, k: nat, i: nat)
    requires k < |ops| && i < |ops| - 1
    ensures (ops[..k] + ops[k + 1..])[i] == ops[if i < k then i else i + 1]
  {
  }

  lemma AnswerWrites(ops: seq<Op>, k: nat)
    requires WritesInOrder(ops) && k < |ops|
    ensures WritesInOrder(ops[..k] + ops[k + 1..])
  {
    var left := ops[..k] + ops[k + 1..];
    forall i, j | 0 <= i < j < |left| ensures left[i].id != left[j].id
                                      ensures left[i].kind.Write? && left[j].kind.Write? ==> left[i].id < left[j].id {
      LeftIn(ops, k, i);
      LeftIn(ops, k, j);
    }
  }

  lemma AnswerDependents(ops: seq<Op>, pending: seq<Dependent>, k: nat)
    requires WritesInOrder(ops) && DependentsOk(ops, pending, -1) && k < |ops|
    ensures DependentsOk(ops[..k] + ops[k + 1..], pending, ops[k].id)
  {
    var left := ops[..k] + ops[k + 1..];
    forall i | 0 <= i < |pending| ensures DependentOk(left, pending[i], ops[k].id) {
      var p := pending[i];
      assert DependentOk(ops, p, -1);
      if p.write != ops[k].id { StillThere(ops, k, p.write); }
      forall j | 0 <= j < |left| && left[j].kind.Write? && left[j].id <= p.sync.id ensures left[j].id <= p.write {
        LeftIn(ops, k, j);
      }
    }
  }

  lemma AnswerLoose(s: Connection, k: nat)
    requires Inv(s) && k < |s.ops| && (k == 0 || !s.ops[k].Ordered())
    ensures Loose(Answer(s, k), s.ops[k].id)
  {
    var t, gone := Answer(s, k), s.ops[k].id;
    AnswerConserves(s, k);
    AnswerWrites(s.ops, k);
    AnswerDependents(s.ops, s.pending, k);
    forall i: nat | i < |t.ops| ensures t.ops[i] == s.ops[if i < k then i else i + 1] { LeftIn(s.ops, k, i); }
    forall i | 0 <= i < |s.pending| && s.pending[i].write == gone ensures WritesAnswered(t.ops, gone) {
      assert DependentOk(s.ops, s.pending[i], -1);
      var j: nat :| j < |s.ops| && s.ops[j].kind.Write? && s.ops[j].id == gone;
    }
  }

  // ----- what was held back for it is released

  lemma {:induction false} SyncsAppend(a: seq<Dependent>, b: seq<Dependent>)
    ensures Syncs(a + b) == Syncs(a) + Syncs(b)
  {
  }

  lemma HeldBackSame(s: Connection, id: nat)
    ensures HeldBack(Release(s, id)) == HeldBack(s)
  {
    var n := Released(s.pending, id);
    var a, b := s.pending[..n], s.pending[n..];
    assert s.pending == a + b;
    SyncsAppend(a, b);
    assert s.submit + (Syncs(a) + Syncs(b)) == (s.submit + Syncs(a)) + Syncs(b);
  }

  lemma ReleaseConserves(s: Connection, id: nat)
    requires Conserved(s)
    ensures Conserved(Release(s, id))
  {
    HeldBackSame(s, id);
  }

  /** Those that wait for the op that went come first, so all of them are released. */
  lemma ReleasesAll(s: Connection, id: nat)
    requires Loose(s, id)
    ensures forall i | Released(s.pending, id) <= i < |s.pending| :: s.pending[i].write != id
  {
    var n := Released(s.pending, id);
    if n < |s.pending| { assert DependentOk(s.ops, s.pending[n], id); }
  }

  lemma ReleasedDependents(ops: seq<Op>, pending: seq<Dependent>, id: nat, n: nat)
    requires DependentsOk(ops, pending, id) && n <= |pending| && forall i | n <= i < |pending| :: pending[i].write != id
    ensures DependentsOk(ops, pending[n..], -1)
  {
    forall i | 0 <= i < |pending[n..]| ensures DependentOk(ops, pending[n..][i], -1) { assert DependentOk(ops, pending[n + i], id); }
  }

  lemma ReleasedSync(s: Connection, id: nat, i: nat)
    requires Loose(s, id) && i < Released(s.pending, id)
    ensures var y := s.pending[i].sync; y.kind.WriteSync? && WritesAnswered(s.ops, y.id) && y.id < s.arrived && !y.done
  {
    assert DependentOk(s.ops, s.pending[i], id) && WritesAnswered(s.ops, id);
  }

  lemma ReleaseKeeps(s: Connection, id: nat)
    requires Loose(s, id)
    ensures Inv(Release(s, id))
  {
    var t, n := Release(s, id), Released(s.pending, id);
    ReleaseConserves(s, id);
    ReleasesAll(s, id);
    ReleasedDependents(s.ops, s.pending, id, n);
    ReleaseSyncs(s, id);
  }

  lemma ReleaseSyncs(s: Connection, id: nat)
    requires Loose(s, id)
    ensures SyncsOk(Release(s, id)) && Fresh(Release(s, id))
  {
    var t := Release(s, id);
    forall i: nat | i < |t.submit| ensures SyncReady(t, t.submit[i]) { ReleasedSubmit(s, id, i); }
  }

  ghost predicate SyncReady(s: Connection, y: Op) {
    y.kind.WriteSync? && WritesAnswered(s.ops, y.id) && y.id < s.arrived && !y.done
  }

  lemma ReleasedSubmit(s: Connection, id: nat, i: nat)
    requires Loose(s, id) && i < |Release(s, id).submit|
    ensures SyncReady(Release(s, id), Release(s, id).submit[i])
  {
    if i >= |s.submit| {
      ReleasedSync(s, id, i - |s.submit|);
      assert Release(s, id).submit[i] == s.pending[i - |s.submit|].sync;
    }
  }

  // ----- a sync enters the queue

  lemma SumAssociates(a: seq<nat>, b: seq<nat>, c: seq<nat>)
    ensures a + (b + c) == (a + b) + c
  {
  }

  lemma EnterLine(answered: seq<Op>, ops: seq<Op>, entered: seq<Op>, op: Op)
    requires Line(answered) + Line(ops) == Line(entered)
    ensures Line(answered) + Line(ops + [op]) == Line(entered + [op])
  {
    LineAppended(ops, [op]);
    LineAppended(entered, [op]);
    SumAssociates(Line(answered), Line(ops), Line([op]));
  }

  lemma EnterBag(ops: seq<Op>, op: Op)
    ensures Bag(ops + [op]) == Bag(ops) + multiset{op.id}
  {
    BagAppended(ops, [op]);
    One(op);
  }

  /** One op enters at the back of the queue. */
  lemma EnterBack(answered: seq<Op>, ops: seq<Op>, entered: seq<Op>, op: Op)
    requires Bag(answered) + Bag(ops) == Bag(entered) && Line(answered) + Line(ops) == Line(entered)
    ensures Bag(answered) + Bag(ops + [op]) == Bag(entered + [op])
    ensures Line(answered) + Line(ops + [op]) == Line(entered + [op])
    ensures Bag(entered + [op]) == Bag(entered) + multiset{op.id}
  {
    EnterLine(answered, ops, entered, op);
    EnterBag(ops, op);
    EnterBag(entered, op);
  }

  lemma SubmitConserves(s: Connection)
    requires Conserved(s) && s.submit != []
    ensures var op := s.submit[0];
      Conserved(s.(submit := s.submit[1..], ops := s.ops + [op], entered := s.entered + [op]))
  {
    var op := s.submit[0];
    var t := s.(submit := s.submit[1..], ops := s.ops + [op], entered := s.entered + [op]);
    EnterBack(s.answered, s.ops, s.entered, op);
    assert HeldBack(s)[0] == op && HeldBack(s)[1..] == HeldBack(t);
  }

  /** An op that was held back is not in the queue. */
  lemma NotQueuedTwice(s: Connection, i: nat)
    requires Conserved(s) && s.submit != [] && i < |s.ops|
    ensures s.ops[i].id != s.submit[0].id
  {
    InBag(s.ops, i);
    InBag(HeldBack(s), 0);
    ArrivedOnce(s.arrived, s.submit[0].id);
  }

  lemma EnterDependents(ops: seq<Op>, pending: seq<Dependent>, op: Op)
    requires DependentsOk(ops, pending, -1)
    requires op.kind.Write? ==> forall i | 0 <= i < |pending| :: pending[i].sync.id < op.id
    ensures DependentsOk(ops + [op], pending, -1)
  {
    var more := ops + [op];
    forall i | 0 <= i < |pending| ensures DependentOk(more, pending[i], -1) {
      assert DependentOk(ops, pending[i], -1);
      var j: nat :| j < |ops| && ops[j].kind.Write? && ops[j].id == pending[i].write;
      assert more[j] == ops[j];
    }
  }

  lemma EnterWrites(ops: seq<Op>, op: Op)
    requires WritesInOrder(ops) && (forall i: nat | i < |ops| :: ops[i].id != op.id)
    requires op.kind.Write? ==> forall i | 0 <= i < |ops| :: ops[i].id < op.id
    ensures WritesInOrder(ops + [op])
  {
  }

  /** An op that is no write changes nothing for the syncs. */
  lemma EnterAnswered(ops: seq<Op>, op: Op, sync: int)
    requires WritesAnswered(ops, sync) && (op.kind.Write? ==> sync < op.id)
    ensures WritesAnswered(ops + [op], sync)
  {
  }

  lemma SubmitSyncs(s: Connection)
    requires SyncsOk(s) && s.submit != []
    ensures var op := s.submit[0];
      SyncsOk(s.(submit := s.submit[1..], ops := s.ops + [op], entered := s.entered + [op]))
  {
    var op := s.submit[0];
    forall i | 0 <= i < |s.submit| ensures WritesAnswered(s.ops + [op], s.submit[i].id) { EnterAnswered(s.ops, op, s.submit[i].id); }
    forall i | 0 <= i < |s.entered| && s.entered[i].kind.WriteSync? ensures WritesAnswered(s.ops + [op], s.entered[i].id) {
      EnterAnswered(s.ops, op, s.entered[i].id);
    }
  }

  lemma SubmitKeeps(s: Connection)
    requires Inv(s) && s.submit != []
    ensures var op := s.submit[0];
      Inv(s.(submit := s.submit[1..], ops := s.ops + [op], entered := s.entered + [op]))
  {
    var op := s.submit[0];
    SubmitConserves(s);
    SubmitSyncs(s);
    EnterDependents(s.ops, s.pending, op);
    SubmitWrites(s);
    SubmitFresh(s);
  }

  lemma SubmitFresh(s: Connection)
    requires Fresh(s) && s.submit != []
    ensures Fresh(s.(submit := s.submit[1..], ops := s.ops + [s.submit[0]], entered := s.entered + [s.submit[0]]))
  {
  }

  lemma SubmitWrites(s: Connection)
    requires Conserved(s) && WritesInOrder(s.ops) && s.submit != [] && s.submit[0].kind.WriteSync?
    ensures WritesInOrder(s.ops + [s.submit[0]])
  {
    forall i: nat | i < |s.ops| ensures s.ops[i].id != s.submit[0].id { NotQueuedTwice(s, i); }
    EnterWrites(s.ops, s.submit[0]);
  }

  // ----- an op is done

  lemma MarkConserves(s: Connection, id: nat)
    requires Conserved(s)
    ensures Conserved(s.(ops := MarkDone(s.ops, id)))
  {
    SameLine(s.ops, MarkDone(s.ops, id));
    assert HeldBack(s.(ops := MarkDone(s.ops, id))) == HeldBack(s);
  }

  lemma MarkDependents(ops: seq<Op>, pending: seq<Dependent>, id: nat)
    requires DependentsOk(ops, pending, -1)
    ensures DependentsOk(MarkDone(ops, id), pending, -1)
  {
    var marked := MarkDone(ops, id);
    forall i | 0 <= i < |pending| ensures DependentOk(marked, pending[i], -1) {
      assert DependentOk(ops, pending[i], -1);
      var j: nat :| j < |ops| && ops[j].kind.Write? && ops[j].id == pending[i].write;
      assert marked[j].kind.Write? && marked[j].id == pending[i].write;
    }
  }

  lemma MarkKeeps(s: Connection, id: nat)
    requires Inv(s)
    ensures Inv(s.(ops := MarkDone(s.ops, id)))
  {
    MarkConserves(s, id);
    MarkDependents(s.ops, s.pending, id);
    MarkSyncs(s, id);
  }

  lemma MarkSyncs(s: Connection, id: nat)
    requires SyncsOk(s) && Fresh(s) && WritesInOrder(s.ops)
    ensures var t := s.(ops := MarkDone(s.ops, id)); SyncsOk(t) && Fresh(t) && WritesInOrder(t.ops)
  {
    var t := s.(ops := MarkDone(s.ops, id));
    forall y: int | WritesAnswered(s.ops, y) ensures WritesAnswered(t.ops, y) {}
  }

  // ----- the handlers, which call each other

  lemma {:induction false} OpFinishedKeeps(s: Connection, id: nat, now: nat -> seq<nat>)
    requires Loose(s, id)
    ensures Inv(OpFinished(s, id, now))
    ensures s.submit == [] ==> OpFinished(s, id, now).submit == []
    decreases Waiting(s), |s.ops|, 1
  {
    ReleaseKeeps(s, id);
    if s.submit == [] { RunSubmitKeeps(Release(s, id), now); }
  }

  lemma {:induction false} RunSubmitKeeps(s: Connection, now: nat -> seq<nat>)
    requires Inv(s)
    ensures Inv(RunSubmit(s, now)) && RunSubmit(s, now).submit == []
    decreases Waiting(s), |s.ops|, 0
  {
    if s.submit != [] {
      var op := s.submit[0];
      var t := s.(submit := s.submit[1..], ops := s.ops + [op], entered := s.entered + [op]);
      SubmitKeeps(s);
      CompleteAllKeeps(t, now(op.id), now);
      RunSubmitKeeps(CompleteAll(t, now(op.id), now), now);
    }
  }

  lemma {:induction false} CompleteAllKeeps(s: Connection, ids: seq<nat>, now: nat -> seq<nat>)
    requires Inv(s)
    ensures Inv(CompleteAll(s, ids, now))
    ensures s.submit == [] ==> CompleteAll(s, ids, now).submit == []
    decreases Waiting(s), |s.ops|, 4 + |ids|
  {
    if ids != [] {
      CompleteKeeps(s, ids[0], now);
      CompleteAllKeeps(Complete(s, ids[0], now), ids[1..], now);
    }
  }

  /** What a completion comes to, once the op is marked. */
  lemma CompleteShape(s: Connection, id: nat, now: nat -> seq<nat>)
    ensures var t := s.(ops := MarkDone(s.ops, id)); var k := FindOp(t.ops, id);
      Complete(s, id, now) ==
      if k == |t.ops| then s
      else if !t.ops[0].done && !t.ops[k].Ordered() then OpFinished(Answer(t, k), id, now)
      else Drain(t, now)
  {
  }

  lemma {:induction false} CompleteKeeps(s: Connection, id: nat, now: nat -> seq<nat>)
    requires Inv(s)
    ensures Inv(Complete(s, id, now))
    ensures s.submit == [] ==> Complete(s, id, now).submit == []
    decreases Waiting(s), |s.ops|, 3
  {
    var t := s.(ops := MarkDone(s.ops, id));
    var k := FindOp(t.ops, id);
    CompleteShape(s, id, now);
    if k < |t.ops| {
      MarkKeeps(s, id);
      if !t.ops[0].done && !t.ops[k].Ordered() { OutOfOrderKeeps(t, k, now); } else { DrainKeeps(t, now); }
    }
  }

  lemma {:induction false} OutOfOrderKeeps(t: Connection, k: nat, now: nat -> seq<nat>)
    requires Inv(t) && k < |t.ops| && !t.ops[k].Ordered()
    ensures Inv(OpFinished(Answer(t, k), t.ops[k].id, now))
    ensures t.submit == [] ==> OpFinished(Answer(t, k), t.ops[k].id, now).submit == []
    decreases Waiting(t), |t.ops|, 2
  {
    AnswerLoose(t, k);
    OpFinishedKeeps(Answer(t, k), t.ops[k].id, now);
  }

  lemma {:induction false} DrainKeeps(s: Connection, now: nat -> seq<nat>)
    requires Inv(s)
    ensures Inv(Drain(s, now)) && (s.submit == [] ==> Drain(s, now).submit == [])
    ensures Drain(s, now).ops == [] || !Drain(s, now).ops[0].done
    decreases Waiting(s), |s.ops|, 2
  {
    if s.ops != [] && s.ops[0].done {
      AnswerLoose(s, 0);
      OpFinishedKeeps(Answer(s, 0), s.ops[0].id, now);
      DrainKeeps(OpFinished(Answer(s, 0), s.ops[0].id, now), now);
    }
  }

  // ----- no op that is done is held up at the head of the queue

  predicate HeadNotDone(s: Connection) { s.ops == [] || !s.ops[0].done }

  lemma {:induction false} OpFinishedHead(s: Connection, id: nat, now: nat -> seq<nat>)
    requires Loose(s, id) && HeadNotDone(s)
    ensures HeadNotDone(OpFinished(s, id, now))
    decreases Waiting(s), |s.ops|, 1
  {
    ReleaseKeeps(s, id);
    if s.submit == [] { RunSubmitHead(Release(s, id), now); }
  }

  lemma {:induction false} RunSubmitHead(s: Connection, now: nat -> seq<nat>)
    requires Inv(s) && HeadNotDone(s)
    ensures HeadNotDone(RunSubmit(s, now))
    decreases Waiting(s), |s.ops|, 0
  {
    if s.submit != [] {
      var op := s.submit[0];
      var t := s.(submit := s.submit[1..], ops := s.ops + [op], entered := s.entered + [op]);
      SubmitKeeps(s);
      CompleteAllKeeps(t, now(op.id), now);
      CompleteAllHead(t, now(op.id), now);
      RunSubmitHead(CompleteAll(t, now(op.id), now), now);
    }
  }

  lemma {:induction false} CompleteAllHead(s: Connection, ids: seq<nat>, now: nat -> seq<nat>)
    requires Inv(s) && HeadNotDone(s)
    ensures HeadNotDone(CompleteAll(s, ids, now))
    decreases Waiting(s), |s.ops|, 4 + |ids|
  {
    if ids != [] {
      CompleteKeeps(s, ids[0], now);
      CompleteHead(s, ids[0], now);
      CompleteAllHead(Complete(s, ids[0], now), ids[1..], now);
    }
  }

  lemma {:induction false} CompleteHead(s: Connection, id: nat, now: nat -> seq<nat>)
    requires Inv(s) && HeadNotDone(s)
    ensures HeadNotDone(Complete(s, id, now))
    decreases Waiting(s), |s.ops|, 3
  {
    var t := s.(ops := MarkDone(s.ops, id));
    var k := FindOp(t.ops, id);
    MarkKeeps(s, id);
    CompleteShape(s, id, now);
    if k < |t.ops| {
      if !t.ops[0].done && !t.ops[k].Ordered() {
        AnswerLoose(t, k);
        OpFinishedHead(Answer(t, k), id, now);
      } else {
        DrainKeeps(t, now);
      }
    }
  }

  // ----- a connection that is closed

  lemma MarkRest(ops: seq<Op>, id: nat)
    requires ops != [] && ops[0].id != id
    ensures MarkDone(ops, id)[0] == ops[0] && MarkDone(ops, id)[1..] == MarkDone(ops[1..], id)
  {
    assert FindOp(ops, id) == 1 + FindOp(ops[1..], id);
  }

  lemma {:induction false} MarkAllRest(ops: seq<Op>, ids: seq<nat>)
    requires ops != []
    ensures MarkAll(ops, ops[0].id, ids)[0] == ops[0]
    ensures MarkAll(ops, ops[0].id, ids)[1..] == MarkAll(ops[1..], ops[0].id, ids)
    decreases |ids|
  {
    if ids != [] {
      if ids[0] == ops[0].id {
        MarkAllRest(ops, ids[1..]);
      } else {
        MarkRest(ops, ids[0]);
        MarkAllRest(MarkDone(ops, ids[0]), ids[1..]);
      }
    }
  }

  /** Ops go to the back and come off the front: the two do not get in each other's way. */
  lemma {:induction false} ClosingCommutes(s: Connection, now: nat -> seq<nat>)
    requires s.ops != []
    ensures Answer(RunClosing(s, s.ops[0].id, now), 0) == RunClosing(Answer(s, 0), s.ops[0].id, now)
    decreases |s.submit|
  {
    if s.submit != [] {
      var op, head := s.submit[0], s.ops[0].id;
      var t := s.(submit := s.submit[1..], ops := MarkAll(s.ops + [op], head, now(op.id)), entered := s.entered + [op]);
      MarkAllRest(s.ops + [op], now(op.id));
      ClosingCommutes(t, now);
      assert (s.ops + [op])[1..] == s.ops[..0] + s.ops[1..] + [op];
      assert t.ops[..0] + t.ops[1..] == t.ops[1..];
      var u := Answer(s, 0);
      assert Answer(t, 0) == u.(submit := u.submit[1..], ops := MarkAll(u.ops + [op], head, now(op.id)), entered := u.entered + [op]);
    }
  }

  lemma FinishCommutes(s: Connection, now: nat -> seq<nat>)
    requires s.ops != []
    ensures Answer(FinishClosing(s, s.ops[0].id, now), 0) == FinishClosing(Answer(s, 0), s.ops[0].id, now)
  {
    var id := s.ops[0].id;
    assert Answer(Release(s, id), 0) == Release(Answer(s, 0), id);
    if s.submit == [] { ClosingCommutes(Release(s, id), now); }
  }

  lemma {:induction false} MarkAllKeeps(s: Connection, head: nat, ids: seq<nat>)
    requires Inv(s)
    ensures Inv(s.(ops := MarkAll(s.ops, head, ids)))
    decreases |ids|
  {
    if ids == [] {
      assert s.(ops := s.ops) == s;
    } else if ids[0] == head {
      MarkAllKeeps(s, head, ids[1..]);
    } else {
      MarkKeeps(s, ids[0]);
      MarkAllKeeps(s.(ops := MarkDone(s.ops, ids[0])), head, ids[1..]);
    }
  }

  lemma {:induction false} RunClosingKeeps(s: Connection, head: nat, now: nat -> seq<nat>)
    requires Inv(s)
    ensures Inv(RunClosing(s, head, now)) && RunClosing(s, head, now).submit == []
    decreases |s.submit|
  {
    if s.submit != [] {
      var op := s.submit[0];
      var t := s.(submit := s.submit[1..], ops := s.ops + [op], entered := s.entered + [op]);
      SubmitKeeps(s);
      MarkAllKeeps(t, head, now(op.id));
      RunClosingKeeps(t.(ops := MarkAll(t.ops, head, now(op.id))), head, now);
    }
  }

  lemma {:induction false} DrainClosingKeeps(s: Connection, now: nat -> seq<nat>)
    requires Inv(s) && s.submit == []
    ensures Inv(DrainClosing(s, now)) && DrainClosing(s, now).submit == [] && HeadNotDone(DrainClosing(s, now))
    decreases Waiting(s), |s.ops|
  {
    if s.ops != [] && s.ops[0].done {
      var id := s.ops[0].id;
      FinishCommutes(s, now);
      AnswerLoose(s, 0);
      ReleaseKeeps(Answer(s, 0), id);
      RunClosingKeeps(Release(Answer(s, 0), id), id, now);
      DrainClosingKeeps(Answer(FinishClosing(s, id, now), 0), now);
    }
  }

  lemma CompleteClosingKeeps(s: Connection, id: nat, now: nat -> seq<nat>)
    requires Inv(s) && s.submit == [] && HeadNotDone(s)
    ensures var t := CompleteClosing(s, id, now); Inv(t) && t.submit == [] && HeadNotDone(t)
  {
    var t := s.(ops := MarkDone(s.ops, id));
    MarkKeeps(s, id);
    if t.ops != [] && t.ops[0].id == id { DrainClosingKeeps(t, now); }
  }

  // ----- a command arrives

  lemma ArriveConserves(s: Connection, op: Op)
    requires Conserved(s) && op.id == s.arrived
    ensures Conserved(s.(arrived := s.arrived + 1, ops := s.ops + [op], entered := s.entered + [op]))
  {
    var t := s.(arrived := s.arrived + 1, ops := s.ops + [op], entered := s.entered + [op]);
    EnterBack(s.answered, s.ops, s.entered, op);
    assert HeldBack(t) == HeldBack(s);
  }

  lemma HoldConserves(s: Connection, p: Dependent)
    requires Conserved(s) && p.sync.id == s.arrived
    ensures Conserved(s.(arrived := s.arrived + 1, pending := s.pending + [p]))
  {
    var t := s.(arrived := s.arrived + 1, pending := s.pending + [p]);
    assert HeldBack(t) == HeldBack(s) + [p.sync];
    EnterBag(HeldBack(s), p.sync);
  }

  lemma EnterKeeps(s: Connection, op: Op)
    requires Inv(s) && op.id == s.arrived && (op.kind.WriteSync? ==> LastWrite(s.ops) < 0)
    ensures Inv(s.(arrived := s.arrived + 1, ops := s.ops + [op], entered := s.entered + [op]))
  {
    ArriveConserves(s, op);
    EnterDependents(s.ops, s.pending, op);
    EnterWrites(s.ops, op);
    forall i: nat | i < |s.entered| ensures s.entered[i].id < s.arrived { EnteredBefore(s, i); }
    EnterSyncs(s, op);
  }

  lemma EnteredBefore(s: Connection, i: nat)
    requires Conserved(s) && i < |s.entered|
    ensures s.entered[i].id < s.arrived
  {
    InBag(s.entered, i);
    ArrivedOnce(s.arrived, s.entered[i].id);
  }

  lemma EnterSyncs(s: Connection, op: Op)
    requires SyncsOk(s) && Fresh(s) && op.id == s.arrived && (op.kind.WriteSync? ==> LastWrite(s.ops) < 0)
    requires forall i: nat | i < |s.entered| :: s.entered[i].id < s.arrived
    ensures var t := s.(arrived := s.arrived + 1, ops := s.ops + [op], entered := s.entered + [op]); SyncsOk(t) && Fresh(t)
  {
    forall i | 0 <= i < |s.submit| ensures WritesAnswered(s.ops + [op], s.submit[i].id) { EnterAnswered(s.ops, op, s.submit[i].id); }
    forall i: nat | i < |s.entered| && s.entered[i].kind.WriteSync? ensures WritesAnswered(s.ops + [op], s.entered[i].id) {
      EnterAnswered(s.ops, op, s.entered[i].id);
    }
  }

  lemma HoldKeeps(s: Connection, w: nat, op: Op)
    requires Inv(s) && op.id == s.arrived && op.kind.WriteSync? && !op.done && w < |s.ops| && w == LastWrite(s.ops)
    ensures Inv(s.(arrived := s.arrived + 1, pending := s.pending + [Dependent(s.ops[w].id, op)]))
  {
    var p := Dependent(s.ops[w].id, op);
    HoldConserves(s, p);
    HoldDependents(s.ops, s.pending, w, p);
  }

  lemma BelowLast(ops: seq<Op>, w: nat, i: nat)
    requires WritesInOrder(ops) && w < |ops| && w == LastWrite(ops) && i < |ops| && ops[i].kind.Write?
    ensures ops[i].id <= ops[w].id
  {
    assert i <= w;
  }

  lemma HoldDependents(ops: seq<Op>, pending: seq<Dependent>, w: nat, p: Dependent)
    requires DependentsOk(ops, pending, -1) && WritesInOrder(ops) && w < |ops| && w == LastWrite(ops)
    requires p.write == ops[w].id < p.sync.id && p.sync.kind.WriteSync?
    ensures DependentsOk(ops, pending + [p], -1)
  {
    forall i: nat | i < |ops| && ops[i].kind.Write? ensures ops[i].id <= p.write { BelowLast(ops, w, i); }
    assert HasWrite(ops, p.write);
    forall i | 0 <= i < |pending| ensures pending[i].write <= p.write { assert DependentOk(ops, pending[i], -1); }
  }

  // ----- runs

  datatype Event =
    | Command(kind: Kind, now: nat -> seq<nat>)
    | Done(id: nat, now: nat -> seq<nat>)
    | DoneAfterClose(id: nat, now: nat -> seq<nat>)

  function Step(s: Connection, e: Event): Connection {
    match e
    case Command(kind, now) => Arrive(s, kind, now)
    case Done(id, now) => Complete(s, id, now)
    case DoneAfterClose(id, now) => CompleteClosing(s, id, now)
  }

  function Run(events: seq<Event>): Connection {
    if events == [] then NEW_CONNECTION else Step(Run(events[..|events| - 1]), events[|events| - 1])
  }

  lemma ArriveKeeps(s: Connection, kind: Kind, now: nat -> seq<nat>)
    requires Inv(s) && s.submit == [] && HeadNotDone(s)
    ensures Inv(Arrive(s, kind, now)) && Arrive(s, kind, now).submit == [] && HeadNotDone(Arrive(s, kind, now))
  {
    var op, w := Op(s.arrived, kind, false), LastWrite(s.ops);
    if kind.WriteSync? && w >= 0 {
      HoldKeeps(s, w, op);
      assert Arrive(s, kind, now) == s.(arrived := s.arrived + 1, pending := s.pending + [Dependent(s.ops[w].id, op)]);
    } else {
      var u := s.(arrived := s.arrived + 1, ops := s.ops + [op], entered := s.entered + [op]);
      EnterKeeps(s, op);
      CompleteAllKeeps(u, now(op.id), now);
      CompleteAllHead(u, now(op.id), now);
      assert Arrive(s, kind, now) == CompleteAll(u, now(op.id), now);
    }
  }

  lemma StepKeeps(s: Connection, e: Event)
    requires Inv(s) && s.submit == [] && HeadNotDone(s)
    ensures Inv(Step(s, e)) && Step(s, e).submit == [] && HeadNotDone(Step(s, e))
  {
    if e.Command? { ArriveKeeps(s, e.kind, e.now); }
    else if e.DoneAfterClose? { CompleteClosingKeeps(s, e.id, e.now); }
    else {
      CompleteKeeps(s, e.id, e.now);
      CompleteHead(s, e.id, e.now);
    }
  }

  lemma {:induction false} Reachable(events: seq<Event>)
    ensures Inv(Run(events)) && Run(events).submit == [] && HeadNotDone(Run(events))
  {
    if events != [] {
      Reachable(events[..|events| - 1]);
      StepKeeps(Run(events[..|events| - 1]), events[|events| - 1]);
    } else {
      assert HeldBack(NEW_CONNECTION) == [];
    }
  }

  // ----- what clients can rely on

  /**
   Everything that arrived is answered, in the queue or waiting for a write, and that exactly once; the ops that
   are answered in order have been answered in the order in which they were queued.
   */
  lemma AnsweredOnceInOrder(events: seq<Event>)
    ensures var s := Run(events);
      && Bag(s.answered) + Bag(s.ops) + Bag(Syncs(s.pending)) == Arrivals(s.arrived)
      && Line(s.answered) <= Line(s.entered)
  {
    Reachable(events);
    OnlySyncsHeld(Run(events));
  }

  lemma OnlySyncsHeld(s: Connection)
    requires Conserved(s) && s.submit == []
    ensures Bag(s.answered) + Bag(s.ops) + Bag(Syncs(s.pending)) == Arrivals(s.arrived)
  {
    assert HeldBack(s) == Syncs(s.pending);
  }

  /** When a write sync has been let into the queue, all writes that arrived before it have been answered. */
  lemma SyncAfterWrites(events: seq<Event>, i: nat, j: nat)
    requires i < |Run(events).entered| && Run(events).entered[i].kind.WriteSync?
    requires j < |Run(events).ops| && Run(events).ops[j].kind.Write?
    ensures Run(events).entered[i].id < Run(events).ops[j].id
  {
    Reachable(events);
    assert WritesAnswered(Run(events).ops, Run(events).entered[i].id);
  }

  /** A sync that still waits, waits for a write that is still in the queue: once the queue is empty none is left. */
  lemma NoSyncStranded(events: seq<Event>, i: nat)
    requires i < |Run(events).pending|
    ensures HasWrite(Run(events).ops, Run(events).pending[i].write)
    ensures Run(events).ops != []
  {
    Reachable(events);
    assert DependentOk(Run(events).ops, Run(events).pending[i], -1);
  }
}
