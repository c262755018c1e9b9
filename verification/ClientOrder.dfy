/**
 The operations of one client connection, from arrival to answer.

 Answers go out in the order in which operations were queued, except for write id allocations and record appends,
 which are answered as soon as they are done. A write sync waits outside the queue until the last write that came
 before it is answered. Operations may complete while one is being submitted, that one or others of the queue:
 `now` tells which ones do, and in which order.

 `id` numbers operations in the order of arrival. `entered` and `answered` are history; once the connection is closed,
 ops that are done are dropped instead of answered.
 */
module ClientOrder {

  datatype Kind = Write | WriteSync | WriteIdAlloc | RecordAppend | Other

  datatype Op = Op(id: nat, kind: Kind, done: bool)
  {
    /** Answered in order. */
    predicate Ordered() { !kind.WriteIdAlloc? && !kind.RecordAppend? }
  }

  /** A write sync that waits for a write. */
  datatype Dependent = Dependent(write: nat, sync: Op)

  datatype Connection = Connection(
    ops: seq<Op>, pending: seq<Dependent>, submit: seq<Op>,
    arrived: nat, entered: seq<Op>, answered: seq<Op>)

  const NEW_CONNECTION := Connection([], [], [], 0, [], [])

  function Waiting(s: Connection): nat { |s.pending| + |s.submit| }

  // ----- the handlers

  function FindOp(ops: seq<Op>, id: nat): (k: nat)
    ensures k <= |ops| && (k < |ops| ==> ops[k].id == id)
    ensures forall j | 0 <= j < k :: ops[j].id != id
  {
    if ops == [] || ops[0].id == id then 0 else 1 + FindOp(ops[1..], id)
  }

  /** The op with the id is done. */
  function MarkDone(ops: seq<Op>, id: nat): (r: seq<Op>)
    ensures |r| == |ops|
    ensures forall i | 0 <= i < |ops| :: r[i].id == ops[i].id && r[i].kind == ops[i].kind
    ensures forall i | 0 <= i < |ops| :: r[i].done == (ops[i].done || i == FindOp(ops, id))
  {
    var k := FindOp(ops, id);
    if k < |ops| then ops[k := ops[k].(done := true)] else ops
  }

  /** Answer the op at position `k`, and take it off the queue. */
  function Answer(s: Connection, k: nat): Connection
    requires k < |s.ops|
  {
    s.(ops := s.ops[..k] + s.ops[k + 1..], answered := s.answered + [s.ops[k]])
  }

  /** How many write syncs at the head of the list wait for the op. */
  function Released(pending: seq<Dependent>, id: nat): (n: nat)
    ensures n <= |pending|
    ensures forall i | 0 <= i < n :: pending[i].write == id
    ensures n < |pending| ==> pending[n].write != id
  {
    if pending == [] || pending[0].write != id then 0 else 1 + Released(pending[1..], id)
  }

  function Syncs(pending: seq<Dependent>): seq<Op> {
    seq(|pending|, i requires 0 <= i < |pending| => pending[i].sync)
  }

  function Release(s: Connection, id: nat): (t: Connection)
    ensures Waiting(t) == Waiting(s) && t.ops == s.ops
  {
    var n := Released(s.pending, id);
    s.(pending := s.pending[n..], submit := s.submit + Syncs(s.pending[..n]))
  }

  /** Submit what was held back for the op; a call further out may already be at it. */
  function OpFinished(s: Connection, id: nat, now: nat -> seq<nat>): (t: Connection)
    ensures Waiting(t) <= Waiting(s) && (Waiting(t) == Waiting(s) ==> t.ops == s.ops)
    decreases Waiting(s), |s.ops|, 1
  {
    var t := Release(s, id);
    if s.submit == [] then RunSubmit(t, now) else t
  }

  function RunSubmit(s: Connection, now: nat -> seq<nat>): (t: Connection)
    ensures Waiting(t) <= Waiting(s) && (Waiting(t) == Waiting(s) ==> t.ops == s.ops)
    decreases Waiting(s), |s.ops|, 0
  {
    if s.submit == [] then s
    else
      var op := s.submit[0];
      var t := s.(submit := s.submit[1..], ops := s.ops + [op], entered := s.entered + [op]);
      RunSubmit(CompleteAll(t, now(op.id), now), now)
  }

  /** One op after the other is done. */
  function CompleteAll(s: Connection, ids: seq<nat>, now: nat -> seq<nat>): (t: Connection)
    ensures Waiting(t) <= Waiting(s)
    decreases Waiting(s), |s.ops|, 4 + |ids|
  {
    if ids == [] then s else CompleteAll(Complete(s, ids[0], now), ids[1..], now)
  }

  /** An op is done: answer it and all that were waiting behind it. */
  function Complete(s: Connection, id: nat, now: nat -> seq<nat>): (t: Connection)
    ensures Waiting(t) <= Waiting(s) && (Waiting(t) == Waiting(s) ==> |t.ops| <= |s.ops|)
    decreases Waiting(s), |s.ops|, 3
  {
    var t := s.(ops := MarkDone(s.ops, id));
    var k := FindOp(t.ops, id);
    if k == |t.ops| then s
    else if !t.ops[0].done && !t.ops[k].Ordered() then OpFinished(Answer(t, k), id, now)
    else Drain(t, now)
  }

  function Drain(s: Connection, now: nat -> seq<nat>): (t: Connection)
    ensures Waiting(t) <= Waiting(s) && (Waiting(t) == Waiting(s) ==> |t.ops| <= |s.ops|)
    decreases Waiting(s), |s.ops|, 2
  {
    if s.ops == [] || !s.ops[0].done then s
    else Drain(OpFinished(Answer(s, 0), s.ops[0].id, now), now)
  }

  // ----- the handlers of a connection that is closed

  /** Ops that are done, other than `head`. */
  function MarkAll(ops: seq<Op>, head: nat, ids: seq<nat>): (r: seq<Op>)
    ensures |r| == |ops|
    decreases |ids|
  {
    if ids == [] then ops else MarkAll(if ids[0] == head then ops else MarkDone(ops, ids[0]), head, ids[1..])
  }

  /**
   Submit what was held back for the op `head`, which still heads the queue and is not done a second time.
   Whatever completes is only marked.
   */
  function RunClosing(s: Connection, head: nat, now: nat -> seq<nat>): (t: Connection)
    ensures Waiting(t) <= Waiting(s) && (Waiting(t) == Waiting(s) ==> t.ops == s.ops) && |t.ops| >= |s.ops|
    decreases |s.submit|
  {
    if s.submit == [] then s
    else
      var op := s.submit[0];
      RunClosing(s.(submit := s.submit[1..], ops := MarkAll(s.ops + [op], head, now(op.id)), entered := s.entered + [op]), head, now)
  }

  function FinishClosing(s: Connection, id: nat, now: nat -> seq<nat>): (t: Connection)
    ensures Waiting(t) <= Waiting(s) && (Waiting(t) == Waiting(s) ==> t.ops == s.ops) && |t.ops| >= |s.ops|
  {
    if s.submit == [] then RunClosing(Release(s, id), id, now) else Release(s, id)
  }

  /** Only the op at the head is ever dropped, after what waited for it was submitted. */
  function DrainClosing(s: Connection, now: nat -> seq<nat>): Connection
    decreases Waiting(s), |s.ops|
  {
    if s.ops == [] || !s.ops[0].done then s
    else DrainClosing(Answer(FinishClosing(s, s.ops[0].id, now), 0), now)
  }

  function CompleteClosing(s: Connection, id: nat, now: nat -> seq<nat>): Connection {
    var t := s.(ops := MarkDone(s.ops, id));
    if t.ops == [] || t.ops[0].id != id then t else DrainClosing(t, now)
  }

  /** The last write in the queue. */
  function LastWrite(ops: seq<Op>): (k: int)
    ensures -1 <= k < |ops|
    ensures k >= 0 ==> ops[k].kind.Write?
    ensures forall j | k < j < |ops| :: !ops[j].kind.Write?
  {
    if ops == [] then -1
    else if ops[|ops| - 1].kind.Write? then |ops| - 1
    else LastWrite(ops[..|ops| - 1])
  }

  /** A command arrived and was parsed. */
  function Arrive(s: Connection, kind: Kind, now: nat -> seq<nat>): Connection {
    var op := Op(s.arrived, kind, false);
    var t := s.(arrived := s.arrived + 1);
    var w := LastWrite(s.ops);
    if kind.WriteSync? && w >= 0 then t.(pending := t.pending + [Dependent(s.ops[w].id, op)])
    else
      var u := t.(ops := t.ops + [op], entered := t.entered + [op]);
      CompleteAll(u, now(op.id), now)
  }
}
