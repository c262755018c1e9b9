/** An append that meets a healthy chain gets into every log and is acknowledged, however long the chain. */
module ChainRoundTrip {
  import opened Common
  import opened RecordAppender
  import opened Chain
  import opened ChainInvariant
  import opened ChainAppend
  import opened ChainSteps
  import opened ChainReplies
  import opened ChainTheorems
  import opened ChainSafety
  import opened AppendAccept
  import opened ChainTakes

  /** All servers are open, and nothing is in flight. */
  predicate Idle(s: System) {
    forall i: nat | i < |s.nodes| ::
      s.nodes[i].app.IsOpen() && s.nodes[i].app.inFlight == [] && s.nodes[i].inbox == [] && s.nodes[i].outbox == []
  }

  /** Everything the master passed on is in every log, and committed. */
  lemma {:induction false} IdleSame(s: System, i: nat)
    requires Inv(s) && Idle(s) && i < |s.nodes|
    ensures var c, n := ContextOf(s), s.nodes[i];
      && n.begun == n.committed == |s.hist| && n.app.log == LogAt(c, |s.hist|) && n.app.nextCommit == |n.app.log|
      && (i > 0 ==> n.app.nextOffset == |n.app.log|)
  {
    var c := ContextOf(s);
    assert NodeOk(c, i, s.nodes[i]) && EndsOk(s);
    if i > 0 {
      IdleSame(s, i - 1);
      assert LinkOk(c, i - 1, s.nodes[i - 1], s.nodes[i - 1 + 1]);
    }
  }

  /** A client's append, and an environment in which nothing goes wrong. */
  function Request(s: System, w: int, data: seq<Byte>, clientSeq: int): Event {
    ClientAppend(w, data, clientSeq, s.version, BeginEnv(0, 1, true, true, true, None))
  }

  /** The write id is known to every server and was not inquired about, and the master has room and space for the data. */
  predicate Welcome(s: System, w: int, data: seq<Byte>) {
    && |s.nodes| > 0 && data != []
    && (forall i: nat | i < |s.nodes| :: w in s.nodes[i].app.wids && !s.nodes[i].app.wids[w].readOnly)
    && var a := s.nodes[0].app;
    && a.nextOffset == |a.log| && |a.log| + |data| <= CHUNKSIZE
    && a.wids[w].status.Success? && |data| <= a.wids[w].reserved && |data| <= a.bytesReserved
  }

  /** The server has the append, and waits for the answer. */
  predicate Waits(n: Node, m: Node, x: Op) {
    && m.app.IsOpen() && m.app.inFlight == [x] && m.app.log == n.app.log + x.data
    && m.inbox == [] && m.outbox == []
  }

  /** The server has the append, and answered it. */
  predicate Answered(n: Node, m: Node, x: Op) {
    m.app.IsOpen() && m.app.inFlight == [] && m.app.log == n.app.log + x.data && m.inbox == []
  }

  ghost predicate Same(s: System, t: System, x: Op) {
    && Inv(t) && |t.nodes| == |s.nodes| && t.version == s.version == x.version && t.hist == s.hist + [x]
    && (x.data != [] || x.IsAck()) && x.id == |s.hist|
    && (1 < |t.nodes| ==> t.nodes[0].app.ackSent == x.masterCommitted)
  }

  /** Servers up to `j` have the append; it is on the wire to the next one. */
  ghost predicate Outbound(s: System, t: System, x: Op, j: nat) {
    Same(s, t, x) && TakenUpTo(s, t, x, j)
  }

  predicate TakenUpTo(s: System, t: System, x: Op, j: nat) {
    && j + 1 < |s.nodes| == |t.nodes|
    && (forall i: nat | i <= j :: Waits(s.nodes[i], t.nodes[i], x))
    && t.nodes[j + 1] == s.nodes[j + 1].(inbox := [Append(x)])
    && (forall i: nat | j + 1 < i < |s.nodes| :: t.nodes[i] == s.nodes[i])
  }

  /** All have it; servers from `j` on have answered, and the answer of `j` is on the wire. */
  ghost predicate Inbound(s: System, t: System, x: Op, j: nat) {
    Same(s, t, x) && AnsweredFrom(s, t, x, j)
  }

  predicate AnsweredFrom(s: System, t: System, x: Op, j: nat) {
    && j < |s.nodes| == |t.nodes|
    && (forall i: nat | i < j :: Waits(s.nodes[i], t.nodes[i], x))
    && (forall i: nat | j <= i < |s.nodes| :: Answered(s.nodes[i], t.nodes[i], x))
    && (forall i: nat | j <= i < |s.nodes| :: t.nodes[i].outbox == if i == j && j > 0 then [Reply(x.id, true)] else [])
  }

  // ----- the master

  lemma StaysSound(s: System, e: Event)
    requires Inv(s) && Harmless(s, e)
    ensures Inv(Step(s, e)) && |Step(s, e).nodes| == |s.nodes| && Step(s, e).version == s.version
  {
    StepKeeps(s, e);
    StepFrame(s, e);
  }

  lemma MasterReady(s: System, w: int, data: seq<Byte>, clientSeq: int)
    requires Inv(s) && Idle(s) && Welcome(s, w, data)
    ensures var e := Request(s, w, data, clientSeq); MasterTakes(s.nodes[0].app, ClientOp(s, e), e.env)
  {
    NodeFacts(s, 0);
  }

  /** The wires after the master took the append. */
  lemma MasterWires(s: System, op: Op, env: BeginEnv)
    requires |s.nodes| > 0
    ensures var t, b := StepMaster(s, op, false, env), AppendBegin(s.nodes[0].app, op, false, env).0;
      && |t.nodes| == |s.nodes| && t.nodes[0].inbox == s.nodes[0].inbox && t.nodes[0].outbox == s.nodes[0].outbox
      && (1 < |s.nodes| && b.forwarded ==> t.nodes[1] == s.nodes[1].(inbox := s.nodes[1].inbox + [Append(b.op)]))
      && (forall i: nat | 1 < i < |s.nodes| :: t.nodes[i] == s.nodes[i])
  {
  }

  lemma MasterForwarded(s: System, w: int, data: seq<Byte>, clientSeq: int) returns (x: Op)
    requires Inv(s) && Idle(s) && Welcome(s, w, data) && 1 < |s.nodes|
    ensures x.writeId == w && x.data == data && x.fileOffset == |s.nodes[0].app.log| && x.masterCommitted == s.nodes[0].app.nextCommit
    ensures Outbound(s, Step(s, Request(s, w, data, clientSeq)), x, 0)
  {
    var e := Request(s, w, data, clientSeq);
    var op := ClientOp(s, e);
    NodeFacts(s, 0);
    MasterReady(s, w, data, clientSeq);
    MasterBeginIff(s.nodes[0].app, op, e.env);
    MasterAppendLog(s.nodes[0].app, op, e.env);
    MasterShape(s, op, e.env);
    MasterWires(s, op, e.env);
    assert Harmless(s, e);
    StaysSound(s, e);
    x := AppendBegin(s.nodes[0].app, op, false, e.env).0.op;
    assert s.nodes[1].inbox + [Append(x)] == [Append(x)];
  }

  // ----- on the way down

  lemma SlaveReady(s: System, x: Op, i: nat)
    requires Inv(s) && Idle(s) && Welcome(s, x.writeId, x.data) && 0 < i < |s.nodes|
    requires x.fileOffset == |s.nodes[0].app.log| && x.masterCommitted == s.nodes[0].app.nextCommit
    ensures Ready(s.nodes[i].app, x, true, true)
  {
    IdleSame(s, 0);
    IdleSame(s, i);
    RowOver(s, i, x.writeId);
  }

  /** In an idle chain the last append with an id is committed. */
  lemma RowOver(s: System, i: nat, w: int)
    requires Inv(s) && Idle(s) && 0 < i < |s.nodes| && w in s.nodes[i].app.wids
    ensures var ws := s.nodes[i].app.wids[w]; ws.status.Success? || (ws.status.InProgress? && ws.End() <= s.nodes[0].app.nextCommit)
  {
    var c, n := ContextOf(s), s.nodes[i];
    IdleSame(s, 0);
    IdleSame(s, i);
    assert NodeOk(c, i, n) && RowOk(c, n, w);
    if n.app.wids[w].offset >= 0 {
      var k := n.last[w];
      LogSlice(c, k, |s.hist|);
      assert WellPlaced(c, k);
    }
  }

  lemma DeliverWires(s: System, i: nat, op: Op)
    requires 0 < i < |s.nodes| && s.nodes[i].inbox != [] && s.nodes[i].inbox[0] == Append(op)
    ensures var t, b := Step(s, Deliver(i, true, true)), AppendBegin(s.nodes[i].app, op, false, SlaveEnv(i, true, true)).0;
      && |t.nodes| == |s.nodes| && t.nodes[i].inbox == s.nodes[i].inbox[1..]
      && (i + 1 < |s.nodes| && b.forwarded ==> t.nodes[i + 1] == s.nodes[i + 1].(inbox := s.nodes[i + 1].inbox + [Append(op)]))
      && (forall j: nat | j < |s.nodes| && j != i && j != i + 1 :: t.nodes[j] == s.nodes[j])
  {
  }

  /** Server `j + 1` took the append, and passed it on or answered it. */
  predicate NextTook(s: System, t: System, u: System, x: Op, j: nat) {
    var i := j + 1;
    && i < |s.nodes| == |t.nodes| == |u.nodes|
    && u.nodes[i].inbox == [] && u.nodes[i].app.log == s.nodes[i].app.log + x.data && u.nodes[i].app.IsOpen()
    && (forall k: nat | k < |s.nodes| && k != i && k != i + 1 :: u.nodes[k] == t.nodes[k])
    && (if i + 1 < |s.nodes| then
          u.nodes[i].outbox == t.nodes[i].outbox && u.nodes[i].app.inFlight == t.nodes[i].app.inFlight + [x]
          && u.nodes[i + 1] == t.nodes[i + 1].(inbox := t.nodes[i + 1].inbox + [Append(x)])
        else u.nodes[i].outbox == t.nodes[i].outbox + [Reply(x.id, true)])
  }

  /** The next server takes the append. */
  lemma NextTakes(s: System, t: System, x: Op, j: nat)
    requires Outbound(s, t, x, j) && Ready(s.nodes[j + 1].app, x, true, true)
    ensures var u := Step(t, Deliver(j + 1, true, true)); Same(s, u, x) && NextTook(s, t, u, x, j)
  {
    var i, e := j + 1, Deliver(j + 1, true, true);
    assert Arrives(t, i, x);
    DeliverOutcome(t, i, x, true, true);
    DeliverWires(t, i, x);
    ReadyIsTakes(t, i, x, true, true);
    NodeFacts(t, i);
    SlaveAppendIff(t.nodes[i].app, x, SlaveEnv(i, true, true));
    assert Harmless(t, e);
    StaysSound(t, e);
  }

  lemma OutboundStep(s: System, t: System, x: Op, j: nat)
    requires Idle(s) && Outbound(s, t, x, j) && Ready(s.nodes[j + 1].app, x, true, true)
    ensures var u := Step(t, Deliver(j + 1, true, true));
      if j + 2 < |s.nodes| then Outbound(s, u, x, j + 1) else Inbound(s, u, x, j + 1)
  {
    NextTakes(s, t, x, j);
    var u := Step(t, Deliver(j + 1, true, true));
    if j + 2 == |s.nodes| { TailIdle(u); }
    TakenOneMore(s, t, u, x, j);
  }

  lemma TakenOneMore(s: System, t: System, u: System, x: Op, j: nat)
    requires Idle(s) && TakenUpTo(s, t, x, j) && NextTook(s, t, u, x, j)
    requires j + 2 == |s.nodes| ==> u.nodes[j + 1].app.inFlight == []
    ensures if j + 2 < |s.nodes| then TakenUpTo(s, u, x, j + 1) else AnsweredFrom(s, u, x, j + 1)
  {
    if j + 2 < |s.nodes| { assert s.nodes[j + 2].inbox + [Append(x)] == [Append(x)]; }
  }

  lemma TailIdle(u: System)
    requires Inv(u) && |u.nodes| > 0 && u.nodes[|u.nodes| - 1].app.IsOpen()
    ensures u.nodes[|u.nodes| - 1].app.inFlight == []
  {
    assert NodeOk(ContextOf(u), |u.nodes| - 1, u.nodes[|u.nodes| - 1]) && EndsOk(u);
  }

  // ----- on the way back

  /** The answer is that for the oldest append in flight, and committing it is harmless. */
  lemma AnswerFits(s: System, t: System, x: Op, j: nat)
    requires Inbound(s, t, x, j + 1)
    ensures !ReplyKills(t, j) && t.nodes[j].committed < |t.hist| && t.hist[t.nodes[j].committed] == x
  {
    var c, n, down := ContextOf(t), t.nodes[j], t.nodes[j + 1];
    assert Waits(s.nodes[j], n, x) && Answered(s.nodes[j + 1], down, x);
    assert NodeOk(c, j, n) && NodeOk(c, j + 1, down) && LinkOk(c, j, n, down);
    ReplyFacts(c, j, n, down);
    assert t.hist[n.committed] == x;
  }

  lemma InboundStep(s: System, t: System, x: Op, j: nat)
    requires Inbound(s, t, x, j + 1)
    ensures Inbound(s, Step(t, TakeReply(j)), x, j)
  {
    assert Waits(s.nodes[j], t.nodes[j], x) && Answered(s.nodes[j + 1], t.nodes[j + 1], x);
    AnswerFits(s, t, x, j);
    assert Harmless(t, TakeReply(j));
    StaysSound(t, TakeReply(j));
    AnswerOutcome(t, j);
    InboundFrame(s, t, x, j);
    AnswersMoveUp(s, t, Step(t, TakeReply(j)), x, j);
  }

  lemma AnswersMoveUp(s: System, t: System, u: System, x: Op, j: nat)
    requires AnsweredFrom(s, t, x, j + 1) && t.nodes[j].committed < |t.hist| && t.hist[t.nodes[j].committed] == x
    requires AnswerTaken(t, u, j) && u.nodes[j].inbox == t.nodes[j].inbox && u.nodes[j + 1] == t.nodes[j + 1].(outbox := [])
    ensures AnsweredFrom(s, u, x, j)
  {
    assert Waits(s.nodes[j], t.nodes[j], x) && Answered(s.nodes[j + 1], t.nodes[j + 1], x);
  }

  lemma InboundFrame(s: System, t: System, x: Op, j: nat)
    requires Inbound(s, t, x, j + 1)
    ensures var u := Step(t, TakeReply(j));
      |u.nodes| == |t.nodes| && u.nodes[j].inbox == t.nodes[j].inbox && u.nodes[j + 1] == t.nodes[j + 1].(outbox := [])
  {
  }

  // ----- the whole way

  function Deliveries(from: nat, n: nat): seq<Event>
    decreases n - from
  {
    if from >= n then [] else [Deliver(from, true, true)] + Deliveries(from + 1, n)
  }

  function Replies(j: nat): seq<Event> {
    if j == 0 then [] else [TakeReply(j - 1)] + Replies(j - 1)
  }

  /** The run leads from one state to the other. */
  ghost predicate Leads(s: System, events: seq<Event>, t: System) { Run(s, events) == t }

  lemma LeadsNowhere(s: System)
    ensures Leads(s, [], s)
  {
  }

  lemma LeadsOne(s: System, e: Event) returns (t: System)
    ensures t == Step(s, e) && Leads(s, [e], t)
  {
    t := Step(s, e);
    RunOne(s, e);
  }

  lemma LeadsOn(s: System, first: seq<Event>, t: System, second: seq<Event>, u: System)
    requires Leads(s, first, t) && Leads(t, second, u)
    ensures Leads(s, first + second, u)
  {
    RunAppend(s, first, second);
  }

  lemma DownOne(s: System, t: System, x: Op, j: nat) returns (u: System)
    requires Idle(s) && Outbound(s, t, x, j) && Ready(s.nodes[j + 1].app, x, true, true)
    ensures Leads(t, [Deliver(j + 1, true, true)], u)
    ensures if j + 2 < |s.nodes| then Outbound(s, u, x, j + 1) else Inbound(s, u, x, j + 1)
  {
    OutboundStep(s, t, x, j);
    u := LeadsOne(t, Deliver(j + 1, true, true));
  }

  lemma LastDown(s: System, t: System, x: Op, i: nat) returns (u: System)
    requires 0 < i && i + 1 == |s.nodes| && Idle(s) && Outbound(s, t, x, i - 1) && Ready(s.nodes[i].app, x, true, true)
    ensures Leads(t, Deliveries(i, |s.nodes|), u) && Inbound(s, u, x, i)
  {
    assert Deliveries(i, |s.nodes|) == [Deliver(i, true, true)];
    u := DownOne(s, t, x, i - 1);
  }

  lemma {:induction false} Descends(s: System, t: System, x: Op, i: nat) returns (u: System)
    requires Idle(s) && 0 < i < |s.nodes| && Outbound(s, t, x, i - 1)
    requires forall k: nat | 0 < k < |s.nodes| :: Ready(s.nodes[k].app, x, true, true)
    ensures Leads(t, Deliveries(i, |s.nodes|), u) && Inbound(s, u, x, |s.nodes| - 1)
    decreases |s.nodes| - i
  {
    if i + 1 == |s.nodes| { u := LastDown(s, t, x, i); return; }
    var v := DownOne(s, t, x, i - 1);
    u := Descends(s, v, x, i + 1);
    assert Deliveries(i, |s.nodes|) == [Deliver(i, true, true)] + Deliveries(i + 1, |s.nodes|);
    LeadsOn(t, [Deliver(i, true, true)], v, Deliveries(i + 1, |s.nodes|), u);
  }

  lemma UpOne(s: System, t: System, x: Op, j: nat) returns (u: System)
    requires Inbound(s, t, x, j + 1)
    ensures Leads(t, [TakeReply(j)], u) && Inbound(s, u, x, j)
  {
    InboundStep(s, t, x, j);
    u := LeadsOne(t, TakeReply(j));
  }

  lemma {:induction false} Ascends(s: System, t: System, x: Op, j: nat) returns (u: System)
    requires Inbound(s, t, x, j)
    ensures Leads(t, Replies(j), u) && Inbound(s, u, x, 0)
    decreases j
  {
    if j > 0 {
      var v := UpOne(s, t, x, j - 1);
      u := Ascends(s, v, x, j - 1);
      LeadsOn(t, [TakeReply(j - 1)], v, Replies(j - 1), u);
    } else {
      LeadsNowhere(t);
      u := t;
    }
  }

  /** A single server commits at once. */
  lemma AloneAnswers(s: System, w: int, data: seq<Byte>, clientSeq: int) returns (x: Op)
    requires Inv(s) && Idle(s) && Welcome(s, w, data) && |s.nodes| == 1
    ensures x.writeId == w && x.data == data && Inbound(s, Step(s, Request(s, w, data, clientSeq)), x, 0)
  {
    var e := Request(s, w, data, clientSeq);
    var op := ClientOp(s, e);
    NodeFacts(s, 0);
    MasterReady(s, w, data, clientSeq);
    MasterBeginIff(s.nodes[0].app, op, e.env);
    MasterAppendLog(s.nodes[0].app, op, e.env);
    MasterShape(s, op, e.env);
    MasterWires(s, op, e.env);
    AloneOpen(s.nodes[0].app, op, e.env);
    assert Harmless(s, e);
    StaysSound(s, e);
    TailIdle(Step(s, e));
    x := AppendBegin(s.nodes[0].app, op, false, e.env).0.op;
  }

  lemma AloneOpen(a: App, op: Op, env: BeginEnv)
    requires var b := Begin(a, op, false, env); b.status.Success? && !b.forwarded && b.app.IsOpen()
    ensures AppendBegin(a, op, false, env).0.app.IsOpen()
  {
  }

  lemma BackIsIdle(s: System, t: System, x: Op)
    requires Inbound(s, t, x, 0)
    ensures Idle(t)
    ensures forall i: nat | i < |t.nodes| ::
      && t.nodes[i].app.log == s.nodes[i].app.log + x.data
      && t.nodes[i].committed == |t.hist| == |s.hist| + 1 && t.nodes[i].app.nextCommit == |t.nodes[i].app.log|
  {
    forall i: nat | i < |t.nodes|
      ensures t.nodes[i].app.IsOpen() && t.nodes[i].app.inFlight == [] && t.nodes[i].inbox == [] && t.nodes[i].outbox == []
      ensures t.nodes[i].app.log == s.nodes[i].app.log + x.data
    {
      assert Answered(s.nodes[i], t.nodes[i], x);
    }
    forall i: nat | i < |t.nodes| ensures t.nodes[i].committed == |t.hist| && t.nodes[i].app.nextCommit == |t.nodes[i].app.log| {
      IdleSame(t, i);
    }
  }

  /** The run of an append through a chain of `n` servers, and of its acknowledgement back. */
  function RoundTrip(n: nat, request: Event): seq<Event>
    requires n > 0
  {
    [request] + (Deliveries(1, n) + Replies(n - 1))
  }

  /**
   An append that finds all servers open, nothing in flight, its write id known to all, and space reserved, is in
   every log at the end of its way through the chain, and committed by every server; and the chain is ready for the
   next one.
   */
  lemma AppendGoesThrough(s: System, w: int, data: seq<Byte>, clientSeq: int)
    requires Reached(s) && Idle(s) && Welcome(s, w, data)
    ensures var t := Run(s, RoundTrip(|s.nodes|, Request(s, w, data, clientSeq)));
      && Reached(t) && Idle(t) && |t.nodes| == |s.nodes| && |t.hist| == |s.hist| + 1
      && forall i: nat | i < |t.nodes| ::
           && t.nodes[i].app.log == s.nodes[i].app.log + data
           && t.nodes[i].committed == |t.hist| && t.nodes[i].app.nextCommit == |t.nodes[i].app.log|
  {
    ReachedInv(s);
    var x, t := Through(s, w, data, clientSeq);
    BackIsIdle(s, t, x);
    InvNoneDown(t);
    ReachedRun(s, RoundTrip(|s.nodes|, Request(s, w, data, clientSeq)));
  }

  lemma ReachedRun(s: System, events: seq<Event>)
    requires Reached(s) && NoneDown(Run(s, events))
    ensures Reached(Run(s, events))
  {
    var chunkId: int, version: int, numServers: nat, start: seq<Byte>, before: seq<Event> :|
      numServers > 0 && |start| <= CHUNKSIZE && s == Run(Init(chunkId, version, numServers, start), before);
    RunAppend(Init(chunkId, version, numServers, start), before, events);
  }

  lemma Through(s: System, w: int, data: seq<Byte>, clientSeq: int) returns (x: Op, t: System)
    requires Inv(s) && Idle(s) && Welcome(s, w, data)
    ensures Leads(s, RoundTrip(|s.nodes|, Request(s, w, data, clientSeq)), t) && Inbound(s, t, x, 0) && x.data == data
  {
    if |s.nodes| == 1 {
      x, t := StartAlone(s, w, data, clientSeq);
      assert RoundTrip(1, Request(s, w, data, clientSeq)) == [Request(s, w, data, clientSeq)];
    } else {
      x, t := ThroughChain(s, w, data, clientSeq);
    }
  }

  lemma ThroughChain(s: System, w: int, data: seq<Byte>, clientSeq: int) returns (x: Op, t: System)
    requires Inv(s) && Idle(s) && Welcome(s, w, data) && 1 < |s.nodes|
    ensures Leads(s, RoundTrip(|s.nodes|, Request(s, w, data, clientSeq)), t) && Inbound(s, t, x, 0) && x.data == data
  {
    var u: System;
    x, u := Start(s, w, data, clientSeq);
    t := DownAndUp(s, u, x);
    LeadsOn(s, [Request(s, w, data, clientSeq)], u, Deliveries(1, |s.nodes|) + Replies(|s.nodes| - 1), t);
  }

  lemma DownAndUp(s: System, u: System, x: Op) returns (t: System)
    requires Idle(s) && Outbound(s, u, x, 0)
    requires forall i: nat | 0 < i < |s.nodes| :: Ready(s.nodes[i].app, x, true, true)
    ensures Leads(u, Deliveries(1, |s.nodes|) + Replies(|s.nodes| - 1), t) && Inbound(s, t, x, 0)
  {
    var v := Descends(s, u, x, 1);
    t := UpAgain(s, u, v, x, |s.nodes| - 1, Deliveries(1, |s.nodes|));
  }

  lemma UpAgain(s: System, u: System, v: System, x: Op, j: nat, down: seq<Event>) returns (t: System)
    requires Inbound(s, v, x, j) && Leads(u, down, v)
    ensures Leads(u, down + Replies(j), t) && Inbound(s, t, x, 0)
  {
    t := Ascends(s, v, x, j);
    LeadsOn(u, down, v, Replies(j), t);
  }

  lemma StartAlone(s: System, w: int, data: seq<Byte>, clientSeq: int) returns (x: Op, t: System)
    requires Inv(s) && Idle(s) && Welcome(s, w, data) && |s.nodes| == 1
    ensures Leads(s, [Request(s, w, data, clientSeq)], t) && Inbound(s, t, x, 0) && x.data == data
  {
    x := AloneAnswers(s, w, data, clientSeq);
    t := LeadsOne(s, Request(s, w, data, clientSeq));
  }

  lemma Start(s: System, w: int, data: seq<Byte>, clientSeq: int) returns (x: Op, t: System)
    requires Inv(s) && Idle(s) && Welcome(s, w, data) && 1 < |s.nodes|
    ensures Leads(s, [Request(s, w, data, clientSeq)], t) && Outbound(s, t, x, 0) && x.data == data
    ensures forall i: nat | 0 < i < |s.nodes| :: Ready(s.nodes[i].app, x, true, true)
  {
    x := MasterForwarded(s, w, data, clientSeq);
    t := LeadsOne(s, Request(s, w, data, clientSeq));
    forall i: nat | 0 < i < |s.nodes| ensures Ready(s.nodes[i].app, x, true, true) { SlaveReady(s, x, i); }
  }

  // ----- the master's own append

  /** The master tells its slaves how far it committed. */
  function AckEvent(): Event { SendCommitAck(BeginEnv(0, 1, true, true, true, None)) }

  /** With slaves, and something to tell them. */
  predicate HasNews(s: System) {
    1 < |s.nodes| && CanSendCommitAck(s.nodes[0].app) && s.nodes[0].app.nextOffset == |s.nodes[0].app.log|
  }

  lemma AckShape(s: System)
    requires |s.nodes| > 0 && CanSendCommitAck(s.nodes[0].app)
    ensures var a := s.nodes[0].app;
      var op, env := CommitAck(s, a), BeginEnv(0, a.peer, true, true, true, None);
      && Step(s, AckEvent()) == StepMaster(s, op, true, env)
      && (Begin(a, op, true, env).forwarded ==> Begin(a, op, true, env).status.Success?)
  {
  }

  lemma AckWires(s: System, op: Op, env: BeginEnv)
    requires 1 < |s.nodes| && Begin(s.nodes[0].app, op, true, env).forwarded && Begin(s.nodes[0].app, op, true, env).status.Success?
    ensures var t, b := StepMaster(s, op, true, env), Begin(s.nodes[0].app, op, true, env);
      && |t.nodes| == |s.nodes| && t.hist == s.hist + [b.op] && t.nodes[0].app == b.app
      && t.nodes[0].inbox == s.nodes[0].inbox && t.nodes[0].outbox == s.nodes[0].outbox
      && t.nodes[1] == s.nodes[1].(inbox := s.nodes[1].inbox + [Append(b.op)])
      && (forall i: nat | 1 < i < |s.nodes| :: t.nodes[i] == s.nodes[i])
  {
  }

  lemma AckStart(s: System) returns (x: Op, t: System)
    requires Inv(s) && Idle(s) && HasNews(s)
    ensures Leads(s, [AckEvent()], t) && Outbound(s, t, x, 0) && x.data == [] && x.masterCommitted == s.nodes[0].app.nextCommit
    ensures forall i: nat | 0 < i < |s.nodes| :: Ready(s.nodes[i].app, x, true, true)
  {
    var a := s.nodes[0].app;
    var op, env := CommitAck(s, a), BeginEnv(0, a.peer, true, true, true, None);
    NodeFacts(s, 0);
    IdleSame(s, 0);
    AckFits(s);
    AckShape(s);
    MasterAckIff(a, op, env);
    AckWires(s, op, env);
    x := Begin(a, op, true, env).op;
    assert Harmless(s, AckEvent());
    StaysSound(s, AckEvent());
    t := LeadsOne(s, AckEvent());
    assert s.nodes[1].inbox + [Append(x)] == [Append(x)];
    forall i: nat | 0 < i < |s.nodes| ensures Ready(s.nodes[i].app, x, true, true) { AckReady(s, x, i); }
  }

  lemma AckFits(s: System)
    requires Inv(s) && |s.nodes| > 0
    ensures s.nodes[0].app.nextOffset <= CHUNKSIZE
  {
    assert NodeOk(ContextOf(s), 0, s.nodes[0]);
  }

  lemma AckReady(s: System, x: Op, i: nat)
    requires Inv(s) && Idle(s) && 0 < i < |s.nodes| && x.IsAck() && x.fileOffset == |s.nodes[0].app.log| <= CHUNKSIZE
    ensures Ready(s.nodes[i].app, x, true, true)
  {
    IdleSame(s, 0);
    IdleSame(s, i);
    NodeFacts(s, i);
  }

  /** The news reach every slave; the chain is idle again, and the master has nothing left to tell. */
  lemma NewsGoThrough(s: System) returns (t: System)
    requires Inv(s) && Idle(s) && HasNews(s)
    ensures Leads(s, RoundTrip(|s.nodes|, AckEvent()), t) && Inv(t) && Idle(t) && |t.nodes| == |s.nodes|
    ensures t.nodes[0].app.ackSent == t.nodes[0].app.nextCommit
    ensures forall i: nat | i < |t.nodes| :: t.nodes[i].app.log == s.nodes[i].app.log
  {
    var x, u := AckStart(s);
    t := DownAndUp(s, u, x);
    LeadsOn(s, [AckEvent()], u, Deliveries(1, |s.nodes|) + Replies(|s.nodes| - 1), t);
    NewsArrived(s, t, x);
  }

  lemma NewsArrived(s: System, t: System, x: Op)
    requires Inv(s) && Idle(s) && 1 < |s.nodes| && Inbound(s, t, x, 0) && x.data == [] && x.masterCommitted == s.nodes[0].app.nextCommit
    ensures Idle(t) && t.nodes[0].app.ackSent == t.nodes[0].app.nextCommit
    ensures forall i: nat | i < |t.nodes| :: t.nodes[i].app.log == s.nodes[i].app.log
  {
    BackIsIdle(s, t, x);
    IdleSame(s, 0);
    forall i: nat | i < |t.nodes| ensures t.nodes[i].app.log == s.nodes[i].app.log { assert s.nodes[i].app.log + [] == s.nodes[i].app.log; }
  }
}
