/**
 The replication chain as a transition system.

 Node 0 is the append master. Node i forwards what it accepted to node i + 1, and answers
 travel back. `inbox` is the wire from the predecessor to this node, `outbox` the wire back.
 Every wire is first in, first out, and may break: then the sender fails all it has in flight,
 an arbitrary tail of what is on the wire is lost, and late answers are dropped.

 `begun`, `committed`, `received`, `last`, `inquired`, `issued`, `hist` and `closed` are history:
 no step reads them to decide what to do, except that write ids are never handed out twice.
 */
module Chain {
  import opened Common
  import opened RecordAppender

  /** What a node sends to its successor. */
  datatype Packet =
    | Append(op: Op)
    | Close(writeId: int, committed: int)
  {
    function MasterCommitted(): int {
      if Append? then op.masterCommitted else committed
    }
  }

  datatype Reply = Reply(id: nat, ok: bool)

  datatype Node = Node(
    app: App,
    inbox: seq<Packet>,
    outbox: seq<Reply>,
    begun: nat,               // appends of `hist` in this node's log
    committed: nat,           // appends of `hist` this node committed
    received: nat,            // appends of `hist` taken off the inbox
    last: map<int, nat>,      // last append begun with a write id
    inquired: map<int, nat>,  // `begun` at the first inquiry for a write id
    issued: set<int>)

  /** The meta server's one decision, and the node whose size it took over. */
  datatype Decision = Decision(size: nat, source: nat)

  datatype System = System(
    version: int,             // version of the chunk
    start: seq<Byte>,         // content of the chunk when it was opened for append
    hist: seq<Op>,            // every append the master accepted and passed on
    nodes: seq<Node>,
    relinquished: Option<nat>,
    reports: map<nat, nat>,   // begin-make-stable replies
    decision: Option<Decision>,
    answers: set<Answer>,     // every answer given to a status inquiry
    closed: set<int>)         // write ids that the master closed

  datatype Event =
    | ClientAppend(writeId: int, data: seq<Byte>, clientSeq: int, version: int, env: BeginEnv)
    | SendCommitAck(env: BeginEnv)
    | Deliver(node: nat, checksumOk: bool, peerUp: bool)
    | TakeReply(node: nat)
    | LinkDown(node: nat, keep: nat)
    | Fail(node: nat)          // replication timeout, lost lease, malformed op at a slave
    | IdleClose
    | Allocate(node: nat, request: WriteIdRequest, maxWriteIds: nat)
    | Invalidate(node: nat, writeId: int, declareFailure: bool)
    | Reserve(writeId: int, bytes: nat, release: bool)
    | Inquire(node: nat, writeId: int)
    | ClientClose(writeId: int)
    | BeginStable(node: nat, version: int, ioInFlight: bool)
    | MakeStable(node: nat)
    | Finish(node: nat, written: nat, ioOk: bool)
    | DecideRelinquished
    | DecideShortest(source: nat, among: set<nat>)
    | Lose(node: nat)
    | Delete(node: nat)

  // ----- initial state

  function NewNode(chunkId: int, version: int, pos: nat, numServers: nat, start: seq<Byte>): Node {
    Node(NewAppender(chunkId, version, pos, numServers, pos + 1, start), [], [], 0, 0, 0, map[], map[], {})
  }

  function Init(chunkId: int, version: int, numServers: nat, start: seq<Byte>): System {
    System(version, start, [], seq(numServers, i requires 0 <= i => NewNode(chunkId, version, i, numServers, start)),
           None, map[], None, {}, {})
  }

  // ----- steps

  /** Put a packet on the wire to node `i`, if there is such a node. */
  function Send(nodes: seq<Node>, i: nat, p: Packet): seq<Node> {
    if i < |nodes| then nodes[i := nodes[i].(inbox := nodes[i].inbox + [p])] else nodes
  }

  /** Bookkeeping for an append that node `n` took into its log, or passed on. */
  function NoteBegun(n: Node, op: Op): Node {
    n.(begun := n.begun + 1, last := if op.IsAck() then n.last else n.last[op.writeId := n.begun])
  }

  /** An append starts at the master, from a client or generated by the master itself. */
  function StepMaster(s: System, op: Op, internal: bool, env: BeginEnv): System
    requires |s.nodes| > 0
  {
    var n := s.nodes[0];
    var (b, ok) := AppendBegin(n.app, op, internal, env);
    if !b.status.Success? then s.(nodes := s.nodes[0 := n.(app := b.app)])
    else
      var m := NoteBegun(n.(app := b.app), b.op);
      var m' := if b.forwarded || !ok then m else m.(committed := m.committed + 1);
      var nodes := s.nodes[0 := m'];
      s.(hist := s.hist + [b.op], nodes := if b.forwarded then Send(nodes, 1, Append(b.op)) else nodes)
  }

  /** Node `i` takes an append off its inbox. */
  function StepAppend(s: System, i: nat, op: Op, checksumOk: bool, peerUp: bool): System
    requires 0 < i < |s.nodes|
  {
    var n := s.nodes[i];
    var (b, ok) := AppendBegin(n.app, op, false, BeginEnv(i, i + 1, true, checksumOk, peerUp, None));
    if b.forwarded then
      s.(nodes := Send(s.nodes[i := NoteBegun(n.(app := b.app), op)], i + 1, Append(op)))
    else
      var m := if b.status.Success? then NoteBegun(n.(app := b.app), op) else n.(app := b.app);
      var m' := if ok then m.(committed := m.committed + 1) else m;
      s.(nodes := s.nodes[i := m'.(outbox := m'.outbox + [Reply(op.id, ok)])])
  }

  /** Node `i` takes a close off its inbox; it passes it on only if it could close the id. */
  function StepClose(s: System, i: nat, w: int, mc: int): System
    requires 0 < i < |s.nodes|
  {
    var n := s.nodes[i];
    var (a, st) := CloseWriteId(n.app, w, mc);
    var nodes := s.nodes[i := n.(app := a)];
    s.(nodes := if st.Success? then Send(nodes, i + 1, Close(w, mc)) else nodes)
  }

  function StepDeliver(s: System, i: nat, checksumOk: bool, peerUp: bool): System {
    if !(0 < i < |s.nodes|) || s.nodes[i].inbox == [] then s
    else
      var n := s.nodes[i];
      var p := n.inbox[0];
      match p
      case Append(op) =>
        var t := s.(nodes := s.nodes[i := n.(inbox := n.inbox[1..], received := n.received + 1)]);
        StepAppend(t, i, op, checksumOk, peerUp)
      case Close(w, mc) =>
        StepClose(s.(nodes := s.nodes[i := n.(inbox := n.inbox[1..])]), i, w, mc)
  }

  /** Node `i` hears from its successor. Answers for unknown ops are dropped. */
  function StepReply(s: System, i: nat): System {
    if !(i + 1 < |s.nodes|) || s.nodes[i + 1].outbox == [] then s
    else
      var down := s.nodes[i + 1];
      var r := down.outbox[0];
      var nodes := s.nodes[i + 1 := down.(outbox := down.outbox[1..])];
      var n := nodes[i];
      var k := Find(n.app.inFlight, r.id);
      if k == |n.app.inFlight| then s.(nodes := nodes)
      else
        var (a, ok) := OpDone(n.app, n.app.inFlight[k], r.ok);
        s.(nodes := nodes[i := n.(
          app := a,
          committed := if ok then n.committed + 1 else n.committed,
          outbox := if i == 0 then n.outbox else n.outbox + [Reply(r.id, ok)])])
  }

  function Failures(ops: seq<Op>): seq<Reply> {
    seq(|ops|, i requires 0 <= i < |ops| => Reply(ops[i].id, false))
  }

  /** The connection from node `i` to its successor breaks. */
  function StepLinkDown(s: System, i: nat, keep: nat): System {
    if !(i + 1 < |s.nodes|) then s
    else
      var n := s.nodes[i];
      var down := s.nodes[i + 1];
      var inbox := if keep < |down.inbox| then down.inbox[..keep] else down.inbox;
      var ops := n.app.inFlight;
      if ops == [] then s.(nodes := s.nodes[i + 1 := down.(inbox := inbox, outbox := [])])
      else
        var (a, _) := Commit(n.app.(inFlight := []), ops[0], false);
        s.(nodes := s.nodes[i := n.(app := a, outbox := if i == 0 then n.outbox else n.outbox + Failures(ops))]
                           [i + 1 := down.(inbox := inbox, outbox := [])])
  }

  function WithApp(s: System, i: nat, a: App): System
    requires i < |s.nodes|
  {
    s.(nodes := s.nodes[i := s.nodes[i].(app := a)])
  }

  function StepInquire(s: System, i: nat, w: int): System {
    if !(i < |s.nodes|) then s
    else
      var n := s.nodes[i];
      var (a, answer) := GetOpStatus(n.app, w);
      match answer
      case None => s
      case Some(x) =>
        s.(nodes := s.nodes[i := n.(app := a, inquired := if w in n.inquired then n.inquired else n.inquired[w := n.begun])],
           answers := s.answers + {x})
  }

  /** A client closes a write id at the master, which tells the slaves how far it committed. */
  function StepClientClose(s: System, w: int): System {
    if |s.nodes| == 0 then s
    else
      var n := s.nodes[0];
      var (a, st) := CloseWriteId(n.app, w, -1);
      var nodes := s.nodes[0 := n.(app := a)];
      s.(nodes := if st.Success? then Send(nodes, 1, Close(w, a.nextCommit)) else nodes,
         closed := if st.Success? then s.closed + {w} else s.closed)
  }

  function StepBeginStable(s: System, i: nat, version: int, ioInFlight: bool): System {
    if !(i < |s.nodes|) then s
    else
      var (a, reply) := BeginMakeStable(s.nodes[i].app, version, ioInFlight);
      var t := WithApp(s, i, a);
      if reply.Size? then t.(reports := t.reports[i := reply.size]) else t
  }

  function StepFinish(s: System, i: nat, written: nat, ioOk: bool): System {
    if !(i < |s.nodes|) || written > |s.nodes[i].app.log| then s
    else
      var (a, relinquish) := FinishStable(s.nodes[i].app, written, ioOk);
      var t := WithApp(s, i, a);
      if i == 0 && relinquish.Some? then t.(relinquished := relinquish) else t
  }

  /** The idle master closes once nothing is in flight and its last commit offset was passed on. */
  predicate CanSendCommitAck(a: App) {
    a.IsOpen() && a.numServers > 1 && a.inFlight == [] && a.ackSent < a.nextCommit
  }

  /** The master's own append that carries nothing but its commit offset. */
  function CommitAck(s: System, a: App): Op {
    Op(|s.hist|, a.chunkId, a.version, a.numServers, NO_WRITE_ID, [], -1, -1, a.nextOffset)
  }

  function Step(s: System, e: Event): System {
    match e
    case ClientAppend(w, data, clientSeq, version, env) =>
      if |s.nodes| == 0 then s
      else StepMaster(s, Op(|s.hist|, s.nodes[0].app.chunkId, version, |s.nodes|, w, data, -1, -1, clientSeq), false, env)
    case SendCommitAck(env) =>
      if |s.nodes| == 0 || !CanSendCommitAck(s.nodes[0].app) || !env.leaseValid then s
      else StepMaster(s, CommitAck(s, s.nodes[0].app), true, env.(replicationPos := 0, peer := s.nodes[0].app.peer))
    case Deliver(i, checksumOk, peerUp) => StepDeliver(s, i, checksumOk, peerUp)
    case TakeReply(i) => StepReply(s, i)
    case LinkDown(i, keep) => StepLinkDown(s, i, keep)
    case Fail(i) =>
      if i < |s.nodes| && s.nodes[i].app.IsOpen() then WithApp(s, i, SetState(s.nodes[i].app, ReplicationFailed)) else s
    case IdleClose =>
      if |s.nodes| > 0 && CanIdleClose(s.nodes[0].app) then WithApp(s, 0, TryToCloseFailed(s.nodes[0].app)) else s
    case Allocate(i, r, max) =>
      if i < |s.nodes| && r.writeId >= 0 && r.writeId !in s.nodes[i].issued then
        var n := s.nodes[i];
        s.(nodes := s.nodes[i := n.(app := AllocateWriteId(n.app, r, max, true).0, issued := n.issued + {r.writeId})])
      else s
    case Invalidate(i, w, declare) =>
      if i < |s.nodes| then WithApp(s, i, InvalidateWriteId(s.nodes[i].app, w, declare).0) else s
    case Reserve(w, n, release) =>
      if |s.nodes| > 0 then WithApp(s, 0, ChangeReservation(s.nodes[0].app, w, n, release, true).0) else s
    case Inquire(i, w) => StepInquire(s, i, w)
    case ClientClose(w) => StepClientClose(s, w)
    case BeginStable(i, version, ioInFlight) => StepBeginStable(s, i, version, ioInFlight)
    case MakeStable(i) =>
      if i < |s.nodes| && s.decision.Some? then WithApp(s, i, RequestStable(s.nodes[i].app, s.decision.value.size)) else s
    case Finish(i, written, ioOk) => StepFinish(s, i, written, ioOk)
    case DecideRelinquished =>
      if s.decision.None? && s.relinquished.Some? then s.(decision := Some(Decision(s.relinquished.value, 0))) else s
    case DecideShortest(source, among) =>
      if s.decision.None? && source in among && among <= s.reports.Keys &&
         (forall j :: j in among ==> s.reports[source] <= s.reports[j]) then s.(decision := Some(Decision(s.reports[source], source))) else s
    case Lose(i) =>
      if i < |s.nodes| then WithApp(s, i, SetState(s.nodes[i].app, ChunkLost)) else s
    case Delete(i) =>
      if i < |s.nodes| then WithApp(s, i, SetState(s.nodes[i].app.(wids := map[]), PendingDelete)) else s
  }

  /** The state after a run. */
  function Run(s: System, events: seq<Event>): System {
    if events == [] then s else Step(Run(s, events[..|events| - 1]), events[|events| - 1])
  }

  /** What the protocol asks of clients: appends carry data and the version of the chunk. */
  predicate WellBehaved(version: int, e: Event) {
    e.ClientAppend? ==> e.data != [] && e.version == version
  }
}
