/**
 The protocol state of one record appender, and what each of its operations does to it.

 One appender exists per chunk replica open for write append. The functions below give
 the new state of the appender, and the fate of the operation, for every branch of the
 operation. Calls that end in `FatalError` set `aborted`; a master commit offset outside
 the accepted window bumps `windowErrors`. The data an appender holds, on disk and in its
 write buffer together, is `log`.
 */
module RecordAppender {
  import opened Common

  datatype Phase = Open | ReplicationFailed | Closed | Stable | ChunkLost | PendingDelete

  /** The order in which an appender may move through its phases. */
  function Rank(p: Phase): nat {
    match p
    case Open => 0
    case ReplicationFailed => 1
    case Closed => 2
    case Stable => 3
    case ChunkLost => 4
    case PendingDelete => 5
  }

  /** Phases in which the replica accepts no more data. */
  predicate IsChunkStable(p: Phase) {
    !p.Open? && !p.Closed? && !p.ReplicationFailed?
  }

  datatype Status =
    | Success | InProgress | EParameters | EProtocolState | EWidReadOnly
    | EFailedState | EOutOfSpace | ENotFound | EReplicationFailed

  /** Row of the write id table: the last append begun with the id. */
  datatype WriteId = WriteId(
    reserved: nat, length: nat, offset: int, clientSeq: int,
    appendCount: nat, status: Status, readOnly: bool)
  {
    function End(): int { offset + length }
  }

  const FRESH_WRITE_ID := WriteId(0, 0, -1, 0, 0, Success, false)

  /** Write id of an append that carries only the master's commit offset. */
  const NO_WRITE_ID := -1

  /** A record append as it travels down the chain. `id` identifies it end to end. */
  datatype Op = Op(
    id: nat, chunkId: int, version: int, numServers: nat, writeId: int,
    data: seq<Byte>, fileOffset: int, masterCommitted: int, clientSeq: int)
  {
    predicate IsAck() { writeId == NO_WRITE_ID && data == [] }
  }

  datatype App = App(
    chunkId: int, version: int, pos: nat, numServers: nat, peer: int,
    phase: Phase,
    nextOffset: nat,          // where the next append goes
    nextCommit: nat,          // end of the last committed append
    ackSent: nat,             // last commit offset the master piggy-backed
    masterCommitted: int,     // last commit offset heard from the master
    log: seq<Byte>,           // disk plus write buffer
    bytesReserved: nat,
    wids: map<int, WriteId>,
    inFlight: seq<Op>,        // appends forwarded and not answered yet
    trim: bool,               // internally generated make-stable op is queued
    target: Option<nat>,      // size in the queued external make-stable op
    beginPending: bool,       // a begin-make-stable op is queued
    chunkSize: int,           // size reported to the meta server
    makeStableSucceeded: bool,
    aborted: bool, windowErrors: nat)
  {
    predicate IsMaster() { pos == 0 }
    predicate IsOpen() { phase.Open? }
    predicate HasStableOp() { trim || target.Some? }
    predicate AcceptsClose() { phase.Open? || phase.ReplicationFailed? }
  }

  /** A new appender on a chunk that already holds `content`. */
  function NewAppender(chunkId: int, version: int, pos: nat, numServers: nat, peer: int, content: seq<Byte>): App {
    App(chunkId, version, pos, numServers, peer, Open, |content|, |content|, |content|, -1, content,
        0, map[], [], false, None, false, -1, false, false, 0)
  }

  // ----- state transitions

  /** The state change itself, with the check for an impossible transition. */
  function Enter(a: App, p: Phase): App {
    if p == a.phase || a.phase.PendingDelete? then a
    else if (IsChunkStable(a.phase) && !IsChunkStable(p)) || (p.ReplicationFailed? && !a.phase.Open?) then
      a.(phase := p, aborted := true)
    else a.(phase := p, makeStableSucceeded := a.makeStableSucceeded || p.Stable?)
  }

  /** Queue an internal make-stable op for the committed size, and close. */
  function TrimToLastCommit(a: App): App {
    if a.HasStableOp() then a.(aborted := true)
    else
      var b := a.(trim := true);
      if b.AcceptsClose() then Enter(b, Closed) else b
  }

  /** Only the master closes on its own. */
  function TryToCloseFailed(a: App): App {
    if !a.IsMaster() then a
    else if a.AcceptsClose() then
      if a.HasStableOp() || a.beginPending then a.(aborted := true) else TrimToLastCommit(a)
    else a
  }

  function SetState(a: App, p: Phase): App {
    var b := Enter(a, p);
    if b.phase != a.phase && b.phase.ReplicationFailed? then TryToCloseFailed(b) else b
  }

  /** A master without a valid lease behaves as if replication had failed. */
  function CheckLease(a: App, leaseValid: bool): App {
    if a.IsOpen() && a.IsMaster() && !leaseValid then SetState(a, ReplicationFailed) else a
  }

  /** A chunk without appends in flight, whose slaves know how far it is committed. */
  predicate CanIdleClose(a: App) {
    a.IsOpen() && a.inFlight == [] && (a.numServers <= 1 || a.nextCommit <= a.ackSent)
  }

  /** Nothing happened for a while, and nobody holds reserved space. */
  function IdleTimeout(a: App): App {
    if a.IsMaster() && a.bytesReserved == 0 && CanIdleClose(a) then TryToCloseFailed(a) else a
  }

  /** The peer did not answer an append in time. */
  function ReplicationTimeout(a: App): App {
    if a.IsOpen() && a.inFlight != [] then SetState(a, ReplicationFailed) else a
  }

  // ----- write ids and space reservations

  /** A request for a write id; it repeats the route that the appender was opened with. */
  datatype WriteIdRequest = WriteIdRequest(
    chunkId: int, version: int, pos: int, peer: int, numServers: nat, writeId: int, clientSeq: int)

  function AllocateCheck(a: App, r: WriteIdRequest, maxWriteIds: nat): Status {
    if r.chunkId != a.chunkId then EParameters
    else if r.version != a.version then EParameters
    else if r.pos != a.pos then EParameters
    else if r.peer != a.peer then EParameters
    else if r.numServers != a.numServers then EParameters
    else if !a.IsOpen() then EProtocolState
    else if |a.wids| >= maxWriteIds then EOutOfSpace
    else Success
  }

  function AllocateWriteId(a: App, r: WriteIdRequest, maxWriteIds: nat, leaseValid: bool): (App, Status) {
    var b := CheckLease(a, leaseValid);
    var st := AllocateCheck(b, r, maxWriteIds);
    if !st.Success? then (b, st)
    else if r.writeId in b.wids then (b.(aborted := true), Success)
    else (b.(wids := b.wids[r.writeId := FRESH_WRITE_ID.(clientSeq := r.clientSeq)]), Success)
  }

  function ChangeReservation(a: App, w: int, n: nat, release: bool, leaseValid: bool): (App, Status) {
    var b := CheckLease(a, leaseValid);
    if !b.IsMaster() then (b, EParameters)
    else if !b.IsOpen() then (b, EProtocolState)
    else if w !in b.wids then (b, if release then Success else EParameters)
    else
      var ws := b.wids[w];
      if release then
        if ws.readOnly then (if ws.reserved > 0 then b.(aborted := true) else b, Success)
        else
          var m := if ws.reserved >= n then n else ws.reserved;
          (b.(bytesReserved := SizeSub(b.bytesReserved, m),
              wids := b.wids[w := ws.(reserved := ws.reserved - m)]), Success)
      else if ws.readOnly then (b, EParameters)
      else if b.nextOffset + b.bytesReserved + n > CHUNKSIZE then (b, EOutOfSpace)
      else (b.(bytesReserved := b.bytesReserved + n, wids := b.wids[w := ws.(reserved := ws.reserved + n)]), Success)
  }

  function InvalidateWriteId(a: App, w: int, declareFailure: bool): (App, Status) {
    if w in a.wids && a.wids[w].status.Success? && a.wids[w].appendCount == 0 && !a.wids[w].readOnly then
      var b := a.(wids := a.wids - {w});
      (if declareFailure && b.IsOpen() then SetState(b, ReplicationFailed) else b, Success)
    else (a, EParameters)
  }

  // ----- append

  function UpdateMasterCommitted(a: App, mc: int): App {
    if a.masterCommitted <= mc <= a.nextCommit then a.(masterCommitted := mc)
    else a.(windowErrors := a.windowErrors + 1)
  }

  /** What an append sees of the world while it begins. */
  datatype BeginEnv = BeginEnv(
    replicationPos: int, peer: int, leaseValid: bool, checksumOk: bool, peerUp: bool,
    clientReserved: Option<nat>)

  function BeginCheck(a: App, op: Op, internal: bool, env: BeginEnv): Status {
    if op.chunkId != a.chunkId then EParameters
    else if !a.IsOpen() then EProtocolState
    else if a.peer != env.peer || a.pos != env.replicationPos then EParameters
    else if a.IsMaster() && op.fileOffset >= 0 then EParameters
    else if !a.IsMaster() && op.fileOffset < 0 then EParameters
    else if a.numServers != op.numServers then EParameters
    else if a.nextOffset + |op.data| > CHUNKSIZE then EParameters
    else if a.IsMaster() && !internal && env.clientReserved.Some? && env.clientReserved.value < |op.data| then EParameters
    else Success
  }

  predicate IsMasterAck(a: App, op: Op, internal: bool) {
    op.IsAck() && (if a.IsMaster() then internal else op.masterCommitted >= 0)
  }

  /** On a slave, the last append with the id is known good once the master has committed past it. */
  function Settle(a: App, w: int): App
    requires w in a.wids
  {
    var ws := a.wids[w];
    if ws.status.InProgress? && a.masterCommitted >= ws.End() then a.(wids := a.wids[w := ws.(status := Success)]) else a
  }

  datatype Placed = Placed(app: App, op: Op, status: Status)

  /** An append that only carries the master's commit offset. */
  function PlaceAck(a: App, op: Op): Placed {
    if a.IsMaster() then Placed(a, op.(fileOffset := a.nextOffset), Success)
    else if op.fileOffset != a.nextOffset then Placed(SetState(a, ReplicationFailed), op, EParameters)
    else Placed(UpdateMasterCommitted(a, op.masterCommitted), op, Success)
  }

  /** An append with a write id. */
  function PlaceData(a: App, op: Op, checksumOk: bool): Placed {
    if op.writeId !in a.wids then Placed(a, op, EParameters)
    else if !a.IsMaster() && op.fileOffset != a.nextOffset then
      Placed(SetState(a, ReplicationFailed), op,
             if a.wids[op.writeId].readOnly then EWidReadOnly else EParameters)
    else
      var b := if a.IsMaster() then a else Settle(UpdateMasterCommitted(a, op.masterCommitted), op.writeId);
      var ws := b.wids[op.writeId];
      if ws.readOnly then Placed(b, op, EWidReadOnly)
      else if !ws.status.Success? then Placed(b, op, EParameters)
      else if !checksumOk then Placed(if b.IsMaster() then b else SetState(b, ReplicationFailed), op, EParameters)
      else if b.IsMaster() then
        if ws.reserved < |op.data| || b.bytesReserved < |op.data| then Placed(b, op, EParameters)
        else Placed(
          b.(bytesReserved := b.bytesReserved - |op.data|,
             wids := b.wids[op.writeId := ws.(reserved := ws.reserved - |op.data|)],
             nextOffset := b.nextOffset + |op.data|),
          op.(fileOffset := b.nextOffset), Success)
      else Placed(b.(nextOffset := b.nextOffset + |op.data|), op, Success)
  }

  /** Give the append its place, or refuse it. */
  function Place(a: App, op: Op, internal: bool, env: BeginEnv): Placed {
    if IsMasterAck(a, op, internal) then PlaceAck(a, op) else PlaceData(a, op, env.checksumOk)
  }

  /** Remember the append in the write id table, and append its data to the log. */
  function Record(a: App, op: Op): App
    requires op.writeId in a.wids
  {
    a.(wids := a.wids[op.writeId := a.wids[op.writeId].(
         status := InProgress, length := |op.data|, offset := op.fileOffset, clientSeq := op.clientSeq)],
       log := a.log + op.data)
  }

  datatype Begun = Begun(app: App, op: Op, status: Status, forwarded: bool)

  /** Everything up to the point where the append is handed to the peer, or done locally. */
  function Begin(a0: App, op0: Op, internal: bool, env: BeginEnv): (r: Begun)
    ensures r.forwarded ==> r.status.Success?
  {
    var a := CheckLease(a0, env.leaseValid);
    var st := BeginCheck(a, op0, internal, env);
    if !st.Success? then
      Begun(if internal then a.(aborted := true) else a, op0, st, false)
    else if internal && !a.IsMaster() then Begun(a.(aborted := true), op0, EParameters, false)
    else
      var ack := IsMasterAck(a, op0, internal);
      var p := Place(a, op0, internal, env);
      if !p.status.Success? then Begun(p.app, p.op, p.status, false)
      else
        var forward := a.pos + 1 < a.numServers;
        if forward && !env.peerUp then Begun(p.app, p.op, EReplicationFailed, false)
        else
          var b := if ack || p.op.writeId !in p.app.wids then p.app else Record(p.app, p.op);
          if !forward then Begun(b, p.op, Success, false)
          else
            var op := if a.IsMaster() then p.op.(masterCommitted := b.nextCommit) else p.op;
            var c := if a.IsMaster() then b.(ackSent := b.nextCommit) else b;
            Begun(c.(inFlight := c.inFlight + [op]), op, Success, true)
  }

  // ----- commit

  /** The cases in which a successful append reaching commit brings the server down. */
  predicate CommitInvalid(a: App, op: Op) {
    || op.fileOffset != a.nextCommit
    || op.chunkId != a.chunkId
    || op.version != a.version
    || (if op.writeId in a.wids && !(a.IsMaster() && op.IsAck())
        then !a.wids[op.writeId].status.InProgress?
        else (!a.IsMaster() && op.masterCommitted < 0) || !op.IsAck())
  }

  /** The append's status came back, from the peer or from this server; `ok` when it was zero. */
  function Commit(a: App, op: Op, ok: bool): (App, bool) {
    if !a.IsOpen() then (a, false)
    else if !ok then (SetState(a, ReplicationFailed), false)
    else if CommitInvalid(a, op) then (a.(aborted := true), false)
    else if op.writeId in a.wids && !(a.IsMaster() && op.IsAck()) then
      var ws := a.wids[op.writeId];
      (a.(nextCommit := a.nextCommit + |op.data|,
          wids := a.wids[op.writeId := ws.(
            appendCount := ws.appendCount + 1,
            status := if a.IsMaster() then Success else ws.status)]), true)
    else (a, true)
  }

  /** Drop the op with the given id from the list of ops in flight. */
  function Without(ops: seq<Op>, id: nat): seq<Op> {
    if ops == [] then []
    else if ops[0].id == id then ops[1..]
    else [ops[0]] + Without(ops[1..], id)
  }

  /** Position of the op with the given id, or the length of the list. */
  function Find(ops: seq<Op>, id: nat): (k: nat)
    ensures k <= |ops|
    ensures k < |ops| ==> ops[k].id == id
    ensures forall j :: 0 <= j < k ==> ops[j].id != id
  {
    if ops == [] then 0
    else if ops[0].id == id then 0
    else
      var k := Find(ops[1..], id);
      assert forall j :: 0 < j < k + 1 ==> ops[j] == ops[1..][j - 1];
      1 + k
  }

  /** Begin, and commit at once when there is no peer to wait for. */
  function AppendBegin(a: App, op: Op, internal: bool, env: BeginEnv): (r: (Begun, bool)) {
    var b := Begin(a, op, internal, env);
    if b.forwarded then (b, true)
    else if b.app.IsMaster() && !b.status.Success? then (b, false)
    else
      var (c, ok) := Commit(b.app, b.op, b.status.Success?);
      (b.(app := c), ok)
  }

  /** The answer for a forwarded append came back. */
  function OpDone(a: App, op: Op, ok: bool): (App, bool) {
    Commit(a.(inFlight := Without(a.inFlight, op.id)), op, ok)
  }

  // ----- status inquiry and close

  datatype Answer = Answer(writeId: int, status: Status, offset: int, length: nat, clientSeq: int, wasReadOnly: bool)

  /** Status of the last append with the id, as far as this replica can tell. */
  function Resolve(a: App, ws: WriteId): Status {
    if !ws.status.InProgress? then ws.status
    else if a.makeStableSucceeded then if a.chunkSize >= ws.End() then Success else EFailedState
    else if !a.IsMaster() && a.masterCommitted >= ws.End() then Success
    else InProgress
  }

  /** Inquiry: answer, and make the id read only. */
  function GetOpStatus(a: App, w: int): (App, Option<Answer>) {
    if w !in a.wids then (a, None)
    else
      var ws := a.wids[w];
      var st := Resolve(a, ws);
      var free := if a.bytesReserved >= ws.reserved then a.bytesReserved - ws.reserved else 0;
      (a.(bytesReserved := free, wids := a.wids[w := ws.(status := st, reserved := 0, readOnly := true)]),
       Some(Answer(w, st, ws.offset, ws.length, ws.clientSeq, ws.readOnly)))
  }

  /** What a close teaches a slave; `mc` is the commit offset the master sent along. */
  function CloseSettle(a: App, w: int, mc: int): (b: App)
    requires w in a.wids
    ensures w in b.wids
  {
    if a.IsMaster() then a
    else
      var b := if mc >= 0 then UpdateMasterCommitted(a, mc) else a;
      var ws := b.wids[w];
      if ws.status.InProgress? && (if b.makeStableSucceeded then b.chunkSize else b.masterCommitted) >= ws.End()
      then b.(wids := b.wids[w := ws.(status := Success)]) else b
  }

  /** Orderly close of a write id. */
  function CloseWriteId(a: App, w: int, mc: int): (App, Status) {
    if w !in a.wids then (a, ENotFound)
    else
      var b := CloseSettle(a, w, mc);
      var ws := b.wids[w];
      if ws.status.InProgress? then (b, InProgress)
      else if ws.readOnly || !ws.status.Success? then (b, EParameters)
      else
        var free := if b.bytesReserved >= ws.reserved then b.bytesReserved - ws.reserved else 0;
        (b.(bytesReserved := free, wids := b.wids - {w}), Success)
  }

  // ----- convergence to the state chosen by the meta server

  /** Answer and drop every queued make-stable and begin-make-stable op. */
  function StableDone(a: App): App {
    a.(trim := false, target := None, beginPending := false)
  }

  datatype BeginReply = NoReply | Failed | Size(size: nat)

  /** The meta server asks to stop, and for the size; also the restart once a trim or the last write is over. */
  function BeginMakeStable(a: App, version: int, ioInFlight: bool): (App, BeginReply) {
    var b := a.(beginPending := true);
    if version != a.version then (a, Failed)
    else if b.HasStableOp() then (b, NoReply)
    else
      var c := if b.AcceptsClose() then Enter(b, Closed) else b;
      if c.phase.Closed? then
        if c.nextCommit < |c.log| then (TrimToLastCommit(c), NoReply)
        else if ioInFlight then (c, NoReply)
        else
          var d := c.(chunkSize := if c.chunkSize < 0 then |c.log| else c.chunkSize, beginPending := false);
          (d, if d.chunkSize < 0 then Failed else Size(d.chunkSize))
      else (c.(beginPending := false), Failed)
  }

  /** The meta server decided on a size. */
  function RequestStable(a: App, size: nat): App {
    if a.target.Some? && a.target.value != size then a
    else
      var b := a.(target := Some(size));
      var c := if b.AcceptsClose() then Enter(b, Closed) else b;
      if c.phase.Closed? then c else StableDone(c)
  }

  /**
   All disk writes of a closed appender are over, and it works on its first queued make-stable op.
   `written` is how far the data reached the disk. `ioOk` is false when the last block could not be
   read back, the checksum differs, or the metadata could not be written.
   The second result is the size the master gives up its lease with, if it does.
   */
  function FinishStable(a: App, written: nat, ioOk: bool): (App, Option<nat>)
    requires written <= |a.log|
  {
    if !a.phase.Closed? || !a.HasStableOp() then (a, None)
    else
      var size := if a.trim then a.nextCommit else a.target.value;
      if size > written || !ioOk then (StableDone(Enter(a, ChunkLost)), None)
      else
        var b := a.(log := a.log[..size], chunkSize := size, trim := false);
        if b.target.None? then (b, if b.beginPending then None else Some(size))
        else if b.target.value != size then (StableDone(Enter(b, ChunkLost)), None)
        else (StableDone(Enter(b, Stable)), None)
  }
}
