/** Which appends an appender takes, and what it does with those it refuses. */
module AppendAccept {
  import opened Common
  import opened RecordAppender

  /** The append came the right way, fits into the chunk, and can be passed on. */
  predicate RouteOk(a: App, op: Op, env: BeginEnv) {
    && a.IsOpen() && op.chunkId == a.chunkId && op.numServers == a.numServers
    && env.peer == a.peer && env.replicationPos == a.pos && (a.pos + 1 < a.numServers ==> env.peerUp)
    && a.nextOffset + |op.data| <= CHUNKSIZE
  }

  /** A client's append at the master: its id is free for the next one, its data is intact, its space is reserved. */
  predicate MasterTakes(a: App, op: Op, env: BeginEnv) {
    && RouteOk(a, op, env) && env.leaseValid && op.fileOffset < 0
    && (env.clientReserved.Some? ==> |op.data| <= env.clientReserved.value)
    && op.writeId in a.wids && env.checksumOk
    && var ws := a.wids[op.writeId];
    && !ws.readOnly && ws.status.Success? && |op.data| <= ws.reserved && |op.data| <= a.bytesReserved
  }

  /** How far the master is known to have committed, with what the append says about it. */
  function Learned(a: App, op: Op): int {
    if a.masterCommitted <= op.masterCommitted <= a.nextCommit then op.masterCommitted else a.masterCommitted
  }

  /** The last append with the id is over, as far as a slave knows. */
  predicate IdIsFree(a: App, op: Op) {
    && op.writeId in a.wids
    && var ws := a.wids[op.writeId];
    && !ws.readOnly && (ws.status.Success? || (ws.status.InProgress? && ws.End() <= Learned(a, op)))
  }

  /** An append at a slave: it is the next one, and it carries intact data of a free id, or only news of the master. */
  predicate SlaveTakes(a: App, op: Op, env: BeginEnv) {
    && RouteOk(a, op, env) && 0 <= op.fileOffset == a.nextOffset
    && ((op.IsAck() && op.masterCommitted >= 0) || (IdIsFree(a, op) && env.checksumOk))
  }

  /** Log, list of appends in flight, offsets and row after an append was taken. */
  predicate Took(a: App, op: Op, b: App) {
    && b.pos == a.pos && b.log == a.log + op.data
    && b.nextOffset == a.nextOffset + |op.data|
    && b.inFlight == (if a.pos + 1 < a.numServers then a.inFlight + [op] else a.inFlight)
    && op.fileOffset == a.nextOffset
    && (!op.IsAck() ==>
          && op.writeId in b.wids
          && b.wids[op.writeId].offset == op.fileOffset && b.wids[op.writeId].length == |op.data| && b.wids[op.writeId].status.InProgress?)
  }

  predicate Untouched(a: App, b: App) {
    b.pos == a.pos && b.log == a.log && b.inFlight == a.inFlight && b.nextCommit == a.nextCommit && b.wids.Keys == a.wids.Keys
  }

  lemma SetUntouched(a: App, p: Phase)
    ensures Untouched(a, SetState(a, p))
    ensures a.IsOpen() && p.ReplicationFailed? ==> !SetState(a, p).IsOpen()
  {
    EnterUntouched(a, p);
    CloseUntouched(Enter(a, p));
  }

  lemma EnterUntouched(a: App, p: Phase)
    ensures Untouched(a, Enter(a, p))
    ensures a.IsOpen() && p.ReplicationFailed? ==> Enter(a, p).phase.ReplicationFailed?
  {
  }

  lemma CloseUntouched(a: App)
    ensures Untouched(a, TryToCloseFailed(a)) && (!a.IsOpen() ==> !TryToCloseFailed(a).IsOpen())
  {
  }

  lemma MasterPlaceIff(a: App, op: Op, env: BeginEnv)
    requires a.IsMaster()
    ensures var p := Place(a, op, false, env);
      && (p.status.Success? <==>
            op.writeId in a.wids && env.checksumOk &&
            var ws := a.wids[op.writeId]; !ws.readOnly && ws.status.Success? && |op.data| <= ws.reserved && |op.data| <= a.bytesReserved)
      && Untouched(a, p.app) && p.app.phase == a.phase && p.app.nextCommit == a.nextCommit && p.app.wids.Keys == a.wids.Keys
      && (if p.status.Success? then p.app.nextOffset == a.nextOffset + |op.data| && p.op == op.(fileOffset := a.nextOffset)
          else p.app == a)
  {
  }

  /** The master takes a client's append exactly under the condition above; otherwise log and appends in flight stay. */
  lemma MasterBeginIff(a: App, op: Op, env: BeginEnv)
    requires a.IsMaster()
    ensures var b := Begin(a, op, false, env);
      && (b.status.Success? <==> MasterTakes(a, op, env))
      && (b.forwarded <==> MasterTakes(a, op, env) && a.numServers > 1)
      && (b.app.IsOpen() <==> a.IsOpen() && env.leaseValid)
      && b.app.nextCommit == a.nextCommit
      && (b.forwarded ==> b.app.ackSent == a.nextCommit)
      && (if b.status.Success?
          then Took(a, b.op, b.app) && b.op == op.(fileOffset := a.nextOffset, masterCommitted := if a.numServers > 1 then a.nextCommit else op.masterCommitted)
          else Untouched(a, b.app) && b.op.data == op.data)
  {
    var c := CheckLease(a, env.leaseValid);
    SetUntouched(a, ReplicationFailed);
    if c.IsOpen() { MasterPlaceIff(a, op, env); }
  }

  lemma SlavePlaceIff(a: App, op: Op, env: BeginEnv)
    requires !a.IsMaster() && a.IsOpen() && op.fileOffset >= 0
    ensures var p := Place(a, op, false, env);
      && (p.status.Success? <==>
            op.fileOffset == a.nextOffset && ((op.IsAck() && op.masterCommitted >= 0) || (IdIsFree(a, op) && env.checksumOk)))
      && Untouched(a, p.app) && p.op == op
      && (p.status.Success? ==> p.app.phase == a.phase && p.app.nextOffset == a.nextOffset + |op.data|)
  {
    SlavePlaceData(a, op, env.checksumOk);
    SetUntouched(a, ReplicationFailed);
  }

  lemma SlavePlaceData(a: App, op: Op, checksumOk: bool)
    requires !a.IsMaster() && a.IsOpen() && op.fileOffset >= 0
    ensures var p := PlaceData(a, op, checksumOk);
      && (p.status.Success? <==> op.fileOffset == a.nextOffset && IdIsFree(a, op) && checksumOk)
      && Untouched(a, p.app) && p.op == op
      && (p.status.Success? ==> p.app.phase == a.phase && p.app.nextOffset == a.nextOffset + |op.data|)
  {
    SetUntouched(a, ReplicationFailed);
    if op.writeId in a.wids {
      var b := Settle(UpdateMasterCommitted(a, op.masterCommitted), op.writeId);
      SettleIff(a, op);
      SetUntouched(b, ReplicationFailed);
    }
  }

  lemma SettleIff(a: App, op: Op)
    requires op.writeId in a.wids
    ensures var b := Settle(UpdateMasterCommitted(a, op.masterCommitted), op.writeId);
      && Untouched(a, b) && b.phase == a.phase && b.pos == a.pos && b.nextOffset == a.nextOffset && op.writeId in b.wids
      && b.wids[op.writeId].readOnly == a.wids[op.writeId].readOnly
      && (IdIsFree(a, op) <==> !b.wids[op.writeId].readOnly && b.wids[op.writeId].status.Success?)
  {
  }

  /** The same for a slave, before it answers. */
  lemma SlaveBeginIff(a: App, op: Op, env: BeginEnv)
    requires !a.IsMaster()
    ensures var b := Begin(a, op, false, env);
      && (b.status.Success? <==> SlaveTakes(a, op, env))
      && (b.forwarded <==> SlaveTakes(a, op, env) && a.pos + 1 < a.numServers)
      && b.op == op && b.app.nextCommit == a.nextCommit && b.app.pos == a.pos && (!a.IsOpen() ==> b.app == a)
      && (if b.status.Success? then Took(a, op, b.app) && b.app.IsOpen() else Untouched(a, b.app))
  {
    if a.IsOpen() && op.fileOffset >= 0 { SlavePlaceIff(a, op, env); }
  }

  /** An append that is refused leaves an open slave no longer open. */
  lemma SlaveAppendIff(a: App, op: Op, env: BeginEnv)
    requires !a.IsMaster()
    ensures var (b, ok) := AppendBegin(a, op, false, env);
      && (b.status.Success? <==> SlaveTakes(a, op, env))
      && (b.forwarded <==> SlaveTakes(a, op, env) && a.pos + 1 < a.numServers)
      && (!b.status.Success? ==> Untouched(a, b.app) && !b.app.IsOpen() && !ok)
      && (b.forwarded ==> Took(a, op, b.app) && b.app.IsOpen())
  {
    SlaveBeginIff(a, op, env);
    RefusalShape(a, op, env);
    var b := Begin(a, op, false, env);
    SetUntouched(b.app, ReplicationFailed);
  }

  /** What AppendBegin adds to a begin that was refused or passed on. */
  lemma RefusalShape(a: App, op: Op, env: BeginEnv)
    requires var b := Begin(a, op, false, env); !b.app.IsMaster()
    ensures var b, r := Begin(a, op, false, env), AppendBegin(a, op, false, env);
      && r.0.status == b.status && r.0.forwarded == b.forwarded && r.0.op == b.op
      && (b.forwarded ==> r.0.app == b.app && r.1)
      && (!b.status.Success? ==> !r.1 && r.0.app == if b.app.IsOpen() then SetState(b.app, ReplicationFailed) else b.app)
  {
  }

  // ----- why an append is refused

  /** The append came the right way and fits, whatever else is wrong with it. */
  predicate HeaderOk(a: App, op: Op, env: BeginEnv) {
    && op.chunkId == a.chunkId && op.numServers == a.numServers && env.peer == a.peer && env.replicationPos == a.pos
    && a.nextOffset + |op.data| <= CHUNKSIZE && (if a.IsMaster() then op.fileOffset < 0 else op.fileOffset >= 0)
  }

  /** What a client is told: that the appender is not open, that its id was inquired about, that the peer is down, or that the request is wrong. */
  lemma MasterRefusal(a: App, op: Op, env: BeginEnv)
    requires a.IsMaster() && !MasterTakes(a, op, env)
    ensures var st := AppendBegin(a, op, false, env).0.status;
      var open, paid := a.IsOpen() && env.leaseValid, env.clientReserved.Some? ==> |op.data| <= env.clientReserved.value;
      && (st.EProtocolState? <==> op.chunkId == a.chunkId && !open)
      && (st.EWidReadOnly? <==> open && HeaderOk(a, op, env) && paid && op.writeId in a.wids && a.wids[op.writeId].readOnly)
      && (st.EReplicationFailed? <==> a.pos + 1 < a.numServers && !env.peerUp && MasterTakes(a, op, env.(peerUp := true)))
      && (st.EProtocolState? || st.EWidReadOnly? || st.EReplicationFailed? || st.EParameters?)
  {
    var c := CheckLease(a, env.leaseValid);
    SetUntouched(a, ReplicationFailed);
    if c.IsOpen() { MasterPlaceIff(a, op, env); }
  }

  /** The same for what a slave tells the server before it. */
  lemma SlaveRefusal(a: App, op: Op, env: BeginEnv)
    requires !a.IsMaster() && !SlaveTakes(a, op, env)
    ensures var st := Begin(a, op, false, env).status;
      && (st.EProtocolState? <==> op.chunkId == a.chunkId && !a.IsOpen())
      && (st.EWidReadOnly? <==>
            a.IsOpen() && HeaderOk(a, op, env) && !(op.IsAck() && op.masterCommitted >= 0)
            && op.writeId in a.wids && a.wids[op.writeId].readOnly)
      && (st.EReplicationFailed? <==> a.pos + 1 < a.numServers && !env.peerUp && SlaveTakes(a, op, env.(peerUp := true)))
      && (st.EProtocolState? || st.EWidReadOnly? || st.EReplicationFailed? || st.EParameters?)
  {
    if a.IsOpen() && op.fileOffset >= 0 {
      SlavePlaceIff(a, op, env);
      if op.writeId in a.wids { SettleIff(a, op); }
    }
  }

  // ----- commit

  /** The append is the next one to commit, for this chunk and version. */
  predicate NextToCommit(a: App, op: Op) {
    op.fileOffset == a.nextCommit && op.chunkId == a.chunkId && op.version == a.version
  }

  /** It has an open row, or it is the master's own or carries the master's news. */
  predicate RowIsOpen(a: App, op: Op) {
    if op.writeId in a.wids && !(a.IsMaster() && op.IsAck()) then a.wids[op.writeId].status.InProgress?
    else op.IsAck() && (a.IsMaster() || op.masterCommitted >= 0)
  }

  /**
   An append that came back is committed exactly if the appender is open, the append succeeded further down, and it
   is the next one with an open row. A failed one ends the appender's part in the chain; one that is out of line
   brings the server down; an appender that is not open does nothing.
   */
  lemma CommitsIff(a: App, op: Op, ok: bool)
    ensures var (b, done) := Commit(a, op, ok);
      && (done <==> a.IsOpen() && ok && NextToCommit(a, op) && RowIsOpen(a, op))
      && b.log == a.log && b.nextOffset == a.nextOffset && b.wids.Keys == a.wids.Keys
      && (forall v | v in a.wids && v != op.writeId :: b.wids[v] == a.wids[v])
      && b.nextCommit == (if done && op.writeId in a.wids && !(a.IsMaster() && op.IsAck()) then a.nextCommit + |op.data| else a.nextCommit)
      && (done && op.writeId in a.wids && !(a.IsMaster() && op.IsAck()) ==>
            && b.wids[op.writeId].appendCount == a.wids[op.writeId].appendCount + 1
            && b.wids[op.writeId].status == if a.IsMaster() then Success else InProgress)
      && (done ==> b.IsOpen() && b.aborted == a.aborted)
      && (!a.IsOpen() ==> b == a)
      && (a.IsOpen() && !ok ==> !b.IsOpen())
      && (a.IsOpen() && ok && !done ==> b == a.(aborted := true))
  {
    if a.IsOpen() && !ok { FailedCommit(a); }
  }

  lemma FailedCommit(a: App)
    requires a.IsOpen()
    ensures var b := SetState(a, ReplicationFailed);
      !b.IsOpen() && b.log == a.log && b.nextOffset == a.nextOffset && b.wids == a.wids && b.nextCommit == a.nextCommit
  {
  }

  // ----- write ids

  /** A write id is given out exactly if the request repeats the route, the appender is open, and there are not too many ids. */
  lemma AllocateIff(a: App, r: WriteIdRequest, max: nat, leaseValid: bool)
    requires r.writeId !in a.wids
    ensures var (b, st) := AllocateWriteId(a, r, max, leaseValid);
      && (st.Success? <==>
            && a.IsOpen() && (a.IsMaster() ==> leaseValid) && |a.wids| < max
            && r.chunkId == a.chunkId && r.version == a.version && r.pos == a.pos && r.peer == a.peer && r.numServers == a.numServers)
      && (if st.Success? then
            && b.wids.Keys == a.wids.Keys + {r.writeId} && (forall v | v in a.wids :: b.wids[v] == a.wids[v])
            && var ws := b.wids[r.writeId];
            && ws.status.Success? && !ws.readOnly && ws.reserved == 0 && ws.appendCount == 0 && ws.offset < 0 && ws.clientSeq == r.clientSeq
          else b.wids == a.wids)
      && b.log == a.log && b.nextCommit == a.nextCommit
  {
    SetUntouched(a, ReplicationFailed);
    if a.IsOpen() { FailedCommit(a); }
  }

  /** How far the master is known to have committed at a slave, with what a close says about it. */
  function LearnedFromClose(a: App, mc: int): int {
    if 0 <= mc && a.masterCommitted <= mc <= a.nextCommit then mc else a.masterCommitted
  }

  /** A slave closes a write id exactly if it can still be used and its last append is over, as far as the slave knows. */
  lemma SlaveCloseIff(a: App, w: int, mc: int)
    requires !a.IsMaster()
    ensures var (b, st) := CloseWriteId(a, w, mc);
      && (st.ENotFound? <==> w !in a.wids)
      && (st.Success? <==>
            && w in a.wids && !a.wids[w].readOnly
            && var ws := a.wids[w];
            ws.status.Success? ||
            (ws.status.InProgress? && ws.End() <= if a.makeStableSucceeded then a.chunkSize else LearnedFromClose(a, mc)))
      && b.wids.Keys == (if st.Success? then a.wids.Keys - {w} else a.wids.Keys)
      && b.log == a.log && b.phase == a.phase && b.nextCommit == a.nextCommit
  {
    if w in a.wids { CloseSettles(a, w, mc); }
  }

  lemma CloseSettles(a: App, w: int, mc: int)
    requires !a.IsMaster() && w in a.wids
    ensures var b, ws := CloseSettle(a, w, mc), a.wids[w];
      && b.wids.Keys == a.wids.Keys && b.log == a.log && b.phase == a.phase && b.nextCommit == a.nextCommit
      && b.wids[w].readOnly == ws.readOnly
      && b.wids[w].status ==
         if ws.status.InProgress? && ws.End() <= (if a.makeStableSucceeded then a.chunkSize else LearnedFromClose(a, mc)) then Success
         else ws.status
  {
    HeardFromClose(a, mc);
  }

  lemma HeardFromClose(a: App, mc: int)
    ensures var h := if mc >= 0 then UpdateMasterCommitted(a, mc) else a;
      h == a.(masterCommitted := LearnedFromClose(a, mc), windowErrors := h.windowErrors)
  {
  }

  /** The master's own append: it carries nothing but how far the master committed. */
  lemma MasterAckIff(a: App, op: Op, env: BeginEnv)
    requires a.IsMaster() && op.IsAck()
    ensures var b := Begin(a, op, true, env);
      && (b.status.Success? <==> RouteOk(a, op, env) && env.leaseValid && op.fileOffset < 0)
      && (b.status.Success? ==>
            && b.app.IsOpen() && (b.forwarded <==> a.numServers > 1)
            && Took(a, b.op, b.app) && b.op.fileOffset == a.nextOffset && b.op == op.(fileOffset := a.nextOffset, masterCommitted := b.op.masterCommitted)
            && (b.forwarded ==> b.op.masterCommitted == a.nextCommit == b.app.ackSent))
  {
    var c := CheckLease(a, env.leaseValid);
    SetUntouched(a, ReplicationFailed);
    if c.IsOpen() { AckPlace(a, op, env); }
  }

  lemma AckPlace(a: App, op: Op, env: BeginEnv)
    requires a.IsMaster() && op.IsAck()
    ensures Place(a, op, true, env) == Placed(a, op.(fileOffset := a.nextOffset), Success)
  {
  }
}
