/**
 The appender object itself: the same operations, step by step on mutable fields.
 Every method is proved against the function of module RecordAppender that describes it.
 */
module AppenderObject {
  import opened Common
  import opened RecordAppender

  /** What one appender adds to the manager's counters. */
  datatype Tally = Tally(open: nat, active: nat, withWriteIds: nat)
  {
    function Plus(t: Tally): Tally { Tally(open + t.open, active + t.active, withWriteIds + t.withWriteIds) }
  }

  /** The counters that all appenders of a server share. None of them is ever taken below zero. */
  class Counters {
    var open: nat
    var active: nat
    var withWriteIds: nat

    constructor ()
      ensures Value() == Tally(0, 0, 0)
    {
      open, active, withWriteIds := 0, 0, 0;
    }

    function Value(): Tally
      reads this
    {
      Tally(open, active, withWriteIds)
    }

    method DecOpen()
      modifies this`open
      ensures open == if old(open) > 0 then old(open) - 1 else 0
    {
      if open > 0 { open := open - 1; }
    }

    method DecWithWriteIds()
      modifies this`withWriteIds
      ensures withWriteIds == if old(withWriteIds) > 0 then old(withWriteIds) - 1 else 0
    {
      if withWriteIds > 0 { withWriteIds := withWriteIds - 1; }
    }
  }

  class AtomicRecordAppender {
    const counters: Counters
    ghost var others: Tally   // what all other appenders add to the counters
    const chunkId: int
    const version: int
    const pos: nat
    const numServers: nat
    const peer: int
    var phase: Phase
    var nextOffset: nat
    var nextCommit: nat
    var ackSent: nat
    var masterCommitted: int
    var log: seq<Byte>
    var bytesReserved: nat
    var wids: map<int, WriteId>
    var inFlight: seq<Op>
    var trim: bool
    var target: Option<nat>
    var beginPending: bool
    var chunkSize: int
    var makeStableSucceeded: bool
    var aborted: bool
    var windowErrors: nat

    /** The state of the object as a value. */
    function Model(): App
      reads this
    {
      App(chunkId, version, pos, numServers, peer, phase, nextOffset, nextCommit, ackSent, masterCommitted, log,
          bytesReserved, wids, inFlight, trim, target, beginPending, chunkSize, makeStableSucceeded, aborted, windowErrors)
    }

    /** What this appender adds to the counters. */
    function Share(): Tally
      reads this
    {
      Tally(if phase.Open? then 1 else 0, if IsChunkStable(phase) then 0 else 1, if wids == map[] then 0 else 1)
    }

    /** The counters are the sum of what all other appenders add, and of this share. */
    ghost predicate Counted()
      reads this, counters
    {
      counters.Value() == others.Plus(Share())
    }

    /** They still are, and the appender was not deleted. */
    twostate predicate Kept()
      reads this, counters
    {
      Counted() && others == old(others) && (phase.PendingDelete? ==> old(phase).PendingDelete?)
    }

    constructor (counters: Counters, chunkId: int, version: int, pos: nat, numServers: nat, peer: int, content: seq<Byte>)
      ensures Model() == NewAppender(chunkId, version, pos, numServers, peer, content)
      ensures this.counters == counters
    {
      this.counters := counters;
      others := Tally(0, 0, 0);
      this.chunkId, this.version, this.pos, this.numServers, this.peer := chunkId, version, pos, numServers, peer;
      phase, nextOffset, nextCommit, ackSent, masterCommitted := Open, |content|, |content|, |content|, -1;
      log, bytesReserved, wids, inFlight := content, 0, map[], [];
      trim, target, beginPending := false, None, false;
      chunkSize, makeStableSucceeded, aborted, windowErrors := -1, false, false, 0;
    }

    // ----- state transitions

    method EnterState(p: Phase)
      requires Counted() && !p.Open?
      modifies this, counters
      ensures Counted() && others == old(others) && (phase.PendingDelete? ==> p.PendingDelete? || old(phase).PendingDelete?)
      ensures Model() == Enter(old(Model()), p)
    {
      if p == phase || phase.PendingDelete? { return; }
      var wasStable, previous := IsChunkStable(phase), phase;
      phase := p;
      CountTransition(previous);
      if (wasStable && !IsChunkStable(phase)) || (phase.ReplicationFailed? && !previous.Open?) {
        aborted := true;
        return;
      }
      makeStableSucceeded := makeStableSucceeded || phase.Stable?;
    }

    /** The phase changed from `previous`: keep the counters right. */
    method CountTransition(previous: Phase)
      requires previous != phase && !phase.Open?
      requires counters.open >= (if previous.Open? then 1 else 0) && counters.active >= (if IsChunkStable(previous) then 0 else 1)
      modifies counters
      ensures counters.open == old(counters.open) - (if previous.Open? then 1 else 0)
      ensures counters.active + (if IsChunkStable(previous) then 0 else 1) == old(counters.active) + (if IsChunkStable(phase) then 0 else 1)
      ensures counters.withWriteIds == old(counters.withWriteIds)
    {
      if previous.Open? { counters.DecOpen(); }
      if IsChunkStable(previous) != IsChunkStable(phase) { UpdateActive(); }
    }

    /** A stable appender is no longer active. */
    method UpdateActive()
      modifies counters`active
      ensures counters.active == if !IsChunkStable(phase) then old(counters.active) + 1
                                 else if old(counters.active) > 0 then old(counters.active) - 1 else 0
    {
      if !IsChunkStable(phase) { counters.active := counters.active + 1; }
      else if counters.active > 0 { counters.active := counters.active - 1; }
    }

    method TrimToLastCommit()
      requires Counted()
      modifies this, counters
      ensures Kept()
      ensures Model() == RecordAppender.TrimToLastCommit(old(Model()))
    {
      if trim || target.Some? {
        aborted := true;
        return;
      }
      trim := true;
      CloseIfLive();
    }

    method TryToCloseChunk()
      requires Counted()
      modifies this, counters
      ensures Kept()
      ensures Model() == TryToCloseFailed(old(Model()))
    {
      if pos != 0 { return; }
      if phase.Open? || phase.ReplicationFailed? {
        if trim || target.Some? || beginPending {
          aborted := true;
          return;
        }
        TrimToLastCommit();
      }
    }

    method SetState(p: Phase)
      requires Counted() && !p.Open?
      modifies this, counters
      ensures Counted() && others == old(others) && (phase.PendingDelete? ==> p.PendingDelete? || old(phase).PendingDelete?)
      ensures Model() == RecordAppender.SetState(old(Model()), p)
    {
      var previous := phase;
      EnterState(p);
      if phase != previous && phase.ReplicationFailed? { TryToCloseChunk(); }
    }

    method CheckLeaseAndChunk(leaseValid: bool)
      requires Counted()
      modifies this, counters
      ensures Kept()
      ensures Model() == CheckLease(old(Model()), leaseValid)
    {
      if phase.Open? && pos == 0 && !leaseValid { SetState(ReplicationFailed); }
    }

    method Delete()
      requires Counted()
      modifies this, counters
      ensures Counted() && others == old(others) && phase.PendingDelete?
      ensures var a := old(Model());
        Model() == if a.phase.PendingDelete? then a else RecordAppender.SetState(a.(wids := map[]), PendingDelete)
    {
      if phase.PendingDelete? { return; }
      if wids != map[] { counters.DecWithWriteIds(); }
      wids := map[];
      SetState(PendingDelete);
    }

    /** Delete, as far as the counters are concerned. */
    method Discard()
      requires Counted() && !phase.PendingDelete?
      modifies this, counters
      ensures Counted() && others == old(others) && Share() == Tally(0, 0, 0)
    {
      Delete();
    }

    // ----- timeouts and loss

    method ReplicationTimeout()
      requires Counted()
      modifies this, counters
      ensures Kept()
      ensures Model() == RecordAppender.ReplicationTimeout(old(Model()))
    {
      if phase.Open? && inFlight != [] { SetState(ReplicationFailed); }
    }

    method IdleTimeout()
      requires Counted()
      modifies this, counters
      ensures Kept()
      ensures Model() == RecordAppender.IdleTimeout(old(Model()))
    {
      if pos == 0 && phase.Open? && bytesReserved == 0 && inFlight == [] && (numServers <= 1 || nextCommit <= ackSent) {
        TryToCloseChunk();
      }
    }

    /** A write failed, or the chunk manager gave the chunk up. */
    method LoseChunk()
      requires Counted()
      modifies this, counters
      ensures Kept()
      ensures Model() == RecordAppender.SetState(old(Model()), ChunkLost)
    {
      SetState(ChunkLost);
    }

    // ----- write ids and space

    /** The checks on a request for a write id, in the order in which they are made. */
    method CheckAllocation(r: WriteIdRequest, maxWriteIds: nat) returns (status: Status)
      ensures status == AllocateCheck(Model(), r, maxWriteIds)
    {
      if r.chunkId != chunkId { return EParameters; }
      if r.version != version { return EParameters; }
      if r.pos != pos { return EParameters; }
      if r.peer != peer { return EParameters; }
      if r.numServers != numServers { return EParameters; }
      if !phase.Open? { return EProtocolState; }
      if |wids| >= maxWriteIds { return EOutOfSpace; }
      return Success;
    }

    method AllocateWriteId(r: WriteIdRequest, maxWriteIds: nat, leaseValid: bool) returns (status: Status)
      requires Counted()
      modifies this, counters
      ensures Kept()
      ensures (Model(), status) == RecordAppender.AllocateWriteId(old(Model()), r, maxWriteIds, leaseValid)
    {
      CheckLeaseAndChunk(leaseValid);
      status := CheckAllocation(r, maxWriteIds);
      if !status.Success? { return; }
      if r.writeId in wids {
        aborted := true;
      } else {
        if wids == map[] { counters.withWriteIds := counters.withWriteIds + 1; }
        wids := wids[r.writeId := FRESH_WRITE_ID.(clientSeq := r.clientSeq)];
      }
    }

    method ChangeChunkSpaceReservation(w: int, n: nat, release: bool, leaseValid: bool) returns (status: Status)
      requires Counted()
      modifies this, counters
      ensures Kept()
      ensures (Model(), status) == ChangeReservation(old(Model()), w, n, release, leaseValid)
    {
      CheckLeaseAndChunk(leaseValid);
      status := Success;
      if pos != 0 {
        status := EParameters;
      } else if !phase.Open? {
        status := EProtocolState;
      } else if w !in wids {
        if !release { status := EParameters; }
      } else if release {
        ReleaseSpace(w, n);
      } else {
        status := ReserveSpace(w, n);
      }
    }

    method ReserveSpace(w: int, n: nat) returns (status: Status)
      requires w in wids
      modifies this`wids, this`bytesReserved
      ensures var a, ws := old(Model()), old(wids[w]);
        (Model(), status) ==
        if ws.readOnly then (a, EParameters)
        else if a.nextOffset + a.bytesReserved + n > CHUNKSIZE then (a, EOutOfSpace)
        else (a.(bytesReserved := a.bytesReserved + n, wids := a.wids[w := ws.(reserved := ws.reserved + n)]), Success)
      ensures Share() == old(Share()) && others == old(others)
    {
      status := Success;
      if wids[w].readOnly {
        status := EParameters;
      } else if nextOffset + bytesReserved + n > CHUNKSIZE {
        status := EOutOfSpace;
      } else {
        bytesReserved := bytesReserved + n;
        wids := wids[w := wids[w].(reserved := wids[w].reserved + n)];
      }
    }

    method ReleaseSpace(w: int, n: nat)
      requires w in wids
      modifies this`wids, this`bytesReserved, this`aborted
      ensures var a, ws := old(Model()), old(wids[w]);
        var m := if ws.reserved >= n then n else ws.reserved;
        Model() == if ws.readOnly then (if ws.reserved > 0 then a.(aborted := true) else a)
                   else a.(bytesReserved := SizeSub(a.bytesReserved, m), wids := a.wids[w := ws.(reserved := ws.reserved - m)])
      ensures Share() == old(Share()) && others == old(others)
    {
      if wids[w].readOnly {
        if wids[w].reserved > 0 { aborted := true; }
      } else if wids[w].reserved >= n {
        bytesReserved := SizeSub(bytesReserved, n);
        wids := wids[w := wids[w].(reserved := wids[w].reserved - n)];
      } else {
        bytesReserved := SizeSub(bytesReserved, wids[w].reserved);
        wids := wids[w := wids[w].(reserved := 0)];
      }
    }

    method InvalidateWriteId(w: int, declareFailure: bool) returns (status: Status)
      requires Counted()
      modifies this, counters
      ensures Kept()
      ensures (Model(), status) == RecordAppender.InvalidateWriteId(old(Model()), w, declareFailure)
    {
      status := Success;
      if w in wids && wids[w].status.Success? && wids[w].appendCount == 0 && !wids[w].readOnly {
        wids := wids - {w};
        if wids == map[] { counters.DecWithWriteIds(); }
        if declareFailure && phase.Open? { SetState(ReplicationFailed); }
      } else {
        status := EParameters;
      }
    }

    // ----- append

    method UpdateMasterCommittedOffset(mc: int)
      modifies this`masterCommitted, this`windowErrors
      ensures Model() == UpdateMasterCommitted(old(Model()), mc)
    {
      if mc >= masterCommitted && mc <= nextCommit {
        masterCommitted := mc;
      } else {
        windowErrors := windowErrors + 1;
      }
    }

    /** The slave part: what the append says about earlier ones. */
    method SettleBeforeAppend(w: int, mc: int)
      requires w in wids
      modifies this
      ensures Model() == Settle(UpdateMasterCommitted(old(Model()), mc), w)
      ensures Share() == old(Share()) && others == old(others)
    {
      UpdateMasterCommittedOffset(mc);
      if wids[w].status.InProgress? && masterCommitted >= wids[w].End() {
        wids := wids[w := wids[w].(status := Success)];
      }
    }

    /** The master part: the append is paid from the reservation, and gets its offset. */
    method Charge(op0: Op) returns (op: Op, status: Status)
      requires op0.writeId in wids
      modifies this
      ensures var a, n := old(Model()), |op0.data|;
        var ws := a.wids[op0.writeId];
        if ws.reserved < n || a.bytesReserved < n then Model() == a && op == op0 && status.EParameters?
        else
          && op == op0.(fileOffset := a.nextOffset) && status.Success?
          && Model() == a.(bytesReserved := a.bytesReserved - n, wids := a.wids[op0.writeId := ws.(reserved := ws.reserved - n)],
                           nextOffset := a.nextOffset + n)
      ensures Share() == old(Share()) && others == old(others)
    {
      op, status := op0, Success;
      if wids[op.writeId].reserved < |op.data| || bytesReserved < |op.data| { return op, EParameters; }
      op := op.(fileOffset := nextOffset);
      bytesReserved := bytesReserved - |op.data|;
      wids := wids[op.writeId := wids[op.writeId].(reserved := wids[op.writeId].reserved - |op.data|)];
      nextOffset := nextOffset + |op.data|;
    }

    /** The write id part of AppendBegin. */
    method PlaceWithWriteId(op0: Op, checksumOk: bool) returns (op: Op, status: Status)
      requires Counted()
      modifies this, counters
      ensures Kept()
      ensures Placed(Model(), op, status) == PlaceData(old(Model()), op0, checksumOk)
    {
      op, status := op0, Success;
      if op.writeId !in wids {
        status := EParameters;
        return;
      }
      if pos == 0 {
        op, status := PlaceAtMaster(op, checksumOk);
        return;
      }
      if op.fileOffset != nextOffset {
        status := if wids[op.writeId].readOnly then EWidReadOnly else EParameters;
        SetState(ReplicationFailed);
        return;
      }
      SettleBeforeAppend(op.writeId, op.masterCommitted);
      if wids[op.writeId].readOnly {
        status := EWidReadOnly;
      } else if !wids[op.writeId].status.Success? {
        status := EParameters;
      } else if !checksumOk {
        status := EParameters;
        SetState(ReplicationFailed);
      } else {
        nextOffset := nextOffset + |op.data|;
      }
    }

    method PlaceAtMaster(op0: Op, checksumOk: bool) returns (op: Op, status: Status)
      requires pos == 0 && op0.writeId in wids
      modifies this
      ensures Placed(Model(), op, status) == PlaceData(old(Model()), op0, checksumOk)
      ensures Share() == old(Share()) && others == old(others)
    {
      op := op0;
      if wids[op.writeId].readOnly {
        status := EWidReadOnly;
      } else if !wids[op.writeId].status.Success? || !checksumOk {
        status := EParameters;
      } else {
        op, status := Charge(op);
      }
    }

    method PlaceAppend(op0: Op, internal: bool, env: BeginEnv) returns (op: Op, status: Status)
      requires Counted()
      modifies this, counters
      ensures Kept()
      ensures Placed(Model(), op, status) == Place(old(Model()), op0, internal, env)
    {
      op, status := op0, Success;
      if op.data == [] && op.writeId == NO_WRITE_ID && (if pos == 0 then internal else op.masterCommitted >= 0) {
        if pos == 0 {
          op := op.(fileOffset := nextOffset);
        } else if op.fileOffset != nextOffset {
          status := EParameters;
          SetState(ReplicationFailed);
        } else {
          UpdateMasterCommittedOffset(op.masterCommitted);
        }
      } else {
        op, status := PlaceWithWriteId(op, env.checksumOk);
      }
    }

    /** The append is accepted here: remember it, buffer its data, and hand it to the peer if there is one. */
    method Accept(op0: Op, ack: bool, forward: bool) returns (op: Op)
      modifies this
      ensures op == if forward && pos == 0 then op0.(masterCommitted := nextCommit) else op0
      ensures var a := old(Model());
        var b := if ack || op0.writeId !in a.wids then a else Record(a, op0);
        var c := if forward && pos == 0 then b.(ackSent := b.nextCommit) else b;
        Model() == if forward then c.(inFlight := c.inFlight + [op]) else c
      ensures Share() == old(Share()) && others == old(others)
    {
      op := op0;
      if !ack && op.writeId in wids {
        wids := wids[op.writeId := wids[op.writeId].(
          status := InProgress, length := |op.data|, offset := op.fileOffset, clientSeq := op.clientSeq)];
        log := log + op.data;
      }
      if forward {
        if pos == 0 {
          op := op.(masterCommitted := nextCommit);
          ackSent := nextCommit;
        }
        inFlight := inFlight + [op];
      }
    }

    /** The header checks, in the order in which they are made. */
    method CheckHeader(op: Op, internal: bool, env: BeginEnv) returns (status: Status)
      ensures status == BeginCheck(Model(), op, internal, env)
    {
      if op.chunkId != chunkId { return EParameters; }
      if !phase.Open? { return EProtocolState; }
      if peer != env.peer { return EParameters; }
      if pos != env.replicationPos { return EParameters; }
      if pos == 0 && op.fileOffset >= 0 { return EParameters; }
      if pos != 0 && op.fileOffset < 0 { return EParameters; }
      if numServers != op.numServers { return EParameters; }
      if nextOffset + |op.data| > CHUNKSIZE { return EParameters; }
      if pos == 0 && !internal && env.clientReserved.Some? && env.clientReserved.value < |op.data| { return EParameters; }
      return Success;
    }

    method BeginOp(op0: Op, internal: bool, env: BeginEnv) returns (op: Op, status: Status, forwarded: bool)
      requires Counted()
      modifies this, counters
      ensures Kept()
      ensures Begun(Model(), op, status, forwarded) == Begin(old(Model()), op0, internal, env)
    {
      op, forwarded := op0, false;
      CheckLeaseAndChunk(env.leaseValid);
      status := CheckHeader(op, internal, env);
      if !status.Success? {
        if internal { aborted := true; }
        return;
      }
      if internal && pos != 0 {
        aborted, status := true, EParameters;
        return;
      }
      var ack := IsMasterAck(Model(), op, internal);
      op, status := PlaceAppend(op, internal, env);
      if !status.Success? { return; }
      if pos + 1 < numServers {
        if !env.peerUp {
          status := EReplicationFailed;
          return;
        }
        forwarded := true;
      }
      op := Accept(op, ack, forwarded);
    }

    method AppendBegin(op0: Op, internal: bool, env: BeginEnv) returns (op: Op, status: Status, forwarded: bool, ok: bool)
      requires Counted()
      modifies this, counters
      ensures Kept()
      ensures (Begun(Model(), op, status, forwarded), ok) == RecordAppender.AppendBegin(old(Model()), op0, internal, env)
    {
      op, status, forwarded := BeginOp(op0, internal, env);
      if forwarded {
        ok := true;
      } else if pos == 0 && !status.Success? {
        ok := false;
      } else {
        ok := AppendCommit(op, status.Success?);
      }
    }

    // ----- commit

    method AppendCommit(op: Op, ok: bool) returns (committed: bool)
      requires Counted()
      modifies this, counters
      ensures Kept()
      ensures (Model(), committed) == Commit(old(Model()), op, ok)
    {
      committed := false;
      if !phase.Open? { return; }
      if !ok {
        SetState(ReplicationFailed);
        return;
      }
      if CommitInvalid(Model(), op) {
        aborted := true;
        return;
      }
      committed := true;
      if op.writeId in wids && !(pos == 0 && op.IsAck()) {
        nextCommit := nextCommit + |op.data|;
        var ws := wids[op.writeId];
        ws := ws.(appendCount := ws.appendCount + 1);
        if pos == 0 { ws := ws.(status := Success); }
        wids := wids[op.writeId := ws];
      }
    }

    /** Unlink the op from the list of ops in flight, wherever it is. */
    method Unlink(id: nat)
      modifies this`inFlight
      ensures inFlight == Without(old(inFlight), id)
    {
      var k := 0;
      ghost var all := inFlight;
      while k < |inFlight| && inFlight[k].id != id
        invariant 0 <= k <= |inFlight| && inFlight == all
        invariant Without(all, id) == all[..k] + Without(all[k..], id)
      {
        assert all[..k + 1] == all[..k] + [all[k]] && all[k..][1..] == all[k + 1..];
        k := k + 1;
      }
      if k < |inFlight| {
        assert all[k..][1..] == all[k + 1..];
        inFlight := inFlight[..k] + inFlight[k + 1..];
      }
    }

    method OpDone(op: Op, ok: bool) returns (committed: bool)
      requires Counted()
      modifies this, counters
      ensures Kept()
      ensures (Model(), committed) == RecordAppender.OpDone(old(Model()), op, ok)
    {
      Unlink(op.id);
      committed := AppendCommit(op, ok);
    }

    // ----- inquiry and close

    method GetOpStatus(w: int) returns (answer: Option<Answer>)
      requires Counted()
      modifies this, counters
      ensures Kept()
      ensures (Model(), answer) == RecordAppender.GetOpStatus(old(Model()), w)
    {
      if w !in wids { return None; }
      var ws := wids[w];
      if ws.status.InProgress? {
        if makeStableSucceeded {
          ws := ws.(status := if chunkSize >= ws.End() then Success else EFailedState);
        } else if pos != 0 && masterCommitted >= ws.End() {
          ws := ws.(status := Success);
        }
      }
      answer := Some(Answer(w, ws.status, ws.offset, ws.length, ws.clientSeq, ws.readOnly));
      if bytesReserved >= ws.reserved {
        bytesReserved := bytesReserved - ws.reserved;
      } else {
        bytesReserved := 0;
      }
      wids := wids[w := ws.(reserved := 0, readOnly := true)];
    }

    method SettleForClose(w: int, mc: int)
      requires w in wids
      requires Counted()
      modifies this, counters
      ensures Kept()
      ensures Model() == CloseSettle(old(Model()), w, mc)
    {
      if pos == 0 { return; }
      if mc >= 0 { UpdateMasterCommittedOffset(mc); }
      var ws := wids[w];
      if ws.status.InProgress? && (if makeStableSucceeded then chunkSize else masterCommitted) >= ws.End() {
        wids := wids[w := ws.(status := Success)];
      }
    }

    method CloseChunk(w: int, mc: int) returns (status: Status)
      requires Counted()
      modifies this, counters
      ensures Kept()
      ensures (Model(), status) == CloseWriteId(old(Model()), w, mc)
    {
      if w !in wids { return ENotFound; }
      SettleForClose(w, mc);
      var ws := wids[w];
      if ws.status.InProgress? { return InProgress; }
      if ws.readOnly || !ws.status.Success? { return EParameters; }
      bytesReserved := if bytesReserved >= ws.reserved then bytesReserved - ws.reserved else 0;
      wids := wids - {w};
      if wids == map[] { counters.DecWithWriteIds(); }
      status := Success;
    }

    // ----- convergence

    /** An appender that is open or failed is closed. */
    method CloseIfLive()
      requires Counted()
      modifies this, counters
      ensures Kept()
      ensures var a := old(Model()); Model() == if a.AcceptsClose() then Enter(a, Closed) else a
    {
      if phase.Open? || phase.ReplicationFailed? { EnterState(Closed); }
    }

    /** The answer to begin-make-stable, once nothing is left to trim. */
    method ReplySize() returns (reply: BeginReply)
      modifies this`chunkSize, this`beginPending
      ensures var a := old(Model());
        var d := a.(chunkSize := if a.chunkSize < 0 then |a.log| else a.chunkSize, beginPending := false);
        Model() == d && reply == if d.chunkSize < 0 then Failed else Size(d.chunkSize)
    {
      beginPending := false;
      if chunkSize < 0 { chunkSize := |log|; }
      reply := if chunkSize < 0 then Failed else Size(chunkSize);
    }

    method BeginMakeStable(chunkVersion: int, ioInFlight: bool) returns (reply: BeginReply)
      requires Counted()
      modifies this, counters
      ensures Kept()
      ensures (Model(), reply) == RecordAppender.BeginMakeStable(old(Model()), chunkVersion, ioInFlight)
    {
      reply := NoReply;
      if chunkVersion != version { return Failed; }
      beginPending := true;
      if trim || target.Some? { return; }
      CloseIfLive();
      if !phase.Closed? {
        beginPending := false;
        return Failed;
      }
      reply := TrimOrReply(ioInFlight);
    }

    method TrimOrReply(ioInFlight: bool) returns (reply: BeginReply)
      requires Counted()
      modifies this, counters
      ensures Kept()
      ensures var c := old(Model());
        var d := c.(chunkSize := if c.chunkSize < 0 then |c.log| else c.chunkSize, beginPending := false);
        (Model(), reply) ==
        if c.nextCommit < |c.log| then (RecordAppender.TrimToLastCommit(c), NoReply)
        else if ioInFlight then (c, NoReply)
        else (d, if d.chunkSize < 0 then Failed else Size(d.chunkSize))
    {
      reply := NoReply;
      if nextCommit < |log| { TrimToLastCommit(); } else if !ioInFlight { reply := ReplySize(); }
    }

    method MakeChunkStable(size: nat)
      requires Counted()
      modifies this, counters
      ensures Kept()
      ensures Model() == RequestStable(old(Model()), size)
    {
      if target.Some? && target.value != size { return; }
      target := Some(size);
      CloseIfLive();
      if !phase.Closed? { AnswerQueued(); }
    }

    /** Answers and drops every queued make-stable and begin-make-stable op. */
    method AnswerQueued()
      modifies this`trim, this`target, this`beginPending
      ensures Model() == StableDone(old(Model()))
    {
      trim, target, beginPending := false, None, false;
    }

    /** Report the outcome to every queued make-stable and begin-make-stable op. */
    method MakeChunkStableDone(p: Phase)
      requires Counted() && !p.Open?
      modifies this, counters
      ensures Counted() && others == old(others) && (phase.PendingDelete? ==> p.PendingDelete? || old(phase).PendingDelete?)
      ensures Model() == StableDone(Enter(old(Model()), p))
    {
      EnterState(p);
      AnswerQueued();
    }

    /** Everything queued is written out; go on with the first queued make-stable op. */
    method WritesDone(written: nat, ioOk: bool) returns (relinquish: Option<nat>)
      requires written <= |log|
      requires Counted()
      modifies this, counters
      ensures Kept()
      ensures (Model(), relinquish) == FinishStable(old(Model()), written, ioOk)
    {
      relinquish := None;
      if !phase.Closed? || !(trim || target.Some?) { return; }
      var size := if trim then nextCommit else target.value;
      if size > written || !ioOk {
        MakeChunkStableDone(ChunkLost);
        return;
      }
      log, chunkSize, trim := log[..size], size, false;
      relinquish := NextStable(size);
    }

    /** The chunk has the size: go on with the meta server's request, or give up the lease. */
    method NextStable(size: nat) returns (relinquish: Option<nat>)
      requires Counted()
      modifies this, counters
      ensures Kept()
      ensures var b := old(Model());
        (Model(), relinquish) ==
        if b.target.None? then (b, if b.beginPending then None else Some(size))
        else (StableDone(Enter(b, if b.target.value != size then ChunkLost else Stable)), None)
    {
      relinquish := None;
      if target.Some? {
        MakeChunkStableDone(if target.value != size then ChunkLost else Stable);
      } else if !beginPending {
        relinquish := Some(size);
      }
    }
  }
}
