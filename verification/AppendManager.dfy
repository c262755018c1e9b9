/**
 The manager of all record appenders of a chunk server: finds the appender of a chunk, creates and detaches
 appenders, and counts them. After every call its counters equal a recount over the appenders it has.
 */
module AppendManager {
  import opened Common
  import opened RecordAppender
  import opened AppenderObject

  // ----- recount

  ghost function Recount(m: map<int, Tally>): Tally
    decreases |m|
  {
    if c :| c in m then m[c].Plus(Recount(m - {c})) else Tally(0, 0, 0)
  }

  lemma PlusCommutes(a: Tally, b: Tally, t: Tally)
    ensures a.Plus(b.Plus(t)) == b.Plus(a.Plus(t))
  {
  }

  lemma {:induction false} RecountSplit(m: map<int, Tally>, c: int)
    requires c in m
    ensures Recount(m) == m[c].Plus(Recount(m - {c}))
    decreases |m|
  {
    var d :| d in m && Recount(m) == m[d].Plus(Recount(m - {d}));
    if d != c {
      PlusCommutes(m[c], m[d], Recount(m - {c} - {d}));
      RecountSplit(m - {d}, c);
      RecountSplit(m - {c}, d);
      assert m - {d} - {c} == m - {c} - {d};
    }
  }

  lemma RecountSet(m: map<int, Tally>, c: int, a: Tally)
    ensures Recount(m[c := a]) == Recount(m - {c}).Plus(a)
    ensures c in m ==> Recount(m) == Recount(m - {c}).Plus(m[c])
    ensures c !in m ==> Recount(m) == Recount(m - {c})
  {
    RecountSplit(m[c := a], c);
    assert m[c := a] - {c} == m - {c};
    if c in m { RecountSplit(m, c); } else { assert m - {c} == m; }
  }

  // ----- what can be asked of an appender

  datatype Call =
    | AllocateWriteId(request: WriteIdRequest, maxWriteIds: nat, leaseValid: bool)
    | InvalidateWriteId(writeId: int, declareFailure: bool)
    | ChangeSpace(writeId: int, bytes: nat, release: bool, leaseValid: bool)
    | AppendBegin(op: Op, internal: bool, env: BeginEnv)
    | OpDone(op: Op, ok: bool)
    | GetOpStatus(writeId: int)
    | CloseChunk(writeId: int, committed: int)
    | BeginMakeStable(version: int, ioInFlight: bool)
    | MakeChunkStable(size: nat)
    | WritesDone(written: nat, ioOk: bool)
    | ReplicationTimeout
    | IdleTimeout
    | LoseChunk

  /** What an appender is after a call. */
  function After(a: App, call: Call): App {
    match call
    case AllocateWriteId(r, max, leaseValid) => RecordAppender.AllocateWriteId(a, r, max, leaseValid).0
    case InvalidateWriteId(w, declare) => RecordAppender.InvalidateWriteId(a, w, declare).0
    case ChangeSpace(w, n, release, leaseValid) => ChangeReservation(a, w, n, release, leaseValid).0
    case AppendBegin(op, internal, env) => RecordAppender.AppendBegin(a, op, internal, env).0.app
    case OpDone(op, ok) => RecordAppender.OpDone(a, op, ok).0
    case GetOpStatus(w) => RecordAppender.GetOpStatus(a, w).0
    case CloseChunk(w, mc) => CloseWriteId(a, w, mc).0
    case BeginMakeStable(v, ioInFlight) => RecordAppender.BeginMakeStable(a, v, ioInFlight).0
    case MakeChunkStable(size) => RequestStable(a, size)
    case WritesDone(written, ioOk) => if written <= |a.log| then FinishStable(a, written, ioOk).0 else a
    case ReplicationTimeout => RecordAppender.ReplicationTimeout(a)
    case IdleTimeout => RecordAppender.IdleTimeout(a)
    case LoseChunk => SetState(a, ChunkLost)
  }

  lemma LoseEnds(a: App)
    requires !a.phase.PendingDelete?
    ensures After(a, LoseChunk).phase.ChunkLost?
  {
  }

  method Perform(x: AtomicRecordAppender, call: Call)
    requires x.Counted()
    modifies x, x.counters
    ensures x.Kept() && x.Model() == After(old(x.Model()), call)
  {
    match call
    case AllocateWriteId(r, max, leaseValid) => var _ := x.AllocateWriteId(r, max, leaseValid);
    case InvalidateWriteId(w, declare) => var _ := x.InvalidateWriteId(w, declare);
    case ChangeSpace(w, n, release, leaseValid) => var _ := x.ChangeChunkSpaceReservation(w, n, release, leaseValid);
    case AppendBegin(op, internal, env) => var _, _, _, _ := x.AppendBegin(op, internal, env);
    case OpDone(op, ok) => var _ := x.OpDone(op, ok);
    case GetOpStatus(w) => var _ := x.GetOpStatus(w);
    case CloseChunk(w, mc) => var _ := x.CloseChunk(w, mc);
    case BeginMakeStable(v, ioInFlight) => var _ := x.BeginMakeStable(v, ioInFlight);
    case MakeChunkStable(size) => x.MakeChunkStable(size);
    case WritesDone(written, ioOk) => if written <= |x.log| { var _ := x.WritesDone(written, ioOk); }
    case ReplicationTimeout => x.ReplicationTimeout();
    case IdleTimeout => x.IdleTimeout();
    case LoseChunk => x.LoseChunk();
  }

  // ----- the manager

  /** What the chunk manager knows about a chunk; `loaded` when its checksums are in memory. */
  datatype ChunkState = ChunkState(fileOpen: bool, loaded: bool, version: int, content: seq<Byte>)
  {
    predicate Usable(v: int) { fileOpen && (loaded || content == []) && version == v }
  }

  /** `sameServers` and `sameHandle`: the server list and the file handle are those the appender was opened with. */
  datatype AllocateRequest = AllocateRequest(
    chunkId: int, version: int, numServers: nat, pos: nat, peer: int, sameServers: bool, sameHandle: bool)

  /** The request repeats what the appender was opened with. */
  predicate Matches(r: AllocateRequest, a: App) {
    r.version == a.version && r.numServers == a.numServers && r.pos == a.pos && r.peer == a.peer && r.sameServers && r.sameHandle
  }

  class AtomicRecordAppendManager {
    const counters: Counters
    var appenders: map<int, AtomicRecordAppender>
    ghost var shares: map<int, Tally>   // the share of every appender, by chunk

    /** The counters are right, and every appender is registered under its chunk. */
    ghost predicate Valid()
      reads this, counters, appenders.Values
    {
      && shares.Keys == appenders.Keys
      && (forall c | c in appenders :: Ours(c, appenders[c]) && shares[c] == appenders[c].Share())
      && counters.Value() == Recount(shares)
    }

    predicate Ours(c: int, x: AtomicRecordAppender)
      reads x
    {
      x.chunkId == c && x.counters == counters && !x.phase.PendingDelete?
    }

    constructor ()
      ensures Valid() && fresh(counters) && appenders == map[]
    {
      counters := new Counters();
      appenders, shares := map[], map[];
    }

    /** Whatever an appender is asked to do, no other one is touched, and the counters stay right. */
    method Dispatch(c: int, call: Call) returns (found: bool)
      requires Valid()
      modifies this`shares, counters, appenders.Values
      ensures Valid() && appenders == old(appenders) && found == (c in appenders)
      ensures found ==> appenders[c].Model() == After(old(appenders[c].Model()), call)
      ensures forall d | d in appenders && d != c :: appenders[d].Model() == old(appenders[d].Model())
    {
      found := c in appenders;
      if found {
        var x := appenders[c];
        RecountSet(shares, c, shares[c]);
        x.others := Recount(shares - {c});
        Perform(x, call);
        RecountSet(shares, c, x.Share());
        shares := shares[c := x.Share()];
      }
    }

    /** The chunk manager gives a chunk up: its appender stays, and knows that the chunk is lost. */
    method DeleteChunk(c: int)
      requires Valid()
      modifies this`shares, counters, appenders.Values
      ensures Valid() && appenders == old(appenders)
      ensures c in appenders ==> appenders[c].phase.ChunkLost?
      ensures forall d | d in appenders && d != c :: appenders[d].Model() == old(appenders[d].Model())
    {
      if c in appenders { LoseEnds(appenders[c].Model()); }
      var _ := Dispatch(c, LoseChunk);
    }

    /** Nothing happened for long after the chunk was closed: it is lost unless it is stable, and the appender goes. */
    method CleanUp(c: int)
      requires Valid()
      modifies this`appenders, this`shares, counters, appenders.Values
      ensures Valid() && appenders == old(appenders) - {c}
      ensures forall d | d in appenders :: appenders[d].Model() == old(appenders[d].Model())
    {
      if c in appenders && !appenders[c].phase.Stable? { DeleteChunk(c); }
      RemoveAppender(c);
    }

    /** Removes the appender of a chunk; operations in flight may keep it around, but it counts no more. */
    method RemoveAppender(c: int)
      requires Valid()
      modifies this`appenders, this`shares, counters, appenders.Values
      ensures Valid() && appenders == old(appenders) - {c}
      ensures forall d | d in appenders :: appenders[d].Model() == old(appenders[d].Model())
    {
      if c in appenders {
        var x := appenders[c];
        RecountSet(shares, c, shares[c]);
        x.others := Recount(shares - {c});
        x.Discard();
        appenders, shares := appenders - {c}, shares - {c};
      }
    }

    method AddAppender(c: int, x: AtomicRecordAppender)
      requires Valid() && c !in appenders && Ours(c, x) && x.phase.Open? && x.wids == map[]
      modifies this`appenders, this`shares, counters
      ensures Valid() && appenders == old(appenders)[c := x]
    {
      RecountSet(shares, c, x.Share());
      appenders, shares := appenders[c := x], shares[c := x.Share()];
      counters.open := counters.open + 1;
      x.UpdateActive();
    }

    /** The checks on a request to open a chunk that has an appender, in the order in which they are made. */
    method CheckParameters(r: AllocateRequest, x: AtomicRecordAppender) returns (status: Status)
      requires x.phase.Open?
      ensures status == if Matches(r, x.Model()) then Success else EParameters
    {
      if r.version != x.version { return EParameters; }
      if r.pos != x.pos { return EParameters; }
      if r.peer != x.peer { return EParameters; }
      if r.numServers != x.numServers { return EParameters; }
      if !r.sameServers { return EParameters; }
      if !r.sameHandle { return EParameters; }
      return Success;
    }

    /** A new appender, unless the chunk cannot be used. */
    method OpenAppender(r: AllocateRequest, chunk: ChunkState) returns (status: Status)
      requires Valid() && r.chunkId !in appenders
      modifies this`appenders, this`shares, counters
      ensures Valid() && status == if chunk.Usable(r.version) then Success else EParameters
      ensures forall d | d in old(appenders) ::
        d in appenders && appenders[d] == old(appenders[d]) && appenders[d].Model() == old(appenders[d].Model())
      ensures forall d | d in appenders && d != r.chunkId :: d in old(appenders)
      ensures if status.Success? then
          r.chunkId in appenders && fresh(appenders[r.chunkId]) &&
          appenders[r.chunkId].Model() == NewAppender(r.chunkId, r.version, r.pos, r.numServers, r.peer, chunk.content)
        else r.chunkId !in appenders
    {
      if !chunk.fileOpen || (!chunk.loaded && chunk.content != []) { return EParameters; }
      if chunk.version != r.version { return EParameters; }
      var x := new AtomicRecordAppender(counters, r.chunkId, r.version, r.pos, r.numServers, r.peer, chunk.content);
      AddAppender(r.chunkId, x);
      status := Success;
    }

    /**
     Opens a chunk for append. An open appender is kept if the parameters agree with it, one that is done is
     replaced, and nothing is left behind when the chunk cannot be opened.
     */
    method AllocateChunk(r: AllocateRequest, chunk: ChunkState) returns (status: Status)
      requires Valid()
      modifies this`appenders, this`shares, counters, appenders.Values
      ensures Valid()
      ensures forall c | c in old(appenders) && c != r.chunkId ::
        c in appenders && appenders[c] == old(appenders[c]) && appenders[c].Model() == old(appenders[c].Model())
      ensures forall c | c in appenders && c != r.chunkId :: c in old(appenders)
      ensures
        if r.chunkId in old(appenders) && old(appenders[r.chunkId].phase).Open? then
          appenders == old(appenders) && status == if Matches(r, old(appenders[r.chunkId].Model())) then Success else EParameters
        else if chunk.Usable(r.version) then
          status.Success? && r.chunkId in appenders && fresh(appenders[r.chunkId]) &&
          appenders[r.chunkId].Model() == NewAppender(r.chunkId, r.version, r.pos, r.numServers, r.peer, chunk.content)
        else status.EParameters? && r.chunkId !in appenders
    {
      var c := r.chunkId;
      if c in appenders && appenders[c].phase.Open? {
        status := CheckParameters(r, appenders[c]);
        return;
      }
      RemoveAppender(c);
      status := OpenAppender(r, chunk);
    }
  }
}
