/**
 Re-replication of a chunk: replicators copy the chunk from a peer, one megabyte at a time.

 Several replicators for the same chunk may be around. The one that started last owns the chunk and cancels the
 one before it. All of them share the local copy (`chunk`) and the entry in the table of replications in flight.
 */
module Replicator {
  import opened Common
  import opened ChunkBlocks
  import opened ChunkAgreement

  const READ_SIZE: nat := 0x10_0000

  datatype Phase = Starting | Reading | Writing(n: nat) | Finishing | Ended(success: bool)

  datatype Rep = Rep(
    source: seq<Byte>, sourceVersion: int,   // what the peer has
    phase: Phase, offset: nat, cancelled: bool)

  /** The local copy. Version zero marks a copy that is not complete. */
  datatype Local = Local(info: Info, version: int)

  datatype World = World(reps: seq<Rep>, inFlight: Option<nat>, chunk: Option<Local>)

  const NO_REPLICATIONS := World([], None, None)

  function EmptyChunk(): Info { Info([], 0, seq(MAX_BLOCKS, i => 0)) }

  // ----- handlers

  function SetPhase(w: World, i: nat, p: Phase): World
    requires i < |w.reps|
  {
    w.(reps := w.reps[i := w.reps[i].(phase := p)])
  }

  /** The last word of a replicator. It leaves the table; a failure deletes the local copy unless it was cancelled. */
  function End(w: World, i: nat, success: bool): World
    requires i < |w.reps|
  {
    var chunk := if !success && !w.reps[i].cancelled then None else w.chunk;
    SetPhase(w, i, Ended(success)).(chunk := chunk, inFlight := if w.inFlight == Some(i) then None else w.inFlight)
  }

  /** All was copied: give the copy its version, and write its metadata. */
  function Finish(w: World, i: nat, metaStarted: bool): World
    requires i < |w.reps|
  {
    if w.reps[i].cancelled then End(w, i, false)
    else
      var v := w.(chunk := if w.chunk.Some? then Some(w.chunk.value.(version := w.reps[i].sourceVersion)) else None);
      if metaStarted && w.chunk.Some? then SetPhase(v, i, Finishing) else End(v, i, false)
  }

  /** Ask for the next piece, or see that all is there. */
  function Read(w: World, i: nat, metaStarted: bool): World
    requires i < |w.reps|
  {
    var r := w.reps[i];
    if r.offset == |r.source| then Finish(w, i, metaStarted)
    else if r.offset > |r.source| then End(w, i, false)
    else SetPhase(w, i, Reading)
  }

  /** The peer told the size of its copy. */
  function StartDone(w: World, i: nat, ok: bool, created: bool, metaStarted: bool): World
    requires i < |w.reps|
  {
    var r := w.reps[i];
    if r.cancelled || !ok || |r.source| > CHUNKSIZE then End(w, i, false)
    else
      var reps := if w.inFlight.Some? && w.inFlight.value < |w.reps| && w.inFlight.value != i
                  then w.reps[w.inFlight.value := w.reps[w.inFlight.value].(cancelled := true)] else w.reps;
      var v := World(reps, Some(i), if created then Some(Local(EmptyChunk(), 0)) else None);
      if created then Read(v, i, metaStarted) else End(v, i, false)
  }

  /** Whole blocks, once there is more than one. */
  function WriteLength(n: nat): (len: nat)
    ensures len <= n
  {
    if n >= B && n % B != 0 then n / B * B else n
  }

  /** `n` bytes came from the peer. */
  function ReadDone(ck: Checksum, w: World, i: nat, ok: bool, n: nat, env: WriteEnv): World
    requires i < |w.reps| && w.reps[i].offset + n <= |w.reps[i].source|
    requires w.chunk.Some? ==> w.chunk.value.info.Valid()
  {
    var r := w.reps[i];
    if r.cancelled || !ok || w.chunk.None? || r.offset > CHUNKSIZE then End(w, i, false)
    else
      var op := Piece(r, n);
      WriteStarted(w, i, |Clipped(op)|, PerformWrite(ck, w.chunk.value.info, op, env))
  }

  /** The write for `n` bytes that came from the peer. */
  function Piece(r: Rep, n: nat): WriteOp
    requires r.offset + n <= |r.source|
  {
    WriteOp(r.offset, r.source[r.offset..r.offset + WriteLength(n)], false, [], None)
  }

  function WriteStarted(w: World, i: nat, n: nat, result: WriteResult): World
    requires i < |w.reps| && w.chunk.Some?
  {
    if result.Written? then SetPhase(w, i, Writing(n)).(chunk := Some(w.chunk.value.(info := result.info)))
    else End(w, i, false)
  }

  function WriteDone(w: World, i: nat, ok: bool, metaStarted: bool): World
    requires i < |w.reps| && w.reps[i].phase.Writing?
  {
    var r := w.reps[i];
    if r.cancelled || !ok then End(w, i, false)
    else Read(w.(reps := w.reps[i := r.(offset := r.offset + r.phase.n)]), i, metaStarted)
  }

  // ----- runs

  datatype Event =
    | New(source: seq<Byte>, version: int)
    | Started(i: nat, ok: bool, created: bool, metaStarted: bool)
    | Arrived(i: nat, ok: bool, n: nat, env: WriteEnv)
    | Wrote(i: nat, ok: bool, metaStarted: bool)
    | MetaWritten(i: nat, ok: bool)
    | CancelAll

  function Step(ck: Checksum, w: World, e: Event): World {
    match e
    case New(source, version) => w.(reps := w.reps + [Rep(source, version, Starting, 0, false)])
    case Started(i, ok, created, metaStarted) =>
      if i < |w.reps| && w.reps[i].phase.Starting? then StartDone(w, i, ok, created, metaStarted) else w
    case Arrived(i, ok, n, env) =>
      if i < |w.reps| && w.reps[i].phase.Reading? && n <= READ_SIZE && w.reps[i].offset + n <= |w.reps[i].source|
         && (w.chunk.Some? ==> w.chunk.value.info.Valid())
      then ReadDone(ck, w, i, ok, n, env) else w
    case Wrote(i, ok, metaStarted) =>
      if i < |w.reps| && w.reps[i].phase.Writing? then WriteDone(w, i, ok, metaStarted) else w
    case MetaWritten(i, ok) =>
      if i < |w.reps| && w.reps[i].phase.Finishing? then End(w, i, ok) else w
    case CancelAll =>
      if w.inFlight.Some? && w.inFlight.value < |w.reps|
      then w.(reps := w.reps[w.inFlight.value := w.reps[w.inFlight.value].(cancelled := true)]) else w
  }

  function Run(ck: Checksum, events: seq<Event>): World {
    if events == [] then NO_REPLICATIONS else Step(ck, Run(ck, events[..|events| - 1]), events[|events| - 1])
  }

  // ----- the copy is always a prefix of the peer's

  predicate Busy(p: Phase) { p.Reading? || p.Writing? || p.Finishing? }

  /** Bytes that were handed to the disk. */
  function Copied(r: Rep): nat { if r.phase.Writing? then r.offset + r.phase.n else r.offset }

  ghost predicate CopyOk(ck: Checksum, r: Rep, l: Local) {
    && Sound(ck, l.info)
    && Copied(r) <= |r.source| <= CHUNKSIZE
    && l.info.Content() == r.source[..Copied(r)]
    && (r.phase.Finishing? ==> Copied(r) == |r.source| && l.version == r.sourceVersion)
    && (r.phase.Writing? ==> r.phase.n > 0)
  }

  /** A replicator at work that was not cancelled is the one in the table; the local copy is that of the one in the table. */
  ghost predicate Inv(ck: Checksum, w: World) {
    && (w.chunk.Some? ==> Sound(ck, w.chunk.value.info))
    && (forall i: nat | i < |w.reps| && Busy(w.reps[i].phase) && !w.reps[i].cancelled ::
          w.inFlight == Some(i))
    && (forall i: nat | i < |w.reps| && w.reps[i].phase.Starting? :: w.reps[i].offset == 0 && w.inFlight != Some(i))
    && (w.inFlight.Some? ==>
          && w.inFlight.value < |w.reps| && Busy(w.reps[w.inFlight.value].phase)
          && (w.chunk.Some? ==> CopyOk(ck, w.reps[w.inFlight.value], w.chunk.value)))
  }

  lemma EmptySound(ck: Checksum)
    ensures Sound(ck, EmptyChunk()) && EmptyChunk().Content() == []
  {
  }

  lemma EndKeeps(ck: Checksum, w: World, i: nat, success: bool)
    requires Inv(ck, w) && i < |w.reps|
    ensures Inv(ck, End(w, i, success))
  {
  }

  /** The invariant before replicator `i` is put into its next phase. */
  ghost predicate Between(ck: Checksum, w: World, i: nat) {
    && i < |w.reps| && !w.reps[i].cancelled && w.inFlight == Some(i)
    && (w.chunk.Some? ==>
          && Sound(ck, w.chunk.value.info) && w.reps[i].offset <= |w.reps[i].source| <= CHUNKSIZE
          && w.chunk.value.info.Content() == w.reps[i].source[..w.reps[i].offset])
    && (forall j: nat | j < |w.reps| && j != i && Busy(w.reps[j].phase) :: w.reps[j].cancelled)
    && (forall j: nat | j < |w.reps| && j != i && w.reps[j].phase.Starting? :: w.reps[j].offset == 0)
  }

  lemma ReadKeeps(ck: Checksum, w: World, i: nat, metaStarted: bool)
    requires Between(ck, w, i)
    ensures Inv(ck, Read(w, i, metaStarted))
  {
    var r := w.reps[i];
    assert r.source[..|r.source|] == r.source;
  }

  lemma StartKeeps(ck: Checksum, w: World, i: nat, ok: bool, created: bool, metaStarted: bool)
    requires Inv(ck, w) && i < |w.reps| && w.reps[i].phase.Starting?
    ensures Inv(ck, StartDone(w, i, ok, created, metaStarted))
  {
    var r := w.reps[i];
    if r.cancelled || !ok || |r.source| > CHUNKSIZE {
      EndKeeps(ck, w, i, false);
    } else {
      EmptySound(ck);
      var reps := if w.inFlight.Some? && w.inFlight.value < |w.reps| && w.inFlight.value != i
                  then w.reps[w.inFlight.value := w.reps[w.inFlight.value].(cancelled := true)] else w.reps;
      var v := World(reps, Some(i), if created then Some(Local(EmptyChunk(), 0)) else None);
      assert Between(ck, v, i);
      if created { ReadKeeps(ck, v, i, metaStarted); }
    }
  }

  /** A piece from the peer extends the copy, and is never empty. */
  lemma WriteExtends(ck: Checksum, c: Info, r: Rep, len: nat, env: WriteEnv)
    requires Sound(ck, c) && r.offset + len <= |r.source| <= CHUNKSIZE && c.Content() == r.source[..r.offset]
    ensures var op := WriteOp(r.offset, r.source[r.offset..r.offset + len], false, [], None);
      var w := PerformWrite(ck, c, op, env);
      && |Clipped(op)| == len
      && (w.Written? ==> len > 0 && Sound(ck, w.info) && w.info.Content() == r.source[..r.offset + len])
  {
    var op := WriteOp(r.offset, r.source[r.offset..r.offset + len], false, [], None);
    assert c.size == |c.Content()| == r.offset;
    WriteKeepsSound(ck, c, op, env);
    assert Overlay(r.source[..r.offset], r.offset, r.source[r.offset..r.offset + len]) == r.source[..r.offset + len];
  }

  lemma StartedKeeps(ck: Checksum, w: World, i: nat, n: nat, result: WriteResult)
    requires Inv(ck, w) && i < |w.reps| && w.reps[i].phase.Reading? && !w.reps[i].cancelled && w.chunk.Some?
    requires result.Written? ==>
      n > 0 && w.reps[i].offset + n <= |w.reps[i].source| && Sound(ck, result.info) && result.info.Content() == w.reps[i].source[..w.reps[i].offset + n]
    ensures Inv(ck, WriteStarted(w, i, n, result))
  {
    EndKeeps(ck, w, i, false);
    assert CopyOk(ck, w.reps[i], w.chunk.value);
  }

  /** What became of a piece from the peer. */
  lemma PieceTaken(ck: Checksum, w: World, i: nat, n: nat, env: WriteEnv) returns (len: nat, result: WriteResult)
    requires i < |w.reps| && w.reps[i].offset + n <= |w.reps[i].source| <= CHUNKSIZE && !w.reps[i].cancelled
    requires w.chunk.Some? && Sound(ck, w.chunk.value.info) && w.chunk.value.info.Content() == w.reps[i].source[..w.reps[i].offset]
    ensures ReadDone(ck, w, i, true, n, env) == WriteStarted(w, i, len, result)
    ensures result.Written? ==>
      len > 0 && w.reps[i].offset + len <= |w.reps[i].source| && Sound(ck, result.info) && result.info.Content() == w.reps[i].source[..w.reps[i].offset + len]
  {
    var c, op := w.chunk.value.info, Piece(w.reps[i], n);
    WriteExtends(ck, c, w.reps[i], WriteLength(n), env);
    len, result := |Clipped(op)|, PerformWrite(ck, c, op, env);
  }

  lemma InvSame(ck: Checksum, v: World, w: World)
    requires Inv(ck, v) && v == w
    ensures Inv(ck, w)
  {
  }

  lemma ReadDoneKeeps(ck: Checksum, w: World, i: nat, ok: bool, n: nat, env: WriteEnv)
    requires Inv(ck, w) && i < |w.reps| && w.reps[i].phase.Reading? && w.reps[i].offset + n <= |w.reps[i].source|
    ensures Inv(ck, ReadDone(ck, w, i, ok, n, env))
  {
    var r := w.reps[i];
    if r.cancelled || !ok || w.chunk.None? || r.offset > CHUNKSIZE {
      EndKeeps(ck, w, i, false);
      InvSame(ck, End(w, i, false), ReadDone(ck, w, i, ok, n, env));
    } else {
      assert CopyOk(ck, r, w.chunk.value);
      var len, result := PieceTaken(ck, w, i, n, env);
      StartedKeeps(ck, w, i, len, result);
      InvSame(ck, WriteStarted(w, i, len, result), ReadDone(ck, w, i, ok, n, env));
    }
  }

  lemma WriteDoneKeeps(ck: Checksum, w: World, i: nat, ok: bool, metaStarted: bool)
    requires Inv(ck, w) && i < |w.reps| && w.reps[i].phase.Writing?
    ensures Inv(ck, WriteDone(w, i, ok, metaStarted))
  {
    var r := w.reps[i];
    if r.cancelled || !ok {
      EndKeeps(ck, w, i, false);
    } else {
      var v := w.(reps := w.reps[i := r.(offset := r.offset + r.phase.n)]);
      ReadKeeps(ck, v, i, metaStarted);
    }
  }

  lemma {:induction false} Reachable(ck: Checksum, events: seq<Event>)
    ensures Inv(ck, Run(ck, events))
  {
    if events != [] {
      Reachable(ck, events[..|events| - 1]);
      var w := Run(ck, events[..|events| - 1]);
      match events[|events| - 1]
      case New(source, version) =>
      case Started(i, ok, created, metaStarted) =>
        if i < |w.reps| && w.reps[i].phase.Starting? { StartKeeps(ck, w, i, ok, created, metaStarted); }
      case Arrived(i, ok, n, env) =>
        if i < |w.reps| && w.reps[i].phase.Reading? && w.reps[i].offset + n <= |w.reps[i].source| { ReadDoneKeeps(ck, w, i, ok, n, env); }
      case Wrote(i, ok, metaStarted) =>
        if i < |w.reps| && w.reps[i].phase.Writing? { WriteDoneKeeps(ck, w, i, ok, metaStarted); }
      case MetaWritten(i, ok) => if i < |w.reps| { EndKeeps(ck, w, i, ok); }
      case CancelAll =>
    }
  }

  // ----- what replication guarantees

  /** While a replicator that was not cancelled is at work, the local copy is a prefix of the peer's, and sound. */
  lemma CopyIsPrefix(ck: Checksum, events: seq<Event>, i: nat)
    requires var w := Run(ck, events); i < |w.reps| && Busy(w.reps[i].phase) && !w.reps[i].cancelled
    ensures var w := Run(ck, events); var r := w.reps[i];
      && w.inFlight == Some(i)
      && (w.chunk.Some? ==>
            && Sound(ck, w.chunk.value.info) && Copied(r) <= |r.source|
            && w.chunk.value.info.Content() == r.source[..Copied(r)])
  {
    Reachable(ck, events);
  }

  /** At most one replicator of the chunk is at work without having been cancelled. */
  lemma OneAtATime(ck: Checksum, events: seq<Event>, i: nat, j: nat)
    requires var w := Run(ck, events);
      i < |w.reps| && j < |w.reps| && Busy(w.reps[i].phase) && !w.reps[i].cancelled && Busy(w.reps[j].phase) && !w.reps[j].cancelled
    ensures i == j
  {
    Reachable(ck, events);
  }

  // ----- success

  /**
   A replicator that reports success leaves a full copy under the peer's version, cancelled or not, if it is still
   the one in the table and there is a copy at all.
   */
  lemma SuccessIsFullCopy(ck: Checksum, events: seq<Event>, i: nat)
    requires var w := Run(ck, events); i < |w.reps| && w.reps[i].phase.Finishing? && w.inFlight == Some(i) && w.chunk.Some?
    ensures var r := Run(ck, events).reps[i];
      var w := Step(ck, Run(ck, events), MetaWritten(i, true));
      && w.reps[i].phase == Ended(true)
      && w.chunk.Some? && Sound(ck, w.chunk.value.info)
      && w.chunk.value.info.Content() == r.source && w.chunk.value.version == r.sourceVersion
  {
    Reachable(ck, events);
    var r := Run(ck, events).reps[i];
    assert r.source[..|r.source|] == r.source;
  }

  /** Step `k` of the run took the entry from replicator `i`, and left an empty copy or none. */
  ghost predicate TakenOver(ck: Checksum, events: seq<Event>, i: nat, k: nat) {
    && k < |events| && events[k].Started? && events[k].i != i
    && Run(ck, events[..k]).inFlight == Some(i) && Run(ck, events[..k + 1]).inFlight != Some(i)
    && (Run(ck, events[..k + 1]).chunk.Some? ==> Run(ck, events[..k + 1]).chunk.value.info == EmptyChunk())
  }

  /** If it is no longer the one in the table, then another replicator took the entry and started the copy over. */
  lemma {:induction false} StartedOver(ck: Checksum, events: seq<Event>, i: nat)
    requires var w := Run(ck, events); i < |w.reps| && w.reps[i].phase.Finishing? && w.inFlight != Some(i)
    ensures exists k: nat :: TakenOver(ck, events, i, k)
  {
    var z := |events| - 1;
    var w := Run(ck, events[..z]);
    Reachable(ck, events[..z]);
    EntryKept(ck, w, events[z], i);
    if w.inFlight == Some(i) {
      assert events[..z + 1] == events;
      assert TakenOver(ck, events, i, z);
    } else {
      StartedOver(ck, events[..z], i);
      var k: nat :| TakenOver(ck, events[..z], i, k);
      StaysTakenOver(ck, events, z, i, k);
    }
  }

  lemma StaysTakenOver(ck: Checksum, events: seq<Event>, z: nat, i: nat, k: nat)
    requires z <= |events| && TakenOver(ck, events[..z], i, k)
    ensures TakenOver(ck, events, i, k)
  {
    assert events[..z][..k] == events[..k] && events[..z][..k + 1] == events[..k + 1];
  }

  /** How a replicator that writes its metadata can be without its entry after a step. */
  lemma EntryKept(ck: Checksum, w: World, e: Event, i: nat)
    requires Inv(ck, w)
    requires var v := Step(ck, w, e); i < |v.reps| && v.reps[i].phase.Finishing? && v.inFlight != Some(i)
    ensures i < |w.reps| && w.reps[i].phase.Finishing?
    ensures w.inFlight == Some(i) ==>
      e.Started? && e.i != i && (Step(ck, w, e).chunk.Some? ==> Step(ck, w, e).chunk.value.info == EmptyChunk())
  {
    if !e.Started? { WorkKeepsEntry(ck, w, e, i); }
  }

  lemma WorkKeepsEntry(ck: Checksum, w: World, e: Event, i: nat)
    requires Inv(ck, w) && !e.Started?
    requires var v := Step(ck, w, e); i < |v.reps| && v.reps[i].phase.Finishing? && v.inFlight != Some(i)
    ensures i < |w.reps| && w.reps[i].phase.Finishing? && w.inFlight != Some(i)
  {
  }

  /**
   Such a takeover is possible: a replicator that is cancelled while its metadata is being written still
   reports success, although the one that cancelled it has started over with an empty copy.
   */
  lemma SuccessWithoutCopy(ck: Checksum, version: int, source: seq<Byte>, other: int)
    requires 0 < |source| <= CHUNKSIZE && version != 0
    ensures var w := Run(ck, [New([], version), Started(0, true, true, true), New(source, other), Started(1, true, true, true), MetaWritten(0, true)]);
      |w.reps| == 2 && w.reps[0].phase == Ended(true) && w.chunk.Some? && w.chunk.value.version == 0 && w.reps[1].phase.Reading?
  {
    var e := [New([], version), Started(0, true, true, true), New(source, other), Started(1, true, true, true), MetaWritten(0, true)];
    var w1 := Step(ck, NO_REPLICATIONS, e[0]);
    var w2 := Step(ck, w1, e[1]);
    var w3 := Step(ck, w2, e[2]);
    var w4 := Step(ck, w3, e[3]);
    assert w2.reps[0].phase.Finishing? && w4.reps[0].phase.Finishing? && w4.reps[1].phase.Reading?;
    RunLast(ck, e[..0], e[0]);
    RunLast(ck, e[..1], e[1]);
    RunLast(ck, e[..2], e[2]);
    RunLast(ck, e[..3], e[3]);
    RunLast(ck, e[..4], e[4]);
    assert e[..0] + [e[0]] == e[..1] && e[..1] + [e[1]] == e[..2] && e[..2] + [e[2]] == e[..3] && e[..3] + [e[3]] == e[..4] && e[..4] + [e[4]] == e;
  }

  /** A cancellation without a takeover does no harm: the empty copy of an empty chunk is complete. */
  lemma SuccessThoughCancelled(ck: Checksum, version: int)
    ensures var w := Run(ck, [New([], version), Started(0, true, true, true), CancelAll, MetaWritten(0, true)]);
      && |w.reps| == 1 && w.reps[0].cancelled && w.reps[0].phase == Ended(true)
      && w.chunk == Some(Local(EmptyChunk(), version))
  {
    var e := [New([], version), Started(0, true, true, true), CancelAll, MetaWritten(0, true)];
    var w1 := Step(ck, NO_REPLICATIONS, e[0]);
    var w2 := Step(ck, w1, e[1]);
    var w3 := Step(ck, w2, e[2]);
    assert w2.reps[0].phase.Finishing? && w3.reps[0].cancelled;
    RunLast(ck, e[..0], e[0]);
    RunLast(ck, e[..1], e[1]);
    RunLast(ck, e[..2], e[2]);
    RunLast(ck, e[..3], e[3]);
    assert e[..0] + [e[0]] == e[..1] && e[..1] + [e[1]] == e[..2] && e[..2] + [e[2]] == e[..3] && e[..3] + [e[3]] == e;
  }

  lemma RunLast(ck: Checksum, events: seq<Event>, e: Event)
    ensures Run(ck, events + [e]) == Step(ck, Run(ck, events), e)
  {
    assert (events + [e])[..|events|] == events;
  }

  // ----- who may touch the copy

  /** The replicator that an event is for. */
  function Target(e: Event): Option<nat> {
    match e
    case Started(i, _, _, _) => Some(i)
    case Arrived(i, _, _, _) => Some(i)
    case Wrote(i, _, _) => Some(i)
    case MetaWritten(i, _) => Some(i)
    case _ => None
  }

  /** A replicator that was cancelled neither deletes nor changes the local copy, nor its version. */
  lemma CancelledLeavesChunk(ck: Checksum, w: World, e: Event)
    requires Target(e).Some? && Target(e).value < |w.reps| && w.reps[Target(e).value].cancelled
    ensures Step(ck, w, e).chunk == w.chunk
  {
  }

  /** A replicator that was not cancelled fails before it enters the table. */
  predicate FailsEarly(w: World, e: Event) {
    && e.Started? && e.i < |w.reps| && w.reps[e.i].phase.Starting? && !w.reps[e.i].cancelled
    && (!e.ok || |w.reps[e.i].source| > CHUNKSIZE)
  }

  /** It takes the entry, and then has no chunk, or cannot write the metadata of an empty one. */
  predicate FailsInTable(w: World, e: Event) {
    && e.Started? && e.i < |w.reps| && w.reps[e.i].phase.Starting? && !w.reps[e.i].cancelled && !FailsEarly(w, e)
    && (!e.created || (w.reps[e.i].source == [] && !e.metaStarted))
  }

  /**
   While a replicator makes its copy, a step of another one removes the copy exactly if that one fails to start;
   and if it fails before it took the entry, the first one is not even cancelled.
   */
  lemma CopyRemovedIff(ck: Checksum, events: seq<Event>, i: nat, e: Event)
    requires var w := Run(ck, events); i < |w.reps| && Busy(w.reps[i].phase) && !w.reps[i].cancelled && w.chunk.Some?
    requires Target(e) != Some(i)
    ensures var w := Run(ck, events); var v := Step(ck, w, e);
      && i < |v.reps|
      && (v.chunk.None? <==> FailsEarly(w, e) || FailsInTable(w, e))
      && (v.chunk.None? ==> (v.reps[i].cancelled <==> FailsInTable(w, e)))
  {
    Reachable(ck, events);
  }

  /** One that does: the peer does not answer the second replicator, and the first is left reading without a copy. */
  lemma FailedStartRemovesCopy(ck: Checksum, source: seq<Byte>, version: int, other: seq<Byte>, otherVersion: int)
    requires 0 < |source| <= CHUNKSIZE
    ensures var w := Run(ck, [New(source, version), Started(0, true, true, true), New(other, otherVersion), Started(1, false, true, true)]);
      |w.reps| == 2 && w.reps[0].phase.Reading? && !w.reps[0].cancelled && w.chunk.None?
  {
    var e := [New(source, version), Started(0, true, true, true), New(other, otherVersion), Started(1, false, true, true)];
    var w1 := Step(ck, NO_REPLICATIONS, e[0]);
    var w2 := Step(ck, w1, e[1]);
    var w3 := Step(ck, w2, e[2]);
    assert w2.reps[0].phase.Reading? && w3.reps[1].phase.Starting?;
    RunLast(ck, e[..0], e[0]);
    RunLast(ck, e[..1], e[1]);
    RunLast(ck, e[..2], e[2]);
    RunLast(ck, e[..3], e[3]);
    assert e[..0] + [e[0]] == e[..1] && e[..1] + [e[1]] == e[..2] && e[..2] + [e[2]] == e[..3] && e[..3] + [e[3]] == e;
  }

  // ----- progress

  /** The event is the answer that replicator `i` waits for. */
  predicate Awaited(w: World, i: nat, e: Event) {
    i < |w.reps| &&
    match e
    case New(_, _) => false
    case Started(j, _, _, _) => i == j && w.reps[i].phase.Starting?
    case Arrived(j, _, n, _) => i == j && w.reps[i].phase.Reading? && n <= READ_SIZE && w.reps[i].offset + n <= |w.reps[i].source|
    case Wrote(j, _, _) => i == j && w.reps[i].phase.Writing?
    case MetaWritten(j, _) => i == j && w.reps[i].phase.Finishing?
    case CancelAll => false
  }

  function Missing(r: Rep): nat { if Copied(r) <= |r.source| then |r.source| - Copied(r) else 0 }

  /** What a replicator has before it, as a bound on the answers it can still wait for. */
  function Work(r: Rep): nat {
    match r.phase
    case Starting => 2 * |r.source| + 3
    case Reading => 2 * Missing(r) + 1
    case Writing(_) => 2 * Missing(r) + 2
    case Finishing => 1
    case Ended(_) => 0
  }

  /** Every answer moves its replicator on: data that arrives ends it or extends the copy. */
  lemma AnswerMakesProgress(ck: Checksum, w: World, i: nat, e: Event)
    requires Inv(ck, w) && Awaited(w, i, e)
    ensures var v := Step(ck, w, e); i < |v.reps| && Work(v.reps[i]) < Work(w.reps[i])
  {
    var r := w.reps[i];
    if e.Arrived? && !r.cancelled && e.ok && w.chunk.Some? {
      assert CopyOk(ck, r, w.chunk.value);
      var len, result := PieceTaken(ck, w, i, e.n, e.env);
    } else if e.Wrote? && !r.cancelled && e.ok {
      var v := w.(reps := w.reps[i := r.(offset := r.offset + r.phase.n)]);
      assert Missing(v.reps[i].(phase := Reading)) == Missing(r);
    }
  }

  lemma OthersDoNoWork(ck: Checksum, w: World, i: nat, e: Event)
    requires i < |w.reps| && !Awaited(w, i, e)
    ensures var v := Step(ck, w, e); i < |v.reps| && Work(v.reps[i]) == Work(w.reps[i]) && v.reps[i].source == w.reps[i].source
  {
  }

  /** How many answers replicator `i` has taken in. */
  function Answers(ck: Checksum, events: seq<Event>, i: nat): nat {
    if events == [] then 0
    else
      var before := events[..|events| - 1];
      Answers(ck, before, i) + (if Awaited(Run(ck, before), i, events[|events| - 1]) then 1 else 0)
  }

  /** A replicator takes in a bounded number of answers, whatever the others do; with what it has before it they stay below the bound. */
  lemma {:induction false} EndsAfter(ck: Checksum, events: seq<Event>, i: nat)
    requires i < |Run(ck, events).reps|
    ensures var r := Run(ck, events).reps[i]; Answers(ck, events, i) + Work(r) <= 2 * |r.source| + 3
  {
    var before, e := events[..|events| - 1], events[|events| - 1];
    var w := Run(ck, before);
    Reachable(ck, before);
    if i < |w.reps| {
      EndsAfter(ck, before, i);
      if Awaited(w, i, e) { AnswerMakesProgress(ck, w, i, e); SourceKept(ck, w, i, e); } else { OthersDoNoWork(ck, w, i, e); }
    } else {
      NoAnswersYet(ck, before, i);
    }
  }

  lemma SourceKept(ck: Checksum, w: World, i: nat, e: Event)
    requires i < |w.reps|
    ensures var v := Step(ck, w, e); |w.reps| <= |v.reps| && v.reps[i].source == w.reps[i].source
  {
  }

  lemma {:induction false} NoAnswersYet(ck: Checksum, events: seq<Event>, i: nat)
    requires i >= |Run(ck, events).reps|
    ensures Answers(ck, events, i) == 0
  {
    if events != [] {
      var before, e := events[..|events| - 1], events[|events| - 1];
      if |Run(ck, before).reps| > 0 { SourceKept(ck, Run(ck, before), 0, e); }
      NoAnswersYet(ck, before, i);
    }
  }
}
