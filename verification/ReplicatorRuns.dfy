/** What each answer does to a replication, and that one in which nothing goes wrong ends with a full copy. */
module ReplicatorRuns {
  import opened Common
  import opened ChunkBlocks
  import opened ChunkAgreement
  import opened Replicator

  // ----- one answer

  /** Data that arrives goes on to the disk: nobody cancelled, nothing failed, and the chunk manager takes the write. */
  predicate GoesOn(w: World, i: nat, ok: bool, n: nat, env: WriteEnv)
    requires i < |w.reps| && w.reps[i].offset + n <= |w.reps[i].source|
  {
    var r := w.reps[i];
    !r.cancelled && ok && w.chunk.Some? && r.offset <= CHUNKSIZE && Accepts(r.offset, Piece(r, n), env)
  }

  /** As much as possible in whole blocks, or all if that is less than one. */
  predicate WholeBlocks(n: nat, len: nat) {
    if n < B then len == n else len <= n < len + B && len % B == 0
  }

  /**
   In every run, data that arrives extends the copy by what was read, cut to whole blocks, or else ends the
   replicator; and it goes on exactly under the condition above.
   */
  lemma ArrivedIff(ck: Checksum, events: seq<Event>, i: nat, ok: bool, n: nat, env: WriteEnv)
    requires Awaited(Run(ck, events), i, Arrived(i, ok, n, env))
    ensures var w := Run(ck, events);
      var v, r := Step(ck, w, Arrived(i, ok, n, env)), w.reps[i];
      && i < |v.reps| == |w.reps|
      && if GoesOn(w, i, ok, n, env) then
           && v.reps[i].phase.Writing? && WholeBlocks(n, v.reps[i].phase.n) && r.offset + v.reps[i].phase.n <= |r.source|
           && v.chunk.Some? && Sound(ck, v.chunk.value.info) && w.chunk.value.info.Valid()
           && v.chunk.value.info.Content() == w.chunk.value.info.Content() + r.source[r.offset..r.offset + v.reps[i].phase.n]
           && v.reps == w.reps[i := r.(phase := v.reps[i].phase)] && v.inFlight == w.inFlight
           && v.chunk.value.version == w.chunk.value.version
         else
           v.reps[i].phase == Ended(false) && (v.chunk == if r.cancelled then w.chunk else None)
  {
    Reachable(ck, events);
    var w := Run(ck, events);
    var r := w.reps[i];
    if !r.cancelled && ok && w.chunk.Some? {
      assert CopyOk(ck, r, w.chunk.value);
      PieceIff(ck, w, i, n, env);
    }
  }

  lemma PieceIff(ck: Checksum, w: World, i: nat, n: nat, env: WriteEnv)
    requires i < |w.reps| && !w.reps[i].cancelled && w.chunk.Some? && CopyOk(ck, w.reps[i], w.chunk.value)
    requires w.reps[i].phase.Reading? && w.reps[i].offset + n <= |w.reps[i].source|
    ensures var r, v := w.reps[i], ReadDone(ck, w, i, true, n, env);
      && r.offset <= CHUNKSIZE && w.chunk.value.info.Valid()
      && if Accepts(r.offset, Piece(r, n), env) then
           var len := WriteLength(n);
           && WholeBlocks(n, len)
           && v.reps == w.reps[i := r.(phase := Writing(len))] && v.inFlight == w.inFlight && v.chunk.Some?
           && v.chunk.value.version == w.chunk.value.version && Sound(ck, v.chunk.value.info)
           && v.chunk.value.info.Content() == w.chunk.value.info.Content() + r.source[r.offset..r.offset + len]
         else v == End(w, i, false)
  {
    var r, c, len := w.reps[i], w.chunk.value.info, WriteLength(n);
    var op := Piece(r, n);
    assert c.size == |c.Content()| == r.offset && |Clipped(op)| == len;
    WriteKeepsSound(ck, c, op, env);
    assert Overlay(c.Content(), r.offset, op.data) == c.Content() + op.data;
  }

  /** An uncancelled replicator whose write is over reads on, or finds all copied and writes the metadata. */
  lemma WroteIff(ck: Checksum, events: seq<Event>, i: nat, ok: bool, metaStarted: bool)
    requires Awaited(Run(ck, events), i, Wrote(i, ok, metaStarted))
    ensures var w := Run(ck, events);
      var v, r := Step(ck, w, Wrote(i, ok, metaStarted)), w.reps[i];
      && i < |v.reps| == |w.reps|
      && (v.reps[i].phase.Reading? <==> !r.cancelled && ok && Copied(r) < |r.source|)
      && (v.reps[i].phase.Finishing? <==> !r.cancelled && ok && Copied(r) == |r.source| && metaStarted && w.chunk.Some?)
      && (v.reps[i].phase.Reading? || v.reps[i].phase.Finishing? ==>
            v.reps == w.reps[i := r.(phase := v.reps[i].phase, offset := Copied(r))] && v.inFlight == w.inFlight)
      && (v.reps[i].phase.Reading? ==> v.chunk == w.chunk)
      && (v.reps[i].phase.Finishing? ==> v.chunk == Some(w.chunk.value.(version := r.sourceVersion)))
      && (!v.reps[i].phase.Reading? && !v.reps[i].phase.Finishing? ==> v.reps[i].phase == Ended(false))
  {
    WroteShape(ck, Run(ck, events), i, ok, metaStarted);
  }

  lemma WroteShape(ck: Checksum, w: World, i: nat, ok: bool, metaStarted: bool)
    requires i < |w.reps| && w.reps[i].phase.Writing?
    ensures var v, r := Step(ck, w, Wrote(i, ok, metaStarted)), w.reps[i];
      var u := w.(reps := w.reps[i := r.(offset := Copied(r))]);
      v == if r.cancelled || !ok then End(w, i, false) else Read(u, i, metaStarted)
  {
  }

  /** A peer that told a size that fits starts the copy, unless the replicator was cancelled or got no chunk. */
  lemma StartedIff(ck: Checksum, events: seq<Event>, i: nat, ok: bool, created: bool, metaStarted: bool)
    requires Awaited(Run(ck, events), i, Started(i, ok, created, metaStarted))
    ensures var w := Run(ck, events);
      var v, r := Step(ck, w, Started(i, ok, created, metaStarted)), w.reps[i];
      && i < |v.reps| == |w.reps|
      && var starts := !r.cancelled && ok && |r.source| <= CHUNKSIZE && created;
      && (v.reps[i].phase.Reading? <==> starts && r.source != [])
      && (v.reps[i].phase.Finishing? <==> starts && r.source == [] && metaStarted)
      && (v.reps[i].phase.Reading? || v.reps[i].phase.Finishing? ==>
            && v.reps[i] == r.(phase := v.reps[i].phase) && v.inFlight == Some(i) && v.chunk.Some? && v.chunk.value.info == EmptyChunk()
            && v.chunk.value.version == if r.source == [] then r.sourceVersion else 0)
      && (!v.reps[i].phase.Reading? && !v.reps[i].phase.Finishing? ==> v.reps[i].phase == Ended(false))
  {
    Reachable(ck, events);
  }

  // ----- a replication in which nothing goes wrong

  /** The answer is a success, and carries at least a byte that the chunk manager takes. */
  predicate GoodAnswer(w: World, e: Event)
    requires Awaited(w, 0, e)
  {
    match e
    case Started(_, ok, created, metaStarted) => ok && created && metaStarted
    case Arrived(_, ok, n, env) => ok && n > 0 && w.reps[0].offset <= CHUNKSIZE && Accepts(w.reps[0].offset, Piece(w.reps[0], n), env)
    case Wrote(_, ok, metaStarted) => ok && metaStarted
    case MetaWritten(_, ok) => ok
  }

  /** One replicator, and after its start nothing but such answers. */
  ghost predicate GoodRun(ck: Checksum, source: seq<Byte>, version: int, events: seq<Event>)
    decreases |events|
  {
    events != [] &&
    if |events| == 1 then events == [New(source, version)]
    else
      var before, e := events[..|events| - 1], events[|events| - 1];
      GoodRun(ck, source, version, before) && Awaited(Run(ck, before), 0, e) && GoodAnswer(Run(ck, before), e)
  }

  /** The replicator works on the chunk it made, or ended with success. */
  ghost predicate GoingWell(ck: Checksum, source: seq<Byte>, version: int, w: World) {
    && |w.reps| == 1
    && var r := w.reps[0];
    && r.source == source && r.sourceVersion == version && !r.cancelled && Copied(r) <= |source|
    && r.phase != Ended(false)
    && (r.phase.Starting? ==> r.offset == 0)
    && (Busy(r.phase) ==> w.inFlight == Some(0))
    && (!r.phase.Starting? ==>
          && w.chunk.Some? && Sound(ck, w.chunk.value.info) && w.chunk.value.info.Content() == source[..Copied(r)])
    && (r.phase.Reading? ==> r.offset < |source|)
    && (r.phase.Finishing? || r.phase.Ended? ==> Copied(r) == |source| && w.chunk.value.version == version)
  }

  lemma StepGoesWell(ck: Checksum, source: seq<Byte>, version: int, events: seq<Event>, e: Event)
    requires |source| <= CHUNKSIZE && GoingWell(ck, source, version, Run(ck, events))
    requires Awaited(Run(ck, events), 0, e) && GoodAnswer(Run(ck, events), e)
    ensures GoingWell(ck, source, version, Step(ck, Run(ck, events), e))
  {
    var w := Run(ck, events);
    match e
    case Started(_, ok, created, metaStarted) =>
      StartedIff(ck, events, 0, ok, created, metaStarted);
      EmptySound(ck);
      StartShape(ck, w, e);
    case Arrived(_, _, n, env) => PieceGoesWell(ck, source, version, events, n, env);
    case Wrote(_, ok, metaStarted) =>
      WroteIff(ck, events, 0, ok, metaStarted);
    case MetaWritten(_, ok) =>
  }

  lemma PieceGoesWell(ck: Checksum, source: seq<Byte>, version: int, events: seq<Event>, n: nat, env: WriteEnv)
    requires |source| <= CHUNKSIZE && GoingWell(ck, source, version, Run(ck, events))
    requires var e := Arrived(0, true, n, env); Awaited(Run(ck, events), 0, e) && GoodAnswer(Run(ck, events), e)
    ensures GoingWell(ck, source, version, Step(ck, Run(ck, events), Arrived(0, true, n, env)))
  {
    var w := Run(ck, events);
    ArrivedIff(ck, events, 0, true, n, env);
    ExtendsPrefix(source, w.reps[0].offset, Step(ck, w, Arrived(0, true, n, env)).reps[0].phase.n);
  }

  lemma StartShape(ck: Checksum, w: World, e: Event)
    requires e.Started? && |w.reps| == 1
    ensures |Step(ck, w, e).reps| == 1
  {
  }

  lemma ExtendsPrefix(source: seq<Byte>, offset: nat, len: nat)
    requires offset + len <= |source|
    ensures source[..offset] + source[offset..offset + len] == source[..offset + len]
  {
  }

  lemma {:induction false} AllGoesWell(ck: Checksum, source: seq<Byte>, version: int, events: seq<Event>)
    requires |source| <= CHUNKSIZE && GoodRun(ck, source, version, events)
    ensures GoingWell(ck, source, version, Run(ck, events))
    decreases |events|
  {
    if |events| == 1 {
      assert events[..0] == [] && Run(ck, []) == NO_REPLICATIONS;
    } else {
      var before, e := events[..|events| - 1], events[|events| - 1];
      AllGoesWell(ck, source, version, before);
      StepGoesWell(ck, source, version, before, e);
    }
  }

  /**
   Whatever the sizes in which the data comes: as long as nothing fails the replicator does not, and when there is
   no answer left to wait for it has ended with success and left the full copy under the peer's version.
   */
  lemma GoodRunCopies(ck: Checksum, source: seq<Byte>, version: int, events: seq<Event>)
    requires |source| <= CHUNKSIZE && GoodRun(ck, source, version, events)
    ensures var w := Run(ck, events);
      && |w.reps| == 1 && w.reps[0].phase != Ended(false)
      && |events| + Work(w.reps[0]) <= 2 * |source| + 4
      && ((forall e :: !Awaited(w, 0, e)) ==> w.reps[0].phase.Ended?)
      && (w.reps[0].phase.Ended? ==>
            && w.chunk.Some? && Sound(ck, w.chunk.value.info)
            && w.chunk.value.info.Content() == source && w.chunk.value.version == version)
  {
    AllGoesWell(ck, source, version, events);
    EndsAfter(ck, events, 0);
    AllAnswers(ck, source, version, events);
    var w := Run(ck, events);
    assert source[..|source|] == source;
    if !w.reps[0].phase.Ended? { SomeAwaited(w); }
  }

  lemma SomeAwaited(w: World)
    requires |w.reps| == 1 && w.reps[0].offset <= |w.reps[0].source| && !w.reps[0].phase.Ended?
    ensures exists e :: Awaited(w, 0, e)
  {
    match w.reps[0].phase
    case Starting => assert Awaited(w, 0, Started(0, true, true, true));
    case Reading => assert Awaited(w, 0, Arrived(0, true, 0, WriteEnv(0, true, 0, 0)));
    case Writing(_) => assert Awaited(w, 0, Wrote(0, true, true));
    case Finishing => assert Awaited(w, 0, MetaWritten(0, true));
  }

  lemma {:induction false} AllAnswers(ck: Checksum, source: seq<Byte>, version: int, events: seq<Event>)
    requires GoodRun(ck, source, version, events)
    ensures Answers(ck, events, 0) == |events| - 1
    decreases |events|
  {
    if |events| == 1 {
      assert events[..0] == [];
      assert Answers(ck, [], 0) == 0;
    } else {
      AllAnswers(ck, source, version, events[..|events| - 1]);
    }
  }

  // ----- a peer that always answers in full

  /** All that is left, at most a megabyte. */
  function FullAnswer(r: Rep): nat
    requires r.offset <= |r.source|
  {
    if |r.source| - r.offset <= READ_SIZE then |r.source| - r.offset else READ_SIZE
  }

  /** So far every piece but the last was whole blocks. */
  predicate InBlocks(w: World) {
    |w.reps| == 1 && var r := w.reps[0];
    && (r.phase.Starting? || r.phase.Reading? ==> r.offset % B == 0)
    && (r.phase.Writing? ==> Copied(r) % B == 0 || Copied(r) == |r.source|)
  }

  /** The next answer of such a peer, and of a disk that works. */
  function NextAnswer(r: Rep, env: WriteEnv): Event
    requires !r.phase.Ended? && r.offset <= |r.source|
  {
    match r.phase
    case Starting => Started(0, true, true, true)
    case Reading => Arrived(0, true, FullAnswer(r), env)
    case Writing(_) => Wrote(0, true, true)
    case Finishing => MetaWritten(0, true)
  }

  lemma NextIsGood(ck: Checksum, source: seq<Byte>, version: int, events: seq<Event>, env: WriteEnv)
    requires |source| <= CHUNKSIZE && env.diskOk && env.spaceLeft > CHUNKSIZE
    requires GoingWell(ck, source, version, Run(ck, events)) && InBlocks(Run(ck, events)) && !Run(ck, events).reps[0].phase.Ended?
    ensures var w := Run(ck, events); var e := NextAnswer(w.reps[0], env);
      Awaited(w, 0, e) && GoodAnswer(w, e) && InBlocks(Step(ck, w, e))
  {
    var w := Run(ck, events);
    var e := NextAnswer(w.reps[0], env);
    match e
    case Started(_, ok, created, metaStarted) =>
      StartedIff(ck, events, 0, ok, created, metaStarted);
      StartShape(ck, w, e);
    case Arrived(_, _, _, _) => NextPiece(ck, source, version, events, env);
    case Wrote(_, ok, metaStarted) => WroteIff(ck, events, 0, ok, metaStarted);
    case MetaWritten(_, ok) =>
  }

  lemma NextPiece(ck: Checksum, source: seq<Byte>, version: int, events: seq<Event>, env: WriteEnv)
    requires |source| <= CHUNKSIZE && env.diskOk && env.spaceLeft > CHUNKSIZE
    requires GoingWell(ck, source, version, Run(ck, events)) && InBlocks(Run(ck, events)) && Run(ck, events).reps[0].phase.Reading?
    ensures var w := Run(ck, events); var e := NextAnswer(w.reps[0], env);
      Awaited(w, 0, e) && GoodAnswer(w, e) && InBlocks(Step(ck, w, e))
  {
    FullIsTaken(Run(ck, events).reps[0], env);
    NextPieceInBlocks(ck, source, version, events, env);
  }

  lemma NextPieceInBlocks(ck: Checksum, source: seq<Byte>, version: int, events: seq<Event>, env: WriteEnv)
    requires GoingWell(ck, source, version, Run(ck, events)) && InBlocks(Run(ck, events)) && Run(ck, events).reps[0].phase.Reading?
    requires var w := Run(ck, events); var n := FullAnswer(w.reps[0]);
      Awaited(w, 0, Arrived(0, true, n, env)) && GoesOn(w, 0, true, n, env)
    ensures var w := Run(ck, events); InBlocks(Step(ck, w, Arrived(0, true, FullAnswer(w.reps[0]), env)))
  {
    var w := Run(ck, events);
    var n := FullAnswer(w.reps[0]);
    ArrivedIff(ck, events, 0, true, n, env);
    FullInBlocks(w, Step(ck, w, Arrived(0, true, n, env)));
  }

  lemma FullIsTaken(r: Rep, env: WriteEnv)
    requires env.diskOk && env.spaceLeft > CHUNKSIZE && r.offset < |r.source| <= CHUNKSIZE && r.offset % B == 0
    ensures var n := FullAnswer(r); 0 < n <= READ_SIZE && Accepts(r.offset, Piece(r, n), env)
  {
    var n := FullAnswer(r);
    assert |Piece(r, n).data| == WriteLength(n) && Clipped(Piece(r, n)) == Piece(r, n).data;
  }

  lemma FullInBlocks(w: World, v: World)
    requires |w.reps| == |v.reps| == 1 && w.reps[0].offset < |w.reps[0].source| && w.reps[0].offset % B == 0
    requires v.reps[0].phase.Writing? && v.reps[0] == w.reps[0].(phase := v.reps[0].phase)
    requires WholeBlocks(FullAnswer(w.reps[0]), v.reps[0].phase.n)
    ensures InBlocks(v)
  {
    if FullAnswer(w.reps[0]) >= B { BlocksAdd(w.reps[0].offset, v.reps[0].phase.n); }
  }

  lemma BlocksAdd(offset: nat, len: nat)
    requires offset % B == 0 && len % B == 0
    ensures (offset + len) % B == 0
  {
  }

  lemma {:induction false} FinishRun(ck: Checksum, source: seq<Byte>, version: int, events: seq<Event>, env: WriteEnv) returns (all: seq<Event>)
    requires |source| <= CHUNKSIZE && env.diskOk && env.spaceLeft > CHUNKSIZE
    requires GoodRun(ck, source, version, events) && |Run(ck, events).reps| == 1 && InBlocks(Run(ck, events))
    ensures GoodRun(ck, source, version, all) && |Run(ck, all).reps| == 1 && Run(ck, all).reps[0].phase.Ended?
    decreases Work(Run(ck, events).reps[0])
  {
    AllGoesWell(ck, source, version, events);
    var w := Run(ck, events);
    if w.reps[0].phase.Ended? { return events; }
    var e := NextAnswer(w.reps[0], env);
    NextIsGood(ck, source, version, events, env);
    RunLast(ck, events, e);
    Reachable(ck, events);
    AnswerMakesProgress(ck, w, 0, e);
    assert (events + [e])[..|events|] == events;
    all := FinishRun(ck, source, version, events + [e], env);
  }

  /** Every chunk can be replicated: with a peer that answers in full and a disk that works the run ends with success. */
  lemma EveryChunkReplicates(ck: Checksum, source: seq<Byte>, version: int, env: WriteEnv) returns (events: seq<Event>)
    requires |source| <= CHUNKSIZE && env.diskOk && env.spaceLeft > CHUNKSIZE
    ensures GoodRun(ck, source, version, events)
    ensures var w := Run(ck, events);
      && |w.reps| == 1 && w.reps[0].phase == Ended(true)
      && w.chunk.Some? && Sound(ck, w.chunk.value.info)
      && w.chunk.value.info.Content() == source && w.chunk.value.version == version
  {
    var first := [New(source, version)];
    assert first[..0] == [] && Run(ck, []) == NO_REPLICATIONS;
    assert GoodRun(ck, source, version, first);
    AllGoesWell(ck, source, version, first);
    assert Run(ck, first).reps[0].phase.Starting?;
    events := FinishRun(ck, source, version, first, env);
    GoodRunCopies(ck, source, version, events);
  }
}
