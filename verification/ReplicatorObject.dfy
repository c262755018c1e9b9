/**
 The event handlers of the replicators of one chunk, on the state they share. Each does what the function of the
 same name in Replicator says.
 */
module ReplicatorObject {
  import opened Common
  import opened ChunkBlocks
  import opened ChunkAgreement
  import opened Replicator

  class Replications {
    const ck: Checksum
    var reps: seq<Rep>
    var inFlight: Option<nat>
    var chunk: Option<Local>

    function Model(): World
      reads this
    {
      World(reps, inFlight, chunk)
    }

    constructor (ck: Checksum)
      ensures Model() == NO_REPLICATIONS && this.ck == ck
    {
      this.ck := ck;
      reps, inFlight, chunk := [], None, None;
    }

    method HandleReplicationDone(i: nat, success: bool)
      requires i < |reps|
      modifies this
      ensures Model() == End(old(Model()), i, success)
    {
      if !success && !reps[i].cancelled { chunk := None; }
      reps := reps[i := reps[i].(phase := Ended(success))];
      if inFlight == Some(i) { inFlight := None; }
    }

    method Terminate(i: nat, done: bool, metaStarted: bool)
      requires i < |reps|
      modifies this
      ensures Model() == if done then Finish(old(Model()), i, metaStarted) else End(old(Model()), i, false)
    {
      if done && !reps[i].cancelled {
        if chunk.Some? {
          chunk := Some(chunk.value.(version := reps[i].sourceVersion));
          if metaStarted {
            reps := reps[i := reps[i].(phase := Finishing)];
            return;
          }
        }
      }
      HandleReplicationDone(i, false);
    }

    method ReadNext(i: nat, metaStarted: bool)
      requires i < |reps|
      modifies this
      ensures Model() == Read(old(Model()), i, metaStarted)
    {
      var size := |reps[i].source|;
      if reps[i].offset == size { Terminate(i, true, metaStarted); }
      else if reps[i].offset > size { Terminate(i, false, metaStarted); }
      else { reps := reps[i := reps[i].(phase := Reading)]; }
    }

    method HandleStartDone(i: nat, ok: bool, created: bool, metaStarted: bool)
      requires i < |reps|
      modifies this
      ensures Model() == StartDone(old(Model()), i, ok, created, metaStarted)
    {
      if reps[i].cancelled || !ok || |reps[i].source| > CHUNKSIZE {
        Terminate(i, false, metaStarted);
        return;
      }
      if inFlight.Some? && inFlight.value < |reps| && inFlight.value != i {
        reps := reps[inFlight.value := reps[inFlight.value].(cancelled := true)];
      }
      inFlight := Some(i);
      if !created {
        chunk := None;
        Terminate(i, false, metaStarted);
        return;
      }
      chunk := Some(Local(EmptyChunk(), 0));
      ReadNext(i, metaStarted);
    }

    method HandleReadDone(i: nat, ok: bool, n: nat, env: WriteEnv)
      requires i < |reps| && reps[i].offset + n <= |reps[i].source|
      requires chunk.Some? ==> chunk.value.info.Valid()
      modifies this
      ensures Model() == ReadDone(ck, old(Model()), i, ok, n, env)
    {
      var r := reps[i];
      if r.cancelled || !ok || chunk.None? || r.offset > CHUNKSIZE {
        Terminate(i, false, false);
        return;
      }
      var op := Piece(r, n);
      StartWrite(i, |Clipped(op)|, PerformWrite(ck, chunk.value.info, op, env));
    }

    /** The write was started, or cannot be. */
    method StartWrite(i: nat, n: nat, result: WriteResult)
      requires i < |reps| && chunk.Some?
      modifies this
      ensures Model() == WriteStarted(old(Model()), i, n, result)
    {
      if !result.Written? {
        Terminate(i, false, false);
        return;
      }
      chunk := Some(chunk.value.(info := result.info));
      reps := reps[i := reps[i].(phase := Writing(n))];
    }

    method HandleWriteDone(i: nat, ok: bool, metaStarted: bool)
      requires i < |reps| && reps[i].phase.Writing?
      modifies this
      ensures Model() == WriteDone(old(Model()), i, ok, metaStarted)
    {
      var r := reps[i];
      if r.cancelled || !ok {
        Terminate(i, false, metaStarted);
        return;
      }
      reps := reps[i := r.(offset := r.offset + r.phase.n)];
      ReadNext(i, metaStarted);
    }
  }
}
