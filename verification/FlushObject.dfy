/**
 The write buffer of a record appender, flushed in place. Each method does what the function of the
 same name in Flush says; the writes go out in the order of `issued`.
 */
module FlushObject {
  import opened Common
  import opened Flush

  class WriteBuffer {
    var live: bool
    var closed: bool
    var next: nat
    var buffer: seq<Byte>
    var staggered: bool
    var restart: bool
    var fullBlocks: bool
    var inFlight: seq<Write>
    ghost var base: seq<Byte>
    ghost var taken: seq<Byte>
    ghost var issued: seq<Write>

    ghost function Model(): Flusher
      reads this
    {
      Flusher(live, closed, next, buffer, staggered, restart, fullBlocks, inFlight, base, taken, issued)
    }

    constructor (ghost content: seq<Byte>, size: nat)
      requires size == |content|
      ensures Model() == NewFlusher(content)
    {
      live, closed, next, buffer := true, false, size, [];
      staggered, restart, fullBlocks, inFlight := false, false, false, [];
      base, taken, issued := content, [], [];
    }

    method Append(data: seq<Byte>)
      requires live && !closed
      modifies this
      ensures Model() == Step(old(Model()), Take(data))
    {
      buffer := buffer + data;
      taken := taken + data;
    }

    /** Cuts the next write off the buffer. */
    method TakeWrite() returns (w: Write)
      requires buffer != []
      modifies this
      ensures Model() == Flush.TakeWrite(old(Model()))
      ensures w == Write(old(next), old(buffer)[..|old(buffer)| - |buffer|]) && |buffer| < |old(buffer)|
    {
      var n := |buffer|;
      var count := if n <= B then n else n / B * B;
      var inBlock := next % B;
      if inBlock > 0 {
        staggered := inBlock + count < B;
        if !staggered { count := B - inBlock; }
      } else {
        staggered := count < B;
      }
      w := Write(next, buffer[..count]);
      buffer := buffer[count..];
      next := next + count;
      inFlight := inFlight + [w];
      issued := issued + [w];
    }

    /** Writes as much of the buffer as may go out now. A write that cannot be started is over at once. */
    method FlushSelf(full: bool, starts: nat -> bool)
      modifies this
      ensures Model() == Flush.FlushSelf(old(Model()), full, starts)
    {
      if staggered {
        restart := buffer != [];
        fullBlocks := fullBlocks || full;
        return;
      }
      restart := false;
      ghost var goal := FlushLoop(Model(), full, starts);
      while live
        invariant FlushLoop(Model(), full, starts) == goal
        decreases |buffer|
      {
        if |buffer| <= (if full then B else 0) { return; }
        var w := TakeWrite();
        if !starts(w.offset) {
          Retire(|inFlight| - 1, false);
          return;
        }
      }
    }

    /** A write is over. */
    method Retire(k: nat, ok: bool)
      requires k < |inFlight|
      modifies this
      ensures Model() == Flush.Retire(old(Model()), k, ok)
    {
      var w := inFlight[k];
      inFlight := inFlight[..k] + inFlight[k + 1..];
      if !ok {
        live := false;
        buffer := [];
      }
      if staggered && w.End() % B != 0 { staggered := false; }
    }

    /** The same, and the flush that waited for it starts again. */
    method WriteDone(k: nat, ok: bool, starts: nat -> bool)
      requires k < |inFlight|
      modifies this
      ensures Model() == Flush.WriteDone(old(Model()), k, ok, starts)
    {
      var before := staggered;
      Retire(k, ok);
      if before && !staggered && restart { FlushSelf(fullBlocks, starts); }
    }
  }
}
