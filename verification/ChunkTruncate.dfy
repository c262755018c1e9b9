/**
 Making a chunk stable: cut it to the size that was decided on, and compute the checksum of the whole.
 A chunk that was cut cannot be told from one that never held more.
 */
module ChunkTruncate {
  import opened Common
  import opened ChunkBlocks
  import opened ChunkAgreement
  import opened ChunkName

  // ----- checksum of the whole chunk

  /** Text as bytes. */
  function Ascii(s: string): seq<Byte> {
    seq(|s|, i requires 0 <= i < |s| => (s[i] as int % 256) as Byte)
  }

  function BlockCount(size: nat): nat { (size + B - 1) / B }

  /** The block checksums, printed one after the other. */
  function Printed(sums: seq<nat>): string {
    if sums == [] then "" else Printed(sums[..|sums| - 1]) + Digits(sums[|sums| - 1])
  }

  function ChunkChecksum(ck: Checksum, f: Info): nat
    requires f.Valid()
  {
    ck(Ascii(Printed(f.sums[..BlockCount(f.size)])))
  }

  // ----- truncation

  /**
   `next` is the end of what the appender wrote. The last block is read back, verified, cut and given a new
   checksum, unless the new end is on a block boundary. None: the chunk is lost.
   */
  function Truncate(ck: Checksum, f: Info, next: nat, size: nat, diskOk: bool): (r: Option<Info>)
    requires f.Valid()
    ensures r.Some? ==> r.value.Valid()
  {
    if size > next then None
    else if size == next then Some(f)
    else if size % B != 0 then
      match ReadChunk(ck, f, size - size % B, size % B, true, diskOk)
      case ReadError(_) => None
      case Data(data) =>
        if |data| != size % B || f.size < size then None
        else Some(f.(sums := f.sums[size / B := ck(Window(data, 0, B))], size := size))
    else if f.size < size then None
    else Some(f.(size := size))
  }

  datatype StableRequest = StableRequest(size: Option<nat>, checksum: Option<nat>)

  /** All the checks on the way to a stable chunk. */
  function MakeStable(ck: Checksum, f: Info, next: nat, r: StableRequest, diskOk: bool): Option<Info>
    requires f.Valid()
  {
    var cut := if r.size.Some? then Truncate(ck, f, next, r.size.value, diskOk) else Some(f);
    if cut.None? then None
    else
      var g := cut.value;
      if r.checksum.Some? && r.checksum.value != ChunkChecksum(ck, g) then None
      else if r.size.Some? && r.size.value != g.size then None
      else Some(g)
  }

  // ----- what it comes to

  lemma BlockOfCut(c: seq<Byte>, size: nat, b: nat)
    requires size <= |c| && (b + 1) * B <= size
    ensures Block(c[..size], b) == Block(c, b)
  {
  }

  lemma LastBlockOfCut(c: seq<Byte>, size: nat)
    requires size <= |c|
    ensures Window(c[size - size % B..size], 0, B) == Block(c[..size], size / B)
  {
  }

  lemma CutSound(ck: Checksum, f: Info, size: nat, sums: seq<nat>)
    requires Sound(ck, f) && size <= f.size && |sums| == |f.sums|
    requires forall b: nat | b < |sums| && (b + 1) * B <= size :: sums[b] == f.sums[b]
    requires size % B != 0 ==> sums[size / B] == ck(Block(f.Content()[..size], size / B))
    ensures var g := f.(size := size, sums := sums); Sound(ck, g) && g.Content() == f.Content()[..size]
  {
    var g := f.(size := size, sums := sums);
    var c := f.Content();
    assert g.Content() == c[..size];
    forall b: nat | b < |sums| && b * B < size ensures sums[b] == ck(Block(g.Content(), b)) {
      if (b + 1) * B <= size { BlockOfCut(c, size, b); }
    }
  }

  lemma TruncateReads(ck: Checksum, f: Info, size: nat)
    requires Sound(ck, f) && size < f.size && size % B != 0
    ensures ReadChunk(ck, f, size - size % B, size % B, true, true) == Data(f.Content()[size - size % B..size])
  {
    ReadSound(ck, f, size - size % B, size % B);
  }

  /** A sound chunk can be cut to any size it has, and what is left is sound. */
  lemma TruncateSound(ck: Checksum, f: Info, size: nat)
    requires Sound(ck, f) && size <= f.size
    ensures var g := Truncate(ck, f, f.size, size, true);
      g.Some? && Sound(ck, g.value) && g.value.Content() == f.Content()[..size]
  {
    if size == f.size {
      assert f.Content()[..size] == f.Content();
    } else if size % B != 0 {
      TruncateReads(ck, f, size);
      LastBlockOfCut(f.Content(), size);
      CutSound(ck, f, size, f.sums[size / B := ck(Block(f.Content()[..size], size / B))]);
    } else {
      CutSound(ck, f, size, f.sums);
    }
  }

  /** Sound chunks of the same content have the same checksums, and the same checksum as a whole. */
  lemma SameContent(ck: Checksum, f: Info, g: Info)
    requires Sound(ck, f) && Sound(ck, g) && f.Content() == g.Content()
    ensures f.size == g.size
    ensures f.sums[..BlockCount(f.size)] == g.sums[..BlockCount(g.size)]
    ensures ChunkChecksum(ck, f) == ChunkChecksum(ck, g)
  {
    assert f.size == |f.Content()| == |g.Content()| == g.size;
    var n := BlockCount(f.size);
    forall b: nat | b < n ensures f.sums[b] == g.sums[b] { assert b * B < |f.Content()|; }
    assert f.sums[..n] == g.sums[..n];
  }

  /**
   Cutting commutes with writing: after the cut, size, block checksums and whole checksum are those of any
   chunk that was written from scratch with just the prefix.
   */
  lemma TruncateCommutes(ck: Checksum, f: Info, size: nat, scratch: Info)
    requires Sound(ck, f) && size <= f.size
    requires Sound(ck, scratch) && scratch.Content() == f.Content()[..size]
    ensures var g := Truncate(ck, f, f.size, size, true);
      && g.Some? && g.value.Valid() && g.value.size == scratch.size == size
      && g.value.sums[..BlockCount(size)] == scratch.sums[..BlockCount(size)]
      && ChunkChecksum(ck, g.value) == ChunkChecksum(ck, scratch)
  {
    TruncateSound(ck, f, size);
    SameContent(ck, Truncate(ck, f, f.size, size, true).value, scratch);
  }

  /**
   A closed chunk becomes stable exactly when it has the size asked for, and the checksum asked for is that of
   the prefix; it is then that prefix.
   */
  lemma MakeStableIff(ck: Checksum, f: Info, r: StableRequest, prefix: Info)
    requires Sound(ck, f) && Sound(ck, prefix)
    requires prefix.Content() == f.Content()[..if r.size.Some? && r.size.value < f.size then r.size.value else f.size]
    ensures var g := MakeStable(ck, f, f.size, r, true);
      && g.Some? == ((r.size.Some? ==> r.size.value <= f.size) && (r.checksum.Some? ==> r.checksum.value == ChunkChecksum(ck, prefix)))
      && (g.Some? ==> Sound(ck, g.value) && g.value.Content() == prefix.Content())
  {
    if r.size.Some? && r.size.value <= f.size {
      TruncateSound(ck, f, r.size.value);
      SameContent(ck, Truncate(ck, f, f.size, r.size.value, true).value, prefix);
    } else {
      assert f.Content()[..f.size] == f.Content();
      SameContent(ck, f, prefix);
    }
  }
}
