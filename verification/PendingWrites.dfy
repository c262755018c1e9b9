/**
 Writes that were allocated and not completed yet, under three indexes: by write id, by chunk, and in the order
 of use. Entries of one index point to the others; here the write id stands for such a pointer.
 */
module PendingWrites {
  import opened Common
  import opened Lists

  datatype WriteOp = WriteOp(writeId: int, chunkId: int, version: int, enqueueTime: int, status: int)

  /** Entries for which the test holds, in order. */
  function Kept(q: seq<int>, ops: map<int, WriteOp>): seq<int> {
    if q == [] then [] else (if q[0] in ops then [q[0]] else []) + Kept(q[1..], ops)
  }

  lemma {:induction false} KeptIs(q: seq<int>, ops: map<int, WriteOp>)
    requires Distinct(q)
    ensures Distinct(Kept(q, ops))
    ensures forall w :: w in Kept(q, ops) <==> w in q && w in ops
  {
    if q != [] {
      assert q == [q[0]] + q[1..] && q[0] !in q[1..];
      KeptIs(q[1..], ops);
    }
  }

  /** Taking one op away takes its entry away. */
  lemma {:induction false} KeptWithout(q: seq<int>, ops: map<int, WriteOp>, w: int)
    requires Distinct(q) && (forall v | v in q :: v in ops)
    ensures Kept(q, ops - {w}) == Removed(q, w)
  {
    if q != [] {
      assert q == [q[0]] + q[1..] && q[0] !in q[1..];
      KeptWithout(q[1..], ops, w);
      if q[0] == w { KeptAll(q[1..], ops - {w}); }
    }
  }

  lemma {:induction false} KeptAll(q: seq<int>, ops: map<int, WriteOp>)
    requires forall v | v in q :: v in ops
    ensures Kept(q, ops) == q
  {
    if q != [] {
      KeptAll(q[1..], ops);
      var v := q[0];
      assert v in q;
      assert v in ops;
      assert q == [q[0]] + q[1..];
    }
  }

  lemma {:induction false} KeptTwice(q: seq<int>, ops: map<int, WriteOp>, fewer: map<int, WriteOp>)
    requires fewer.Keys <= ops.Keys
    ensures Kept(Kept(q, ops), fewer) == Kept(q, fewer)
  {
    if q != [] {
      KeptTwice(q[1..], ops, fewer);
      var rest := Kept(q[1..], ops);
      assert ([q[0]] + rest)[1..] == rest && [] + rest == rest;
    }
  }

  predicate Matches(op: WriteOp, chunkId: int, version: int) { op.chunkId == chunkId && op.version == version }

  predicate HasOther(ops: map<int, WriteOp>, w: int, version: int) { w in ops && ops[w].version != version }

  /** The chunks that some op writes to. */
  function ChunksOf(ops: map<int, WriteOp>): set<int> {
    set w | w in ops :: ops[w].chunkId
  }

  // ----- agreement of the indexes

  ghost predicate LruOk(ops: map<int, WriteOp>, lru: seq<int>) {
    Distinct(lru) && (forall w | w in lru :: w in ops) && (forall w | w in ops :: w in lru)
  }

  /** The list of a chunk has the ops that write to it, each once; a chunk without ops has no list. */
  ghost predicate ListOk(ops: map<int, WriteOp>, c: int, list: seq<int>) {
    Distinct(list) && list != [] && (forall w | w in list :: w in ops && ops[w].chunkId == c)
  }

  ghost predicate ChunksOk(ops: map<int, WriteOp>, chunks: map<int, seq<int>>) {
    && (forall w | w in ops :: ops[w].writeId == w && ops[w].chunkId in chunks && w in chunks[ops[w].chunkId])
    && (forall c | c in chunks :: ListOk(ops, c, chunks[c]))
  }

  lemma ChunksAreThoseOfOps(ops: map<int, WriteOp>, chunks: map<int, seq<int>>)
    requires ChunksOk(ops, chunks)
    ensures chunks.Keys == ChunksOf(ops)
  {
    forall c | c in chunks ensures c in ChunksOf(ops) {
      var w := chunks[c][0];
      assert ListOk(ops, c, chunks[c]) && w in chunks[c];
      assert w in ops && ops[w].chunkId == c;
    }
  }

  lemma InsertKeeps(ops: map<int, WriteOp>, chunks: map<int, seq<int>>, op: WriteOp)
    requires ChunksOk(ops, chunks) && op.writeId !in ops
    ensures var list := if op.chunkId in chunks then chunks[op.chunkId] else [];
      ChunksOk(ops[op.writeId := op], chunks[op.chunkId := list + [op.writeId]])
  {
    var list := if op.chunkId in chunks then chunks[op.chunkId] else [];
    var more, chunks' := ops[op.writeId := op], chunks[op.chunkId := list + [op.writeId]];
    assert op.writeId !in list;
    forall c | c in chunks' ensures ListOk(more, c, chunks'[c]) { assert c in chunks ==> ListOk(ops, c, chunks[c]); }
  }

  lemma DropKeeps(ops: map<int, WriteOp>, chunks: map<int, seq<int>>, c: int, gone: set<int>, list: seq<int>)
    requires ChunksOk(ops, chunks) && c in chunks && Distinct(list)
    requires forall w | w in gone :: w in chunks[c]
    requires forall w | w in list :: w in chunks[c] && w !in gone
    requires forall w | w in chunks[c] :: w in list || w in gone
    ensures ChunksOk(ops - gone, if list == [] then chunks - {c} else chunks[c := list])
  {
    var fewer, chunks' := ops - gone, if list == [] then chunks - {c} else chunks[c := list];
    forall w | w in fewer ensures fewer[w].chunkId in chunks' && w in chunks'[fewer[w].chunkId] {
      assert w in ops && ops[w] == fewer[w];
    }
    forall d | d in chunks' ensures ListOk(fewer, d, chunks'[d]) {
      assert ListOk(ops, d, chunks[d]);
      assert ListOk(ops, c, chunks[c]);
    }
  }

  lemma InsertLru(ops: map<int, WriteOp>, lru: seq<int>, op: WriteOp, front: bool)
    requires LruOk(ops, lru) && op.writeId !in ops
    ensures LruOk(ops[op.writeId := op], if front then [op.writeId] + lru else lru + [op.writeId])
  {
  }

  lemma RemoveLru(ops: map<int, WriteOp>, lru: seq<int>, w: int)
    requires LruOk(ops, lru)
    ensures LruOk(ops - {w}, Removed(lru, w))
  {
    RemovedIs(lru, w);
  }

  class PendingWrites {
    var writeIds: map<int, WriteOp>
    var chunkIds: map<int, seq<int>>
    var lru: seq<int>

    /** The three indexes hold the same ops, each once. */
    ghost predicate Valid()
      reads this
    {
      LruOk(writeIds, lru) && ChunksOk(writeIds, chunkIds)
    }

    constructor ()
      ensures Valid() && lru == [] && writeIds == map[]
    {
      writeIds, chunkIds, lru := map[], map[], [];
    }

    method Insert(op: WriteOp, front: bool) returns (ok: bool)
      requires Valid()
      modifies this
      ensures Valid()
      ensures ok == (op.writeId !in old(writeIds))
      ensures writeIds == if ok then old(writeIds)[op.writeId := op] else old(writeIds)
      ensures lru == if !ok then old(lru) else if front then [op.writeId] + old(lru) else old(lru) + [op.writeId]
    {
      var w, c := op.writeId, op.chunkId;
      if w in writeIds { return false; }
      InsertKeeps(writeIds, chunkIds, op);
      InsertLru(writeIds, lru, op, front);
      var list := if c in chunkIds then chunkIds[c] else [];
      chunkIds := chunkIds[c := list + [w]];
      writeIds := writeIds[w := op];
      lru := if front then [w] + lru else lru + [w];
      ok := true;
    }

    method Erase(w: int) returns (ok: bool)
      requires Valid()
      modifies this
      ensures Valid()
      ensures ok == (w in old(writeIds))
      ensures writeIds == old(writeIds) - {w} && lru == Removed(old(lru), w)
    {
      if w !in writeIds {
        RemovedMissing(lru, w);
        assert writeIds - {w} == writeIds;
        return false;
      }
      var c := writeIds[w].chunkId;
      var list := Removed(chunkIds[c], w);
      RemovedIs(chunkIds[c], w);
      DropKeeps(writeIds, chunkIds, c, {w}, list);
      RemoveLru(writeIds, lru, w);
      chunkIds := if list == [] then chunkIds - {c} else chunkIds[c := list];
      lru := Removed(lru, w);
      writeIds := writeIds - {w};
      ok := true;
    }

    method Remove(front: bool) returns (ok: bool)
      requires Valid()
      modifies this
      ensures Valid()
      ensures ok == (old(lru) != [])
      ensures lru == if !ok then [] else if front then old(lru)[1..] else old(lru)[..|old(lru)| - 1]
      ensures writeIds == if !ok then old(writeIds) else old(writeIds) - {if front then old(lru)[0] else old(lru)[|old(lru)| - 1]}
    {
      if lru == [] { return false; }
      var k := if front then 0 else |lru| - 1;
      RemovedAt(lru, k);
      ok := Erase(lru[k]);
    }

    method FindAndMoveBack(w: int) returns (op: Option<WriteOp>)
      requires Valid()
      modifies this`lru
      ensures Valid()
      ensures op == if w in writeIds then Some(writeIds[w]) else None
      ensures lru == if w in writeIds then Removed(old(lru), w) + [w] else old(lru)
    {
      if w !in writeIds { return None; }
      RemoveLru(writeIds, lru, w);
      InsertLru(writeIds - {w}, Removed(lru, w), writeIds[w], false);
      assert (writeIds - {w})[w := writeIds[w]] == writeIds;
      lru := Removed(lru, w) + [w];
      op := Some(writeIds[w]);
    }

    /** Touches a write that is not bad yet: its time moves on, its place in the order of use does not. */
    method CloneWriteOp(w: int, now: int) returns (ok: bool)
      requires Valid()
      modifies this`writeIds
      ensures Valid()
      ensures ok == (w in old(writeIds) && old(writeIds)[w].status >= 0)
      ensures writeIds == if ok then old(writeIds)[w := old(writeIds)[w].(enqueueTime := now)] else old(writeIds)
    {
      ok := w in writeIds && writeIds[w].status >= 0;
      if ok {
        ghost var before := writeIds;
        writeIds := writeIds[w := writeIds[w].(enqueueTime := now)];
        forall c | c in chunkIds ensures ListOk(writeIds, c, chunkIds[c]) { assert ListOk(before, c, chunkIds[c]); }
      }
    }

    /** Drops the ops of the list that are for one version, from the id set, the order of use and the list itself. */
    method DropVersion(all: seq<int>, version: int) returns (list: seq<int>, ghost gone: set<int>)
      requires LruOk(writeIds, lru) && Distinct(all) && forall w | w in all :: w in writeIds
      modifies this`writeIds, this`lru
      ensures writeIds == old(writeIds) - gone && lru == Kept(old(lru), writeIds)
      ensures Distinct(list) && (forall w | w in list :: w in all && w !in gone) && (forall w | w in all :: w in list || w in gone)
      ensures forall w | w in gone :: w in all && w in old(writeIds) && old(writeIds)[w].version == version
      ensures forall i | 0 <= i < |list| :: HasOther(old(writeIds), list[i], version)
    {
      ghost var ops, order := writeIds, lru;
      KeptAll(lru, ops);
      list, gone := all, {};
      assert ops - gone == ops;
      var k := 0;
      while k < |list|
        invariant 0 <= k <= |list| && Dropping(ops, all, list, gone, version, k)
        invariant writeIds == ops - gone && lru == Kept(order, writeIds)
        decreases |list| - k
      {
        var w := list[k];
        assert w in list;
        if writeIds[w].version == version {
          DropFromLru(order, writeIds, w);
          DropOne(ops, all, list, gone, version, k);
          lru := Removed(lru, w);
          writeIds := writeIds - {w};
          list := list[..k] + list[k + 1..];
          gone := gone + {w};
        } else {
          k := k + 1;
        }
      }
    }

    /** Drops all ops for one version of a chunk, and no other; true when the chunk has none left. */
    method Delete(c: int, version: int) returns (none: bool)
      requires Valid()
      modifies this
      ensures Valid()
      ensures writeIds == map w | w in old(writeIds) && !Matches(old(writeIds)[w], c, version) :: old(writeIds)[w]
      ensures lru == Kept(old(lru), writeIds)
      ensures none == (c !in ChunksOf(writeIds))
    {
      ghost var ops := writeIds;
      ChunksAreThoseOfOps(ops, chunkIds);
      if c !in chunkIds {
        FilteredOps(ops, {}, [], [], c, version, ops);
        KeptAll(lru, ops);
        return true;
      }
      var all := chunkIds[c];
      assert ListOk(ops, c, all);
      var list, gone := DropVersion(all, version);
      FilteredOps(ops, gone, all, list, c, version, writeIds);
      KeptLru(ops, gone, old(lru));
      DropKeeps(ops, chunkIds, c, gone, list);
      chunkIds := if list == [] then chunkIds - {c} else chunkIds[c := list];
      none := list == [];
      ChunksAreThoseOfOps(writeIds, chunkIds);
    }

    /** Retires expired writes from the least recently used end, up to the first that is not expired. */
    method Scavenge(expireTime: int) returns (retired: seq<WriteOp>)
      requires Valid()
      modifies this
      ensures Valid() && |retired| <= |old(lru)| && lru == old(lru)[|retired|..]
      ensures forall i | 0 <= i < |retired| :: old(lru)[i] in old(writeIds) && retired[i] == old(writeIds)[old(lru)[i]] && retired[i].enqueueTime <= expireTime
      ensures lru != [] ==> lru[0] in writeIds && writeIds[lru[0]].enqueueTime > expireTime
      ensures forall w | w in old(writeIds) && old(writeIds)[w].enqueueTime > expireTime :: w in writeIds
      ensures forall w | w in writeIds :: w in old(writeIds) && writeIds[w] == old(writeIds)[w]
    {
      retired := [];
      while lru != []
        invariant Valid() && |retired| <= |old(lru)| && lru == old(lru)[|retired|..]
        invariant forall i | 0 <= i < |retired| :: old(lru)[i] in old(writeIds) && retired[i] == old(writeIds)[old(lru)[i]] && retired[i].enqueueTime <= expireTime
        invariant forall w | w in old(writeIds) && old(writeIds)[w].enqueueTime > expireTime :: w in writeIds
        invariant forall w | w in writeIds :: w in old(writeIds) && writeIds[w] == old(writeIds)[w]
        decreases |lru|
      {
        assert lru[0] in lru;
        var op := writeIds[lru[0]];
        if expireTime < op.enqueueTime { return; }
        var _ := Remove(true);
        retired := retired + [op];
      }
    }

    method HasChunkId(c: int) returns (r: bool)
      requires Valid()
      ensures r <==> exists w :: w in writeIds && writeIds[w].chunkId == c
    {
      ChunksAreThoseOfOps(writeIds, chunkIds);
      r := c in chunkIds;
    }

    method GetChunkIdCount() returns (n: nat)
      requires Valid()
      ensures n == |ChunksOf(writeIds)|
    {
      ChunksAreThoseOfOps(writeIds, chunkIds);
      n := |chunkIds|;
    }
  }

  lemma DropFromLru(order: seq<int>, ops: map<int, WriteOp>, w: int)
    requires Distinct(order)
    ensures Kept(order, ops - {w}) == Removed(Kept(order, ops), w)
  {
    KeptIs(order, ops);
    KeptTwice(order, ops, ops - {w});
    KeptWithout(Kept(order, ops), ops, w);
  }

  /** Part of the way through a list: `gone` is dropped, `list` is left, and its first `k` entries stay. */
  ghost predicate Dropping(ops: map<int, WriteOp>, all: seq<int>, list: seq<int>, gone: set<int>, version: int, k: nat) {
    && k <= |list| && Distinct(list)
    && (forall w | w in gone :: w in all && w in ops && ops[w].version == version)
    && (forall w | w in all :: w in ops && (w in gone || w in list))
    && (forall w | w in list :: w in all && w !in gone)
    && (forall i | 0 <= i < k :: HasOther(ops, list[i], version))
  }

  lemma DropOne(ops: map<int, WriteOp>, all: seq<int>, list: seq<int>, gone: set<int>, version: int, k: nat)
    requires Dropping(ops, all, list, gone, version, k) && k < |list| && list[k] in ops && ops[list[k]].version == version
    ensures Dropping(ops, all, list[..k] + list[k + 1..], gone + {list[k]}, version, k)
  {
    RemovedIs(list, list[k]);
    RemovedAt(list, k);
    assert list[k] in list;
  }

  lemma KeptLru(ops: map<int, WriteOp>, gone: set<int>, lru: seq<int>)
    requires LruOk(ops, lru)
    ensures LruOk(ops - gone, Kept(lru, ops - gone))
  {
    KeptIs(lru, ops - gone);
  }

  lemma FilteredOps(ops: map<int, WriteOp>, gone: set<int>, all: seq<int>, list: seq<int>, c: int, version: int, left: map<int, WriteOp>)
    requires forall w | w in ops && ops[w].chunkId == c :: w in all
    requires forall w | w in gone :: w in ops && Matches(ops[w], c, version)
    requires forall w | w in all :: w in gone || w in list
    requires forall i | 0 <= i < |list| :: HasOther(ops, list[i], version)
    requires left == ops - gone
    ensures left == map w | w in ops && !Matches(ops[w], c, version) :: ops[w]
  {
    forall w ensures w in left <==> w in ops && !Matches(ops[w], c, version) {}
  }
}
