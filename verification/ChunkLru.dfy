/**
 Open chunk files in the order of their last use, and the scan that closes those that were not used for long.
 The scan stops at the first file that is recent enough; nothing behind it can be due, because the list is
 ordered by the time of last use.
 */
module ChunkLru {
  import opened Lists

  datatype Handle = Handle(
    lastIo: int, open: bool, appenderOwns: bool, replicating: bool, syncPending: bool, syncInFlight: bool)
  {
    /** Files that an appender, a replicator or a pending metadata write looks after are not in the list. */
    predicate Listable() { !appenderOwns && !replicating && !syncPending }
  }

  type Handles = map<int, Handle>

  ghost predicate Ordered(hs: Handles, lru: seq<int>) {
    && (forall i | 0 <= i < |lru| :: lru[i] in hs)
    && (forall i, j | 0 <= i < j < |lru| :: hs[lru[i]].lastIo <= hs[lru[j]].lastIo)
  }

  ghost predicate Listed(hs: Handles, lru: seq<int>) {
    forall i | 0 <= i < |lru| :: lru[i] in hs && hs[lru[i]].Listable()
  }

  ghost predicate Ok(hs: Handles, lru: seq<int>, now: int) {
    && Distinct(lru) && Ordered(hs, lru) && Listed(hs, lru)
    && (forall h | h in hs :: hs[h].lastIo <= now)
  }

  // ----- moving one handle

  lemma {:induction false} RemovedElements(lru: seq<int>, h: int, i: nat, j: nat)
    requires Distinct(lru) && i <= j < |Removed(lru, h)|
    ensures exists k: nat, l: nat :: k <= l < |lru| && lru[k] == Removed(lru, h)[i] && lru[l] == Removed(lru, h)[j] && (i < j ==> k < l)
  {
    if m: nat :| m < |lru| && lru[m] == h {
      RemovedAt(lru, m);
      var k, l := if i < m then i else i + 1, if j < m then j else j + 1;
      assert lru[k] == Removed(lru, h)[i] && lru[l] == Removed(lru, h)[j];
    } else {
      RemovedMissing(lru, h);
      assert lru[i] == Removed(lru, h)[i] && lru[j] == Removed(lru, h)[j];
    }
  }

  /** A handle that leaves the list may go altogether. */
  lemma ForgetOk(hs: Handles, lru: seq<int>, now: int, h: int)
    requires Ok(hs, lru, now) && h in hs
    ensures Ok(hs - {h}, Removed(lru, h), now)
  {
    RemoveOk(hs, lru, now, h, hs[h], now);
    RemovedIs(lru, h);
    forall i | 0 <= i < |Removed(lru, h)| ensures Removed(lru, h)[i] in hs - {h} { assert Removed(lru, h)[i] in Removed(lru, h); }
  }

  /** A handle that leaves the list may change in any way. */
  lemma RemoveOk(hs: Handles, lru: seq<int>, now: int, h: int, x: Handle, later: int)
    requires Ok(hs, lru, now) && now <= later && x.lastIo <= later
    ensures Ok(hs[h := x], Removed(lru, h), later)
  {
    RemovedIs(lru, h);
    var left := Removed(lru, h);
    forall i: nat, j: nat | i <= j < |left|
      ensures left[i] in hs && left[i] != h && hs[left[i]].Listable() && left[j] in hs && left[j] != h
      ensures i < j ==> hs[left[i]].lastIo <= hs[left[j]].lastIo
    {
      RemovedElements(lru, h, i, j);
      assert left[i] in left && left[j] in left;
    }
  }

  /** A handle that is used goes to the back. */
  lemma BackOk(hs: Handles, lru: seq<int>, now: int, h: int, x: Handle, later: int)
    requires Ok(hs, lru, now) && now <= later && x.lastIo == later && x.Listable()
    ensures Ok(hs[h := x], Removed(lru, h) + [h], later)
  {
    RemoveOk(hs, lru, now, h, x, later);
    RemovedIs(lru, h);
    var left := Removed(lru, h);
    forall i | 0 <= i < |left| ensures left[i] in hs && left[i] != h && hs[left[i]].lastIo <= later { assert left[i] in left; }
  }

  // ----- the scan

  /** The file is in use, so that it must not be closed although its time is up. */
  predicate Held(x: Handle, held: bool) { x.open && (held || x.syncInFlight) }

  /** The handles that stay in the list. */
  function Staying(hs: Handles, lru: seq<int>, expireTime: int, held: int -> bool): seq<int>
    requires forall i | 0 <= i < |lru| :: lru[i] in hs
  {
    if lru == [] then []
    else (if hs[lru[0]].lastIo >= expireTime || Held(hs[lru[0]], held(lru[0])) then [lru[0]] else []) + Staying(hs, lru[1..], expireTime, held)
  }

  /** Nothing goes once one handle is recent enough. */
  lemma {:induction false} RecentStay(hs: Handles, lru: seq<int>, expireTime: int, held: int -> bool)
    requires Ordered(hs, lru) && (lru != [] ==> hs[lru[0]].lastIo >= expireTime)
    ensures Staying(hs, lru, expireTime, held) == lru
  {
    if lru != [] {
      assert lru == [lru[0]] + lru[1..];
      RecentStay(hs, lru[1..], expireTime, held);
    }
  }

  /** What stays is exactly what is recent or held. */
  lemma {:induction false} StayingIff(hs: Handles, lru: seq<int>, expireTime: int, held: int -> bool, h: int)
    requires forall i | 0 <= i < |lru| :: lru[i] in hs
    ensures h in Staying(hs, lru, expireTime, held) <==>
            h in lru && h in hs && (hs[h].lastIo >= expireTime || Held(hs[h], held(h)))
  {
    if lru != [] {
      assert lru == [lru[0]] + lru[1..];
      StayingIff(hs, lru[1..], expireTime, held, h);
    }
  }

  // ----- the list of a chunk manager

  class HandleList {
    var handles: Handles
    var lru: seq<int>
    ghost var now: int

    ghost predicate Valid()
      reads this
    {
      Ok(handles, lru, now)
    }

    constructor (start: int)
      ensures Valid() && lru == [] && handles == map[] && now == start
    {
      handles, lru, now := map[], [], start;
    }

    /** The file was used: to the back of the list, or out of it while somebody else looks after it. */
    method LruUpdate(h: int, x: Handle, time: int)
      requires Valid() && now <= time
      modifies this
      ensures Valid() && now == time
      ensures handles == old(handles)[h := x.(lastIo := time)]
      ensures lru == Removed(old(lru), h) + if x.Listable() then [h] else []
    {
      var y := x.(lastIo := time);
      RemoveOk(handles, lru, now, h, y, time);
      if !y.appenderOwns && !y.replicating && !y.syncPending {
        BackOk(handles, lru, now, h, y, time);
        lru := Removed(lru, h) + [h];
      } else {
        lru := Removed(lru, h);
      }
      handles := handles[h := y];
      now := time;
    }

    method ScheduleSyncMeta(h: int, time: int)
      requires Valid() && now <= time && h in handles
      modifies this
      ensures Valid() && handles == old(handles)[h := old(handles)[h].(lastIo := time, syncPending := true)]
      ensures lru == Removed(old(lru), h)
    {
      LruUpdate(h, handles[h].(syncPending := true), time);
    }

    method SetMetaWriteInFlight(h: int, ours: bool, time: int)
      requires Valid() && now <= time && h in handles
      modifies this
      ensures Valid() && handles == old(handles)[h := old(handles)[h].(lastIo := time, syncPending := false, syncInFlight := ours)]
    {
      LruUpdate(h, handles[h].(syncPending := false, syncInFlight := ours), time);
    }

    /** A failed write loses the chunk, unless it is being replicated or written to. */
    method MetaWriteDone(h: int, ok: bool, writePending: bool, time: int)
      requires Valid() && now <= time && h in handles
      modifies this
      ensures Valid()
      ensures var x := old(handles)[h];
        if !ok && !x.replicating && !writePending then
          handles == old(handles) - {h} && lru == Removed(old(lru), h)
        else
          && handles == old(handles)[h := x.(lastIo := time, syncInFlight := false)]
          && lru == Removed(old(lru), h) + if x.Listable() then [h] else []
    {
      if !ok && !handles[h].replicating && !writePending {
        ForgetOk(handles, lru, now, h);
        lru := Removed(lru, h);
        handles := handles - {h};
        return;
      }
      LruUpdate(h, handles[h].(syncInFlight := false), time);
    }

    method SetWriteAppenderOwns(h: int, flag: bool, time: int)
      requires Valid() && now <= time && h in handles
      modifies this
      ensures Valid()
      ensures var x := old(handles)[h];
        if flag == x.appenderOwns then handles == old(handles) && lru == old(lru)
        else if flag then
          && lru == Removed(old(lru), h)
          && handles == old(handles)[h := x.(appenderOwns := true, syncPending := x.syncPending && x.syncInFlight)]
        else handles == old(handles)[h := x.(appenderOwns := false, lastIo := time)]
    {
      var x := handles[h];
      if flag == x.appenderOwns { return; }
      if flag {
        var y := x.(appenderOwns := true);
        if !y.syncInFlight && y.syncPending { y := y.(syncPending := false); }
        RemoveOk(handles, lru, now, h, y, time);
        lru := Removed(lru, h);
        handles := handles[h := y];
        now := time;
      } else {
        LruUpdate(h, x.(appenderOwns := false), time);
      }
    }

    /** Closes the file. */
    method Release(h: int)
      requires Valid() && h in handles
      modifies this
      ensures Valid() && now == old(now)
      ensures handles == if old(handles)[h].open then old(handles)[h := old(handles)[h].(open := false)] else old(handles)
      ensures lru == if old(handles)[h].open then Removed(old(lru), h) else old(lru)
    {
      if !handles[h].open { return; }
      var x := handles[h].(open := false);
      RemoveOk(handles, lru, now, h, x, now);
      lru := Removed(lru, h);
      handles := handles[h := x];
    }

    /** Takes the handle at position `k` out of the list, and closes its file if it is open. */
    method Drop(k: nat)
      requires Valid() && k < |lru|
      modifies this
      ensures Valid() && now == old(now)
      ensures lru == old(lru)[..k] + old(lru)[k + 1..]
      ensures old(lru)[k] in old(handles) && handles == old(handles)[old(lru)[k] := old(handles)[old(lru)[k]].(open := false)]
    {
      var h := lru[k];
      RemovedAt(lru, k);
      if handles[h].open {
        Release(h);
      } else {
        RemoveOk(handles, lru, now, h, handles[h], now);
        assert handles[h := handles[h]] == handles && handles[h].(open := false) == handles[h];
        lru := Removed(lru, h);
      }
    }

    /**
     Closes the files that were not used since `expireTime`, except for those that are held: in use, leased, with a
     write pending (`held`), or with a metadata write in flight. The list keeps exactly the others.
     */
    method CleanupInactiveFds(expireTime: int, held: int -> bool)
      requires Valid()
      modifies this
      ensures Valid()
      ensures (forall i | 0 <= i < |old(lru)| :: old(lru)[i] in old(handles)) && lru == Staying(old(handles), old(lru), expireTime, held)
      ensures ClosedExcept(old(handles), handles, old(lru), lru)
    {
      ghost var hs, all := handles, lru;
      var k := 0;                    // position in the list as it is now
      ghost var done := 0;           // handles of the original list that were looked at
      while k < |lru| && handles[lru[k]].lastIo < expireTime
        invariant Valid() && Scanning(hs, all, handles, lru, k, done, expireTime, held)
        decreases |lru| - k
      {
        var h := lru[k];
        var x := handles[h];
        if !x.open || x.replicating || (!held(h) && !x.syncInFlight) {
          ScanDrop(hs, all, handles, lru, k, done, expireTime, held);
          Drop(k);
        } else {
          ScanKeep(hs, all, handles, lru, k, done, expireTime, held);
          k := k + 1;
        }
        done := done + 1;
      }
      ScanEnd(hs, all, handles, lru, k, done, expireTime, held);
    }
  }

  /** Part of the way through the list: what was looked at is sorted out, the rest is as it was. */
  ghost predicate Scanning(hs: Handles, all: seq<int>, now: Handles, lru: seq<int>, k: nat, done: nat, expireTime: int, held: int -> bool) {
    && k <= |lru| && done <= |all| && lru[k..] == all[done..]
    && (forall i | 0 <= i < |all| :: all[i] in hs)
    && lru[..k] + Staying(hs, all[done..], expireTime, held) == Staying(hs, all, expireTime, held)
    && ClosedExcept(hs, now, all, lru)
  }

  /** The scan ends at the end of the list, or at the first handle that is recent. */
  lemma ScanEnd(hs: Handles, all: seq<int>, now: Handles, lru: seq<int>, k: nat, done: nat, expireTime: int, held: int -> bool)
    requires Scanning(hs, all, now, lru, k, done, expireTime, held) && Ordered(now, lru)
    requires k < |lru| ==> now[lru[k]].lastIo >= expireTime
    ensures lru == Staying(hs, all, expireTime, held)
  {
    if k < |lru| { ScanStop(hs, all, now, lru, k, done, expireTime, held); } else { assert lru[..|lru|] == lru; }
  }

  lemma ScanNext(hs: Handles, all: seq<int>, now: Handles, lru: seq<int>, k: nat, done: nat, expireTime: int, held: int -> bool)
    requires Scanning(hs, all, now, lru, k, done, expireTime, held) && k < |lru|
    ensures var h := lru[k];
      && done < |all| && h == all[done] && h in now && now[h] == hs[h]
      && lru[k + 1..] == all[done + 1..]
      && Staying(hs, all[done..], expireTime, held) ==
         (if hs[h].lastIo >= expireTime || Held(hs[h], held(h)) then [h] else []) + Staying(hs, all[done + 1..], expireTime, held)
  {
    assert lru[k..][0] == lru[k] && lru[k] in lru && all[done..][0] == all[done];
    assert lru[k..][1..] == lru[k + 1..] && all[done..][1..] == all[done + 1..];
    StayingFirst(hs, all[done..], expireTime, held);
  }

  lemma ScanDrop(hs: Handles, all: seq<int>, now: Handles, lru: seq<int>, k: nat, done: nat, expireTime: int, held: int -> bool)
    requires Scanning(hs, all, now, lru, k, done, expireTime, held) && k < |lru| && Distinct(lru) && lru[k] in now
    requires now[lru[k]].lastIo < expireTime && !Held(now[lru[k]], held(lru[k]))
    ensures Scanning(hs, all, now[lru[k] := now[lru[k]].(open := false)], lru[..k] + lru[k + 1..], k, done + 1, expireTime, held)
  {
    ScanNext(hs, all, now, lru, k, done, expireTime, held);
    DropClosed(hs, now, all, lru, k);
    var left := lru[..k] + lru[k + 1..];
    assert left[k..] == lru[k + 1..] && left[..k] == lru[..k];
  }

  lemma ScanKeep(hs: Handles, all: seq<int>, now: Handles, lru: seq<int>, k: nat, done: nat, expireTime: int, held: int -> bool)
    requires Scanning(hs, all, now, lru, k, done, expireTime, held) && k < |lru| && lru[k] in now && Held(now[lru[k]], held(lru[k]))
    ensures Scanning(hs, all, now, lru, k + 1, done + 1, expireTime, held)
  {
    ScanNext(hs, all, now, lru, k, done, expireTime, held);
    assert lru[..k + 1] == lru[..k] + [lru[k]];
  }

  lemma ScanStop(hs: Handles, all: seq<int>, now: Handles, lru: seq<int>, k: nat, done: nat, expireTime: int, held: int -> bool)
    requires Scanning(hs, all, now, lru, k, done, expireTime, held) && k < |lru| && Ordered(now, lru) && now[lru[k]].lastIo >= expireTime
    ensures lru == Staying(hs, all, expireTime, held)
  {
    ScanNext(hs, all, now, lru, k, done, expireTime, held);
    AllRecent(hs, now, all, lru, done, k, expireTime, held);
    assert lru[..k] + lru[k..] == lru;
  }

  /** Handles that left the list are closed; nothing else changed. */
  ghost predicate ClosedExcept(hs: Handles, after: Handles, all: seq<int>, lru: seq<int>) {
    && after.Keys == hs.Keys && (forall h | h in lru :: h in all)
    && (forall h | h in hs :: after[h] == if h in all && h !in lru then hs[h].(open := false) else hs[h])
  }

  lemma DropClosed(hs: Handles, after: Handles, all: seq<int>, lru: seq<int>, k: nat)
    requires ClosedExcept(hs, after, all, lru) && Distinct(lru) && k < |lru| && lru[k] in hs
    ensures ClosedExcept(hs, after[lru[k] := after[lru[k]].(open := false)], all, lru[..k] + lru[k + 1..])
  {
    RemovedAt(lru, k);
    RemovedIs(lru, lru[k]);
    assert lru[k] in lru;
  }

  lemma StayingFirst(hs: Handles, rest: seq<int>, expireTime: int, held: int -> bool)
    requires rest != [] && forall i | 0 <= i < |rest| :: rest[i] in hs
    ensures var h := rest[0];
      Staying(hs, rest, expireTime, held) ==
      (if hs[h].lastIo >= expireTime || Held(hs[h], held(h)) then [h] else []) + Staying(hs, rest[1..], expireTime, held)
  {
  }

  lemma AllRecent(hs: Handles, after: Handles, all: seq<int>, lru: seq<int>, done: nat, k: nat, expireTime: int, held: int -> bool)
    requires Ordered(after, lru) && ClosedExcept(hs, after, all, lru) && done < |all| && k < |lru| && lru[k..] == all[done..]
    requires hs.Keys == after.Keys && lru[k] in hs && after[lru[k]].lastIo >= expireTime
    requires forall i | 0 <= i < |all| :: all[i] in hs
    ensures Staying(hs, all[done..], expireTime, held) == lru[k..]
  {
    var rest := all[done..];
    forall i: nat | i < |rest| ensures rest[i] == lru[k + i] && rest[i] in hs && hs[rest[i]].lastIo == after[lru[k + i]].lastIo {
      assert lru[k..][i] == lru[k + i];
    }
    RecentStay(hs, rest, expireTime, held);
  }
}
