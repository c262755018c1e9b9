/**
 Every server of a chain gets the same list of servers and finds its own place in it, its write id, and the server
 to forward to.
 */
module Forwarding {
  import opened Common

  datatype Entry = Entry(location: int, writeId: int)

  datatype Place = Place(forward: bool, pos: Option<nat>, peer: Option<int>, writeId: Option<int>)

  /** First position from `i` on of an entry that is, or is not, this server. */
  function Next(servers: seq<Entry>, self: int, i: nat, local: bool): (k: nat)
    requires i <= |servers|
    ensures i <= k <= |servers| && (k < |servers| ==> (servers[k].location == self) == local)
    ensures forall j | i <= j < k :: (servers[j].location == self) != local
    decreases |servers| - i
  {
    if i == |servers| || (servers[i].location == self) == local then i else Next(servers, self, i + 1, local)
  }

  /**
   The place is the end of the first stretch of entries for this server; the entry behind it is the peer. The last
   server of the list, and one that is not in it, are told the last location.
   */
  function PlaceOf(servers: seq<Entry>, self: int): Place {
    var first := Next(servers, self, 0, true);
    var end := Next(servers, self, first, false);
    var found := first < |servers|;
    Place(
      found && end < |servers|,
      if found then Some((end - 1) as nat) else None,
      if servers == [] then None else Some(servers[if found && end < |servers| then end else |servers| - 1].location),
      if found then Some(servers[end - 1].writeId) else None)
  }

  method NeedToForwardToPeer(servers: seq<Entry>, self: int) returns (r: Place)
    ensures r == PlaceOf(servers, self)
  {
    r := Place(false, None, None, None);
    var i := 0;
    ghost var first := Next(servers, self, 0, true);
    ghost var end := Next(servers, self, first, false);
    while i < |servers|
      invariant 0 <= i <= |servers| && i <= end
      invariant !r.forward && r.peer == if i == 0 then None else Some(servers[i - 1].location)
      invariant if i <= first then r.pos.None? && r.writeId.None?
                else r.pos == Some((i - 1) as nat) && r.writeId == Some(servers[i - 1].writeId)
    {
      var e := servers[i];
      r := r.(peer := Some(e.location));
      if e.location == self {
        assert i >= first;
        r := r.(pos := Some(i), writeId := Some(e.writeId));
      } else if r.pos.Some? {
        assert i == end;
        return r.(forward := true);
      }
      i := i + 1;
    }
  }

  /**
   If no location is listed twice, the servers form a chain: the server at position `i` finds that position and its own
   write id there, and forwards to the one at `i + 1`, unless it is the last.
   */
  lemma ServersFormAChain(servers: seq<Entry>, i: nat)
    requires i < |servers| && forall j, k | 0 <= j < k < |servers| :: servers[j].location != servers[k].location
    ensures var p := PlaceOf(servers, servers[i].location);
      && p.pos == Some(i) && p.writeId == Some(servers[i].writeId)
      && p.forward == (i + 1 < |servers|)
      && p.peer == Some(servers[if i + 1 < |servers| then i + 1 else i].location)
  {
    var self := servers[i].location;
    var first := Next(servers, self, 0, true);
    assert first == i;
    assert Next(servers, self, first, false) == i + 1;
  }
}
