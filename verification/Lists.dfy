/** Lists of ids without duplicates, as sequences. */
module Lists {

  ghost predicate Distinct(q: seq<int>) {
    forall i, j | 0 <= i < j < |q| :: q[i] != q[j]
  }

  /** The list without `c`, which it holds at most once. */
  function Removed(q: seq<int>, c: int): seq<int> {
    if q == [] then [] else if q[0] == c then q[1..] else [q[0]] + Removed(q[1..], c)
  }

  lemma {:induction false} RemovedIs(q: seq<int>, c: int)
    requires Distinct(q)
    ensures Distinct(Removed(q, c)) && c !in Removed(q, c)
    ensures forall d | d != c :: d in Removed(q, c) <==> d in q
    ensures |Removed(q, c)| == |q| - if c in q then 1 else 0
  {
    if q != [] {
      var rest := q[1..];
      assert q == [q[0]] + rest && q[0] !in rest;
      RemovedIs(rest, c);
      assert q[0] !in Removed(rest, c);
    }
  }

  lemma {:induction false} RemovedShorter(q: seq<int>, c: int)
    requires c in q
    ensures |Removed(q, c)| == |q| - 1
  {
    if q[0] != c { RemovedShorter(q[1..], c); }
  }

  lemma {:induction false} RemovedAt(q: seq<int>, m: nat)
    requires Distinct(q) && m < |q|
    ensures Removed(q, q[m]) == q[..m] + q[m + 1..]
  {
    if m > 0 {
      RemovedAt(q[1..], m - 1);
      assert q[..m] == [q[0]] + q[1..][..m - 1] && q[1..][m..] == q[m + 1..];
    }
  }

  lemma {:induction false} RemovedMissing(q: seq<int>, c: int)
    requires c !in q
    ensures Removed(q, c) == q
  {
    if q != [] { RemovedMissing(q[1..], c); }
  }
}
