/**
 * The priority queue of the search. The source keeps a binary heap in a
 * list and uses `heappush` / `heappop`; here the list is a sequence,
 * a push appends, and a pop removes an entry of least cost.
 */
module MinQueue {

  /** A queue entry `(cost, item)`. */
  datatype Entry<T> = Entry(cost: nat, item: T)

  /**
   * `heappop`: removes and returns an entry whose cost is the least in the
   * queue; the other entries stay, with their multiplicities.
   */
  method PopMin<T>(pq: seq<Entry<T>>) returns (e: Entry<T>, rest: seq<Entry<T>>)
    requires pq != []
    ensures multiset(pq) == multiset(rest) + multiset{e}
    ensures |rest| == |pq| - 1
    ensures forall x :: x in pq ==> e.cost <= x.cost
  {
    var m := 0;
    for i := 1 to |pq|
      invariant 0 <= m < |pq|
      invariant forall j :: 0 <= j < i ==> pq[m].cost <= pq[j].cost
    {
      if pq[i].cost < pq[m].cost {
        m := i;
      }
    }
    e := pq[m];
    rest := pq[..m] + pq[m + 1..];
    assert pq == pq[..m] + [e] + pq[m + 1..];
  }
}
