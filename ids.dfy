/** The correlation-id counters. Every component that hands out message ids
    does it the same way: the id is the current counter, the counter then
    goes up by one and drops back to 0 when it reaches a fixed capacity.
    The JavaScript clients use capacity 500 (src/js/client.test.ts) or 100
    (client.test.ts), main.py uses MAX_MESSAGE_ID = 100, and the Rust relay's
    wrapping `AtomicU32::fetch_add` is the same step with capacity 2^32. */
module Ids {

  /** One counter step. The reset only happens on exact equality with `cap`,
      so a counter that starts at or above `cap` (or a capacity of 0) never
      wraps. */
  function NextId(c: int, cap: int): (n: int)
    ensures 0 <= c < cap ==> 0 <= n < cap
    ensures c + 1 < cap ==> n == c + 1
    ensures c + 1 == cap ==> n == 0
  {
    if c + 1 == cap then 0 else c + 1
  }

  /** The id handed to the k-th call (counting from 0) of a counter that
      starts at 0. */
  function IdAfter(k: nat, cap: int): int {
    if k == 0 then 0 else NextId(IdAfter(k - 1, cap), cap)
  }

  /** With a positive capacity every id handed out lies in 0 .. cap-1. */
  lemma {:induction false} IdInRange(k: nat, cap: int)
    requires cap >= 1
    ensures 0 <= IdAfter(k, cap) < cap
  {
    if k > 0 {
      IdInRange(k - 1, cap);
    }
  }

  /** d calls (d < cap) after call k, the id has moved on by d modulo cap. */
  lemma {:induction false} IdShift(k: nat, d: nat, cap: int)
    requires cap >= 1 && d < cap
    ensures var x := IdAfter(k, cap);
      IdAfter(k + d, cap) == if x + d < cap then x + d else x + d - cap
  {
    IdInRange(k, cap);
    if d > 0 {
      IdShift(k, d - 1, cap);
    }
  }

  /** Call q * cap + r gets id r: the ids cycle through 0 .. cap-1. */
  lemma {:induction false} IdsCycle(q: nat, r: nat, cap: int)
    requires 0 <= r < cap
    ensures IdAfter(q * cap + r, cap) == r
  {
    var k := q * cap + r;
    if r > 0 {
      IdsCycle(q, r - 1, cap);
      assert k - 1 == q * cap + (r - 1);
      assert IdAfter(k, cap) == NextId(IdAfter(k - 1, cap), cap);
    } else if q > 0 {
      var p := (q - 1) * cap;
      assert k == p + cap by {
        assert q * cap == (q - 1) * cap + cap;
      }
      IdsCycle(q - 1, cap - 1, cap);
      assert IdAfter(k, cap) == NextId(IdAfter(p + (cap - 1), cap), cap);
    } else {
      assert k == 0;
    }
  }

  /** Any `cap` consecutive calls get pairwise different ids; this is why no
      more than `cap` calls may be waiting at once. */
  lemma IdsDistinctInWindow(i: nat, j: nat, cap: int)
    requires cap >= 1
    requires i < j < i + cap
    ensures IdAfter(i, cap) != IdAfter(j, cap)
  {
    IdShift(i, j - i, cap);
  }

  /** Call k + cap gets the same id as call k: ids are reused after exactly
      `cap` calls. */
  lemma IdReusedAfterCap(k: nat, cap: int)
    requires cap >= 1
    ensures IdAfter(k + cap, cap) == IdAfter(k, cap)
  {
    IdShift(k, cap - 1, cap);
    IdInRange(k, cap);
  }

  /** A capacity below 1 never triggers the reset: ids grow without bound. */
  lemma {:induction false} NoWrapBelowOne(k: nat, cap: int)
    requires cap < 1
    ensures IdAfter(k, cap) == k
  {
    if k > 0 {
      NoWrapBelowOne(k - 1, cap);
    }
  }
}
