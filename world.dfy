/**
 * World addresses (`WorldId = usize`, src/world.rs) and the counter-based
 * identifier generation of `Identifiable::generate_id`. The source keeps the
 * counter in a process-wide atomic (`NUM_BASIC_UNITS`, `NUM_COMPANIES`); the
 * model keeps it in an allocator object whose `issued` field counts the
 * identifiers handed out so far.
 */
module World {

  import Arith

  /** A flat address shared by groups and agents; `usize` without its upper bound. */
  type WorldId = nat

  /** The identifier handed out when the counter stands at `n`: capacity * (n + 1). */
  function NthId(capacity: nat, n: nat): WorldId
  {
    capacity * (n + 1)
  }

  /**
   * Every generated identifier is a non-zero multiple of the capacity, so the
   * `capacity - 1` addresses after it are free for the group's agents, and the
   * counter value is recovered from it by division.
   */
  lemma NthIdAligned(capacity: nat, n: nat)
    requires capacity > 0
    ensures NthId(capacity, n) % capacity == 0
    ensures NthId(capacity, n) / capacity == n + 1
    ensures NthId(capacity, n) >= capacity
  {
    Arith.DivModUnique(NthId(capacity, n), capacity, n + 1, 0);
  }

  /** Identifiers handed out later are strictly larger, so no two are equal. */
  lemma {:induction false} NthIdIncreasing(capacity: nat, m: nat, n: nat)
    requires capacity > 0 && m < n
    ensures NthId(capacity, m) < NthId(capacity, n)
    ensures NthId(capacity, n) - NthId(capacity, m) >= capacity
    decreases n
  {
    if m + 1 < n {
      NthIdIncreasing(capacity, m, n - 1);
    }
    assert NthId(capacity, n) == NthId(capacity, n - 1) + capacity;
  }

  /** With a positive capacity distinct counter values give distinct identifiers. */
  lemma NthIdInjective(capacity: nat, m: nat, n: nat)
    requires capacity > 0 && NthId(capacity, m) == NthId(capacity, n)
    ensures m == n
  {
    if m < n {
      NthIdIncreasing(capacity, m, n);
    } else if n < m {
      NthIdIncreasing(capacity, n, m);
    }
  }

  /** The counter behind `generate_id`, with the per-group capacity it multiplies by. */
  class IdAllocator {
    const capacity: nat
    var issued: nat

    constructor (capacity: nat)
      ensures this.capacity == capacity && issued == 0
    {
      this.capacity := capacity;
      issued := 0;
    }

    /**
     * `generate_id`: reads the counter, bumps it by one (`fetch_add(1)`) and
     * returns capacity * (old counter + 1), which is larger than every
     * identifier handed out before.
     */
    method GenerateId() returns (id: WorldId)
      modifies this
      ensures issued == old(issued) + 1
      ensures id == NthId(capacity, old(issued))
      ensures capacity > 0 ==> forall k :: 0 <= k < old(issued) ==> NthId(capacity, k) < id
    {
      var nc := issued;
      issued := issued + 1;
      id := capacity * (nc + 1);
      forall k | 0 <= k < nc && capacity > 0
        ensures NthId(capacity, k) < id
      {
        NthIdIncreasing(capacity, k, nc);
      }
    }
  }
}
