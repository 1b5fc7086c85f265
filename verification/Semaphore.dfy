/** The counting semaphore (lib/semaphore.go): its value is the occupancy of a buffered channel. */
module Semaphore {

  class Semaphore {
    const size: nat
    var occupied: nat
    ghost var holders: multiset<nat>  // who has acquired and not released

    /** The value counts the holders, and never exceeds the size. */
    ghost predicate Valid()
      reads this
    {
      occupied == |holders| <= size
    }

    constructor (size: nat)
      ensures Valid() && this.size == size && holders == multiset{}
    {
      this.size, occupied, holders := size, 0, multiset{};
    }

    /** Acquire, once it no longer blocks. */
    method Acquire(ghost holder: nat)
      requires Valid() && occupied < size
      modifies this
      ensures Valid() && holders == old(holders) + multiset{holder}
    {
      occupied := occupied + 1;
      holders := holders + multiset{holder};
    }

    /** TryAcquire: exactly size holders are let in. */
    method TryAcquire(ghost holder: nat) returns (ok: bool)
      requires Valid()
      modifies this
      ensures Valid() && (ok <==> |old(holders)| < size)
      ensures holders == if ok then old(holders) + multiset{holder} else old(holders)
    {
      ok := occupied < size;
      if ok {
        occupied := occupied + 1;
        holders := holders + multiset{holder};
      }
    }

    /** Release; it is not ok, a panic, exactly when nobody holds the semaphore. */
    method Release(ghost holder: nat) returns (ok: bool)
      requires Valid() && (holders != multiset{} ==> holder in holders)
      modifies this
      ensures Valid() && (ok <==> old(holders) != multiset{})
      ensures holders == old(holders) - multiset{holder}
    {
      if occupied == 0 { return false; }
      occupied := occupied - 1;
      holders := holders - multiset{holder};
      return true;
    }

    method Count() returns (n: nat)
      requires Valid()
      ensures n == |holders| <= size
    {
      return occupied;
    }
  }
}
