/**
 The counting argument behind "no lost wakeup", stated once for an arbitrary condition variable.

 A condition variable guards a resource.  Threads that found none wait; a thread that makes one
 available owes a `notify_one`, either paid at once under the lock or later, after unlocking.
 Notified threads are awakened but have yet to take the lock and look again.
 */
module WaitTally {

  datatype Tally = Tally(waiting: nat, awakened: nat, owed: nat, avail: nat)

  /** While anybody waits, every available unit is already spoken for by a pending wakeup. */
  predicate Covered(t: Tally) {
    t.waiting > 0 ==> t.avail <= t.owed + t.awakened
  }

  /** One `notify_one`: some waiter becomes awakened if there is one. */
  function Notify(t: Tally): Tally {
    if t.waiting > 0 then t.(waiting := t.waiting - 1, awakened := t.awakened + 1) else t
  }

  /** A thread that looks again is no longer merely awakened. */
  predicate Looks(a: Tally, b: Tally) {
    b == a || (a.awakened > 0 && b == a.(awakened := a.awakened - 1))
  }

  /** What a single step of the threads may do to the tally. */
  predicate Moves(a: Tally, b: Tally) {
    || b == a
       // a thread, fresh or awakened, finds nothing and starts to wait
    || (a.avail == 0 && b.waiting > 0 && Looks(a, b.(waiting := b.waiting - 1)))
       // a thread, fresh or awakened, takes one unit
    || (a.avail > 0 && Looks(a.(avail := a.avail - 1), b))
       // a unit is produced and its notification is still owed
    || b == a.(avail := a.avail + 1, owed := a.owed + 1)
       // a unit is produced and notified under the same lock
    || b == Notify(a.(avail := a.avail + 1))
       // an owed notification is paid
    || (a.owed > 0 && b == Notify(a.(owed := a.owed - 1)))
       // a spurious wakeup
    || (a.waiting > 0 && b == Notify(a))
  }

  lemma CoveredKept(a: Tally, b: Tally)
    requires Covered(a) && Moves(a, b)
    ensures Covered(b)
  {
  }

  /** With nothing owed and nobody awakened, a waiter proves the resource exhausted. */
  lemma QuietMeansExhausted(t: Tally)
    requires Covered(t) && t.owed == 0 && t.awakened == 0 && t.waiting > 0
    ensures t.avail == 0
  {
  }
}
