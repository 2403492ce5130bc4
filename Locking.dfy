/**
 * Handing records to a callback that locks the watcher's state. Each watch
 * tick takes the state's `std::sync::Mutex` and then passes records to a
 * callback that locks the same mutex again for every record it acts on. A
 * std mutex is not re-entrant: a second `lock` from the thread that holds
 * it never returns. `Held` delivery is the code as written; `Free` delivery
 * (the tick's guard dropped before the records are handed over) is what the
 * watchers evidently intend, and the rest of the model folds records that
 * way.
 */
module Locking {
  /** The state mutex as the callback finds it. */
  datatype Lock = Free | Held

  /** A run of records either finishes with a state, or waits forever on a lock its own thread holds. */
  datatype Run<S> = Finished(state: S) | Blocked

  /** Each record folded into the state in turn. */
  function Fold<S, E>(s: S, evs: seq<E>, step: (S, E) -> S): S {
    if evs == [] then s else step(Fold(s, evs[..|evs| - 1], step), evs[|evs| - 1])
  }

  /**
   * Records handed one at a time to a callback that locks the state for
   * each record `locks` accepts. With the lock free it is the fold of the
   * records.
   */
  function Deliver<S, E>(lock: Lock, s: S, evs: seq<E>, locks: E -> bool, step: (S, E) -> S): (r: Run<S>)
    ensures lock.Free? ==> r == Finished(Fold(s, evs, step))
  {
    if evs == [] then Finished(s)
    else
      var prev := Deliver(lock, s, evs[..|evs| - 1], locks, step);
      var e := evs[|evs| - 1];
      if prev.Blocked? || (lock.Held? && locks(e)) then Blocked
      else Finished(step(prev.state, e))
  }

  /**
   * With the lock held, the run blocks exactly when some record makes the
   * callback lock; when none does, it is the fold of the records.
   */
  lemma {:induction false} HeldBlocksIff<S, E>(s: S, evs: seq<E>, locks: E -> bool, step: (S, E) -> S)
    ensures Deliver(Held, s, evs, locks, step).Blocked? <==> exists i :: 0 <= i < |evs| && locks(evs[i])
    ensures (forall i :: 0 <= i < |evs| ==> !locks(evs[i])) ==> Deliver(Held, s, evs, locks, step) == Finished(Fold(s, evs, step))
  {
    if evs != [] {
      var init := evs[..|evs| - 1];
      HeldBlocksIff(s, init, locks, step);
      assert forall i :: 0 <= i < |init| ==> init[i] == evs[i];
      if exists i :: 0 <= i < |init| && locks(init[i]) {
        var i :| 0 <= i < |init| && locks(init[i]);
        assert locks(evs[i]);
      }
    }
  }
}
