/**
  The life of a thread whose loop body is
    lock; while (must wait) cond_wait; move one item; cond_signal; unlock
  as in nConsumer.c and ex3_condition_variable.c.
*/
module CondVar {
  /**
    Parked: in pthread_cond_wait, lock released. Woken: signalled (or woken spuriously) and not yet
    holding the lock again. Post: the item is moved, the signal not sent.
  */
  datatype Pc = Start | Test | Parked | Woken | Post | Unlock | Done

  predicate Holds(pc: Pc) { pc.Test? || pc.Post? || pc.Unlock? }

  function Rank(pc: Pc): nat {
    match pc
    case Done => 0
    case Parked => 0
    case Test => 1
    case Woken => 2
    case Start => 2
    case Unlock => 3
    case Post => 6
  }

  /**
    Steps left, for a thread that has still to move `todo` items: it falls by at least one when the
    thread runs, and a signal costs its sender more than it gives the thread it wakes.
  */
  function StepsLeft(todo: nat, pc: Pc): nat {
    7 * todo + Rank(pc)
  }
}
