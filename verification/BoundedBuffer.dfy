/**
  nConsumer.c: p producers and c consumers on a ring of b slots, under one mutex and two condition
  variables. The sizes are parameters; the program text fixes them to 2, 3, 5 and 10 items.
*/
module BoundedBuffer {
  import opened Runs
  import opened Sums
  import opened Ring
  import opened CondVar

  /** The four #define constants; the consumer quota is rounded down by integer division. */
  datatype Config = Config(producers: nat, items: nat, consumers: nat, size: nat) {
    predicate Valid() { consumers > 0 && size > 0 }

    function Quota(): nat
      requires Valid()
    {
      producers * items / consumers
    }

    /** What the rounded-down quotas leave unconsumed. */
    function Leftover(): nat
      requires Valid()
    {
      producers * items % consumers
    }
  }

  lemma QuotaAndLeftover(g: Config)
    requires g.Valid()
    ensures g.consumers * g.Quota() + g.Leftover() == g.producers * g.items
  {
  }

  /** `todo` counts the loop iterations whose item has not been moved yet. */
  datatype Thread = Thread(producer: bool, pc: Pc, todo: nat)

  /** An item with its history: who produced it, as its how-many-th. The program stores `value`. */
  datatype Item = Item(maker: nat, nth: int, value: int)

  datatype State = State(
    cfg: Config,
    ring: Ring<Item>,
    lock: Option<nat>,
    threads: seq<Thread>,
    joined: nat,
    produced: seq<Item>,
    consumed: seq<Item>)

  /**
    The scheduler's choices: run thread t one step (a signal picks `wake` among the parked threads, a
    producer's item has the given value), wake a parked thread without a signal, or let main join.
  */
  datatype Label = Run(t: nat, wake: nat, value: int) | Spurious(t: nat) | Join

  const Blank := Item(0, 0, 0)

  function Fresh(producer: bool, quota: nat): Thread {
    Thread(producer, if quota == 0 then Done else Start, quota)
  }

  function Init(g: Config): State
    requires g.Valid()
  {
    State(g, Ring(seq(g.size, _ => Blank), 0, 0, 0), None,
          seq(g.producers, _ => Fresh(true, g.items)) + seq(g.consumers, _ => Fresh(false, g.Quota())),
          0, [], [])
  }

  predicate IsParked(s: State, i: nat, producer: bool) {
    i < |s.threads| && s.threads[i].producer == producer && s.threads[i].pc.Parked?
  }

  predicate AnyParked(s: State, producer: bool) {
    exists i :: 0 <= i < |s.threads| && IsParked(s, i, producer)
  }

  /** The while conditions: a producer waits on a full ring, a consumer on an empty one. */
  predicate MustWait(s: State, producer: bool) {
    if producer then s.ring.count == s.cfg.size else s.ring.count == 0
  }

  function At(s: State, t: nat, pc: Pc): State
    requires t < |s.threads|
  {
    s.(threads := s.threads[t := s.threads[t].(pc := pc)])
  }

  /** Moving one item: lines 33 to 35 for a producer, 56 to 58 for a consumer. */
  function Move(s: State, t: nat, value: int): State
    requires t < |s.threads| && s.threads[t].todo > 0
    requires s.ring.inIdx < |s.ring.buffer| && s.ring.outIdx < |s.ring.buffer|
    requires s.threads[t].producer || s.ring.count > 0
  {
    var th := s.threads[t];
    var threads := s.threads[t := th.(pc := Post, todo := th.todo - 1)];
    if th.producer then
      var item := Item(t, s.cfg.items - th.todo, value);
      s.(ring := s.ring.Put(item), threads := threads, produced := s.produced + [item])
    else
      s.(ring := s.ring.Get(), threads := threads, consumed := s.consumed + [s.ring.buffer[s.ring.outIdx]])
  }

  /** pthread_cond_signal: wakes one waiter of the other kind, and does nothing when there is none. */
  function Signal(s: State, t: nat, wake: nat): Option<State>
    requires t < |s.threads|
  {
    var other := !s.threads[t].producer;
    if !AnyParked(s, other) then Some(At(s, t, Unlock))
    else if IsParked(s, wake, other) then Some(At(At(s, wake, Woken), t, Unlock))
    else None
  }

  function RunThread(s: State, t: nat, wake: nat, value: int): Option<State> {
    if t >= |s.threads| || s.ring.inIdx >= |s.ring.buffer| || s.ring.outIdx >= |s.ring.buffer| then None
    else
      var th := s.threads[t];
      match th.pc
      case Start => if s.lock.None? then Some(At(s, t, Test).(lock := Some(t))) else None
      case Woken => if s.lock.None? then Some(At(s, t, Test).(lock := Some(t))) else None
      case Test =>
        if MustWait(s, th.producer) then Some(At(s, t, Parked).(lock := None))
        else if th.todo > 0 && (th.producer || s.ring.count > 0) then Some(Move(s, t, value))
        else None
      case Post => Signal(s, t, wake)
      case Unlock => Some(At(s, t, if th.todo == 0 then Done else Start).(lock := None))
      case Parked => None
      case Done => None
  }

  function Step(s: State, l: Label): Option<State> {
    match l
    case Run(t, wake, value) => RunThread(s, t, wake, value)
    case Spurious(t) => if t < |s.threads| && s.threads[t].pc.Parked? then Some(At(s, t, Woken)) else None
    case Join =>
      if s.joined < |s.threads| && s.threads[s.joined].pc.Done? then Some(s.(joined := s.joined + 1)) else None
  }

  // ----- the invariant

  function Todo(producer: bool): Thread -> int {
    (th: Thread) => if th.producer == producer then th.todo else 0
  }

  /** Threads that will look at the ring again on behalf of the parked threads of one kind. */
  function Credit(producer: bool): Thread -> int {
    (th: Thread) => if (if th.producer == producer then th.pc.Woken? || th.pc.Test? else th.pc.Post?) then 1 else 0
  }

  /** Free slots for producers, items for consumers. */
  function Available(s: State, producer: bool): int {
    if producer then s.cfg.size - s.ring.count else s.ring.count
  }

  /** No lost wake-up, for one of the two condition variables. */
  ghost predicate NoLostWakeup(s: State, producer: bool) {
    AnyParked(s, producer) ==> Available(s, producer) <= Sum(s.threads, Credit(producer))
  }

  ghost predicate ThreadsOk(s: State) {
    && |s.threads| == s.cfg.producers + s.cfg.consumers
    && (s.lock.Some? ==> s.lock.value < |s.threads|)
    && forall i :: 0 <= i < |s.threads| ==>
         var th := s.threads[i];
         && (th.producer <==> i < s.cfg.producers)
         && (Holds(th.pc) <==> s.lock == Some(i))
         && (th.pc in {Start, Test, Parked, Woken} ==> th.todo > 0)
         && (th.pc.Done? ==> th.todo == 0)
         && (th.producer ==> th.todo <= s.cfg.items)
  }

  /** The items of one producer, in the order of a log. */
  function ItemsOf(log: seq<Item>, t: nat): seq<Item> {
    if log == [] then []
    else ItemsOf(log[..|log| - 1], t) + (if log[|log| - 1].maker == t then [log[|log| - 1]] else [])
  }

  ghost predicate InOrder(items: seq<Item>, t: nat) {
    forall k :: 0 <= k < |items| ==> items[k].maker == t && items[k].nth == k
  }

  /** The production log holds each producer's items, numbered from 0 without gap or repetition. */
  ghost predicate LogOk(s: State) {
    && |s.threads| >= s.cfg.producers
    && forall t :: 0 <= t < s.cfg.producers ==>
         && |ItemsOf(s.produced, t)| == s.cfg.items - s.threads[t].todo
         && InOrder(ItemsOf(s.produced, t), t)
  }

  ghost predicate QueueOk(s: State) {
    && s.cfg.Valid()
    && |s.ring.buffer| == s.cfg.size
    && s.ring.Valid()
    && s.produced == s.consumed + s.ring.Contents()
    && |s.produced| + Sum(s.threads, Todo(true)) == s.cfg.producers * s.cfg.items
    && |s.consumed| + Sum(s.threads, Todo(false)) == s.cfg.consumers * s.cfg.Quota()
  }

  ghost predicate JoinOk(s: State) {
    && s.joined <= |s.threads|
    && forall i :: 0 <= i < s.joined ==> s.threads[i].pc.Done?
  }

  ghost predicate Inv(s: State) {
    && s.cfg.Valid()
    && ThreadsOk(s)
    && QueueOk(s)
    && LogOk(s)
    && NoLostWakeup(s, true)
    && NoLostWakeup(s, false)
    && JoinOk(s)
  }

  lemma InitInv(g: Config)
    requires g.Valid()
    ensures Inv(Init(g))
  {
    var s := Init(g);
    var ps, cs := seq(g.producers, _ => Fresh(true, g.items)), seq(g.consumers, _ => Fresh(false, g.Quota()));
    InitSum(g, Todo(true), g.items, 0);
    InitSum(g, Todo(false), 0, g.Quota());
    assert s.ring.Valid();
  }

  lemma InitSum(g: Config, w: Thread -> int, a: nat, b: nat)
    requires g.Valid() && w(Fresh(true, g.items)) == a && w(Fresh(false, g.Quota())) == b
    ensures Sum(Init(g).threads, w) == g.producers * a + g.consumers * b
  {
    var ps, cs := seq(g.producers, _ => Fresh(true, g.items)), seq(g.consumers, _ => Fresh(false, g.Quota()));
    SumConcat(ps, cs, w);
    SumBounds(ps, w, a, a);
    SumBounds(cs, w, b, b);
    assert a * g.producers == g.producers * a && b * g.consumers == g.consumers * b;
  }

  lemma CreditNonneg(s: State, producer: bool)
    ensures 0 <= Sum(s.threads, Credit(producer))
  {
    SumBounds(s.threads, Credit(producer), 0, 1);
  }

  /** Replacing one thread changes each of the four sums by that thread's own weights. */
  lemma SumsAfter(s: State, t: nat, th: Thread)
    requires t < |s.threads|
    ensures forall r :: Sum(s.threads[t := th], Todo(r)) == Sum(s.threads, Todo(r)) - Todo(r)(s.threads[t]) + Todo(r)(th)
    ensures forall r :: Sum(s.threads[t := th], Credit(r)) == Sum(s.threads, Credit(r)) - Credit(r)(s.threads[t]) + Credit(r)(th)
  {
    forall r
      ensures Sum(s.threads[t := th], Todo(r)) == Sum(s.threads, Todo(r)) - Todo(r)(s.threads[t]) + Todo(r)(th)
      ensures Sum(s.threads[t := th], Credit(r)) == Sum(s.threads, Credit(r)) - Credit(r)(s.threads[t]) + Credit(r)(th)
    {
      SumUpdate(s.threads, t, th, Todo(r));
      SumUpdate(s.threads, t, th, Credit(r));
    }
  }

  lemma LogKept(s: State, s': State)
    requires LogOk(s) && s'.cfg == s.cfg && s'.produced == s.produced && |s'.threads| == |s.threads|
    requires forall i :: 0 <= i < |s.threads| ==> s'.threads[i].todo == s.threads[i].todo
    ensures LogOk(s')
  {
    forall i | 0 <= i < s.cfg.producers
      ensures |ItemsOf(s'.produced, i)| == s.cfg.items - s'.threads[i].todo && InOrder(ItemsOf(s'.produced, i), i)
    {
      assert s'.threads[i].todo == s.threads[i].todo;
    }
  }

  lemma WakeupLockFree(s: State, lock: Option<nat>, r: bool)
    ensures NoLostWakeup(s.(lock := lock), r) == NoLostWakeup(s, r)
  {
    assert forall i: nat :: IsParked(s.(lock := lock), i, r) == IsParked(s, i, r);
  }

  /** Steps that only change where thread t is, and who holds the lock. */
  lemma PcStepInv(s: State, t: nat, pc: Pc, lock: Option<nat>)
    requires Inv(s) && t < |s.threads|
    requires ThreadsOk(At(s, t, pc).(lock := lock))
    requires s.threads[t].pc.Done? ==> pc.Done?
    requires NoLostWakeup(At(s, t, pc), true) && NoLostWakeup(At(s, t, pc), false)
    ensures Inv(At(s, t, pc).(lock := lock))
  {
    var s' := At(s, t, pc).(lock := lock);
    SumsAfter(s, t, s'.threads[t]);
    assert QueueOk(s');
    LogKept(s, s');
    WakeupLockFree(At(s, t, pc), lock, true);
    WakeupLockFree(At(s, t, pc), lock, false);
  }

  /** A thread that is not parked afterwards and loses no credit keeps the wake-up invariant. */
  lemma WakeupKept(s: State, t: nat, pc: Pc, r: bool)
    requires t < |s.threads| && NoLostWakeup(s, r) && !pc.Parked?
    requires Credit(r)(s.threads[t]) <= Credit(r)(s.threads[t].(pc := pc))
    ensures NoLostWakeup(At(s, t, pc), r)
  {
    var s' := At(s, t, pc);
    SumsAfter(s, t, s'.threads[t]);
    if AnyParked(s', r) {
      var i :| 0 <= i < |s'.threads| && IsParked(s', i, r);
      assert IsParked(s, i, r);
    }
  }

  lemma AcquireInv(s: State, t: nat)
    requires Inv(s) && t < |s.threads| && s.threads[t].pc in {Start, Woken} && s.lock.None?
    ensures Inv(At(s, t, Test).(lock := Some(t)))
  {
    WakeupKept(s, t, Test, true);
    WakeupKept(s, t, Test, false);
    PcStepInv(s, t, Test, Some(t));
  }

  /** A thread parks only when nothing is available to its kind. */
  lemma ParkInv(s: State, t: nat)
    requires Inv(s) && t < |s.threads| && s.threads[t].pc.Test? && MustWait(s, s.threads[t].producer)
    ensures Inv(At(s, t, Parked).(lock := None))
  {
    var s' := At(s, t, Parked);
    var r := s.threads[t].producer;
    SumsAfter(s, t, s'.threads[t]);
    CreditNonneg(s', r);
    assert NoLostWakeup(s', r);
    if AnyParked(s', !r) {
      var i :| 0 <= i < |s'.threads| && IsParked(s', i, !r);
      assert IsParked(s, i, !r);
    }
    PcStepInv(s, t, Parked, None);
  }

  lemma ReleaseInv(s: State, t: nat)
    requires Inv(s) && t < |s.threads| && s.threads[t].pc.Unlock?
    ensures Inv(At(s, t, if s.threads[t].todo == 0 then Done else Start).(lock := None))
  {
    var pc := if s.threads[t].todo == 0 then Done else Start;
    WakeupKept(s, t, pc, true);
    WakeupKept(s, t, pc, false);
    PcStepInv(s, t, pc, None);
  }

  lemma WakeInv(s: State, t: nat)
    requires Inv(s) && t < |s.threads| && s.threads[t].pc.Parked?
    ensures Inv(At(s, t, Woken))
  {
    WakeupKept(s, t, Woken, true);
    WakeupKept(s, t, Woken, false);
    PcStepInv(s, t, Woken, s.lock);
    assert At(s, t, Woken).(lock := s.lock) == At(s, t, Woken);
  }

  /** A signal that nobody waits for. */
  lemma IdleSignalInv(s: State, t: nat)
    requires Inv(s) && t < |s.threads| && s.threads[t].pc.Post? && !AnyParked(s, !s.threads[t].producer)
    ensures Inv(At(s, t, Unlock))
  {
    var r, s' := s.threads[t].producer, At(s, t, Unlock);
    WakeupKept(s, t, Unlock, r);
    if AnyParked(s', !r) {
      var i :| 0 <= i < |s'.threads| && IsParked(s', i, !r);
      assert IsParked(s, i, !r);
    }
    PcStepInv(s, t, Unlock, s.lock);
    assert s'.(lock := s.lock) == s';
  }

  /** The signal hands the sender's credit to the thread it wakes. */
  lemma WakingSignalCredit(s: State, t: nat, wake: nat)
    requires Inv(s) && t < |s.threads| && s.threads[t].pc.Post? && IsParked(s, wake, !s.threads[t].producer)
    ensures NoLostWakeup(At(At(s, wake, Woken), t, Unlock), !s.threads[t].producer)
  {
    var r := s.threads[t].producer;
    var m := At(s, wake, Woken);
    var s' := At(m, t, Unlock);
    assert AnyParked(s, !r);
    SumUpdate(s.threads, wake, m.threads[wake], Credit(!r));
    SumUpdate(m.threads, t, s'.threads[t], Credit(!r));
  }

  lemma SignalInv(s: State, t: nat, wake: nat)
    requires Inv(s) && t < |s.threads| && s.threads[t].pc.Post? && Signal(s, t, wake).Some?
    ensures Inv(Signal(s, t, wake).value)
  {
    var r := s.threads[t].producer;
    if !AnyParked(s, !r) {
      IdleSignalInv(s, t);
    } else {
      WakingSignalCredit(s, t, wake);
      WakeInv(s, wake);
      var m := At(s, wake, Woken);
      var s' := At(m, t, Unlock);
      WakeupKept(m, t, Unlock, r);
      PcStepInv(m, t, Unlock, m.lock);
      assert s'.(lock := m.lock) == s';
    }
  }

  lemma ItemsOfAppend(log: seq<Item>, x: Item, t: nat)
    ensures ItemsOf(log + [x], t) == ItemsOf(log, t) + (if x.maker == t then [x] else [])
  {
    assert (log + [x])[..|log + [x]| - 1] == log;
  }

  lemma MoveLog(s: State, t: nat, value: int)
    requires Inv(s) && t < |s.threads| && s.threads[t].pc.Test? && !MustWait(s, s.threads[t].producer)
    ensures LogOk(Move(s, t, value))
  {
    var s' := Move(s, t, value);
    if s.threads[t].producer {
      var x := Item(t, s.cfg.items - s.threads[t].todo, value);
      forall i | 0 <= i < s.cfg.producers
        ensures |ItemsOf(s'.produced, i)| == s.cfg.items - s'.threads[i].todo
        ensures InOrder(ItemsOf(s'.produced, i), i)
      {
        ItemsOfAppend(s.produced, x, i);
        assert InOrder(ItemsOf(s.produced, i), i);
      }
    }
  }

  lemma MoveQueue(s: State, t: nat, value: int)
    requires Inv(s) && t < |s.threads| && s.threads[t].pc.Test? && !MustWait(s, s.threads[t].producer)
    ensures QueueOk(Move(s, t, value))
  {
    var s' := Move(s, t, value);
    SumsAfter(s, t, s'.threads[t]);
    if s.threads[t].producer {
      PutAppends(s.ring, Item(t, s.cfg.items - s.threads[t].todo, value));
    } else {
      GetRemovesOldest(s.ring);
    }
    assert s'.produced == s'.consumed + s'.ring.Contents();
  }

  lemma MoveWakeup(s: State, t: nat, value: int, r: bool)
    requires Inv(s) && t < |s.threads| && s.threads[t].pc.Test? && !MustWait(s, s.threads[t].producer)
    ensures NoLostWakeup(Move(s, t, value), r)
  {
    var s' := Move(s, t, value);
    SumsAfter(s, t, s'.threads[t]);
    if AnyParked(s', r) {
      var i :| 0 <= i < |s'.threads| && IsParked(s', i, r);
      assert IsParked(s, i, r);
    }
  }

  lemma MoveInv(s: State, t: nat, value: int)
    requires Inv(s) && t < |s.threads| && s.threads[t].pc.Test? && !MustWait(s, s.threads[t].producer)
    ensures Inv(Move(s, t, value))
  {
    MoveLog(s, t, value);
    MoveQueue(s, t, value);
    MoveWakeup(s, t, value, true);
    MoveWakeup(s, t, value, false);
    assert ThreadsOk(Move(s, t, value));
  }

  lemma RunThreadInv(s: State, t: nat, wake: nat, value: int)
    requires Inv(s) && RunThread(s, t, wake, value).Some?
    ensures Inv(RunThread(s, t, wake, value).value)
  {
    match s.threads[t].pc
    case Start => AcquireInv(s, t);
    case Woken => AcquireInv(s, t);
    case Test =>
      if MustWait(s, s.threads[t].producer) {
        ParkInv(s, t);
      } else {
        MoveInv(s, t, value);
      }
    case Post => SignalInv(s, t, wake);
    case Unlock => ReleaseInv(s, t);
  }

  lemma JoinInv(s: State)
    requires Inv(s) && Step(s, Join).Some?
    ensures Inv(Step(s, Join).value)
  {
    var s' := Step(s, Join).value;
    LogKept(s, s');
    assert forall i: nat, r :: IsParked(s', i, r) == IsParked(s, i, r);
  }

  lemma StepInv(s: State, l: Label)
    requires Inv(s) && Step(s, l).Some?
    ensures Inv(Step(s, l).value)
  {
    match l
    case Join => JoinInv(s);
    case Spurious(t) => WakeInv(s, t);
    case Run(t, wake, value) => RunThreadInv(s, t, wake, value);
  }
}
