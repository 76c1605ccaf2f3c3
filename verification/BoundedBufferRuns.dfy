/**
  What holds of every schedule of nConsumer.c: order and conservation of items, no lost wake-up,
  termination, and exactly when main returns.
*/
module BoundedBufferRuns {
  import opened Runs
  import opened Sums
  import opened Ring
  import opened CondVar
  import opened BoundedBuffer

  // ----- termination measure

  function Weight(th: Thread): int {
    StepsLeft(th.todo, th.pc)
  }

  function Measure(s: State): int {
    Sum(s.threads, Weight) + |s.threads| - s.joined
  }

  predicate IsSpurious(l: Label) { l.Spurious? }

  lemma SignalMeasure(s: State, t: nat, wake: nat)
    requires t < |s.threads| && s.threads[t].pc.Post? && Signal(s, t, wake).Some?
    ensures Measure(Signal(s, t, wake).value) < Measure(s)
  {
    var s' := Signal(s, t, wake).value;
    if AnyParked(s, !s.threads[t].producer) {
      var m := At(s, wake, Woken);
      SumUpdate(s.threads, wake, m.threads[wake], Weight);
      SumUpdate(m.threads, t, s'.threads[t], Weight);
    } else {
      SumUpdate(s.threads, t, s'.threads[t], Weight);
    }
  }

  /** Away from the signal a thread changes nothing but its own entry. */
  lemma OwnEntryOnly(s: State, t: nat, wake: nat, value: int)
    requires RunThread(s, t, wake, value).Some? && !s.threads[t].pc.Post?
    ensures var s' := RunThread(s, t, wake, value).value;
      && s'.threads == s.threads[t := s'.threads[t]] && s'.joined == s.joined
      && Weight(s'.threads[t]) < Weight(s.threads[t])
  {
  }

  lemma ThreadMeasure(s: State, t: nat, wake: nat, value: int)
    requires RunThread(s, t, wake, value).Some?
    ensures Measure(RunThread(s, t, wake, value).value) < Measure(s)
  {
    var s' := RunThread(s, t, wake, value).value;
    if s.threads[t].pc.Post? {
      SignalMeasure(s, t, wake);
    } else {
      OwnEntryOnly(s, t, wake, value);
      SumUpdate(s.threads, t, s'.threads[t], Weight);
    }
  }

  /** Every step but a spurious wake-up decreases the measure; a spurious wake-up adds two. */
  lemma StepMeasure(s: State, l: Label)
    requires Step(s, l).Some?
    ensures if l.Spurious? then Measure(Step(s, l).value) == Measure(s) + 2 else Measure(Step(s, l).value) < Measure(s)
  {
    match l
    case Join =>
    case Spurious(t) => SumUpdate(s.threads, t, Step(s, l).value.threads[t], Weight);
    case Run(t, wake, value) => ThreadMeasure(s, t, wake, value);
  }

  lemma StepShape(s: State, l: Label)
    requires Step(s, l).Some?
    ensures Step(s, l).value.cfg == s.cfg && |Step(s, l).value.threads| == |s.threads|
  {
  }

  lemma {:induction false} RunInv(s: State, ls: seq<Label>)
    requires Inv(s) && Exec(Step, s, ls).Some?
    ensures var s' := Exec(Step, s, ls).value;
      Inv(s') && s'.cfg == s.cfg && Measure(s') + |ls| <= Measure(s) + 3 * Count(ls, IsSpurious)
    decreases |ls|
  {
    if ls != [] {
      StepInv(s, ls[0]);
      StepMeasure(s, ls[0]);
      StepShape(s, ls[0]);
      RunInv(Step(s, ls[0]).value, ls[1..]);
    }
  }

  lemma MeasureNonneg(s: State)
    requires Inv(s)
    ensures Measure(s) >= 0
  {
    SumNonneg(s.threads, Weight);
  }

  lemma InitMeasure(g: Config)
    requires g.Valid()
    ensures Measure(Init(g)) <= 7 * (g.producers * g.items + g.consumers * g.Quota()) + 3 * (g.producers + g.consumers)
  {
    InitSum(g, Weight, Weight(Fresh(true, g.items)), Weight(Fresh(false, g.Quota())));
    KindMeasure(g.producers, g.items, Weight(Fresh(true, g.items)));
    KindMeasure(g.consumers, g.Quota(), Weight(Fresh(false, g.Quota())));
  }

  lemma KindMeasure(k: nat, quota: nat, w: int)
    requires w <= 7 * quota + 2
    ensures k * w <= 7 * (k * quota) + 2 * k
  {
    assert k * w <= k * (7 * quota + 2);
  }

  /** No schedule is longer than this: without spurious wake-ups every schedule is finite. */
  lemma RunsAreShort(g: Config, ls: seq<Label>)
    requires g.Valid() && Exec(Step, Init(g), ls).Some?
    ensures |ls| <= 7 * (g.producers * g.items + g.consumers * g.Quota()) + 3 * (g.producers + g.consumers)
                    + 3 * Count(ls, IsSpurious)
  {
    InitInv(g);
    InitMeasure(g);
    RunInv(Init(g), ls);
    MeasureNonneg(Exec(Step, Init(g), ls).value);
  }

  // ----- order of items

  lemma {:induction false} ItemsOfPrefix(a: seq<Item>, b: seq<Item>, t: nat)
    requires a <= b
    ensures ItemsOf(a, t) <= ItemsOf(b, t)
    decreases |b|
  {
    if a != b {
      assert a <= b[..|b| - 1];
      ItemsOfPrefix(a, b[..|b| - 1], t);
    }
  }

  /**
    In every reachable state the items come out in the order they went in: what was consumed,
    followed by the ring read from `out`, is what was produced; and of each producer the consumers
    have seen a gapless prefix of its items, in its own order.
  */
  lemma FirstInFirstOut(g: Config, ls: seq<Label>)
    requires g.Valid() && Exec(Step, Init(g), ls).Some?
    ensures var s := Exec(Step, Init(g), ls).value;
      && s.ring.Valid() && |s.ring.buffer| == g.size
      && s.produced == s.consumed + s.ring.Contents()
      && forall t :: 0 <= t < g.producers ==> InOrder(ItemsOf(s.consumed, t), t) && InOrder(ItemsOf(s.produced, t), t)
  {
    InitInv(g);
    RunInv(Init(g), ls);
    var s := Exec(Step, Init(g), ls).value;
    forall t | 0 <= t < g.producers
      ensures InOrder(ItemsOf(s.consumed, t), t) && InOrder(ItemsOf(s.produced, t), t)
    {
      ItemsOfPrefix(s.consumed, s.produced, t);
      assert InOrder(ItemsOf(s.produced, t), t);
    }
  }

  // ----- no lost wake-up

  function WokenOf(producer: bool): Thread -> int {
    (th: Thread) => if th.producer == producer && th.pc.Woken? then 1 else 0
  }

  /** The thread inside the critical section will look at the ring again, or signal, for that kind. */
  predicate HolderServes(s: State, producer: bool) {
    && s.lock.Some? && s.lock.value < |s.threads|
    && Credit(producer)(s.threads[s.lock.value]) == 1
  }

  /** The credit of a kind is its woken threads and, perhaps, the lock holder. */
  lemma CreditIsWokenAndHolder(s: State, producer: bool)
    requires Inv(s)
    ensures Sum(s.threads, Credit(producer)) == Sum(s.threads, WokenOf(producer)) + if HolderServes(s, producer) then 1 else 0
  {
    if s.lock.Some? {
      var t := s.lock.value;
      var others := s.threads[t := s.threads[t].(pc := Done)];
      SumUpdate(s.threads, t, others[t], Credit(producer));
      SumUpdate(s.threads, t, others[t], WokenOf(producer));
      SumEqual(others, Credit(producer), WokenOf(producer));
    } else {
      SumEqual(s.threads, Credit(producer), WokenOf(producer));
    }
  }

  /**
    In every reachable state a parked consumer means that there are no more items than consumers that
    are already awake for them, one more being allowed while the lock holder is a consumer about to
    look or a producer about to signal; a parked producer the same with free slots. Spurious wake-ups
    and fresh threads that overtake a woken one are among the schedules.
  */
  lemma ParkedMeansServed(g: Config, ls: seq<Label>, producer: bool)
    requires g.Valid() && Exec(Step, Init(g), ls).Some?
    requires var s := Exec(Step, Init(g), ls).value; AnyParked(s, producer)
    ensures var s := Exec(Step, Init(g), ls).value;
      Available(s, producer) <= Sum(s.threads, WokenOf(producer)) + if HolderServes(s, producer) then 1 else 0
  {
    InitInv(g);
    RunInv(Init(g), ls);
    CreditIsWokenAndHolder(Exec(Step, Init(g), ls).value, producer);
  }

  // ----- where a schedule can end

  /** Nothing can happen without a spurious wake-up. */
  ghost predicate Stuck(s: State) {
    forall l: Label :: !l.Spurious? ==> Step(s, l).None?
  }

  predicate AllDone(s: State) {
    forall i :: 0 <= i < |s.threads| ==> s.threads[i].pc.Done?
  }

  /** Both join loops of main are through. */
  predicate Returned(s: State) {
    s.joined == |s.threads|
  }

  /** The lock holder can always take its next step. */
  lemma HolderCanStep(s: State) returns (l: Label)
    requires Inv(s) && s.lock.Some?
    ensures !l.Spurious? && Step(s, l).Some?
  {
    var t := s.lock.value;
    var r := !s.threads[t].producer;
    if AnyParked(s, r) {
      var w :| 0 <= w < |s.threads| && IsParked(s, w, r);
      l := Run(t, w, 0);
    } else {
      l := Run(t, 0, 0);
    }
  }

  /** With the lock free a thread that wants it can go on, so the others are parked or done. */
  lemma StuckThreads(s: State)
    requires Inv(s) && Stuck(s)
    ensures s.lock.None?
    ensures forall i :: 0 <= i < |s.threads| ==> s.threads[i].pc.Parked? || s.threads[i].pc.Done?
  {
    if s.lock.Some? {
      var l := HolderCanStep(s);
      assert false;
    }
    forall i | 0 <= i < |s.threads|
      ensures s.threads[i].pc.Parked? || s.threads[i].pc.Done?
    {
      assert Step(s, Run(i, 0, 0)).None?;
    }
  }

  lemma NoCredit(s: State, producer: bool)
    requires forall i :: 0 <= i < |s.threads| ==> s.threads[i].pc.Parked? || s.threads[i].pc.Done?
    ensures Sum(s.threads, Credit(producer)) == 0
  {
    SumBounds(s.threads, Credit(producer), 0, 0);
  }

  /** When no thread of a kind is parked, that kind has moved its whole quota. */
  lemma KindFinished(s: State, producer: bool)
    requires Inv(s) && !AnyParked(s, producer)
    requires forall i :: 0 <= i < |s.threads| ==> s.threads[i].pc.Parked? || s.threads[i].pc.Done?
    ensures Sum(s.threads, Todo(producer)) == 0
  {
    forall i | 0 <= i < |s.threads|
      ensures 0 <= Todo(producer)(s.threads[i]) <= 0
    {
      assert !IsParked(s, i, producer);
    }
    SumBounds(s.threads, Todo(producer), 0, 0);
  }

  lemma ParkedHasTodo(s: State, producer: bool)
    requires Inv(s) && AnyParked(s, producer)
    ensures Sum(s.threads, Todo(producer)) > 0
  {
    var i :| 0 <= i < |s.threads| && IsParked(s, i, producer);
    SumAtLeast(s.threads, Todo(producer), i);
  }

  lemma CountIsDifference(s: State)
    requires Inv(s)
    ensures s.ring.count == s.cfg.Leftover() - Sum(s.threads, Todo(true)) + Sum(s.threads, Todo(false))
  {
    assert |s.ring.Contents()| == s.ring.count;
    QuotaAndLeftover(s.cfg);
  }

  /** Consumers are never left parked: their quotas are at most what is produced. */
  lemma StuckConsumersDone(s: State)
    requires Inv(s) && Stuck(s)
    ensures !AnyParked(s, false) && Sum(s.threads, Todo(false)) == 0
  {
    StuckThreads(s);
    NoCredit(s, true);
    NoCredit(s, false);
    CountIsDifference(s);
    if AnyParked(s, false) {
      ParkedHasTodo(s, false);
      if !AnyParked(s, true) {
        KindFinished(s, true);
      }
      assert false;
    }
    KindFinished(s, false);
  }

  /** A producer is parked for good: the ring is full, and main waits for it. */
  lemma StuckProducer(s: State)
    requires Inv(s) && Stuck(s) && AnyParked(s, true)
    ensures s.ring.count == s.cfg.size < s.cfg.Leftover() && !Returned(s)
  {
    StuckThreads(s);
    StuckConsumersDone(s);
    NoCredit(s, true);
    CountIsDifference(s);
    ParkedHasTodo(s, true);
    var i :| 0 <= i < |s.threads| && IsParked(s, i, true);
    assert s.joined <= i;
  }

  /** No producer is parked: everything is done, and main has joined everyone. */
  lemma StuckFinished(s: State)
    requires Inv(s) && Stuck(s) && !AnyParked(s, true)
    ensures s.ring.count == s.cfg.Leftover() <= s.cfg.size && AllDone(s) && Returned(s)
  {
    StuckThreads(s);
    StuckConsumersDone(s);
    CountIsDifference(s);
    KindFinished(s, true);
    forall i | 0 <= i < |s.threads|
      ensures s.threads[i].pc.Done?
    {
      assert !IsParked(s, i, s.threads[i].producer);
    }
    assert Step(s, Join).None?;
  }

  /**
    Where a schedule ends depends only on whether the leftover fits the ring. If it does, main has
    joined every thread and exactly the leftover is in the ring; if not, the ring is full, every
    consumer is through, and a producer is parked for good.
  */
  lemma StuckOutcome(g: Config, ls: seq<Label>)
    requires g.Valid() && Exec(Step, Init(g), ls).Some? && Stuck(Exec(Step, Init(g), ls).value)
    ensures var s := Exec(Step, Init(g), ls).value;
      if g.Leftover() <= g.size
      then Returned(s) && AllDone(s) && s.ring.count == g.Leftover()
      else !Returned(s) && AnyParked(s, true) && !AnyParked(s, false) && s.ring.count == g.size
    ensures |Exec(Step, Init(g), ls).value.consumed| == g.consumers * g.Quota()
  {
    InitInv(g);
    RunInv(Init(g), ls);
    var s := Exec(Step, Init(g), ls).value;
    StuckConsumersDone(s);
    if AnyParked(s, true) {
      StuckProducer(s);
    } else {
      StuckFinished(s);
    }
  }

  /** With a leftover that does not fit, no reachable state has all threads finished. */
  lemma DoneNeedsRoom(s: State)
    requires Inv(s) && AllDone(s)
    ensures s.ring.count == s.cfg.Leftover() <= s.cfg.size
  {
    forall r
      ensures Sum(s.threads, Todo(r)) == 0
    {
      SumBounds(s.threads, Todo(r), 0, 0);
    }
    CountIsDifference(s);
  }

  /** From any reachable state the program can run on, with no spurious wake-up, until it is stuck. */
  lemma {:induction false} RunOn(s: State) returns (ls: seq<Label>)
    requires Inv(s)
    ensures Exec(Step, s, ls).Some? && Stuck(Exec(Step, s, ls).value) && Count(ls, IsSpurious) == 0
    decreases Measure(s)
  {
    if Stuck(s) {
      ls := [];
    } else {
      var l: Label :| !l.Spurious? && Step(s, l).Some?;
      StepInv(s, l);
      StepMeasure(s, l);
      MeasureNonneg(s);
      MeasureNonneg(Step(s, l).value);
      var rest := RunOn(Step(s, l).value);
      ls := [l] + rest;
      assert ls[1..] == rest;
    }
  }

  ghost predicate CanReturn(s: State) {
    exists ls :: Exec(Step, s, ls).Some? && Returned(Exec(Step, s, ls).value)
  }

  /**
    The exact condition under which the program works: from every reachable state main can still
    return if and only if (P*N) % C <= B. When it cannot, no schedule at all makes it return.
  */
  lemma ReturnsIffLeftoverFits(g: Config, ls: seq<Label>)
    requires g.Valid() && Exec(Step, Init(g), ls).Some?
    ensures CanReturn(Exec(Step, Init(g), ls).value) <==> g.Leftover() <= g.size
  {
    InitInv(g);
    RunInv(Init(g), ls);
    var s := Exec(Step, Init(g), ls).value;
    if g.Leftover() <= g.size {
      var rest := RunOn(s);
      ExecConcat(Step, Init(g), ls, rest);
      StuckOutcome(g, ls + rest);
    }
    if CanReturn(s) {
      var rest :| Exec(Step, s, rest).Some? && Returned(Exec(Step, s, rest).value);
      RunInv(s, rest);
      DoneNeedsRoom(Exec(Step, s, rest).value);
    }
  }

  /** The constants in the file: main always returns, and two of the twenty items stay in the ring. */
  lemma ShippedConstants(ls: seq<Label>)
    requires Exec(Step, Init(Config(2, 10, 3, 5)), ls).Some?
    requires Stuck(Exec(Step, Init(Config(2, 10, 3, 5)), ls).value)
    ensures var s := Exec(Step, Init(Config(2, 10, 3, 5)), ls).value;
      Returned(s) && |s.consumed| == 18 && s.ring.count == 2
  {
    var g := Config(2, 10, 3, 5);
    assert g.Quota() == 6 && g.Leftover() == 2;
    StuckOutcome(g, ls);
  }
}
