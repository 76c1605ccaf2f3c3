/**
  ex3_condition_variable.c: one slot, one producer (thread 0), one consumer (thread 1), and a single
  condition variable that both wait on and both signal.
*/
module OneSlot {
  import opened Runs
  import opened CondVar

  datatype Thread = Thread(pc: Pc, todo: nat)

  datatype State = State(
    n: nat,
    data: int,
    ready: bool,
    lock: Option<nat>,
    prod: Thread,
    cons: Thread,
    written: seq<int>,
    read: seq<int>)

  datatype Label = Produce(value: int) | Consume | Spurious(producer: bool)

  function Init(n: nat): State {
    var th := Thread(if n == 0 then Done else Start, n);
    State(n, 0, false, None, th, th, [], [])
  }

  /** pthread_cond_signal(&g_cond): the only thread that can be waiting is the other one. */
  function Wake(th: Thread): Thread {
    if th.pc.Parked? then th.(pc := Woken) else th
  }

  function Next(th: Thread): Thread {
    th.(pc := if th.todo == 0 then Done else Start)
  }

  /** One step of producer_function. */
  function ProducerStep(s: State, value: int): Option<State> {
    var th := s.prod;
    match th.pc
    case Start => if s.lock.None? then Some(s.(lock := Some(0), prod := th.(pc := Test))) else None
    case Woken => if s.lock.None? then Some(s.(lock := Some(0), prod := th.(pc := Test))) else None
    case Test =>
      if s.ready then Some(s.(lock := None, prod := th.(pc := Parked)))
      else if th.todo == 0 then None
      else Some(s.(data := value, ready := true, written := s.written + [value], prod := Thread(Post, th.todo - 1)))
    case Post => Some(s.(cons := Wake(s.cons), prod := th.(pc := Unlock)))
    case Unlock => Some(s.(lock := None, prod := Next(th)))
    case Parked => None
    case Done => None
  }

  /** One step of consumer_function. */
  function ConsumerStep(s: State): Option<State> {
    var th := s.cons;
    match th.pc
    case Start => if s.lock.None? then Some(s.(lock := Some(1), cons := th.(pc := Test))) else None
    case Woken => if s.lock.None? then Some(s.(lock := Some(1), cons := th.(pc := Test))) else None
    case Test =>
      if !s.ready then Some(s.(lock := None, cons := th.(pc := Parked)))
      else if th.todo == 0 then None
      else Some(s.(ready := false, read := s.read + [s.data], cons := Thread(Post, th.todo - 1)))
    case Post => Some(s.(prod := Wake(s.prod), cons := th.(pc := Unlock)))
    case Unlock => Some(s.(lock := None, cons := Next(th)))
    case Parked => None
    case Done => None
  }

  function Step(s: State, l: Label): Option<State> {
    match l
    case Produce(value) => ProducerStep(s, value)
    case Consume => ConsumerStep(s)
    case Spurious(producer) =>
      if producer then (if s.prod.pc.Parked? then Some(s.(prod := Wake(s.prod))) else None)
      else (if s.cons.pc.Parked? then Some(s.(cons := Wake(s.cons))) else None)
  }

  ghost predicate ThreadOk(th: Thread, holder: bool) {
    && (Holds(th.pc) <==> holder)
    && (th.pc in {Start, Test, Parked, Woken} ==> th.todo > 0)
    && (th.pc.Done? ==> th.todo == 0)
  }

  ghost predicate Inv(s: State) {
    && ThreadOk(s.prod, s.lock == Some(0))
    && ThreadOk(s.cons, s.lock == Some(1))
    && (s.lock.Some? ==> s.lock.value <= 1)
    && |s.written| + s.prod.todo == s.n
    && |s.read| + s.cons.todo == s.n
    && s.written == s.read + (if s.ready then [s.data] else [])
    && (s.prod.pc.Parked? ==> s.ready || s.cons.pc.Post?)
    && (s.cons.pc.Parked? ==> !s.ready || s.prod.pc.Post?)
  }

  function Measure(s: State): nat {
    StepsLeft(s.prod.todo, s.prod.pc) + StepsLeft(s.cons.todo, s.cons.pc)
  }

  predicate IsSpurious(l: Label) { l.Spurious? }

  lemma ProducerInv(s: State, value: int)
    requires Inv(s) && ProducerStep(s, value).Some?
    ensures Inv(ProducerStep(s, value).value) && Measure(ProducerStep(s, value).value) < Measure(s)
  {
  }

  lemma ConsumerInv(s: State)
    requires Inv(s) && ConsumerStep(s).Some?
    ensures Inv(ConsumerStep(s).value) && Measure(ConsumerStep(s).value) < Measure(s)
  {
  }

  lemma StepInv(s: State, l: Label)
    requires Inv(s) && Step(s, l).Some?
    ensures Inv(Step(s, l).value) && Step(s, l).value.n == s.n
    ensures Measure(Step(s, l).value) < Measure(s) + (if l.Spurious? then 3 else 0)
  {
    match l
    case Produce(value) => ProducerInv(s, value);
    case Consume => ConsumerInv(s);
    case Spurious(_) =>
  }

  lemma {:induction false} RunInv(s: State, ls: seq<Label>)
    requires Inv(s) && Exec(Step, s, ls).Some?
    ensures var s' := Exec(Step, s, ls).value;
      Inv(s') && s'.n == s.n && Measure(s') + |ls| <= Measure(s) + 3 * Count(ls, IsSpurious)
    decreases |ls|
  {
    if ls != [] {
      StepInv(s, ls[0]);
      RunInv(Step(s, ls[0]).value, ls[1..]);
    }
  }

  /** The shared condition variable is safe because the two threads never wait at the same time. */
  lemma NeverBothParked(n: nat, ls: seq<Label>)
    requires Exec(Step, Init(n), ls).Some?
    ensures var s := Exec(Step, Init(n), ls).value; !(s.prod.pc.Parked? && s.cons.pc.Parked?)
  {
    RunInv(Init(n), ls);
  }

  /**
    At every point what was read is what was written, but for the value in the slot; and a write to
    the slot happens only when everything written before has been read.
  */
  lemma NothingOverwritten(n: nat, ls: seq<Label>, l: Label)
    requires Exec(Step, Init(n), ls).Some? && Step(Exec(Step, Init(n), ls).value, l).Some?
    ensures var s := Exec(Step, Init(n), ls).value;
      && s.written == s.read + (if s.ready then [s.data] else [])
      && (Step(s, l).value.written != s.written ==> s.read == s.written)
  {
    RunInv(Init(n), ls);
  }

  /** Without spurious wake-ups no schedule is longer than 14n + 4 steps. */
  lemma RunsAreShort(n: nat, ls: seq<Label>)
    requires Exec(Step, Init(n), ls).Some?
    ensures |ls| <= 14 * n + 4 + 3 * Count(ls, IsSpurious)
  {
    RunInv(Init(n), ls);
  }

  ghost predicate Stuck(s: State) {
    forall l: Label :: !l.Spurious? ==> Step(s, l).None?
  }

  predicate CanGo(th: Thread, lock: Option<nat>) {
    !th.pc.Parked? && !th.pc.Done? && (Holds(th.pc) || lock.None?)
  }

  /** If neither thread can go on, both are through: they cannot both be parked. */
  lemma CannotGoIsComplete(s: State)
    requires Inv(s) && !CanGo(s.prod, s.lock) && !CanGo(s.cons, s.lock)
    ensures s.prod.pc.Done? && s.cons.pc.Done? && !s.ready && s.read == s.written
  {
    assert s.lock.None?;
    assert s.read + [] == s.read;
  }

  /** A schedule that cannot go on has delivered every value, in order. */
  lemma StuckIsComplete(n: nat, ls: seq<Label>)
    requires Exec(Step, Init(n), ls).Some? && Stuck(Exec(Step, Init(n), ls).value)
    ensures var s := Exec(Step, Init(n), ls).value;
      s.prod.pc.Done? && s.cons.pc.Done? && s.read == s.written && |s.read| == n
  {
    RunInv(Init(n), ls);
    var s := Exec(Step, Init(n), ls).value;
    StuckCannotGo(s);
    CannotGoIsComplete(s);
  }

  lemma StuckCannotGo(s: State)
    requires Inv(s) && Stuck(s)
    ensures !CanGo(s.prod, s.lock) && !CanGo(s.cons, s.lock)
  {
    assert Step(s, Produce(0)).None?;
    assert Step(s, Consume).None?;
  }

  /** The globals g_data and g_data_ready and the two loops, updated in place; `values` is what rand() gives. */
  class Channel {
    const values: seq<int>
    var data: int
    var ready: bool
    var lock: Option<nat>
    var prod: Thread
    var cons: Thread
    var printed: seq<int>
    ghost var written: seq<int>

    constructor (values: seq<int>)
      ensures Abs() == Init(|values|) && this.values == values
    {
      this.values := values;
      data, ready, lock, printed := 0, false, None, [];
      prod := Thread(if values == [] then Done else Start, |values|);
      cons := Thread(if values == [] then Done else Start, |values|);
      written := [];
    }

    ghost function Abs(): State
      reads this
    {
      State(|values|, data, ready, lock, prod, cons, written, printed)
    }

    /** What rand() gives the producer's current iteration. */
    function NextValue(): int
      reads this
    {
      if 0 < prod.todo <= |values| then values[|values| - prod.todo] else 0
    }

    /** Lines 20 to 28. */
    method RunProducer()
      requires Inv(Abs()) && CanGo(prod, lock)
      modifies this
      ensures Step(old(Abs()), Produce(old(NextValue()))) == Some(Abs())
    {
      var value := NextValue();
      if prod.pc.Start? || prod.pc.Woken? {
        lock, prod := Some(0), prod.(pc := Test);
      } else if prod.pc.Test? && ready {
        lock, prod := None, prod.(pc := Parked);
      } else if prod.pc.Test? {
        data, ready := value, true;
        written := written + [value];
        prod := Thread(Post, prod.todo - 1);
      } else if prod.pc.Post? {
        if cons.pc.Parked? {
          cons := cons.(pc := Woken);
        }
        prod := prod.(pc := Unlock);
      } else {
        lock, prod := None, prod.(pc := if prod.todo == 0 then Done else Start);
      }
    }

    /** Lines 35 to 42. */
    method RunConsumer()
      requires Inv(Abs()) && CanGo(cons, lock)
      modifies this
      ensures Step(old(Abs()), Consume) == Some(Abs())
    {
      if cons.pc.Start? || cons.pc.Woken? {
        lock, cons := Some(1), cons.(pc := Test);
      } else if cons.pc.Test? && !ready {
        lock, cons := None, cons.(pc := Parked);
      } else if cons.pc.Test? {
        printed := printed + [data];
        ready := false;
        cons := Thread(Post, cons.todo - 1);
      } else if cons.pc.Post? {
        if prod.pc.Parked? {
          prod := prod.(pc := Woken);
        }
        cons := cons.(pc := Unlock);
      } else {
        lock, cons := None, cons.(pc := if cons.todo == 0 then Done else Start);
      }
    }

    /** A thread returns from pthread_cond_wait without having been signalled. */
    method WakeUp(producer: bool)
      requires if producer then prod.pc.Parked? else cons.pc.Parked?
      modifies this
      ensures Step(old(Abs()), Spurious(producer)) == Some(Abs())
    {
      if producer {
        prod := prod.(pc := Woken);
      } else {
        cons := cons.(pc := Woken);
      }
    }

    method SpuriousStep(producer: bool)
      requires Inv(Abs()) && Wrote(Abs(), values) && (if producer then prod.pc.Parked? else cons.pc.Parked?)
      modifies this
      ensures Inv(Abs()) && Wrote(Abs(), values)
    {
      ghost var s := Abs();
      WakeUp(producer);
      StepInv(s, Spurious(producer));
      WroteKept(s, Spurious(producer), values);
    }

    /** The scheduler runs the thread it prefers, if that one can go on. */
    method TakeStep(preferProducer: bool)
      requires Inv(Abs()) && Wrote(Abs(), values) && (CanGo(prod, lock) || CanGo(cons, lock))
      modifies this
      ensures Inv(Abs()) && Wrote(Abs(), values) && Measure(Abs()) < old(Measure(Abs()))
    {
      ghost var s := Abs();
      if CanGo(prod, lock) && (preferProducer || !CanGo(cons, lock)) {
        ghost var l := Produce(NextValue());
        RunProducer();
        StepInv(s, l);
        WroteKept(s, l, values);
      } else {
        RunConsumer();
        StepInv(s, Consume);
        WroteKept(s, Consume, values);
      }
    }
  }

  /** What has been written so far is the beginning of what rand() gives. */
  ghost predicate Wrote(s: State, values: seq<int>) {
    s.n == |values| && s.prod.todo <= s.n && s.written == values[..s.n - s.prod.todo]
  }

  lemma WroteKept(s: State, l: Label, values: seq<int>)
    requires Inv(s) && Wrote(s, values) && Step(s, l).Some?
    requires l.Produce? && s.prod.todo > 0 ==> l.value == values[s.n - s.prod.todo]
    ensures Wrote(Step(s, l).value, values)
  {
  }

  /** When neither thread can go on, everything that rand() gave has been read. */
  lemma EverythingRead(s: State, values: seq<int>)
    requires Inv(s) && Wrote(s, values) && !CanGo(s.prod, s.lock) && !CanGo(s.cons, s.lock)
    ensures s.read == values
  {
    CannotGoIsComplete(s);
    assert values[..|values|] == values;
  }

  /**
    Both threads under a scheduler that picks freely, with up to `wakeups` spurious wake-ups at any
    point: what is printed is what was sent, in order.
  */
  method RunChannel(values: seq<int>, wakeups: nat) returns (printed: seq<int>)
    ensures printed == values
  {
    var c := new Channel(values);
    var left := wakeups;
    while CanGo(c.prod, c.lock) || CanGo(c.cons, c.lock)
      invariant fresh(c) && c.values == values && Inv(c.Abs()) && Wrote(c.Abs(), values)
      decreases left, Measure(c.Abs())
    {
      var wake: bool, producer: bool := *, *;
      if wake && left > 0 && (if producer then c.prod.pc.Parked? else c.cons.pc.Parked?) {
        c.SpuriousStep(producer);
        left := left - 1;
      } else {
        c.TakeStep(producer);
      }
    }
    EverythingRead(c.Abs(), values);
    printed := c.printed;
  }
}
