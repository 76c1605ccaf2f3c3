/**
  The same program with its two commented-out lock lines restored: each increment is
  lock; temp = counter; temp = temp + 1; counter = temp; unlock.
*/
module LockedCounter {
  import opened Runs
  import opened Sums

  datatype Pc = Idle | Locked | Loaded(temp: int) | Added(temp: int) | Stored
  datatype Thread = Thread(pc: Pc, done: nat)
  datatype State = State(n: nat, counter: int, lock: Option<nat>, threads: seq<Thread>)

  function Start(t: nat, n: nat): State {
    State(n, 0, None, seq(t, _ => Thread(Idle, 0)))
  }

  function Step(s: State, t: nat): Option<State> {
    if t >= |s.threads| then None
    else
      var th := s.threads[t];
      match th.pc
      case Idle =>
        if th.done < s.n && s.lock.None?
        then Some(s.(lock := Some(t), threads := s.threads[t := th.(pc := Locked)]))
        else None
      case Locked =>
        Some(s.(threads := s.threads[t := th.(pc := Loaded(s.counter))]))
      case Loaded(x) =>
        Some(s.(threads := s.threads[t := th.(pc := Added(x + 1))]))
      case Added(x) =>
        Some(s.(counter := x, threads := s.threads[t := th.(pc := Stored)]))
      case Stored =>
        Some(s.(lock := None, threads := s.threads[t := Thread(Idle, th.done + 1)]))
  }

  predicate Complete(s: State) {
    forall t :: 0 <= t < |s.threads| ==> s.threads[t] == Thread(Idle, s.n)
  }

  function Done(th: Thread): int { th.done }

  function Total(s: State): int { Sum(s.threads, Done) }

  /** Only the lock holder is inside, and what it holds in temp is not stale. */
  ghost predicate Inv(s: State) {
    && (forall i :: 0 <= i < |s.threads| ==>
          var th := s.threads[i];
          && (th.pc.Idle? <==> s.lock != Some(i))
          && th.done <= s.n
          && (th.pc.Idle? || th.done < s.n)
          && (th.pc.Loaded? ==> th.pc.temp == s.counter)
          && (th.pc.Added? ==> th.pc.temp == s.counter + 1))
    && (s.lock.Some? ==> s.lock.value < |s.threads|)
    && s.counter == Total(s) + (if s.lock.Some? && s.threads[s.lock.value].pc.Stored? then 1 else 0)
  }

  function Remaining(n: nat, th: Thread): int {
    5 * (n - th.done)
      - (match th.pc case Idle => 0 case Locked => 1 case Loaded(_) => 2 case Added(_) => 3 case Stored => 4)
  }

  function Rank(n: nat): Thread -> int {
    th => Remaining(n, th)
  }

  lemma StepInv(s: State, t: nat)
    requires Inv(s) && Step(s, t).Some?
    ensures Inv(Step(s, t).value)
    ensures Sum(Step(s, t).value.threads, Rank(s.n)) == Sum(s.threads, Rank(s.n)) - 1
  {
    var s' := Step(s, t).value;
    SumUpdate(s.threads, t, s'.threads[t], Done);
    SumUpdate(s.threads, t, s'.threads[t], Rank(s.n));
  }

  lemma {:induction false} RunInv(s: State, ls: seq<nat>)
    requires Inv(s) && Exec(Step, s, ls).Some?
    ensures var s' := Exec(Step, s, ls).value;
      && Inv(s') && s'.n == s.n && |s'.threads| == |s.threads|
      && Sum(s'.threads, Rank(s.n)) == Sum(s.threads, Rank(s.n)) - |ls|
    decreases |ls|
  {
    if ls != [] {
      StepInv(s, ls[0]);
      RunInv(Step(s, ls[0]).value, ls[1..]);
    }
  }

  lemma StartInv(t: nat, n: nat)
    ensures Inv(Start(t, n))
    ensures Sum(Start(t, n).threads, Rank(n)) == 5 * t * n
  {
    SumBounds(Start(t, n).threads, Done, 0, 0);
    SumBounds(Start(t, n).threads, Rank(n), 5 * n, 5 * n);
    assert 5 * n * t == 5 * t * n;
  }

  /** With the lock no complete run loses an increment. */
  lemma CompleteRunIsExact(t: nat, n: nat, ls: seq<nat>)
    requires Exec(Step, Start(t, n), ls).Some? && Complete(Exec(Step, Start(t, n), ls).value)
    ensures Exec(Step, Start(t, n), ls).value.counter == t * n
  {
    StartInv(t, n);
    RunInv(Start(t, n), ls);
    var s := Exec(Step, Start(t, n), ls).value;
    SumBounds(s.threads, Done, n, n);
  }

  /** The lock costs no progress: a run that cannot go on is complete, after exactly 5*T*N steps. */
  lemma StuckIsComplete(t: nat, n: nat, ls: seq<nat>)
    requires Exec(Step, Start(t, n), ls).Some?
    requires forall i: nat :: Step(Exec(Step, Start(t, n), ls).value, i).None?
    ensures Complete(Exec(Step, Start(t, n), ls).value) && |ls| == 5 * t * n
  {
    StartInv(t, n);
    RunInv(Start(t, n), ls);
    var s := Exec(Step, Start(t, n), ls).value;
    NobodyCanStep(s);
    SumBounds(s.threads, Rank(n), 0, 0);
  }

  lemma NobodyCanStep(s: State)
    requires Inv(s) && forall i: nat :: Step(s, i).None?
    ensures Complete(s)
  {
    assert s.lock.Some? ==> Step(s, s.lock.value).Some?;
    forall i | 0 <= i < |s.threads|
      ensures s.threads[i] == Thread(Idle, s.n)
    {
      assert Step(s, i).None?;
    }
  }
}
