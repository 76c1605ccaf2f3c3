/**
  The unsynchronised counter: T threads each run N times g_counter++, which is the three steps
  temp = counter; temp = temp + 1; counter = temp, interleaved in any way.
*/
module RaceCounter {
  import opened Runs
  import opened Sums

  datatype Pc = Idle | Loaded(temp: int) | Added(temp: int)
  datatype Thread = Thread(pc: Pc, done: nat)
  datatype State = State(n: nat, counter: int, threads: seq<Thread>)

  function Start(t: nat, n: nat): State {
    State(n, 0, seq(t, _ => Thread(Idle, 0)))
  }

  /** One atomic step of thread t; None when t does not exist or has finished its loop. */
  function Step(s: State, t: nat): Option<State> {
    if t >= |s.threads| then None
    else
      var th := s.threads[t];
      match th.pc
      case Idle =>
        if th.done < s.n then Some(s.(threads := s.threads[t := th.(pc := Loaded(s.counter))])) else None
      case Loaded(x) =>
        Some(s.(threads := s.threads[t := th.(pc := Added(x + 1))]))
      case Added(x) =>
        Some(s.(counter := x, threads := s.threads[t := Thread(Idle, th.done + 1)]))
  }

  predicate Complete(s: State) {
    forall t :: 0 <= t < |s.threads| ==> s.threads[t] == Thread(Idle, s.n)
  }

  function Done(th: Thread): int { th.done }

  function Total(s: State): int { Sum(s.threads, Done) }

  /** The smallest value a complete run can leave in the counter. */
  function Lowest(t: nat, n: nat): nat {
    if t == 0 || n == 0 then 0
    else if t == 1 then n
    else if n == 1 then 1
    else 2
  }

  // ----- what every run keeps

  ghost predicate ThreadOk(s: State, th: Thread) {
    && th.done <= s.n
    && match th.pc
       case Idle => true
       case Loaded(x) => th.done < s.n && 0 <= x <= Total(s) && (th.done > 0 ==> x > 0)
       case Added(x) => th.done < s.n && 1 <= x <= Total(s) + 1 && (th.done > 0 ==> x > 1)
  }

  /** With a single thread nothing is ever lost. */
  ghost predicate SoleOk(s: State) {
    |s.threads| == 1 ==>
      var th := s.threads[0];
      && s.counter == th.done
      && (th.pc.Loaded? ==> th.pc.temp == th.done)
      && (th.pc.Added? ==> th.pc.temp == th.done + 1)
  }

  ghost predicate Inv(s: State) {
    && 0 <= s.counter <= Total(s)
    && (Total(s) > 0 ==> s.counter > 0)
    && (forall t :: 0 <= t < |s.threads| ==> ThreadOk(s, s.threads[t]))
    && (Complete(s) && |s.threads| > 0 && s.n >= 2 ==> s.counter >= 2)
    && SoleOk(s)
  }

  lemma StartInv(t: nat, n: nat)
    ensures Inv(Start(t, n))
  {
    SumBounds(Start(t, n).threads, Done, 0, 0);
    if t > 0 {
      assert Start(t, n).threads[0].done == 0;
    }
  }

  lemma StepInv(s: State, t: nat)
    requires Inv(s) && Step(s, t).Some?
    ensures Inv(Step(s, t).value)
    ensures Step(s, t).value.n == s.n && |Step(s, t).value.threads| == |s.threads|
  {
    var s' := Step(s, t).value;
    SumUpdate(s.threads, t, s'.threads[t], Done);
    SumAtLeast(s.threads, Done, t);
    assert ThreadOk(s, s.threads[t]);
    forall i | 0 <= i < |s'.threads|
      ensures ThreadOk(s', s'.threads[i])
    {
      assert ThreadOk(s, s.threads[i]);
    }
    if Complete(s') {
      assert s'.threads[t] == Thread(Idle, s.n);
    }
  }

  lemma {:induction false} RunInv(s: State, ls: seq<nat>)
    requires Inv(s) && Exec(Step, s, ls).Some?
    ensures var s' := Exec(Step, s, ls).value;
      Inv(s') && s'.n == s.n && |s'.threads| == |s.threads|
    decreases |ls|
  {
    if ls != [] {
      StepInv(s, ls[0]);
      RunInv(Step(s, ls[0]).value, ls[1..]);
    }
  }

  lemma CompleteTotal(s: State)
    requires Complete(s)
    ensures Total(s) == |s.threads| * s.n
  {
    SumBounds(s.threads, Done, s.n, s.n);
  }

  /** No interleaving ends outside Lowest .. T*N. */
  lemma CompleteRunBounds(t: nat, n: nat, ls: seq<nat>)
    requires Exec(Step, Start(t, n), ls).Some? && Complete(Exec(Step, Start(t, n), ls).value)
    ensures Lowest(t, n) <= Exec(Step, Start(t, n), ls).value.counter <= t * n
  {
    StartInv(t, n);
    RunInv(Start(t, n), ls);
    var s := Exec(Step, Start(t, n), ls).value;
    CompleteTotal(s);
    if t > 0 {
      assert s.threads[0] == Thread(Idle, n);
      AtLeastOnce(t, n);
    }
  }

  lemma AtLeastOnce(t: nat, n: nat)
    requires t > 0
    ensures n <= t * n
    ensures n > 0 && t > 1 ==> t * n > 1
  {
    assert t * n == n + (t - 1) * n;
  }

  // ----- schedules that reach every value in between

  ghost predicate AllIdle(s: State, except: nat) {
    forall i :: 0 <= i < |s.threads| && i != except ==> s.threads[i].pc.Idle? && s.threads[i].done <= s.n
  }

  /** Thread t runs k increments undisturbed. */
  function Bumped(s: State, t: nat, k: nat): State
    requires t < |s.threads|
  {
    s.(counter := s.counter + k, threads := s.threads[t := Thread(Idle, s.threads[t].done + k)])
  }

  lemma {:induction false} RunAlone(s: State, t: nat, k: nat)
    requires t < |s.threads| && s.threads[t].pc.Idle? && s.threads[t].done + k <= s.n
    ensures Reaches(Step, s, Bumped(s, t, k))
    ensures Total(Bumped(s, t, k)) == Total(s) + k
    decreases k
  {
    SumUpdate(s.threads, t, Bumped(s, t, k).threads[t], Done);
    if k == 0 {
      assert Bumped(s, t, 0) == s;
      ReachesSelf(Step, s);
    } else {
      var s1 := Step(s, t).value;
      var s2 := Step(s1, t).value;
      var s3 := Step(s2, t).value;
      ReachesStep(Step, s, t, s1);
      ReachesStep(Step, s1, t, s2);
      ReachesStep(Step, s2, t, s3);
      ReachesTrans(Step, s, s1, s2);
      ReachesTrans(Step, s, s2, s3);
      assert s3 == Bumped(s, t, 1);
      RunAlone(s3, t, k - 1);
      assert Bumped(s3, t, k - 1) == Bumped(s, t, k);
      ReachesTrans(Step, s, s3, Bumped(s, t, k));
    }
  }

  /** What the idle threads other than `except` still have to do, from thread `i` on. */
  function Left(s: State, except: nat, i: nat): int
    requires i <= |s.threads|
    decreases |s.threads| - i
  {
    if i == |s.threads| then 0
    else (if i == except then 0 else s.n - s.threads[i].done) + Left(s, except, i + 1)
  }

  /** The threads other than `except`, taken from `i` on, can add any k up to what they have left. */
  lemma {:induction false} RunOthers(s: State, except: nat, i: nat, k: nat) returns (s': State)
    requires i <= |s.threads| && AllIdle(s, except) && k <= Left(s, except, i)
    ensures Reaches(Step, s, s')
    ensures s'.n == s.n && |s'.threads| == |s.threads| && AllIdle(s', except)
    ensures except < |s.threads| ==> s'.threads[except] == s.threads[except]
    ensures s'.counter == s.counter + k && Total(s') == Total(s) + k
    ensures k == Left(s, except, i) ==>
      forall j :: i <= j < |s.threads| && j != except ==> s'.threads[j] == Thread(Idle, s.n)
    ensures forall j :: 0 <= j < i ==> s'.threads[j] == s.threads[j]
    decreases |s.threads| - i
  {
    if i == |s.threads| {
      s' := s;
      ReachesSelf(Step, s);
    } else if i == except {
      s' := RunOthers(s, except, i + 1, k);
    } else {
      var room := s.n - s.threads[i].done;
      LeftRest(s, except, i + 1);
      var here := if k <= room then k else room;
      RunAlone(s, i, here);
      var m := Bumped(s, i, here);
      LeftSame(s, m, except, i + 1);
      s' := RunOthers(m, except, i + 1, k - here);
      ReachesTrans(Step, s, m, s');
    }
  }

  lemma {:induction false} LeftRest(s: State, except: nat, i: nat)
    requires i <= |s.threads| && AllIdle(s, except)
    ensures Left(s, except, i) >= 0
    decreases |s.threads| - i
  {
    if i < |s.threads| {
      LeftRest(s, except, i + 1);
    }
  }

  lemma {:induction false} LeftSame(s: State, s': State, except: nat, i: nat)
    requires i <= |s.threads| == |s'.threads| && s.n == s'.n
    requires forall j :: i <= j < |s.threads| ==> s'.threads[j] == s.threads[j]
    ensures Left(s', except, i) == Left(s, except, i)
    decreases |s.threads| - i
  {
    if i < |s.threads| {
      LeftSame(s, s', except, i + 1);
    }
  }

  lemma {:induction false} LeftIsRemaining(s: State, except: nat, i: nat)
    requires i <= |s.threads|
    ensures Left(s, except, i) == (|s.threads| - i) * s.n - Sum(s.threads[i..], Done)
                                - (if i <= except < |s.threads| then s.n - s.threads[except].done else 0)
    decreases |s.threads| - i
  {
    if i < |s.threads| {
      LeftIsRemaining(s, except, i + 1);
      assert s.threads[i..][1..] == s.threads[i + 1..];
    }
  }

  /** When every thread is between increments, the run can end with nothing more lost. */
  lemma FinishAll(s: State) returns (s': State)
    requires AllIdle(s, |s.threads|)
    ensures Reaches(Step, s, s') && Complete(s')
    ensures s'.counter == s.counter + |s.threads| * s.n - Total(s)
  {
    LeftIsRemaining(s, |s.threads|, 0);
    LeftRest(s, |s.threads|, 0);
    assert s.threads[0..] == s.threads;
    s' := RunOthers(s, |s.threads|, 0, Left(s, |s.threads|, 0));
  }

  /** A stale load by thread 0 that is stored after k other increments loses exactly k of them. */
  lemma LoseSome(t: nat, n: nat, k: nat) returns (s': State)
    requires t > 0 && n > 0 && k <= (t - 1) * n
    ensures Reaches(Step, Start(t, n), s') && Complete(s') && s'.counter == t * n - k
  {
    var s := Start(t, n);
    SumBounds(s.threads, Done, 0, 0);
    var s1 := Step(s, 0).value;
    ReachesStep(Step, s, 0, s1);
    SumUpdate(s.threads, 0, s1.threads[0], Done);
    assert s1.threads[0] == Thread(Loaded(0), 0);
    LeftIsRemaining(s1, 0, 0);
    assert s1.threads[0..] == s1.threads;
    assert (t - 1) * n == t * n - n;
    var s2 := RunOthers(s1, 0, 0, k);
    var s3 := Step(s2, 0).value;
    var s4 := Step(s3, 0).value;
    ReachesStep(Step, s2, 0, s3);
    ReachesStep(Step, s3, 0, s4);
    SumUpdate(s2.threads, 0, s3.threads[0], Done);
    SumUpdate(s3.threads, 0, s4.threads[0], Done);
    s' := FinishAll(s4);
    ReachesTrans(Step, s, s1, s2);
    ReachesTrans(Step, s, s2, s3);
    ReachesTrans(Step, s, s3, s4);
    ReachesTrans(Step, s, s4, s');
  }

  /**
    First half: thread 0 has loaded 0, thread 1 has all but one of its increments behind it and the
    others have finished; then thread 0 stores 1 over everything they did.
  */
  lemma OverwriteWithOne(t: nat, n: nat) returns (s': State)
    requires t >= 2 && n >= 2
    ensures Reaches(Step, Start(t, n), s')
    ensures s'.n == n && |s'.threads| == t && s'.counter == 1
    ensures s'.threads[0] == Thread(Idle, 1) && s'.threads[1] == Thread(Idle, n - 1)
    ensures forall i :: 2 <= i < t ==> s'.threads[i] == Thread(Idle, n)
  {
    var s := Start(t, n);
    var s1 := Step(s, 0).value;
    ReachesStep(Step, s, 0, s1);
    RunAlone(s1, 1, n - 1);
    var s2 := Bumped(s1, 1, n - 1);
    LeftRest(s2, 0, 2);
    var s3 := RunOthers(s2, 0, 2, Left(s2, 0, 2));
    var s4 := Step(s3, 0).value;
    ReachesStep(Step, s3, 0, s4);
    s' := Step(s4, 0).value;
    ReachesStep(Step, s4, 0, s');
    ReachesTrans(Step, s, s1, s2);
    ReachesTrans(Step, s, s2, s3);
    ReachesTrans(Step, s, s3, s4);
    ReachesTrans(Step, s, s4, s');
  }

  /** Second half: thread 1 loads j + 1, thread 0 finishes, and thread 1 stores j + 2 last. */
  lemma StoreStaleLast(s: State, j: nat) returns (s': State)
    requires s.n >= 2 && |s.threads| >= 2 && j < s.n && s.counter == 1
    requires s.threads[0] == Thread(Idle, 1) && s.threads[1] == Thread(Idle, s.n - 1)
    requires forall i :: 2 <= i < |s.threads| ==> s.threads[i] == Thread(Idle, s.n)
    ensures Reaches(Step, s, s') && Complete(s') && s'.counter == j + 2
  {
    RunAlone(s, 0, j);
    var s1 := Bumped(s, 0, j);
    var s2 := Step(s1, 1).value;
    ReachesStep(Step, s1, 1, s2);
    RunAlone(s2, 0, s.n - 1 - j);
    var s3 := Bumped(s2, 0, s.n - 1 - j);
    var s4 := Step(s3, 1).value;
    ReachesStep(Step, s3, 1, s4);
    s' := Step(s4, 1).value;
    ReachesStep(Step, s4, 1, s');
    ReachesTrans(Step, s, s1, s2);
    ReachesTrans(Step, s, s2, s3);
    ReachesTrans(Step, s, s3, s4);
    ReachesTrans(Step, s, s4, s');
  }

  ghost predicate Outcome(t: nat, n: nat, v: int) {
    exists s: State :: Reaches(Step, Start(t, n), s) && Complete(s) && s.counter == v
  }

  /** The exact set of final values, for every number of threads and of iterations. */
  lemma FinalValues(t: nat, n: nat, v: int)
    ensures Outcome(t, n, v) <==> Lowest(t, n) <= v <= t * n
  {
    if Outcome(t, n, v) {
      var s: State :| Reaches(Step, Start(t, n), s) && Complete(s) && s.counter == v;
      var ls: seq<nat> :| Exec(Step, Start(t, n), ls) == Some(s);
      CompleteRunBounds(t, n, ls);
    }
    if Lowest(t, n) <= v <= t * n {
      if t == 0 || n == 0 {
        assert t * n == 0;
        assert Complete(Start(t, n));
        ReachesSelf(Step, Start(t, n));
      } else if v < n {
        var m := OverwriteWithOne(t, n);
        var s := StoreStaleLast(m, v - 2);
        ReachesTrans(Step, Start(t, n), m, s);
      } else {
        assert t * n - n == (t - 1) * n;
        var s := LoseSome(t, n, t * n - v);
      }
    }
  }

  // ----- every run ends, and the code run under an arbitrary scheduler

  function Remaining(n: nat, th: Thread): int {
    3 * (n - th.done) - (match th.pc case Idle => 0 case Loaded(_) => 1 case Added(_) => 2)
  }

  function Rank(n: nat): Thread -> int {
    th => Remaining(n, th)
  }

  lemma StepRank(s: State, t: nat)
    requires Step(s, t).Some?
    ensures Sum(Step(s, t).value.threads, Rank(s.n)) == Sum(s.threads, Rank(s.n)) - 1
  {
    SumUpdate(s.threads, t, Step(s, t).value.threads[t], Rank(s.n));
  }

  /** Each step is one of the 3*T*N steps of the program, so no run is longer. */
  lemma {:induction false} RunLength(s: State, ls: seq<nat>)
    requires Inv(s) && Exec(Step, s, ls).Some?
    ensures Sum(Exec(Step, s, ls).value.threads, Rank(s.n)) == Sum(s.threads, Rank(s.n)) - |ls|
    decreases |ls|
  {
    if ls != [] {
      StepInv(s, ls[0]);
      StepRank(s, ls[0]);
      RunLength(Step(s, ls[0]).value, ls[1..]);
    }
  }

  /** A run that cannot go on is complete, and has made exactly 3*T*N steps. */
  lemma StuckIsComplete(t: nat, n: nat, ls: seq<nat>)
    requires Exec(Step, Start(t, n), ls).Some?
    requires forall i: nat :: Step(Exec(Step, Start(t, n), ls).value, i).None?
    ensures Complete(Exec(Step, Start(t, n), ls).value) && |ls| == 3 * t * n
  {
    var s := Exec(Step, Start(t, n), ls).value;
    StartInv(t, n);
    RunInv(Start(t, n), ls);
    RunLength(Start(t, n), ls);
    forall i | 0 <= i < |s.threads|
      ensures s.threads[i] == Thread(Idle, n)
    {
      assert Step(s, i).None? && ThreadOk(s, s.threads[i]);
    }
    SumBounds(s.threads, Rank(n), 0, 0);
    StartRank(t, n);
  }

  lemma StartRank(t: nat, n: nat)
    ensures Sum(Start(t, n).threads, Rank(n)) == 3 * t * n
  {
    SumBounds(Start(t, n).threads, Rank(n), 3 * n, 3 * n);
    assert 3 * n * t == 3 * t * n;
  }

  class SharedCounter {
    var counter: int
    const n: nat
    const threads: array<Thread>

    constructor (t: nat, n: nat)
      ensures fresh(threads) && Abs() == Start(t, n)
    {
      this.counter := 0;
      this.n := n;
      this.threads := new Thread[t](_ => Thread(Idle, 0));
      new;
      assert threads[..] == Start(t, n).threads;
    }

    function Abs(): State
      reads this, threads
    {
      State(n, counter, threads[..])
    }

    /** The body of increment_counter, one atomic step at a time. */
    method Advance(t: nat) returns (ok: bool)
      modifies this, threads
      ensures ok == Step(old(Abs()), t).Some?
      ensures Abs() == if ok then Step(old(Abs()), t).value else old(Abs())
    {
      if t >= threads.Length {
        return false;
      }
      var th := threads[t];
      ok := true;
      match th.pc
      case Idle =>
        if th.done < n {
          threads[t] := th.(pc := Loaded(counter));
        } else {
          ok := false;
        }
      case Loaded(x) =>
        threads[t] := th.(pc := Added(x + 1));
      case Added(x) =>
        counter := x;
        threads[t] := Thread(Idle, th.done + 1);
    }
  }

  /** The whole program under a scheduler that picks any unfinished thread at each step. */
  method RunRacy(t: nat, n: nat) returns (final: int)
    ensures Lowest(t, n) <= final <= t * n
  {
    var c := new SharedCounter(t, n);
    ghost var ls: seq<nat> := [];
    StartInv(t, n);
    while exists i: nat :: i < c.threads.Length && !(c.threads[i].pc.Idle? && c.threads[i].done == n)
      invariant fresh(c) && fresh(c.threads) && c.n == n
      invariant Exec(Step, Start(t, n), ls) == Some(c.Abs()) && Inv(c.Abs())
      invariant c.threads.Length == t
      decreases Sum(c.threads[..], Rank(n))
    {
      var i: nat :| i < c.threads.Length && !(c.threads[i].pc.Idle? && c.threads[i].done == n);
      ghost var s := c.Abs();
      assert ThreadOk(s, s.threads[i]);
      var ok := c.Advance(i);
      StepInv(s, i);
      ExecSnoc(Step, Start(t, n), ls, s, i, c.Abs());
      ls := ls + [i];
      StepRank(s, i);
      RanksNonneg(c.Abs());
      RanksNonneg(s);
    }
    final := c.counter;
    forall i | 0 <= i < t
      ensures c.Abs().threads[i] == Thread(Idle, n)
    {
      assert c.Abs().threads[i] == c.threads[i];
    }
    CompleteRunBounds(t, n, ls);
  }

  lemma RanksNonneg(s: State)
    requires Inv(s)
    ensures Sum(s.threads, Rank(s.n)) >= 0
  {
    forall i | 0 <= i < |s.threads|
      ensures 0 <= Rank(s.n)(s.threads[i]) <= 3 * s.n
    {
      assert ThreadOk(s, s.threads[i]);
    }
    SumBounds(s.threads, Rank(s.n), 0, 3 * s.n);
  }
}
