/**
  nConsumer.c as code that updates its globals in place, run under an arbitrary scheduler.
*/
module BoundedBufferProgram {
  import opened Runs
  import opened Ring
  import opened CondVar
  import opened BoundedBuffer
  import opened BoundedBufferRuns
  import opened BoundedBufferValues

  class Program {
    const cfg: Config
    const ring: RingBuffer<Item>
    const threads: array<Thread>
    var lock: Option<nat>
    var joined: nat
    // the values in the lines that producers and consumers print
    var made: seq<int>
    var printed: seq<int>
    ghost var produced: seq<Item>
    ghost var consumed: seq<Item>

    ghost predicate Valid()
      reads this, ring, ring.buffer, threads
    {
      && (ring.buffer as object) != (threads as object)
      && Inv(Abs())
    }

    ghost function Abs(): State
      reads this, ring, ring.buffer, threads
    {
      State(cfg, ring.Abs(), lock, threads[..], joined, produced, consumed)
    }

    constructor (g: Config)
      requires g.Valid()
      ensures Valid() && Abs() == Init(g) && cfg == g && made == [] && printed == []
      ensures fresh(ring) && fresh(ring.buffer) && fresh(threads)
    {
      cfg := g;
      ring := new RingBuffer(g.size, Blank);
      threads := new Thread[g.producers + g.consumers](
        i => if i < g.producers then Fresh(true, g.items) else Fresh(false, g.Quota()));
      lock, joined, produced, consumed := None, 0, [], [];
      made, printed := [], [];
      new;
      assert threads[..] == Init(g).threads;
      InitInv(g);
    }

    /** One step of thread t, in the order of lines 25 to 39 and 49 to 62. */
    method Advance(t: nat, wake: nat, value: int)
      requires Valid() && Step(Abs(), Run(t, wake, value)).Some?
      modifies this, ring, ring.buffer, threads
      ensures Valid() && Abs() == Step(old(Abs()), Run(t, wake, value)).value
      ensures Prints(old(Abs()), Run(t, wake, value), old(made), old(printed), made, printed)
    {
      StepInv(Abs(), Run(t, wake, value));
      var th := threads[t];
      match th.pc
      case Start =>
        lock := Some(t);
        threads[t] := th.(pc := Test);
      case Woken =>
        lock := Some(t);
        threads[t] := th.(pc := Test);
      case Test =>
        if (if th.producer then ring.count == cfg.size else ring.count == 0) {
          lock := None;
          threads[t] := th.(pc := Parked);
        } else {
          MoveItem(t, wake, value);
        }
      case Post =>
        SendSignal(t, wake);
      case Unlock =>
        lock := None;
        threads[t] := th.(pc := if th.todo == 0 then Done else Start);
    }

    /** pthread_cond_signal, on line 38 or 61. */
    method SendSignal(t: nat, wake: nat)
      requires Valid() && t < threads.Length && threads[t].pc.Post? && Signal(Abs(), t, wake).Some?
      modifies threads
      ensures Some(Abs()) == Signal(old(Abs()), t, wake)
    {
      var th := threads[t];
      if exists i :: 0 <= i < threads.Length && threads[i].producer != th.producer && threads[i].pc.Parked? {
        assert AnyParked(Abs(), !th.producer) by {
          var i :| 0 <= i < threads.Length && threads[i].producer != th.producer && threads[i].pc.Parked?;
          assert IsParked(Abs(), i, !th.producer);
        }
        threads[wake] := threads[wake].(pc := Woken);
      }
      threads[t] := th.(pc := Unlock);
    }

    method MoveItem(t: nat, ghost wake: nat, value: int)
      requires Valid() && t < threads.Length && threads[t].pc.Test? && !MustWait(Abs(), threads[t].producer)
      modifies this, ring, ring.buffer, threads
      ensures lock == old(lock) && joined == old(joined)
      ensures Abs() == Move(old(Abs()), t, value)
      ensures Prints(old(Abs()), Run(t, wake, value), old(made), old(printed), made, printed)
    {
      var th := threads[t];
      if th.producer {
        var item := Item(t, cfg.items - th.todo, value);
        ring.Put(item);
        produced := produced + [item];
        made := made + [value];
      } else {
        var item := ring.Get();
        consumed := consumed + [item];
        printed := printed + [item.value];
      }
      threads[t] := th.(pc := Post, todo := th.todo - 1);
      assert threads[..] == old(threads[..])[t := th.(pc := Post, todo := th.todo - 1)];
    }

    /** A thread returns from pthread_cond_wait without having been signalled. */
    method WakeUp(t: nat)
      requires Valid() && t < threads.Length && threads[t].pc.Parked?
      modifies threads
      ensures Valid() && Step(old(Abs()), Spurious(t)) == Some(Abs())
    {
      StepInv(Abs(), Spurious(t));
      threads[t] := threads[t].(pc := Woken);
      assert threads[..] == old(threads[..])[t := threads[t]];
    }

    /** What the scheduler does once it has picked k: run that thread, or let main join. */
    method TakeStep(k: nat) returns (ghost l: Label)
      requires Valid() && CanGo(threads[..], lock, joined, k)
      modifies this, ring, ring.buffer, threads
      ensures Valid() && !l.Spurious? && Step(old(Abs()), l) == Some(Abs())
      ensures Prints(old(Abs()), l, old(made), old(printed), made, printed)
    {
      if k < threads.Length {
        var wake := PickWake(threads, k);
        var value: int := *;
        l := Run(k, wake, value);
        ghost var s := Abs();
        if AnyParked(s, !s.threads[k].producer) {
          var i :| 0 <= i < |s.threads| && IsParked(s, i, !s.threads[k].producer);
          assert threads[i].producer != threads[k].producer && threads[i].pc.Parked?;
        }
        CanGoIsEnabled(s, k, wake, value);
        Advance(k, wake, value);
      } else {
        l := Join;
        StepInv(Abs(), Join);
        joined := joined + 1;
      }
    }
  }

  /** What a step prints: a put the value that was drawn, a take the value in the slot that is read. */
  ghost predicate Prints(s: State, l: Label, made: seq<int>, printed: seq<int>, made': seq<int>, printed': seq<int>) {
    && made' == made + (if Puts(s, l) then [l.value] else [])
    && printed' == printed + (if Takes(s, l) then [s.ring.buffer[s.ring.outIdx].value] else [])
  }

  /** The threads the scheduler may pick; index threads.Length stands for main's next join. */
  predicate CanGo(threads: seq<Thread>, lock: Option<nat>, joined: nat, k: nat) {
    if k < |threads| then
      match threads[k].pc
      case Parked => false
      case Done => false
      case Start => lock.None?
      case Woken => lock.None?
      case _ => true
    else k == |threads| && joined < |threads| && threads[joined].pc.Done?
  }

  lemma CannotGoIsStuck(s: State)
    requires Inv(s) && forall k: nat :: k <= |s.threads| ==> !CanGo(s.threads, s.lock, s.joined, k)
    ensures Stuck(s)
  {
    forall l: Label | !l.Spurious?
      ensures Step(s, l).None?
    {
      if l.Run? && l.t < |s.threads| {
        assert !CanGo(s.threads, s.lock, s.joined, l.t);
      } else if l.Join? {
        assert !CanGo(s.threads, s.lock, s.joined, |s.threads|);
      }
    }
  }

  /** A label for the thread that was picked; a signal may wake any parked thread of the other kind. */
  method PickWake(threads: array<Thread>, t: nat) returns (wake: nat)
    requires t < threads.Length
    ensures (exists i :: 0 <= i < threads.Length && threads[i].producer != threads[t].producer && threads[i].pc.Parked?)
        ==> wake < threads.Length && threads[wake].producer != threads[t].producer && threads[wake].pc.Parked?
  {
    wake := 0;
    if exists i :: 0 <= i < threads.Length && threads[i].producer != threads[t].producer && threads[i].pc.Parked? {
      wake :| 0 <= wake < threads.Length && threads[wake].producer != threads[t].producer && threads[wake].pc.Parked?;
    }
  }

  lemma CanGoIsEnabled(s: State, k: nat, wake: nat, value: int)
    requires Inv(s) && k < |s.threads| && CanGo(s.threads, s.lock, s.joined, k)
    requires AnyParked(s, !s.threads[k].producer) ==> IsParked(s, wake, !s.threads[k].producer)
    ensures Step(s, Run(k, wake, value)).Some?
  {
  }

  /**
    The whole program, main included, under a scheduler that picks freely at every step, with up to
    `wakeups` spurious wake-ups on the way. It always stops; main has returned exactly when the leftover
    fits the ring; and the consumers have printed what the producers have, in the same order, but for
    the values left in the ring.
  */
  method RunProgram(g: Config, wakeups: nat) returns (returned: bool, left: nat, made: seq<int>, printed: seq<int>)
    requires g.Valid()
    ensures returned <==> g.Leftover() <= g.size
    ensures left == if returned then g.Leftover() else g.size
    ensures printed <= made && |printed| == g.consumers * g.Quota() && |made| == |printed| + left
  {
    var p := new Program(g);
    var allowed := wakeups;
    ghost var ls: seq<Label> := [];
    while exists k: nat :: k <= p.threads.Length && CanGo(p.threads[..], p.lock, p.joined, k)
      invariant fresh(p) && fresh(p.ring) && fresh(p.ring.buffer) && fresh(p.threads)
      invariant p.Valid() && p.cfg == g
      invariant Exec(Step, Init(g), ls) == Some(p.Abs())
      invariant p.made == Made(Init(g), ls) && p.printed == Printed(Init(g), ls)
      decreases allowed, Measure(p.Abs())
    {
      ghost var s := p.Abs();
      ghost var l: Label;
      var wake: bool, t: nat := *, *;
      if wake && allowed > 0 && t < p.threads.Length && p.threads[t].pc.Parked? {
        l := Spurious(t);
        p.WakeUp(t);
        allowed := allowed - 1;
      } else {
        var k: nat :| k <= p.threads.Length && CanGo(p.threads[..], p.lock, p.joined, k);
        l := p.TakeStep(k);
        StepMeasure(s, l);
        MeasureNonneg(s);
        MeasureNonneg(p.Abs());
      }
      ExecSnoc(Step, Init(g), ls, s, l, p.Abs());
      MadeSnoc(Init(g), ls, l);
      PrintedSnoc(Init(g), ls, l);
      ls := ls + [l];
    }
    CannotGoIsStuck(p.Abs()) by {
      assert p.Abs().threads == p.threads[..];
    }
    StuckOutcome(g, ls);
    ValuesArriveInOrder(g, ls);
    PrintedCount(g, ls);
    made, printed := p.made, p.printed;
    returned := p.joined == p.threads.Length;
    left := p.ring.count;
  }
}
