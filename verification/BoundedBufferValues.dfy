/**
  What the threads of nConsumer.c hand over: the values that consumers print are the values that
  producers drew, in the order of the puts; and who wakes whom.
*/
module BoundedBufferValues {
  import opened Runs
  import opened Ring
  import opened CondVar
  import opened BoundedBuffer
  import opened BoundedBufferRuns

  function Values(items: seq<Item>): seq<int> {
    seq(|items|, i requires 0 <= i < |items| => items[i].value)
  }

  /** The label runs a producer that has the lock and finds room: lines 33 to 36. */
  predicate Puts(s: State, l: Label) {
    && l.Run? && l.t < |s.threads| && s.threads[l.t].producer && s.threads[l.t].pc.Test?
    && s.ring.count < s.cfg.size
  }

  /** The label runs a consumer that has the lock and finds an item: lines 56 to 59. */
  predicate Takes(s: State, l: Label) {
    && l.Run? && l.t < |s.threads| && !s.threads[l.t].producer && s.threads[l.t].pc.Test?
    && s.ring.count > 0 && s.ring.outIdx < |s.ring.buffer|
  }

  /** What the producers print along a schedule: the value that each put drew from rand(). */
  function Made(s: State, ls: seq<Label>): seq<int>
    decreases |ls|
  {
    if ls == [] then []
    else
      (if Puts(s, ls[0]) then [ls[0].value] else [])
      + (match Step(s, ls[0]) case None => [] case Some(s') => Made(s', ls[1..]))
  }

  /** What the consumers print along a schedule: the value in the slot that each of them reads. */
  function Printed(s: State, ls: seq<Label>): seq<int>
    decreases |ls|
  {
    if ls == [] then []
    else
      (if Takes(s, ls[0]) then [s.ring.buffer[s.ring.outIdx].value] else [])
      + (match Step(s, ls[0]) case None => [] case Some(s') => Printed(s', ls[1..]))
  }

  /** A put appends the value that was drawn to the queue, whatever the state it happens in. */
  lemma PutStoresValue(g: Config, ls: seq<Label>, t: nat, wake: nat, value: int)
    requires g.Valid() && Exec(Step, Init(g), ls).Some?
    requires Puts(Exec(Step, Init(g), ls).value, Run(t, wake, value))
    ensures var s := Exec(Step, Init(g), ls).value;
      && Step(s, Run(t, wake, value)).Some?
      && var s' := Step(s, Run(t, wake, value)).value;
      && s.ring.Valid() && s'.ring.Valid() && |s'.ring.Contents()| == |s.ring.Contents()| + 1
      && s'.ring.Contents()[..|s.ring.Contents()|] == s.ring.Contents()
      && s'.ring.Contents()[|s.ring.Contents()|].value == value
      && s'.ring.Contents()[|s.ring.Contents()|].maker == t
  {
    InitInv(g);
    RunInv(Init(g), ls);
    PutIsAppend(Exec(Step, Init(g), ls).value, t, wake, value);
  }

  lemma PutIsAppend(s: State, t: nat, wake: nat, value: int)
    requires Inv(s) && Puts(s, Run(t, wake, value))
    ensures Step(s, Run(t, wake, value)).Some?
    ensures var s' := Step(s, Run(t, wake, value)).value;
      s'.ring.Valid() && exists x: Item :: x.maker == t && x.value == value && s'.ring.Contents() == s.ring.Contents() + [x]
  {
    var x := Item(t, s.cfg.items - s.threads[t].todo, value);
    PutAppends(s.ring, x);
  }

  lemma TakeIsHead(s: State, t: nat, wake: nat, value: int)
    requires Inv(s) && Takes(s, Run(t, wake, value))
    ensures Step(s, Run(t, wake, value)).Some?
    ensures var s' := Step(s, Run(t, wake, value)).value;
      s'.ring.Valid() && s.ring.Contents() == [s.ring.buffer[s.ring.outIdx]] + s'.ring.Contents()
  {
    GetRemovesOldest(s.ring);
  }

  lemma RingUntouched(s: State, l: Label)
    requires Inv(s) && Step(s, l).Some? && !Puts(s, l) && !Takes(s, l)
    ensures Step(s, l).value.ring == s.ring
  {
  }

  lemma ValuesConcat(a: seq<Item>, b: seq<Item>)
    ensures Values(a + b) == Values(a) + Values(b)
  {
  }

  lemma StepValues(s: State, l: Label)
    requires Inv(s) && Step(s, l).Some?
    ensures var s' := Step(s, l).value;
      && s'.ring.Valid()
      && Values(s.ring.Contents()) + (if Puts(s, l) then [l.value] else [])
         == (if Takes(s, l) then [s.ring.buffer[s.ring.outIdx].value] else []) + Values(s'.ring.Contents())
  {
    var s' := Step(s, l).value;
    if Puts(s, l) {
      PutIsAppend(s, l.t, l.wake, l.value);
      var x: Item :| x.value == l.value && s'.ring.Contents() == s.ring.Contents() + [x];
      ValuesConcat(s.ring.Contents(), [x]);
    } else if Takes(s, l) {
      TakeIsHead(s, l.t, l.wake, l.value);
      ValuesConcat([s.ring.buffer[s.ring.outIdx]], s'.ring.Contents());
    } else {
      RingUntouched(s, l);
    }
  }

  lemma {:induction false} RunValues(s: State, ls: seq<Label>)
    requires Inv(s) && Exec(Step, s, ls).Some?
    ensures Exec(Step, s, ls).value.ring.Valid()
    ensures Values(s.ring.Contents()) + Made(s, ls) == Printed(s, ls) + Values(Exec(Step, s, ls).value.ring.Contents())
    decreases |ls|
  {
    if ls != [] {
      var s' := Step(s, ls[0]).value;
      StepInv(s, ls[0]);
      StepValues(s, ls[0]);
      RunValues(s', ls[1..]);
      Regroup(Values(s.ring.Contents()), if Puts(s, ls[0]) then [ls[0].value] else [], Made(s', ls[1..]),
              if Takes(s, ls[0]) then [s.ring.buffer[s.ring.outIdx].value] else [], Values(s'.ring.Contents()),
              Printed(s', ls[1..]), Values(Exec(Step, s', ls[1..]).value.ring.Contents()));
    }
  }

  lemma Regroup(before: seq<int>, put: seq<int>, made: seq<int>, got: seq<int>, after: seq<int>, out: seq<int>, end: seq<int>)
    requires before + put == got + after && after + made == out + end
    ensures before + (put + made) == (got + out) + end
  {
    assert before + (put + made) == (before + put) + made;
    assert (got + after) + made == got + (after + made);
    assert got + (out + end) == (got + out) + end;
  }

  /**
    No value is lost, changed, doubled or overtaken: at every point of every schedule, what the
    producers have printed is what the consumers have printed followed by the values in the ring.
  */
  lemma ValuesArriveInOrder(g: Config, ls: seq<Label>)
    requires g.Valid() && Exec(Step, Init(g), ls).Some?
    ensures var s := Exec(Step, Init(g), ls).value;
      s.ring.Valid() && Made(Init(g), ls) == Printed(Init(g), ls) + Values(s.ring.Contents())
  {
    InitInv(g);
    RunValues(Init(g), ls);
    NothingYet(g, Made(Init(g), ls));
  }

  lemma NothingYet(g: Config, made: seq<int>)
    requires g.Valid()
    ensures Init(g).ring.Valid() && Values(Init(g).ring.Contents()) + made == made
  {
    assert Values(Init(g).ring.Contents()) == [];
  }

  // ----- one more step at the end of a schedule

  lemma {:induction false} MadeSnoc(s: State, ls: seq<Label>, l: Label)
    requires Exec(Step, s, ls).Some?
    ensures Made(s, ls + [l]) == Made(s, ls) + if Puts(Exec(Step, s, ls).value, l) then [l.value] else []
    decreases |ls|
  {
    if ls == [] {
      assert ls + [l] == [l];
      MadeOne(s, l);
    } else {
      assert (ls + [l])[1..] == ls[1..] + [l];
      MadeSnoc(Step(s, ls[0]).value, ls[1..], l);
    }
  }

  lemma MadeOne(s: State, l: Label)
    ensures Made(s, [l]) == if Puts(s, l) then [l.value] else []
  {
    assert [l][1..] == [];
    assert Step(s, l).Some? ==> Made(Step(s, l).value, []) == [];
  }

  lemma {:induction false} PrintedSnoc(s: State, ls: seq<Label>, l: Label)
    requires Exec(Step, s, ls).Some?
    ensures var e := Exec(Step, s, ls).value;
      Printed(s, ls + [l]) == Printed(s, ls) + if Takes(e, l) then [e.ring.buffer[e.ring.outIdx].value] else []
    decreases |ls|
  {
    if ls == [] {
      assert ls + [l] == [l] && [l][1..] == [];
      assert Step(s, l).Some? ==> Printed(Step(s, l).value, []) == [];
    } else {
      assert (ls + [l])[1..] == ls[1..] + [l];
      PrintedSnoc(Step(s, ls[0]).value, ls[1..], l);
    }
  }

  /** Each consumed item was printed once. */
  lemma {:induction false} PrintedIsConsumed(s: State, ls: seq<Label>)
    requires Inv(s) && Exec(Step, s, ls).Some?
    ensures Values(s.consumed) + Printed(s, ls) == Values(Exec(Step, s, ls).value.consumed)
    decreases |ls|
  {
    if ls != [] {
      var s' := Step(s, ls[0]).value;
      StepInv(s, ls[0]);
      StepConsumes(s, ls[0]);
      PrintedIsConsumed(s', ls[1..]);
      var got := if Takes(s, ls[0]) then [s.ring.buffer[s.ring.outIdx].value] else [];
      Regroup(Values(s.consumed), got, Printed(s', ls[1..]), [], Values(s'.consumed), [], Values(Exec(Step, s, ls).value.consumed));
    }
  }

  lemma PrintedCount(g: Config, ls: seq<Label>)
    requires g.Valid() && Exec(Step, Init(g), ls).Some?
    ensures |Printed(Init(g), ls)| == |Exec(Step, Init(g), ls).value.consumed|
  {
    InitInv(g);
    PrintedIsConsumed(Init(g), ls);
  }

  lemma StepConsumes(s: State, l: Label)
    requires Inv(s) && Step(s, l).Some?
    ensures Values(Step(s, l).value.consumed)
         == Values(s.consumed) + if Takes(s, l) then [s.ring.buffer[s.ring.outIdx].value] else []
  {
    if Takes(s, l) {
      ValuesConcat(s.consumed, [s.ring.buffer[s.ring.outIdx]]);
    }
  }

  // ----- who wakes whom

  /**
    A step of thread t changes no other thread, but that after moving an item it wakes one waiter of
    the other kind, whichever the scheduler picks, if there is any.
  */
  lemma SignalWakesOne(g: Config, ls: seq<Label>, t: nat, wake: nat, value: int)
    requires g.Valid() && Exec(Step, Init(g), ls).Some?
    requires Step(Exec(Step, Init(g), ls).value, Run(t, wake, value)).Some?
    ensures var s := Exec(Step, Init(g), ls).value; var s' := Step(s, Run(t, wake, value)).value;
      && t < |s.threads| == |s'.threads|
      && (forall i :: 0 <= i < |s.threads| && i != t && i != wake ==> s'.threads[i] == s.threads[i])
      && (s.threads[t].pc.Post? && AnyParked(s, !s.threads[t].producer)
          ==> IsParked(s, wake, !s.threads[t].producer) && s'.threads[wake] == s.threads[wake].(pc := Woken))
      && (wake < |s.threads| && wake != t && s'.threads[wake] != s.threads[wake]
          ==> s.threads[t].pc.Post? && IsParked(s, wake, !s.threads[t].producer))
  {
  }
}
