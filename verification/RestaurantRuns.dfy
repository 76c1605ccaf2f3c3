/**
  Progress in the restaurant: it never deadlocks, no process is ever stuck for good, and what the
  silent add starves.
*/
module RestaurantRuns {
  import opened Runs
  import opened Sums
  import opened Restaurant

  /** No process is inside an iteration. */
  ghost predicate Resting(s: State) {
    forall i :: 0 <= i < |s.procs| ==> s.procs[i].stage.Start? || s.procs[i].stage.Finished?
  }

  /** At rest all tokens are back in the semaphores. */
  lemma RestingTokens(s: State, d: Dish, size: nat)
    requires Resting(s) && TrayInv(s, d, size)
    ensures At(s, d).mutex == 1 && At(s, d).empty + At(s, d).full == size
  {
    SumBounds(s.procs, HoldsMutex(d), 0, 0);
    SumBounds(s.procs, OwesEmpty(d), 0, 0);
    SumBounds(s.procs, OwesFull(d), 0, 0);
  }

  function StagesLeft(p: Proc): int {
    match p.stage
    case Start => 0
    case Finished(_) => 0
    case Token => 4
    case Locked => 3
    case Scanned(_) => 2
    case Unlocked(_) => 1
  }

  /** Some process that is inside an iteration can always take its next step. */
  lemma SomeoneCanStep(s: State, size: nat) returns (i: nat)
    requires Inv(s, size) && !Resting(s)
    ensures i < |s.procs| && !s.procs[i].stage.Start? && Step(s, i).Some?
  {
    if j :| 0 <= j < |s.procs| && s.procs[j].stage.Locked? {
      i := j;
    } else if j :| 0 <= j < |s.procs| && (s.procs[j].stage.Scanned? || s.procs[j].stage.Unlocked?) {
      i := j;
    } else {
      i :| 0 <= i < |s.procs| && !s.procs[i].stage.Start? && !s.procs[i].stage.Finished?;
      SumBounds(s.procs, HoldsMutex(DishOf(s.procs[i])), 0, 0);
    }
  }

  lemma ReachesLater(s: State, s': State, size: nat)
    requires Inv(s, size) && Reaches(Step, s, s')
    ensures Inv(s', size) && Later(s, s')
  {
    var ls: seq<nat> :| Exec(Step, s, ls) == Some(s');
    RunInv(s, ls, size);
  }

  lemma StagesNonneg(s: State)
    ensures Sum(s.procs, StagesLeft) >= 0
  {
    SumNonneg(s.procs, StagesLeft);
  }

  lemma StepIsProgress(s: State, i: nat)
    requires Step(s, i).Some? && !s.procs[i].stage.Start?
    ensures Sum(Step(s, i).value.procs, StagesLeft) < Sum(s.procs, StagesLeft)
  {
    var p := Step(s, i).value.procs[i];
    assert StagesLeft(p) < StagesLeft(s.procs[i]);
    SumUpdate(s.procs, i, p, StagesLeft);
  }

  /** The iterations that are under way can be finished one by one. */
  lemma {:induction false} Drain(s: State, size: nat) returns (s': State)
    requires Inv(s, size)
    ensures Reaches(Step, s, s') && Resting(s')
    decreases Sum(s.procs, StagesLeft)
  {
    if Resting(s) {
      s' := s;
      ReachesSelf(Step, s);
    } else {
      var i := SomeoneCanStep(s, size);
      var m := Step(s, i).value;
      StepInv(s, i, size);
      ReachesStep(Step, s, i, m);
      StepIsProgress(s, i);
      StagesNonneg(s);
      StagesNonneg(m);
      s' := Drain(m, size);
      ReachesTrans(Step, s, m, s');
    }
  }

  /** The semaphore that an iteration of p waits for first. */
  function FirstSemaphore(tray: Tray, p: Proc): nat {
    if IsPlacer(p) then tray.empty else tray.full
  }

  /** One whole iteration of p with nobody in between: wait, lock, scan, unlock, post. */
  function Iteration(tray: Tray, p: Proc): (Tray, Proc)
    requires FirstSemaphore(tray, p) > 0
  {
    var taken := if IsPlacer(p) then tray.(empty := tray.empty - 1) else tray.(full := tray.full - 1);
    var (scanned, ok) := Scan(taken, p);
    (Post(scanned, p), NextRound(p, ok))
  }

  /** s with tray d and process i replaced. */
  function Put(s: State, i: nat, d: Dish, tray: Tray, p: Proc): State
    requires i < |s.procs|
  {
    With(s, d, tray).(procs := s.procs[i := p])
  }

  function Iterated(s: State, i: nat): State
    requires i < |s.procs| && FirstSemaphore(At(s, DishOf(s.procs[i])), s.procs[i]) > 0
  {
    var d := DishOf(s.procs[i]);
    var (tray, p) := Iteration(At(s, d), s.procs[i]);
    Put(s, i, d, tray, p)
  }

  lemma ActReaches(s: State, i: nat, d: Dish, tray: Tray, p: Proc, tray': Tray, p': Proc)
    requires i < |s.procs| && DishOf(p) == d && Act(tray, p) == Some((tray', p'))
    ensures Reaches(Step, Put(s, i, d, tray, p), Put(s, i, d, tray', p'))
  {
    var a, b := Put(s, i, d, tray, p), Put(s, i, d, tray', p');
    assert a.procs[i := p'] == b.procs;
    assert At(a, d) == tray;
    ReachesStep(Step, a, i, b);
  }

  lemma RunIteration(s: State, i: nat)
    requires i < |s.procs| && s.procs[i].stage.Start?
    requires FirstSemaphore(At(s, DishOf(s.procs[i])), s.procs[i]) > 0 && At(s, DishOf(s.procs[i])).mutex > 0
    ensures Reaches(Step, s, Iterated(s, i))
  {
    var p0 := s.procs[i];
    var d := DishOf(p0);
    var tray0 := At(s, d);
    assert Put(s, i, d, tray0, p0) == s;
    var (tray1, p1) := Act(tray0, p0).value;
    var (tray2, p2) := Act(tray1, p1).value;
    var (tray3, p3) := Act(tray2, p2).value;
    var (tray4, p4) := Act(tray3, p3).value;
    var (tray5, p5) := Act(tray4, p4).value;
    IterationIsFiveActs(tray0, p0);
    ActReaches(s, i, d, tray0, p0, tray1, p1);
    ActReaches(s, i, d, tray1, p1, tray2, p2);
    ActReaches(s, i, d, tray2, p2, tray3, p3);
    ActReaches(s, i, d, tray3, p3, tray4, p4);
    ActReaches(s, i, d, tray4, p4, tray5, p5);
    ReachesTrans(Step, s, Put(s, i, d, tray1, p1), Put(s, i, d, tray2, p2));
    ReachesTrans(Step, s, Put(s, i, d, tray2, p2), Put(s, i, d, tray3, p3));
    ReachesTrans(Step, s, Put(s, i, d, tray3, p3), Put(s, i, d, tray4, p4));
    ReachesTrans(Step, s, Put(s, i, d, tray4, p4), Put(s, i, d, tray5, p5));
  }

  /** The scan looks at neither the stage of p nor the semaphores. */
  lemma ScanFrame(tray: Tray, p: Proc, mutex: nat, stage: Stage)
    ensures Scan(tray.(mutex := mutex), p.(stage := stage)) == (Scan(tray, p).0.(mutex := mutex), Scan(tray, p).1)
  {
  }

  lemma IterationIsFiveActs(tray: Tray, p: Proc)
    requires p.stage.Start? && FirstSemaphore(tray, p) > 0 && tray.mutex > 0
    ensures var (t1, p1) := Act(tray, p).value;
      Act(t1, p1).Some? && var (t2, p2) := Act(t1, p1).value;
      Act(t2, p2).Some? && var (t3, p3) := Act(t2, p2).value;
      Act(t3, p3).Some? && var (t4, p4) := Act(t3, p3).value;
      Act(t4, p4).Some? && Act(t4, p4).value == Iteration(tray, p)
  {
    var t1 := if IsPlacer(p) then tray.(empty := tray.empty - 1) else tray.(full := tray.full - 1);
    var t2 := t1.(mutex := t1.mutex - 1);
    var (scanned, ok) := Scan(t1, p);
    ScanFrame(t1, p, t2.mutex, Locked);
    assert scanned.mutex == tray.mutex by {
      ScanFrame(t1, p, t1.mutex, p.stage);
      assert t1.(mutex := t1.mutex) == t1 && p.(stage := p.stage) == p;
    }
    var t3 := scanned.(mutex := t2.mutex);
    assert Act(tray, p) == Some((t1, p.(stage := Token)));
    assert Act(t1, p.(stage := Token)) == Some((t2, p.(stage := Locked)));
    assert Act(t2, p.(stage := Locked)) == Some((t3, p.(stage := Scanned(ok))));
    assert t3.(mutex := t3.mutex + 1) == scanned;
    assert Act(t3, p.(stage := Scanned(ok))) == Some((scanned, p.(stage := Unlocked(ok))));
    assert Act(scanned, p.(stage := Unlocked(ok))) == Some((Post(scanned, p), NextRound(p, ok)));
  }

  /** Serving one process from rest. */
  lemma Serve(s: State, i: nat, size: nat) returns (s': State)
    requires Inv(s, size) && Resting(s) && i < |s.procs| && s.procs[i].stage.Start?
    requires FirstSemaphore(At(s, DishOf(s.procs[i])), s.procs[i]) > 0
    ensures Reaches(Step, s, s') && Inv(s', size) && Resting(s') && Later(s, s')
    ensures s' == Iterated(s, i) && s'.procs[i].rounds == s.procs[i].rounds + 1
  {
    RestingTokens(s, DishOf(s.procs[i]), size);
    RunIteration(s, i);
    s' := Iterated(s, i);
    ReachesLater(s, s', size);
  }

  ghost predicate HasChef(s: State, d: Dish) {
    exists i :: 0 <= i < |s.procs| && s.procs[i].role == Chef(d)
  }

  predicate EatsFrom(r: Role, d: Dish) { r == Customer(d) || r == Hybrid }

  ghost predicate HasEater(s: State, d: Dish) {
    exists i :: 0 <= i < |s.procs| && EatsFrom(s.procs[i].role, d)
  }

  /** A chef for each tray, and for each tray someone who eats from it. */
  ghost predicate Staffed(s: State) {
    forall d :: HasChef(s, d) && HasEater(s, d)
  }

  lemma StaffedLater(s: State, s': State)
    requires Staffed(s) && Later(s, s')
    ensures Staffed(s')
  {
    forall d
      ensures HasChef(s', d) && HasEater(s', d)
    {
      assert HasChef(s, d) && HasEater(s, d);
      var i :| 0 <= i < |s.procs| && s.procs[i].role == Chef(d);
      assert s'.procs[i].role == Chef(d);
      var j :| 0 <= j < |s.procs| && EatsFrom(s.procs[j].role, d);
      assert EatsFrom(s'.procs[j].role, d);
    }
  }

  /** From rest, an eater at its tray can have a meal: the tray has one, or its chef has room. */
  lemma MealFromRest(s: State, i: nat, size: nat) returns (s': State)
    requires Inv(s, size) && Resting(s) && Staffed(s) && size > 0
    requires i < |s.procs| && !IsPlacer(s.procs[i])
    ensures Reaches(Step, s, s') && Inv(s', size) && Resting(s') && Later(s, s')
    ensures s'.procs[i] == NextRound(s.procs[i], true)
    ensures At(s', DishOf(s.procs[i])).empty > 0
  {
    var d := DishOf(s.procs[i]);
    RestingTokens(s, d, size);
    if At(s, d).full == 0 {
      assert HasChef(s, d);
      var c :| 0 <= c < |s.procs| && s.procs[c].role == Chef(d);
      var m := Serve(s, c, size);
      assert m.procs[i] == s.procs[i] && At(m, d).full > 0;
      s' := Serve(m, i, size);
      ReachesTrans(Step, s, m, s');
      LaterTrans(s, m, s');
    } else {
      s' := Serve(s, i, size);
    }
  }

  /** From rest, room can be made on any tray; a hybrid customer first has its meal at the other one. */
  lemma RoomFromRest(s: State, d: Dish, size: nat) returns (s': State)
    requires Inv(s, size) && Resting(s) && Staffed(s) && size > 0
    ensures Reaches(Step, s, s') && Inv(s', size) && Resting(s') && Later(s, s')
    ensures At(s', d).empty > 0
  {
    assert HasEater(s, d);
    var j :| 0 <= j < |s.procs| && EatsFrom(s.procs[j].role, d);
    s' := MealFromRest(s, j, size);
    if DishOf(s.procs[j]) != d {
      StaffedLater(s, s');
      var m := s';
      s' := MealFromRest(m, j, size);
      ReachesTrans(Step, s, m, s');
      LaterTrans(s, m, s');
    }
  }

  ghost predicate CanCompleteRound(s: State, i: nat)
    requires i < |s.procs|
  {
    exists s' :: Reaches(Step, s, s') && i < |s'.procs| && s'.procs[i].rounds > s.procs[i].rounds
  }

  /** From rest, every process that has not finished for good can complete a round. */
  lemma RoundFromRest(s: State, i: nat, size: nat)
    requires Inv(s, size) && Resting(s) && Staffed(s) && size > 0
    requires i < |s.procs| && !s.procs[i].stage.Finished?
    ensures CanCompleteRound(s, i)
  {
    if IsPlacer(s.procs[i]) {
      var m := RoomFromRest(s, DishOf(s.procs[i]), size);
      if m.procs[i].rounds <= s.procs[i].rounds {
        UnfinishedStays(s, m, i, size);
        var s' := Serve(m, i, size);
        ReachesTrans(Step, s, m, s');
      }
    } else {
      var s' := MealFromRest(s, i, size);
    }
  }

  /** A process that has not completed a round since s has not finished either. */
  lemma UnfinishedStays(s: State, s': State, i: nat, size: nat)
    requires Reaches(Step, s, s') && Inv(s, size) && i < |s.procs| && |s'.procs| == |s.procs|
    requires !s.procs[i].stage.Finished? && s'.procs[i].rounds <= s.procs[i].rounds
    ensures !s'.procs[i].stage.Finished?
  {
    var ls: seq<nat> :| Exec(Step, s, ls) == Some(s');
    FinishedMeansRound(s, ls, i, size);
  }

  lemma {:induction false} FinishedMeansRound(s: State, ls: seq<nat>, i: nat, size: nat)
    requires Inv(s, size) && Exec(Step, s, ls).Some? && i < |s.procs| && !s.procs[i].stage.Finished?
    ensures var s' := Exec(Step, s, ls).value;
      i < |s'.procs| && (s'.procs[i].stage.Finished? ==> s'.procs[i].rounds > s.procs[i].rounds)
    decreases |ls|
  {
    if ls != [] {
      var m := Step(s, ls[0]).value;
      StepInv(s, ls[0], size);
      RunInv(m, ls[1..], size);
      if !m.procs[i].stage.Finished? {
        FinishedMeansRound(m, ls[1..], i, size);
      }
    }
  }

  /**
    No process is ever permanently stuck: with a chef and an eater for each tray, from every reachable
    state and for every chef and customer, hybrids included, there is a continuation in which that
    process completes its next round. (One-shot adds that have returned are the exception.)
  */
  lemma NeverStuckForGood(size: nat, roles: seq<Role>, s: State, i: nat)
    requires size > 0 && Reaches(Step, Init(size, roles), s) && Staffed(Init(size, roles))
    requires i < |s.procs| && !s.procs[i].stage.Finished?
    ensures CanCompleteRound(s, i)
  {
    InitInv(size, roles);
    ReachesLater(Init(size, roles), s, size);
    StaffedLater(Init(size, roles), s);
    var m := Drain(s, size);
    ReachesLater(s, m, size);
    if m.procs[i].rounds <= s.procs[i].rounds {
      UnfinishedStays(s, m, i, size);
      StaffedLater(s, m);
      RoundFromRest(m, i, size);
      var s' :| Reaches(Step, m, s') && i < |s'.procs| && s'.procs[i].rounds > m.procs[i].rounds;
      ReachesTrans(Step, s, m, s');
    }
  }

  /** The roles that main gives to its five children. */
  const Children := [Chef(NonVegan), Chef(Vegan), Customer(NonVegan), Customer(Vegan), Hybrid]

  /** The five children of main, on trays of ten slots: none of them is ever stuck for good. */
  lemma FiveProcesses(s: State, i: nat)
    requires i < 5 && Reaches(Step, Init(10, Children), s)
    ensures |s.procs| == 5 && CanCompleteRound(s, i)
  {
    var s0 := Init(10, Children);
    InitInv(10, Children);
    ReachesLater(s0, s, 10);
    forall d
      ensures HasChef(s0, d) && HasEater(s0, d)
    {
      assert s0.procs[if d.Vegan? then 1 else 0].role == Chef(d);
      assert EatsFrom(s0.procs[if d.Vegan? then 3 else 2].role, d);
    }
    assert s.procs[i].role == s0.procs[i].role;
    NeverStuckForGood(10, Children, s, i);
  }

  /** With one chef per tray and a single customer of any kind, some process can always go on. */
  lemma NoDeadlock(size: nat, roles: seq<Role>, ls: seq<nat>)
    requires size > 0 && Exec(Step, Init(size, roles), ls).Some?
    requires forall d :: Chef(d) in roles
    requires exists r :: r in roles && !r.Chef? && !r.AddOnce?
    ensures exists i: nat :: Step(Exec(Step, Init(size, roles), ls).value, i).Some?
  {
    InitInv(size, roles);
    RunInv(Init(size, roles), ls, size);
    var s := Exec(Step, Init(size, roles), ls).value;
    if !Resting(s) {
      var i := SomeoneCanStep(s, size);
    } else {
      var r :| r in roles && !r.Chef? && !r.AddOnce?;
      var c :| 0 <= c < |roles| && roles[c] == r;
      assert s.procs[c].role == Init(size, roles).procs[c].role;
      var d := DishOf(s.procs[c]);
      assert Chef(d) in roles;
      var k :| 0 <= k < |roles| && roles[k] == Chef(d);
      assert s.procs[k].role == Init(size, roles).procs[k].role;
      RestingTokens(s, d, size);
      assert Step(s, c).Some? || Step(s, k).Some?;
    }
  }

  // ----- what the silent add starves

  ghost predicate NobodyAnnounces(s: State, d: Dish) {
    forall i :: 0 <= i < |s.procs| ==> !(IsPlacer(s.procs[i]) && DishOf(s.procs[i]) == d && !IsSilent(s.procs[i]))
  }

  lemma {:induction false} NoAnnouncement(s: State, ls: seq<nat>, d: Dish)
    requires Exec(Step, s, ls).Some? && NobodyAnnounces(s, d)
    ensures At(Exec(Step, s, ls).value, d).announced == At(s, d).announced
    ensures At(Exec(Step, s, ls).value, d).chefMisses == At(s, d).chefMisses
    decreases |ls|
  {
    if ls != [] {
      var m := Step(s, ls[0]).value;
      assert NobodyAnnounces(m, d) by {
        forall i | 0 <= i < |m.procs|
          ensures !(IsPlacer(m.procs[i]) && DishOf(m.procs[i]) == d && !IsSilent(m.procs[i]))
        {
          assert !(IsPlacer(s.procs[i]) && DishOf(s.procs[i]) == d && !IsSilent(s.procs[i]));
        }
      }
      NoAnnouncement(m, ls[1..], d);
    }
  }

  /** Meals never exceed the announced scans: a silently added dish feeds nobody by itself. */
  lemma MealsNeedAnnouncements(size: nat, roles: seq<Role>, ls: seq<nat>, d: Dish)
    requires Exec(Step, Init(size, roles), ls).Some?
    ensures var tray := At(Exec(Step, Init(size, roles), ls).value, d);
      tray.eaten <= tray.announced + tray.chefMisses
  {
    Drift(size, roles, ls, d);
    var s := Exec(Step, Init(size, roles), ls).value;
    SumNonneg(s.procs, OwesFull(d));
  }

  /**
    Without the non-vegan chef nobody ever eats from that tray, however many dishes
    add_nonvegan_dish_once puts there.
  */
  lemma SilentAddsFeedNobody(size: nat, roles: seq<Role>, ls: seq<nat>)
    requires Exec(Step, Init(size, roles), ls).Some? && Chef(NonVegan) !in roles
    ensures At(Exec(Step, Init(size, roles), ls).value, NonVegan).eaten == 0
  {
    assert NobodyAnnounces(Init(size, roles), NonVegan);
    NoAnnouncement(Init(size, roles), ls, NonVegan);
    MealsNeedAnnouncements(size, roles, ls, NonVegan);
  }

  /** The same two processes on the vegan tray do serve the meal. */
  lemma VeganAddFeeds(size: nat)
    requires size > 0
    ensures exists s :: Reaches(Step, Init(size, [AddOnce(Vegan), Customer(Vegan)]), s) && s.vegan.eaten == 1
  {
    var s0 := Init(size, [AddOnce(Vegan), Customer(Vegan)]);
    InitInv(size, [AddOnce(Vegan), Customer(Vegan)]);
    var s1 := Serve(s0, 0, size);
    var s2 := Serve(s1, 1, size);
    assert s2.vegan.eaterMisses == 0;
    ReachesTrans(Step, s0, s1, s2);
  }
}
