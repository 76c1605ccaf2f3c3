/**
  Who serves and eats what, tray by tray: which tray a step can touch, what a scan does to its slots,
  in which order the hybrid customer has its meals, and what a one-shot operation returns.
*/
module RestaurantTrays {
  import opened Runs
  import opened Sums
  import opened Restaurant
  import opened RestaurantRuns

  /** At the vegan tray now: the hybrid customer eats its vegan dish first and its other dish second. */
  predicate AtVeganTray(p: Proc) {
    match p.role
    case Chef(d) => d == Vegan
    case AddOnce(d) => d == Vegan
    case Customer(d) => d == Vegan
    case Hybrid => p.rounds % 2 == 0
  }

  /**
    Hybrids alternate; a one-shot add runs once and then has returned; and only one-shot adds return.
  */
  ghost predicate RoundsOk(p: Proc) {
    && (p.second <==> p.role.Hybrid? && p.rounds % 2 == 1)
    && (p.stage.Finished? ==> p.role.AddOnce? && p.rounds == 1)
    && (p.role.AddOnce? && !p.stage.Finished? ==> p.rounds == 0)
  }

  lemma {:induction false} RunRounds(s: State, ls: seq<nat>)
    requires Exec(Step, s, ls).Some? && forall i :: 0 <= i < |s.procs| ==> RoundsOk(s.procs[i])
    ensures var e := Exec(Step, s, ls).value; forall i :: 0 <= i < |e.procs| ==> RoundsOk(e.procs[i])
    decreases |ls|
  {
    if ls != [] {
      var m := Step(s, ls[0]).value;
      forall i | 0 <= i < |m.procs|
        ensures RoundsOk(m.procs[i])
      {
        assert RoundsOk(s.procs[i]);
      }
      RunRounds(m, ls[1..]);
    }
  }

  lemma ReachableRounds(size: nat, roles: seq<Role>, s: State)
    requires Reaches(Step, Init(size, roles), s)
    ensures Inv(s, size) && Later(Init(size, roles), s)
    ensures forall i :: 0 <= i < |s.procs| ==> RoundsOk(s.procs[i])
  {
    InitInv(size, roles);
    ReachesLater(Init(size, roles), s, size);
    var ls: seq<nat> :| Exec(Step, Init(size, roles), ls) == Some(s);
    RunRounds(Init(size, roles), ls);
  }

  /**
    A step touches only the tray where the process is: chefs, adds and single-diet customers always
    the one of their dish, a hybrid the vegan tray in its even rounds and the other one in its odd ones.
  */
  lemma StepTouchesOneTray(size: nat, roles: seq<Role>, s: State, i: nat)
    requires Reaches(Step, Init(size, roles), s) && Step(s, i).Some?
    ensures i < |s.procs|
    ensures if AtVeganTray(s.procs[i]) then Step(s, i).value.nonVegan == s.nonVegan
            else Step(s, i).value.vegan == s.vegan
    ensures forall j :: 0 <= j < |s.procs| && j != i ==> Step(s, i).value.procs[j] == s.procs[j]
  {
    ReachableRounds(size, roles, s);
    assert RoundsOk(s.procs[i]);
  }

  /** On the vegan tray there are only vegan dishes, on the other only non-vegan ones. */
  lemma TraysHoldTheirFood(size: nat, roles: seq<Role>, s: State)
    requires Reaches(Step, Init(size, roles), s)
    ensures |s.vegan.slots| == size == |s.nonVegan.slots|
    ensures forall k :: 0 <= k < size ==> s.vegan.slots[k] == EMPTY || s.vegan.slots[k] == VEGAN
    ensures forall k :: 0 <= k < size ==> s.nonVegan.slots[k] == EMPTY || s.nonVegan.slots[k] == NON_VEGAN
  {
    ReachableRounds(size, roles, s);
    assert SlotsOk(s.vegan, Vegan, size) && SlotsOk(s.nonVegan, NonVegan, size);
  }

  function SlotsAt(s: State, vegan: bool): seq<Food> {
    if vegan then s.vegan.slots else s.nonVegan.slots
  }

  /** The first slot that holds `from` becomes `to`, and nothing else changes. */
  ghost predicate FirstReplaced(before: seq<Food>, after: seq<Food>, from: Food, to: Food) {
    exists k :: 0 <= k < |before| && before[k] == from && from !in before[..k] && after == before[k := to]
  }

  /**
    What a scan leaves behind: a placer turns the first empty slot into the dish of the tray, an eater
    the first dish into an empty slot; or there is none, and the tray is as it was.
  */
  ghost predicate ScanOutcome(before: seq<Food>, after: seq<Food>, placer: bool, vegan: bool, ok: bool) {
    var dish := if vegan then VEGAN else NON_VEGAN;
    var from, to := if placer then EMPTY else dish, if placer then dish else EMPTY;
    if ok then FirstReplaced(before, after, from, to) else from !in before && after == before
  }

  /** The critical section of every process is such a scan, of the tray where the process is. */
  lemma ScanReplacesFirst(size: nat, roles: seq<Role>, s: State, i: nat)
    requires Reaches(Step, Init(size, roles), s) && i < |s.procs| && s.procs[i].stage.Locked?
    ensures Step(s, i).Some? && |Step(s, i).value.procs| == |s.procs|
    ensures var p, s' := s.procs[i], Step(s, i).value;
      var vegan := AtVeganTray(p);
      && s'.procs[i].stage.Scanned?
      && ScanOutcome(SlotsAt(s, vegan), SlotsAt(s', vegan), p.role.Chef? || p.role.AddOnce?, vegan, s'.procs[i].stage.ok)
  {
    ReachableRounds(size, roles, s);
    assert RoundsOk(s.procs[i]);
    ScanHasOutcome(At(s, DishOf(s.procs[i])), s.procs[i]);
  }

  lemma ScanHasOutcome(tray: Tray, p: Proc)
    ensures ScanOutcome(tray.slots, Scan(tray, p).0.slots, p.role.Chef? || p.role.AddOnce?, DishOf(p).Vegan?, Scan(tray, p).1)
  {
    var food := FoodOf(DishOf(p));
    var from := if IsPlacer(p) then EMPTY else food;
    var k := FirstIndex(tray.slots, from);
    if k < |tray.slots| {
      assert from !in tray.slots[..k] && tray.slots[k] == from;
    }
  }

  /** Without anyone who serves vegan dishes nothing is ever announced on the vegan tray. */
  lemma NothingVegan(size: nat, roles: seq<Role>, ls: seq<nat>)
    requires Exec(Step, Init(size, roles), ls).Some? && Chef(Vegan) !in roles && AddOnce(Vegan) !in roles
    ensures Exec(Step, Init(size, roles), ls).value.vegan.full == 0
  {
    var s := Exec(Step, Init(size, roles), ls).value;
    assert NobodyAnnounces(Init(size, roles), Vegan);
    NoAnnouncement(Init(size, roles), ls, Vegan);
    MealsNeedAnnouncements(size, roles, ls, Vegan);
    InitInv(size, roles);
    RunInv(Init(size, roles), ls, size);
    SumNonneg(s.procs, OwesFull(Vegan));
  }

  /**
    The hybrid customer insists on its vegan dish first: with nobody to serve one it never completes a
    meal, nor even gets as far as the lock, whatever is on the other tray.
  */
  lemma {:induction false} HybridWaitsForVegan(size: nat, roles: seq<Role>, ls: seq<nat>, i: nat)
    requires Exec(Step, Init(size, roles), ls).Some? && Chef(Vegan) !in roles && AddOnce(Vegan) !in roles
    requires i < |roles| && roles[i].Hybrid?
    ensures var s := Exec(Step, Init(size, roles), ls).value;
      i < |s.procs| && s.procs[i].role.Hybrid? && s.procs[i].stage.Start? && s.procs[i].rounds == 0
    decreases |ls|
  {
    var s0 := Init(size, roles);
    if ls != [] {
      var front, k := ls[..|ls| - 1], ls[|ls| - 1];
      assert ls == front + [k];
      ExecConcat(Step, s0, front, [k]);
      var m := Exec(Step, s0, front).value;
      assert Exec(Step, m, [k]) == Step(m, k);
      HybridWaitsForVegan(size, roles, front, i);
      NothingVegan(size, roles, front);
      assert Reaches(Step, s0, m);
      ReachableRounds(size, roles, m);
      assert RoundsOk(m.procs[i]);
    }
  }
}
