/**
  Exactly when the accounting of a tray and the scans under its mutex can fail: only through the
  one-shot add that posts the wrong semaphore (chef.c:104), and only on the tray it serves.
*/
module RestaurantSilent {
  import opened Runs
  import opened Sums
  import opened Restaurant
  import opened RestaurantRuns

  const SilentAdd := AddOnce(NonVegan)

  function IsSilentAdd(r: Role): int { if r == SilentAdd then 1 else 0 }

  function Silent(p: Proc): int { IsSilentAdd(p.role) }

  // ----- the accounting

  /** A process at tray d has scanned it in vain: a placer found no free slot, or an eater no dish. */
  predicate ScanFailed(s: State, i: nat, d: Dish) {
    i < |s.procs| && DishOf(s.procs[i]) == d && s.procs[i].stage == Scanned(false)
  }

  lemma NobodyOnEmptyTray(s: State, d: Dish)
    requires TrayInv(s, d, 0)
    ensures Occupied(At(s, d)) == 0 == Accounted(s, d)
    ensures Sum(s.procs, OwesEmpty(d)) == 0 == Sum(s.procs, OwesFull(d))
  {
    SumNonneg(s.procs, OwesEmpty(d));
    SumNonneg(s.procs, OwesFull(d));
  }

  /** One call of the silent add on fresh trays is enough to break the accounting. */
  lemma SilentAddBreaks(size: nat, roles: seq<Role>) returns (s: State)
    requires size > 0 && SilentAdd in roles
    ensures Reaches(Step, Init(size, roles), s) && Inv(s, size) && Resting(s) && Later(Init(size, roles), s)
    ensures Occupied(s.nonVegan) == 1 && Accounted(s, NonVegan) == 0
    ensures s.nonVegan.silent == 1 && s.nonVegan.chefMisses == 0 && s.nonVegan.full == 0
  {
    var s0 := Init(size, roles);
    InitInv(size, roles);
    var k :| 0 <= k < |roles| && roles[k] == SilentAdd;
    RestingTokens(s0, NonVegan, size);
    SumBounds(s0.nonVegan.slots, Full, 0, 0);
    ServeHits(s0, k, size);
    s := Serve(s0, k, size);
    SumBounds(s.procs, OwesFull(NonVegan), 0, 0);
  }

  /** From rest, a non-vegan placer puts a dish on the tray unless that is full already. */
  lemma ServeHits(s: State, i: nat, size: nat)
    requires Inv(s, size) && Resting(s) && i < |s.procs| && s.procs[i].stage.Start?
    requires IsPlacer(s.procs[i]) && DishOf(s.procs[i]) == NonVegan && s.nonVegan.empty > 0
    requires Occupied(s.nonVegan) < size
    ensures var t := Iterated(s, i).nonVegan;
      && Occupied(t) == Occupied(s.nonVegan) + 1 && t.chefMisses == s.nonVegan.chefMisses
      && (if IsSilent(s.procs[i]) then t.silent == s.nonVegan.silent + 1 && t.full == s.nonVegan.full
          else t.silent == s.nonVegan.silent && t.full == s.nonVegan.full + 1)
  {
    var taken := s.nonVegan.(empty := s.nonVegan.empty - 1);
    ScanCounts(taken, s.procs[i], size);
  }

  /**
    What the `full` side accounts for can differ from the dishes on a tray if and only if that is the
    non-vegan tray, it has slots at all, and the silent add is among the processes.
  */
  lemma AccountingFailsIff(size: nat, roles: seq<Role>, d: Dish)
    ensures (exists s :: Reaches(Step, Init(size, roles), s) && Occupied(At(s, d)) != Accounted(s, d))
       <==> d.NonVegan? && size > 0 && SilentAdd in roles
  {
    InitInv(size, roles);
    if d.NonVegan? && size > 0 && SilentAdd in roles {
      var s := SilentAddBreaks(size, roles);
    } else {
      forall s | Reaches(Step, Init(size, roles), s)
        ensures Occupied(At(s, d)) == Accounted(s, d)
      {
        ReachesLater(Init(size, roles), s, size);
        if size == 0 {
          NobodyOnEmptyTray(s, d);
        } else {
          var ls: seq<nat> :| Exec(Step, Init(size, roles), ls) == Some(s);
          assert d.Vegan? || NoSilent(Init(size, roles));
          SilentZero(Init(size, roles), ls, d);
        }
      }
    }
  }

  // ----- a scan that fails

  /** From rest, a placer that gets its token on a full tray scans in vain. */
  lemma FullTrayFails(s: State, i: nat, size: nat) returns (s': State)
    requires Inv(s, size) && Resting(s) && i < |s.procs| && s.procs[i].stage.Start?
    requires IsPlacer(s.procs[i]) && DishOf(s.procs[i]) == NonVegan && s.nonVegan.empty > 0
    requires Occupied(s.nonVegan) == size
    ensures Reaches(Step, s, s') && ScanFailed(s', i, NonVegan)
  {
    RestingTokens(s, NonVegan, size);
    var p, tray := s.procs[i], s.nonVegan;
    var tray1, p1 := tray.(empty := tray.empty - 1), p.(stage := Token);
    var tray2, p2 := tray1.(mutex := 0), p.(stage := Locked);
    var tray3, p3 := Scan(tray2, p2).0, p.(stage := Scanned(false));
    ScanCounts(tray2, p2, size);
    SumBounds(tray3.slots, Full, 0, 1);
    assert Act(tray2, p2) == Some((tray3, p3));
    assert Put(s, i, NonVegan, tray, p) == s;
    ActReaches(s, i, NonVegan, tray, p, tray1, p1);
    ActReaches(s, i, NonVegan, tray1, p1, tray2, p2);
    ActReaches(s, i, NonVegan, tray2, p2, tray3, p3);
    s' := Put(s, i, NonVegan, tray3, p3);
    ReachesTrans(Step, s, Put(s, i, NonVegan, tray1, p1), Put(s, i, NonVegan, tray2, p2));
    ReachesTrans(Step, s, Put(s, i, NonVegan, tray2, p2), s');
  }

  /** After one silent dish the chef can go on until its scan finds the tray full. */
  lemma {:induction false} ChefFails(s: State, c: nat, size: nat) returns (s': State)
    requires Inv(s, size) && Resting(s) && c < |s.procs| && s.procs[c].role == Chef(NonVegan)
    requires s.nonVegan.silent > s.nonVegan.chefMisses
    ensures Reaches(Step, s, s') && ScanFailed(s', c, NonVegan)
    decreases size - Occupied(s.nonVegan)
  {
    RestingTokens(s, NonVegan, size);
    SumBounds(s.procs, OwesFull(NonVegan), 0, 0);
    SumBounds(s.nonVegan.slots, Full, 0, 1);
    if Occupied(s.nonVegan) == size {
      s' := FullTrayFails(s, c, size);
    } else {
      ServeHits(s, c, size);
      var m := Serve(s, c, size);
      s' := ChefFails(m, c, size);
      ReachesTrans(Step, s, m, s');
    }
  }

  /** Silent adds that have not been called yet. */
  function Uncalled(p: Proc): int {
    if IsSilent(p) && p.stage.Start? then 1 else 0
  }

  lemma {:induction false} FindUncalled(ps: seq<Proc>) returns (i: nat)
    requires Sum(ps, Uncalled) > 0
    ensures i < |ps| && Uncalled(ps[i]) == 1
  {
    if Uncalled(ps[0]) == 1 {
      i := 0;
    } else {
      var j := FindUncalled(ps[1..]);
      i := 1 + j;
    }
  }

  /** More silent adds than there are slots left: the last one to be called scans in vain. */
  lemma {:induction false} SilentAddsFail(s: State, size: nat) returns (s': State, i: nat)
    requires size > 0 && Inv(s, size) && Resting(s) && s.nonVegan.full == 0
    requires Occupied(s.nonVegan) + Sum(s.procs, Uncalled) > size
    ensures Reaches(Step, s, s') && ScanFailed(s', i, NonVegan)
    decreases size - Occupied(s.nonVegan)
  {
    RestingTokens(s, NonVegan, size);
    SumBounds(s.nonVegan.slots, Full, 0, 1);
    i := FindUncalled(s.procs);
    if Occupied(s.nonVegan) == size {
      s' := FullTrayFails(s, i, size);
    } else {
      ServeHits(s, i, size);
      var m := Serve(s, i, size);
      SumUpdate(s.procs, i, m.procs[i], Uncalled);
      s', i := SilentAddsFail(m, size);
      ReachesTrans(Step, s, m, s');
    }
  }

  lemma {:induction false} AllUncalled(roles: seq<Role>, ps: seq<Proc>)
    requires |ps| == |roles| && forall i :: 0 <= i < |ps| ==> ps[i].role == roles[i] && ps[i].stage.Start?
    ensures Sum(ps, Uncalled) == Sum(roles, IsSilentAdd)
  {
    if ps != [] {
      AllUncalled(roles[1..], ps[1..]);
    }
  }

  // ----- scans that cannot fail

  /** Calls of the silent add that have put a dish on the tray. */
  function Placed(p: Proc): int {
    if IsSilent(p) && (p.stage == Scanned(true) || p.stage == Unlocked(true) || p.stage == Finished(true)) then 1 else 0
  }

  lemma StepPlaced(s: State, i: nat)
    requires Step(s, i).Some? && s.nonVegan.silent == Sum(s.procs, Placed)
    ensures Step(s, i).value.nonVegan.silent == Sum(Step(s, i).value.procs, Placed)
  {
    SumUpdate(s.procs, i, Step(s, i).value.procs[i], Placed);
  }

  lemma {:induction false} RunPlaced(s: State, ls: seq<nat>)
    requires Exec(Step, s, ls).Some? && s.nonVegan.silent == Sum(s.procs, Placed)
    ensures Exec(Step, s, ls).value.nonVegan.silent == Sum(Exec(Step, s, ls).value.procs, Placed)
    decreases |ls|
  {
    if ls != [] {
      StepPlaced(s, ls[0]);
      RunPlaced(Step(s, ls[0]).value, ls[1..]);
    }
  }

  /** Each call places at most one dish, and the call of process i has not placed one. */
  lemma {:induction false} PlacedByOthers(roles: seq<Role>, ps: seq<Proc>, i: nat)
    requires |ps| == |roles| && forall j :: 0 <= j < |ps| ==> ps[j].role == roles[j]
    ensures Sum(ps, Placed) <= Sum(roles, IsSilentAdd)
    ensures i < |ps| && Placed(ps[i]) == 0 && ps[i].role == SilentAdd ==> Sum(ps, Placed) < Sum(roles, IsSilentAdd)
  {
    if ps != [] {
      PlacedByOthers(roles[1..], ps[1..], if i == 0 then |ps| else i - 1);
    }
  }

  /** The processes under which some scan of tray d can fail. */
  predicate CanFail(size: nat, roles: seq<Role>, d: Dish) {
    && d.NonVegan? && size > 0 && SilentAdd in roles
    && (Chef(NonVegan) in roles || Sum(roles, IsSilentAdd) > size)
  }

  /** A placer that is about to scan finds a free slot. */
  lemma PlacerHasRoom(size: nat, roles: seq<Role>, ls: seq<nat>, s: State, i: nat, d: Dish)
    requires Exec(Step, Init(size, roles), ls) == Some(s) && !CanFail(size, roles, d)
    requires i < |s.procs| && s.procs[i].stage.Locked? && IsPlacer(s.procs[i]) && DishOf(s.procs[i]) == d
    ensures Occupied(At(s, d)) < size
  {
    var s0 := Init(size, roles);
    InitInv(size, roles);
    RunInv(s0, ls, size);
    CountsBound(s, i, d);
    SumNonneg(s.procs, OwesFull(d));
    if d.Vegan? || SilentAdd !in roles {
      assert d.Vegan? || NoSilent(s0);
      SilentZero(s0, ls, d);
    } else {
      OnlySilentPlaced(size, roles, ls, s);
      SumBounds(s0.procs, Placed, 0, 0);
      RunPlaced(s0, ls);
      assert forall j :: 0 <= j < |s.procs| ==> s.procs[j].role == s0.procs[j].role;
      PlacedByOthers(roles, s.procs, i);
    }
  }

  /** Without the non-vegan chef the dishes on that tray are the silent ones, and nobody eats them. */
  lemma OnlySilentPlaced(size: nat, roles: seq<Role>, ls: seq<nat>, s: State)
    requires Exec(Step, Init(size, roles), ls) == Some(s) && Chef(NonVegan) !in roles
    ensures Occupied(s.nonVegan) == s.nonVegan.silent
  {
    assert NobodyAnnounces(Init(size, roles), NonVegan);
    NoAnnouncement(Init(size, roles), ls, NonVegan);
    SilentAddsFeedNobody(size, roles, ls);
    Drift(size, roles, ls, NonVegan);
  }

  /** Then no run ever has a scan that fails. */
  lemma {:induction false} NoScanFails(size: nat, roles: seq<Role>, ls: seq<nat>, i: nat, d: Dish)
    requires Exec(Step, Init(size, roles), ls).Some? && !CanFail(size, roles, d)
    ensures !ScanFailed(Exec(Step, Init(size, roles), ls).value, i, d)
    decreases |ls|
  {
    var s0 := Init(size, roles);
    if ls != [] {
      var front, k := ls[..|ls| - 1], ls[|ls| - 1];
      assert ls == front + [k];
      ExecConcat(Step, s0, front, [k]);
      var m := Exec(Step, s0, front).value;
      assert Exec(Step, m, [k]) == Step(m, k);
      NoScanFails(size, roles, front, i, d);
      InitInv(size, roles);
      RunInv(s0, front, size);
      ScanSucceeds(size, roles, front, m, k, d);
    }
  }

  lemma ScanSucceeds(size: nat, roles: seq<Role>, ls: seq<nat>, s: State, k: nat, d: Dish)
    requires Exec(Step, Init(size, roles), ls) == Some(s) && !CanFail(size, roles, d) && Inv(s, size)
    requires Step(s, k).Some?
    ensures ScanFailed(Step(s, k).value, k, d) ==> ScanFailed(s, k, d)
  {
    var p := s.procs[k];
    if p.stage.Locked? && DishOf(p) == d {
      if IsPlacer(p) {
        PlacerHasRoom(size, roles, ls, s, k, d);
        ScanCounts(At(s, d), p, size);
      } else {
        LockedInv(s, k, size);
      }
    }
  }

  /** The outcome of its scan is what a process carries on with, and what a one-shot add returns. */
  predicate Failed(p: Proc) {
    p.stage == Scanned(false) || p.stage == Unlocked(false) || p.stage == Finished(false)
  }

  /** Unless scans can fail, every add that has returned has returned 1. */
  lemma {:induction false} AddReturnsOne(size: nat, roles: seq<Role>, ls: seq<nat>, i: nat, d: Dish)
    requires Exec(Step, Init(size, roles), ls).Some? && !CanFail(size, roles, d)
    requires i < |roles| && roles[i] == AddOnce(d)
    ensures var s := Exec(Step, Init(size, roles), ls).value;
      i < |s.procs| && s.procs[i].role == AddOnce(d) && !Failed(s.procs[i])
    decreases |ls|
  {
    var s0 := Init(size, roles);
    if ls != [] {
      var front, k := ls[..|ls| - 1], ls[|ls| - 1];
      assert ls == front + [k];
      ExecConcat(Step, s0, front, [k]);
      var m := Exec(Step, s0, front).value;
      assert Exec(Step, m, [k]) == Step(m, k);
      AddReturnsOne(size, roles, front, i, d);
      NoScanFails(size, roles, ls, i, d);
    }
  }

  /** The calls of the silent add that have returned 1, or are about to, are the dishes it has placed. */
  lemma SilentAddsReturn(size: nat, roles: seq<Role>, ls: seq<nat>)
    requires Exec(Step, Init(size, roles), ls).Some?
    ensures var s := Exec(Step, Init(size, roles), ls).value; s.nonVegan.silent == Sum(s.procs, Placed)
  {
    SumBounds(Init(size, roles).procs, Placed, 0, 0);
    RunPlaced(Init(size, roles), ls);
  }

  /**
    Some run has a scan of tray d that fails if and only if that is the non-vegan tray, the silent add
    is among the processes, and so is its chef, or more such adds than there are slots.
  */
  lemma ScanFailsIff(size: nat, roles: seq<Role>, d: Dish)
    ensures (exists s, i :: Reaches(Step, Init(size, roles), s) && ScanFailed(s, i, d))
       <==> d.NonVegan? && size > 0 && SilentAdd in roles
            && (Chef(NonVegan) in roles || Sum(roles, IsSilentAdd) > size)
  {
    var s0 := Init(size, roles);
    if CanFail(size, roles, d) {
      InitInv(size, roles);
      if Chef(NonVegan) in roles {
        var c :| 0 <= c < |roles| && roles[c] == Chef(NonVegan);
        var m := SilentAddBreaks(size, roles);
        assert m.procs[c].role == s0.procs[c].role;
        var s := ChefFails(m, c, size);
        ReachesTrans(Step, s0, m, s);
      } else {
        AllUncalled(roles, s0.procs);
        SumBounds(s0.nonVegan.slots, Full, 0, 0);
        var s, i := SilentAddsFail(s0, size);
      }
    } else {
      forall s, i | Reaches(Step, s0, s)
        ensures !ScanFailed(s, i, d)
      {
        var ls: seq<nat> :| Exec(Step, s0, ls) == Some(s);
        NoScanFails(size, roles, ls, i, d);
      }
    }
  }
}
