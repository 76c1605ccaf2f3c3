/**
  The two-tray restaurant: chefs and customers are processes that share two arrays, each guarded by
  a binary semaphore and by two counting semaphores. Any number of processes of any kind.
*/
module Restaurant {
  import opened Runs
  import opened Sums

  datatype Food = EMPTY | VEGAN | NON_VEGAN

  datatype Dish = Vegan | NonVegan

  function FoodOf(d: Dish): Food {
    match d case Vegan => VEGAN case NonVegan => NON_VEGAN
  }

  /**
    One tray with its semaphores. The last four fields are history: successful placements that were
    announced on `full`, successful placements by add_nonvegan_dish_once (never announced), scans of
    announcing placers that found no free slot, meals, and scans of eaters that found no dish.
  */
  datatype Tray = Tray(
    slots: seq<Food>, mutex: nat, empty: nat, full: nat,
    announced: nat, silent: nat, chefMisses: nat, eaten: nat, eaterMisses: nat)

  datatype Role = Chef(d: Dish) | AddOnce(d: Dish) | Customer(d: Dish) | Hybrid

  /** Before the counting semaphore; holding its token; holding the mutex; scanned; mutex released. */
  datatype Stage = Start | Token | Locked | Scanned(ok: bool) | Unlocked(ok: bool) | Finished(ok: bool)

  /** `second`: a hybrid customer that has had its vegan dish. `rounds`: iterations completed. */
  datatype Proc = Proc(role: Role, stage: Stage, second: bool, rounds: nat)

  datatype State = State(vegan: Tray, nonVegan: Tray, procs: seq<Proc>)

  function At(s: State, d: Dish): Tray {
    match d case Vegan => s.vegan case NonVegan => s.nonVegan
  }

  function With(s: State, d: Dish, tray: Tray): State {
    match d case Vegan => s.(vegan := tray) case NonVegan => s.(nonVegan := tray)
  }

  function DishOf(p: Proc): Dish {
    match p.role
    case Chef(d) => d
    case AddOnce(d) => d
    case Customer(d) => d
    case Hybrid => if p.second then NonVegan else Vegan
  }

  predicate IsPlacer(p: Proc) { p.role.Chef? || p.role.AddOnce? }

  /** add_nonvegan_dish_once posts non_empty where every other placer posts full (chef.c:104). */
  predicate IsSilent(p: Proc) { p.role == AddOnce(NonVegan) }

  /** The index at which a scan loop stops: the first slot holding f, or the size. */
  function FirstIndex(slots: seq<Food>, f: Food): (i: nat)
    ensures i <= |slots|
    ensures forall j :: 0 <= j < i ==> slots[j] != f
    ensures i < |slots| ==> slots[i] == f
  {
    if slots == [] then 0
    else if slots[0] == f then 0
    else
      var rest := FirstIndex(slots[1..], f);
      assert forall j :: 1 <= j < 1 + rest ==> slots[j] == slots[1..][j - 1];
      1 + rest
  }

  /** Both scans replace the first `from` by `to`. */
  function Replaced(slots: seq<Food>, from: Food, to: Food): seq<Food> {
    var i := FirstIndex(slots, from);
    if i < |slots| then slots[i := to] else slots
  }

  /** The critical section of placer or eater p, history included. */
  function Scan(tray: Tray, p: Proc): (Tray, bool) {
    var food := FoodOf(DishOf(p));
    var from, to := if IsPlacer(p) then EMPTY else food, if IsPlacer(p) then food else EMPTY;
    var ok := FirstIndex(tray.slots, from) < |tray.slots|;
    var tray' := tray.(slots := Replaced(tray.slots, from, to));
    var hit, miss := if ok then 1 else 0, if ok then 0 else 1;
    (if !IsPlacer(p) then tray'.(eaten := tray.eaten + hit, eaterMisses := tray.eaterMisses + miss)
     else if IsSilent(p) then tray'.(silent := tray.silent + hit)
     else tray'.(announced := tray.announced + hit, chefMisses := tray.chefMisses + miss), ok)
  }

  /** The last sem_post of an iteration. */
  function Post(tray: Tray, p: Proc): Tray {
    if IsPlacer(p) && !IsSilent(p) then tray.(full := tray.full + 1) else tray.(empty := tray.empty + 1)
  }

  function NextRound(p: Proc, ok: bool): Proc {
    p.(stage := if p.role.AddOnce? then Finished(ok) else Start,
       second := p.role.Hybrid? && !p.second,
       rounds := p.rounds + 1)
  }

  /** What one step of p does to its tray and to itself; None when sem_wait blocks. */
  function Act(tray: Tray, p: Proc): Option<(Tray, Proc)> {
    match p.stage
    case Start =>
      if IsPlacer(p) then
        (if tray.empty > 0 then Some((tray.(empty := tray.empty - 1), p.(stage := Token))) else None)
      else
        (if tray.full > 0 then Some((tray.(full := tray.full - 1), p.(stage := Token))) else None)
    case Token =>
      if tray.mutex > 0 then Some((tray.(mutex := tray.mutex - 1), p.(stage := Locked))) else None
    case Locked => var (tray', ok) := Scan(tray, p); Some((tray', p.(stage := Scanned(ok))))
    case Scanned(ok) => Some((tray.(mutex := tray.mutex + 1), p.(stage := Unlocked(ok))))
    case Unlocked(ok) => Some((Post(tray, p), NextRound(p, ok)))
    case Finished(_) => None
  }

  function Step(s: State, i: nat): Option<State> {
    if i >= |s.procs| then None
    else
      var d := DishOf(s.procs[i]);
      match Act(At(s, d), s.procs[i])
      case None => None
      case Some((tray, p)) => Some(With(s, d, tray).(procs := s.procs[i := p]))
  }

  function FreshTray(size: nat): Tray {
    Tray(seq(size, _ => EMPTY), 1, size, 0, 0, 0, 0, 0, 0)
  }

  function Init(size: nat, roles: seq<Role>): State {
    State(FreshTray(size), FreshTray(size),
          seq(|roles|, i requires 0 <= i < |roles| => Proc(roles[i], Start, false, 0)))
  }

  // ----- accounting

  /** Tokens of `empty` in flight: taken and not yet turned into a dish, or owed for a cleared slot. */
  function OwesEmpty(d: Dish): Proc -> int {
    (p: Proc) =>
      if DishOf(p) != d then 0
      else if IsSilent(p) then (if p.stage.Start? || p.stage.Finished? then 0 else 1)
      else if IsPlacer(p) then (if p.stage.Token? || p.stage.Locked? then 1 else 0)
      else (if p.stage.Scanned? || p.stage.Unlocked? then 1 else 0)
  }

  /** Tokens of `full` in flight. */
  function OwesFull(d: Dish): Proc -> int {
    (p: Proc) =>
      if DishOf(p) != d || IsSilent(p) then 0
      else if IsPlacer(p) then (if p.stage.Scanned? || p.stage.Unlocked? then 1 else 0)
      else (if p.stage.Token? || p.stage.Locked? then 1 else 0)
  }

  function HoldsMutex(d: Dish): Proc -> int {
    (p: Proc) => if DishOf(p) == d && (p.stage.Locked? || p.stage.Scanned?) then 1 else 0
  }

  function Full(f: Food): int { if f == EMPTY then 0 else 1 }

  function Occupied(tray: Tray): int { Sum(tray.slots, Full) }

  /** What the `full` side of tray d accounts for. */
  function Accounted(s: State, d: Dish): int {
    At(s, d).full + Sum(s.procs, OwesFull(d))
  }

  ghost predicate SlotsOk(tray: Tray, d: Dish, size: nat) {
    && |tray.slots| == size
    && forall i :: 0 <= i < size ==> tray.slots[i] == EMPTY || tray.slots[i] == FoodOf(d)
  }

  /**
    Tokens are conserved and the mutex is one; dishes on the tray exceed what `full` accounts for by
    the silent placements less the announced scans that found no slot; and no eater ever misses.
  */
  ghost predicate TrayInv(s: State, d: Dish, size: nat) {
    var tray := At(s, d);
    && SlotsOk(tray, d, size)
    && tray.mutex + Sum(s.procs, HoldsMutex(d)) == 1
    && tray.empty + Sum(s.procs, OwesEmpty(d)) + Accounted(s, d) == size
    && Occupied(tray) == Accounted(s, d) + tray.silent - tray.chefMisses
    && Occupied(tray) == tray.announced + tray.silent - tray.eaten
    && tray.chefMisses <= tray.silent
    && tray.eaterMisses == 0
  }

  ghost predicate ProcsOk(s: State) {
    forall i :: 0 <= i < |s.procs| ==> (s.procs[i].stage.Finished? ==> s.procs[i].role.AddOnce?)
  }

  ghost predicate Inv(s: State, size: nat) {
    TrayInv(s, Vegan, size) && TrayInv(s, NonVegan, size) && ProcsOk(s)
  }

  lemma InitInv(size: nat, roles: seq<Role>)
    ensures Inv(Init(size, roles), size)
  {
    var s := Init(size, roles);
    forall d
      ensures TrayInv(s, d, size)
    {
      SumBounds(s.procs, HoldsMutex(d), 0, 0);
      SumBounds(s.procs, OwesEmpty(d), 0, 0);
      SumBounds(s.procs, OwesFull(d), 0, 0);
      SumBounds(At(s, d).slots, Full, 0, 0);
    }
  }

  /** Replacing one process changes each count of a tray by that process's own weights. */
  lemma CountsAfter(s: State, i: nat, p: Proc, d: Dish)
    requires i < |s.procs|
    ensures Sum(s.procs[i := p], HoldsMutex(d)) == Sum(s.procs, HoldsMutex(d)) - HoldsMutex(d)(s.procs[i]) + HoldsMutex(d)(p)
    ensures Sum(s.procs[i := p], OwesEmpty(d)) == Sum(s.procs, OwesEmpty(d)) - OwesEmpty(d)(s.procs[i]) + OwesEmpty(d)(p)
    ensures Sum(s.procs[i := p], OwesFull(d)) == Sum(s.procs, OwesFull(d)) - OwesFull(d)(s.procs[i]) + OwesFull(d)(p)
  {
    SumUpdate(s.procs, i, p, HoldsMutex(d));
    SumUpdate(s.procs, i, p, OwesEmpty(d));
    SumUpdate(s.procs, i, p, OwesFull(d));
  }

  lemma CountsBound(s: State, i: nat, d: Dish)
    requires i < |s.procs|
    ensures 0 <= HoldsMutex(d)(s.procs[i]) <= Sum(s.procs, HoldsMutex(d))
    ensures 0 <= OwesEmpty(d)(s.procs[i]) <= Sum(s.procs, OwesEmpty(d))
    ensures 0 <= OwesFull(d)(s.procs[i]) <= Sum(s.procs, OwesFull(d))
  {
    SumAtLeast(s.procs, HoldsMutex(d), i);
    SumAtLeast(s.procs, OwesEmpty(d), i);
    SumAtLeast(s.procs, OwesFull(d), i);
  }

  /** A scan that hits changes the number of dishes by one; a scan that misses proves all or none. */
  lemma ScanCounts(tray: Tray, p: Proc, size: nat)
    requires SlotsOk(tray, DishOf(p), size)
    ensures var (tray', ok) := Scan(tray, p);
      && SlotsOk(tray', DishOf(p), size)
      && Occupied(tray') == Occupied(tray) + (if !ok then 0 else if IsPlacer(p) then 1 else -1)
      && (!ok ==> Occupied(tray) == if IsPlacer(p) then size else 0)
      && 0 <= Occupied(tray) <= size
  {
    var food := FoodOf(DishOf(p));
    var from, to := if IsPlacer(p) then EMPTY else food, if IsPlacer(p) then food else EMPTY;
    var i := FirstIndex(tray.slots, from);
    SumBounds(tray.slots, Full, 0, 1);
    if i < size {
      SumUpdate(tray.slots, i, to, Full);
    } else {
      var w := if IsPlacer(p) then 1 else 0;
      SumBounds(tray.slots, Full, w, w);
    }
  }

  /** The scan keeps the accounting; in particular an eater that got a token finds a dish. */
  lemma LockedInv(s: State, i: nat, size: nat)
    requires i < |s.procs| && s.procs[i].stage.Locked?
    requires TrayInv(s, DishOf(s.procs[i]), size)
    ensures TrayInv(Step(s, i).value, DishOf(s.procs[i]), size)
    ensures !IsPlacer(s.procs[i]) ==> Step(s, i).value.procs[i].stage.ok
  {
    var p := s.procs[i];
    var d := DishOf(p);
    ScanCounts(At(s, d), p, size);
    CountsAfter(s, i, Step(s, i).value.procs[i], d);
    CountsBound(s, i, d);
  }

  /** Outside the scan a step moves one token between a semaphore and the process. */
  lemma TokenMoves(tray: Tray, p: Proc)
    requires !p.stage.Locked? && Act(tray, p).Some?
    ensures var (tray', p') := Act(tray, p).value; var d := DishOf(p);
      && tray' == tray.(mutex := tray'.mutex, empty := tray'.empty, full := tray'.full)
      && tray'.mutex - tray.mutex == HoldsMutex(d)(p) - HoldsMutex(d)(p')
      && tray'.empty - tray.empty == OwesEmpty(d)(p) - OwesEmpty(d)(p')
      && tray'.full - tray.full == OwesFull(d)(p) - OwesFull(d)(p')
  {
  }

  lemma SemaphoreInv(s: State, i: nat, size: nat)
    requires i < |s.procs| && !s.procs[i].stage.Locked?
    requires TrayInv(s, DishOf(s.procs[i]), size) && Step(s, i).Some?
    ensures TrayInv(Step(s, i).value, DishOf(s.procs[i]), size)
  {
    var p, d := s.procs[i], DishOf(s.procs[i]);
    var (tray, p') := Act(At(s, d), p).value;
    TokenMoves(At(s, d), p);
    CountsAfter(s, i, p', d);
    assert At(Step(s, i).value, d) == tray;
  }

  lemma OwnTrayInv(s: State, i: nat, size: nat)
    requires i < |s.procs| && TrayInv(s, DishOf(s.procs[i]), size) && Step(s, i).Some?
    ensures TrayInv(Step(s, i).value, DishOf(s.procs[i]), size)
  {
    if s.procs[i].stage.Locked? {
      LockedInv(s, i, size);
    } else {
      SemaphoreInv(s, i, size);
    }
  }

  lemma OtherTrayInv(s: State, i: nat, d: Dish, size: nat)
    requires i < |s.procs| && TrayInv(s, d, size) && Step(s, i).Some? && d != DishOf(s.procs[i])
    ensures TrayInv(Step(s, i).value, d, size)
  {
    CountsAfter(s, i, Step(s, i).value.procs[i], d);
  }

  lemma StepInv(s: State, i: nat, size: nat)
    requires Inv(s, size) && Step(s, i).Some?
    ensures Inv(Step(s, i).value, size)
  {
    OwnTrayInv(s, i, size);
    OtherTrayInv(s, i, if DishOf(s.procs[i]).Vegan? then NonVegan else Vegan, size);
    StepProcs(s, i);
  }

  lemma StepProcs(s: State, i: nat)
    requires ProcsOk(s) && Step(s, i).Some?
    ensures ProcsOk(Step(s, i).value)
  {
  }

  /** Processes keep their role and never lose a completed round. */
  ghost predicate Later(s: State, s': State) {
    && |s'.procs| == |s.procs|
    && forall i :: 0 <= i < |s.procs| ==>
         s'.procs[i].role == s.procs[i].role && s.procs[i].rounds <= s'.procs[i].rounds
  }

  lemma StepLater(s: State, i: nat)
    requires Step(s, i).Some?
    ensures Later(s, Step(s, i).value)
  {
  }

  lemma LaterTrans(a: State, b: State, c: State)
    requires Later(a, b) && Later(b, c)
    ensures Later(a, c)
  {
    forall i | 0 <= i < |a.procs|
      ensures c.procs[i].role == a.procs[i].role && a.procs[i].rounds <= c.procs[i].rounds
    {
      assert b.procs[i].role == a.procs[i].role;
    }
  }

  lemma {:induction false} RunInv(s: State, ls: seq<nat>, size: nat)
    requires Inv(s, size) && Exec(Step, s, ls).Some?
    ensures Inv(Exec(Step, s, ls).value, size) && Later(s, Exec(Step, s, ls).value)
    decreases |ls|
  {
    if ls != [] {
      var m := Step(s, ls[0]).value;
      StepInv(s, ls[0], size);
      StepLater(s, ls[0]);
      RunInv(m, ls[1..], size);
      LaterTrans(s, m, Exec(Step, s, ls).value);
    }
  }

  // ----- the exact accounting of every run

  /**
    Slot and semaphore accounting in every reachable state, for any processes whose silent adds have
    put nothing on the tray: free slots are matched by `empty` and its tokens in flight, dishes by
    `full` and its tokens in flight.
  */
  lemma Accounting(size: nat, roles: seq<Role>, ls: seq<nat>, d: Dish)
    requires Exec(Step, Init(size, roles), ls).Some?
    requires At(Exec(Step, Init(size, roles), ls).value, d).silent == 0
    ensures var s := Exec(Step, Init(size, roles), ls).value;
      && size - Occupied(At(s, d)) == At(s, d).empty + Sum(s.procs, OwesEmpty(d))
      && Occupied(At(s, d)) == At(s, d).full + Sum(s.procs, OwesFull(d))
      && At(s, d).mutex + Sum(s.procs, HoldsMutex(d)) == 1
  {
    InitInv(size, roles);
    RunInv(Init(size, roles), ls, size);
  }

  /**
    With the silent add among the processes: tokens are still conserved, but the tray holds more
    dishes than `full` accounts for, by exactly the silent placements less the chef scans that found
    the tray already full. That drift is never negative, so no eater ever scans in vain.
  */
  lemma Drift(size: nat, roles: seq<Role>, ls: seq<nat>, d: Dish)
    requires Exec(Step, Init(size, roles), ls).Some?
    ensures var s := Exec(Step, Init(size, roles), ls).value; var tray := At(s, d);
      && tray.empty + tray.full + Sum(s.procs, OwesEmpty(d)) + Sum(s.procs, OwesFull(d)) == size
      && Occupied(tray) - Accounted(s, d) == tray.silent - tray.chefMisses >= 0
      && tray.eaterMisses == 0
      && Occupied(tray) == tray.announced + tray.silent - tray.eaten
      && 0 <= Occupied(tray) <= size
  {
    InitInv(size, roles);
    RunInv(Init(size, roles), ls, size);
    SumBounds(At(Exec(Step, Init(size, roles), ls).value, d).slots, Full, 0, 1);
  }

  ghost predicate NoSilent(s: State) {
    forall i :: 0 <= i < |s.procs| ==> !IsSilent(s.procs[i])
  }

  lemma {:induction false} SilentZero(s: State, ls: seq<nat>, d: Dish)
    requires Exec(Step, s, ls).Some? && (d.Vegan? || NoSilent(s))
    ensures At(Exec(Step, s, ls).value, d).silent == At(s, d).silent
    decreases |ls|
  {
    if ls != [] {
      SilentZero(Step(s, ls[0]).value, ls[1..], d);
    }
  }

  /**
    Every scan succeeds: on the vegan tray always, on the other one as long as the silent add is not
    used, no placer ever falls through its loop, and dishes on the tray are placements less meals.
  */
  lemma ScansSucceed(size: nat, roles: seq<Role>, ls: seq<nat>, d: Dish)
    requires Exec(Step, Init(size, roles), ls).Some?
    requires d.Vegan? || AddOnce(NonVegan) !in roles
    ensures var tray := At(Exec(Step, Init(size, roles), ls).value, d);
      && tray.chefMisses == 0 && tray.eaterMisses == 0
      && 0 <= tray.announced - tray.eaten == Occupied(tray) <= size
  {
    var s := Init(size, roles);
    assert d.Vegan? || NoSilent(s);
    SilentZero(s, ls, d);
    Drift(size, roles, ls, d);
  }
}
