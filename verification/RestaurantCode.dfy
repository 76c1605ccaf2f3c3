/**
  The shared memory of the restaurant as code: the tray arrays scanned and updated in place, the
  semaphores as counters, and the one-shot operations run without interference.
*/
module RestaurantCode {
  import opened Runs
  import opened Sums
  import opened Restaurant
  import opened RestaurantRuns
  import opened RestaurantTrays

  class SharedTray {
    const dish: Dish
    const slots: array<Food>
    var mutex: nat
    var empty: nat
    var full: nat
    ghost var history: Tray

    /** shared.c, lines 21 to 31, for one tray. */
    constructor (dish: Dish, size: nat)
      ensures fresh(slots) && this.dish == dish && slots.Length == size && Abs() == FreshTray(size)
    {
      this.dish := dish;
      slots := new Food[size](_ => EMPTY);
      mutex, empty, full := 1, size, 0;
      history := FreshTray(size);
      new;
      assert slots[..] == FreshTray(size).slots;
    }

    ghost function Abs(): Tray
      reads this, slots
    {
      history.(slots := slots[..], mutex := mutex, empty := empty, full := full)
    }

    /** The loop of every scan: the first slot that holds `from` becomes `to`. */
    method ReplaceFirst(from: Food, to: Food) returns (ok: bool)
      modifies slots
      ensures slots[..] == Replaced(old(slots[..]), from, to)
      ensures ok <==> from in old(slots[..])
      ensures ok <==> FirstIndex(old(slots[..]), from) < slots.Length
      ensures ok ==> FirstReplaced(old(slots[..]), slots[..], from, to)
      ensures !ok ==> slots[..] == old(slots[..])
    {
      ok := false;
      for i := 0 to slots.Length
        invariant slots[..] == old(slots[..]) && !ok
        invariant forall j :: 0 <= j < i ==> slots[j] != from
      {
        if slots[i] == from {
          slots[i] := to;
          ok := true;
          assert old(slots[..])[i] == from;
          assert FirstIndex(old(slots[..]), from) == i by {
            assert forall j :: 0 <= j < i ==> old(slots[..])[j] != from;
          }
          assert from !in old(slots[..])[..i] && slots[..] == old(slots[..])[i := to];
          return;
        }
      }
      assert forall j :: 0 <= j < |old(slots[..])| ==> old(slots[..])[j] != from;
    }

    /** What process p does between its lock and its unlock; `tray` is this tray with its history. */
    method ScanTray(p: Proc, ghost tray: Tray) returns (ok: bool)
      requires DishOf(p) == dish && tray.slots == slots[..]
      modifies slots
      ensures Scan(tray, p).0.slots == slots[..] && Scan(tray, p).1 == ok
      ensures ScanOutcome(old(slots[..]), slots[..], p.role.Chef? || p.role.AddOnce?, dish == Vegan, ok)
    {
      ScanHasOutcome(tray, p);
      if IsPlacer(p) {
        ok := ReplaceFirst(EMPTY, FoodOf(dish));
      } else {
        ok := ReplaceFirst(FoodOf(dish), EMPTY);
      }
    }

    /**
      add_vegan_dish_once, add_nonvegan_dish_once, eat_vegan_once or eat_nonvegan_once from start to
      end, as process p runs it; None when its first sem_wait would block.
    */
    method Once(p: Proc) returns (r: Option<bool>)
      requires DishOf(p) == dish && mutex > 0
      modifies this, slots
      ensures r.None? <==> FirstSemaphore(old(Abs()), p) == 0
      ensures r.None? ==> Abs() == old(Abs())
      ensures r.Some? ==> Abs() == Iteration(old(Abs()), p).0
      ensures r.Some? ==>
        ScanOutcome(old(slots[..]), slots[..], p.role.Chef? || p.role.AddOnce?, dish == Vegan, r.value)
    {
      if (if IsPlacer(p) then empty else full) == 0 {
        return None;
      }
      ghost var before := Abs();
      if IsPlacer(p) {
        empty := empty - 1;
      } else {
        full := full - 1;
      }
      ghost var taken := Abs();
      mutex := mutex - 1;
      var ok := ScanTray(p, taken);
      history := Scan(taken, p).0;
      mutex := mutex + 1;
      assert Abs() == Scan(taken, p).0;
      if IsPlacer(p) && !IsSilent(p) {
        full := full + 1;
      } else {
        empty := empty + 1;
      }
      r := Some(ok);
    }

    /** print_tray_status counts the slots that are not EMPTY. */
    method CountDishes() returns (n: nat)
      ensures n == Occupied(Abs())
    {
      n := 0;
      assert slots[..0] == [];
      for i := 0 to slots.Length
        invariant n == Sum(slots[..i], Full)
      {
        assert slots[..i + 1] == slots[..i] + [slots[i]];
        SumConcat(slots[..i], [slots[i]], Full);
        assert Sum([slots[i]], Full) == Full(slots[i]);
        if slots[i] != EMPTY {
          n := n + 1;
        }
      }
      assert slots[..slots.Length] == slots[..];
    }
  }

  /**
    Repeating one of the one-shot adds on a fresh tray. In both cases the first `size` calls place a
    dish. After that add_vegan_dish_once blocks; add_nonvegan_dish_once does not, however often it is
    called (unless there are no slots at all), but returns 0, and `full` has not moved.
  */
  method RepeatAdd(d: Dish, size: nat, calls: nat)
    returns (placed: nat, blocked: bool, dishes: nat, empty: nat, full: nat)
    ensures placed == dishes == if calls <= size then calls else size
    ensures blocked <==> calls > size && (d.Vegan? || size == 0)
    ensures full == (if d.Vegan? then placed else 0) && empty == size - full
  {
    var tray := new SharedTray(d, size);
    placed, blocked := 0, false;
    var p := Proc(AddOnce(d), Start, false, 0);
    SumBounds(tray.slots[..], Full, 0, 0);
    for k := 0 to calls
      invariant fresh(tray) && fresh(tray.slots) && tray.dish == d && tray.slots.Length == size
      invariant tray.mutex == 1 && tray.full == (if d.Vegan? then placed else 0) && tray.empty == size - tray.full
      invariant SlotsOk(tray.Abs(), d, size) && Occupied(tray.Abs()) == placed
      invariant placed == (if k <= size then k else size) && !blocked
      invariant d.Vegan? || size == 0 ==> k <= size
    {
      ghost var before := tray.Abs();
      var r := tray.Once(p);
      if r.None? {
        blocked := true;
        break;
      }
      ghost var taken := before.(empty := before.empty - 1);
      ScanCounts(taken, p, size);
      EmptyMeansRoom(before, d, size);
      if r.value {
        placed := placed + 1;
      }
    }
    dishes := tray.CountDishes();
    empty, full := tray.empty, tray.full;
  }

  /** A tray with a free slot is not full, and the other way round. */
  lemma EmptyMeansRoom(tray: Tray, d: Dish, size: nat)
    requires SlotsOk(tray, d, size)
    ensures EMPTY in tray.slots <==> Occupied(tray) < size
  {
    SumBounds(tray.slots, Full, 0, 1);
    if EMPTY in tray.slots {
      var i :| 0 <= i < size && tray.slots[i] == EMPTY;
      SumUpdate(tray.slots, i, VEGAN, Full);
      SumBounds(tray.slots[i := VEGAN], Full, 0, 1);
    } else {
      SumBounds(tray.slots, Full, 1, 1);
    }
  }
}
