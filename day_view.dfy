/**
 * The dashboard's day view: which date is shown, the six meal slots for that
 * date with each meal's prepared mark, and the day's two calorie sums.
 */
module DayView {
  import opened Wrappers
  import opened Meals

  /**
   * The `view_date` query parameter: absent or empty (both falsy in Python),
   * a text `date.fromisoformat` accepts (as its day number), or one it rejects.
   */
  datatype ViewDate = Absent | Parsed(day: int) | Unparsable

  /** `ABS(julianday(a) - julianday(b))` for two dates. */
  function Distance(a: int, b: int): nat {
    if a >= b then a - b else b - a
  }

  /** Row `i` is visible and no visible row is nearer `today`, nor as near and earlier in the table. */
  predicate IsFirstNearest(plans: seq<MealPlan>, profile: int, today: int, i: int) {
    && 0 <= i < |plans|
    && Visible(plans[i], profile)
    && forall j :: 0 <= j < |plans| && Visible(plans[j], profile) ==>
         && Distance(plans[i].planDate, today) <= Distance(plans[j].planDate, today)
         && (j < i ==> Distance(plans[i].planDate, today) < Distance(plans[j].planDate, today))
  }

  /**
   * The nearest-date query (`ORDER BY ABS(julianday(plan_date) - julianday(today))
   * ASC LIMIT 1` over the visible rows). SQLite leaves the order of ties open;
   * this model gives a tie to the row that comes first in the table.
   */
  function NearestVisibleDate(plans: seq<MealPlan>, profile: int, today: int): (r: Option<int>)
    ensures r.None? <==> forall j :: 0 <= j < |plans| ==> !Visible(plans[j], profile)
    ensures r.Some? ==> exists i :: IsFirstNearest(plans, profile, today, i) && plans[i].planDate == r.value
    ensures r.Some? ==> forall j :: 0 <= j < |plans| && Visible(plans[j], profile) ==>
              Distance(r.value, today) <= Distance(plans[j].planDate, today)
  {
    if plans == [] then None
    else
      var n := |plans| - 1;
      var init := plans[..n];
      var m := plans[n];
      assert forall j :: 0 <= j < n ==> init[j] == plans[j];
      var best := NearestVisibleDate(init, profile, today);
      if !Visible(m, profile) then
        assert best.Some? ==> exists i :: IsFirstNearest(plans, profile, today, i) && plans[i].planDate == best.value by {
          if best.Some? {
            var i :| IsFirstNearest(init, profile, today, i) && init[i].planDate == best.value;
            assert IsFirstNearest(plans, profile, today, i);
          }
        }
        best
      else if best.None? || Distance(m.planDate, today) < Distance(best.value, today) then
        assert IsFirstNearest(plans, profile, today, n);
        Some(m.planDate)
      else
        assert exists i :: IsFirstNearest(plans, profile, today, i) && plans[i].planDate == best.value by {
          var i :| IsFirstNearest(init, profile, today, i) && init[i].planDate == best.value;
          assert IsFirstNearest(plans, profile, today, i);
        }
        best
  }

  /**
   * The date the dashboard shows: an explicit date as given, today for one that
   * does not parse, and for no date today unless today has no visible meal, in
   * which case the nearest visible meal's date (today if there is none at all).
   */
  function ResolveDate(plans: seq<MealPlan>, profile: int, today: int, viewDate: ViewDate): (r: int)
    ensures viewDate.Parsed? ==> r == viewDate.day
    ensures viewDate.Unparsable? ==> r == today
    ensures viewDate.Absent? && VisibleBetween(plans, profile, today, today) != [] ==> r == today
    ensures viewDate.Absent? && (forall j :: 0 <= j < |plans| ==> !Visible(plans[j], profile)) ==> r == today
    ensures viewDate.Absent? && VisibleBetween(plans, profile, today, today) == []
              && (exists j :: 0 <= j < |plans| && Visible(plans[j], profile)) ==>
              exists i :: IsFirstNearest(plans, profile, today, i) && plans[i].planDate == r
  {
    match viewDate
    case Parsed(d) => d
    case Unparsable => today
    case Absent =>
      if VisibleBetween(plans, profile, today, today) != [] then today
      else
        match NearestVisibleDate(plans, profile, today)
        case Some(d) => d
        case None => today
  }

  /** One meal as the day view shows it. */
  datatype DayMeal = DayMeal(id: int, dishName: string, description: string, calories: int, isChecked: bool)

  /** One of the six slots, `organized[mt]` in the source. */
  datatype Slot = Slot(mealType: string, meals: seq<DayMeal>)

  function Entry(m: MealPlan, checked: set<int>): DayMeal {
    DayMeal(m.id, m.dishName, m.description, m.calories, m.id in checked)
  }

  /** The meals of slot `t`: the loaded rows of that type, in load order. */
  function SlotMeals(ms: seq<MealPlan>, t: string, checked: set<int>): (r: seq<DayMeal>)
    ensures |r| <= |ms|
    ensures forall e :: e in r ==> (e.isChecked <==> e.id in checked)
    ensures forall e :: e in r ==> exists m :: m in ms && m.mealType == t && e == Entry(m, checked)
    ensures forall m :: m in ms && m.mealType == t ==> Entry(m, checked) in r
  {
    if ms == [] then []
    else
      var init := ms[..|ms| - 1];
      var m := ms[|ms| - 1];
      assert ms == init + [m];
      SlotMeals(init, t, checked) + (if m.mealType == t then [Entry(m, checked)] else [])
  }

  lemma SlotMealsStep(ms: seq<MealPlan>, i: nat, checked: set<int>)
    requires i < |ms|
    ensures forall t ::
              SlotMeals(ms[..i + 1], t, checked)
              == SlotMeals(ms[..i], t, checked) + (if ms[i].mealType == t then [Entry(ms[i], checked)] else [])
  {
    assert ms[..i + 1][..i] == ms[..i];
  }

  /** `organized = {mt: [] for mt in MEAL_TYPE_ORDER}` */
  method EmptySlots() returns (organized: map<string, seq<DayMeal>>)
    ensures forall t :: t in organized <==> IsMealType(t)
    ensures forall t :: t in organized ==> organized[t] == []
  {
    organized := map[];
    for k := 0 to |MealTypeOrder|
      invariant forall t :: t in organized <==> t in MealTypeOrder[..k]
      invariant forall t :: t in organized ==> organized[t] == []
    {
      assert MealTypeOrder[..k + 1] == MealTypeOrder[..k] + [MealTypeOrder[k]];
      organized := organized[MealTypeOrder[k] := []];
    }
    assert MealTypeOrder[..|MealTypeOrder|] == MealTypeOrder;
  }

  /** The `for meal in meals` loop: a meal whose type has a slot is appended to it. */
  method FileByType(meals: seq<MealPlan>, checked: set<int>, empty: map<string, seq<DayMeal>>)
    returns (organized: map<string, seq<DayMeal>>)
    requires forall t :: t in empty <==> IsMealType(t)
    requires forall t :: t in empty ==> empty[t] == []
    ensures forall t :: t in organized <==> IsMealType(t)
    ensures forall t :: t in organized ==> organized[t] == SlotMeals(meals, t, checked)
  {
    organized := empty;
    assert meals[..0] == [];
    for i := 0 to |meals|
      invariant forall t :: t in organized <==> IsMealType(t)
      invariant forall t :: t in organized ==> organized[t] == SlotMeals(meals[..i], t, checked)
    {
      var mt := meals[i].mealType;
      SlotMealsStep(meals, i, checked);
      if mt in organized {
        organized := organized[mt := organized[mt] + [Entry(meals[i], checked)]];
      }
    }
    assert meals[..|meals|] == meals;
  }

  /** `organized`: the six slots in `MEAL_TYPE_ORDER`, each with its loaded meals. */
  method OrganizeMeals(meals: seq<MealPlan>, checked: set<int>) returns (slots: seq<Slot>)
    ensures |slots| == |MealTypeOrder|
    ensures forall k :: 0 <= k < |slots| ==>
              slots[k].mealType == MealTypeOrder[k] && slots[k].meals == SlotMeals(meals, MealTypeOrder[k], checked)
  {
    var organized := EmptySlots();
    organized := FileByType(meals, checked, organized);
    slots := [];
    for k := 0 to |MealTypeOrder|
      invariant |slots| == k
      invariant forall j :: 0 <= j < k ==>
                  slots[j].mealType == MealTypeOrder[j] && slots[j].meals == SlotMeals(meals, MealTypeOrder[j], checked)
    {
      slots := slots + [Slot(MealTypeOrder[k], organized[MealTypeOrder[k]])];
    }
  }

  /** `sum(m["calories"] for m in meals)` */
  function TotalCalories(ms: seq<MealPlan>): (r: int)
    ensures (forall i :: 0 <= i < |ms| ==> ms[i].calories >= 0) ==> r >= 0
  {
    if ms == [] then 0 else TotalCalories(ms[..|ms| - 1]) + ms[|ms| - 1].calories
  }

  lemma TotalCaloriesSnoc(ms: seq<MealPlan>, m: MealPlan)
    ensures TotalCalories(ms + [m]) == TotalCalories(ms) + m.calories
  {
    assert (ms + [m])[..|ms|] == ms;
  }

  /** The loaded meals whose id is in `checked`, in load order. */
  function CheckedMeals(ms: seq<MealPlan>, checked: set<int>): (r: seq<MealPlan>)
    ensures forall m :: m in r <==> m in ms && m.id in checked
  {
    if ms == [] then []
    else
      var init := ms[..|ms| - 1];
      assert ms == init + [ms[|ms| - 1]];
      CheckedMeals(init, checked) + (if ms[|ms| - 1].id in checked then [ms[|ms| - 1]] else [])
  }

  /** `sum(m["calories"] for m in meals if m["id"] in checked_ids)`: the total of the checked meals. */
  function CheckedCalories(ms: seq<MealPlan>, checked: set<int>): (r: int)
    ensures r == TotalCalories(CheckedMeals(ms, checked))
  {
    if ms == [] then 0
    else
      var m := ms[|ms| - 1];
      CheckedMealsStep(ms, checked);
      CheckedCalories(ms[..|ms| - 1], checked) + (if m.id in checked then m.calories else 0)
  }

  lemma CheckedMealsStep(ms: seq<MealPlan>, checked: set<int>)
    requires ms != []
    ensures TotalCalories(CheckedMeals(ms, checked))
            == TotalCalories(CheckedMeals(ms[..|ms| - 1], checked)) + (if ms[|ms| - 1].id in checked then ms[|ms| - 1].calories else 0)
  {
    var m := ms[|ms| - 1];
    var c := CheckedMeals(ms[..|ms| - 1], checked);
    assert CheckedMeals(ms, checked) == c + (if m.id in checked then [m] else []);
    if m.id in checked {
      TotalCaloriesSnoc(c, m);
    } else {
      assert c + [] == c;
    }
  }

  /** The total of a concatenation is the sum of the totals: the order of summation does not matter. */
  lemma {:induction false} TotalCaloriesAppend(a: seq<MealPlan>, b: seq<MealPlan>)
    ensures TotalCalories(a + b) == TotalCalories(a) + TotalCalories(b)
    decreases |b|
  {
    if b == [] {
      assert a + b == a;
    } else {
      var binit := b[..|b| - 1];
      TotalCaloriesAppend(a, binit);
      assert a + b == (a + binit) + [b[|b| - 1]];
      TotalCaloriesSnoc(a + binit, b[|b| - 1]);
      assert b == binit + [b[|b| - 1]];
      TotalCaloriesSnoc(binit, b[|b| - 1]);
    }
  }

  /** What the dashboard template receives. */
  datatype DayPage = DayPage(
    selectedDate: int,
    slots: seq<Slot>,
    totalCalories: int,
    checkedCalories: int,
    isToday: bool,
    prevDate: int,
    nextDate: int)

  /** `dashboard`, from the date resolution to the template context. */
  method Dashboard(plans: seq<MealPlan>, checks: seq<MealCheck>, profile: int, today: int, viewDate: ViewDate)
    returns (page: DayPage)
    ensures page.selectedDate == ResolveDate(plans, profile, today, viewDate)
    ensures var meals := VisibleBetween(plans, profile, page.selectedDate, page.selectedDate);
            var checked := PreparedIds(checks, profile);
            && |page.slots| == |MealTypeOrder|
            && (forall k :: 0 <= k < |page.slots| ==>
                  page.slots[k] == Slot(MealTypeOrder[k], SlotMeals(meals, MealTypeOrder[k], checked)))
            && page.totalCalories == TotalCalories(meals)
            && page.checkedCalories == CheckedCalories(meals, checked)
    ensures page.isToday <==> page.selectedDate == today
    ensures page.prevDate == page.selectedDate - 1 && page.nextDate == page.selectedDate + 1
  {
    var selected := ResolveDate(plans, profile, today, viewDate);
    var meals := VisibleBetween(plans, profile, selected, selected);
    var checked := PreparedIds(checks, profile);
    var slots := OrganizeMeals(meals, checked);
    page := DayPage(selected, slots, TotalCalories(meals), CheckedCalories(meals, checked),
                    selected == today, selected - 1, selected + 1);
  }

  // ---------------------------------------------------------------- lemmas

  /** With no date requested, the dashboard lands on a populated day whenever the profile can see any meal. */
  lemma DefaultLandsOnPopulatedDay(plans: seq<MealPlan>, profile: int, today: int)
    requires exists j :: 0 <= j < |plans| && Visible(plans[j], profile)
    ensures var d := ResolveDate(plans, profile, today, Absent);
            VisibleBetween(plans, profile, d, d) != []
  {
    var d := ResolveDate(plans, profile, today, Absent);
    if VisibleBetween(plans, profile, today, today) == [] {
      var i :| IsFirstNearest(plans, profile, today, i) && plans[i].planDate == d;
      assert plans[i] in VisibleBetween(plans, profile, d, d);
    }
  }

  /** An explicitly requested date is shown even when it is empty: there is no fallback. */
  lemma ExplicitDateHasNoFallback(plans: seq<MealPlan>, profile: int, today: int, d: int)
    ensures ResolveDate(plans, profile, today, Parsed(d)) == d
    ensures ResolveDate(plans, profile, today, Unparsable) == today
  {
  }

  function SlotSize(ms: seq<MealPlan>, k: nat, checked: set<int>): nat
    requires k < |MealTypeOrder|
  {
    |SlotMeals(ms, MealTypeOrder[k], checked)|
  }

  /** The number of meals filed over all six slots. */
  function FiledCount(ms: seq<MealPlan>, checked: set<int>): nat {
    SlotSize(ms, 0, checked) + SlotSize(ms, 1, checked) + SlotSize(ms, 2, checked)
    + SlotSize(ms, 3, checked) + SlotSize(ms, 4, checked) + SlotSize(ms, 5, checked)
  }

  /** Under the schema's `CHECK` on `meal_type`, the slots together hold every loaded meal exactly once. */
  lemma {:induction false} SlotsPartitionMeals(ms: seq<MealPlan>, checked: set<int>)
    requires forall i :: 0 <= i < |ms| ==> IsMealType(ms[i].mealType)
    ensures FiledCount(ms, checked) == |ms|
  {
    if ms != [] {
      var init := ms[..|ms| - 1];
      var m := ms[|ms| - 1];
      SlotsPartitionMeals(init, checked);
      forall k | 0 <= k < |MealTypeOrder|
        ensures SlotSize(ms, k, checked) == SlotSize(init, k, checked) + (if m.mealType == MealTypeOrder[k] then 1 else 0)
      {
      }
    }
  }

  /** With non-negative calories, the prepared sum never exceeds the day's total. */
  lemma {:induction false} CheckedAtMostTotal(ms: seq<MealPlan>, checked: set<int>)
    requires forall i :: 0 <= i < |ms| ==> ms[i].calories >= 0
    ensures 0 <= CheckedCalories(ms, checked) <= TotalCalories(ms)
  {
    if ms != [] {
      CheckedAtMostTotal(ms[..|ms| - 1], checked);
    }
  }

  /** When every loaded meal is prepared, both sums agree; when none is, the prepared sum is 0. */
  lemma {:induction false} CheckedCaloriesExtremes(ms: seq<MealPlan>, checked: set<int>)
    ensures (forall i :: 0 <= i < |ms| ==> ms[i].id in checked) ==> CheckedCalories(ms, checked) == TotalCalories(ms)
    ensures (forall i :: 0 <= i < |ms| ==> ms[i].id !in checked) ==> CheckedCalories(ms, checked) == 0
  {
    if ms != [] {
      CheckedCaloriesExtremes(ms[..|ms| - 1], checked);
    }
  }

  /** An empty day: six empty slots and two zero sums. */
  lemma EmptyDay(checked: set<int>)
    ensures forall k :: 0 <= k < |MealTypeOrder| ==> SlotMeals([], MealTypeOrder[k], checked) == []
    ensures TotalCalories([]) == 0 && CheckedCalories([], checked) == 0
  {
  }

  /** The worked example: 350, 420 and 480 kcal with the 420 kcal meal prepared. */
  lemma SampleDayTotals(d: int)
    ensures var ms := [MealPlan(1, d, "breakfast", "Oats", "", 350, None),
                       MealPlan(2, d, "lunch", "Grilled Chicken Salad", "", 420, None),
                       MealPlan(3, d, "dinner", "Salmon with Vegetables", "", 480, None)];
            TotalCalories(ms) == 1250 && CheckedCalories(ms, {2}) == 420
  {
    var ms := [MealPlan(1, d, "breakfast", "Oats", "", 350, None),
               MealPlan(2, d, "lunch", "Grilled Chicken Salad", "", 420, None),
               MealPlan(3, d, "dinner", "Salmon with Vegetables", "", 480, None)];
    assert ms[..2] == [ms[0], ms[1]];
    assert ms[..2][..1] == [ms[0]];
    assert ms[..2][..1][..0] == [];
    assert TotalCalories(ms[..2][..1]) == 350;
    assert TotalCalories(ms[..2]) == 770;
    assert CheckedCalories(ms[..2][..1], {2}) == 0;
    assert CheckedCalories(ms[..2], {2}) == 420;
  }
}
