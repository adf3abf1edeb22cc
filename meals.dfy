/**
 * The meal-plan tables as values: a meal-plan row, a preparation-check row,
 * the visibility rule that lets a profile see shared meals and its own, and
 * the two queries the day and week views run against the tables.
 */
module Meals {
  import opened Wrappers

  /** `MEAL_TYPE_ORDER`: the six slots in display order, and the values the schema's `CHECK` admits. */
  const MealTypeOrder: seq<string> :=
    ["breakfast", "morning_snack", "lunch", "afternoon_snack", "dinner", "evening_snack"]

  predicate IsMealType(t: string) {
    t in MealTypeOrder
  }

  /**
   * A `meal_plans` row. Dates are day numbers (day 0 is a Monday); the four
   * floating-point macro columns are not part of this model. A `None`
   * profile is a shared meal.
   */
  datatype MealPlan = MealPlan(
    id: int,
    planDate: int,
    mealType: string,
    dishName: string,
    description: string,
    calories: int,
    profileId: Option<int>)

  /** A `meal_checks` row; `isPrepared` is the 0/1 column `is_prepared`. */
  datatype MealCheck = MealCheck(id: int, profileId: int, mealPlanId: int, isPrepared: bool)

  /** `profile_id IS NULL OR profile_id = ?` */
  predicate Visible(m: MealPlan, profile: int) {
    m.profileId.None? || m.profileId.value == profile
  }

  predicate InRange(m: MealPlan, lo: int, hi: int) {
    lo <= m.planDate <= hi
  }

  /**
   * `SELECT * FROM meal_plans WHERE plan_date BETWEEN lo AND hi AND (profile_id
   * IS NULL OR profile_id = ?)`, rows kept in table order; the day view asks
   * for the one-day range `lo == hi`.
   */
  function VisibleBetween(plans: seq<MealPlan>, profile: int, lo: int, hi: int): (r: seq<MealPlan>)
    ensures |r| <= |plans|
    ensures forall m :: m in r <==> m in plans && Visible(m, profile) && InRange(m, lo, hi)
  {
    if plans == [] then []
    else
      var last := plans[|plans| - 1];
      var init := plans[..|plans| - 1];
      assert plans == init + [last];
      VisibleBetween(init, profile, lo, hi) + (if Visible(last, profile) && InRange(last, lo, hi) then [last] else [])
  }

  /** `SELECT meal_plan_id FROM meal_checks WHERE profile_id = ? AND is_prepared = 1` */
  function PreparedIds(checks: seq<MealCheck>, profile: int): (r: set<int>)
    ensures forall i :: 0 <= i < |checks| && checks[i].profileId == profile && checks[i].isPrepared ==>
              checks[i].mealPlanId in r
    ensures forall id :: id in r ==>
              exists i :: 0 <= i < |checks| && checks[i].profileId == profile && checks[i].isPrepared
                          && checks[i].mealPlanId == id
    ensures (forall i :: 0 <= i < |checks| ==> checks[i].profileId != profile) ==> r == {}
  {
    set c | c in checks && c.profileId == profile && c.isPrepared :: c.mealPlanId
  }

  // ---------------------------------------------------------------- lemmas

  /** Adding a row to the table adds it to the query result exactly when it matches. */
  lemma VisibleBetweenAppend(plans: seq<MealPlan>, m: MealPlan, profile: int, lo: int, hi: int)
    ensures VisibleBetween(plans + [m], profile, lo, hi) ==
      VisibleBetween(plans, profile, lo, hi) + (if Visible(m, profile) && InRange(m, lo, hi) then [m] else [])
  {
    assert (plans + [m])[..|plans|] == plans;
  }

  /** Narrowing a range query to one day inside it gives that day's query. */
  lemma {:induction false} NarrowToDay(plans: seq<MealPlan>, profile: int, lo: int, hi: int, d: int)
    requires lo <= d <= hi
    ensures Only(VisibleBetween(plans, profile, lo, hi), d) == VisibleBetween(plans, profile, d, d)
  {
    if plans != [] {
      var init := plans[..|plans| - 1];
      NarrowToDay(init, profile, lo, hi, d);
      OnlyAppend(VisibleBetween(init, profile, lo, hi),
        if Visible(plans[|plans| - 1], profile) && InRange(plans[|plans| - 1], lo, hi) then [plans[|plans| - 1]] else [], d);
    }
  }

  /** The rows of `ms` dated `d`, in order. */
  function Only(ms: seq<MealPlan>, d: int): (r: seq<MealPlan>)
    ensures forall m :: m in r <==> m in ms && m.planDate == d
  {
    if ms == [] then []
    else
      var init := ms[..|ms| - 1];
      assert ms == init + [ms[|ms| - 1]];
      Only(init, d) + (if ms[|ms| - 1].planDate == d then [ms[|ms| - 1]] else [])
  }

  lemma {:induction false} OnlyAppend(a: seq<MealPlan>, b: seq<MealPlan>, d: int)
    ensures Only(a + b, d) == Only(a, d) + Only(b, d)
    decreases |b|
  {
    if b == [] {
      assert a + b == a;
    } else {
      var binit := b[..|b| - 1];
      assert (a + b)[..|a + b| - 1] == a + binit;
      assert b[..|b| - 1] == binit;
      OnlyAppend(a, binit, d);
    }
  }
}
