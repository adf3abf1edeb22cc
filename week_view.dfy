/**
 * The history page's week view: seven day buckets from the Monday of the
 * requested week, each with its meals and its counts of meals and of
 * prepared meals.
 */
module WeekView {
  import opened Meals

  /**
   * `date.weekday()`, Monday being 0. Day numbers are `date.toordinal() - 1`,
   * so day 0 (0001-01-01) is a Monday and the weekday is the Euclidean remainder.
   */
  function Weekday(d: int): (r: int)
    ensures 0 <= r < 7
  {
    d % 7
  }

  /**
   * `today - timedelta(days=today.weekday()) + timedelta(weeks=week_offset)`:
   * a Monday, whose week holds the day `7 * offset` days from today.
   */
  function WeekStart(today: int, offset: int): (r: int)
    ensures Weekday(r) == 0
    ensures r <= today + 7 * offset <= r + 6
  {
    var r := today - Weekday(today) + 7 * offset;
    assert today == 7 * (today / 7) + Weekday(today);
    assert r == 7 * (today / 7 + offset);
    r
  }

  /** One meal as the week view shows it. The label lookup `MEAL_TYPE_LABELS.get` is not modelled. */
  datatype WeekMeal = WeekMeal(dishName: string, mealType: string, calories: int, isChecked: bool)

  /** `days[d]`: the date, its meals, and the `total` and `prepared` counters. */
  datatype DayBucket = DayBucket(date: int, meals: seq<WeekMeal>, total: nat, prepared: nat)

  datatype WeekPage = WeekPage(
    start: int,
    end: int,
    days: seq<DayBucket>,
    prevOffset: int,
    nextOffset: int,
    currentOffset: int)

  function WeekEntry(m: MealPlan, checked: set<int>): WeekMeal {
    WeekMeal(m.dishName, m.mealType, m.calories, m.id in checked)
  }

  function Entries(ms: seq<MealPlan>, checked: set<int>): (r: seq<WeekMeal>)
    ensures |r| == |ms|
  {
    seq(|ms|, i requires 0 <= i < |ms| => WeekEntry(ms[i], checked))
  }

  /** The meals of the loaded rows dated `d`, in load order. */
  function BucketMeals(ms: seq<MealPlan>, d: int, checked: set<int>): seq<WeekMeal> {
    Entries(Only(ms, d), checked)
  }

  /** How many of `ws` are marked prepared. */
  function PreparedCount(ws: seq<WeekMeal>): (r: nat)
    ensures r <= |ws|
    ensures r == |ws| <==> forall i :: 0 <= i < |ws| ==> ws[i].isChecked
    ensures r == 0 <==> forall i :: 0 <= i < |ws| ==> !ws[i].isChecked
  {
    if ws == [] then 0
    else PreparedCount(ws[..|ws| - 1]) + (if ws[|ws| - 1].isChecked then 1 else 0)
  }

  /** The bucket the history loop builds for day `d` from the loaded rows `ms`. */
  function Bucket(ms: seq<MealPlan>, d: int, checked: set<int>): (r: DayBucket)
    ensures r.date == d && r.total == |r.meals| == |Only(ms, d)| && r.prepared <= r.total
    ensures forall k :: 0 <= k < |r.meals| ==> (r.meals[k].isChecked <==> Only(ms, d)[k].id in checked)
  {
    var meals := BucketMeals(ms, d, checked);
    DayBucket(d, meals, |meals|, PreparedCount(meals))
  }

  lemma BucketStep(ms: seq<MealPlan>, j: nat, checked: set<int>)
    requires j < |ms|
    ensures forall d :: d != ms[j].planDate ==> Bucket(ms[..j + 1], d, checked) == Bucket(ms[..j], d, checked)
    ensures BucketMeals(ms[..j + 1], ms[j].planDate, checked)
            == BucketMeals(ms[..j], ms[j].planDate, checked) + [WeekEntry(ms[j], checked)]
  {
    assert ms[..j + 1][..j] == ms[..j];
    forall d | d != ms[j].planDate
      ensures Bucket(ms[..j + 1], d, checked) == Bucket(ms[..j], d, checked)
    {
      assert Only(ms[..j + 1], d) == Only(ms[..j], d);
    }
    var a := Only(ms[..j], ms[j].planDate);
    assert Only(ms[..j + 1], ms[j].planDate) == a + [ms[j]];
    assert Entries(a + [ms[j]], checked) == Entries(a, checked) + Entries([ms[j]], checked);
  }

  lemma PreparedCountStep(ws: seq<WeekMeal>, w: WeekMeal)
    ensures PreparedCount(ws + [w]) == PreparedCount(ws) + (if w.isChecked then 1 else 0)
  {
    assert (ws + [w])[..|ws|] == ws;
  }

  /** Filing row `j` into its day's bucket appends its entry and bumps the counters. */
  lemma BucketGrows(ms: seq<MealPlan>, j: nat, checked: set<int>)
    requires j < |ms|
    ensures var b := Bucket(ms[..j], ms[j].planDate, checked);
            Bucket(ms[..j + 1], ms[j].planDate, checked)
            == DayBucket(ms[j].planDate, b.meals + [WeekEntry(ms[j], checked)], b.total + 1,
                         b.prepared + (if ms[j].id in checked then 1 else 0))
  {
    BucketStep(ms, j, checked);
    PreparedCountStep(Bucket(ms[..j], ms[j].planDate, checked).meals, WeekEntry(ms[j], checked));
  }

  /** The `for i in range(7)` loop: one empty bucket per day of the week. */
  method EmptyWeek(start: int) returns (days: map<int, DayBucket>)
    ensures forall d :: d in days <==> start <= d < start + 7
    ensures forall d :: d in days ==> days[d] == DayBucket(d, [], 0, 0)
  {
    days := map[];
    for i := 0 to 7
      invariant forall d :: d in days <==> start <= d < start + i
      invariant forall d :: d in days ==> days[d] == DayBucket(d, [], 0, 0)
    {
      days := days[start + i := DayBucket(start + i, [], 0, 0)];
    }
  }

  /** The buckets of the week after filing the rows `ms`: one per day, each equal to `Bucket`. */
  ghost predicate Filed(days: map<int, DayBucket>, ms: seq<MealPlan>, checked: set<int>, start: int) {
    && (forall d :: d in days <==> start <= d < start + 7)
    && (forall d :: d in days ==> days[d] == Bucket(ms, d, checked))
  }

  /** Filing row `j`, dated inside the week, updates its day's bucket only. */
  lemma FiledGrow(days: map<int, DayBucket>, ms: seq<MealPlan>, j: nat, checked: set<int>, start: int, b: DayBucket)
    requires j < |ms| && Filed(days, ms[..j], checked, start) && ms[j].planDate in days
    requires var old_b := days[ms[j].planDate];
             b == DayBucket(old_b.date, old_b.meals + [WeekEntry(ms[j], checked)], old_b.total + 1,
                            old_b.prepared + (if ms[j].id in checked then 1 else 0))
    ensures Filed(days[ms[j].planDate := b], ms[..j + 1], checked, start)
  {
    BucketStep(ms, j, checked);
    BucketGrows(ms, j, checked);
  }

  /** A row dated outside the week changes no bucket. */
  lemma FiledSkip(days: map<int, DayBucket>, ms: seq<MealPlan>, j: nat, checked: set<int>, start: int)
    requires j < |ms| && Filed(days, ms[..j], checked, start) && ms[j].planDate !in days
    ensures Filed(days, ms[..j + 1], checked, start)
  {
    BucketStep(ms, j, checked);
  }

  /** The `for meal in meals` loop: each row dated inside the week goes to its day's bucket. */
  method FileMeals(meals: seq<MealPlan>, checked: set<int>, start: int, empty: map<int, DayBucket>)
    returns (days: map<int, DayBucket>)
    requires forall d :: d in empty <==> start <= d < start + 7
    requires forall d :: d in empty ==> empty[d] == DayBucket(d, [], 0, 0)
    ensures forall d :: d in days <==> start <= d < start + 7
    ensures forall d :: d in days ==> days[d] == Bucket(meals, d, checked)
  {
    days := empty;
    assert forall d :: Bucket(meals[..0], d, checked) == DayBucket(d, [], 0, 0);
    for j := 0 to |meals|
      invariant Filed(days, meals[..j], checked, start)
    {
      var m := meals[j];
      if m.planDate in days {
        var isChecked := m.id in checked;
        var b := days[m.planDate];
        b := b.(meals := b.meals + [WeekEntry(m, checked)], total := b.total + 1);
        if isChecked {
          b := b.(prepared := b.prepared + 1);
        }
        FiledGrow(days, meals, j, checked, start, b);
        days := days[m.planDate := b];
      } else {
        FiledSkip(days, meals, j, checked, start);
      }
    }
    assert meals[..|meals|] == meals;
  }

  /** `history`: the week's range, the seven empty buckets, then the loop over the loaded rows. */
  method History(plans: seq<MealPlan>, checks: seq<MealCheck>, profile: int, today: int, weekOffset: int)
    returns (page: WeekPage)
    ensures page.start == WeekStart(today, weekOffset) && page.end == page.start + 6
    ensures |page.days| == 7
    ensures forall i :: 0 <= i < 7 ==>
              page.days[i] == Bucket(VisibleBetween(plans, profile, page.start, page.end), page.start + i,
                                     PreparedIds(checks, profile))
    ensures page.prevOffset == weekOffset - 1 && page.nextOffset == weekOffset + 1 && page.currentOffset == weekOffset
  {
    var start := WeekStart(today, weekOffset);
    var end := start + 6;
    var meals := VisibleBetween(plans, profile, start, end);
    var checked := PreparedIds(checks, profile);
    var days := EmptyWeek(start);
    days := FileMeals(meals, checked, start, days);
    var buckets: seq<DayBucket> := [];
    for i := 0 to 7
      invariant |buckets| == i
      invariant forall k :: 0 <= k < i ==> buckets[k] == Bucket(meals, start + k, checked)
    {
      buckets := buckets + [days[start + i]];
    }
    page := WeekPage(start, end, buckets, weekOffset - 1, weekOffset + 1, weekOffset);
  }

  // ---------------------------------------------------------------- lemmas

  /** Every day of one week yields that same week, whichever weekday today is. */
  lemma WeekStartSameAllWeek(today: int, other: int, offset: int)
    requires WeekStart(today, 0) <= other <= WeekStart(today, 0) + 6
    ensures WeekStart(other, offset) == WeekStart(today, offset)
  {
    var s := WeekStart(today, 0);
    assert today == 7 * (today / 7) + Weekday(today);
    assert s == 7 * (today / 7);
    assert other == 7 * (today / 7) + (other - s);
    assert Weekday(other) == other - s;
  }

  /** A bucket counts exactly the meals the profile can see on that date. */
  lemma BucketCountsVisibleMeals(plans: seq<MealPlan>, profile: int, start: int, d: int, checked: set<int>)
    requires start <= d <= start + 6
    ensures Bucket(VisibleBetween(plans, profile, start, start + 6), d, checked).total
            == |VisibleBetween(plans, profile, d, d)|
    ensures Bucket(VisibleBetween(plans, profile, start, start + 6), d, checked).prepared
            <= Bucket(VisibleBetween(plans, profile, start, start + 6), d, checked).total
  {
    var loaded := VisibleBetween(plans, profile, start, start + 6);
    NarrowToDay(plans, profile, start, start + 6, d);
    BucketOfDay(loaded, VisibleBetween(plans, profile, d, d), d, checked);
  }

  lemma BucketOfDay(ms: seq<MealPlan>, day: seq<MealPlan>, d: int, checked: set<int>)
    requires Only(ms, d) == day
    ensures Bucket(ms, d, checked).total == |day|
    ensures Bucket(ms, d, checked).prepared <= Bucket(ms, d, checked).total
  {
  }

  /** A meal dated outside the week changes none of its buckets. */
  lemma OutsideMealIgnored(plans: seq<MealPlan>, m: MealPlan, profile: int, start: int, d: int, checked: set<int>)
    requires !InRange(m, start, start + 6)
    ensures Bucket(VisibleBetween(plans + [m], profile, start, start + 6), d, checked)
            == Bucket(VisibleBetween(plans, profile, start, start + 6), d, checked)
  {
    VisibleBetweenAppend(plans, m, profile, start, start + 6);
    assert VisibleBetween(plans + [m], profile, start, start + 6) == VisibleBetween(plans, profile, start, start + 6);
  }
}
