/**
 * The two meal tables as a mutable store, with the three operations that write
 * them: toggling a profile's "prepared" mark on a meal, the administrator's
 * deletion of a meal, and the bulk upload of validated rows.
 */
module MealStore {
  import opened Wrappers
  import opened Meals
  import opened Upload

  /** `meal_plans.id` is the primary key. */
  predicate UniqueIds(plans: seq<MealPlan>) {
    forall i, j :: 0 <= i < j < |plans| ==> plans[i].id != plans[j].id
  }

  /** `UNIQUE(profile_id, meal_plan_id)` on `meal_checks`. */
  predicate UniquePairs(checks: seq<MealCheck>) {
    forall i, j :: 0 <= i < j < |checks| ==>
      checks[i].profileId != checks[j].profileId || checks[i].mealPlanId != checks[j].mealPlanId
  }

  predicate HasPlan(plans: seq<MealPlan>, id: int) {
    exists m :: m in plans && m.id == id
  }

  predicate SamePair(c: MealCheck, profile: int, mealPlanId: int) {
    c.profileId == profile && c.mealPlanId == mealPlanId
  }

  /** `SELECT * FROM meal_checks WHERE profile_id = ? AND meal_plan_id = ?`: the row's index, if any. */
  function FindCheck(checks: seq<MealCheck>, profile: int, mealPlanId: int): (r: Option<nat>)
    ensures r.Some? ==> r.value < |checks| && SamePair(checks[r.value], profile, mealPlanId)
    ensures r.None? ==> forall i :: 0 <= i < |checks| ==> !SamePair(checks[i], profile, mealPlanId)
  {
    if checks == [] then None
    else if SamePair(checks[0], profile, mealPlanId) then Some(0)
    else match FindCheck(checks[1..], profile, mealPlanId)
      case None =>
        assert forall i :: 1 <= i < |checks| ==> checks[i] == checks[1..][i - 1];
        None
      case Some(i) => Some(i + 1)
  }

  /** A new `meal_plans` row for an uploaded meal: shared (no profile), with the key it is given. */
  function AsPlan(m: NewMeal, id: int): (r: MealPlan)
    ensures r.id == id && r.profileId.None?
    ensures forall profile :: Visible(r, profile)
  {
    MealPlan(id, m.planDate, m.mealType, m.dishName, m.description, m.calories, None)
  }

  /** The rows the upload inserts, keyed consecutively from `firstId`. */
  function Stored(ms: seq<NewMeal>, firstId: int): (r: seq<MealPlan>)
    ensures |r| == |ms|
    ensures forall k :: 0 <= k < |r| ==> r[k].id == firstId + k && r[k].mealType == ms[k].mealType
  {
    seq(|ms|, k requires 0 <= k < |ms| => AsPlan(ms[k], firstId + k))
  }

  /** `DELETE FROM meal_plans WHERE id = ?` */
  function WithoutPlan(plans: seq<MealPlan>, id: int): (r: seq<MealPlan>)
    ensures |r| <= |plans|
    ensures forall m :: m in r <==> m in plans && m.id != id
    ensures UniqueIds(plans) ==> UniqueIds(r)
  {
    if plans == [] then []
    else
      var init := plans[..|plans| - 1];
      var last := plans[|plans| - 1];
      assert plans == init + [last];
      var kept := WithoutPlan(init, id);
      assert UniqueIds(plans) ==> UniqueIds(kept) && forall m :: m in kept ==> m.id != last.id by {
        if UniqueIds(plans) {
          assert UniqueIds(init) by {
            forall i, j | 0 <= i < j < |init| ensures init[i].id != init[j].id {
              assert init[i] == plans[i] && init[j] == plans[j];
            }
          }
          forall m | m in kept ensures m.id != last.id {
            var k :| 0 <= k < |init| && init[k] == m;
            assert plans[k] == m;
          }
        }
      }
      if last.id != id then
        assert UniqueIds(plans) ==> UniqueIds(kept + [last]) by {
          if UniqueIds(plans) {
            forall i, j | 0 <= i < j < |kept + [last]| ensures (kept + [last])[i].id != (kept + [last])[j].id {
              if j == |kept| {
                assert (kept + [last])[i] in kept;
              } else {
                assert (kept + [last])[i] == kept[i] && (kept + [last])[j] == kept[j];
              }
            }
          }
        }
        kept + [last]
      else kept
  }

  /** `DELETE FROM meal_checks WHERE meal_plan_id = ?` */
  function WithoutChecksOf(checks: seq<MealCheck>, id: int): (r: seq<MealCheck>)
    ensures |r| <= |checks|
    ensures forall c :: c in r <==> c in checks && c.mealPlanId != id
    ensures UniquePairs(checks) ==> UniquePairs(r)
  {
    if checks == [] then []
    else
      var init := checks[..|checks| - 1];
      var last := checks[|checks| - 1];
      assert checks == init + [last];
      var kept := WithoutChecksOf(init, id);
      assert UniquePairs(checks) ==>
        UniquePairs(kept) && forall c :: c in kept ==> !SamePair(c, last.profileId, last.mealPlanId) by {
        if UniquePairs(checks) {
          assert UniquePairs(init) by {
            forall i, j | 0 <= i < j < |init|
              ensures init[i].profileId != init[j].profileId || init[i].mealPlanId != init[j].mealPlanId
            {
              assert init[i] == checks[i] && init[j] == checks[j];
            }
          }
          forall c | c in kept ensures !SamePair(c, last.profileId, last.mealPlanId) {
            var k :| 0 <= k < |init| && init[k] == c;
            assert checks[k] == c;
          }
        }
      }
      if last.mealPlanId != id then
        assert UniquePairs(checks) ==> UniquePairs(kept + [last]) by {
          if UniquePairs(checks) {
            var r := kept + [last];
            forall i, j | 0 <= i < j < |r|
              ensures r[i].profileId != r[j].profileId || r[i].mealPlanId != r[j].mealPlanId
            {
              if j == |kept| {
                assert r[i] in kept;
              } else {
                assert r[i] == kept[i] && r[j] == kept[j];
              }
            }
          }
        }
        kept + [last]
      else kept
  }

  /**
   * The schema's constraints: keys below the next `AUTOINCREMENT` value, the
   * `meal_type` check, one check row per profile and meal, and the foreign key
   * from `meal_checks` to `meal_plans`.
   */
  predicate Consistent(plans: seq<MealPlan>, checks: seq<MealCheck>, nextPlanId: int, nextCheckId: int) {
    && UniqueIds(plans)
    && (forall i :: 0 <= i < |plans| ==> plans[i].id < nextPlanId && IsMealType(plans[i].mealType))
    && UniquePairs(checks)
    && (forall i :: 0 <= i < |checks| ==> checks[i].id < nextCheckId && HasPlan(plans, checks[i].mealPlanId))
  }

  class MealDb {
    var plans: seq<MealPlan>
    var checks: seq<MealCheck>
    /** The next key `AUTOINCREMENT` hands out in each table. */
    var nextPlanId: int
    var nextCheckId: int

    ghost predicate Valid()
      reads this
    {
      Consistent(plans, checks, nextPlanId, nextCheckId)
    }

    constructor ()
      ensures Valid() && plans == [] && checks == []
    {
      plans := [];
      checks := [];
      nextPlanId := 1;
      nextCheckId := 1;
    }

    /**
     * `toggle_meal`: flips the flag of the profile's existing check row, or
     * inserts a prepared one. Without a row and without the meal, the insert
     * breaks the foreign key and nothing changes (`None`).
     */
    method ToggleMeal(profile: int, mealPlanId: int) returns (newVal: Option<bool>)
      requires Valid()
      modifies this`checks, this`nextCheckId
      ensures Valid()
      ensures newVal.None? <==> FindCheck(old(checks), profile, mealPlanId).None? && !HasPlan(plans, mealPlanId)
      ensures newVal.None? ==> checks == old(checks)
      ensures nextCheckId == old(nextCheckId)
                             + (if FindCheck(old(checks), profile, mealPlanId).None? && newVal.Some? then 1 else 0)
      ensures newVal.Some? ==>
                && newVal.value == (mealPlanId in PreparedIds(checks, profile))
                && newVal.value == (mealPlanId !in old(PreparedIds(checks, profile)))
      ensures forall q, m :: q != profile || m != mealPlanId ==>
                (m in PreparedIds(checks, q) <==> m in old(PreparedIds(checks, q)))
      ensures match FindCheck(old(checks), profile, mealPlanId)
              case Some(i) => checks == old(checks)[i := old(checks)[i].(isPrepared := !old(checks)[i].isPrepared)]
              case None => newVal.Some? ==> checks == old(checks) + [MealCheck(old(nextCheckId), profile, mealPlanId, true)]
    {
      var found := FindCheck(checks, profile, mealPlanId);
      match found
      case Some(i) =>
        var flag := !checks[i].isPrepared;
        PreparedAfterFlip(checks, i);
        checks := checks[i := checks[i].(isPrepared := flag)];
        newVal := Some(flag);
        assert forall k :: 0 <= k < |checks| ==> checks[k].mealPlanId == old(checks)[k].mealPlanId;
        assert Valid();
      case None =>
        if HasPlan(plans, mealPlanId) {
          var row := MealCheck(nextCheckId, profile, mealPlanId, true);
          PreparedAfterInsert(checks, row);
          checks := checks + [row];
          nextCheckId := nextCheckId + 1;
          newVal := Some(true);
          assert forall k :: 0 <= k < |old(checks)| ==> checks[k] == old(checks)[k];
        } else {
          newVal := None;
        }
    }

    /** `delete_meal`: its checks first, as the foreign key demands, then the meal. */
    method DeleteMeal(mealId: int)
      requires Valid()
      modifies this`plans, this`checks
      ensures Valid()
      ensures plans == WithoutPlan(old(plans), mealId)
      ensures checks == WithoutChecksOf(old(checks), mealId)
      ensures !HasPlan(plans, mealId)
      ensures forall q :: PreparedIds(checks, q) == old(PreparedIds(checks, q)) - {mealId}
    {
      ChecksRemoved(checks, mealId);
      DeleteKeepsConsistent(plans, checks, nextPlanId, nextCheckId, mealId);
      checks := WithoutChecksOf(checks, mealId);
      plans := WithoutPlan(plans, mealId);
    }

    /**
     * `upload_meals`: every row is validated in file order; each accepted one
     * is inserted as a shared meal under the next key, each refused one adds
     * its error.
     */
    method UploadMeals(rows: seq<Row>, parseDate: DateParser, numbers: NumberParser)
      returns (inserted: nat, errors: seq<UploadError>)
      requires Valid()
      modifies this`plans, this`nextPlanId
      ensures Valid()
      ensures checks == old(checks)
      ensures errors == Errors(Outcomes(rows, parseDate, numbers))
      ensures inserted == |Accepted(Outcomes(rows, parseDate, numbers))|
      ensures plans == old(plans) + Stored(Accepted(Outcomes(rows, parseDate, numbers)), old(nextPlanId))
      ensures nextPlanId == old(nextPlanId) + inserted
      ensures inserted + |errors| == |rows|
    {
      var outs := Outcomes(rows, parseDate, numbers);
      inserted, errors := InsertOutcomes(outs);
    }

    /** The loop of `upload_meals` over the rows' outcomes; the inserts are committed after it. */
    method InsertOutcomes(outs: seq<Outcome>) returns (inserted: nat, errors: seq<UploadError>)
      requires Valid()
      requires forall i :: 0 <= i < |outs| ==> Admissible(outs[i])
      modifies this`plans, this`nextPlanId
      ensures Valid()
      ensures checks == old(checks)
      ensures errors == Errors(outs)
      ensures inserted == |Accepted(outs)|
      ensures plans == old(plans) + Stored(Accepted(outs), old(nextPlanId))
      ensures nextPlanId == old(nextPlanId) + inserted
      ensures inserted + |errors| == |outs|
    {
      var pending := plans;
      var next := nextPlanId;
      ghost var base := plans;
      ghost var first := nextPlanId;
      inserted := 0;
      errors := [];
      for i := 0 to |outs|
        invariant UploadedUpTo(outs, i, errors, inserted, pending, next, base, first, checks, nextCheckId)
      {
        UploadAdvance(outs, i, errors, inserted, pending, next, base, first, checks, nextCheckId);
        match outs[i]
        case Reject(e) =>
          errors := errors + [e];
        case Insert(m) =>
          pending := pending + [AsPlan(m, next)];
          next := next + 1;
          inserted := inserted + 1;
      }
      assert outs[..|outs|] == outs;
      EveryRowAccounted(outs);
      plans := pending;
      nextPlanId := next;
    }
  }

  // ---------------------------------------------------------------- lemmas

  /** Under the uniqueness constraint, a pair is prepared exactly when its (single) row says so. */
  lemma PreparedAtRow(checks: seq<MealCheck>, i: nat)
    requires UniquePairs(checks) && i < |checks|
    ensures checks[i].mealPlanId in PreparedIds(checks, checks[i].profileId) <==> checks[i].isPrepared
  {
    var c := checks[i];
    if c.mealPlanId in PreparedIds(checks, c.profileId) {
      var d :| d in checks && d.profileId == c.profileId && d.isPrepared && d.mealPlanId == c.mealPlanId;
      var k :| 0 <= k < |checks| && checks[k] == d;
      assert k == i;
    }
  }

  /** Flipping row `i` flips its pair's mark and leaves every other pair's mark alone. */
  lemma PreparedAfterFlip(checks: seq<MealCheck>, i: nat)
    requires UniquePairs(checks) && i < |checks|
    ensures var after := checks[i := checks[i].(isPrepared := !checks[i].isPrepared)];
            && (checks[i].mealPlanId in PreparedIds(after, checks[i].profileId)
                <==> checks[i].mealPlanId !in PreparedIds(checks, checks[i].profileId))
            && forall q, m :: !SamePair(checks[i], q, m) ==> (m in PreparedIds(after, q) <==> m in PreparedIds(checks, q))
  {
    var after := checks[i := checks[i].(isPrepared := !checks[i].isPrepared)];
    assert UniquePairs(after) by {
      forall a, b | 0 <= a < b < |after|
        ensures after[a].profileId != after[b].profileId || after[a].mealPlanId != after[b].mealPlanId
      {
        assert after[a].profileId == checks[a].profileId && after[a].mealPlanId == checks[a].mealPlanId;
        assert after[b].profileId == checks[b].profileId && after[b].mealPlanId == checks[b].mealPlanId;
      }
    }
    PreparedAtRow(checks, i);
    PreparedAtRow(after, i);
    forall q, m | !SamePair(checks[i], q, m)
      ensures m in PreparedIds(after, q) <==> m in PreparedIds(checks, q)
    {
      if m in PreparedIds(after, q) {
        var d :| d in after && d.profileId == q && d.isPrepared && d.mealPlanId == m;
        var k :| 0 <= k < |after| && after[k] == d;
        assert k != i && checks[k] == d;
      }
      if m in PreparedIds(checks, q) {
        var d :| d in checks && d.profileId == q && d.isPrepared && d.mealPlanId == m;
        var k :| 0 <= k < |checks| && checks[k] == d;
        assert k != i && after[k] == d;
      }
    }
  }

  /** Appending a prepared row for a pair without one marks that pair and no other. */
  lemma PreparedAfterInsert(checks: seq<MealCheck>, row: MealCheck)
    requires row.isPrepared
    requires forall i :: 0 <= i < |checks| ==> !SamePair(checks[i], row.profileId, row.mealPlanId)
    ensures UniquePairs(checks) ==> UniquePairs(checks + [row])
    ensures row.mealPlanId in PreparedIds(checks + [row], row.profileId)
    ensures row.mealPlanId !in PreparedIds(checks, row.profileId)
    ensures forall q, m :: !SamePair(row, q, m) ==> (m in PreparedIds(checks + [row], q) <==> m in PreparedIds(checks, q))
  {
    var after := checks + [row];
    assert row in after;
    if UniquePairs(checks) {
      forall a, b | 0 <= a < b < |after|
        ensures after[a].profileId != after[b].profileId || after[a].mealPlanId != after[b].mealPlanId
      {
        assert after[a] == checks[a];
        if b < |checks| { assert after[b] == checks[b]; }
      }
    }
  }

  /** Deleting a meal's checks removes exactly that meal from every profile's prepared set. */
  lemma ChecksRemoved(checks: seq<MealCheck>, id: int)
    ensures forall q :: PreparedIds(WithoutChecksOf(checks, id), q) == PreparedIds(checks, q) - {id}
  {
    var kept := WithoutChecksOf(checks, id);
    forall q ensures PreparedIds(kept, q) == PreparedIds(checks, q) - {id} {
      forall m | m in PreparedIds(checks, q) - {id} ensures m in PreparedIds(kept, q) {
        var d :| d in checks && d.profileId == q && d.isPrepared && d.mealPlanId == m;
        assert d in kept;
      }
    }
  }

  /** What the upload loop has done once the first `i` outcomes are handled. */
  predicate UploadedUpTo(outs: seq<Outcome>, i: nat, errors: seq<UploadError>, inserted: nat, pending: seq<MealPlan>,
                         next: int, base: seq<MealPlan>, first: int, checks: seq<MealCheck>, nextCheckId: int)
  {
    && i <= |outs|
    && errors == Errors(outs[..i])
    && inserted == |Accepted(outs[..i])|
    && pending == base + Stored(Accepted(outs[..i]), first)
    && next == first + inserted
    && Consistent(pending, checks, next, nextCheckId)
  }

  lemma UploadAdvance(outs: seq<Outcome>, i: nat, errors: seq<UploadError>, inserted: nat, pending: seq<MealPlan>,
                      next: int, base: seq<MealPlan>, first: int, checks: seq<MealCheck>, nextCheckId: int)
    requires UploadedUpTo(outs, i, errors, inserted, pending, next, base, first, checks, nextCheckId)
    requires i < |outs| && Admissible(outs[i])
    ensures outs[i].Reject? ==>
              UploadedUpTo(outs, i + 1, errors + [outs[i].error], inserted, pending, next, base, first, checks, nextCheckId)
    ensures outs[i].Insert? ==>
              UploadedUpTo(outs, i + 1, errors, inserted + 1, pending + [AsPlan(outs[i].meal, next)], next + 1,
                           base, first, checks, nextCheckId)
  {
    UploadStep(outs, i, first);
    if outs[i].Insert? {
      InsertAdvance(outs, i, errors, inserted, pending, next, base, first, checks, nextCheckId);
    }
  }

  lemma InsertAdvance(outs: seq<Outcome>, i: nat, errors: seq<UploadError>, inserted: nat, pending: seq<MealPlan>,
                      next: int, base: seq<MealPlan>, first: int, checks: seq<MealCheck>, nextCheckId: int)
    requires UploadedUpTo(outs, i, errors, inserted, pending, next, base, first, checks, nextCheckId)
    requires i < |outs| && outs[i].Insert? && Admissible(outs[i])
    ensures UploadedUpTo(outs, i + 1, errors, inserted + 1, pending + [AsPlan(outs[i].meal, next)], next + 1,
                         base, first, checks, nextCheckId)
  {
    var m := outs[i].meal;
    UploadStep(outs, i, first);
    InsertKeepsConsistent(pending, checks, next, nextCheckId, m);
    var stored := Stored(Accepted(outs[..i]), first);
    assert Accepted(outs[..i + 1]) == Accepted(outs[..i]) + [m];
    assert Stored(Accepted(outs[..i + 1]), first) == stored + [AsPlan(m, next)];
    assert base + stored + [AsPlan(m, next)] == base + (stored + [AsPlan(m, next)]);
  }

  /** One step of the upload loop, on the spec functions. */
  lemma UploadStep(outs: seq<Outcome>, i: nat, firstId: int)
    requires i < |outs|
    ensures Errors(outs[..i + 1]) ==
              Errors(outs[..i]) + match outs[i] case Reject(e) => [e] case Insert(_) => []
    ensures Accepted(outs[..i + 1]) ==
              Accepted(outs[..i]) + match outs[i] case Insert(m) => [m] case Reject(_) => []
    ensures outs[i].Insert? ==>
              Stored(Accepted(outs[..i + 1]), firstId)
              == Stored(Accepted(outs[..i]), firstId) + [AsPlan(outs[i].meal, firstId + |Accepted(outs[..i])|)]
  {
    assert outs[..i + 1][..i] == outs[..i];
    if outs[i].Insert? {
      var a := Accepted(outs[..i]);
      var m := outs[i].meal;
      assert Stored(a + [m], firstId) == Stored(a, firstId) + [AsPlan(m, firstId + |a|)];
    }
  }

  /** Deleting a meal's checks and then the meal keeps the constraints, the foreign key included. */
  lemma DeleteKeepsConsistent(plans: seq<MealPlan>, checks: seq<MealCheck>, nextPlanId: int, nextCheckId: int, id: int)
    requires Consistent(plans, checks, nextPlanId, nextCheckId)
    ensures Consistent(WithoutPlan(plans, id), WithoutChecksOf(checks, id), nextPlanId, nextCheckId)
    ensures !HasPlan(WithoutPlan(plans, id), id)
  {
    var ps := WithoutPlan(plans, id);
    var cs := WithoutChecksOf(checks, id);
    forall i | 0 <= i < |cs| ensures cs[i].id < nextCheckId && HasPlan(ps, cs[i].mealPlanId) {
      assert cs[i] in checks;
      var k :| 0 <= k < |checks| && checks[k] == cs[i];
      assert HasPlan(plans, checks[k].mealPlanId);
      var m :| m in plans && m.id == cs[i].mealPlanId;
      assert m in ps;
    }
    forall i | 0 <= i < |ps| ensures ps[i].id < nextPlanId && IsMealType(ps[i].mealType) {
      assert ps[i] in plans;
      var k :| 0 <= k < |plans| && plans[k] == ps[i];
    }
  }

  /** Appending an admissible meal under the next key keeps the constraints. */
  lemma InsertKeepsConsistent(plans: seq<MealPlan>, checks: seq<MealCheck>, nextPlanId: int, nextCheckId: int, m: NewMeal)
    requires Consistent(plans, checks, nextPlanId, nextCheckId) && IsMealType(m.mealType)
    ensures Consistent(plans + [AsPlan(m, nextPlanId)], checks, nextPlanId + 1, nextCheckId)
  {
    var ps := plans + [AsPlan(m, nextPlanId)];
    forall i | 0 <= i < |checks| ensures HasPlan(ps, checks[i].mealPlanId) {
      assert HasPlan(plans, checks[i].mealPlanId);
      var p :| p in plans && p.id == checks[i].mealPlanId;
      assert p in ps;
    }
    forall i, j | 0 <= i < j < |ps| ensures ps[i].id != ps[j].id {
      assert ps[i] == plans[i];
      if j < |plans| { assert ps[j] == plans[j]; }
    }
  }

  /** Under the uniqueness constraint the lookup finds the pair's only row. */
  lemma FindUnique(checks: seq<MealCheck>, i: nat)
    requires UniquePairs(checks) && i < |checks|
    ensures FindCheck(checks, checks[i].profileId, checks[i].mealPlanId) == Some(i)
  {
  }

  /** Toggling twice restores every prepared set; with an existing row, the rows themselves. */
  method ToggleTwice(db: MealDb, profile: int, mealPlanId: int) returns (first: Option<bool>, second: Option<bool>)
    requires db.Valid()
    modifies db
    ensures db.Valid()
    ensures forall q :: PreparedIds(db.checks, q) == old(PreparedIds(db.checks, q))
    ensures first.Some? <==> second.Some?
    ensures first.Some? ==> second.value == !first.value
    ensures FindCheck(old(db.checks), profile, mealPlanId).Some? ==> db.checks == old(db.checks)
  {
    ghost var found := FindCheck(db.checks, profile, mealPlanId);
    first := db.ToggleMeal(profile, mealPlanId);
    if found.Some? {
      FindUnique(db.checks, found.value);
    }
    second := db.ToggleMeal(profile, mealPlanId);
    forall q ensures PreparedIds(db.checks, q) == old(PreparedIds(db.checks, q)) {
      assert forall m :: m in PreparedIds(db.checks, q) <==> m in old(PreparedIds(db.checks, q));
    }
  }
}
