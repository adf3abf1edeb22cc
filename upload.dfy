/**
 * Bulk upload of a meal plan: each already-parsed row is either accepted as a
 * new shared meal or turned into one numbered error, and the errors are
 * summarised with at most ten of them listed.
 */
module Upload {
  import opened Wrappers
  import opened Text
  import opened Meals

  /**
   * One parsed cell: the text `str()` gives of a value, or Python's `None`
   * (a short CSV line, an empty spreadsheet cell), whose `str()` is "None".
   */
  datatype Cell = Str(text: string) | NoneCell

  /** A row as the CSV or spreadsheet reader hands it over: column name to cell. */
  type Row = map<string, Cell>

  /** `str(row.get(key, ""))` */
  function Field(row: Row, key: string): (r: string)
    ensures key !in row ==> r == []
    ensures key in row && row[key].Str? ==> r == row[key].text
    ensures key in row && row[key].NoneCell? ==> r != []
  {
    if key !in row then ""
    else match row[key]
      case Str(t) => t
      case NoneCell => "None"
  }

  /** The columns an accepted row contributes to the new `meal_plans` row. */
  datatype NewMeal = NewMeal(planDate: int, mealType: string, dishName: string, description: string, calories: int)

  datatype ErrorKind =
    | MissingFields                   // "Missing required fields"
    | InvalidMealType(mealType: string) // "Invalid meal_type '<mt>'"
    | Raised(message: string)         // the text of an exception raised while converting the row

  /** `f"Row {i}: ..."`, counting from 2 over the rows the reader yields (blank lines and empty spreadsheet rows are not counted). */
  datatype UploadError = UploadError(row: nat, kind: ErrorKind)

  datatype Outcome = Insert(meal: NewMeal) | Reject(error: UploadError)

  /** `date.fromisoformat`: the day number, or the text of the `ValueError` it raises. */
  type DateParser = string -> Result<int, string>

  /**
   * The five numeric conversions of the row (`int(float(... or 0))` for the
   * calories, `float(... or 0)` for the macros): the calories, or the text of
   * the first exception raised.
   */
  type NumberParser = Row -> Result<int, string>

  /** An accepted row has a valid meal type and a dish name. */
  predicate Admissible(o: Outcome) {
    o.Insert? ==> IsMealType(o.meal.mealType) && o.meal.dishName != []
  }

  /**
   * The checks the upload loop makes on row number `n`, in the source's
   * order, given the row's cleaned text and the outcome of converting its date
   * and its numbers.
   */
  function Judge(n: nat, planDate: string, mealType: string, dishName: string, description: string,
                 date: Result<int, string>, numbers: Result<int, string>): (r: Outcome)
    ensures r.Reject? ==> r.error.row == n
    ensures Admissible(r)
  {
    if planDate == [] || mealType == [] || dishName == [] then
      Reject(UploadError(n, MissingFields))
    else if !IsMealType(mealType) then
      Reject(UploadError(n, InvalidMealType(mealType)))
    else
      match date
      case Failure(e) => Reject(UploadError(n, Raised(e)))
      case Success(day) =>
        match numbers
        case Failure(e) => Reject(UploadError(n, Raised(e)))
        case Success(calories) => Insert(NewMeal(day, mealType, dishName, description, calories))
  }

  /** The validation of one row of the file: its stripped fields, then `Judge`. */
  function ClassifyRow(row: Row, n: nat, parseDate: DateParser, numbers: NumberParser): (r: Outcome)
    ensures r.Reject? ==> r.error.row == n
    ensures Admissible(r)
  {
    var planDate := Strip(Field(row, "plan_date"));
    Judge(n, planDate, Lower(Strip(Field(row, "meal_type"))), Strip(Field(row, "dish_name")),
          Strip(Field(row, "description")), parseDate(planDate), numbers(row))
  }

  /** A Python `None` cell reads as the text "None", so it never counts as a missing field. */
  lemma NoneCellNotMissing(row: Row, key: string)
    requires key in row && row[key].NoneCell?
    ensures Strip(Field(row, key)) == "None"
  {
    assert !IsSpace('N') && !IsSpace('e');
  }

  lemma MealTypeNonEmpty(t: string)
    requires IsMealType(t)
    ensures t != []
  {
    var k :| 0 <= k < |MealTypeOrder| && MealTypeOrder[k] == t;
    assert |MealTypeOrder[k]| > 0;
  }

  lemma JudgeOutcomes(n: nat, planDate: string, mealType: string, dishName: string, description: string,
                      date: Result<int, string>, numbers: Result<int, string>)
    ensures var r := Judge(n, planDate, mealType, dishName, description, date, numbers);
            r == Reject(UploadError(n, MissingFields)) <==> planDate == [] || mealType == [] || dishName == []
    ensures var r := Judge(n, planDate, mealType, dishName, description, date, numbers);
            r.Insert? <==> planDate != [] && dishName != [] && IsMealType(mealType) && date.Success? && numbers.Success?
    ensures var r := Judge(n, planDate, mealType, dishName, description, date, numbers);
            r.Insert? ==> r.meal == NewMeal(date.value, mealType, dishName, description, numbers.value)
    ensures var r := Judge(n, planDate, mealType, dishName, description, date, numbers);
            r == Reject(UploadError(n, InvalidMealType(mealType))) <==>
              planDate != [] && mealType != [] && dishName != [] && !IsMealType(mealType)
    ensures var r := Judge(n, planDate, mealType, dishName, description, date, numbers);
            planDate != [] && dishName != [] && IsMealType(mealType) && date.Failure? ==>
              r == Reject(UploadError(n, Raised(date.error)))
  {
    if IsMealType(mealType) {
      MealTypeNonEmpty(mealType);
    }
  }

  /** A row is refused as incomplete exactly when the date, the meal type or the dish name is blank. */
  lemma RejectsIncompleteRow(row: Row, n: nat, parseDate: DateParser, numbers: NumberParser)
    ensures ClassifyRow(row, n, parseDate, numbers) == Reject(UploadError(n, MissingFields)) <==>
              Strip(Field(row, "plan_date")) == [] || Strip(Field(row, "meal_type")) == []
              || Strip(Field(row, "dish_name")) == []
  {
    var planDate := Strip(Field(row, "plan_date"));
    var mealType := Strip(Field(row, "meal_type"));
    assert |Lower(mealType)| == |mealType|;
    JudgeOutcomes(n, planDate, Lower(mealType), Strip(Field(row, "dish_name")),
                  Strip(Field(row, "description")), parseDate(planDate), numbers(row));
  }

  /**
   * A row is accepted exactly when its date and dish name are present, its
   * meal type is one of the six, and the date and the numbers convert; the
   * new meal carries the stripped text and the converted values.
   */
  lemma AcceptsCompleteRow(row: Row, n: nat, parseDate: DateParser, numbers: NumberParser)
    ensures var r := ClassifyRow(row, n, parseDate, numbers);
            r.Insert? <==>
              && Strip(Field(row, "plan_date")) != []
              && Strip(Field(row, "dish_name")) != []
              && IsMealType(Lower(Strip(Field(row, "meal_type"))))
              && parseDate(Strip(Field(row, "plan_date"))).Success?
              && numbers(row).Success?
    ensures var r := ClassifyRow(row, n, parseDate, numbers);
            r.Insert? ==>
              && r.meal.planDate == parseDate(Strip(Field(row, "plan_date"))).value
              && r.meal.mealType == Lower(Strip(Field(row, "meal_type")))
              && r.meal.dishName == Strip(Field(row, "dish_name"))
              && r.meal.description == Strip(Field(row, "description"))
              && r.meal.calories == numbers(row).value
  {
    var planDate := Strip(Field(row, "plan_date"));
    JudgeOutcomes(n, planDate, Lower(Strip(Field(row, "meal_type"))), Strip(Field(row, "dish_name")),
                  Strip(Field(row, "description")), parseDate(planDate), numbers(row));
  }

  /** The outcome of every row, row index `i` being numbered `i + 2`. */
  function Outcomes(rows: seq<Row>, parseDate: DateParser, numbers: NumberParser): (r: seq<Outcome>)
    ensures |r| == |rows|
    ensures forall i :: 0 <= i < |r| ==> Admissible(r[i]) && (r[i].Reject? ==> r[i].error.row == i + 2)
  {
    seq(|rows|, i requires 0 <= i < |rows| => ClassifyRow(rows[i], i + 2, parseDate, numbers))
  }

  /** The accepted meals, in row order. */
  function Accepted(outs: seq<Outcome>): (r: seq<NewMeal>)
    ensures |r| <= |outs|
    ensures forall m :: m in r <==> Insert(m) in outs
    ensures (forall i :: 0 <= i < |outs| ==> Admissible(outs[i])) ==>
              forall k :: 0 <= k < |r| ==> IsMealType(r[k].mealType) && r[k].dishName != []
  {
    if outs == [] then []
    else
      Accepted(outs[..|outs| - 1])
      + match outs[|outs| - 1]
        case Insert(m) => [m]
        case Reject(_) => []
  }

  /** The errors, in row order. */
  function Errors(outs: seq<Outcome>): (r: seq<UploadError>)
    ensures |r| <= |outs|
    ensures forall e :: e in r <==> Reject(e) in outs
  {
    if outs == [] then []
    else
      Errors(outs[..|outs| - 1])
      + match outs[|outs| - 1]
        case Insert(_) => []
        case Reject(e) => [e]
  }

  /** Every row yields exactly one outcome: `inserted + len(errors) == len(rows)`. */
  lemma {:induction false} EveryRowAccounted(outs: seq<Outcome>)
    ensures |Accepted(outs)| + |Errors(outs)| == |outs|
  {
    if outs != [] {
      EveryRowAccounted(outs[..|outs| - 1]);
    }
  }

  /** Rows numbered from 2 in the order the reader yields them. */
  predicate Numbered(outs: seq<Outcome>) {
    forall i :: 0 <= i < |outs| && outs[i].Reject? ==> outs[i].error.row == i + 2
  }

  /** The errors name rows of the file, each at most once, in increasing order. */
  lemma {:induction false} ErrorRowsIncrease(outs: seq<Outcome>)
    requires Numbered(outs)
    ensures forall k :: 0 <= k < |Errors(outs)| ==> 2 <= Errors(outs)[k].row < |outs| + 2
    ensures forall a, b :: 0 <= a < b < |Errors(outs)| ==> Errors(outs)[a].row < Errors(outs)[b].row
  {
    if outs != [] {
      var init := outs[..|outs| - 1];
      assert Numbered(init) by {
        forall i | 0 <= i < |init| && init[i].Reject? ensures init[i].error.row == i + 2 {
          assert init[i] == outs[i];
        }
      }
      ErrorRowsIncrease(init);
    }
  }

  /** Row `i` is rejected exactly when a reported error names its number `i + 2`. */
  lemma ErrorNamesRejectedRow(outs: seq<Outcome>, i: nat)
    requires Numbered(outs) && i < |outs|
    ensures outs[i].Reject? <==> exists e :: e in Errors(outs) && e.row == i + 2
  {
    if outs[i].Reject? {
      assert outs[i].error in Errors(outs);
    }
  }

  /** How the error list is reported: at most ten listed, then a count of the rest. */
  datatype Summary = Summary(listed: seq<UploadError>, more: Option<nat>)

  const MaxListedErrors: nat := 10

  /** `errors[:10]`, and the `...and N more errors` line exactly when there are more than ten. */
  function SummarizeErrors(errors: seq<UploadError>): (s: Summary)
    ensures |s.listed| <= MaxListedErrors && |s.listed| <= |errors|
    ensures s.listed == errors[..|s.listed|]
    ensures |s.listed| == |errors| || |s.listed| == MaxListedErrors
    ensures s.more.Some? <==> |errors| > MaxListedErrors
    ensures s.more.Some? ==> |s.listed| + s.more.value == |errors|
  {
    if |errors| <= MaxListedErrors then Summary(errors, None)
    else Summary(errors[..MaxListedErrors], Some(|errors| - MaxListedErrors))
  }

  /** The text of one error, `f"Row {i}: ..."`. */
  function ErrorMessage(e: UploadError): (r: string)
    ensures |r| >= 4 + |NatToString(e.row)| + 2
    ensures r[..4] == "Row " && r[4..4 + |NatToString(e.row)|] == NatToString(e.row)
    ensures r[4 + |NatToString(e.row)|..4 + |NatToString(e.row)| + 2] == ": "
    ensures e.kind.MissingFields? ==> r[4 + |NatToString(e.row)| + 2..] == "Missing required fields"
    ensures e.kind.InvalidMealType? ==> Contains(r, "Invalid meal_type '" + e.kind.mealType + "'")
    ensures e.kind.Raised? ==> r[4 + |NatToString(e.row)| + 2..] == e.kind.message
  {
    var n := NatToString(e.row);
    var detail := match e.kind
      case MissingFields => "Missing required fields"
      case InvalidMealType(mt) => "Invalid meal_type '" + mt + "'"
      case Raised(msg) => msg;
    var r := "Row " + n + ": " + detail;
    assert r[..4] == "Row ";
    assert r[4..4 + |n|] == n;
    assert r[4 + |n|..4 + |n| + 2] == ": ";
    assert r[4 + |n| + 2..] == detail;
    assert OccursAt(r, detail, 4 + |n| + 2);
    r
  }

  /** `"".join(f"<li>{m}</li>" for m in msgs)` */
  function Items(msgs: seq<string>): string {
    if msgs == [] then "" else Items(msgs[..|msgs| - 1]) + "<li>" + msgs[|msgs| - 1] + "</li>"
  }

  /** The texts of the errors, in order. */
  function Messages(errors: seq<UploadError>): (r: seq<string>)
    ensures |r| == |errors|
    ensures forall i :: 0 <= i < |errors| ==> r[i] == ErrorMessage(errors[i])
  {
    seq(|errors|, i requires 0 <= i < |errors| => ErrorMessage(errors[i]))
  }

  /** `"".join(f"<li>{e}</li>" for e in errors)` */
  function ListItems(errors: seq<UploadError>): string {
    Items(Messages(errors))
  }

  /** One error is one list item holding its message. */
  lemma ListItemsSingle(e: UploadError)
    ensures ListItems([e]) == "<li>" + ErrorMessage(e) + "</li>"
  {
    var m := ErrorMessage(e);
    assert Messages([e]) == [m];
    assert [m][..0] == [];
    assert Items([m]) == Items([]) + "<li>" + m + "</li>";
  }

  /** Joining two runs of messages joins each run, in order. */
  lemma {:induction false} ItemsAppend(a: seq<string>, b: seq<string>)
    ensures Items(a + b) == Items(a) + Items(b)
    decreases |b|
  {
    if b == [] {
      assert a + b == a;
    } else {
      var b' := b[..|b| - 1];
      assert (a + b)[..|a + b| - 1] == a + b';
      assert (a + b)[|a + b| - 1] == b[|b| - 1];
      ItemsAppend(a, b');
    }
  }

  /** The items of two runs of errors are the items of each, in order. */
  lemma ListItemsAppend(a: seq<UploadError>, b: seq<UploadError>)
    ensures ListItems(a + b) == ListItems(a) + ListItems(b)
  {
    assert Messages(a + b) == Messages(a) + Messages(b);
    ItemsAppend(Messages(a), Messages(b));
  }

  /** `error_html`: empty without errors, else the list, then the count line when more than ten. */
  function ErrorHtml(errors: seq<UploadError>): (html: string)
    ensures html == [] <==> errors == []
    ensures |errors| > MaxListedErrors ==>
              var tail := "<p>...and " + NatToString(|errors| - MaxListedErrors) + " more errors</p>";
              |tail| <= |html| && html[|html| - |tail|..] == tail
    ensures 0 < |errors| <= MaxListedErrors ==> |html| >= 5 && html[|html| - 5..] == "</ul>"
    ensures errors != [] ==>
              html == "<ul class='error-list'>"
                      + ListItems(if |errors| <= MaxListedErrors then errors else errors[..MaxListedErrors])
                      + "</ul>"
                      + (if |errors| <= MaxListedErrors then ""
                         else "<p>...and " + NatToString(|errors| - MaxListedErrors) + " more errors</p>")
  {
    if errors == [] then ""
    else
      var s := SummarizeErrors(errors);
      var list := "<ul class='error-list'>" + ListItems(s.listed) + "</ul>";
      match s.more
      case None => list
      case Some(k) => list + "<p>...and " + NatToString(k) + " more errors</p>"
  }
}
