# Diet-Plan core, modelled in Dafny

This project models the deterministic core of the Diet-Plan web application.
The application is a FastAPI service that shows household members their
planned meals day by day and week by week. Members tick meals off as
prepared. An administrator uploads meal plans in bulk and picks the AI model
used for recipe look-ups. The recipe look-up asks Groq or OpenRouter for an
HTML recipe and caches the answer per dish and model.

The database tables are sequences of records, and dates are integer day
numbers, with day 0 a Monday. The environment is a map. The HTTP exchange
with the AI provider is an argument that says what came back.
The modules follow the program:

- `Wrappers`: `Option` and `Result`.
- `Text`: Python's `str.lower()` on ASCII letters, `str.strip()` with the full
  set of characters `str.isspace()` accepts, the `in` substring test, and
  decimal rendering of a natural number.
- `UserAgent`: `parse_user_agent`, three first-match substring chains.
- `Meals`: the `meal_plans` and `meal_checks` rows, the visibility rule
  (a shared meal or one of the caller's own), and the queries the views run.
- `DayView`: the dashboard. It resolves the date, files the meals into the
  six slots of `MEAL_TYPE_ORDER` and computes the two calorie sums. The
  slot filing is written as the source's loops over a dictionary.
- `WeekView`: the history page. It anchors the week on Monday, builds seven
  day buckets, and files the week's meals into them with their counters.
- `Upload`: the bulk-upload validator. Each already-parsed row becomes one
  accepted meal or one numbered error, and the error report lists at most ten.
- `MealStore`: a class `MealDb` owning the two tables and the next keys.
  It carries the toggle, the cascading delete and the upload insert loop.
  Every method keeps the schema's constraints: the `meal_type` check, one
  check row per profile and meal, and the foreign key from checks to plans.
- `RecipeService`: the default-model choice, the recipe cache and its key,
  the prompt, and the request. `query_ai` is a method on a class holding the
  model rows and the cache map. Its contract is a decision function `Plan`
  that says whether the method answers at once or sends a request.

## Model

| member | source | states |
|---|---|---|
| `Text.Lower` | main.py:627 | keeps the length, maps each ASCII capital A-Z to its small letter and every other character to itself, so no capital is left |
| `Text.LowerIdempotent` | ai_service.py:40 | lower-casing twice is lower-casing once |
| `Text.LowerAppend` | main.py:45 | lower-casing distributes over concatenation |
| `Text.TrimLeft` | main.py:626 | the result is a suffix of the input; what it drops is all whitespace; it starts with a non-space; it is empty exactly for an all-blank input |
| `Text.TrimRight` | main.py:626 | the mirror image of `TrimLeft` at the end of the string |
| `Text.Strip` | main.py:626-628 | `str.strip()` is never longer than its input and empties an all-whitespace text; its other properties are the `Strip*` lemmas below |
| `Text.StripIsInfix` | main.py:626-628 | `strip()` returns a slice of its input with only whitespace on either side |
| `Text.StripEnds` | main.py:626-628 | a stripped text is empty or starts and ends with a non-space; it is empty exactly when the input is all whitespace (the "missing field" test) |
| `Text.StripIgnoresPadding` | main.py:626-628 | surrounding a text with whitespace does not change its stripped form |
| `Text.StripIdempotent` | main.py:626-628 | stripping twice is stripping once |
| `Text.TrimLeftSpacePrefix` | main.py:626 | a leading blank prefix is dropped entirely |
| `Text.TrimRightSpaceSuffix` | main.py:626 | a trailing blank suffix is dropped entirely |
| `Text.Contains` | main.py:48 | `t in s` holds exactly when `t` occurs at some index of `s` |
| `Text.ContainsExtend` | main.py:48 | a substring stays a substring when text is added on both sides |
| `Text.NatToString` | ai_service.py:154 | the rendering of a number is a non-empty run of decimal digits, one digit exactly below ten |
| `UserAgent.DetectOs` | main.py:48-57 | the first match of the chain: Windows iff "windows"; macOS iff no "windows" but "mac os" or "macintosh"; Linux iff neither of those but "linux"; Android iff none of those but "android"; iOS iff none of those but "iphone" or "ipad"; Unknown iff none of the seven markers occurs |
| `UserAgent.DetectBrowser` | main.py:60-69 | the first match of the chain: Edge iff "edg/"; Chrome iff no "edg/" but "chrome" and "safari"; Firefox iff neither of those but "firefox"; Safari iff none of those and no "chrome" but "safari"; Opera iff none of "edg/", "firefox", "safari" but "opera" or "opr/"; Unknown iff no marker occurs |
| `UserAgent.DetectDevice` | main.py:71-77 | never Unknown; Mobile iff "mobile", "android" or "iphone" occurs; Tablet iff not Mobile and "tablet" or "ipad" occurs |
| `UserAgent.ParseUserAgent` | main.py:39-79 | the device is never Unknown |
| `UserAgent.ParseIgnoresCase` | main.py:45 | two headers alike up to ASCII case are classified alike |
| `UserAgent.ParseOfLowered` | main.py:45 | classifying the lower-cased header gives the same verdict |
| `UserAgent.WindowsHeaderIsWindows` | main.py:45-49 | a desktop header naming "Windows" in capitals is classified as Windows once lower-cased |
| `UserAgent.LinuxBeforeAndroid` | main.py:52-55 | a header naming Linux and Android but not Windows or macOS is Linux, and Mobile |
| `UserAgent.EdgeBeforeChrome` | main.py:60-63 | any header with "edg/" is Edge, whatever else it contains |
| `UserAgent.ChromeBeforeFirefoxAndSafari` | main.py:62-67 | Chrome plus Safari without "edg/" is Chrome, even when Firefox is named |
| `UserAgent.FirstRulesSurviveExtension` | main.py:45-77 | a Windows, Edge or Mobile verdict survives adding any text around the header |
| `UserAgent.MarkerSurvivesExtension` | main.py:45 | a marker found in the lower-cased header is still found after text is added around it |
| `UserAgent.MobileBeforeTablet` | main.py:72-75 | with "ipad" present, the device is Tablet exactly when no mobile marker occurs |
| `Meals.VisibleBetween` | main.py:396-400 | a row is loaded exactly when it is in the table, visible to the profile and dated inside the range |
| `Meals.VisibleBetweenAppend` | main.py:396-400 | the query is order-preserving: a new row adds itself at the end exactly when it matches |
| `Meals.Only` | main.py:421-423 | a loaded row goes to day `d` exactly when it is dated `d` |
| `Meals.OnlyAppend` | main.py:421-423 | the per-day selection distributes over concatenation |
| `Meals.NarrowToDay` | main.py:240-244 | selecting one day out of a range query gives that day's own query |
| `Meals.PreparedIds` | main.py:247-251 | every prepared row of the profile puts its meal in the set, every id in the set comes from such a row, and a profile without rows has the empty set |
| `DayView.NearestVisibleDate` | main.py:228-237 | none exactly when no row is visible; otherwise a visible row at minimal day distance from today, ties going to the earliest row |
| `DayView.ResolveDate` | main.py:200-237 | an explicit date is kept; an unparsable one gives today; with no date, today when it has visible meals or nothing is visible, else the nearest visible date |
| `DayView.DefaultLandsOnPopulatedDay` | main.py:219-237 | with no date asked for, the chosen day shows at least one meal whenever any meal is visible |
| `DayView.ExplicitDateHasNoFallback` | main.py:201-205 | an explicit or unparsable date never triggers the nearest-date search |
| `DayView.SlotMeals` | main.py:261-274 | a slot holds entries of loaded meals of its type only, every such meal is in it, and an entry is checked exactly when its id is in the checked set |
| `DayView.EmptySlots` | main.py:254-259 | the initial dictionary has one empty list per meal type and nothing else |
| `DayView.FileByType` | main.py:261-274 | after the loop each slot holds its type's meals in load order |
| `DayView.OrganizeMeals` | main.py:253-274 | six slots, in `MEAL_TYPE_ORDER`, each with its type's meals in load order, empty slots included |
| `DayView.SlotsPartitionMeals` | main.py:261-274 | when every meal type is one of the six, the slot sizes add up to the number of loaded meals |
| `DayView.TotalCalories` | main.py:277 | the day's total is non-negative when every meal's calories are |
| `DayView.TotalCaloriesAppend` | main.py:277 | the total of two runs of meals is the sum of their totals |
| `DayView.CheckedMeals` | main.py:278 | exactly the loaded meals whose id is checked |
| `DayView.CheckedCalories` | main.py:278 | the prepared sum is the total of exactly the checked meals |
| `DayView.CheckedAtMostTotal` | main.py:277-278 | with non-negative calories, 0 <= prepared sum <= total sum |
| `DayView.CheckedCaloriesExtremes` | main.py:277-278 | all meals prepared: the sums agree; none prepared: the prepared sum is 0 |
| `DayView.EmptyDay` | main.py:253-278 | an empty day has six empty slots and two zero sums |
| `DayView.SampleDayTotals` | main.py:277-278 | 350, 420 and 480 kcal with the 420 kcal meal prepared give 1250 and 420 |
| `DayView.Dashboard` | main.py:194-302 | the page shows the resolved date, the six slots of its visible meals, the two sums, the today flag and the neighbouring dates |
| `WeekView.Weekday` | main.py:387 | the weekday is in 0..6 |
| `WeekView.WeekStart` | main.py:387-388 | the week start is a Monday, and the week holds the day `7 * offset` days from today |
| `WeekView.WeekStartSameAllWeek` | main.py:387 | every day of a week yields the same week start |
| `WeekView.PreparedCount` | main.py:431-433 | the prepared counter is at most the total; it equals the total iff all entries are checked, and is 0 iff none is |
| `WeekView.Bucket` | main.py:421-433 | a bucket carries its date, one entry per loaded meal of that date with `total` equal to their number, each entry checked iff its meal's id is, and prepared <= total |
| `WeekView.EmptyWeek` | main.py:410-419 | exactly the seven days from the start get a bucket, each empty with zero counters |
| `WeekView.FileMeals` | main.py:421-433 | after the loop each of the seven buckets holds its day's meals in load order, with matching counters |
| `WeekView.History` | main.py:379-450 | the range is start..start+6 from the Monday rule; seven consecutive buckets, each built from the visible meals of the week; the offsets are -1, +1 and unchanged |
| `WeekView.BucketCountsVisibleMeals` | main.py:421-433 | a bucket's total is the number of visible meals on its date, and prepared <= total |
| `WeekView.OutsideMealIgnored` | main.py:396-400 | a meal dated outside the week changes none of its buckets |
| `Upload.Judge` | main.py:630-658 | a rejection carries the row's number; an accepted meal has a valid type and a dish name |
| `Upload.ClassifyRow` | main.py:624-658 | one row's outcome, with the same two guarantees |
| `Upload.Field` | main.py:626-628 | `str(row.get(key, ""))`: an absent column reads as empty text, a text cell as itself, and a `None` cell as non-empty text |
| `Upload.NoneCellNotMissing` | main.py:626-630 | a Python `None` cell reads, once stripped, as the text "None", so it never counts as a missing field |
| `Upload.JudgeOutcomes` | main.py:630-656 | missing fields iff a field is blank; invalid type iff complete but not one of the six; a bad date is reported before the numbers are converted; insert iff complete, valid, the date parses and the numbers convert; the inserted meal carries the cleaned fields |
| `Upload.RejectsIncompleteRow` | main.py:626-632 | a row is refused as incomplete exactly when its stripped date, stripped lower-cased type or stripped dish name is empty |
| `Upload.AcceptsCompleteRow` | main.py:626-656 | a row is accepted exactly when all checks pass, and the new meal has the stripped fields and the lower-cased type |
| `Upload.Outcomes` | main.py:624-658 | one outcome per row; every error names row `i + 2` for index `i` |
| `Upload.Accepted` | main.py:641-656 | the inserted meals are exactly the accepted outcomes, all admissible |
| `Upload.Errors` | main.py:630-658 | the errors are exactly the rejected outcomes |
| `Upload.EveryRowAccounted` | main.py:624-658 | `inserted + len(errors) == len(rows)` |
| `Upload.ErrorRowsIncrease` | main.py:624-658 | error row numbers lie in 2..len(rows)+1 and strictly increase |
| `Upload.ErrorNamesRejectedRow` | main.py:624-658 | row `i` is rejected exactly when an error names row `i + 2` |
| `Upload.SummarizeErrors` | main.py:664-668 | at most ten errors are listed, they are the first ones, and the "more" count is present exactly above ten and completes the total |
| `Upload.ErrorMessage` | main.py:631-658 | every message is "Row ", the row number in decimal and ": ", followed by the fixed missing-fields text, the invalid-type text quoting the offending type, or the raised exception's own text |
| `Upload.ListItemsSingle` | main.py:666 | one error becomes one `<li>` item holding its message |
| `Upload.ItemsAppend` | main.py:666 | joining two runs of messages as list items joins each run, in order |
| `Upload.ListItemsAppend` | main.py:666 | the items of two runs of errors are the items of each, in order |
| `Upload.ErrorHtml` | main.py:664-668 | empty exactly without errors; otherwise the error list holding one item per error among the first ten, in order, followed by the "...and N more errors" line exactly when there are more than ten |
| `MealStore.FindCheck` | main.py:313-317 | the index of a check row for the pair, or none exactly when no row has the pair |
| `MealStore.AsPlan` | main.py:641-655 | an uploaded meal gets the given key and no profile, so every profile sees it |
| `MealStore.Stored` | main.py:641-656 | the uploaded rows get consecutive keys and keep their meal types |
| `MealStore.WithoutPlan` | main.py:740 | exactly the plans with another id remain, and the ids stay unique |
| `MealStore.WithoutChecksOf` | main.py:739 | exactly the checks of other meals remain, and the pairs stay unique |
| `MealStore.MealDb.ToggleMeal` | main.py:313-331 | keeps the constraints; flips an existing row in place, otherwise appends one prepared row under the next check key and advances that key; the new flag is the negation of the old prepared state; every other pair is unchanged; without a row and without the meal the foreign key refuses the insert and nothing changes |
| `MealStore.MealDb.DeleteMeal` | main.py:732-745 | keeps the constraints; removes the meal and its checks; every profile's prepared set loses exactly that meal |
| `MealStore.MealDb.UploadMeals` | main.py:619-660 | keeps the constraints and the checks; appends exactly the accepted rows under consecutive keys; errors are the rejected rows; `inserted + len(errors) == len(rows)` |
| `MealStore.MealDb.InsertOutcomes` | main.py:622-660 | the loop over the outcomes, with the same contract stated over outcomes |
| `MealStore.PreparedAtRow` | main.py:319-320 | under the uniqueness constraint, a pair is prepared exactly when its row says so |
| `MealStore.PreparedAfterFlip` | main.py:319-324 | flipping a row flips its pair's mark, keeps the uniqueness, and leaves every other mark alone |
| `MealStore.PreparedAfterInsert` | main.py:325-330 | appending a prepared row for a pair without one marks that pair only and keeps the uniqueness |
| `MealStore.ChecksRemoved` | main.py:739 | removing a meal's checks removes exactly that meal from every prepared set |
| `MealStore.DeleteKeepsConsistent` | main.py:739-740 | deleting the checks and then the meal keeps all constraints, the foreign key included |
| `MealStore.InsertKeepsConsistent` | main.py:641-656 | appending a valid meal under the next key keeps all constraints |
| `MealStore.FindUnique` | main.py:313-317 | under the uniqueness constraint, the lookup finds the pair's only row |
| `MealStore.ToggleTwice` | main.py:319-330 | toggling twice restores every prepared set; both calls succeed or both fail, with opposite flags; when a row existed the rows are restored |
| `RecipeService.FirstDefault` | ai_service.py:16-17 | the first row flagged default, or none exactly when no row is flagged |
| `RecipeService.DefaultModel` | ai_service.py:13-23 | none exactly for an empty table; a flagged row when one exists; otherwise the first row |
| `RecipeService.WithDefault` | main.py:1035-1036 | a row is flagged exactly when its id is the argument; no other field changes |
| `RecipeService.DefaultAfterSet` | main.py:1035-1036 | after marking an existing model, the default model is that model |
| `RecipeService.DefaultAfterSetUnknown` | main.py:1035-1036 | marking an id no row has leaves no flag, so the first row is the default |
| `RecipeService.SingleDefaultAfterSet` | main.py:1035-1036 | with unique ids, at most one row is flagged afterwards |
| `RecipeService.CachedRecipe` | ai_service.py:35-45 | a recipe is found exactly when the normalised dish and the model are a key of the cache |
| `RecipeService.PutRecipe` | ai_service.py:48-57 | insert-or-replace: the keys afterwards are the old keys plus the normalised one |
| `RecipeService.PutThenGet` | ai_service.py:48-57 | after a put, a get under the same normalised key and model returns the new HTML; every other key reads as before |
| `RecipeService.NormaliseKey` | ai_service.py:40 | `lower().strip()`: the key is never longer than the dish name and holds no upper-case ASCII letter |
| `RecipeService.KeyIgnoresCase` | ai_service.py:40 | dish names alike up to ASCII case have the same key |
| `RecipeService.KeyIgnoresPadding` | ai_service.py:40 | surrounding whitespace does not change the key |
| `RecipeService.KeyIdempotent` | ai_service.py:53 | a normalised key normalises to itself |
| `RecipeService.BuildPrompt` | ai_service.py:60-92 | the prompt is the fixed text with the dish name in its two places, so its length is the fixed length plus twice the dish's |
| `RecipeService.PromptQuotesDish` | ai_service.py:60-65 | the prompt starts with the fixed head, quotes the dish right after it, and ends with the fixed tail |
| `RecipeService.BuildPromptInjective` | ai_service.py:60-92 | different dishes give different prompts |
| `RecipeService.ResolveKey` | ai_service.py:105-120 | a non-empty stored key wins; otherwise the provider's environment variable, else empty |
| `RecipeService.BuildRequest` | ai_service.py:122-139 | the provider's URL; "Bearer " plus the key; the JSON content type; the two extra headers for OpenRouter only; the model id; exactly the system and user messages; 2000 tokens, temperature 0.7 and 30 seconds |
| `RecipeService.Excerpt` | ai_service.py:154 | a prefix of the body: the whole body up to 200 characters, exactly its first 200 characters beyond that |
| `RecipeService.MissingKeyHtml` | ai_service.py:120 | the fragment for an empty key names the provider |
| `RecipeService.Respond` | ai_service.py:141-156 | a completion is returned verbatim; a timeout gives the fixed fragment; a status error gives the "AI service error" fragment with the status code, an em dash and the body's first 200 characters, so no more of the body than that reaches the page; any other error gives the "Error querying AI" fragment around its text |
| `RecipeService.Plan` | ai_service.py:95-139 | no model: the fixed fragment; a non-empty cached recipe is returned verbatim; a request is sent exactly when there is a model, no non-empty cached recipe, a known provider and a non-empty key; that request is the one built for the default model |
| `RecipeService.PlanErrors` | ai_service.py:113-120 | on a miss, an unknown provider gets its fragment and an empty key gets the fragment naming the provider, with no request |
| `RecipeService.CompletionServedNextTime` | ai_service.py:146-150 | after a non-empty completion is cached, the same dish, however spelled, is answered from the cache |
| `RecipeService.RecipeStore.SetDefaultModel` | main.py:1035-1036 | the model rows become `WithDefault` of the old rows; the cache is untouched |
| `RecipeService.RecipeStore.CacheRecipe` | ai_service.py:48-57 | the cache becomes `PutRecipe` of the old cache |
| `RecipeService.RecipeStore.QueryAi` | ai_service.py:95-156 | when `Plan` answers, that answer is returned, nothing is sent and the cache is unchanged; when it sends, that request is sent and the exchange's HTML is returned; only a completion is cached, under the dish and the model |
| `RecipeService.AskTwice` | ai_service.py:100-103 | after a non-empty completion, the second identical query is answered from the cache without a request |

## Left out

- Routing, cookies, redirects, the 401 answers, the Jinja2 templates and the labels of `MEAL_TYPE_LABELS` are presentation, so they are not modelled.
- SQL and the connections are not modelled: tables are sequences in row order, and queries are order-preserving filters.
- Where SQLite leaves an order open, the model fixes one: a tie in the nearest-date query goes to the earliest row, and `LIMIT 1` picks the first row.
- The `ORDER BY meal_type` of the week query is not modelled. Within a day bucket the meals keep table order, not the query's order.
- The day query's `ORDER BY meal_type` is not modelled either. Across slots it makes no difference, since each slot holds one meal type. Within a slot, SQL leaves the order of rows of the same type open. The model fixes table order there, which is what "in load order" means for `DayView.FileByType` and `DayView.OrganizeMeals`.
- Calendar arithmetic is not modelled. Dates are day numbers, `date.fromisoformat` is a parameter, and `strftime` day names are dropped.
- Python's date range (years 1 to 9999) is not modelled, because day numbers are unbounded. At `date.min` and `date.max` the source's `selected_date ± timedelta(days=1)` raises `OverflowError`, and so does its week start for a `week_offset` that leaves that range. The model returns `selected ± 1` and any `WeekStart`.
- Uploaded dates are stored as the parsed day number in the model. The source stores the stripped text as written. The model also assumes every stored `plan_date` is canonical `YYYY-MM-DD` text. On Python 3.11 and later, `date.fromisoformat` also accepts forms such as `20240105`. Such a row never matches the day query's `plan_date = ?` or the week query's text `BETWEEN`, yet the model files it on the day it parses to.
- The four floating-point macro columns are not modelled.
- The `int(float(...))` calorie coercion is not modelled either. It is a parameter that returns a number or the text of the error it raises.
- The temperature 0.7 is kept as 7 tenths.
- CSV and spreadsheet parsing is a library call. The model starts from parsed rows, with a cell being a text or Python's `None`.
- `Text.Lower` lower-cases ASCII letters only. Python's Unicode case mapping is not modelled.
- The HTTP exchange, its timeout and the JSON decoding are not modelled. The model takes what came back as an argument.
- Environment variables are a map.
- Concurrency, including the cache race on two simultaneous misses, is not modelled.
- Timestamps (`checked_at`, `created_at`) are not modelled.
- Activity logging is a foreign call with I/O, so it is left out. This covers `parse_user_agent`'s caller and the dish-name lookup in `toggle_meal`.
- The `profiles` table and its foreign keys are not modelled. A profile is just a number.
- `get_all_models` and the other admin routes are outside this model.
- Database failures other than the foreign-key refusal in a toggle are not modelled.
- `MealStore.MealDb.ToggleMeal`: a refused insert raises an error in the source. The model reports it as `None` with the tables unchanged.
- `Text.NatToString`: the contract states digits and length, not the decimal value.
