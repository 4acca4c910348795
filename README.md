# LIFT OS training log: a verified model of its logic

LIFT OS is a one-page workout log. A user picks an exercise from a
taxonomy of body parts, logs sets (date, body part, exercise, weight,
repetitions) to a spreadsheet, sees the last session and the personal
record, and gets coaching text from a language model. The coaching text
draws on a linear trend fitted to their weight history. This project
models the logic under the page in Dafny 4.11:

- **Taxonomy** (`taxonomy.dfy`): the body-part table `EXERCISES`. It
  covers the reverse lookup `get_body_part` (a loop with early return)
  with its `その他` fallback, the filter buttons, and the exercise list
  the dashboard builds for `All` (an extend loop) or for one body part.
- **Analytics** (`analytics.dfy`): records become a `Record` datatype
  with a day-number date and parsed weight and repetitions. An absent
  value stands for a cell that is not a number. The module defines the
  rows of one exercise, the last session, and the personal record picked
  by `idxmax` after sorting by date. It also defines the column maximum,
  Epley's one-rep-max estimate, and the guard and day-offset features of
  the weight prediction.
- **Store** (`store.dfy`): the worksheet is a `Sheet` class holding a
  sequence of text rows. `load_data` splits it into header and rows,
  `save_new_data` appends (writing the header first on an empty sheet),
  and `update_all_data` clears and rewrites. The detail view's form
  checks weight and repetitions before it saves.
- **Navigation** (`navigation.dfy`): the session-state dictionary is a
  `Session` class over a map. It covers `init_session_state`,
  `navigate_to`, the body-part filter buttons and `main`'s routing.

"Today" is a parameter. Numeric parsing is abstracted: a record carries
the parse result. The text form of a date, weight or repetition count is
a function passed in (`Store.Texts`).

The prediction guard counts an exercise's rows before non-numeric weights
are dropped (app.py:183-194), so it can let through rows that leave fewer
than three points to fit. `Analytics.GuardCountsRowsNotWeights` shows this.

Pandas' sort does not fix the order of rows with equal dates. So the
contracts claim only "a record with the greatest date" for the last
session. For the personal record they claim "greatest coerced weight, and
no earlier-dated record of that weight". The functions resolve remaining
ties toward the row inserted last (`Latest`) or first (`Best`).

Nothing in `app.py` calls `display_progressive_overload_stats`
(app.py:125) or `update_all_data` (app.py:360). Only the model reaches
the `idxmax` personal record and the clear-and-rewrite. The live page
shows the column maximum (`MaxWeight`) and the latest row of the dashboard
and detail view. `Analytics.PersonalRecordWeighsMax` proves that the two
notions of a best lift agree on weight.

## Model

| member | source | states |
|---|---|---|
| `Taxonomy.BodyPartOf` | app.py:24-29 | the result is the body part of the first list, in declaration order, that contains the name; it is `その他` when no list contains it |
| `Taxonomy.GetBodyPart` | app.py:24-29 | the scanning loop with early return computes exactly `BodyPartOf` |
| `Taxonomy.UnknownExactlyWhenUnlisted` | app.py:24-29 | when no key is `その他`, the fallback is returned if and only if no list contains the name |
| `Taxonomy.MapsBack` | app.py:16-29 | when no exercise name repeats, every exercise listed under a part maps back to that part |
| `Taxonomy.DeclaredWellFormed` | app.py:16-22 | the declared table has distinct keys, no repeated exercise name, and no key equal to `その他` or `All` |
| `Taxonomy.DeclaredFlatten` | app.py:16-22 | the declared table's `All` list is the five lists concatenated in declaration order, 23 exercises |
| `Taxonomy.DeclaredLookup` | app.py:16-29 | on the declared table, each listed exercise resolves to its own part; a name gets `その他` if and only if it is not among the 23 |
| `Taxonomy.Lookup` | app.py:520 | the dictionary subscript: absent exactly when no key equals the part, otherwise the list of an entry with that key |
| `Taxonomy.LookupEntry` | app.py:520 | with distinct keys, subscripting by entry i's key yields entry i's list |
| `Taxonomy.FilterParts` | app.py:498 | the filter buttons are `All` followed by every key in order |
| `Taxonomy.Targets` | app.py:514-520 | no contract of its own; `TargetExercises`, `AllListsEverything` and `NamedPartListsItsOwn` state that `All` gives the concatenation and a part gives its subscript |
| `Taxonomy.TargetExercises` | app.py:514-520 | the extend loop builds the concatenation of all lists for `All`; otherwise the result is the subscript of the chosen part |
| `Taxonomy.FlattenLength` | app.py:516-518 | the concatenation is as long as all the lists together |
| `Taxonomy.AllListsEverything` | app.py:514-518 | `All` yields the concatenation; the k-th exercise of entry i sits at offset (lengths of entries before i) + k |
| `Taxonomy.NamedPartListsItsOwn` | app.py:498-520 | in a well-formed table a named part yields exactly its own list, and every filter button resolves to a list |
| `Analytics.Coerced` | app.py:149 | no contract of its own; `PersonalRecordIsBest` and `MaxWeightBounds` state that a non-numeric weight counts as 0, as `to_numeric(errors='coerce').fillna(0)` makes it at lines 149 and 557 |
| `Analytics.ForExercise` | app.py:132 | the filtered rows are exactly the table's rows of that exercise: each such row occurs as many times as in the table, and no other row occurs |
| `Analytics.Latest` | app.py:141-144 | absent exactly for no rows; otherwise a row with no later-dated row |
| `Analytics.LastSession` | app.py:141-144 | no contract of its own; `LastSessionIsLatest` states it is absent exactly without records and otherwise a record with the greatest date, which is also what the dashboard's descending sort and `iloc[0]` at lines 526-528 pick |
| `Analytics.LastSessionIsLatest` | app.py:132-144 | the last session is missing exactly when the exercise has no record (the first-time / 記録なし outcome); otherwise it is a record of that exercise with a date no other of its records exceeds |
| `Analytics.Best` | app.py:149-153 | absent exactly for no rows; otherwise a row whose coerced weight is at least every row's, and no row of equal weight is dated earlier |
| `Analytics.PersonalRecord` | app.py:149-153 | no contract of its own; `PersonalRecordIsBest` states its weight is the greatest and no earlier record weighs as much |
| `Analytics.PersonalRecordIsBest` | app.py:141-153 | the personal record is a record of the exercise; non-numeric weights count as 0; its weight is at least every record's; every earlier-dated record weighs strictly less |
| `Analytics.MaxWeight` | app.py:572 | no contract of its own; `MaxWeightBounds` states it bounds every coerced weight and is attained, `PersonalRecordWeighsMax` that it is the personal record's weight |
| `Analytics.MaxWeightBounds` | app.py:572 | the column maximum bounds every coerced weight and is attained by some row |
| `Analytics.PersonalRecordWeighsMax` | app.py:557-572 | the maximum the detail view shows equals the personal record's coerced weight |
| `Analytics.OneRepMax` | app.py:566 | no contract of its own; `OneRepMaxProperties` states its value at zero repetitions and its growth |
| `Analytics.OneRepMaxProperties` | app.py:566 | Epley's estimate equals the weight at zero repetitions and strictly grows with the repetitions for a positive weight |
| `Analytics.Earliest` | app.py:189 | the start date is a date of some row and no row is dated before it |
| `Analytics.Offsets` | app.py:190 | every row's offset is its date minus the start date |
| `Analytics.PointOf` | app.py:193-194 | a row contributes a point exactly when its weight is a number; the point is the row's offset and weight |
| `Analytics.Points` | app.py:193-194 | the points are exactly the rows with a numeric weight, at their offsets; each point occurs as many times as rows contribute it, so duplicate sets are kept |
| `Analytics.PredictionInput` | app.py:180-194 | no contract of its own; `PredictionGuard` and `PredictionInputOf` state the guard and the features `predict_next_weight` fits |
| `Analytics.PredictionInputOf` | app.py:180-194 | once the exercise has at least 3 rows, the features are those rows' offsets and points counted from their earliest date, and today's offset from that date |
| `Analytics.PredictionGuard` | app.py:180-207 | no prediction with fewer than 3 rows; otherwise every offset is at least 0, some offset is 0, each point comes from a numeric-weight row, and today's offset is at least every row's when no row is after today |
| `Analytics.GuardCountsRowsNotWeights` | app.py:183-194 | three rows with a single numeric weight pass the guard and leave one point to fit |
| `Analytics.RisingBenchPressRecords` | app.py:139-153 | for sets at 50, 52.5 and 55 kg on days 0, 7 and 14, the last session and the personal record are both the day-14 set |
| `Analytics.RisingBenchPressFeatures` | app.py:180-207 | for the same sets, the features are offsets 0, 7 and 14, all three points, and today's offset 21 |
| `Store.Load` | app.py:329-346 | an empty sheet loads as the default header with no rows; otherwise header followed by rows is exactly the sheet |
| `Store.AfterSave` | app.py:348-358 | the new row is last; an empty sheet becomes [header, row]; a non-empty sheet keeps every earlier row unchanged |
| `Store.LoadAfterSave` | app.py:329-358 | loading after a save yields the old header and the old rows followed by the new row |
| `Store.LoadAfterUpdate` | app.py:339-366 | loading after a rewrite yields exactly the frame written, a frame without rows included |
| `Store.NewRow` | app.py:351-352 | the written row has the header's five cells, in its order: the date text, the body part, the exercise, the weight text and the repetitions text |
| `Store.Accepts` | app.py:617 | no contract of its own; `Sheet.Submit` states a set is saved exactly when it is accepted, that is when weight and repetitions are positive |
| `Store.Sheet.LoadData` | app.py:329-346 | reading the sheet returns its `Load` split |
| `Store.Sheet.SaveNewData` | app.py:348-358 | the sheet becomes `AfterSave` of what it held |
| `Store.Sheet.UpdateAllData` | app.py:360-366 | the sheet becomes the frame's columns followed by its rows |
| `Store.Sheet.Submit` | app.py:614-622 | saves exactly when weight and repetitions are positive, appending the set under the exercise's body part; otherwise the sheet is untouched |
| `Navigation.WithDefaults` | app.py:372-378 | every present key keeps its value; exactly the three keys are added where missing, with defaults `dashboard`, None and `All` |
| `Navigation.WithDefaultsIdempotent` | app.py:372-378 | initialising twice is the same as initialising once |
| `Navigation.Navigated` | app.py:380-384 | the view is always set; the selected exercise changes only when a non-empty exercise is given; no other key changes |
| `Navigation.Route` | app.py:667-670 | the dashboard is rendered exactly for view `dashboard`; the detail of the stored exercise exactly for `detail`; nothing otherwise |
| `Navigation.FreshSessionShowsAll` | app.py:372-378 | an empty session opens on the dashboard, filter `All`, no exercise selected |
| `Navigation.OpenThenBack` | app.py:540-548 | the record button opens its exercise's detail; Back returns to the dashboard keeping that exercise selected |
| `Navigation.Session.InitSessionState` | app.py:372-378 | the state becomes `WithDefaults` of the old state |
| `Navigation.Session.NavigateTo` | app.py:380-384 | the state becomes `Navigated` of the old state |
| `Navigation.Session.SelectBodyPart` | app.py:507-509 | a filter button stores its part and changes nothing else |
| `Navigation.Session.DashboardExercises` | app.py:514-520 | the stored filter value selects `Targets` of it; a stored None is a missing key |

## Left out

- Page rendering (Streamlit markup, CSS, charts, metrics, the embedded JavaScript interval timer): presentation only.
- The language-model coaching (`get_ai_agent_advice`: persona prompts, the API key check, the remote call): an external service and string templates.
- Spreadsheet connection and authentication (`get_worksheet`): network I/O; the sheet is held in memory instead.
- The remote sheet's own normalisation is not modelled: trimming of trailing empty rows and columns, and padding of short rows. The data frame's alignment of row cells to header columns is not modelled either.
- The linear-regression fit, `model.predict` and `round(..., 1)`: a foreign library and floating-point rounding. Only the guard and the features it is fed are modelled. The fit would also fail on zero numeric points, which the guard does not exclude.
- The conversion of sheet text to records (`pd.to_datetime`, `pd.to_numeric`) and of values to text (`str`, `strftime`, `f"{x:.1f}"`, `int(max_weight)`): abstracted as a record's parse results and as the `Texts` functions.
- `st.rerun()` after navigation and saving: it only restarts the script, which the model treats as the next call.
- Dates are assumed to parse. A cell that is not a date makes `pd.to_datetime` raise, and the page stops with データ読み込みエラー (app.py:661-664). An empty date cell becomes NaT, which sorting puts last, so the detail view's `iloc[-1]` (app.py:555, 567-568) picks the dateless row and `strftime` fails on it. A `Record` always has a day number, so neither path is modelled.
- `datetime.now()` and the form's default date: "today" and the date are parameters.
- The chart's two-row threshold and the history table's display order: presentation.
