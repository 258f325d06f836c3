# Prediction store

This project is a Dafny model of the in-memory prediction store of
`sync_predictions.py`, the `PredictionSync` class. The store keeps an ordered
list of prediction records: a forecast, its confidence as an integer
percentage, a due date, and an outcome that starts as `"pending"`. The model
covers the five operations that work on that list:

- **ID generation.** `_generate_id` counts the existing IDs that start with
  `PRED-<year>`, adds one, and renders `PRED-<year>-NNN`. The number is
  zero-padded to at least three digits.
- **Adding.** `add_prediction` appends a pending record under a new ID.
- **Evaluating.** `evaluate_prediction` finds the first record with an ID and
  overwrites its outcome, evaluation date and notes.
- **Listing.** `list_pending` keeps the pending records, sorts them by due
  date with Python's stable sort, and tags each one by the days left.
- **Statistics.** `show_stats` computes the counts by outcome, the accuracy,
  and the Brier score.

The files and what each holds:

- `records.dfy` (module `Records`): the record, its outcome, and the list
  comprehension `Filter` that every view is built from.
- `ids.dfy` (module `Ids`): decimal rendering, the three-digit padding, and
  the ID format. It proves that the ID format is one-to-one.
- `pending.dfy` (module `PendingView`): the stable sort by due date and the
  urgency tags.
- `stats.dfy` (module `Stats`): the summary, accuracy and Brier score, over
  exact rationals.
- `store.dfy` (module `Store`): ID generation, the add and evaluate steps as
  functions on the list, the facts about runs of adds and evaluations, and the class
  `PredictionSync`. Its methods change `predictions` in place.

Each method of the class is tied to a function. `AddPrediction` ends in
`Added(old(predictions), …)`. `EvaluatePrediction` ends in
`Evaluated(old(predictions), …)`; it keeps the source's loop and early
return. `ListPending` returns exactly `PendingByDue(predictions)`, each record
with its tag. `ShowStats` keeps the source's Brier loop and returns
`Brier(predictions)`. The lemmas then prove what the source promises about
those functions. Because each add and each evaluation ends in `Added` or
`Evaluated`, `Run` over a list of steps is the list after the same calls,
in the same order.

Two docstrings promise more than their code does, and the model follows the
code:

- `_generate_id` is documented as generating a unique ID
  (`sync_predictions.py:41`). The ID is unique as long as no record is
  deleted, whatever is added or evaluated and in whatever years:
  `HistoryDistinct` proves this for any run of adds and evaluations. The
  generator counts the current IDs, so after a record is deleted from the
  file it can hand out an ID that is still in use.
  `RemovedRecordGivesDuplicate` shows the smallest case.
- `evaluate_prediction` is documented as marking a prediction correct or
  incorrect (`sync_predictions.py:87`). The code stores whatever outcome
  string it is given (`sync_predictions.py:90`), and a second evaluation
  overwrites the first. So `Outcome` has an `Other` case, and
  `ReevaluationOverwrites` states the overwrite.

Inputs that the source reads from the system become parameters:

- The current year and today's date.
- The due date of a new record, which is today plus `due_days`. Dates are
  day numbers.
- The days left until a due date. `ListPending` takes a function from due
  date to days left.

## Model

| member | source | states |
|---|---|---|
| Records.ParseOutcome | sync_predictions.py:90 | the stored outcome string is kept exactly (its text is the input), and it is pending, correct or incorrect exactly when the string is `"pending"`, `"correct"` or `"incorrect"` |
| Records.ParseOutcomeText | sync_predictions.py:90 | reading back the string of an outcome gives the same outcome |
| Records.Filter | sync_predictions.py:130-134 | a comprehension keeps exactly the records that pass, is no longer than its input, and takes its records from the input |
| Records.FilterConcat | sync_predictions.py:130-134 | a comprehension over two lists joined is the two comprehensions joined |
| Records.FilterUpdate | sync_predictions.py:88-92 | replacing one record changes a count by exactly what the old and new record contribute |
| Ids.Decimal | sync_predictions.py:43 | `{year}` renders a non-empty digit string with no leading zero from 10 on |
| Ids.ValueOfDecimal | sync_predictions.py:43 | the decimal rendering denotes the number |
| Ids.DecimalInjective | sync_predictions.py:43 | different numbers render differently |
| Ids.YearPrefix | sync_predictions.py:43 | `f'PRED-{year}'`; its value is stated by `YearPrefixText`, and `FormatIdPrefix` makes it the start of every ID of the year |
| Ids.YearPrefixText | sync_predictions.py:43 | the year prefix is `PRED-` followed by digits that denote the year |
| Ids.SeqText | sync_predictions.py:44 | `{count:03d}` denotes the count, is at least three digits long, exactly three below 1000, and unpadded from 100 on |
| Ids.SeqTextExample | sync_predictions.py:44 | 1, 42 and 1234 render as `001`, `042` and `1234` |
| Ids.FormatIdText | sync_predictions.py:44 | an ID is the year prefix, a dash and the padded number |
| Ids.FormatId | sync_predictions.py:44 | line 44's f-string; its value is stated by `FormatIdText`, and `FormatIdInjective` makes it one-to-one |
| Ids.FormatIdPrefix | sync_predictions.py:43-44 | every ID of a year starts with that year's prefix `PRED-<year>` |
| Ids.FormatIdInjective | sync_predictions.py:44 | two IDs are equal only when the year and the number are |
| Ids.FormatIdDistinct | sync_predictions.py:44 | IDs of different years or different numbers differ |
| Ids.FormatIdExample | sync_predictions.py:44 | year 2025 with 1, 42 and 1234 gives `PRED-2025-001`, `PRED-2025-042` and `PRED-2025-1234` |
| Store.CountWithPrefix | sync_predictions.py:43 | the count of IDs with the year prefix is at most the number of IDs |
| Store.CountWithPrefixIsCardinality | sync_predictions.py:43 | the one-at-a-time count equals the number of positions whose ID starts with the prefix |
| Store.CountWithPrefixMonotone | sync_predictions.py:43 | a longer prefix of the ID list never has a smaller count |
| Store.CountWithPrefixAll | sync_predictions.py:43 | when every ID has the prefix, the count is the length |
| Store.GenerateId | sync_predictions.py:40-44 | `_generate_id` over the current IDs; its value is stated by `GenerateIdNumber` |
| Store.GenerateIdNumber | sync_predictions.py:40-44 | the new ID is `PRED-<year>-` followed by 1 plus the number of existing IDs starting with `PRED-<year>`, padded |
| Store.RemovedRecordGivesDuplicate | sync_predictions.py:40-44 | with only `PRED-<year>-002` left in the list, the next ID is `PRED-<year>-002` again |
| Store.Added | sync_predictions.py:57-76 | one record longer, all earlier records kept in order, and the new last record pending with the generated ID, no evaluation date or notes, `[]` for missing sources, the due date `due_days` after today and the caller's fields |
| Store.NextAfterNumbered | sync_predictions.py:40-44 | after IDs numbered 1..n of one year, the next ID of that year is numbered n+1 |
| Store.SequentialIds | sync_predictions.py:40-76 | from an empty store, n adds in one year hand out `PRED-<year>-001` to `PRED-<year>-n` in order |
| Store.SequentialIdsDistinct | sync_predictions.py:40-76 | those n IDs are pairwise distinct |
| Store.ReplayGenerated | sync_predictions.py:40-76 | after any run of adds from empty, each ID is the one generated from the IDs before it in its year |
| Store.GeneratedDistinct | sync_predictions.py:40-44 | IDs each generated from the ones before them are pairwise distinct, whatever the years |
| Store.AddsGiveDistinctIds | sync_predictions.py:40-76 | a store built by adds alone, in any years, never holds two records with one ID |
| Store.RunGenerated | sync_predictions.py:40-101 | after any run of adds and evaluations from empty, each ID is the one generated from the IDs before it in its year; evaluations change no ID |
| Store.HistoryDistinct | sync_predictions.py:40-101 | a store built by any run of adds and evaluations, in any years, never holds two records with one ID |
| Store.FirstIndex | sync_predictions.py:88-89 | the position of the first record with the ID, or none exactly when no record has it |
| Store.FirstIndexByIds | sync_predictions.py:88-89 | only the IDs decide where the first match is |
| Store.Evaluated | sync_predictions.py:88-101 | with no match the list is unchanged; otherwise only the first match changes, and in it only the outcome, the evaluation date (today) and the notes; the IDs stay |
| Store.ReevaluationOverwrites | sync_predictions.py:88-92 | evaluating a record twice leaves what the second evaluation wrote |
| Store.EvaluationMovesRecord | sync_predictions.py:88-92 | evaluating a pending record as non-pending moves one record from the pending count to the evaluated count |
| Store.PredictionSync.constructor | sync_predictions.py:25-32 | the store starts with the loaded list (empty when there is no file) |
| Store.PredictionSync.AddPrediction | sync_predictions.py:46-84 | the new list is `Added` of the old one, and the returned ID is the generated ID, now carried by the last record |
| Store.PredictionSync.EvaluatePrediction | sync_predictions.py:86-101 | returns true exactly when some record has the ID; the new list is `Evaluated` of the old one, and nothing changes when the ID is missing |
| PendingView.InsertByDue | sync_predictions.py:106 | inserting into a due-date-sorted list keeps it sorted and adds exactly the one record, after every record due no later |
| PendingView.SortByDue | sync_predictions.py:106 | the sort by due date is ascending, a permutation, and stable: the records due on any one day keep their input order |
| PendingView.PendingByDue | sync_predictions.py:105-106 | the pending list holds exactly the pending records, as a permutation of the filtered records, sorted by due date, with ties in insertion order |
| PendingView.Classify | sync_predictions.py:115-122 | overdue exactly when the days left are negative, due today exactly at zero, due in d days exactly for 1 and 2, untagged exactly beyond 2 |
| PendingView.ClassifyMonotone | sync_predictions.py:115-122 | fewer days left never gives a less pressing tag |
| PendingView.ListingUrgencyOrdered | sync_predictions.py:106-122 | in a due-date-sorted listing, tags from a days-left count that grows with the due date only get less pressing down the list |
| Store.PredictionSync.ListPending | sync_predictions.py:103-122 | the listing is `PendingByDue` of the store, each record with the tag of its days left, and the tags are ordered overdue first when the days left grow with the due date |
| Stats.EvaluatedPendingPartition | sync_predictions.py:131-134 | evaluated plus pending is the total |
| Stats.CorrectIncorrectWithinEvaluated | sync_predictions.py:132-133 | correct plus incorrect is at most evaluated |
| Stats.Accuracy | sync_predictions.py:136 | 0 when nothing is evaluated; otherwise accuracy × evaluated = correct × 100, and it lies in [0, 100] when correct ≤ evaluated |
| Stats.SquaredError | sync_predictions.py:142-144 | a record's squared error is not negative, and at most 1 when its confidence is in [0, 100] |
| Stats.ErrorSum | sync_predictions.py:141-144 | the summed squared errors are not negative, and at most the number of records when every confidence is in [0, 100] |
| Stats.Brier | sync_predictions.py:139-145 | the Brier score is not negative, 0 when nothing is evaluated, and at most 1 when every confidence is in [0, 100] |
| Stats.BrierExact | sync_predictions.py:139-145 | with n records evaluated, the Brier score is exactly the integer sum of (confidence − 100 if correct, else confidence)² over 10000 · n |
| Stats.TwoRecordExample | sync_predictions.py:130-145 | an 80% correct and a 60% incorrect record give accuracy 50 and Brier score 0.2 |
| Store.PredictionSync.ShowStats | sync_predictions.py:128-145 | the counts are those of the comprehensions, evaluated + pending = total, correct + incorrect ≤ evaluated, accuracy in [0, 100], Brier score in [0, 1] when every confidence is a percentage, and both are 0 when nothing is evaluated |

## Left out

- Loading and saving the JSON file (`_load_predictions`, `_save_predictions`) is left out because it is file I/O. The constructor takes the loaded list, and a save changes nothing in memory.
- All printed output is left out because it is presentation only. This includes the banners, the 80-character truncation and the `.1f`/`.3f` rounding.
- `interactive_add`, `interactive_evaluate` and `main` are left out because they are prompts and argument parsing. The outcome check of the interactive flow is not part of `EvaluatePrediction`, which, like the source, stores any string.
- Reading the clock with `datetime.now()` (lines 42, 58-59, 91, 114) is left out: the current year and today's date are parameters.
- Formatting and parsing `YYYY-MM-DD` strings with `strftime` and `strptime` (lines 58-59, 91, 113) are left out because dates are day numbers. For dates whose year has four digits (1000 to 9999), the order of two such strings is the order of their day numbers; for earlier years the strings are not modelled.
- `timedelta(days=due_days)` (line 59) becomes integer addition: a due date is today plus `due_days`.
- Store.Added, Store.PredictionSync.AddPrediction: neither models the `OverflowError` that line 59 raises when today plus `due_days` falls outside the years 1 to 9999 (for example `due_days = 10**7`). In the source the add then stops after line 57, appends nothing and returns no ID. Dates here are unbounded day numbers, so every add appends a record.
- The real days-left computation `(due - datetime.now()).days` is left out because it involves the time of day. `ListPending` takes the days left as a function of the due date.
- Floating point is left out. `confidence / 100`, the square and the division are exact rationals (`real`), with no rounding.
- Years are modelled as natural numbers, 0 included, although `datetime` years start at 1. Year 0 is harmless extra generality.
- The `uuid` import is left out because it is unused.
