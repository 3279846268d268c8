# Menstrual wellness page: verified model of its decision logic

The page collects cycle-tracking inputs, asks a pre-trained regression model
for a mood/energy score, derives a cycle phase and shows advice for that
phase. This project models the deterministic logic in `app.py` and proves
properties of it. It has four parts:

- `phase.dfy` (module `CyclePhase`): `compute_phase`. This is the first-match-wins
  rule from (days since the period started, period length, cycle length) to
  Menstrual, Follicular, Ovulation or Luteal. It is total over all integers. Each
  phase's region is also stated independently (`InWindow`), and the number of
  days each phase gets within one cycle is proved.
- `recommendations.dfy` (module `Recommendations`): `get_recommendations`. It is
  modelled twice: as a table over the phase datatype (`Recommend`), and as the
  source's string-keyed lookup with its catch-all Luteal branch (`RecommendFor`).
  Each text block is modelled as its list of bullet items.
- `features.dfy` (module `FeatureRow`): `create_input_df`. A method seeds a
  name-to-value map from the selection, as the dictionary literal does. Its loop
  then adds a 0 entry for every declared feature name that is missing. Finally it
  reads the map off in declared order. The model's declared feature list is a
  parameter. It may contain repeats, because the source does not forbid them.
- `mood.dfy` (module `MoodScore`): the if/elif/else that turns the predicted
  score into High / Moderate / Low. The score is any `real`. The regression
  model that produces it is outside this model.

With a 5-day period and a 28-day cycle, day 10 is Ovulation, because
10 >= 28 - 14 - 5 (app.py:43); the worked cases are in `CyclePhase.TypicalCycle`.

## Model

| member | source | states |
|---|---|---|
| `CyclePhase.Name` | app.py:40-46 | The label returned for each phase is non-empty |
| `CyclePhase.NamesDistinct` | app.py:40-46 | Different phases get different labels, so the label passed to the lookup identifies the phase |
| `CyclePhase.ComputePhase` | app.py:37-46 | The result's region (`InWindow`) holds, and no other phase's region holds. Regions: Menstrual is days <= period; Follicular is period < days < cycle-19; Ovulation is period < days and cycle-19 <= days < cycle-14; Luteal is period < days and days >= cycle-14. So the rule is total and gives exactly one phase for every integer triple. |
| `CyclePhase.MenstrualWithinPeriod` | app.py:39-40 | days <= period length gives Menstrual, whatever the cycle length |
| `CyclePhase.LutealIff` | app.py:38-42 | Outside Menstrual, the result is Luteal exactly when days >= cycle length - 14 |
| `CyclePhase.OvulationIff` | app.py:43-44 | Ovulation exactly when period < days and cycle-19 <= days < cycle-14 |
| `CyclePhase.FollicularIff` | app.py:45-46 | Follicular exactly when period < days < cycle-19 |
| `CyclePhase.PhasesInOrder` | app.py:37-46 | As the day count grows the phase only moves forward: Menstrual, Follicular, Ovulation, Luteal |
| `CyclePhase.DaysInInterval` | app.py:37-46 | If a phase's days within [lo, hi) form the interval [a, b), the rule assigns it exactly the overlap's size |
| `CyclePhase.OvulationAtMostFive` | app.py:43-44 | For any period length, cycle length and day range, at most 5 days are Ovulation |
| `CyclePhase.PhaseLengths` | app.py:37-46 | Over days 0..cycle-1, the count of each phase, as a closed formula, for any inputs |
| `CyclePhase.PhaseLengthsInRange` | app.py:37-46 | Within the widget ranges (period 1..10, cycle 21..40): Menstrual covers period+1 day counts; Ovulation at most 5, exactly 5 iff period < cycle-19; Luteal min(14, cycle-period-1); Follicular max(0, cycle-20-period) |
| `CyclePhase.TypicalCycle` | app.py:37-46 | Worked cases for a 5-day period in a 28-day cycle: days 3 and 5 Menstrual, 6 Follicular, 9, 10 and 12 Ovulation, 14 and 25 Luteal |
| `Recommendations.Recommend` | app.py:49-121 | Every phase gets an entry, and every entry has non-empty foods, exercises and rationale lists of non-empty items |
| `Recommendations.RecommendFor` | app.py:49-121 | The string-keyed lookup returns a complete entry for every string |
| `Recommendations.RecommendForName` | app.py:49-121 | Looking up the label the phase rule returns gives that phase's entry |
| `Recommendations.UnknownLabelGetsLuteal` | app.py:104-121 | Any string other than "Menstrual", "Follicular" and "Ovulation" gets the Luteal entry |
| `Recommendations.EntriesDistinct` | app.py:50-119 | Different phases get different food lists |
| `FeatureRow.CreateInputRow` | app.py:155-175 | The row has one cell per declared name, in declared order, named after it. Each value is the reference value: the cycle length for Cycle_length, 1 for a selected one-hot column, the flag for a symptom column, 0 for every other name. Undeclared keys are dropped. |
| `FeatureRow.Seed` | app.py:156-169 | The dictionary literal keeps the cycle length under Cycle_length and 1 under each of the three selected one-hot keys, whatever the band texts (no later entry overrides them) |
| `FeatureRow.SeedMatchesReference` | app.py:156-169 | Every entry of the dictionary literal holds its reference value, because no entry overrides another. Every name outside the literal has reference value 0, which is what the zero-filling loop writes. |
| `FeatureRow.PrefixedNotFixed` | app.py:157-168 | A "Sleep_", "Workout_" or "Age_" column can never coincide with Cycle_length or a symptom column, whatever the band text |
| `FeatureRow.OneHotSleep` | app.py:158 | Column "Sleep_"+x is 1 exactly when x is the selected sleep band, else 0 |
| `FeatureRow.OneHotWorkout` | app.py:159 | Column "Workout_"+x is 1 exactly when x is the selected workout band, else 0 |
| `FeatureRow.OneHotAge` | app.py:160 | Column "Age_"+x is 1 exactly when x is the selected age band, else 0 |
| `FeatureRow.SymptomColumnValue` | app.py:162-168 | Each of the seven symptom columns is 1 exactly when its flag is set, else 0 |
| `FeatureRow.TypicalRow` | app.py:155-175 | For cycle 28, "6-7 hours", "2-4 hours", "21-30" and no symptoms: Cycle_length is 28, the three chosen one-hot columns are 1, and every other column is 0 |
| `MoodScore.Bucket` | app.py:184-189 | High iff score >= 7; Moderate iff 4 <= score < 7; Low iff score < 4. The buckets partition the score line. |
| `MoodScore.Describe` | app.py:184-189 | Each bucket's description is a non-empty text |
| `MoodScore.DescriptionIdentifiesBucket` | app.py:184-191 | Two scores are shown the same description exactly when they fall in the same bucket |
| `MoodScore.BucketMonotone` | app.py:184-189 | A higher score never gets a lower bucket |
| `MoodScore.Boundaries` | app.py:184-189 | 4 is Moderate, 7 is High, 3.999 is Low, 6.999 is Moderate |

## Left out

- Streamlit widgets, layout, HTML, expanders, the page toggle and the button handler that wires the parts together (app.py:7-26, 124-153, 177-207 apart from 184-189): UI with no stateable logic. The widget ranges are only used as the hypothesis of `CyclePhase.PhaseLengthsInRange`.
- Loading the CatBoost model, its cache and `model.predict` (app.py:28-34, 179): a foreign library and a binary artifact. The declared feature list is a parameter of `FeatureRow.CreateInputRow`, and the score is a parameter of `MoodScore.Bucket`.
- The "Model Performance" page (app.py:213-277): static benchmark numbers drawn as a chart.
- Formatting of the score to one decimal (app.py:182): float display.
- MoodScore.Bucket: the score is a mathematical real. A NaN score from the model would fail both tests in the source and fall to Low; the model has no NaN.
- FeatureRow.CreateInputRow: the intermediate DataFrame's column order (seeded keys first, then the zero-filled ones) is not kept. The final projection onto the declared list makes it irrelevant to the result. The cell values are integers, as every value the source writes is.
- Recommendations.Recommend: the text blocks are lists of bullet items. The leading dashes, indentation and trailing spaces of the source's triple-quoted strings are dropped.
