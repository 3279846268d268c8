/** The feature row handed to the mood regression model. The user's selections
    are first written into a name-to-value dictionary (cycle length, three one-hot
    band columns, seven symptom flags); then every column the model declares but
    the dictionary lacks is added with value 0; finally the row is projected onto
    the model's declared column list, in that order. A one-row table is modelled
    as its sequence of (column name, value) cells. */
module FeatureRow {

  datatype Symptoms = Symptoms(
    headaches: bool, bloating: bool, moodSwings: bool, increasedSexDrive: bool,
    cravings: bool, irritability: bool, fatigue: bool)

  /** What the form contributes to the row. The bands are the option texts the
      user picked; any string is accepted, as nothing checks them. */
  datatype Selection = Selection(cycleLength: int, sleep: string, workout: string, age: string, symptoms: Symptoms)

  datatype Cell = Cell(name: string, value: int)

  const SleepPrefix := "Sleep_"
  const WorkoutPrefix := "Workout_"
  const AgePrefix := "Age_"

  /** The seven symptom columns, in the order the form lists them. */
  const SymptomColumns: seq<string> :=
    ["Headaches", "Bloating", "Mood_swings", "Increased_sex_drive", "Cravings", "Irritability", "Fatigue"]

  function SymptomFlags(s: Symptoms): seq<bool>
  {
    [s.headaches, s.bloating, s.moodSwings, s.increasedSexDrive, s.cravings, s.irritability, s.fatigue]
  }

  function Indicator(b: bool): int
  {
    if b then 1 else 0
  }

  /** Reference value of a declared column: the cycle length for "Cycle_length",
      1 for the three one-hot columns the selection names, the flag for a symptom
      column, and 0 for every other name. */
  function ExpectedValue(sel: Selection, name: string): int
  {
    if name == "Cycle_length" then sel.cycleLength
    else if name == SleepPrefix + sel.sleep || name == WorkoutPrefix + sel.workout || name == AgePrefix + sel.age then 1
    else if name == "Headaches" then Indicator(sel.symptoms.headaches)
    else if name == "Bloating" then Indicator(sel.symptoms.bloating)
    else if name == "Mood_swings" then Indicator(sel.symptoms.moodSwings)
    else if name == "Increased_sex_drive" then Indicator(sel.symptoms.increasedSexDrive)
    else if name == "Cravings" then Indicator(sel.symptoms.cravings)
    else if name == "Irritability" then Indicator(sel.symptoms.irritability)
    else if name == "Fatigue" then Indicator(sel.symptoms.fatigue)
    else 0
  }

  /** The first letter of a prefixed column tells which family it belongs to. */
  lemma PrefixedInitial(prefix: string, band: string)
    requires |prefix| > 0
    ensures (prefix + band)[0] == prefix[0]
    ensures |prefix + band| >= |prefix|
  {
  }

  /** A prefixed one-hot column never collides with the cycle-length column or a
      symptom column: no fixed column starts with S, W or A. */
  lemma PrefixedNotFixed(prefix: string, band: string)
    requires prefix in {SleepPrefix, WorkoutPrefix, AgePrefix}
    ensures prefix + band != "Cycle_length" && prefix + band !in SymptomColumns
  {
    PrefixedInitial(prefix, band);
    assert forall i :: 0 <= i < |SymptomColumns| ==> SymptomColumns[i][0] in {'H', 'B', 'M', 'I', 'C', 'F'};
  }

  /** The dictionary literal, entry by entry. As in the literal, an entry would
      override an earlier one with the same key; the eleven keys are pairwise
      different whatever band texts were picked, so the cycle length and the
      three one-hot 1s all survive the later entries. */
  function Seed(sel: Selection): (m: map<string, int>)
    ensures "Cycle_length" in m && m["Cycle_length"] == sel.cycleLength
    ensures SleepPrefix + sel.sleep in m && m[SleepPrefix + sel.sleep] == 1
    ensures WorkoutPrefix + sel.workout in m && m[WorkoutPrefix + sel.workout] == 1
    ensures AgePrefix + sel.age in m && m[AgePrefix + sel.age] == 1
  {
    PrefixedNotFixed(SleepPrefix, sel.sleep);
    PrefixedNotFixed(WorkoutPrefix, sel.workout);
    PrefixedNotFixed(AgePrefix, sel.age);
    PrefixedInitial(SleepPrefix, sel.sleep);
    PrefixedInitial(WorkoutPrefix, sel.workout);
    PrefixedInitial(AgePrefix, sel.age);
    map[
      "Cycle_length" := sel.cycleLength,
      SleepPrefix + sel.sleep := 1,
      WorkoutPrefix + sel.workout := 1,
      AgePrefix + sel.age := 1,
      "Headaches" := Indicator(sel.symptoms.headaches),
      "Bloating" := Indicator(sel.symptoms.bloating),
      "Mood_swings" := Indicator(sel.symptoms.moodSwings),
      "Increased_sex_drive" := Indicator(sel.symptoms.increasedSexDrive),
      "Cravings" := Indicator(sel.symptoms.cravings),
      "Irritability" := Indicator(sel.symptoms.irritability),
      "Fatigue" := Indicator(sel.symptoms.fatigue)
    ]
  }

  /** No entry of the literal overrides another, so every entry holds its
      reference value, and every name outside the literal has reference value 0,
      which is what the zero-filling loop writes. */
  lemma SeedMatchesReference(sel: Selection)
    ensures forall name :: name in Seed(sel) ==> Seed(sel)[name] == ExpectedValue(sel, name)
    ensures forall name :: name !in Seed(sel) ==> ExpectedValue(sel, name) == 0
  {
  }

  /** A one-hot family: among all columns "Sleep_" + x, exactly the one whose
      band is the selected option holds 1, every other holds 0. */
  lemma OneHotSleep(sel: Selection, band: string)
    ensures ExpectedValue(sel, SleepPrefix + band) == Indicator(band == sel.sleep)
  {
    var name := SleepPrefix + band;
    PrefixedInitial(SleepPrefix, band);
    PrefixedInitial(WorkoutPrefix, sel.workout);
    PrefixedInitial(AgePrefix, sel.age);
    assert name[|SleepPrefix|..] == band;
    assert (SleepPrefix + sel.sleep)[|SleepPrefix|..] == sel.sleep;
  }

  lemma OneHotWorkout(sel: Selection, band: string)
    ensures ExpectedValue(sel, WorkoutPrefix + band) == Indicator(band == sel.workout)
  {
    var name := WorkoutPrefix + band;
    PrefixedInitial(SleepPrefix, sel.sleep);
    PrefixedInitial(WorkoutPrefix, band);
    PrefixedInitial(AgePrefix, sel.age);
    assert name[|WorkoutPrefix|..] == band;
    assert (WorkoutPrefix + sel.workout)[|WorkoutPrefix|..] == sel.workout;
  }

  lemma OneHotAge(sel: Selection, band: string)
    ensures ExpectedValue(sel, AgePrefix + band) == Indicator(band == sel.age)
  {
    var name := AgePrefix + band;
    PrefixedInitial(SleepPrefix, sel.sleep);
    PrefixedInitial(WorkoutPrefix, sel.workout);
    PrefixedInitial(AgePrefix, band);
    assert name[|AgePrefix|..] == band;
    assert (AgePrefix + sel.age)[|AgePrefix|..] == sel.age;
  }

  /** Each symptom column holds 1 exactly when its box is ticked. */
  lemma SymptomColumnValue(sel: Selection, i: nat)
    requires i < |SymptomColumns|
    ensures ExpectedValue(sel, SymptomColumns[i]) == Indicator(SymptomFlags(sel.symptoms)[i])
  {
    var name := SymptomColumns[i];
    PrefixedInitial(SleepPrefix, sel.sleep);
    PrefixedInitial(WorkoutPrefix, sel.workout);
    PrefixedInitial(AgePrefix, sel.age);
    assert name[0] in {'H', 'B', 'M', 'I', 'C', 'F'};
  }

  /** create_input_df. The dictionary is filled from the selection, a loop over the
      declared names adds each missing one with value 0, and the result is the
      dictionary read off in declared order. Declared names may repeat; a repeated
      name yields a repeated cell, as selecting a column list with repeats does. */
  method CreateInputRow(sel: Selection, featureNames: seq<string>) returns (row: seq<Cell>)
    ensures |row| == |featureNames|
    ensures forall i :: 0 <= i < |row| ==> row[i].name == featureNames[i]
    ensures forall i :: 0 <= i < |row| ==> row[i].value == ExpectedValue(sel, featureNames[i])
  {
    var columns := Seed(sel);
    SeedMatchesReference(sel);
    for i := 0 to |featureNames|
      invariant Seed(sel).Keys <= columns.Keys
      invariant forall name :: name in columns ==> columns[name] == ExpectedValue(sel, name)
      invariant forall j :: 0 <= j < i ==> featureNames[j] in columns
    {
      var col := featureNames[i];
      if col !in columns {
        columns := columns[col := 0];
      }
    }
    row := seq(|featureNames|, i requires 0 <= i < |featureNames| => Cell(featureNames[i], columns[featureNames[i]]));
  }

  /** A worked row: cycle 28, sleep "6-7 hours", workout "2-4 hours", age "21-30",
      no symptoms. Whatever columns the model declares, Cycle_length is 28, the
      three chosen one-hot columns are 1, and everything else is 0. */
  lemma TypicalRow(name: string)
    ensures var sel := Selection(28, "6-7 hours", "2-4 hours", "21-30", Symptoms(false, false, false, false, false, false, false));
      ExpectedValue(sel, name)
        == if name == "Cycle_length" then 28
           else if name == "Sleep_6-7 hours" || name == "Workout_2-4 hours" || name == "Age_21-30" then 1
           else 0
  {
  }
}
