/** The static recommendation catalogue: for each phase, three text blocks
    (foods, exercises, and why they are recommended). Each block is a bulleted
    list; it is modelled as its sequence of bullet items. */
module Recommendations {
  import opened CyclePhase

  datatype Advice = Advice(foods: seq<string>, exercises: seq<string>, why: seq<string>)

  /** A block is shown as a non-empty list of non-empty bullet items. */
  predicate Block(items: seq<string>)
  {
    |items| > 0 && forall i :: 0 <= i < |items| ==> |items[i]| > 0
  }

  predicate Complete(a: Advice)
  {
    Block(a.foods) && Block(a.exercises) && Block(a.why)
  }

  const MenstrualAdvice := Advice(
    [ "Iron-rich foods: spinach, kunde, beef, liver, beans, ndengu",
      "Vitamin C foods: citrus, pawpaw, strawberries",
      "Hydrating foods: watermelon, soups, coconut water" ],
    [ "Light stretching",
      "Yoga (hip opening stretches)",
      "Light walks or light dancing",
      "Meditation and deep breathing exercises" ],
    [ "Iron-rich foods support the body during blood loss, while Vitamin C increases iron absorption.",
      "Hydrating foods help prevent headaches and fatigue common in this phase.",
      "Exercises are gentle because energy levels are low and the uterus is contracting, so light movement reduces cramps and improves circulation without strain." ])

  const FollicularAdvice := Advice(
    [ "High-energy carbs: sweet potatoes, rice, chapati, oats",
      "Lean proteins: chicken, eggs, beans",
      "B vitamin foods: maize, nduma, njahi, spinach",
      "Healthy fats: avocados, nuts, seeds" ],
    [ "Cardio workouts: running, swimming, dance",
      "Cycling",
      "Strength training (lower weights, higher reps)",
      "Pilates" ],
    [ "Carbs support rising energy, lean proteins and B vitamins help follicle development, and healthy fats assist hormone production.",
      "Exercises are more energetic because estrogen is increasing, improving endurance, mood, and strength tolerance." ])

  const OvulationAdvice := Advice(
    [ "Anti-oxidant foods: berries, greens, ginger, hibiscus tea",
      "Protein-rich foods: fish, chicken, eggs, legumes",
      "Zinc-rich foods: omena, seafood",
      "Healthy fats: avocado, nuts, olive oil" ],
    [ "Higher-intensity workouts",
      "HIIT",
      "Strength training (peak performance)",
      "Cardio sessions: running, swimming, cycling" ],
    [ "Antioxidants reduce oxidative stress from ovulation, proteins support energy and muscle recovery, zinc aids hormone regulation, and healthy fats prepare the body for progesterone production.",
      "Feel free to take up more intense exercise because this is the phase of peak strength, endurance, and coordination driven by high estrogen and LH levels." ])

  const LutealAdvice := Advice(
    [ "Complex carbs: sweet potatoes, ugali, brown rice",
      "Magnesium-rich foods: kunde, njahi, spinach, omena",
      "Vitamin B6 foods: matoke, potatoes, bananas" ],
    [ "Light cardio: walking, light jogging, swimming, light dancing",
      "Light yoga",
      "Low-intensity workouts",
      "Stretching and relaxation exercises" ],
    [ "Complex carbs help regulate PMS irritability, magnesium reduces cramps, and Vitamin B6 supports serotonin and dopamine levels.",
      "Lighter exercises are recommended to accommodate rising progesterone, increased inflammation, and lower energy as the body prepares for menstruation." ])

  /** The catalogue as a table over the closed set of phases. */
  function Recommend(p: Phase): (a: Advice)
    ensures Complete(a)
  {
    match p
    case Menstrual => MenstrualAdvice
    case Follicular => FollicularAdvice
    case Ovulation => OvulationAdvice
    case Luteal => LutealAdvice
  }

  /** get_recommendations as written: keyed by the phase label, with a catch-all
      last branch that serves the Luteal entry for every other string. */
  function RecommendFor(phase: string): (a: Advice)
    ensures Complete(a)
  {
    if phase == "Menstrual" then MenstrualAdvice
    else if phase == "Follicular" then FollicularAdvice
    else if phase == "Ovulation" then OvulationAdvice
    else LutealAdvice
  }

  /** Looking a phase up by the label the phase rule produces gives that phase's entry. */
  lemma RecommendForName(p: Phase)
    ensures RecommendFor(Name(p)) == Recommend(p)
  {
  }

  /** Any label other than the first three, including the empty string and
      misspellings, falls through to the Luteal entry. */
  lemma UnknownLabelGetsLuteal(phase: string)
    requires phase != Name(Menstrual) && phase != Name(Follicular) && phase != Name(Ovulation)
    ensures RecommendFor(phase) == Recommend(Luteal)
  {
  }

  /** The four phases get four different entries: no phase shares another's foods. */
  lemma EntriesDistinct(p: Phase, q: Phase)
    requires p != q
    ensures Recommend(p).foods != Recommend(q).foods
  {
  }
}
