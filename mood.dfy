/** The description attached to the predicted mood score: two thresholds split
    the score line into three buckets. The score itself comes from the
    regression model, which is not part of this model; any real is accepted. */
module MoodScore {

  datatype Mood = HighEnergy | Moderate | LowEnergy

  /** The text shown after "You are likely to feel:". */
  function Describe(m: Mood): (s: string)
    ensures |s| > 0
  {
    match m
    case HighEnergy => "High Energy / Positive Mood \U{1F60A}"
    case Moderate => "Moderate / Neutral Mood \U{1F610}"
    case LowEnergy => "Low Energy / Negative Mood \U{1F61E}"
  }

  /** The text shown for a score tells its bucket apart from the other two. */
  lemma DescriptionIdentifiesBucket(s1: real, s2: real)
    ensures Describe(Bucket(s1)) == Describe(Bucket(s2)) <==> Bucket(s1) == Bucket(s2)
  {
  }

  function Level(m: Mood): nat
  {
    match m
    case LowEnergy => 0
    case Moderate => 1
    case HighEnergy => 2
  }

  /** The if/elif/else on the predicted score. */
  function Bucket(score: real): (m: Mood)
    ensures m == HighEnergy <==> 7.0 <= score
    ensures m == Moderate <==> 4.0 <= score < 7.0
    ensures m == LowEnergy <==> score < 4.0
  {
    if score >= 7.0 then HighEnergy
    else if 4.0 <= score < 7.0 then Moderate
    else LowEnergy
  }

  /** A higher score never gets a lower bucket. */
  lemma BucketMonotone(s1: real, s2: real)
    requires s1 <= s2
    ensures Level(Bucket(s1)) <= Level(Bucket(s2))
  {
  }

  /** Both thresholds belong to the upper bucket. */
  lemma Boundaries()
    ensures Bucket(4.0) == Moderate && Bucket(7.0) == HighEnergy
    ensures Bucket(3.999) == LowEnergy && Bucket(6.999) == Moderate
    ensures Bucket(0.0) == LowEnergy && Bucket(10.0) == HighEnergy
  {
  }
}
