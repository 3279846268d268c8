/** The cycle-phase rule of the wellness page: three integers (days since the
    period started, period length, cycle length) are mapped to one of four
    phases by an ordered, first-match-wins chain of comparisons. */
module CyclePhase {

  datatype Phase = Menstrual | Follicular | Ovulation | Luteal

  /** The label the page shows and passes on to the recommendation lookup. */
  function Name(p: Phase): (s: string)
    ensures |s| > 0
  {
    match p
    case Menstrual => "Menstrual"
    case Follicular => "Follicular"
    case Ovulation => "Ovulation"
    case Luteal => "Luteal"
  }

  /** Different phases carry different labels, so the label identifies the phase. */
  lemma NamesDistinct(p: Phase, q: Phase)
    requires p != q
    ensures Name(p) != Name(q)
  {
  }

  /** Position of a phase in the cycle, used to state that phases follow each other in order. */
  function Rank(p: Phase): nat
  {
    match p
    case Menstrual => 0
    case Follicular => 1
    case Ovulation => 2
    case Luteal => 3
  }

  /** Reference description of the days each phase covers, one region per phase,
      stated independently of the order in which the rule tests them.
      Luteal starts 14 days before the end of the cycle, Ovulation is the 5 days
      before that, and the bleeding days override both. */
  predicate InWindow(p: Phase, days: int, periodLen: int, cycleLength: int)
  {
    match p
    case Menstrual => days <= periodLen
    case Follicular => periodLen < days < cycleLength - 19
    case Ovulation => periodLen < days && cycleLength - 19 <= days < cycleLength - 14
    case Luteal => periodLen < days && cycleLength - 14 <= days
  }

  /** compute_phase. Total over all integers; no range precondition. */
  function ComputePhase(days: int, periodLen: int, cycleLength: int): (r: Phase)
    ensures InWindow(r, days, periodLen, cycleLength)
    ensures forall p :: InWindow(p, days, periodLen, cycleLength) ==> p == r
  {
    var lutealStart := cycleLength - 14;
    if days <= periodLen then Menstrual
    else if days >= lutealStart then Luteal
    else if days >= lutealStart - 5 then Ovulation
    else Follicular
  }

  lemma MenstrualWithinPeriod(days: int, periodLen: int, cycleLength: int)
    requires days <= periodLen
    ensures ComputePhase(days, periodLen, cycleLength) == Menstrual
  {
  }

  lemma LutealIff(days: int, periodLen: int, cycleLength: int)
    requires ComputePhase(days, periodLen, cycleLength) != Menstrual
    ensures ComputePhase(days, periodLen, cycleLength) == Luteal <==> days >= cycleLength - 14
  {
  }

  lemma OvulationIff(days: int, periodLen: int, cycleLength: int)
    ensures ComputePhase(days, periodLen, cycleLength) == Ovulation
        <==> periodLen < days && cycleLength - 19 <= days < cycleLength - 14
  {
  }

  lemma FollicularIff(days: int, periodLen: int, cycleLength: int)
    ensures ComputePhase(days, periodLen, cycleLength) == Follicular
        <==> periodLen < days < cycleLength - 19
  {
  }

  /** As the day count grows the phase never goes back: Menstrual, Follicular,
      Ovulation, Luteal, in that order (some may be skipped). */
  lemma PhasesInOrder(d1: int, d2: int, periodLen: int, cycleLength: int)
    requires d1 <= d2
    ensures Rank(ComputePhase(d1, periodLen, cycleLength)) <= Rank(ComputePhase(d2, periodLen, cycleLength))
  {
  }

  /** Number of day counts in [lo, hi) that the rule assigns to phase p. */
  function DaysIn(p: Phase, periodLen: int, cycleLength: int, lo: int, hi: int): nat
    decreases hi - lo
  {
    if hi <= lo then 0
    else (if ComputePhase(lo, periodLen, cycleLength) == p then 1 else 0)
         + DaysIn(p, periodLen, cycleLength, lo + 1, hi)
  }

  function Max(a: int, b: int): int { if a < b then b else a }
  function Min(a: int, b: int): int { if a < b then a else b }

  /** Size of the intersection of [lo, hi) and [a, b). */
  function Overlap(lo: int, hi: int, a: int, b: int): nat
  {
    Max(0, Min(hi, b) - Max(lo, a))
  }

  /** Counting the days of a phase whose region within [lo, hi) is the interval [a, b). */
  lemma {:induction false} DaysInInterval(p: Phase, periodLen: int, cycleLength: int, lo: int, hi: int, a: int, b: int)
    requires forall d :: lo <= d < hi ==> (ComputePhase(d, periodLen, cycleLength) == p <==> a <= d < b)
    ensures DaysIn(p, periodLen, cycleLength, lo, hi) == Overlap(lo, hi, a, b)
    decreases hi - lo
  {
    if lo < hi {
      DaysInInterval(p, periodLen, cycleLength, lo + 1, hi, a, b);
    }
  }

  /** The Ovulation window never exceeds 5 day counts, for any period and cycle
      length and over any range of days: it lies within [cycleLength-19, cycleLength-14). */
  lemma OvulationAtMostFive(periodLen: int, cycleLength: int, lo: int, hi: int)
    ensures DaysIn(Ovulation, periodLen, cycleLength, lo, hi) <= 5
  {
    DaysInInterval(Ovulation, periodLen, cycleLength, lo, hi, Max(periodLen + 1, cycleLength - 19), cycleLength - 14);
  }

  /** How many of the day counts 0 .. cycleLength-1 each phase gets, for any inputs. */
  lemma PhaseLengths(periodLen: int, cycleLength: int)
    ensures DaysIn(Menstrual, periodLen, cycleLength, 0, cycleLength) == Overlap(0, cycleLength, 0, periodLen + 1)
    ensures DaysIn(Follicular, periodLen, cycleLength, 0, cycleLength) == Overlap(0, cycleLength, periodLen + 1, cycleLength - 19)
    ensures DaysIn(Ovulation, periodLen, cycleLength, 0, cycleLength)
         == Overlap(0, cycleLength, Max(periodLen + 1, cycleLength - 19), cycleLength - 14)
    ensures DaysIn(Luteal, periodLen, cycleLength, 0, cycleLength)
         == Overlap(0, cycleLength, Max(periodLen + 1, cycleLength - 14), cycleLength)
  {
    DaysInInterval(Menstrual, periodLen, cycleLength, 0, cycleLength, 0, periodLen + 1);
    DaysInInterval(Follicular, periodLen, cycleLength, 0, cycleLength, periodLen + 1, cycleLength - 19);
    DaysInInterval(Ovulation, periodLen, cycleLength, 0, cycleLength, Max(periodLen + 1, cycleLength - 19), cycleLength - 14);
    DaysInInterval(Luteal, periodLen, cycleLength, 0, cycleLength, Max(periodLen + 1, cycleLength - 14), cycleLength);
  }

  /** The ranges the input widgets allow: period 1..10 days, cycle 21..40 days. */
  predicate WidgetRanges(periodLen: int, cycleLength: int)
  {
    1 <= periodLen <= 10 && 21 <= cycleLength <= 40
  }

  /** Within the widget ranges: the bleeding phase covers periodLen + 1 day counts
      (day 0 through day periodLen), Ovulation at most 5, Luteal at most 14 and
      exactly 14 unless the period reaches into the last 14 days. */
  lemma PhaseLengthsInRange(periodLen: int, cycleLength: int)
    requires WidgetRanges(periodLen, cycleLength)
    ensures DaysIn(Menstrual, periodLen, cycleLength, 0, cycleLength) == periodLen + 1
    ensures DaysIn(Ovulation, periodLen, cycleLength, 0, cycleLength) <= 5
    ensures DaysIn(Ovulation, periodLen, cycleLength, 0, cycleLength) == 5 <==> periodLen < cycleLength - 19
    ensures DaysIn(Luteal, periodLen, cycleLength, 0, cycleLength) == Min(14, cycleLength - periodLen - 1)
    ensures DaysIn(Follicular, periodLen, cycleLength, 0, cycleLength) == Max(0, cycleLength - 20 - periodLen)
  {
    PhaseLengths(periodLen, cycleLength);
  }

  /** Worked cases of the rule for a 5-day period in a 28-day cycle. */
  lemma TypicalCycle()
    ensures ComputePhase(3, 5, 28) == Menstrual
    ensures ComputePhase(5, 5, 28) == Menstrual
    ensures ComputePhase(6, 5, 28) == Follicular
    ensures ComputePhase(9, 5, 28) == Ovulation
    ensures ComputePhase(10, 5, 28) == Ovulation
    ensures ComputePhase(12, 5, 28) == Ovulation
    ensures ComputePhase(14, 5, 28) == Luteal
    ensures ComputePhase(25, 5, 28) == Luteal
  {
  }
}
