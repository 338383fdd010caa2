/**
  The transformation estimator of the belonging calculator: four baseline
  school-climate scores are projected to three fixed horizons (6, 12 and 18
  months) by adding a metric- and horizon-specific increment and capping the
  sum at a horizon-specific ceiling. Improvements are projected minus current.

  Scores are unbounded integers: the calculator does not clamp its input, so
  a baseline above a ceiling yields a negative improvement.
 */
module Estimator {

  /** The four scores the calculator asks for. */
  datatype Metric = Belonging | Voice | Safety | Engagement

  /** The three projection windows, in increasing order. */
  datatype Horizon = SixMonths | TwelveMonths | EighteenMonths {
    function Months(): nat {
      match this
      case SixMonths => 6
      case TwelveMonths => 12
      case EighteenMonths => 18
    }
  }

  /** One score per metric. */
  datatype MetricSet = MetricSet(belonging: int, voice: int, safety: int, engagement: int) {

    function Get(m: Metric): int {
      match m
      case Belonging => belonging
      case Voice => voice
      case Safety => safety
      case Engagement => engagement
    }

    /** Replaces the score of one metric. */
    function Set(m: Metric, v: int): (r: MetricSet)
      ensures r.Get(m) == v
      ensures forall m' :: m' != m ==> r.Get(m') == Get(m')
    {
      match m
      case Belonging => this.(belonging := v)
      case Voice => this.(voice := v)
      case Safety => this.(safety := v)
      case Engagement => this.(engagement := v)
    }
  }

  /** One metric set per horizon. */
  datatype ByHorizon = ByHorizon(six: MetricSet, twelve: MetricSet, eighteen: MetricSet) {
    function At(h: Horizon): MetricSet {
      match h
      case SixMonths => six
      case TwelveMonths => twelve
      case EighteenMonths => eighteen
    }
  }

  /** The points a metric is expected to gain by a horizon, before capping. */
  function Increment(h: Horizon, m: Metric): (inc: nat)
    ensures 12 <= inc <= 45
    ensures inc < Cap(h)
  {
    match (h, m)
    case (SixMonths, Belonging) => 15
    case (SixMonths, Voice) => 18
    case (SixMonths, Safety) => 12
    case (SixMonths, Engagement) => 14
    case (TwelveMonths, Belonging) => 28
    case (TwelveMonths, Voice) => 32
    case (TwelveMonths, Safety) => 25
    case (TwelveMonths, Engagement) => 26
    case (EighteenMonths, Belonging) => 40
    case (EighteenMonths, Voice) => 45
    case (EighteenMonths, Safety) => 38
    case (EighteenMonths, Engagement) => 37
  }

  /** The ceiling no projection at a horizon may exceed. */
  function Cap(h: Horizon): (c: nat)
    ensures 95 <= c < 100
  {
    match h
    case SixMonths => 95
    case TwelveMonths => 98
    case EighteenMonths => 99
  }

  function Min(a: int, b: int): int {
    if a <= b then a else b
  }

  /** The projected score of one metric at one horizon. */
  function Project(h: Horizon, m: Metric, current: int): (p: int)
    ensures p <= Cap(h)
    ensures p <= current + Increment(h, m)
    ensures p == Cap(h) || p == current + Increment(h, m)
  {
    Min(current + Increment(h, m), Cap(h))
  }

  /** The projected scores of all four metrics at one horizon. */
  function Projection(h: Horizon, current: MetricSet): (p: MetricSet)
    ensures forall m :: p.Get(m) == Project(h, m, current.Get(m))
  {
    MetricSet(
      Project(h, Belonging, current.belonging),
      Project(h, Voice, current.voice),
      Project(h, Safety, current.safety),
      Project(h, Engagement, current.engagement))
  }

  /** The projection table: every metric at every horizon. */
  function Predict(current: MetricSet): (t: ByHorizon)
    ensures forall h, m :: t.At(h).Get(m) == Project(h, m, current.Get(m))
    ensures forall h, m :: t.At(h).Get(m) <= Cap(h)
  {
    ByHorizon(
      Projection(SixMonths, current),
      Projection(TwelveMonths, current),
      Projection(EighteenMonths, current))
  }

  /** Pointwise difference of two metric sets. */
  function Difference(a: MetricSet, b: MetricSet): (d: MetricSet)
    ensures forall m :: d.Get(m) == a.Get(m) - b.Get(m)
  {
    MetricSet(
      a.belonging - b.belonging,
      a.voice - b.voice,
      a.safety - b.safety,
      a.engagement - b.engagement)
  }

  /** The improvement table: each predicted score minus the baseline score. */
  function Improvements(predicted: ByHorizon, current: MetricSet): (t: ByHorizon)
    ensures forall h, m :: t.At(h).Get(m) == predicted.At(h).Get(m) - current.Get(m)
  {
    ByHorizon(
      Difference(predicted.six, current),
      Difference(predicted.twelve, current),
      Difference(predicted.eighteen, current))
  }

  /** A projection is the largest value that is at most both the raw sum and the cap. */
  lemma ProjectIsGreatestLowerBound(h: Horizon, m: Metric, current: int, v: int)
    requires v <= current + Increment(h, m) && v <= Cap(h)
    ensures v <= Project(h, m, current)
  {
  }

  /** The cap is reached exactly when the raw sum meets or exceeds it. */
  lemma ProjectSaturates(h: Horizon, m: Metric, current: int)
    ensures Project(h, m, current) == Cap(h) <==> current + Increment(h, m) >= Cap(h)
  {
  }

  /** For a fixed metric and horizon, the projection is monotone in the baseline. */
  lemma ProjectMonotone(h: Horizon, m: Metric, a: int, b: int)
    requires a <= b
    ensures Project(h, m, a) <= Project(h, m, b)
  {
  }

  /** Increments and caps both grow with the horizon. */
  lemma TableGrowsWithHorizon(h1: Horizon, h2: Horizon, m: Metric)
    requires h1.Months() <= h2.Months()
    ensures Increment(h1, m) <= Increment(h2, m)
    ensures Cap(h1) <= Cap(h2)
  {
  }

  /** For a fixed metric and baseline, a later horizon never projects lower. */
  lemma ProjectGrowsWithHorizon(h1: Horizon, h2: Horizon, m: Metric, current: int)
    requires h1.Months() <= h2.Months()
    ensures Project(h1, m, current) <= Project(h2, m, current)
  {
    TableGrowsWithHorizon(h1, h2, m);
  }

  /**
    The improvement is the smaller of the increment and the head-room under
    the cap; it is negative exactly when the baseline already exceeds the cap.
   */
  lemma ImprovementClosedForm(current: MetricSet, h: Horizon, m: Metric)
    ensures Improvements(Predict(current), current).At(h).Get(m)
            == Min(Increment(h, m), Cap(h) - current.Get(m))
    ensures Improvements(Predict(current), current).At(h).Get(m) < 0 <==> current.Get(m) > Cap(h)
    ensures Improvements(Predict(current), current).At(h).Get(m) == Increment(h, m)
            <==> current.Get(m) + Increment(h, m) <= Cap(h)
  {
  }

  /** A baseline of 100 loses 5 points at six months. */
  lemma OverCapGivesNegativeImprovement()
    ensures Improvements(Predict(MetricSet(100, 100, 100, 100)), MetricSet(100, 100, 100, 100)).six
            == MetricSet(-5, -5, -5, -5)
  {
  }

  /** The default draft 45/38/52/61. */
  lemma DefaultScenario()
    ensures Predict(MetricSet(45, 38, 52, 61))
            == ByHorizon(MetricSet(60, 56, 64, 75), MetricSet(73, 70, 77, 87), MetricSet(85, 83, 90, 98))
  {
  }

  /** A baseline of 100 everywhere shows the caps: 95, 98 and 99. */
  lemma CeilingScenario()
    ensures Predict(MetricSet(100, 100, 100, 100))
            == ByHorizon(MetricSet(95, 95, 95, 95), MetricSet(98, 98, 98, 98), MetricSet(99, 99, 99, 99))
  {
  }

  /** An all-zero baseline is below every cap, so the increments show through. */
  lemma ZeroScenario()
    ensures Predict(MetricSet(0, 0, 0, 0)).eighteen == MetricSet(40, 45, 38, 37)
  {
  }

  /** A baseline of 90 everywhere saturates every metric at eighteen months. */
  lemma SaturatedScenario()
    ensures Predict(MetricSet(90, 90, 90, 90)).eighteen == MetricSet(99, 99, 99, 99)
  {
  }
}
