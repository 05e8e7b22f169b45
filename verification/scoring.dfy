/** Per-beat scoring: `FEEDBACK_THRESHOLDS` of types/evaluation.ts and
    `TimingEvaluator.isCorrectInput` / `evaluateBeat` of utils/evaluator.ts. */
module Scoring {
  import opened Channels
  import opened Numbers
  import opened Patterns
  import Norms

  /** `FeedbackCategory`, best first. */
  datatype Category = Perfect | Excellent | Good | Fair | Poor | Miss

  datatype Direction = Early | OnTime | Late

  /** One row of `FEEDBACK_THRESHOLDS`: deviations up to `range` (inclusive). */
  datatype Threshold = Threshold(range: Norms.Bound, points: int, color: string, message: string)

  function ThresholdOf(c: Category): Threshold {
    match c
    case Perfect => Threshold(Norms.Finite(15), 100, "#10b981", "PERFECT!")
    case Excellent => Threshold(Norms.Finite(30), 90, "#22c55e", "EXCELLENT")
    case Good => Threshold(Norms.Finite(50), 75, "#84cc16", "GOOD")
    case Fair => Threshold(Norms.Finite(80), 60, "#eab308", "FAIR")
    case Poor => Threshold(Norms.Finite(120), 40, "#f97316", "POOR")
    case Miss => Threshold(Norms.Infinite, 0, "#ef4444", "MISS")
  }

  /** The categories in the order `evaluateBeat` tries them. */
  const CategoryOrder: seq<Category> := [Perfect, Excellent, Good, Fair, Poor, Miss]

  /** Higher is better: miss < poor < fair < good < excellent < perfect. */
  function Rank(c: Category): nat {
    match c
    case Perfect => 5
    case Excellent => 4
    case Good => 3
    case Fair => 2
    case Poor => 1
    case Miss => 0
  }

  /** The category's (inclusive) bound admits this absolute deviation. */
  predicate Admits(c: Category, absDeviation: real) {
    ThresholdOf(c).range.Infinite? || absDeviation <= ThresholdOf(c).range.ms as real
  }

  /** Along `CategoryOrder` the bounds strictly increase and the points
      strictly decrease; only `miss` is unbounded. */
  lemma ThresholdsOrdered()
    ensures forall i :: 0 <= i < |CategoryOrder| ==> Rank(CategoryOrder[i]) == 5 - i
    ensures forall i, j :: 0 <= i < j < |CategoryOrder| ==> ThresholdOf(CategoryOrder[i]).points > ThresholdOf(CategoryOrder[j]).points
    ensures forall i, j :: 0 <= i < j < |CategoryOrder| - 1 ==> ThresholdOf(CategoryOrder[i]).range.ms < ThresholdOf(CategoryOrder[j]).range.ms
    ensures forall c :: ThresholdOf(c).range.Infinite? <==> c == Miss
    ensures forall c :: 0 <= ThresholdOf(c).points <= 100
  {
  }

  /** `isCorrectInput`: the channel is one of the beat's expected channels. */
  predicate IsCorrectInput(ch: Channel, expected: ExpectedInput) {
    ch in expected.expectedTypes
  }

  /** The if/else-if chain of `evaluateBeat`: the first category, best first,
      whose bound admits the absolute deviation. */
  function CategoryFor(absDeviation: real): (c: Category)
    ensures Admits(c, absDeviation)
    ensures forall better :: Rank(better) > Rank(c) ==> !Admits(better, absDeviation)
  {
    if absDeviation <= 15.0 then Perfect
    else if absDeviation <= 30.0 then Excellent
    else if absDeviation <= 50.0 then Good
    else if absDeviation <= 80.0 then Fair
    else if absDeviation <= 120.0 then Poor
    else Miss
  }

  function DirectionOf(deviation: real): (d: Direction)
    ensures d == OnTime <==> Abs(deviation) <= 5.0
    ensures d == Early <==> deviation < -5.0
    ensures d == Late <==> deviation > 5.0
  {
    if Abs(deviation) <= 5.0 then OnTime else if deviation < 0.0 then Early else Late
  }

  /** Mirroring a deviation around the beat swaps early and late and keeps
      on-time, and a later tap never reads as earlier. */
  lemma DirectionMirror(deviation: real, later: real)
    requires deviation <= later
    ensures DirectionOf(-deviation) == Early <==> DirectionOf(deviation) == Late
    ensures DirectionOf(-deviation) == OnTime <==> DirectionOf(deviation) == OnTime
    ensures DirectionOf(later) == Early ==> DirectionOf(deviation) == Early
    ensures DirectionOf(deviation) == Late ==> DirectionOf(later) == Late
  {
  }

  /** `TimingFeedback` without the display string. */
  datatype Feedback = Feedback(
    category: Category,
    deviation: real,
    direction: Direction,
    points: real,
    color: string,
    message: string)

  datatype BeatEvaluation = BeatEvaluation(feedback: Feedback, isCorrectInput: bool)

  const WrongInputPrefix: string := "WRONG INPUT - "

  /** `evaluateBeat(expectedTime, actualTime, inputType, expected)`. */
  function EvaluateBeat(expectedTime: real, actualTime: real, ch: Channel, expected: ExpectedInput): (r: BeatEvaluation)
    ensures r.feedback.deviation == actualTime - expectedTime
    ensures r.isCorrectInput <==> ch in expected.expectedTypes
    ensures Admits(r.feedback.category, Abs(actualTime - expectedTime))
    ensures forall better :: Rank(better) > Rank(r.feedback.category) ==> !Admits(better, Abs(actualTime - expectedTime))
    ensures r.feedback.direction == OnTime <==> Abs(actualTime - expectedTime) <= 5.0
    ensures r.feedback.direction == Early <==> actualTime - expectedTime < -5.0
    ensures r.isCorrectInput ==> r.feedback.points == ThresholdOf(r.feedback.category).points as real
    ensures !r.isCorrectInput ==> 2.0 * r.feedback.points == ThresholdOf(r.feedback.category).points as real
    ensures r.feedback.color == ThresholdOf(r.feedback.category).color
    ensures r.feedback.message ==
              if r.isCorrectInput then ThresholdOf(r.feedback.category).message
              else WrongInputPrefix + ThresholdOf(r.feedback.category).message
    ensures 0.0 <= r.feedback.points <= 100.0
  {
    var deviation := actualTime - expectedTime;
    var category := CategoryFor(Abs(deviation));
    var threshold := ThresholdOf(category);
    var correct := IsCorrectInput(ch, expected);
    var points := if correct then threshold.points as real else threshold.points as real * 0.5;
    var message := if correct then threshold.message else WrongInputPrefix + threshold.message;
    BeatEvaluation(Feedback(category, deviation, DirectionOf(deviation), points, threshold.color, message), correct)
  }

  /** The category depends on the timing only through `|actual - expected|`,
      and not at all on the channel. */
  lemma CategoryDependsOnlyOnMagnitude(e1: real, a1: real, ch1: Channel, x1: ExpectedInput,
                                       e2: real, a2: real, ch2: Channel, x2: ExpectedInput)
    requires Abs(a1 - e1) == Abs(a2 - e2)
    ensures EvaluateBeat(e1, a1, ch1, x1).feedback.category == EvaluateBeat(e2, a2, ch2, x2).feedback.category
  {
  }

  /** A larger deviation never earns a better category or more points. */
  lemma CategoryMonotone(e1: real, a1: real, e2: real, a2: real, ch: Channel, x: ExpectedInput)
    requires Abs(a1 - e1) <= Abs(a2 - e2)
    ensures Rank(EvaluateBeat(e2, a2, ch, x).feedback.category) <= Rank(EvaluateBeat(e1, a1, ch, x).feedback.category)
    ensures EvaluateBeat(e2, a2, ch, x).feedback.points <= EvaluateBeat(e1, a1, ch, x).feedback.points
  {
  }

  /** For the same timing a wrong channel keeps category, direction and colour,
      scores exactly half, and carries the `WRONG INPUT - ` prefix. */
  lemma WrongChannelHalves(e: real, a: real, good: Channel, bad: Channel, x: ExpectedInput)
    requires good in x.expectedTypes && bad !in x.expectedTypes
    ensures var ok := EvaluateBeat(e, a, good, x).feedback;
            var wrong := EvaluateBeat(e, a, bad, x).feedback;
            && wrong.category == ok.category
            && wrong.direction == ok.direction
            && wrong.color == ok.color
            && 2.0 * wrong.points == ok.points
            && wrong.message == WrongInputPrefix + ok.message
  {
    CategoryDependsOnlyOnMagnitude(e, a, good, x, e, a, bad, x);
  }

  /** Beat 1 of a one-second schedule, hit with the left hand at 1010 ms on a
      left-hand pattern: perfect, late, 100 points. */
  lemma TenMillisecondsLate()
    ensures var r := EvaluateBeat(1000.0, 1010.0, LeftHand, GenerateExpectedInput(LeftHandOnly, 1));
            r.isCorrectInput && r.feedback.category == Perfect && r.feedback.direction == Late &&
            r.feedback.points == 100.0 && r.feedback.deviation == 10.0
  {
  }
}
