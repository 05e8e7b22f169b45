/** Session aggregation: `TimingEvaluator.calculateConsistency`,
    `evaluateSession` and `calculateImprovement`, and `evaluateBalance`, of
    utils/evaluator.ts; `SessionResults` of types/evaluation.ts. */
module Session {
  import opened Wrappers
  import opened Channels
  import opened Numbers
  import opened Seqs
  import opened Scoring
  import opened Beats
  import Norms

  /** `b.deviation!` read as a number: a `null` deviation reads as 0. */
  function DevOr0(b: Beat): real {
    b.deviation.GetOr(0.0)
  }

  /** `b.feedback?.points || 0`. */
  function PointsOr0(b: Beat): real {
    if b.feedback.Some? then b.feedback.value.points else 0.0
  }

  function AbsDeviations(bs: seq<Beat>): (ds: seq<real>)
    ensures |ds| == |bs|
    ensures forall i :: 0 <= i < |bs| ==> ds[i] == Abs(DevOr0(bs[i])) && 0.0 <= ds[i]
  {
    seq(|bs|, i requires 0 <= i < |bs| => Abs(DevOr0(bs[i])))
  }

  function Points(bs: seq<Beat>): (ps: seq<real>)
    ensures |ps| == |bs|
    ensures forall i :: 0 <= i < |bs| ==> ps[i] == PointsOr0(bs[i])
  {
    seq(|bs|, i requires 0 <= i < |bs| => PointsOr0(bs[i]))
  }

  /** `validBeats`: beats with an actual time. */
  function ValidBeats(beats: seq<Beat>): seq<Beat> {
    Filter(beats, (b: Beat) => Responded(b))
  }

  /** `correctInputBeats`: valid beats hit on an expected channel. */
  function CorrectBeats(beats: seq<Beat>): seq<Beat> {
    Filter(ValidBeats(beats), (b: Beat) => b.isCorrectInput)
  }

  function WrongBeats(beats: seq<Beat>): seq<Beat> {
    Filter(ValidBeats(beats), (b: Beat) => b.isWrongInput)
  }

  /** The sum of `ds` divided by its length, or `otherwise` when it is empty. */
  function MeanOr(ds: seq<real>, otherwise: real): (m: real)
    ensures |ds| > 0 ==> m * |ds| as real == Sum(ds)
    ensures |ds| == 0 ==> m == otherwise
  {
    if |ds| > 0 then
      DivCancel(Sum(ds), |ds| as real);
      Sum(ds) / |ds| as real
    else otherwise
  }

  /** A mean of a non-empty sequence lies between any lower and upper bound
      of its elements. */
  lemma MeanBetween(ds: seq<real>, lo: real, hi: real, otherwise: real)
    requires |ds| > 0
    requires forall i :: 0 <= i < |ds| ==> lo <= ds[i] <= hi
    ensures lo <= MeanOr(ds, otherwise) <= hi
  {
    SumBounds(ds, lo, hi);
    var n := |ds| as real;
    assert Sum(ds) / n * n == Sum(ds);
    assert lo * n <= Sum(ds) / n * n <= hi * n;
  }

  /** The mean of non-negative numbers is non-negative. */
  lemma MeanNonNegative(ds: seq<real>, otherwise: real)
    requires 0.0 <= otherwise
    requires forall i :: 0 <= i < |ds| ==> 0.0 <= ds[i]
    ensures 0.0 <= MeanOr(ds, otherwise)
  {
    SumNonNegative(ds);
  }

  // ---------------------------------------------------------------------------
  // Consistency
  // ---------------------------------------------------------------------------

  function SquaredDeviations(ds: seq<real>, mean: real): (sq: seq<real>)
    ensures |sq| == |ds|
    ensures forall i :: 0 <= i < |ds| ==> sq[i] == (ds[i] - mean) * (ds[i] - mean)
  {
    seq(|ds|, i requires 0 <= i < |ds| => (ds[i] - mean) * (ds[i] - mean))
  }

  /** The population variance of the deviations. */
  function Variance(ds: seq<real>): real
    requires |ds| > 0
  {
    var mean := Sum(ds) / |ds| as real;
    Sum(SquaredDeviations(ds, mean)) / |ds| as real
  }

  /** `calculateConsistency`: 100 minus the standard deviation, clamped to
      [0, 100]; 100 with fewer than two samples. `sqrt` stands for
      `Math.sqrt`. */
  function Consistency(ds: seq<real>, sqrt: real -> real): (c: real)
    ensures 0.0 <= c <= 100.0
    ensures |ds| < 2 ==> c == 100.0
    ensures |ds| >= 2 && 0.0 <= sqrt(Variance(ds)) <= 100.0 ==> c + sqrt(Variance(ds)) == 100.0
    ensures |ds| >= 2 && 100.0 <= sqrt(Variance(ds)) ==> c == 0.0
  {
    if |ds| < 2 then 100.0
    else Clamp(0.0, 100.0, 100.0 - sqrt(Variance(ds)))
  }

  /** Identical deviations have mean `d` and variance 0, hence full
      consistency (given a square root with `sqrt(0) = 0`). */
  lemma ConstantDeviations(ds: seq<real>, d: real, sqrt: real -> real)
    requires |ds| > 0
    requires forall i :: 0 <= i < |ds| ==> ds[i] == d
    requires sqrt(0.0) == 0.0
    ensures MeanOr(ds, 999.0) == d
    ensures Variance(ds) == 0.0
    ensures Consistency(ds, sqrt) == 100.0
  {
    var n := |ds| as real;
    SumBounds(ds, d, d);
    assert Sum(ds) / n == d;
    var sq := SquaredDeviations(ds, d);
    SumBounds(sq, 0.0, 0.0);
  }

  // ---------------------------------------------------------------------------
  // Rates and counts
  // ---------------------------------------------------------------------------

  /** `total > 0 ? (count / total) * 100 : 0`. */
  function Percent(count: nat, total: nat): (p: real)
    ensures total == 0 ==> p == 0.0
    ensures count <= total ==> 0.0 <= p <= 100.0
    ensures 0 < total ==> p * total as real == count as real * 100.0
  {
    if total > 0 then count as real / total as real * 100.0 else 0.0
  }

  lemma PercentsOfPartition(a: nat, b: nat, c: nat, total: nat)
    requires a + b + c == total
    ensures total > 0 ==> Percent(a, total) + Percent(b, total) + Percent(c, total) == 100.0
  {
    if total > 0 {
      var t := total as real;
      assert Percent(a, total) == a as real / t * 100.0;
      assert Percent(b, total) == b as real / t * 100.0;
      assert Percent(c, total) == c as real / t * 100.0;
      DivSum3(a as real, b as real, c as real, t);
      assert a as real + b as real + c as real == t;
    }
  }

  function EarlyCount(correct: seq<Beat>): nat {
    |Filter(correct, (b: Beat) => DevOr0(b) < -5.0)|
  }

  function LateCount(correct: seq<Beat>): nat {
    |Filter(correct, (b: Beat) => DevOr0(b) > 5.0)|
  }

  function OnTargetCount(correct: seq<Beat>): nat {
    |Filter(correct, (b: Beat) => Abs(DevOr0(b)) <= 5.0)|
  }

  /** Early (< -5 ms), late (> 5 ms) and on target (|d| <= 5 ms) partition the
      correct beats. */
  lemma DirectionsPartition(correct: seq<Beat>)
    ensures EarlyCount(correct) + LateCount(correct) + OnTargetCount(correct) == |correct|
  {
    FilterSplit3(correct, (b: Beat) => DevOr0(b) < -5.0, (b: Beat) => DevOr0(b) > 5.0,
                 (b: Beat) => Abs(DevOr0(b)) <= 5.0);
  }

  /** `validBeats.filter(b => b.feedback?.category === c).length`. */
  function CategoryCount(valid: seq<Beat>, c: Category): nat {
    |Filter(valid, (b: Beat) => b.feedback.Some? && b.feedback.value.category == c)|
  }

  /** With a feedback record on every beat, the six category counts add up to
      the number of beats. */
  lemma {:induction false} CategoryCountsSum(valid: seq<Beat>)
    requires forall b :: b in valid ==> b.feedback.Some?
    ensures CategoryCount(valid, Perfect) + CategoryCount(valid, Excellent) + CategoryCount(valid, Good) +
            CategoryCount(valid, Fair) + CategoryCount(valid, Poor) + CategoryCount(valid, Miss) == |valid|
  {
    if |valid| > 0 {
      CategoryCountsSum(valid[1..]);
    }
  }

  // ---------------------------------------------------------------------------
  // Per-channel statistics
  // ---------------------------------------------------------------------------

  datatype TypeStats = TypeStats(count: nat, averageDeviation: real, averagePoints: real)

  predicate OnChannel(b: Beat, c: Channel) {
    b.actualInput.Some? && b.actualInput.value.channel == c
  }

  function TypeBeats(valid: seq<Beat>, c: Channel): seq<Beat> {
    Filter(valid, (b: Beat) => OnChannel(b, c))
  }

  /** The beats of `bs` that carry a deviation. */
  function WithDeviation(bs: seq<Beat>): seq<Beat> {
    Filter(bs, (b: Beat) => b.deviation.Some?)
  }

  /** One channel's entry: how many responses it got, the mean absolute
      deviation of those with a deviation and the mean points of all of
      them, each mean 0 over an empty list. */
  function StatsFor(typeBeats: seq<Beat>): (s: TypeStats)
    ensures s.count == |typeBeats|
    ensures 0.0 <= s.averageDeviation
    ensures var ds := AbsDeviations(WithDeviation(typeBeats));
            && (|ds| > 0 ==> s.averageDeviation * |ds| as real == Sum(ds))
            && (|ds| == 0 ==> s.averageDeviation == 0.0)
    ensures |typeBeats| > 0 ==> s.averagePoints * |typeBeats| as real == Sum(Points(typeBeats))
    ensures |typeBeats| == 0 ==> s.averagePoints == 0.0
  {
    var ds := AbsDeviations(WithDeviation(typeBeats));
    var ps := Points(typeBeats);
    MeanNonNegative(ds, 0.0);
    TypeStats(|typeBeats|, MeanOr(ds, 0.0), MeanOr(ps, 0.0))
  }

  /** A channel has a non-empty `typeBeats` exactly when some beat was hit
      on it. */
  lemma TypeBeatsNonEmpty(valid: seq<Beat>, c: Channel)
    ensures |TypeBeats(valid, c)| > 0 <==> exists b :: b in valid && OnChannel(b, c)
  {
    var tb := TypeBeats(valid, c);
    if exists b :: b in valid && OnChannel(b, c) {
      var b :| b in valid && OnChannel(b, c);
      assert b in tb;
    }
    if |tb| > 0 {
      assert tb[0] in tb;
    }
  }

  /** `inputTypeStats`: an entry for exactly the channels that received at
      least one response, counting those responses. */
  function InputTypeStats(valid: seq<Beat>): (m: map<Channel, TypeStats>)
    ensures forall c :: c in m <==> exists b :: b in valid && OnChannel(b, c)
    ensures forall c :: c in m ==> m[c].count == |TypeBeats(valid, c)| && 0.0 <= m[c].averageDeviation
    ensures forall c :: c in m ==> m[c] == StatsFor(TypeBeats(valid, c))
  {
    var m := map c | c in AllChannels && |TypeBeats(valid, c)| > 0 :: StatsFor(TypeBeats(valid, c));
    assert forall c :: c in m <==> exists b :: b in valid && OnChannel(b, c) by {
      forall c
        ensures c in m <==> exists b :: b in valid && OnChannel(b, c)
      {
        ChannelCoordinates(c, c);
        TypeBeatsNonEmpty(valid, c);
      }
    }
    m
  }

  // ---------------------------------------------------------------------------
  // evaluateSession
  // ---------------------------------------------------------------------------

  /** The session's `audio` training is judged by the auditory norms. */
  function EvaluationMode(t: TrainingType): Norms.NormMode {
    match t
    case Audio => Norms.AuditoryNorms
    case Visual => Norms.VisualNorms
  }

  /** `SessionResults` (without the optional improvement fields).
      `responseRate` is `None` where the source computes `0 / 0`. */
  datatype SessionResults = SessionResults(
    taskAverage: real,
    classLevel: Norms.ClassLevel,
    earlyHitPercent: real,
    lateHitPercent: real,
    onTargetPercent: real,
    totalBeats: nat,
    responsiveBeats: nat,
    missedBeats: nat,
    wrongInputBeats: nat,
    responseRate: Option<real>,
    accuracyRate: real,
    perfectCount: nat,
    excellentCount: nat,
    goodCount: nat,
    fairCount: nat,
    poorCount: nat,
    missCount: nat,
    averagePoints: real,
    consistency: real,
    inputTypeStats: map<Channel, TypeStats>)

  /** The task average (TA): the mean absolute deviation of the correctly-hit
      beats, or the sentinel 999 when there is none. */
  function TaskAverage(beats: seq<Beat>): (ta: real)
    ensures 0.0 <= ta
    ensures |CorrectBeats(beats)| == 0 ==> ta == 999.0
    ensures |CorrectBeats(beats)| > 0 ==> ta * |CorrectBeats(beats)| as real == Sum(AbsDeviations(CorrectBeats(beats)))
  {
    var ds := AbsDeviations(CorrectBeats(beats));
    MeanNonNegative(ds, 999.0);
    var n := |ds| as real;
    if n > 0.0 then DivCancel(Sum(ds), n); MeanOr(ds, 999.0)
    else MeanOr(ds, 999.0)
  }

  /** The points of every responded beat, wrong channels included, divided by
      the number of correctly-hit beats (0 when there is none). */
  function AveragePoints(beats: seq<Beat>): (ap: real)
    ensures |CorrectBeats(beats)| == 0 ==> ap == 0.0
    ensures |CorrectBeats(beats)| > 0 ==> ap * |CorrectBeats(beats)| as real == Sum(Points(ValidBeats(beats)))
  {
    var n := |CorrectBeats(beats)| as real;
    var total := Sum(Points(ValidBeats(beats)));
    if n > 0.0 then
      DivCancel(total, n);
      total / n
    else 0.0
  }

  /** A responded beat of a consistent timeline was hit on the right channel
      or on a wrong one, never both, and carries a feedback record worth
      between 0 and 100 points. */
  lemma RespondedBeatFacts(b: Beat)
    requires Consistent(b) && Responded(b)
    ensures b.isCorrectInput != b.isWrongInput
    ensures b.feedback.Some? && 0.0 <= PointsOr0(b) <= 100.0
  {
  }

  /** On a consistent timeline every response is either correct or wrong. */
  lemma CorrectPlusWrong(beats: seq<Beat>)
    requires forall b :: b in beats ==> Consistent(b)
    ensures |CorrectBeats(beats)| + |WrongBeats(beats)| == |ValidBeats(beats)|
  {
    var valid := ValidBeats(beats);
    forall b | b in valid
      ensures b.isCorrectInput != b.isWrongInput
    {
      RespondedBeatFacts(b);
    }
    FilterSplit(valid, (b: Beat) => b.isCorrectInput, (b: Beat) => b.isWrongInput);
  }

  /** On a consistent timeline the six category counts add up to the number
      of responses. */
  lemma CategoriesCoverResponses(beats: seq<Beat>)
    requires forall b :: b in beats ==> Consistent(b)
    ensures var valid := ValidBeats(beats);
            CategoryCount(valid, Perfect) + CategoryCount(valid, Excellent) + CategoryCount(valid, Good) +
            CategoryCount(valid, Fair) + CategoryCount(valid, Poor) + CategoryCount(valid, Miss) == |valid|
  {
    var valid := ValidBeats(beats);
    forall b | b in valid
      ensures b.feedback.Some?
    {
      RespondedBeatFacts(b);
    }
    CategoryCountsSum(valid);
  }

  /** Without wrong-channel responses the average points are a true mean of
      per-beat points, so they lie in [0, 100]. */
  lemma AveragePointsBounded(beats: seq<Beat>)
    requires forall b :: b in beats ==> Consistent(b)
    requires |WrongBeats(beats)| == 0
    ensures 0.0 <= AveragePoints(beats) <= 100.0
  {
    var valid := ValidBeats(beats);
    CorrectPlusWrong(beats);
    var ps := Points(valid);
    forall i | 0 <= i < |ps|
      ensures 0.0 <= ps[i] <= 100.0
    {
      assert valid[i] in valid;
      RespondedBeatFacts(valid[i]);
    }
    if |valid| > 0 {
      MeanBetween(ps, 0.0, 100.0, 0.0);
    }
  }

  /** With a wrong-channel response in the mix the average can pass 100: an
      exact hit on an expected channel (100 points) and an exact hit on a
      wrong one (50 points) average 150 over the one correct beat. */
  lemma AveragePointsCanExceedHundred(b0: Beat, b1: Beat)
    requires Consistent(b0) && b0.isCorrectInput && b0.actualTime == Some(b0.expectedTime)
    requires Consistent(b1) && b1.isWrongInput && b1.actualTime == Some(b1.expectedTime)
    ensures AveragePoints([b0, b1]) == 150.0
  {
    var beats := [b0, b1];
    assert Abs(b0.actualTime.value - b0.expectedTime) == 0.0;
    assert b0.feedback.value.category == Perfect;
    assert b1.feedback.value.category == Perfect;
    assert b0.feedback.value.points == 100.0 && b1.feedback.value.points == 50.0;
    assert beats[1..] == [b1] && [b1][1..] == [];
    assert Filter([b1], (b: Beat) => Responded(b)) == [b1];
    assert ValidBeats(beats) == beats;
    assert Filter([b1], (b: Beat) => b.isCorrectInput) == [];
    assert CorrectBeats(beats) == [b0];
    var ps := Points(beats);
    assert ps == [100.0, 50.0] && ps[1..] == [50.0] && ps[1..][1..] == [];
    assert Sum([50.0]) == 50.0;
    assert Sum(ps) == 150.0;
  }

  /** A beat that does not count as a correct response leaves the task
      average and the consistency where they were. */
  lemma TaskAverageIgnoresOtherBeats(beats: seq<Beat>, b: Beat, sqrt: real -> real)
    requires !(Responded(b) && b.isCorrectInput)
    ensures CorrectBeats(beats + [b]) == CorrectBeats(beats)
    ensures TaskAverage(beats + [b]) == TaskAverage(beats)
    ensures Consistency(AbsDeviations(CorrectBeats(beats + [b])), sqrt) == Consistency(AbsDeviations(CorrectBeats(beats)), sqrt)
  {
    FilterAppend(beats, [b], (b: Beat) => Responded(b));
    FilterAppend(ValidBeats(beats), Filter([b], (b: Beat) => Responded(b)), (b: Beat) => b.isCorrectInput);
  }

  /** `evaluateSession(beats, userAge, trainingMode)`. */
  function EvaluateSession(beats: seq<Beat>, age: int, mode: TrainingType, sqrt: real -> real): (r: SessionResults)
    ensures r.totalBeats == |beats| && r.responsiveBeats == |ValidBeats(beats)|
    ensures r.responsiveBeats + r.missedBeats == r.totalBeats
    ensures r.classLevel == Norms.DetermineClassByAge(r.taskAverage, age, EvaluationMode(mode))
    ensures 0.0 <= r.taskAverage && 0.0 <= r.consistency <= 100.0
    ensures r.responseRate.None? <==> |beats| == 0
  {
    var valid := ValidBeats(beats);
    var correct := CorrectBeats(beats);
    var deviations := AbsDeviations(correct);
    var taskAverage := TaskAverage(beats);
    var total := |correct|;
    SessionResults(
      taskAverage,
      Norms.DetermineClassByAge(taskAverage, age, EvaluationMode(mode)),
      Percent(EarlyCount(correct), total),
      Percent(LateCount(correct), total),
      Percent(OnTargetCount(correct), total),
      |beats|,
      |valid|,
      |beats| - |valid|,
      |WrongBeats(beats)|,
      if |beats| > 0 then Some(Percent(|valid|, |beats|)) else None,
      Percent(|correct|, |valid|),
      CategoryCount(valid, Perfect),
      CategoryCount(valid, Excellent),
      CategoryCount(valid, Good),
      CategoryCount(valid, Fair),
      CategoryCount(valid, Poor),
      CategoryCount(valid, Miss),
      AveragePoints(beats),
      Consistency(deviations, sqrt),
      InputTypeStats(valid))
  }

  /** The result carries the task average and the consistency of the
      correctly-hit beats. */
  lemma SessionTaskAverage(beats: seq<Beat>, age: int, mode: TrainingType, sqrt: real -> real)
    ensures var r := EvaluateSession(beats, age, mode, sqrt);
            && r.taskAverage == TaskAverage(beats)
            && (|CorrectBeats(beats)| < 2 ==> r.consistency == 100.0)
  {
  }

  /** Every count and rate of the result, in terms of the beats: the hit
      shares are shares of the correct beats, accuracy is the correct share of
      the responses, the response rate the responded share of all beats, and
      the category counts run over the responded beats. */
  lemma SessionFields(beats: seq<Beat>, age: int, mode: TrainingType, sqrt: real -> real)
    ensures var r := EvaluateSession(beats, age, mode, sqrt);
            var correct, valid := CorrectBeats(beats), ValidBeats(beats);
            && r.earlyHitPercent == Percent(EarlyCount(correct), |correct|)
            && r.lateHitPercent == Percent(LateCount(correct), |correct|)
            && r.onTargetPercent == Percent(OnTargetCount(correct), |correct|)
            && r.wrongInputBeats == |WrongBeats(beats)|
            && r.accuracyRate == Percent(|correct|, |valid|)
            && (|beats| > 0 ==> r.responseRate == Some(Percent(|valid|, |beats|)))
            && r.perfectCount == CategoryCount(valid, Perfect)
            && r.excellentCount == CategoryCount(valid, Excellent)
            && r.goodCount == CategoryCount(valid, Good)
            && r.fairCount == CategoryCount(valid, Fair)
            && r.poorCount == CategoryCount(valid, Poor)
            && r.missCount == CategoryCount(valid, Miss)
            && r.averagePoints == AveragePoints(beats)
            && r.consistency == Consistency(AbsDeviations(correct), sqrt)
            && r.inputTypeStats == InputTypeStats(valid)
  {
  }

  /** The early, late and on-target shares partition the correct beats. */
  lemma HitPercentsPartition(beats: seq<Beat>, age: int, mode: TrainingType, sqrt: real -> real)
    ensures var r := EvaluateSession(beats, age, mode, sqrt);
            && (|CorrectBeats(beats)| > 0 ==> r.earlyHitPercent + r.lateHitPercent + r.onTargetPercent == 100.0)
            && (|CorrectBeats(beats)| == 0 ==> r.earlyHitPercent == r.lateHitPercent == r.onTargetPercent == 0.0)
  {
    var correct := CorrectBeats(beats);
    DirectionsPartition(correct);
    PercentsOfPartition(EarlyCount(correct), LateCount(correct), OnTargetCount(correct), |correct|);
  }

  /** Response and accuracy rates are percentages; the accuracy rate of a
      session without responses is 0 (the source's `NaN || 0`). */
  lemma RatesArePercentages(beats: seq<Beat>, age: int, mode: TrainingType, sqrt: real -> real)
    ensures var r := EvaluateSession(beats, age, mode, sqrt);
            && 0.0 <= r.accuracyRate <= 100.0
            && (r.responsiveBeats == 0 ==> r.accuracyRate == 0.0)
            && (r.responseRate.Some? ==> 0.0 <= r.responseRate.value <= 100.0)
            && r.wrongInputBeats <= r.responsiveBeats
  {
    var valid := ValidBeats(beats);
    FilterWeaker(valid, (b: Beat) => b.isCorrectInput, (b: Beat) => true);
    FilterWeaker(valid, (b: Beat) => b.isWrongInput, (b: Beat) => true);
    FilterWeaker(beats, (b: Beat) => Responded(b), (b: Beat) => true);
  }

  /** The per-channel table has an entry exactly for the channels some
      responded beat was hit on. */
  lemma InputTypeStatsKeys(beats: seq<Beat>, age: int, mode: TrainingType, sqrt: real -> real, c: Channel)
    ensures var r := EvaluateSession(beats, age, mode, sqrt);
            c in r.inputTypeStats <==> exists b :: b in beats && Responded(b) && OnChannel(b, c)
  {
    var valid := ValidBeats(beats);
    assert forall b :: b in valid <==> b in beats && Responded(b);
  }

  /** A session that received no input: task average 999, class 1,
      consistency 100, accuracy 0, every beat missed. */
  lemma NoInputSession(p: Patterns.Pattern, bpm: nat, minutes: nat, age: int, mode: TrainingType, sqrt: real -> real)
    requires bpm > 0
    ensures var r := EvaluateSession(BuildSchedule(p, bpm, minutes), age, mode, sqrt);
            && r.taskAverage == 999.0 && r.classLevel == 1 && r.consistency == 100.0
            && r.accuracyRate == 0.0 && r.missedBeats == r.totalBeats == minutes * bpm
            && r.inputTypeStats == map[]
  {
    var beats := BuildSchedule(p, bpm, minutes);
    FilterNone(beats, (b: Beat) => Responded(b));
    Norms.SentinelIsClassOne(age, EvaluationMode(mode));
  }

  // ---------------------------------------------------------------------------
  // Session-to-session improvement and early/late balance
  // ---------------------------------------------------------------------------

  datatype Improvement = Improvement(taImprovement: real, classImprovement: int)

  /** `calculateImprovement(current, previous)`: the relative drop of the task
      average in percent (0 when the previous average is not positive) and the
      change of class. */
  function CalculateImprovement(current: SessionResults, previous: SessionResults): (r: Improvement)
    ensures previous.taskAverage > 0.0 ==>
              r.taImprovement * previous.taskAverage == (previous.taskAverage - current.taskAverage) * 100.0
    ensures previous.taskAverage > 0.0 ==>
              (r.taImprovement > 0.0 <==> current.taskAverage < previous.taskAverage) &&
              (r.taImprovement == 0.0 <==> current.taskAverage == previous.taskAverage)
    ensures previous.taskAverage <= 0.0 ==> r.taImprovement == 0.0
    ensures previous.classLevel + r.classImprovement == current.classLevel
    ensures -6 <= r.classImprovement <= 6
  {
    var ta := if previous.taskAverage > 0.0
              then (previous.taskAverage - current.taskAverage) / previous.taskAverage * 100.0
              else 0.0;
    Improvement(ta, current.classLevel - previous.classLevel)
  }

  /** Comparing two sessions in the other order negates the class change. */
  lemma ClassImprovementAntisymmetric(a: SessionResults, b: SessionResults)
    ensures CalculateImprovement(a, b).classImprovement == -CalculateImprovement(b, a).classImprovement
    ensures CalculateImprovement(a, a) == Improvement(0.0, 0)
  {
  }

  datatype Balance = Balanced | EarlyBiased | LateBiased

  function BalanceLabel(b: Balance): string {
    match b
    case Balanced => "균형잡힘 (Balanced)"
    case EarlyBiased => "조기 편향 (Early-Biased)"
    case LateBiased => "지연 편향 (Late-Biased)"
  }

  /** `evaluateBalance(earlyPercent, latePercent)`: balanced within 10 points,
      otherwise biased towards the larger share. */
  function EvaluateBalance(earlyPercent: real, latePercent: real): (b: Balance)
    ensures b == Balanced <==> Abs(earlyPercent - latePercent) <= 10.0
    ensures b == EarlyBiased <==> earlyPercent > latePercent + 10.0
    ensures b == LateBiased <==> latePercent > earlyPercent + 10.0
  {
    if Abs(earlyPercent - latePercent) <= 10.0 then Balanced
    else if earlyPercent > latePercent then EarlyBiased
    else LateBiased
  }

  /** Swapping the early and late shares swaps the two biases. */
  lemma BalanceMirror(e: real, l: real)
    ensures EvaluateBalance(e, l) == Balanced <==> EvaluateBalance(l, e) == Balanced
    ensures EvaluateBalance(e, l) == EarlyBiased <==> EvaluateBalance(l, e) == LateBiased
  {
  }
}
