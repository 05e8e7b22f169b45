/** The comprehensive assessment report of utils/assessmentReport.ts: the
    per-domain metrics (processing capability, attention, sustainability,
    hemisphere balance, learning style, brain speed) and their assembly from
    the eight assessment sessions. */
module Report {
  import opened Wrappers
  import opened Channels
  import opened Numbers
  import opened Seqs
  import opened Beats
  import opened Session
  import Norms

  // ---------------------------------------------------------------------------
  // Percentile and performance level of a class
  // ---------------------------------------------------------------------------

  /** `percentileMap`: the class read as a percentile of a normal
      distribution with class 4 at the median. */
  function PercentileOfClass(c: Norms.ClassLevel): (p: int)
    ensures 2 <= p <= 98
    ensures p == 50 <==> c == 4
  {
    match c
    case 7 => 98
    case 6 => 90
    case 5 => 75
    case 4 => 50
    case 3 => 25
    case 2 => 10
    case 1 => 2
  }

  /** A higher class always means a strictly higher percentile. */
  lemma PercentileStrictlyIncreasing(c1: Norms.ClassLevel, c2: Norms.ClassLevel)
    ensures c1 < c2 <==> PercentileOfClass(c1) < PercentileOfClass(c2)
  {
  }

  /** `determinePerformanceLevel`. */
  function PerformanceLevel(c: Norms.ClassLevel): string {
    match c
    case 7 => "아주잘함"
    case 6 => "잘함"
    case 5 => "정상이상"
    case 4 => "정상"
    case 3 => "정상이하"
    case 2 => "못함"
    case 1 => "아주못함"
  }

  /** Distinct classes get distinct level names. */
  lemma PerformanceLevelInjective(c1: Norms.ClassLevel, c2: Norms.ClassLevel)
    ensures PerformanceLevel(c1) == PerformanceLevel(c2) <==> c1 == c2
  {
  }

  /** The percentile of a Task Average against one norm table: the class of
      the first bracket containing it, class 1 when none does. */
  function PercentileInGroup(ta: real, mode: Norms.NormMode, g: Norms.AgeGroup): (p: int)
    ensures 0.0 <= ta ==>
              var t := Norms.StandardsFor(mode, g);
              exists k :: 0 <= k < |t| && Norms.InBracket(t[k], ta) && p == PercentileOfClass(t[k].cls)
  {
    var t := Norms.StandardsFor(mode, g);
    Norms.StandardsWellFormed(mode, g);
    if 0.0 <= ta then Norms.LookupIsUniqueRow(t, ta); PercentileOfClass(Norms.LookupFrom(t, ta, 0))
    else PercentileOfClass(Norms.LookupFrom(t, ta, 0))
  }

  /** `calculatePercentile(taskAverage, age, mode)`: the same first-match
      scan as `determineClassByAge`, read through `percentileMap`. */
  function CalculatePercentile(ta: real, age: int, mode: Norms.NormMode): (p: int)
    ensures p == PercentileOfClass(Norms.DetermineClassByAge(ta, age, mode))
    ensures 2 <= p <= 98
  {
    PercentileInGroup(ta, mode, Norms.GetAgeGroup(age))
  }

  /** A larger Task Average never earns a higher percentile. */
  lemma PercentileMonotone(ta1: real, ta2: real, age: int, mode: Norms.NormMode)
    requires 0.0 <= ta1 <= ta2
    ensures CalculatePercentile(ta2, age, mode) <= CalculatePercentile(ta1, age, mode)
  {
    var c1, c2 := Norms.DetermineClassByAge(ta1, age, mode), Norms.DetermineClassByAge(ta2, age, mode);
    Norms.ClassByAgeMonotone(ta1, ta2, age, mode);
    assert c2 <= c1;
    PercentileStrictlyIncreasing(c2, c1);
    assert CalculatePercentile(ta1, age, mode) == PercentileOfClass(c1);
    assert CalculatePercentile(ta2, age, mode) == PercentileOfClass(c2);
  }

  // ---------------------------------------------------------------------------
  // Processing capability
  // ---------------------------------------------------------------------------

  datatype Capability = Capability(taskAverage: int, percentile: int, level: string, classLevel: Norms.ClassLevel)

  /** The capability record for a given norm table. */
  function CapabilityInGroup(ta: real, cls: Norms.ClassLevel, mode: Norms.NormMode, g: Norms.AgeGroup): (c: Capability)
    ensures c.taskAverage as real - 0.5 <= ta < c.taskAverage as real + 0.5
    ensures c.classLevel == cls && c.level == PerformanceLevel(cls)
    ensures 2 <= c.percentile <= 98
  {
    Capability(JsRound(ta), PercentileInGroup(ta, mode, g), PerformanceLevel(cls), cls)
  }

  /** `calculateProcessingCapability(taskAverage, classLevel, age, mode)`.
      The percentile comes from the Task Average, the level from the class
      passed in. */
  function ProcessingCapability(ta: real, cls: Norms.ClassLevel, age: int, mode: Norms.NormMode): (c: Capability)
    ensures c.percentile == CalculatePercentile(ta, age, mode)
    ensures c.classLevel == cls && c.level == PerformanceLevel(cls)
    ensures c.taskAverage as real - 0.5 <= ta < c.taskAverage as real + 0.5
  {
    CapabilityInGroup(ta, cls, mode, Norms.GetAgeGroup(age))
  }

  /** Percentile and level tell the same story exactly when the class passed
      in is the class of the Task Average. */
  lemma CapabilityAgrees(ta: real, cls: Norms.ClassLevel, age: int, mode: Norms.NormMode)
    ensures var c := ProcessingCapability(ta, cls, age, mode);
            c.percentile == PercentileOfClass(cls) <==> cls == Norms.DetermineClassByAge(ta, age, mode)
  {
    PercentileStrictlyIncreasing(cls, Norms.DetermineClassByAge(ta, age, mode));
    PercentileStrictlyIncreasing(Norms.DetermineClassByAge(ta, age, mode), cls);
  }

  /** The auditory capability as the report computes it: the call at
      utils/assessmentReport.ts:353-357 passes `'auditory'` where the age
      belongs, `getAgeGroup` of a non-number falls through to `over17`, and
      the table of adults is used whatever the profile's age. */
  function AuditoryCapabilityAsWritten(ta: real, cls: Norms.ClassLevel): (c: Capability)
    ensures forall age :: 17 <= age ==> c == ProcessingCapability(ta, cls, age, Norms.AuditoryNorms)
  {
    CapabilityInGroup(ta, cls, Norms.AuditoryNorms, Norms.Over17)
  }

  /** A ten-year-old with an auditory Task Average of 100 ms: the adult
      table puts 100 ms in class 1 (2nd percentile), the table for ages 10-11
      in class 3 (25th percentile). */
  lemma AuditoryAgeCounterexample(cls: Norms.ClassLevel)
    ensures AuditoryCapabilityAsWritten(100.0, cls).percentile == 2
    ensures ProcessingCapability(100.0, cls, 10, Norms.AuditoryNorms).percentile == 25
  {
    var adults := Norms.StandardsFor(Norms.AuditoryNorms, Norms.Over17);
    Norms.ClassByAgeIsUniqueBracket(100.0, 17, Norms.AuditoryNorms);
    assert Norms.InBracket(adults[6], 100.0);
    var children := Norms.StandardsFor(Norms.AuditoryNorms, Norms.Age10to11);
    Norms.ClassByAgeIsUniqueBracket(100.0, 10, Norms.AuditoryNorms);
    assert Norms.InBracket(children[4], 100.0);
  }

  // ---------------------------------------------------------------------------
  // Attention
  // ---------------------------------------------------------------------------

  /** The three-step grading shared by attention and brain speed. */
  datatype Level = Deficient | Average | Superior

  function LevelLabel(l: Level): string {
    match l
    case Deficient => "미달"
    case Average => "보통"
    case Superior => "우수"
  }

  /** The percentile before rounding: 85 below 20 ms, falling linearly from
      70 to 30 over [20, 40) ms, then from 30 towards 5 (and no lower) over
      [40, 100] ms. */
  function AttentionPercentile(sd: real): (p: real)
    ensures sd < 20.0 ==> p == 85.0
    ensures 20.0 <= sd < 40.0 ==> 30.0 < p <= 70.0
    ensures 40.0 <= sd ==> 5.0 <= p <= 30.0
    ensures p == 5.0 <==> 100.0 <= sd
  {
    if sd < 20.0 then 85.0
    else if sd < 40.0 then 70.0 - (sd - 20.0) / 20.0 * 40.0
    else Max(5.0, 30.0 - (sd - 40.0) / 60.0 * 25.0)
  }

  function AttentionLevel(sd: real): (l: Level)
    ensures l == Superior <==> sd < 20.0
    ensures l == Deficient <==> 40.0 <= sd
  {
    if sd < 20.0 then Superior else if sd < 40.0 then Average else Deficient
  }

  /** A steadier tapper (smaller standard deviation) never gets a lower
      attention percentile or level. */
  lemma AttentionMonotone(sd1: real, sd2: real)
    requires sd1 <= sd2
    ensures AttentionPercentile(sd2) <= AttentionPercentile(sd1)
    ensures JsRound(AttentionPercentile(sd2)) <= JsRound(AttentionPercentile(sd1))
  {
    if 20.0 <= sd1 && sd2 < 40.0 {
      assert (sd1 - 20.0) / 20.0 * 40.0 <= (sd2 - 20.0) / 20.0 * 40.0;
    } else if 40.0 <= sd1 {
      assert (sd1 - 40.0) / 60.0 * 25.0 <= (sd2 - 40.0) / 60.0 * 25.0;
    }
    JsRoundMonotone(AttentionPercentile(sd2), AttentionPercentile(sd1));
  }

  /** `AttentionMetrics`; `None` stands for the `NaN` an empty deviation list
      produces. */
  datatype Attention = Attention(percentile: Option<int>, level: Level, standardDeviation: Option<int>)

  /** `calculateAttentionMetrics(deviations)`. `sqrt` stands for `Math.sqrt`.
      Without deviations every number is `NaN`, and since no comparison with
      `NaN` holds the level falls through to `미달`. */
  function CalculateAttention(deviations: seq<real>, sqrt: real -> real): (a: Attention)
    ensures a.percentile.None? <==> |deviations| == 0
    ensures a.standardDeviation.None? <==> |deviations| == 0
    ensures |deviations| == 0 ==> a.level == Deficient
    ensures a.percentile.Some? ==>
              && (a.level == Superior ==> a.percentile.value == 85)
              && (a.level == Average ==> 30 <= a.percentile.value <= 70)
              && (a.level == Deficient ==> 5 <= a.percentile.value <= 30)
    ensures |deviations| > 0 ==>
              var sd := sqrt(Variance(deviations));
              && a.level == AttentionLevel(sd)
              && a.percentile == Some(JsRound(AttentionPercentile(sd)))
              && a.standardDeviation == Some(JsRound(sd))
  {
    if |deviations| == 0 then Attention(None, Deficient, None)
    else
      var sd := sqrt(Variance(deviations));
      var p := AttentionPercentile(sd);
      Attention(Some(JsRound(p)), AttentionLevel(sd), Some(JsRound(sd)))
  }

  // ---------------------------------------------------------------------------
  // Sustainability
  // ---------------------------------------------------------------------------

  /** `SustainabilityMetrics`; `None` stands for the `NaN` mean of an empty
      half. */
  datatype Sustainability = Sustainability(errorRate: int, improvementRate: int,
                                           earlyAverage: Option<int>, lateAverage: Option<int>)

  /** The mean, or `None` for the `NaN` of `0 / 0`. */
  function Mean(s: seq<real>): (m: Option<real>)
    ensures m.None? <==> |s| == 0
    ensures m.Some? ==> m.value * |s| as real == Sum(s)
  {
    if |s| == 0 then None
    else
      DivCancel(Sum(s), |s| as real);
      Some(Sum(s) / |s| as real)
  }

  lemma MeanOfNonNegatives(s: seq<real>)
    ensures (forall i :: 0 <= i < |s| ==> 0.0 <= s[i]) && |s| > 0 ==> 0.0 <= Mean(s).value
  {
    if forall i :: 0 <= i < |s| ==> 0.0 <= s[i] {
      SumNonNegative(s);
    }
  }

  /** `Math.min(100, (diff / base) * 100)` for a positive `diff`; a zero base
      divides to `Infinity`, which the cap turns into 100. */
  function CappedRate(diff: real, base: real): (r: real)
    requires diff > 0.0
    ensures r <= 100.0
    ensures 0.0 <= base ==> 0.0 < r
    ensures base == 0.0 ==> r == 100.0
  {
    if base == 0.0 then 100.0 else Min(100.0, diff / base * 100.0)
  }

  /** The mean of the first half of the list (the shorter half when its
      length is odd). */
  function EarlyMean(deviations: seq<real>): Option<real> {
    Mean(deviations[..|deviations| / 2])
  }

  /** The mean of the second half of the list. */
  function LateMean(deviations: seq<real>): Option<real> {
    Mean(deviations[|deviations| / 2..])
  }

  /** How much the second half of the list is worse (error) or better
      (improvement) than the first, relative to the first. Any `NaN` mean
      makes both comparisons false, so both rates are 0. */
  function CalculateSustainability(deviations: seq<real>): (s: Sustainability)
    ensures s.earlyAverage.None? <==> |deviations| < 2
    ensures s.lateAverage.None? <==> |deviations| == 0
    ensures s.errorRate == 0 || s.improvementRate == 0
    ensures s.errorRate > 0 ==>
              && |deviations| >= 2
              && Mean(deviations[|deviations| / 2..]).value > Mean(deviations[..|deviations| / 2]).value
    ensures s.improvementRate > 0 ==>
              && |deviations| >= 2
              && Mean(deviations[|deviations| / 2..]).value < Mean(deviations[..|deviations| / 2]).value
    ensures (forall i :: 0 <= i < |deviations| ==> 0.0 <= deviations[i]) ==>
              0 <= s.errorRate <= 100 && 0 <= s.improvementRate <= 100
    ensures |deviations| >= 2 ==> s.earlyAverage == Some(JsRound(EarlyMean(deviations).value))
    ensures |deviations| >= 1 ==> s.lateAverage == Some(JsRound(LateMean(deviations).value))
    ensures |deviations| >= 2 ==>
              var early, late := EarlyMean(deviations).value, LateMean(deviations).value;
              && (late > early ==> s.errorRate == JsRound(CappedRate(late - early, early)))
              && (early > late ==> s.improvementRate == JsRound(CappedRate(early - late, early)))
              && (late <= early ==> s.errorRate == 0)
              && (early <= late ==> s.improvementRate == 0)
  {
    var mid := |deviations| / 2;
    var early, late := EarlyMean(deviations), LateMean(deviations);
    var errorRate :=
      if early.Some? && late.Some? && late.value > early.value then CappedRate(late.value - early.value, early.value) else 0.0;
    var improvementRate :=
      if early.Some? && late.Some? && early.value > late.value then CappedRate(early.value - late.value, early.value) else 0.0;
    MeanOfNonNegatives(deviations[..mid]);
    Sustainability(JsRound(errorRate), JsRound(improvementRate),
                   if early.Some? then Some(JsRound(early.value)) else None,
                   if late.Some? then Some(JsRound(late.value)) else None)
  }

  /** An unchanging performance shows neither error nor improvement. */
  lemma SteadyPerformance(deviations: seq<real>, d: real)
    requires |deviations| >= 2
    requires forall i :: 0 <= i < |deviations| ==> deviations[i] == d
    ensures var s := CalculateSustainability(deviations);
            s.errorRate == 0 && s.improvementRate == 0 &&
            s.earlyAverage == Some(JsRound(d)) && s.lateAverage == Some(JsRound(d))
  {
    var mid := |deviations| / 2;
    var a, b := deviations[..mid], deviations[mid..];
    SumBounds(a, d, d);
    SumBounds(b, d, d);
    assert Mean(a).value == d by {
      assert Mean(a).value * |a| as real == d * |a| as real;
    }
    assert Mean(b).value == d by {
      assert Mean(b).value * |b| as real == d * |b| as real;
    }
  }

  /** A perfect first half (mean 0) followed by any error reads as a 100 %
      error rate: the source divides by zero and caps the `Infinity`. */
  lemma ErrorFromPerfectStart(deviations: seq<real>)
    requires |deviations| >= 2
    requires forall i :: 0 <= i < |deviations| / 2 ==> deviations[i] == 0.0
    requires forall i :: |deviations| / 2 <= i < |deviations| ==> 0.0 <= deviations[i]
    requires exists i :: |deviations| / 2 <= i < |deviations| && deviations[i] > 0.0
    ensures CalculateSustainability(deviations).errorRate == 100
  {
    var mid := |deviations| / 2;
    var a, b := deviations[..mid], deviations[mid..];
    SumBounds(a, 0.0, 0.0);
    assert Mean(a) == Some(0.0);
    var i :| mid <= i < |deviations| && deviations[i] > 0.0;
    PositiveTermPositiveSum(b, i - mid);
    DivPositive(Sum(b), |b| as real);
    assert Mean(b).value > 0.0;
    assert CappedRate(Mean(b).value - 0.0, 0.0) == 100.0;
  }

  lemma {:induction false} PositiveTermPositiveSum(s: seq<real>, k: nat)
    requires k < |s| && 0.0 < s[k]
    requires forall i :: 0 <= i < |s| ==> 0.0 <= s[i]
    ensures 0.0 < Sum(s)
  {
    if k == 0 {
      SumNonNegative(s[1..]);
    } else {
      PositiveTermPositiveSum(s[1..], k - 1);
    }
  }

  // ---------------------------------------------------------------------------
  // Hemisphere balance
  // ---------------------------------------------------------------------------

  datatype Correlation = High | Moderate | Low

  function CorrelationLabel(c: Correlation): string {
    match c
    case High => "높음"
    case Moderate => "보통"
    case Low => "낮음"
  }

  /** `HemisphereBalance`; `None` stands for a `NaN` or infinite share. */
  datatype Hemisphere = Hemisphere(leftBrain: Option<int>, rightBrain: Option<int>, correlation: Correlation, difference: Option<int>)

  /** The right side's share of the summed averages, in percent. */
  function RightShare(left: real, right: real): real
    requires left + right != 0.0
  {
    right / (left + right) * 100.0
  }

  /** `Math.round` of the right side's share, undefined (`NaN`) when a side
      average is undefined or the total is zero. */
  function RightBrainShare(left: Option<real>, right: Option<real>): Option<int> {
    if left.None? || right.None? || left.value + right.value == 0.0 then None
    else Some(JsRound(RightShare(left.value, right.value)))
  }

  /** For non-negative averages the share is a percentage that leans towards
      the larger average. */
  lemma RightShareBounds(left: real, right: real)
    requires left + right != 0.0
    ensures 0.0 <= left && 0.0 <= right ==>
              && 0.0 <= RightShare(left, right) <= 100.0
              && (left <= right ==> 50.0 <= RightShare(left, right))
              && (right <= left ==> RightShare(left, right) <= 50.0)
  {
    if 0.0 <= left && 0.0 <= right {
      var t := left + right;
      assert right / t <= 1.0;
      assert left <= right ==> 0.5 <= right / t;
      assert right <= left ==> right / t <= 0.5;
    }
  }

  /** `calculateHemisphereBalance(leftSideAverage, rightSideAverage)`: the
      right brain (which drives the left side) gets the right side's share
      of the summed averages, so a better (lower) left-side average means a
      higher right-brain share. An undefined side average (`None`) or a zero
      total leaves the shares undefined and the correlation `낮음`. */
  function CalculateHemisphereBalance(left: Option<real>, right: Option<real>): (h: Hemisphere)
    ensures h.rightBrain.None? <==> left.None? || right.None? || left.value + right.value == 0.0
    ensures h.rightBrain.None? ==> h.leftBrain.None? && h.difference.None? && h.correlation == Low
    ensures h.rightBrain.Some? ==>
              && h.leftBrain.Some? && h.difference.Some?
              && h.leftBrain.value + h.rightBrain.value == 100
              && 0 <= h.difference.value
              && (h.difference.value == h.leftBrain.value - h.rightBrain.value ||
                  h.difference.value == h.rightBrain.value - h.leftBrain.value)
              && (h.correlation == High <==> h.difference.value < 10)
              && (h.correlation == Low <==> 20 <= h.difference.value)
    ensures h.rightBrain.Some? && 0.0 <= left.value && 0.0 <= right.value ==>
              && 0 <= h.rightBrain.value <= 100
              && (left.value <= right.value ==> 50 <= h.rightBrain.value)
              && (right.value <= left.value ==> h.rightBrain.value <= 50)
    ensures h.rightBrain == RightBrainShare(left, right)
  {
    if left.None? || right.None? || left.value + right.value == 0.0 then Hemisphere(None, None, Low, None)
    else
      RightShareBounds(left.value, right.value);
      var rightBrain := JsRound(RightShare(left.value, right.value));
      var leftBrain := 100 - rightBrain;
      var difference := if leftBrain < rightBrain then rightBrain - leftBrain else leftBrain - rightBrain;
      var correlation := if difference < 10 then High else if difference < 20 then Moderate else Low;
      Hemisphere(Some(leftBrain), Some(rightBrain), correlation, Some(difference))
  }

  /** Swapping the two sides mirrors the shares, up to the half-up rounding
      of an exact tie (then the two right-brain shares add up to 101). */
  lemma HemisphereMirror(l: real, r: real)
    requires 0.0 < l + r
    ensures var h := CalculateHemisphereBalance(Some(l), Some(r));
            var m := CalculateHemisphereBalance(Some(r), Some(l));
            100 <= h.rightBrain.value + m.rightBrain.value <= 101
  {
    var t := l + r;
    assert RightShare(l, r) + RightShare(r, l) == 100.0 by {
      assert r / t + l / t == (r + l) / t;
      assert r + l == l + r;
    }
  }

  // ---------------------------------------------------------------------------
  // Learning style and brain speed
  // ---------------------------------------------------------------------------

  datatype Style = BalancedStyle | VisualStyle | AuditoryStyle

  function StyleLabel(s: Style): string {
    match s
    case BalancedStyle => "균형적"
    case VisualStyle => "시각우성"
    case AuditoryStyle => "청각우성"
  }

  datatype LearningStyle = LearningStyle(dominantStyle: Style, difference: int, dominantLabel: string)

  /** `determineLearningStyle(visualPercentile, auditoryPercentile)`:
      balanced within 5 percentile points, otherwise the higher one
      dominates. */
  function DetermineLearningStyle(visual: int, auditory: int): (s: LearningStyle)
    ensures s.difference >= 0 && (s.difference == visual - auditory || s.difference == auditory - visual)
    ensures s.dominantStyle == BalancedStyle <==> s.difference < 5
    ensures s.dominantStyle == VisualStyle <==> visual >= auditory + 5
    ensures s.dominantStyle == AuditoryStyle <==> auditory >= visual + 5
    ensures s.dominantLabel == StyleLabel(s.dominantStyle)
  {
    var difference := if visual < auditory then auditory - visual else visual - auditory;
    var style := if difference < 5 then BalancedStyle else if visual > auditory then VisualStyle else AuditoryStyle;
    LearningStyle(style, difference, StyleLabel(style))
  }

  /** Exchanging the two percentiles exchanges the two dominant styles. */
  lemma LearningStyleMirror(v: int, a: int)
    ensures DetermineLearningStyle(v, a).difference == DetermineLearningStyle(a, v).difference
    ensures DetermineLearningStyle(v, a).dominantStyle == VisualStyle <==>
            DetermineLearningStyle(a, v).dominantStyle == AuditoryStyle
  {
  }

  datatype BrainSpeed = BrainSpeed(taskAverage: int, level: Level, percentile: int)

  /** `calculateBrainSpeed(visualTaskAverage, auditoryTaskAverage)`: the
      rounded mean of the two, graded at 50 and 100 ms. */
  function CalculateBrainSpeed(visualTa: real, auditoryTa: real): (b: BrainSpeed)
    ensures b.taskAverage as real - 0.5 <= (visualTa + auditoryTa) / 2.0 < b.taskAverage as real + 0.5
    ensures b.level == Superior <==> b.taskAverage < 50
    ensures b.level == Deficient <==> 100 <= b.taskAverage
    ensures b.percentile == (match b.level case Superior => 85 case Average => 50 case Deficient => 15)
  {
    var ta := JsRound((visualTa + auditoryTa) / 2.0);
    if ta < 50 then BrainSpeed(ta, Superior, 85)
    else if ta < 100 then BrainSpeed(ta, Average, 50)
    else BrainSpeed(ta, Deficient, 15)
  }

  /** Brain speed treats the two modalities alike, and slower processing
      never earns a higher percentile. */
  lemma BrainSpeedSymmetricMonotone(v1: real, a1: real, v2: real, a2: real)
    requires v1 + a1 <= v2 + a2
    ensures CalculateBrainSpeed(v1, a1) == CalculateBrainSpeed(a1, v1)
    ensures CalculateBrainSpeed(v2, a2).percentile <= CalculateBrainSpeed(v1, a1).percentile
  {
    assert (v1 + a1) / 2.0 == (a1 + v1) / 2.0;
    JsRoundMonotone((v1 + a1) / 2.0, (v2 + a2) / 2.0);
  }

  // ---------------------------------------------------------------------------
  // The comprehensive report
  // ---------------------------------------------------------------------------

  datatype UserProfile = UserProfile(name: string, gender: string, age: int)

  datatype Settings = Settings(trainingType: TrainingType, bodyPart: BodyPart, trainingRange: TrainingRange)

  /** `TrainingSession`, with the fields the report reads. */
  datatype TrainingSession = TrainingSession(userProfile: UserProfile, settings: Settings,
                                             beats: seq<Beat>, results: Option<SessionResults>)

  datatype IndividualResult = IndividualResult(testName: string, sessionResults: Option<SessionResults>)

  datatype ComprehensiveReport = ComprehensiveReport(
    name: string,
    gender: string,
    age: int,
    visualCapability: Capability,
    auditoryCapability: Capability,
    learningStyle: LearningStyle,
    visualAttention: Attention,
    auditoryAttention: Attention,
    brainSpeed: BrainSpeed,
    visualSustainability: Sustainability,
    auditorySustainability: Sustainability,
    hemisphereBalance: Hemisphere,
    individualResults: seq<IndividualResult>,
    sessions: seq<TrainingSession>)

  /** `testNames`, in battery order. */
  const TestNames: seq<string> := [
    "왼손 청각", "왼손 시각", "오른손 청각", "오른손 시각",
    "왼발 청각", "왼발 시각", "오른발 청각", "오른발 시각"
  ]

  /** The report's test names are the assessment page's test names. */
  lemma TestNamesMatchBattery()
    ensures |TestNames| == |AssessmentSequence|
    ensures forall i :: 0 <= i < |TestNames| ==> TestNames[i] == AssessmentSequence[i].name
  {
  }

  /** `s.results?.taskAverage || 0`. */
  function TaskAverageOr0(s: TrainingSession): real {
    if s.results.Some? then s.results.value.taskAverage else 0.0
  }

  function TaskAverages(sessions: seq<TrainingSession>): (tas: seq<real>)
    ensures |tas| == |sessions|
    ensures forall i :: 0 <= i < |sessions| ==> tas[i] == TaskAverageOr0(sessions[i])
  {
    seq(|sessions|, i requires 0 <= i < |sessions| => TaskAverageOr0(sessions[i]))
  }

  /** `s.results?.classLevel || 1`. */
  function ClassOr1(s: TrainingSession): Norms.ClassLevel {
    if s.results.Some? then s.results.value.classLevel else 1
  }

  /** The absolute deviations of a session's correctly-hit beats that have a
      deviation. */
  function CorrectDeviations(beats: seq<Beat>): (ds: seq<real>)
    ensures forall i :: 0 <= i < |ds| ==> 0.0 <= ds[i]
  {
    AbsDeviations(Filter(beats, (b: Beat) => b.deviation.Some? && b.isCorrectInput))
  }

  /** The `forEach` that pools the deviations of the sessions of one
      modality, in session order. */
  function PooledDeviations(sessions: seq<TrainingSession>, visual: bool): (ds: seq<real>)
    ensures forall i :: 0 <= i < |ds| ==> 0.0 <= ds[i]
  {
    if |sessions| == 0 then []
    else
      var rest := PooledDeviations(sessions[1..], visual);
      if (sessions[0].settings.trainingType == Visual) == visual then CorrectDeviations(sessions[0].beats) + rest
      else rest
  }

  function OfType(sessions: seq<TrainingSession>, t: TrainingType): seq<TrainingSession> {
    Filter(sessions, (s: TrainingSession) => s.settings.trainingType == t)
  }

  function OnSide(sessions: seq<TrainingSession>, r: TrainingRange): seq<TrainingSession> {
    Filter(sessions, (s: TrainingSession) => s.settings.trainingRange == r)
  }

  /** `individualResults`: each session's results under the name of the
      battery test at its position. */
  function IndividualResults(sessions: seq<TrainingSession>): (rs: seq<IndividualResult>)
    requires |sessions| == 8
    ensures |rs| == 8
    ensures forall i :: 0 <= i < 8 ==> rs[i] == IndividualResult(AssessmentSequence[i].name, sessions[i].results)
  {
    TestNamesMatchBattery();
    seq(8, i requires 0 <= i < 8 => IndividualResult(TestNames[i], sessions[i].results))
  }

  /** The report the source assembles once both modalities have a session.
      As in the source, the auditory capability is graded on the adult table
      whatever the profile's age (`AuditoryCapabilityAsWritten`). */
  function AssembleReport(sessions: seq<TrainingSession>, sqrt: real -> real): (rep: ComprehensiveReport)
    requires |sessions| == 8 && |OfType(sessions, Visual)| > 0 && |OfType(sessions, Audio)| > 0
    ensures var profile := sessions[0].userProfile;
            var visualTa := Mean(TaskAverages(OfType(sessions, Visual))).value;
            var auditoryTa := Mean(TaskAverages(OfType(sessions, Audio))).value;
            && rep.name == profile.name && rep.gender == profile.gender && rep.age == profile.age
            && rep.visualCapability == ProcessingCapability(visualTa, ClassOr1(OfType(sessions, Visual)[0]),
                                                            profile.age, Norms.VisualNorms)
            && rep.auditoryCapability == AuditoryCapabilityAsWritten(auditoryTa, ClassOr1(OfType(sessions, Audio)[0]))
            && rep.learningStyle == DetermineLearningStyle(rep.visualCapability.percentile, rep.auditoryCapability.percentile)
            && rep.visualAttention == CalculateAttention(PooledDeviations(sessions, true), sqrt)
            && rep.auditoryAttention == CalculateAttention(PooledDeviations(sessions, false), sqrt)
            && rep.brainSpeed == CalculateBrainSpeed(visualTa, auditoryTa)
            && rep.visualSustainability == CalculateSustainability(PooledDeviations(sessions, true))
            && rep.auditorySustainability == CalculateSustainability(PooledDeviations(sessions, false))
            && rep.hemisphereBalance == CalculateHemisphereBalance(Mean(TaskAverages(OnSide(sessions, LeftOnly))),
                                                                   Mean(TaskAverages(OnSide(sessions, RightOnly))))
            && |rep.individualResults| == 8
            && (forall i :: 0 <= i < 8 ==>
                  rep.individualResults[i] == IndividualResult(AssessmentSequence[i].name, sessions[i].results))
            && rep.sessions == sessions
  {
    var visualSessions := OfType(sessions, Visual);
    var auditorySessions := OfType(sessions, Audio);
    var profile := sessions[0].userProfile;
    var visualTa := Mean(TaskAverages(visualSessions)).value;
    var auditoryTa := Mean(TaskAverages(auditorySessions)).value;
    var leftTa := Mean(TaskAverages(OnSide(sessions, LeftOnly)));
    var rightTa := Mean(TaskAverages(OnSide(sessions, RightOnly)));
    var visualDeviations := PooledDeviations(sessions, true);
    var auditoryDeviations := PooledDeviations(sessions, false);
    var visualCapability := ProcessingCapability(visualTa, ClassOr1(visualSessions[0]), profile.age, Norms.VisualNorms);
    var auditoryCapability := AuditoryCapabilityAsWritten(auditoryTa, ClassOr1(auditorySessions[0]));
    ComprehensiveReport(
      profile.name,
      profile.gender,
      profile.age,
      visualCapability,
      auditoryCapability,
      DetermineLearningStyle(visualCapability.percentile, auditoryCapability.percentile),
      CalculateAttention(visualDeviations, sqrt),
      CalculateAttention(auditoryDeviations, sqrt),
      CalculateBrainSpeed(visualTa, auditoryTa),
      CalculateSustainability(visualDeviations),
      CalculateSustainability(auditoryDeviations),
      CalculateHemisphereBalance(leftTa, rightTa),
      IndividualResults(sessions),
      sessions)
  }

  /** `generateComprehensiveReport(sessions)`. The source throws unless there
      are exactly eight sessions, and throws again when it reads the first
      visual or the first auditory session and there is none; both become a
      `Failure`. Otherwise the report is the one `AssembleReport` states;
      `CorrectedComprehensiveReport` passes the age to the auditory grading. */
  function GenerateComprehensiveReport(sessions: seq<TrainingSession>, sqrt: real -> real): (r: Result<ComprehensiveReport>)
    ensures r.Failure? <==> |sessions| != 8 || |OfType(sessions, Visual)| == 0 || |OfType(sessions, Audio)| == 0
    ensures r.Success? ==> r.value == AssembleReport(sessions, sqrt)
  {
    if |sessions| != 8 then Failure("Comprehensive report requires exactly 8 assessment sessions")
    else if |OfType(sessions, Visual)| == 0 || |OfType(sessions, Audio)| == 0 then
      Failure("Cannot read properties of undefined (reading 'results')")
    else Success(AssembleReport(sessions, sqrt))
  }

  /** The report with the auditory capability graded on the table of the
      profile's age, as the visual one is. It differs from the report as
      written in the auditory capability and the learning style only. */
  function CorrectedComprehensiveReport(sessions: seq<TrainingSession>, sqrt: real -> real): (r: Result<ComprehensiveReport>)
    ensures r.Failure? <==> GenerateComprehensiveReport(sessions, sqrt).Failure?
    ensures r.Success? ==>
              var rep := r.value;
              var asWritten := GenerateComprehensiveReport(sessions, sqrt).value;
              && rep.auditoryCapability == ProcessingCapability(Mean(TaskAverages(OfType(sessions, Audio))).value,
                                                                ClassOr1(OfType(sessions, Audio)[0]),
                                                                sessions[0].userProfile.age, Norms.AuditoryNorms)
              && rep.learningStyle == DetermineLearningStyle(rep.visualCapability.percentile, rep.auditoryCapability.percentile)
              && rep.(auditoryCapability := asWritten.auditoryCapability, learningStyle := asWritten.learningStyle) == asWritten
  {
    match GenerateComprehensiveReport(sessions, sqrt)
    case Failure(e) => Failure(e)
    case Success(rep) =>
      var auditory := ProcessingCapability(Mean(TaskAverages(OfType(sessions, Audio))).value,
                                           ClassOr1(OfType(sessions, Audio)[0]), rep.age, Norms.AuditoryNorms);
      Success(rep.(auditoryCapability := auditory,
                   learningStyle := DetermineLearningStyle(rep.visualCapability.percentile, auditory.percentile)))
  }

  /** For a profile aged 17 or over the two reports coincide: only younger
      users are graded on the wrong auditory table. */
  lemma AdultReportsAgree(sessions: seq<TrainingSession>, sqrt: real -> real)
    requires |sessions| > 0 && 17 <= sessions[0].userProfile.age
    ensures CorrectedComprehensiveReport(sessions, sqrt) == GenerateComprehensiveReport(sessions, sqrt)
  {
  }

  /** Sessions recorded in the order of the assessment battery always yield a
      report. */
  lemma BatteryOrderReports(sessions: seq<TrainingSession>, sqrt: real -> real)
    requires |sessions| == 8
    requires forall i :: 0 <= i < 8 ==> sessions[i].settings.trainingType == AssessmentSequence[i].trainingType
    ensures GenerateComprehensiveReport(sessions, sqrt).Success?
  {
    assert sessions[0] in OfType(sessions, Audio);
    assert sessions[1] in OfType(sessions, Visual);
  }
}
