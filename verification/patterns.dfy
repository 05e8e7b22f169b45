/** `PatternGenerator` of utils/evaluator.ts: which channels count as correct
    on each beat of a training pattern. */
module Patterns {
  import opened Wrappers
  import opened Channels

  /** `TrainingPattern` of types/evaluation.ts. */
  datatype Pattern =
    | LeftHandOnly | RightHandOnly | BothHandsAlternate | BothHandsSimultaneous
    | LeftFootOnly | RightFootOnly | BothFeetAlternate | BothFeetSimultaneous
    | LeftHandRightFoot | RightHandLeftFoot | AllAlternate

  /** `ExpectedInput`: the channels accepted on beat `beatNumber`. */
  datatype ExpectedInput = ExpectedInput(
    beatNumber: nat,
    expectedTypes: seq<Channel>,
    isAlternating: bool,
    alternateIndex: Option<nat>)

  predicate IsSimultaneous(p: Pattern) {
    p == BothHandsSimultaneous || p == BothFeetSimultaneous
  }

  /** The channels a pattern ever asks for. */
  function PatternChannels(p: Pattern): set<Channel> {
    match p
    case LeftHandOnly => {LeftHand}
    case RightHandOnly => {RightHand}
    case BothHandsAlternate => {LeftHand, RightHand}
    case BothHandsSimultaneous => {LeftHand, RightHand}
    case LeftFootOnly => {LeftFoot}
    case RightFootOnly => {RightFoot}
    case BothFeetAlternate => {LeftFoot, RightFoot}
    case BothFeetSimultaneous => {LeftFoot, RightFoot}
    case LeftHandRightFoot => {LeftHand, RightFoot}
    case RightHandLeftFoot => {RightHand, LeftFoot}
    case AllAlternate => {LeftHand, RightHand, LeftFoot, RightFoot}
  }

  function Alternate(n: nat, even: Channel, odd: Channel): ExpectedInput {
    ExpectedInput(n, if n % 2 == 0 then [even] else [odd], true, Some(n % 2))
  }

  function Steady(n: nat, channels: seq<Channel>): ExpectedInput {
    ExpectedInput(n, channels, false, None)
  }

  /** `generateExpectedInput(pattern, beatNumber)`. */
  function GenerateExpectedInput(p: Pattern, n: nat): (e: ExpectedInput)
    ensures e.beatNumber == n
    ensures 1 <= |e.expectedTypes| <= 2
    ensures |e.expectedTypes| == 2 <==> IsSimultaneous(p)
    ensures forall c :: c in e.expectedTypes ==> c in PatternChannels(p)
    ensures e.isAlternating <==> |PatternChannels(p)| > 1 && !IsSimultaneous(p)
  {
    match p
    case LeftHandOnly => Steady(n, [LeftHand])
    case RightHandOnly => Steady(n, [RightHand])
    case BothHandsAlternate => Alternate(n, LeftHand, RightHand)
    case BothHandsSimultaneous => Steady(n, [LeftHand, RightHand])
    case LeftFootOnly => Steady(n, [LeftFoot])
    case RightFootOnly => Steady(n, [RightFoot])
    case BothFeetAlternate => Alternate(n, LeftFoot, RightFoot)
    case BothFeetSimultaneous => Steady(n, [LeftFoot, RightFoot])
    case LeftHandRightFoot => Alternate(n, LeftHand, RightFoot)
    case RightHandLeftFoot => Alternate(n, RightHand, LeftFoot)
    case AllAlternate =>
      ExpectedInput(n, [[LeftHand, RightHand, LeftFoot, RightFoot][n % 4]], true, Some(n % 4))
  }

  /** An independent reading of every non-simultaneous pattern: a fixed cycle
      of channels, beat `n` asking for element `n % length`. */
  function Cycle(p: Pattern): (cyc: seq<Channel>)
    requires !IsSimultaneous(p)
    ensures |cyc| in {1, 2, 4}
  {
    match p
    case LeftHandOnly => [LeftHand]
    case RightHandOnly => [RightHand]
    case BothHandsAlternate => [LeftHand, RightHand]
    case LeftFootOnly => [LeftFoot]
    case RightFootOnly => [RightFoot]
    case BothFeetAlternate => [LeftFoot, RightFoot]
    case LeftHandRightFoot => [LeftHand, RightFoot]
    case RightHandLeftFoot => [RightHand, LeftFoot]
    case AllAlternate => [LeftHand, RightHand, LeftFoot, RightFoot]
  }

  /** The generator agrees with the cycle reading; the alternation index is
      the position in the cycle. */
  lemma GenerateFollowsCycle(p: Pattern, n: nat)
    requires !IsSimultaneous(p)
    ensures GenerateExpectedInput(p, n).expectedTypes == [Cycle(p)[n % |Cycle(p)|]]
    ensures GenerateExpectedInput(p, n).isAlternating <==> |Cycle(p)| > 1
    ensures GenerateExpectedInput(p, n).alternateIndex ==
              if |Cycle(p)| > 1 then Some(n % |Cycle(p)|) else None
  {
  }

  /** The simultaneous patterns ask for both channels of one body part. */
  lemma SimultaneousAsksForBoth(p: Pattern, n: nat)
    requires IsSimultaneous(p)
    ensures var ts := GenerateExpectedInput(p, n).expectedTypes;
            ts[0] != ts[1] && BodyPartOf(ts[0]) == BodyPartOf(ts[1]) && SideOf(ts[0]) == Left
  {
  }

  function Period(p: Pattern): nat {
    if IsSimultaneous(p) then 1 else |Cycle(p)|
  }

  /** The schedule repeats with period 1, 2 or 4: the channels expected on a
      beat depend only on the beat number modulo the period. */
  lemma Periodic(p: Pattern, n1: nat, n2: nat)
    ensures Period(p) in {1, 2, 4}
    ensures n1 % Period(p) == n2 % Period(p) ==>
              GenerateExpectedInput(p, n1).expectedTypes == GenerateExpectedInput(p, n2).expectedTypes
    ensures GenerateExpectedInput(p, n1 + Period(p)).expectedTypes == GenerateExpectedInput(p, n1).expectedTypes
  {
    if !IsSimultaneous(p) {
      GenerateFollowsCycle(p, n1);
      GenerateFollowsCycle(p, n2);
      GenerateFollowsCycle(p, n1 + Period(p));
      var m := Period(p);
      if m == 2 {
        assert (n1 + 2) % 2 == n1 % 2;
      } else if m == 4 {
        assert (n1 + 4) % 4 == n1 % 4;
      }
    }
  }

  // ---------------------------------------------------------------------------
  // settingsToPattern
  // ---------------------------------------------------------------------------

  /** `settingsToPattern(bodyPart, trainingRange)`: `both` is the alternating
      pattern. */
  function SettingsToPattern(bp: BodyPart, range: TrainingRange): Pattern {
    match (bp, range)
    case (Hand, LeftOnly) => LeftHandOnly
    case (Hand, RightOnly) => RightHandOnly
    case (Hand, Both) => BothHandsAlternate
    case (Foot, LeftOnly) => LeftFootOnly
    case (Foot, RightOnly) => RightFootOnly
    case (Foot, Both) => BothFeetAlternate
  }

  /** The patterns a setting can produce are never simultaneous; `both`
      alternates two channels; every channel the pattern asks for on any beat
      belongs to the requested body part and, for one side, to that side. */
  lemma SettingsPatternChannels(bp: BodyPart, range: TrainingRange, n: nat)
    ensures !IsSimultaneous(SettingsToPattern(bp, range))
    ensures GenerateExpectedInput(SettingsToPattern(bp, range), n).isAlternating <==> range == Both
    ensures forall c :: c in GenerateExpectedInput(SettingsToPattern(bp, range), n).expectedTypes ==>
              && BodyPartOf(c) == bp
              && (range == LeftOnly ==> SideOf(c) == Left)
              && (range == RightOnly ==> SideOf(c) == Right)
    ensures range == Both ==>
              SideOf(GenerateExpectedInput(SettingsToPattern(bp, range), n).expectedTypes[0]) ==
              (if n % 2 == 0 then Left else Right)
  {
  }

  /** Distinct settings give distinct patterns. */
  lemma SettingsToPatternInjective(bp1: BodyPart, r1: TrainingRange, bp2: BodyPart, r2: TrainingRange)
    requires SettingsToPattern(bp1, r1) == SettingsToPattern(bp2, r2)
    ensures bp1 == bp2 && r1 == r2
  {
  }
}
