/** The beat timeline: `InputEvent` and `BeatData` of types/evaluation.ts,
    and the session setup of app/assessment/page.tsx (`ASSESSMENT_SEQUENCE`,
    the interval and beat count, the initial beats of `startTest`). */
module Beats {
  import opened Wrappers
  import opened Channels
  import opened Patterns
  import opened Scoring

  /** One input: its channel, its time in ms from the session start, and
      where it came from. */
  datatype InputEvent = InputEvent(channel: Channel, timestamp: real, source: InputSource)

  /** `BeatData`. The fields from `actualInput` on are `null` / `false` until
      an input is bound to the beat. */
  datatype Beat = Beat(
    beatNumber: nat,
    expectedTime: real,
    expectedInput: ExpectedInput,
    actualInput: Option<InputEvent>,
    actualTime: Option<real>,
    deviation: Option<real>,
    isCorrectInput: bool,
    isWrongInput: bool,
    feedback: Option<Feedback>)

  /** The matcher's test: no input has been bound to the beat. */
  predicate Unmatched(b: Beat) {
    b.actualInput.None?
  }

  /** The aggregator's test: the beat has an actual time. */
  predicate Responded(b: Beat) {
    b.actualTime.Some?
  }

  /** A beat as `startTest` creates it. */
  predicate Pristine(b: Beat) {
    && b.actualInput.None? && b.actualTime.None? && b.deviation.None?
    && !b.isCorrectInput && !b.isWrongInput && b.feedback.None?
  }

  /** A beat as the matcher leaves it: pristine, or every actual field set
      from one input and its evaluation. */
  predicate Consistent(b: Beat) {
    || Pristine(b)
    || (&& b.actualInput.Some?
        && b.actualTime == Some(b.actualInput.value.timestamp)
        && b.deviation == Some(b.actualInput.value.timestamp - b.expectedTime)
        && b.isCorrectInput == (b.actualInput.value.channel in b.expectedInput.expectedTypes)
        && b.isWrongInput == !b.isCorrectInput
        && b.feedback == Some(EvaluateBeat(b.expectedTime, b.actualInput.value.timestamp,
                                           b.actualInput.value.channel, b.expectedInput).feedback))
  }

  // ---------------------------------------------------------------------------
  // Session setup
  // ---------------------------------------------------------------------------

  /** The page's fixed tempo and length. */
  const AssessmentBpm: nat := 60
  const AssessmentMinutes: nat := 1

  /** `60000 / BPM`. */
  function IntervalMs(bpm: nat): (iv: real)
    requires bpm > 0
    ensures iv > 0.0
    ensures iv * bpm as real == 60000.0
  {
    60000.0 / bpm as real
  }

  /** `Math.floor(minutes * 60 * 1000 / intervalMs)`: one beat per interval
      of the session, which in exact arithmetic is `minutes * bpm`. */
  function TotalBeats(bpm: nat, minutes: nat): (n: nat)
    requires bpm > 0
    ensures n == minutes * bpm
  {
    var q := (minutes * 60 * 1000) as real / IntervalMs(bpm);
    assert q == (minutes * bpm) as real by {
      assert q * IntervalMs(bpm) == (minutes * 60 * 1000) as real;
      assert (minutes * bpm) as real * IntervalMs(bpm) == minutes as real * (bpm as real * IntervalMs(bpm));
    }
    q.Floor
  }

  function FreshBeat(p: Pattern, interval: real, i: nat): Beat {
    Beat(i, i as real * interval, GenerateExpectedInput(p, i), None, None, None, false, false, None)
  }

  /** The `for` loop of `startTest`: beat `i` is due at `i * intervalMs` and
      nothing has been bound to any beat yet. */
  function BuildSchedule(p: Pattern, bpm: nat, minutes: nat): (beats: seq<Beat>)
    requires bpm > 0
    ensures |beats| == minutes * bpm
    ensures forall i :: 0 <= i < |beats| ==> Pristine(beats[i]) && Unmatched(beats[i]) && !Responded(beats[i])
    ensures forall i :: 0 <= i < |beats| ==> beats[i].beatNumber == i && beats[i].expectedInput.beatNumber == i
    ensures forall i :: 0 <= i < |beats| ==> beats[i].expectedInput == GenerateExpectedInput(p, i)
    ensures forall i :: 0 <= i < |beats| ==> beats[i].expectedTime == i as real * IntervalMs(bpm)
    ensures forall i :: 0 < i < |beats| ==> beats[i].expectedTime - beats[i - 1].expectedTime == IntervalMs(bpm)
  {
    var n := TotalBeats(bpm, minutes);
    seq(n, i requires 0 <= i < n => FreshBeat(p, IntervalMs(bpm), i))
  }

  /** With the page's constants: sixty beats one second apart. */
  lemma AssessmentSchedule(p: Pattern)
    ensures IntervalMs(AssessmentBpm) == 1000.0
    ensures |BuildSchedule(p, AssessmentBpm, AssessmentMinutes)| == 60
    ensures BuildSchedule(p, AssessmentBpm, AssessmentMinutes)[59].expectedTime == 59000.0
  {
  }

  // ---------------------------------------------------------------------------
  // The eight-test battery
  // ---------------------------------------------------------------------------

  datatype AssessmentTest = AssessmentTest(id: nat, name: string, bodyPart: BodyPart, range: TrainingRange, trainingType: TrainingType)

  /** `ASSESSMENT_SEQUENCE`. */
  const AssessmentSequence: seq<AssessmentTest> := [
    AssessmentTest(1, "왼손 청각", Hand, LeftOnly, Audio),
    AssessmentTest(2, "왼손 시각", Hand, LeftOnly, Visual),
    AssessmentTest(3, "오른손 청각", Hand, RightOnly, Audio),
    AssessmentTest(4, "오른손 시각", Hand, RightOnly, Visual),
    AssessmentTest(5, "왼발 청각", Foot, LeftOnly, Audio),
    AssessmentTest(6, "왼발 시각", Foot, LeftOnly, Visual),
    AssessmentTest(7, "오른발 청각", Foot, RightOnly, Audio),
    AssessmentTest(8, "오른발 시각", Foot, RightOnly, Visual)
  ]

  /** The battery covers {hand, foot} x {left, right} x {audio, visual} with
      each combination exactly once, with ids 1 to 8 in order. */
  lemma AssessmentSequenceCoversBattery(bp: BodyPart, side: TrainingRange, tt: TrainingType)
    requires side != Both
    ensures |AssessmentSequence| == 8
    ensures forall i :: 0 <= i < 8 ==> AssessmentSequence[i].id == i + 1 && AssessmentSequence[i].range != Both
    ensures exists i :: 0 <= i < 8 && AssessmentSequence[i].bodyPart == bp &&
                        AssessmentSequence[i].range == side && AssessmentSequence[i].trainingType == tt
    ensures forall i, j :: 0 <= i < j < 8 ==>
              (AssessmentSequence[i].bodyPart, AssessmentSequence[i].range, AssessmentSequence[i].trainingType) !=
              (AssessmentSequence[j].bodyPart, AssessmentSequence[j].range, AssessmentSequence[j].trainingType)
  {
    var k := (if bp == Hand then 0 else 4) + (if side == LeftOnly then 0 else 2) + (if tt == Audio then 0 else 1);
    assert AssessmentSequence[k].bodyPart == bp && AssessmentSequence[k].range == side && AssessmentSequence[k].trainingType == tt;
  }
}
