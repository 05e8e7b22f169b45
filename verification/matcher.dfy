/** The input matcher inside `handleInput` of app/assessment/page.tsx: bind an
    input to the nearest unmatched beat of a five-beat window around its
    estimated index, or discard it. */
module Matcher {
  import opened Wrappers
  import opened Numbers
  import opened Scoring
  import opened Beats

  /** Inputs further than this from every candidate beat are discarded. */
  const AcceptanceRadiusMs: real := 500.0

  function Distance(beats: seq<Beat>, t: real, i: nat): real
    requires i < |beats|
  {
    Abs(t - beats[i].expectedTime)
  }

  /** `Math.round(inputTimestamp / intervalMs)`. */
  function EstimatedBeatIndex(t: real, interval: real): int
    requires interval > 0.0
  {
    JsRound(t / interval)
  }

  /** `searchStart = max(0, estimate - 2)`. */
  function SearchStart(t: real, interval: real): nat
    requires interval > 0.0
  {
    var e := EstimatedBeatIndex(t, interval);
    if e - 2 < 0 then 0 else e - 2
  }

  /** `searchEnd = min(beats.length - 1, estimate + 2)`. */
  function SearchEnd(n: nat, t: real, interval: real): int
    requires interval > 0.0
  {
    var e := EstimatedBeatIndex(t, interval);
    if n - 1 < e + 2 then n - 1 else e + 2
  }

  /** `k` is the first unmatched beat in `[lo, hi)` at minimal distance from
      `t`, or `None` when every beat there is matched. */
  ghost predicate NearestFirst(beats: seq<Beat>, t: real, lo: nat, hi: nat, k: Option<nat>)
    requires hi <= |beats|
  {
    match k
    case None => forall j :: lo <= j < hi ==> !Unmatched(beats[j])
    case Some(k) =>
      && lo <= k < hi && Unmatched(beats[k])
      && (forall j :: lo <= j < hi && Unmatched(beats[j]) ==> Distance(beats, t, k) <= Distance(beats, t, j))
      && (forall j :: lo <= j < k && Unmatched(beats[j]) ==> Distance(beats, t, k) < Distance(beats, t, j))
  }

  /** The `for (i = searchStart; i <= searchEnd; i++)` loop from `i` on, with
      `best` the `closestBeatIndex` so far (`None` for `-1`, whose
      `minDistance` is `Infinity`). Matched beats are skipped, and only a
      strictly smaller distance replaces the current best. */
  function Scan(beats: seq<Beat>, t: real, ghost lo: nat, i: nat, hi: nat, best: Option<nat>): (k: Option<nat>)
    requires lo <= i <= hi <= |beats|
    requires NearestFirst(beats, t, lo, i, best)
    ensures NearestFirst(beats, t, lo, hi, k)
    decreases hi - i
  {
    if i == hi then best
    else if !Unmatched(beats[i]) then Scan(beats, t, lo, i + 1, hi, best)
    else if best.None? || Distance(beats, t, i) < Distance(beats, t, best.value) then
      Scan(beats, t, lo, i + 1, hi, Some(i))
    else
      Scan(beats, t, lo, i + 1, hi, best)
  }

  /** The candidate beat of the window, if any beat there is unmatched. */
  function ClosestBeat(beats: seq<Beat>, t: real, interval: real): (k: Option<nat>)
    requires interval > 0.0
    ensures var lo, hi := SearchStart(t, interval), SearchEnd(|beats|, t, interval) + 1;
            if lo < hi then NearestFirst(beats, t, lo, hi, k) else k.None?
  {
    var lo, hi := SearchStart(t, interval), SearchEnd(|beats|, t, interval) + 1;
    if lo < hi then Scan(beats, t, lo, lo, hi, None) else None
  }

  /** The beat an input is bound to: the window's candidate, unless there is
      none or it lies more than 500 ms away (exactly 500 ms is accepted). */
  function Decide(beats: seq<Beat>, t: real, interval: real): (k: Option<nat>)
    requires interval > 0.0
    ensures k.Some? ==> k == ClosestBeat(beats, t, interval) && k.value < |beats| &&
                        Unmatched(beats[k.value]) && Distance(beats, t, k.value) <= AcceptanceRadiusMs
    ensures k.None? <==> ClosestBeat(beats, t, interval).None? ||
                         Distance(beats, t, ClosestBeat(beats, t, interval).value) > AcceptanceRadiusMs
  {
    var c := ClosestBeat(beats, t, interval);
    if c.None? || Distance(beats, t, c.value) > AcceptanceRadiusMs then None else c
  }

  /** The `updatedBeat` record: the input, its time, its deviation and its
      evaluation. */
  function Bind(b: Beat, ev: InputEvent): (r: Beat)
    ensures r.beatNumber == b.beatNumber && r.expectedTime == b.expectedTime && r.expectedInput == b.expectedInput
    ensures !Unmatched(r) && Responded(r) && Consistent(r)
    ensures r.actualTime == Some(ev.timestamp) && r.deviation == Some(ev.timestamp - b.expectedTime)
    ensures r.isWrongInput <==> ev.channel !in b.expectedInput.expectedTypes
  {
    var e := EvaluateBeat(b.expectedTime, ev.timestamp, ev.channel, b.expectedInput);
    b.(actualInput := Some(ev), actualTime := Some(ev.timestamp), deviation := Some(e.feedback.deviation),
       isCorrectInput := e.isCorrectInput, isWrongInput := !e.isCorrectInput, feedback := Some(e.feedback))
  }

  /** The number of beats with an input bound to them. */
  function MatchedCount(beats: seq<Beat>): (n: nat)
    ensures n <= |beats|
  {
    if |beats| == 0 then 0
    else (if Unmatched(beats[0]) then 0 else 1) + MatchedCount(beats[1..])
  }

  /** Binding one unmatched beat raises the count by exactly one. */
  lemma {:induction false} MatchedCountBind(beats: seq<Beat>, k: nat, b: Beat)
    requires k < |beats| && Unmatched(beats[k]) && !Unmatched(b)
    ensures MatchedCount(beats[k := b]) == MatchedCount(beats) + 1
  {
    if k > 0 {
      assert beats[k := b][1..] == beats[1..][k - 1 := b];
      MatchedCountBind(beats[1..], k - 1, b);
    } else {
      assert beats[k := b][1..] == beats[1..];
    }
  }

  /** The state updater of `handleInput`: a rejected input leaves the beats
      unchanged; an accepted one rewrites exactly the chosen beat. */
  function HandleInput(beats: seq<Beat>, interval: real, ev: InputEvent): (r: seq<Beat>)
    requires interval > 0.0
    ensures |r| == |beats|
    ensures Decide(beats, ev.timestamp, interval).None? ==> r == beats
    ensures Decide(beats, ev.timestamp, interval).Some? ==>
              var k := Decide(beats, ev.timestamp, interval).value;
              && r[k] == Bind(beats[k], ev)
              && (forall j :: 0 <= j < |beats| && j != k ==> r[j] == beats[j])
              && MatchedCount(r) == MatchedCount(beats) + 1
    ensures forall j :: 0 <= j < |beats| && !Unmatched(beats[j]) ==> r[j] == beats[j]
    ensures (forall j :: 0 <= j < |beats| ==> Consistent(beats[j])) ==>
              forall j :: 0 <= j < |r| ==> Consistent(r[j])
  {
    match Decide(beats, ev.timestamp, interval)
    case None => beats
    case Some(k) =>
      MatchedCountBind(beats, k, Bind(beats[k], ev));
      beats[k := Bind(beats[k], ev)]
  }

  /** A stream of inputs, delivered in order. */
  function HandleAll(beats: seq<Beat>, interval: real, events: seq<InputEvent>): seq<Beat>
    requires interval > 0.0
    decreases |events|
  {
    if |events| == 0 then beats
    else HandleAll(HandleInput(beats, interval, events[0]), interval, events[1..])
  }

  /** Over any stream of inputs: a matched beat is never rebound, the timeline
      keeps its length and stays consistent, and each input binds at most one
      beat. */
  lemma {:induction false} HandleAllExclusive(beats: seq<Beat>, interval: real, events: seq<InputEvent>)
    requires interval > 0.0
    ensures |HandleAll(beats, interval, events)| == |beats|
    ensures forall j :: 0 <= j < |beats| && !Unmatched(beats[j]) ==> HandleAll(beats, interval, events)[j] == beats[j]
    ensures MatchedCount(beats) <= MatchedCount(HandleAll(beats, interval, events)) <= MatchedCount(beats) + |events|
    ensures (forall j :: 0 <= j < |beats| ==> Consistent(beats[j])) ==>
              forall j :: 0 <= j < |beats| ==> Consistent(HandleAll(beats, interval, events)[j])
    decreases |events|
  {
    if |events| > 0 {
      var next := HandleInput(beats, interval, events[0]);
      HandleAllExclusive(next, interval, events[1..]);
    }
  }

  // ---------------------------------------------------------------------------
  // Concrete cases on the assessment schedule (60 beats, 1000 ms apart)
  // ---------------------------------------------------------------------------

  lemma ScheduleDistances(beats: seq<Beat>, t: real)
    requires beats == BuildSchedule(Patterns.LeftHandOnly, AssessmentBpm, AssessmentMinutes)
    ensures |beats| == 60
    ensures forall j :: 0 <= j < 60 ==> Unmatched(beats[j]) && Distance(beats, t, j) == Abs(t - j as real * 1000.0)
  {
    AssessmentSchedule(Patterns.LeftHandOnly);
  }

  /** An input at 1010 ms binds beat 1 (estimate 1, window 0..3). */
  lemma InputNearBeatOne()
    ensures var beats := BuildSchedule(Patterns.LeftHandOnly, AssessmentBpm, AssessmentMinutes);
            Decide(beats, 1010.0, 1000.0) == Some(1)
  {
    var beats := BuildSchedule(Patterns.LeftHandOnly, AssessmentBpm, AssessmentMinutes);
    ScheduleDistances(beats, 1010.0);
    assert EstimatedBeatIndex(1010.0, 1000.0) == 1;
    var k := ClosestBeat(beats, 1010.0, 1000.0);
    assert Distance(beats, 1010.0, 1) == 10.0;
  }

  /** An input at 1700 ms is 300 ms before beat 2, which lies in the window
      (estimate 2), so it binds beat 2 rather than being discarded. */
  lemma InputAtSeventeenHundred()
    ensures var beats := BuildSchedule(Patterns.LeftHandOnly, AssessmentBpm, AssessmentMinutes);
            Decide(beats, 1700.0, 1000.0) == Some(2)
  {
    var beats := BuildSchedule(Patterns.LeftHandOnly, AssessmentBpm, AssessmentMinutes);
    ScheduleDistances(beats, 1700.0);
    assert EstimatedBeatIndex(1700.0, 1000.0) == 2;
    assert Distance(beats, 1700.0, 2) == 300.0;
  }

  /** Exactly half-way between beats 1 and 2 (1500 ms) both are 500 ms away:
      the tie goes to the lower index and the distance of 500 is accepted. */
  lemma TieGoesToLowerIndex()
    ensures var beats := BuildSchedule(Patterns.LeftHandOnly, AssessmentBpm, AssessmentMinutes);
            Decide(beats, 1500.0, 1000.0) == Some(1)
  {
    var beats := BuildSchedule(Patterns.LeftHandOnly, AssessmentBpm, AssessmentMinutes);
    ScheduleDistances(beats, 1500.0);
    assert EstimatedBeatIndex(1500.0, 1000.0) == 2;
    assert Distance(beats, 1500.0, 1) == 500.0;
    assert Distance(beats, 1500.0, 2) == 500.0;
  }

  /** 501 ms before the first beat, no beat is close enough: discarded. */
  lemma JustOutsideRadius()
    ensures var beats := BuildSchedule(Patterns.LeftHandOnly, AssessmentBpm, AssessmentMinutes);
            Decide(beats, -501.0, 1000.0).None?
  {
    var beats := BuildSchedule(Patterns.LeftHandOnly, AssessmentBpm, AssessmentMinutes);
    ScheduleDistances(beats, -501.0);
    assert EstimatedBeatIndex(-501.0, 1000.0) == -1;
    assert Distance(beats, -501.0, 0) == 501.0;
  }
}
