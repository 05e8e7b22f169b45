# Timing-evaluation engine of timing-trainer, in Dafny

timing-trainer is an Interactive-Metronome-style rhythm trainer. A session is a
timeline of beats; each beat expects one or two of four input channels
(left/right hand, left/right foot). Taps are matched to beats, scored against
fixed timing thresholds, and aggregated into a Task Average (TA, the mean
absolute deviation in ms). The TA is then graded against age- and
modality-specific norm tables (classes 7 down to 1). Eight such sessions (hand/foot
× left/right × visual/auditory) are finally synthesised into a comprehensive
report: percentiles, attention, sustainability, hemisphere balance, learning
style and brain speed.

This project models that engine as pure Dafny functions over immutable
datatypes and proves its properties. Times are exact `real` milliseconds.
JavaScript's `NaN` is modelled as `Option.None` wherever the source can
produce it. `Math.round` is `floor(x + 0.5)` (`Numbers.JsRound`). `Math.sqrt`
is a function-valued parameter `sqrt`; nothing is assumed about it except
where a lemma states it (`sqrt(0) = 0`).

Modules, one per concern:

| file | module | models |
|---|---|---|
| wrappers.dfy | Wrappers | `Option` / `Result` |
| channels.dfy | Channels | `InputType`, body part, side, training settings |
| numbers.dfy | Numbers | `Math.abs`, `Math.round`, clamping, sums |
| seqs.dfy | Seqs | `Array.prototype.filter` and counting lemmas |
| norms.dfy | Norms | `getAgeGroup`, `AGE_BASED_STANDARDS`, `CLASS_DEFINITIONS`, `determineClassByAge`, `determineClass` |
| patterns.dfy | Patterns | `PatternGenerator` |
| scoring.dfy | Scoring | `FEEDBACK_THRESHOLDS`, `isCorrectInput`, `evaluateBeat` |
| beats.dfy | Beats | `BeatData`, the assessment schedule, `ASSESSMENT_SEQUENCE` |
| matcher.dfy | Matcher | the beat matcher inside `handleInput` |
| session.dfy | Session | `calculateConsistency`, `evaluateSession`, `calculateImprovement`, `evaluateBalance` |
| profile.dfy | Profile | `calculateAge` |
| report.dfy | Report | utils/assessmentReport.ts |
| inputmapping.dfy | InputMapping | config/inputMapping.ts |
| timeformat.dfy | TimeFormat | `formatTime` |

Behaviour of the code that the model keeps as it is:

- The matcher estimates the beat index as `Math.round(t / interval)` and
  searches two beats either side (app/assessment/page.tsx:201-214). An input
  at 1700 ms on a one-second schedule therefore has beat 2 (300 ms away) in
  its window and binds it (`Matcher.InputAtSeventeenHundred`).
- The six feedback-category counts of `evaluateSession` run over the
  responded beats only (utils/evaluator.ts:337-344).
- `responseRate` is `validBeats.length / beats.length * 100` with no guard
  (utils/evaluator.ts:391), so an empty timeline gives `NaN`, modelled as
  `None`.
- `averagePoints` divides the points of every responded beat, wrong channels
  included, by the number of correct beats (utils/evaluator.ts:346-350). So
  it can exceed 100 (`Session.AveragePointsCanExceedHundred`), although the
  field is documented as 0-100 (types/evaluation.ts:367). It stays within
  [0, 100] when there is no wrong-channel response
  (`Session.AveragePointsBounded`).
- The report grades the auditory capability on the adult table whatever the
  user's age (utils/assessmentReport.ts:353-357); see "## Findings".

## Model

| member | source | states |
|---|---|---|
| Channels.ChannelCoordinates | types/evaluation.ts:21 | a channel is fixed by its body part and side; the four channels are listed once each |
| Norms.GetAgeGroup | utils/evaluator.ts:46-53 | the six age groups partition all ages: ≤7, 8-9, 10-11, 12-13, 14-16, ≥17, each as an if-and-only-if |
| Norms.AgeGroupMonotone | utils/evaluator.ts:46-53 | an older age never falls in a younger group |
| Norms.LookupFrom | utils/evaluator.ts:58-73 | the scan returns the class of the first bracket with lo ≤ TA < hi, or 1 when no bracket contains TA |
| Norms.StandardsWellFormed | types/evaluation.ts:84-202 | each of the 12 tables has 7 rows, classes 7..1 in order, starts at 0, ends at Infinity, adjacent rows share endpoints, class-1 lower bound ≤ 250 |
| Norms.ClassDefinitionsWellFormed | types/evaluation.ts:204-254 | `CLASS_DEFINITIONS` is the chain [0,20), [20,40), [40,80), [80,120), [120,180), [180,250), [250,∞) for classes 7..1 |
| Norms.LookupIsUniqueRow | utils/evaluator.ts:58-73 | in a well-formed table each TA ≥ 0 lies in exactly one row, and the lookup returns that row's class |
| Norms.NegativeFallsBack | utils/evaluator.ts:58-73 | a negative TA matches no row and gets the fallback class 1 |
| Norms.LookupMonotone | types/evaluation.ts:84-202 | in a well-formed table a larger non-negative TA never yields a higher class |
| Norms.AtLeastLastLowerBound | types/evaluation.ts:84-202 | any TA at or above the class-1 lower bound gets class 1 |
| Norms.ClassByAgeIsUniqueBracket | utils/evaluator.ts:58-73 | for every age and mode, a TA ≥ 0 lies in exactly one bracket of its table and `determineClassByAge` returns its class |
| Norms.ClassByAgeMonotone | types/evaluation.ts:84-202 | for every age and mode, a larger TA never yields a higher class |
| Norms.SentinelIsClassOne | types/evaluation.ts:97-198 | the no-response sentinel TA 999 is class 1 in every table and under `determineClass` |
| Norms.DetermineClassIsUniqueBracket | utils/evaluator.ts:275-282 | `determineClass` returns the class of the unique `CLASS_DEFINITIONS` bracket containing a TA ≥ 0, and is monotone |
| Norms.AuditoryFourteenAtTwentyTwo | types/evaluation.ts:126-134 | auditory, age 14, TA 22 lies in [20,25) and is class 6 |
| Patterns.GenerateExpectedInput | utils/evaluator.ts:83-178 | the beat number is kept; 1 or 2 channels, 2 exactly for the simultaneous patterns; channels come from the pattern; alternating iff the pattern has several channels and is not simultaneous |
| Patterns.Cycle | utils/evaluator.ts:83-178 | a non-simultaneous pattern's channel cycle has length 1, 2 or 4 |
| Patterns.GenerateFollowsCycle | utils/evaluator.ts:83-178 | beat n of a non-simultaneous pattern expects exactly the channel at position n mod cycle length |
| Patterns.SimultaneousAsksForBoth | utils/evaluator.ts:83-178 | the simultaneous patterns ask for both hands or both feet on every beat |
| Patterns.Periodic | utils/evaluator.ts:83-178 | beats congruent modulo the period (1, 2 or 4) expect the same channels |
| Patterns.SettingsPatternChannels | utils/evaluator.ts:183-196 | `both` gives the alternating pattern, never a simultaneous one, and every generated channel belongs to the requested body part and side |
| Patterns.SettingsToPatternInjective | utils/evaluator.ts:183-196 | different settings give different patterns |
| Scoring.ThresholdsOrdered | types/evaluation.ts:269-306 | thresholds strictly increase 15<30<50<80<120<∞ while points strictly decrease 100>90>75>60>40>0 |
| Scoring.CategoryFor | utils/evaluator.ts:230-244 | the category is the best one whose inclusive bound admits the absolute deviation |
| Scoring.DirectionOf | utils/evaluator.ts:249 | on-time iff abs(dev) ≤ 5, early iff dev < -5, late iff dev > 5 |
| Scoring.DirectionMirror | utils/evaluator.ts:249 | negating a deviation swaps early and late and keeps on-time; a later tap is never classed earlier |
| Scoring.EvaluateBeat | utils/evaluator.ts:217-270 | deviation = actual − expected; correct iff the channel is expected; best admitting category; direction band; full or half points; colour and `WRONG INPUT - ` message; points in [0,100] |
| Scoring.CategoryDependsOnlyOnMagnitude | utils/evaluator.ts:225-244 | the category depends only on abs(actual − expected), not on the channel |
| Scoring.CategoryMonotone | utils/evaluator.ts:230-244 | a larger deviation never earns a better category or more points |
| Scoring.WrongChannelHalves | utils/evaluator.ts:251-262 | a wrong channel keeps category, direction and colour, scores exactly half, and gets the prefixed message |
| Scoring.TenMillisecondsLate | utils/evaluator.ts:217-270 | a left-hand tap 10 ms after beat 1 is perfect, late, 100 points |
| Beats.IntervalMs | app/assessment/page.tsx:71 | the interval times the BPM is one minute |
| Beats.TotalBeats | app/assessment/page.tsx:72 | `floor(minutes·60000 / interval)` is `minutes · bpm` beats |
| Beats.BuildSchedule | app/assessment/page.tsx:148-163 | beat i has number i, time i·interval, the pattern's expected input and no actual data; consecutive beats are one interval apart |
| Beats.AssessmentSchedule | app/assessment/page.tsx:71-72 | at 60 BPM for one minute: 60 beats, 1000 ms apart, the last at 59000 ms |
| Beats.AssessmentSequenceCoversBattery | app/assessment/page.tsx:30-39 | the battery lists each of {hand, foot} × {left, right} × {audio, visual} exactly once, ids 1..8 |
| Matcher.Scan | app/assessment/page.tsx:207-214 | the loop ends with the first unmatched beat of minimal distance in the window, or none if all are matched |
| Matcher.ClosestBeat | app/assessment/page.tsx:201-214 | only indices in [max(0, est−2), min(len−1, est+2)] are candidates; the nearest unmatched one wins, ties to the lowest index |
| Matcher.Decide | app/assessment/page.tsx:216-218 | an input binds the candidate iff there is one within 500 ms inclusive |
| Matcher.Bind | app/assessment/page.tsx:220-238 | the bound beat keeps its schedule data, stores the input, its time and deviation, and `isWrongInput = ¬isCorrectInput` |
| Matcher.MatchedCountBind | app/assessment/page.tsx:238-241 | binding an unmatched beat raises the matched count by exactly one |
| Matcher.HandleInput | app/assessment/page.tsx:197-244 | a rejected input leaves the beats unchanged; an accepted one rewrites only the chosen beat, never a matched one, and keeps every beat consistent |
| Matcher.HandleAllExclusive | app/assessment/page.tsx:197-244 | over any input stream a matched beat is never rebound, and each input binds at most one beat |
| Matcher.InputNearBeatOne | app/assessment/page.tsx:201-218 | an input at 1010 ms binds beat 1 |
| Matcher.InputAtSeventeenHundred | app/assessment/page.tsx:201-218 | an input at 1700 ms binds beat 2, 300 ms away |
| Matcher.TieGoesToLowerIndex | app/assessment/page.tsx:209-218 | at 1500 ms beats 1 and 2 are both 500 ms away: beat 1 wins and 500 ms is accepted |
| Matcher.JustOutsideRadius | app/assessment/page.tsx:216-218 | an input 501 ms before the first beat is discarded |
| Session.Consistency | utils/evaluator.ts:287-299 | always in [0,100]; 100 with fewer than two samples; otherwise 100 − standard deviation when that lies in [0,100], and 0 when the standard deviation is 100 or more |
| Session.ConstantDeviations | utils/evaluator.ts:287-299 | identical deviations d give mean d, variance 0 and consistency 100 |
| Session.Percent | utils/evaluator.ts:382-391 | a guarded percentage: 0 for an empty total, in [0,100] for a part of the total |
| Session.DirectionsPartition | utils/evaluator.ts:325-329 | early (< −5), late (> 5) and on-target (abs ≤ 5) counts partition the correct beats |
| Session.CategoryCountsSum | utils/evaluator.ts:337-344 | when every beat has feedback, the six category counts sum to the number of beats |
| Session.StatsFor | utils/evaluator.ts:360-376 | a channel's entry counts its responses; its average deviation times the number of responses with a deviation is their total absolute deviation (0 when there are none); its average points times the number of responses is their total points (0 when there are none) |
| Session.InputTypeStats | utils/evaluator.ts:355-377 | a channel has an entry iff some responded beat was hit on it, and that entry is the channel's `StatsFor` over exactly the responded beats hit on it |
| Session.TaskAverage | utils/evaluator.ts:314-318 | TA is the mean abs deviation over correct responded beats, 999 when there is none, never negative |
| Session.AveragePoints | utils/evaluator.ts:346-350 | all responded beats' points over the number of correct beats, 0 without correct beats |
| Session.CorrectPlusWrong | utils/evaluator.ts:310-312 | on a consistent timeline, correct + wrong = responded |
| Session.CategoriesCoverResponses | utils/evaluator.ts:337-344 | on a consistent timeline the six category counts sum to the number of responded beats |
| Session.AveragePointsBounded | utils/evaluator.ts:346-350 | without wrong-channel responses the average points lie in [0,100] |
| Session.AveragePointsCanExceedHundred | utils/evaluator.ts:346-350 | an exact hit on an expected channel and an exact hit on a wrong channel give average points 150 |
| Session.TaskAverageIgnoresOtherBeats | utils/evaluator.ts:310-318 | appending a missed or wrong-channel beat changes neither TA nor consistency |
| Session.EvaluateSession | utils/evaluator.ts:304-403 | totals: responsive + missed = total; class is the TA's class in the mode's norms; TA ≥ 0; consistency in [0,100]; response rate undefined iff no beats |
| Session.SessionFields | utils/evaluator.ts:320-401 | each hit share is that direction's share of the correct beats; wrong-input count is the wrong-channel responses; accuracy is the correct share of responses; response rate the responded share of all beats; each category count counts the responded beats in that category; average points, consistency and channel stats as defined above |
| Session.SessionTaskAverage | utils/evaluator.ts:314-357 | the session's TA is the correct beats' mean (999 if none), consistency 100 with fewer than two correct beats |
| Session.HitPercentsPartition | utils/evaluator.ts:325-383 | early, late and on-target percentages sum to 100 when there is a correct beat, all 0 otherwise |
| Session.RatesArePercentages | utils/evaluator.ts:388-391 | accuracy in [0,100] and 0 without responses; response rate in [0,100]; wrong ≤ responsive |
| Session.InputTypeStatsKeys | utils/evaluator.ts:355-377 | the per-channel table has an entry exactly for the channels some responded beat was hit on |
| Session.NoInputSession | utils/evaluator.ts:304-403 | a session with no input: TA 999, class 1, consistency 100, accuracy 0, all beats missed, no channel stats |
| Session.CalculateImprovement | utils/evaluator.ts:408-428 | relative TA drop in percent, positive iff the TA fell, 0 when the previous TA is not positive; class change = current − previous |
| Session.ClassImprovementAntisymmetric | utils/evaluator.ts:408-428 | swapping the sessions negates the class change; a session against itself shows no change |
| Session.EvaluateBalance | utils/evaluator.ts:531-537 | balanced iff abs(early − late) ≤ 10, otherwise biased towards the larger share |
| Session.BalanceMirror | utils/evaluator.ts:531-537 | swapping early and late swaps the biases |
| Profile.CalculateAge | utils/evaluator.ts:30-41 | the age is the number of whole years elapsed: the age-th birthday has been reached and the next one has not |
| Profile.AgeOnBirthday | utils/evaluator.ts:30-41 | on the k-th birthday the age is k |
| Profile.AgeMonotone | utils/evaluator.ts:30-41 | age never decreases with time and is non-negative from birth on |
| Report.PercentileOfClass | utils/assessmentReport.ts:54-64 | class percentiles lie in [2,98], 50 exactly for class 4 |
| Report.PercentileStrictlyIncreasing | utils/assessmentReport.ts:54-64 | the map 1→2, 2→10, 3→25, 4→50, 5→75, 6→90, 7→98 is strictly increasing |
| Report.PerformanceLevelInjective | utils/assessmentReport.ts:73-85 | distinct classes get distinct performance levels |
| Report.CalculatePercentile | utils/assessmentReport.ts:29-67 | the percentile of the class `determineClassByAge` gives |
| Report.PercentileMonotone | utils/assessmentReport.ts:29-67 | a larger TA never earns a higher percentile |
| Report.ProcessingCapability | utils/assessmentReport.ts:265-280 | percentile from the TA, level from the class passed in, TA rounded |
| Report.CapabilityAgrees | utils/assessmentReport.ts:265-280 | percentile and level agree exactly when the class passed in is the TA's class |
| Report.AuditoryCapabilityAsWritten | utils/assessmentReport.ts:353-357 | the report's auditory capability equals the adult one whatever the age |
| Report.AuditoryAgeCounterexample | utils/assessmentReport.ts:353-357 | a 10-year-old with auditory TA 100 gets percentile 2 as written, 25 with the age passed |
| Report.AttentionPercentile | utils/assessmentReport.ts:108-119 | 85 below 20 ms, in (30,70] on [20,40), in [5,30] from 40, exactly 5 from 100 |
| Report.AttentionLevel | utils/assessmentReport.ts:108-119 | 우수 iff sd < 20, 미달 iff sd ≥ 40 |
| Report.AttentionMonotone | utils/assessmentReport.ts:108-126 | a smaller standard deviation never gets a lower percentile, before or after rounding |
| Report.CalculateAttention | utils/assessmentReport.ts:91-126 | no deviations: undefined numbers and 미달; otherwise, with sd the square root of the deviations' variance, the level is sd's band, the percentile is sd's rounded percentile (which fits the level's range) and the standard deviation is sd rounded |
| Report.CalculateSustainability | utils/assessmentReport.ts:132-158 | split at floor(n/2); the early and late averages are the rounded means of the two halves, undefined for an empty half; the error (improvement) rate is the rounded relative rise (fall) of the late mean over the early one, capped at 100, and 0 when the late mean is not above (below) it; at most one rate nonzero; rates in [0,100] for non-negative deviations |
| Report.SteadyPerformance | utils/assessmentReport.ts:132-154 | constant deviations show no error and no improvement |
| Report.ErrorFromPerfectStart | utils/assessmentReport.ts:143-145 | a perfect first half followed by any error is a 100 % error rate |
| Report.CalculateHemisphereBalance | utils/assessmentReport.ts:164-196 | left + right brain = 100, difference = abs(left − right), correlation bands 10/20; the right brain's share is the rounded right-side share of the summed TAs, and the better side's opposite brain gets at least 50; undefined with a zero total |
| Report.HemisphereMirror | utils/assessmentReport.ts:172-177 | swapping the sides mirrors the shares, up to a rounding tie |
| Report.DetermineLearningStyle | utils/assessmentReport.ts:202-227 | balanced iff abs(v − a) < 5, else the larger one dominates; difference ≥ 0 |
| Report.LearningStyleMirror | utils/assessmentReport.ts:202-227 | swapping the percentiles swaps visual and auditory dominance |
| Report.CalculateBrainSpeed | utils/assessmentReport.ts:233-259 | the rounded mean TA; < 50 → 우수/85, < 100 → 보통/50, else 미달/15 |
| Report.BrainSpeedSymmetricMonotone | utils/assessmentReport.ts:233-259 | symmetric in the two modalities; slower never scores higher |
| Report.TestNamesMatchBattery | utils/assessmentReport.ts:377-380 | the report's test names are the battery's names, in order |
| Report.IndividualResults | utils/assessmentReport.ts:383-386 | eight entries, each session's results under the battery test name at its position |
| Report.AssembleReport | utils/assessmentReport.ts:294-413 | name, gender and age from the first profile; visual capability on the age's table, auditory capability on the adult table; learning style from the two percentiles; attention and sustainability of the pooled visual and auditory deviations; brain speed of the two modality TAs; hemisphere balance of the left and right TAs; 8 individual results in session order |
| Report.GenerateComprehensiveReport | utils/assessmentReport.ts:286-413 | fails iff not exactly 8 sessions or a modality is absent; otherwise succeeds with the report `Report.AssembleReport` states |
| Report.CorrectedComprehensiveReport | utils/assessmentReport.ts:346-367 | the same report with the auditory capability graded on the table of the profile's age; it differs from the report as written only in the auditory capability and the learning style |
| Report.AdultReportsAgree | utils/assessmentReport.ts:346-357 | for a profile aged 17 or over the corrected report equals the report as written |
| Report.BatteryOrderReports | utils/assessmentReport.ts:290-338 | eight sessions in battery order always give a report |
| InputMapping.FromKeyboard | config/inputMapping.ts:12-28 | e/E, i/I, x/X, n/N map to LH, RH, LF, RF, each an if-and-only-if; all other keys give nothing |
| InputMapping.FromMidi | config/inputMapping.ts:42-47 | exactly the notes 60, 62, 64, 65 are recognised, mapping to LH, RH, LF, RF |
| InputMapping.FromHid | config/inputMapping.ts:61-66 | exactly the buttons 0..3 are recognised, mapping to LH, RH, LF, RF |
| InputMapping.FromGamepad | config/inputMapping.ts:80-85 | the gamepad table is the HID table |
| InputMapping.LabelsRoundTrip | config/inputMapping.ts:31-36 | a channel's key label maps back to it; notes and buttons map one-to-one |
| InputMapping.LabelsDistinct | config/inputMapping.ts:50-93 | every label table names the four channels distinctly; HID labels number buttons from 1 |
| InputMapping.ValidateInputMapping | config/inputMapping.ts:164-176 | missing = the unmapped channels, once each, in the fixed order LH, RH, LF, RF; valid iff none is missing iff every channel is mapped |
| InputMapping.ShippedMappingIsValid | config/inputMapping.ts:12-28 | the shipped keyboard table maps every channel |
| TimeFormat.JsRem | utils/commonHelpers.ts:10 | the remainder is Dafny's for non-negative input and in (−60, 0] for negative input |
| TimeFormat.JsRemOdd | utils/commonHelpers.ts:10 | negating the dividend negates the remainder |
| TimeFormat.ParseNatToString | utils/commonHelpers.ts:11 | reading a number's decimal string back gives the number |
| TimeFormat.FormatTimeRoundTrip | utils/commonHelpers.ts:8-12 | for s ≥ 0: minutes, a colon, exactly two digits below 60, and `m·60 + ss` reads back s |
| TimeFormat.FormatTimeExamples | utils/commonHelpers.ts:6-12 | 90 gives `1:30`, 5 gives `0:05`, −5 gives `-1:-5` |

## Findings

| source | as written | input that shows it | evidently intended | confidence | as-written member | corrected member |
|---|---|---|---|---|---|---|
| utils/assessmentReport.ts:353-357 | the auditory capability is computed with `'auditory'` in the age position, so every user is graded on the adult (over-17) auditory table | age 10, auditory TA 100 ms: percentile 2 (adult class 1) | the profile's age selects the table: percentile 25 (class 3 for ages 10-11) | not executed | Report.AuditoryCapabilityAsWritten | Report.CorrectedComprehensiveReport |

`Report.GenerateComprehensiveReport` models the report as written: through `Report.AssembleReport` it builds its auditory capability with `Report.AuditoryCapabilityAsWritten`; `Report.AuditoryAgeCounterexample` exhibits the input. `Report.CorrectedComprehensiveReport` grades the auditory capability with `Report.ProcessingCapability` on the profile's age, and `Report.AdultReportsAgree` shows the two reports coincide from age 17 on.

## Left out

- React components, JSX, styling, the countdown and beat timers, and the timer-driven "MISSED" display: UI plumbing.
- Audio and visual stimuli (AudioContext beeps): output devices.
- Keyboard, MIDI, HID and gamepad listeners and polling: browser I/O. Only the lookup tables are modelled.
- PDF, Excel and Google Sheets exports, mock assessment data (`Math.random`), and localStorage profile loading: I/O or foreign libraries.
- `Date`, `performance.now` and `Date.now`: today's date and all timestamps are parameters. Parsing of the `YYYY-MM-DD` birth-date string and its time-zone shift are not modelled; `Profile.CalculateAge` takes the date's year, month and day.
- `Math.sqrt`: a parameter of `Session.Consistency` and `Report.CalculateAttention`.
- Floating-point rounding: all arithmetic is exact. `Math.round` is kept where a result is rounded (percentiles, rates, shares); `toFixed` display strings (`displayText`, `formatTA`, `formatFeedback`) are left out.
- Colours and messages are carried as data and stated only for the per-beat feedback.
- `getClassInfo`, the deprecated `InputMapper` class in utils/evaluator.ts, `DEFAULT_KEY_MAPPING` and `DEFAULT_INPUT_MAPPING`: lookups or unused duplicates of modelled tables.
- Custom body-part sequences (`customSequence`) and the training page's own scheduler: outside the assessment flow.
- Lookups of inherited object keys (`KEYBOARD_MAPPING['constructor']`) are not modelled: the tables are Dafny maps.
- Session ids, session numbers, start/end times, `testDate` and the optional improvement fields of `SessionResults`: bookkeeping.
- Report.GenerateComprehensiveReport: the profile age is a number; the case of an undefined `age` (which would also fall to the adult tables) is not modelled.
- InputMapping.ValidateInputMapping: it takes the keyboard table as an argument, where the source reads the one shipped table.
- Session.EvaluateSession: its own contract states totals, class, TA sign, consistency range and when the response rate is defined; the value of every other field is stated by Session.SessionFields and Session.SessionTaskAverage, kept apart to keep each proof small.
