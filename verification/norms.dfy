/** The age- and modality-specific norm tables (`AGE_BASED_STANDARDS`,
    `CLASS_DEFINITIONS` in types/evaluation.ts) and the bracket lookups of
    utils/evaluator.ts (`getAgeGroup`, `determineClassByAge`,
    `determineClass`). */
module Norms {

  /** `TimingClass`: 1 (worst) to 7 (best). */
  type ClassLevel = c: int | 1 <= c <= 7 witness 1

  datatype AgeGroup = Under7 | Age8to9 | Age10to11 | Age12to13 | Age14to16 | Over17

  /** The two norm families; the session's `audio` training maps to `Auditory`. */
  datatype NormMode = VisualNorms | AuditoryNorms

  /** An upper bracket bound: a number of milliseconds, or `Infinity`. */
  datatype Bound = Finite(ms: int) | Infinite

  /** One row of a norm table: Task Averages in `[lo, hi)` get class `cls`. */
  datatype Bracket = Bracket(cls: ClassLevel, lo: int, hi: Bound)

  predicate InBracket(b: Bracket, ta: real) {
    b.lo as real <= ta && (b.hi.Infinite? || ta < b.hi.ms as real)
  }

  // ---------------------------------------------------------------------------
  // Age groups
  // ---------------------------------------------------------------------------

  function GetAgeGroup(age: int): (g: AgeGroup)
    ensures g == Under7 <==> age <= 7
    ensures g == Age8to9 <==> 8 <= age <= 9
    ensures g == Age10to11 <==> 10 <= age <= 11
    ensures g == Age12to13 <==> 12 <= age <= 13
    ensures g == Age14to16 <==> 14 <= age <= 16
    ensures g == Over17 <==> 17 <= age
  {
    if age <= 7 then Under7
    else if age <= 9 then Age8to9
    else if age <= 11 then Age10to11
    else if age <= 13 then Age12to13
    else if age <= 16 then Age14to16
    else Over17
  }

  function GroupRank(g: AgeGroup): nat {
    match g
    case Under7 => 0
    case Age8to9 => 1
    case Age10to11 => 2
    case Age12to13 => 3
    case Age14to16 => 4
    case Over17 => 5
  }

  /** Older users never fall into a younger group. */
  lemma AgeGroupMonotone(a1: int, a2: int)
    requires a1 <= a2
    ensures GroupRank(GetAgeGroup(a1)) <= GroupRank(GetAgeGroup(a2))
  {
  }

  // ---------------------------------------------------------------------------
  // The literal tables
  // ---------------------------------------------------------------------------

  function B(cls: ClassLevel, lo: int, hi: int): Bracket {
    Bracket(cls, lo, Finite(hi))
  }

  function Last(lo: int): Bracket {
    Bracket(1, lo, Infinite)
  }

  /** `AGE_BASED_STANDARDS[mode][group]`. */
  function StandardsFor(mode: NormMode, g: AgeGroup): seq<Bracket> {
    match mode
    case AuditoryNorms =>
      (match g
       case Under7 =>    [B(7, 0, 40), B(6, 40, 60), B(5, 60, 80), B(4, 80, 100), B(3, 100, 150), B(2, 150, 230), Last(230)]
       case Age8to9 =>   [B(7, 0, 30), B(6, 30, 35), B(5, 35, 45), B(4, 45, 70), B(3, 70, 155), B(2, 155, 200), Last(200)]
       case Age10to11 => [B(7, 0, 27), B(6, 27, 34), B(5, 34, 40), B(4, 40, 60), B(3, 60, 130), B(2, 130, 160), Last(160)]
       case Age12to13 => [B(7, 0, 25), B(6, 25, 30), B(5, 30, 35), B(4, 35, 45), B(3, 45, 105), B(2, 105, 150), Last(150)]
       case Age14to16 => [B(7, 0, 20), B(6, 20, 25), B(5, 25, 30), B(4, 30, 45), B(3, 45, 90), B(2, 90, 120), Last(120)]
       case Over17 =>    [B(7, 0, 17), B(6, 17, 25), B(5, 25, 30), B(4, 30, 40), B(3, 40, 75), B(2, 75, 90), Last(90)])
    case VisualNorms =>
      (match g
       case Under7 =>    [B(7, 0, 50), B(6, 50, 80), B(5, 80, 100), B(4, 100, 120), B(3, 120, 170), B(2, 170, 250), Last(250)]
       case Age8to9 =>   [B(7, 0, 40), B(6, 40, 55), B(5, 55, 65), B(4, 65, 90), B(3, 90, 130), B(2, 130, 220), Last(220)]
       case Age10to11 => [B(7, 0, 35), B(6, 35, 45), B(5, 45, 60), B(4, 60, 75), B(3, 75, 110), B(2, 110, 200), Last(200)]
       case Age12to13 => [B(7, 0, 30), B(6, 30, 40), B(5, 40, 50), B(4, 50, 65), B(3, 65, 95), B(2, 95, 160), Last(160)]
       case Age14to16 => [B(7, 0, 27), B(6, 27, 30), B(5, 30, 40), B(4, 40, 55), B(3, 55, 75), B(2, 75, 130), Last(130)]
       case Over17 =>    [B(7, 0, 25), B(6, 25, 30), B(5, 30, 40), B(4, 40, 50), B(3, 50, 70), B(2, 70, 100), Last(100)])
  }

  /** One entry of `CLASS_DEFINITIONS`. */
  datatype ClassDefinition = ClassDefinition(range: Bracket, title: string, description: string, color: string)

  const ClassDefinitions: seq<ClassDefinition> := [
    ClassDefinition(B(7, 0, 20), "최상급", "최상급 타이밍 능력", "#8b5cf6"),
    ClassDefinition(B(6, 20, 40), "뛰어남", "뛰어난 타이밍 능력", "#6366f1"),
    ClassDefinition(B(5, 40, 80), "평균 이상", "평균보다 높은 타이밍 능력", "#10b981"),
    ClassDefinition(B(4, 80, 120), "평균", "평균적인 타이밍 능력", "#3b82f6"),
    ClassDefinition(B(3, 120, 180), "평균 이하", "평균보다 낮은 타이밍 능력", "#f59e0b"),
    ClassDefinition(B(2, 180, 250), "심각한 결핍", "심각한 타이밍 결핍", "#f97316"),
    ClassDefinition(Last(250), "극심한 결핍", "가장 심각한 타이밍 결핍", "#ef4444")
  ]

  /** The `taRange` column of `CLASS_DEFINITIONS`, as brackets. */
  function ClassBrackets(): (t: seq<Bracket>)
    ensures |t| == |ClassDefinitions|
    ensures forall i :: 0 <= i < |t| ==> t[i] == ClassDefinitions[i].range
  {
    seq(|ClassDefinitions|, i requires 0 <= i < |ClassDefinitions| => ClassDefinitions[i].range)
  }

  // ---------------------------------------------------------------------------
  // Lookup: the first bracket containing the Task Average, else class 1
  // ---------------------------------------------------------------------------

  /** The `for ... of` scan of `determineClassByAge` / `determineClass`,
      started at index `i`. */
  function LookupFrom(t: seq<Bracket>, ta: real, i: nat): (c: ClassLevel)
    decreases |t| - i
    ensures (exists k :: i <= k < |t| && InBracket(t[k], ta)) ==>
              exists k :: i <= k < |t| && InBracket(t[k], ta) && c == t[k].cls &&
                          forall j :: i <= j < k ==> !InBracket(t[j], ta)
    ensures (forall k :: i <= k < |t| ==> !InBracket(t[k], ta)) ==> c == 1
  {
    if i >= |t| then 1
    else if InBracket(t[i], ta) then t[i].cls
    else LookupFrom(t, ta, i + 1)
  }

  function Lookup(t: seq<Bracket>, ta: real): ClassLevel {
    LookupFrom(t, ta, 0)
  }

  function DetermineClassByAge(ta: real, age: int, mode: NormMode): ClassLevel {
    Lookup(StandardsFor(mode, GetAgeGroup(age)), ta)
  }

  function DetermineClass(ta: real): ClassLevel {
    Lookup(ClassBrackets(), ta)
  }

  // ---------------------------------------------------------------------------
  // Well-formed tables: seven contiguous brackets, classes 7 down to 1
  // ---------------------------------------------------------------------------

  /** From index `i` on, row `i` has class `7 - i`, rows share endpoints with
      their successor and strictly increase, and the last row is unbounded. */
  predicate ChainFrom(t: seq<Bracket>, i: nat)
    decreases |t| - i
  {
    && i < |t|
    && t[i].cls == 7 - i
    && if i == |t| - 1 then t[i].hi.Infinite?
       else t[i].hi == Finite(t[i + 1].lo) && t[i].lo < t[i + 1].lo && ChainFrom(t, i + 1)
  }

  predicate WellFormed(t: seq<Bracket>) {
    |t| == 7 && t[0].lo == 0 && ChainFrom(t, 0)
  }

  /** Row `i` joins row `i + 1`: shared endpoint, increasing lower bound. */
  predicate Joins(t: seq<Bracket>, i: nat)
    requires i + 1 < |t|
  {
    t[i].hi == Finite(t[i + 1].lo) && t[i].lo < t[i + 1].lo
  }

  /** `WellFormed` spelled out row by row, for literal tables. */
  predicate RowByRow(t: seq<Bracket>) {
    && |t| == 7 && t[0].lo == 0 && t[6].hi.Infinite?
    && t[0].cls == 7 && t[1].cls == 6 && t[2].cls == 5 && t[3].cls == 4
    && t[4].cls == 3 && t[5].cls == 2 && t[6].cls == 1
    && Joins(t, 0) && Joins(t, 1) && Joins(t, 2) && Joins(t, 3) && Joins(t, 4) && Joins(t, 5)
  }

  lemma RowByRowIsWellFormed(t: seq<Bracket>)
    requires RowByRow(t)
    ensures WellFormed(t)
  {
    assert ChainFrom(t, 6);
    assert ChainFrom(t, 5);
    assert ChainFrom(t, 4);
    assert ChainFrom(t, 3);
    assert ChainFrom(t, 2);
    assert ChainFrom(t, 1);
  }

  lemma {:induction false} ChainFromFacts(t: seq<Bracket>, i: nat)
    requires ChainFrom(t, i)
    ensures t[|t| - 1].hi.Infinite?
    ensures forall k :: i <= k < |t| ==> t[k].cls == 7 - k
    ensures forall k :: i <= k < |t| - 1 ==> t[k].hi == Finite(t[k + 1].lo) && t[k].lo < t[k + 1].lo
    decreases |t| - i
  {
    if i < |t| - 1 {
      ChainFromFacts(t, i + 1);
    }
  }

  /** Lower bounds increase along a well-formed table. */
  lemma {:induction false} LowerBoundsIncrease(t: seq<Bracket>, i: nat, j: nat)
    requires WellFormed(t)
    requires i <= j < |t|
    ensures t[i].lo <= t[j].lo
    ensures i < j ==> t[i].hi.Finite? && t[i].hi.ms <= t[j].lo
    decreases j - i
  {
    ChainFromFacts(t, 0);
    if i < j {
      LowerBoundsIncrease(t, i + 1, j);
    }
  }

  /** No Task Average lies in two rows of a well-formed table. */
  lemma BracketsDisjoint(t: seq<Bracket>, ta: real, i: nat, j: nat)
    requires WellFormed(t)
    requires i < |t| && j < |t|
    requires InBracket(t[i], ta) && InBracket(t[j], ta)
    ensures i == j
  {
    if i < j {
      LowerBoundsIncrease(t, i, j);
    } else if j < i {
      LowerBoundsIncrease(t, j, i);
    }
  }

  /** Every non-negative Task Average lies in some row at or after `i`, when it
      is at least that row's lower bound. */
  lemma {:induction false} BracketsCoverFrom(t: seq<Bracket>, ta: real, i: nat)
    requires WellFormed(t)
    requires i < |t| && t[i].lo as real <= ta
    ensures exists k :: i <= k < |t| && InBracket(t[k], ta)
    decreases |t| - i
  {
    ChainFromFacts(t, 0);
    if !InBracket(t[i], ta) {
      BracketsCoverFrom(t, ta, i + 1);
    }
  }

  /** The index of the unique row of a well-formed table containing `ta`. */
  ghost function RowOf(t: seq<Bracket>, ta: real): (k: nat)
    requires WellFormed(t) && 0.0 <= ta
    ensures k < |t| && InBracket(t[k], ta)
  {
    BracketsCoverFrom(t, ta, 0);
    var k :| 0 <= k < |t| && InBracket(t[k], ta);
    k
  }

  /** Each non-negative Task Average falls in exactly one row, and the lookup
      returns that row's class, `7 - row`. */
  lemma LookupIsUniqueRow(t: seq<Bracket>, ta: real)
    requires WellFormed(t) && 0.0 <= ta
    ensures exists k :: 0 <= k < |t| && InBracket(t[k], ta)
    ensures forall i, j :: 0 <= i < |t| && 0 <= j < |t| && InBracket(t[i], ta) && InBracket(t[j], ta) ==> i == j
    ensures Lookup(t, ta) == t[RowOf(t, ta)].cls == 7 - RowOf(t, ta)
  {
    var k := RowOf(t, ta);
    ChainFromFacts(t, 0);
    forall i, j | 0 <= i < |t| && 0 <= j < |t| && InBracket(t[i], ta) && InBracket(t[j], ta)
      ensures i == j
    {
      BracketsDisjoint(t, ta, i, j);
    }
  }

  /** A negative Task Average lies in no row, so the lookup falls back to 1. */
  lemma NegativeFallsBack(t: seq<Bracket>, ta: real)
    requires WellFormed(t) && ta < 0.0
    ensures Lookup(t, ta) == 1
  {
    forall k | 0 <= k < |t|
      ensures !InBracket(t[k], ta)
    {
      LowerBoundsIncrease(t, 0, k);
    }
  }

  /** A larger Task Average never yields a higher class. */
  lemma LookupMonotone(t: seq<Bracket>, ta1: real, ta2: real)
    requires WellFormed(t)
    requires 0.0 <= ta1 <= ta2
    ensures Lookup(t, ta2) <= Lookup(t, ta1)
  {
    LookupIsUniqueRow(t, ta1);
    LookupIsUniqueRow(t, ta2);
    var k1, k2 := RowOf(t, ta1), RowOf(t, ta2);
    if k2 < k1 {
      LowerBoundsIncrease(t, k2, k1);
    }
  }

  /** Any Task Average at or above the class-1 lower bound lands in class 1. */
  lemma AtLeastLastLowerBound(t: seq<Bracket>, ta: real)
    requires WellFormed(t)
    requires t[|t| - 1].lo as real <= ta
    ensures Lookup(t, ta) == 1
  {
    ChainFromFacts(t, 0);
    LowerBoundsIncrease(t, 0, 6);
    LookupIsUniqueRow(t, ta);
  }

  // ---------------------------------------------------------------------------
  // Facts about the shipped tables
  // ---------------------------------------------------------------------------

  /** All twelve `AGE_BASED_STANDARDS` tables are well formed, and their
      class-1 row starts at or below 250 ms. */
  lemma StandardsWellFormed(mode: NormMode, g: AgeGroup)
    ensures WellFormed(StandardsFor(mode, g))
    ensures StandardsFor(mode, g)[6].lo <= 250
  {
    RowByRowIsWellFormed(StandardsFor(mode, g));
  }

  /** `CLASS_DEFINITIONS` is the chain [0,20) [20,40) [40,80) [80,120)
      [120,180) [180,250) [250,Infinity) for classes 7 down to 1. */
  lemma ClassDefinitionsWellFormed()
    ensures WellFormed(ClassBrackets())
    ensures forall i :: 0 <= i < 7 ==> ClassBrackets()[i].lo == [0, 20, 40, 80, 120, 180, 250][i]
  {
    RowByRowIsWellFormed(ClassBrackets());
  }

  /** Each non-negative Task Average lies in exactly one bracket of the table
      selected by age and mode, and `determineClassByAge` returns its class. */
  lemma ClassByAgeIsUniqueBracket(ta: real, age: int, mode: NormMode)
    requires 0.0 <= ta
    ensures var t := StandardsFor(mode, GetAgeGroup(age));
            && (exists k :: 0 <= k < |t| && InBracket(t[k], ta))
            && (forall i, j :: 0 <= i < |t| && 0 <= j < |t| && InBracket(t[i], ta) && InBracket(t[j], ta) ==> i == j)
            && (forall k :: 0 <= k < |t| && InBracket(t[k], ta) ==> DetermineClassByAge(ta, age, mode) == t[k].cls)
  {
    var t := StandardsFor(mode, GetAgeGroup(age));
    StandardsWellFormed(mode, GetAgeGroup(age));
    LookupIsUniqueRow(t, ta);
  }

  /** A larger Task Average never yields a higher age-normed class. */
  lemma ClassByAgeMonotone(ta1: real, ta2: real, age: int, mode: NormMode)
    requires 0.0 <= ta1 <= ta2
    ensures DetermineClassByAge(ta2, age, mode) <= DetermineClassByAge(ta1, age, mode)
  {
    StandardsWellFormed(mode, GetAgeGroup(age));
    LookupMonotone(StandardsFor(mode, GetAgeGroup(age)), ta1, ta2);
  }

  /** The "no correct beat" sentinel 999 is class 1 in every table. */
  lemma SentinelIsClassOne(age: int, mode: NormMode)
    ensures DetermineClassByAge(999.0, age, mode) == 1
    ensures DetermineClass(999.0) == 1
  {
    StandardsWellFormed(mode, GetAgeGroup(age));
    AtLeastLastLowerBound(StandardsFor(mode, GetAgeGroup(age)), 999.0);
    ClassDefinitionsWellFormed();
    AtLeastLastLowerBound(ClassBrackets(), 999.0);
  }

  /** `determineClass` places each non-negative Task Average in the unique
      `CLASS_DEFINITIONS` range that contains it, monotonically. */
  lemma DetermineClassIsUniqueBracket(ta: real, ta2: real)
    requires 0.0 <= ta <= ta2
    ensures forall k :: 0 <= k < 7 && InBracket(ClassBrackets()[k], ta) ==> DetermineClass(ta) == 7 - k
    ensures exists k :: 0 <= k < 7 && InBracket(ClassBrackets()[k], ta)
    ensures DetermineClass(ta2) <= DetermineClass(ta)
  {
    var t := ClassBrackets();
    ClassDefinitionsWellFormed();
    LookupIsUniqueRow(t, ta);
    LookupMonotone(t, ta, ta2);
    ChainFromFacts(t, 0);
  }

  /** Age 14, auditory norms, Task Average 22 ms: the `14-16` row [20,25),
      class 6. */
  lemma AuditoryFourteenAtTwentyTwo()
    ensures GetAgeGroup(14) == Age14to16
    ensures InBracket(StandardsFor(AuditoryNorms, Age14to16)[1], 22.0)
    ensures DetermineClassByAge(22.0, 14, AuditoryNorms) == 6
  {
    var t := StandardsFor(AuditoryNorms, Age14to16);
    StandardsWellFormed(AuditoryNorms, Age14to16);
    LookupIsUniqueRow(t, 22.0);
    BracketsDisjoint(t, 22.0, 1, RowOf(t, 22.0));
  }
}
