/** `calculateAge` of utils/evaluator.ts, with today's date passed in. */
module Profile {

  /** A calendar date as the `getFullYear` / `getMonth` / `getDate` getters
      read it. */
  datatype Date = Date(year: int, month: int, day: int)

  /** Day-of-year order on (month, day), ignoring the year. */
  predicate MonthDayBefore(a: Date, b: Date) {
    a.month < b.month || (a.month == b.month && a.day < b.day)
  }

  /** Chronological order of dates. */
  predicate DateLe(a: Date, b: Date) {
    a.year < b.year || (a.year == b.year && !MonthDayBefore(b, a))
  }

  /** The `k`-th birthday of someone born on `birth`. */
  function Anniversary(birth: Date, k: int): Date {
    Date(birth.year + k, birth.month, birth.day)
  }

  /** `calculateAge(birthDate)` on the day `today`: the difference of the
      years, less one while this year's birthday is still ahead. The result
      is the number of whole years elapsed: the last birthday reached is the
      `age`-th, and the next one is still to come. */
  function CalculateAge(birth: Date, today: Date): (age: int)
    ensures DateLe(Anniversary(birth, age), today)
    ensures !DateLe(Anniversary(birth, age + 1), today)
  {
    var age := today.year - birth.year;
    var monthDiff := today.month - birth.month;
    if monthDiff < 0 || (monthDiff == 0 && today.day < birth.day) then age - 1 else age
  }

  /** On the `k`-th birthday the age is exactly `k`. */
  lemma AgeOnBirthday(birth: Date, k: int)
    ensures CalculateAge(birth, Anniversary(birth, k)) == k
  {
  }

  /** Age never decreases as time passes, and is never negative from the day
      of birth on. */
  lemma AgeMonotone(birth: Date, today1: Date, today2: Date)
    requires DateLe(today1, today2)
    ensures CalculateAge(birth, today1) <= CalculateAge(birth, today2)
    ensures DateLe(birth, today1) ==> 0 <= CalculateAge(birth, today1)
  {
  }
}
