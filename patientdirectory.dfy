/** The patient list's derived columns: the age computed from a birth date and the
    gender label. Both pages that list patients compute them the same way. */
module PatientDirectory {

  /** A calendar date as `getFullYear`, `getMonth` and `getDate` return it. */
  datatype Date = Date(year: int, month: int, day: int)

  /** Days in calendar order: by year, then month, then day. */
  predicate OnOrBefore(a: Date, b: Date)
  {
    a.year < b.year || (a.year == b.year && (a.month < b.month || (a.month == b.month && a.day <= b.day)))
  }

  /** The date on which someone born on `birth` turns `n`. */
  function Anniversary(birth: Date, n: int): Date
  {
    Date(birth.year + n, birth.month, birth.day)
  }

  /** The age: the difference of the years, one less while this year's birthday is still ahead. */
  function CalculateAge(today: Date, birth: Date): (age: int)
    ensures today.month < birth.month ==> age == today.year - birth.year - 1
    ensures today.month == birth.month ==> (age == today.year - birth.year - 1 <==> today.day < birth.day)
    ensures today.month == birth.month && today.day == birth.day ==> age == today.year - birth.year
    ensures today.month > birth.month ==> age == today.year - birth.year
  {
    var age := today.year - birth.year;
    var monthDiff := today.month - birth.month;
    if monthDiff < 0 || (monthDiff == 0 && today.day < birth.day) then age - 1 else age
  }

  /** The age is the number of birthdays passed: the `age`-th anniversary is on or
      before today, and the next one is after it. */
  lemma AgeIsAnniversariesPassed(today: Date, birth: Date)
    ensures OnOrBefore(Anniversary(birth, CalculateAge(today, birth)), today)
    ensures !OnOrBefore(Anniversary(birth, CalculateAge(today, birth) + 1), today)
  {
  }

  /** The age never goes down as time goes on. */
  lemma AgeMonotone(d1: Date, d2: Date, birth: Date)
    requires OnOrBefore(d1, d2)
    ensures CalculateAge(d1, birth) <= CalculateAge(d2, birth)
  {
    AgeIsAnniversariesPassed(d1, birth);
    AgeIsAnniversariesPassed(d2, birth);
  }

  /** The gender label; an unknown code shows as itself. */
  function GetGenderLabel(gender: string): (text: string)
    ensures gender == "MALE" ==> text == "Laki-laki"
    ensures gender == "FEMALE" ==> text == "Perempuan"
    ensures gender == "OTHER" ==> text == "Lainnya"
    ensures gender !in {"MALE", "FEMALE", "OTHER"} ==> text == gender
  {
    if gender == "MALE" then "Laki-laki"
    else if gender == "FEMALE" then "Perempuan"
    else if gender == "OTHER" then "Lainnya"
    else gender
  }
}
