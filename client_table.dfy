/** The pet-age column of the clients table (`getPetAge` in
    `src/components/clients/client-table.tsx`). The local-time getters of
    today's date and of the birth date are the method's arguments. */
module ClientTable {

  /** A day as the local-time getters read it: `getFullYear()`, `getMonth()`
      and `getDate()`. */
  datatype CalendarDay = CalendarDay(year: int, month: int, day: int)

  /** `a` falls no later than `b`: years compared first, then months, then days. */
  predicate NotAfter(a: CalendarDay, b: CalendarDay) {
    a.year < b.year || (a.year == b.year && (a.month < b.month || (a.month == b.month && a.day <= b.day)))
  }

  /** The `n`-th birthday: the same month and day, `n` years on. */
  function Anniversary(birth: CalendarDay, n: int): CalendarDay {
    birth.(year := birth.year + n)
  }

  /** `hasHadBirthday`: this year's birthday is today or already past. */
  predicate HasHadBirthday(now: CalendarDay, birth: CalendarDay) {
    var monthDiff := now.month - birth.month;
    monthDiff > 0 || (monthDiff == 0 && now.day >= birth.day)
  }

  /** `getPetAge`: the number of whole years since the birth date, that is,
      of birthdays reached by today; 0 for a birth date in the future. */
  method GetPetAge(now: CalendarDay, birth: CalendarDay) returns (age: int)
    ensures age >= 0
    ensures NotAfter(birth, now) ==>
      NotAfter(Anniversary(birth, age), now) && !NotAfter(Anniversary(birth, age + 1), now)
    ensures !NotAfter(birth, now) ==> age == 0
  {
    age := now.year - birth.year;
    var monthDiff := now.month - birth.month;
    var hasHadBirthday := monthDiff > 0 || (monthDiff == 0 && now.day >= birth.day);
    if !hasHadBirthday {
      age := age - 1;
    }
    age := if age > 0 then age else 0;
  }

  /** The birthday has been had exactly when this year's anniversary is not
      after today. Within the birth month that means today's day is at least
      the birth day. */
  lemma HasHadBirthdayIff(now: CalendarDay, birth: CalendarDay)
    ensures HasHadBirthday(now, birth) <==> NotAfter(Anniversary(birth, now.year - birth.year), now)
    ensures now.month == birth.month ==> (HasHadBirthday(now, birth) <==> now.day >= birth.day)
  {
  }

  /** Whole years are counted once: the age is the only count whose
      anniversary is reached and whose next one is not. */
  lemma AgeIsUnique(now: CalendarDay, birth: CalendarDay, a: int, b: int)
    requires NotAfter(Anniversary(birth, a), now) && !NotAfter(Anniversary(birth, a + 1), now)
    requires NotAfter(Anniversary(birth, b), now) && !NotAfter(Anniversary(birth, b + 1), now)
    ensures a == b
  {
  }

  /** A pet born on the day of the year that is today, `n` years ago, is `n`. */
  method BirthdayToday(n: nat) returns (age: int)
    ensures age == n
  {
    age := GetPetAge(CalendarDay(2024 + n, 5, 12), CalendarDay(2024, 5, 12));
  }

  /** The day before the birthday, a pet is one year younger. */
  method DayBeforeBirthday(n: nat) returns (age: int)
    requires n >= 1
    ensures age == n - 1
  {
    age := GetPetAge(CalendarDay(2024 + n, 5, 11), CalendarDay(2024, 5, 12));
  }
}
