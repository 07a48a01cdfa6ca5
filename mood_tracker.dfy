/**
 * The mood calendar of src/components/MoodTracker.tsx: the year field's
 * validation, the Date-based month length, the `YYYY-MM-DD` day keys, the
 * date -> mood map built from the loaded entries, the per-month count, and
 * the handlers that change the calendar's state.
 */
module MoodTracker {
  import opened Wrappers
  import opened Text

  // ---------------------------------------------------------------------
  // Year validation

  /** A JavaScript number as `Number(val)` produces it. */
  datatype JsNumber = NaN | Infinity(negative: bool) | Finite(value: real)

  /** `Number.isInteger`. */
  predicate IsInteger(y: JsNumber) {
    y.Finite? && y.value.Floor as real == y.value
  }

  /** `isValidYear`. */
  predicate IsValidYear(y: JsNumber) {
    IsInteger(y) && 2000.0 <= y.value && y.value <= 2099.0
  }

  /** A valid year is a whole number from 2000 to 2099. */
  lemma ValidYearIsWhole(y: JsNumber)
    requires IsValidYear(y)
    ensures y == Finite(y.value.Floor as real) && 2000 <= y.value.Floor <= 2099
  {
  }

  /** A whole number is a valid year exactly when it lies in 2000..2099. */
  lemma ValidYearOfInt(n: int)
    ensures IsValidYear(Finite(n as real)) <==> 2000 <= n <= 2099
  {
  }

  /** Fractions, NaN and the infinities are never valid years. */
  lemma InvalidYears()
    ensures !IsValidYear(Finite(2024.5)) && !IsValidYear(NaN) && !IsValidYear(Infinity(false))
  {
    assert (2024.5).Floor == 2024;
  }

  // ---------------------------------------------------------------------
  // Days in a month

  /** The Gregorian leap-year rule. */
  predicate LeapYear(y: int) {
    y % 4 == 0 && (y % 100 != 0 || y % 400 == 0)
  }

  /** The Gregorian length of month `m` (0 = January) of year `y`. */
  function MonthLength(y: int, m: int): int
    requires 0 <= m < 12
  {
    if m == 1 then (if LeapYear(y) then 29 else 28)
    else if m == 3 || m == 5 || m == 8 || m == 10 then 30
    else 31
  }

  /**
   * `getDaysInMonth(year, monthIndex)`, that is `new Date(year, monthIndex
   * + 1, 0).getDate()`: day 0 of the following month is the last day of
   * this one. The Date constructor reads a year 0..99 as 1900..1999 and
   * carries a month index outside 0..11 into the year.
   */
  function DaysInMonth(year: int, monthIndex: int): (days: int)
    ensures 28 <= days <= 31
  {
    var fullYear := if 0 <= year <= 99 then 1900 + year else year;
    MonthLength(fullYear + monthIndex / 12, monthIndex % 12)
  }

  /** February has 29 days exactly in leap years (for years the constructor takes literally). */
  lemma FebruaryLeap(year: int)
    requires !(0 <= year <= 99)
    ensures DaysInMonth(year, 1) == 29 <==> LeapYear(year)
    ensures DaysInMonth(year, 1) == 28 <==> !LeapYear(year)
  {
  }

  /** Within the valid years, a year is a leap year exactly when 4 divides it. */
  lemma LeapInValidYears(year: int)
    requires 2000 <= year <= 2099
    ensures LeapYear(year) <==> year % 4 == 0
  {
  }

  /** The months of a valid year add up to 365 days, or 366 in a leap year. */
  lemma YearLength(year: int)
    requires 2000 <= year <= 2099
    ensures DaysInMonth(year, 0) + DaysInMonth(year, 1) + DaysInMonth(year, 2) + DaysInMonth(year, 3)
      + DaysInMonth(year, 4) + DaysInMonth(year, 5) + DaysInMonth(year, 6) + DaysInMonth(year, 7)
      + DaysInMonth(year, 8) + DaysInMonth(year, 9) + DaysInMonth(year, 10) + DaysInMonth(year, 11)
      == if LeapYear(year) then 366 else 365
  {
  }

  /**
   * The two-digit-year rule: a year 0..99 is measured as 1900..1999, so
   * February of year 0 has 28 days (1900 is not a leap year), and a month
   * index of 12 is January of the next year.
   */
  lemma DateConstructorQuirks(year: int, monthIndex: int)
    requires 0 <= year <= 99 && 0 <= monthIndex < 12
    ensures DaysInMonth(year, monthIndex) == MonthLength(1900 + year, monthIndex)
    ensures DaysInMonth(0, 1) == 28
    ensures DaysInMonth(2023, 12) == 31 && DaysInMonth(2024, 13) == 28
  {
  }

  // ---------------------------------------------------------------------
  // Day keys

  /** The key of a calendar day: `${year}-${pad(monthIndex + 1)}-${pad(day)}`. */
  function DateKey(year: int, monthIndex: int, day: int): string {
    IntToString(year) + "-" + PadStart2(IntToString(monthIndex + 1)) + "-" + PadStart2(IntToString(day))
  }

  /** The day a `YYYY-MM-DD` key names, as (year, 1-based month, day). */
  function ParseDateKey(key: string): Option<(nat, nat, nat)> {
    if |key| == 10 && key[4] == '-' && key[7] == '-'
       && AllDigits(key[..4]) && AllDigits(key[5..7]) && AllDigits(key[8..])
    then Some((ParseDigits(key[..4]), ParseDigits(key[5..7]), ParseDigits(key[8..])))
    else None
  }

  /** A number from 1000 to 9999 prints as four digits. */
  lemma FourDigits(n: nat)
    requires 1000 <= n <= 9999
    ensures |NatToString(n)| == 4
  {
    NatToStringLength(n / 100);
    assert |NatToString(n / 10)| == |NatToString(n / 100)| + 1;
  }

  /** A two-digit-or-less number, padded, reads back as itself. */
  lemma PaddedRoundTrip(n: nat)
    requires n < 100
    ensures |PadStart2(NatToString(n))| == 2 && AllDigits(PadStart2(NatToString(n)))
    ensures ParseDigits(PadStart2(NatToString(n))) == n
  {
    NatToStringLength(n);
    PadNumeral(NatToString(n));
    ParseNatToString(n);
  }

  /** Where the parts of an assembled key sit. */
  lemma KeySlices(y: string, m: string, d: string)
    requires |y| == 4 && |m| == 2 && |d| == 2
    ensures var key := y + "-" + m + "-" + d;
      |key| == 10 && key[4] == '-' && key[7] == '-' && key[..4] == y && key[5..7] == m && key[8..] == d
  {
    var key := y + "-" + m + "-" + d;
    assert key[..4] == y;
    assert key[5..7] == m;
    assert key[8..] == d;
  }

  /** A key assembled from a four-digit and two two-digit numerals splits back into them. */
  lemma ParseAssembledKey(y: string, m: string, d: string)
    requires |y| == 4 && |m| == 2 && |d| == 2 && AllDigits(y) && AllDigits(m) && AllDigits(d)
    ensures ParseDateKey(y + "-" + m + "-" + d) == Some((ParseDigits(y), ParseDigits(m), ParseDigits(d)))
  {
    KeySlices(y, m, d);
  }

  /**
   * A key of a four-digit year is ten characters, `YYYY-MM-DD`, and reads
   * back as its year, 1-based month and day.
   */
  lemma DateKeyRoundTrip(year: int, monthIndex: int, day: int)
    requires 1000 <= year <= 9999 && 0 <= monthIndex < 12 && 1 <= day <= 31
    ensures |DateKey(year, monthIndex, day)| == 10
    ensures ParseDateKey(DateKey(year, monthIndex, day)) == Some((year, monthIndex + 1, day))
  {
    var y := NatToString(year);
    FourDigits(year);
    ParseNatToString(year);
    PaddedRoundTrip(monthIndex + 1);
    PaddedRoundTrip(day);
    ParseAssembledKey(y, PadStart2(NatToString(monthIndex + 1)), PadStart2(NatToString(day)));
  }

  /** Different days of four-digit years have different keys. */
  lemma DateKeyInjective(y1: int, m1: int, d1: int, y2: int, m2: int, d2: int)
    requires 1000 <= y1 <= 9999 && 0 <= m1 < 12 && 1 <= d1 <= 31
    requires 1000 <= y2 <= 9999 && 0 <= m2 < 12 && 1 <= d2 <= 31
    requires DateKey(y1, m1, d1) == DateKey(y2, m2, d2)
    ensures y1 == y2 && m1 == m2 && d1 == d2
  {
    DateKeyRoundTrip(y1, m1, d1);
    DateKeyRoundTrip(y2, m2, d2);
  }

  // ---------------------------------------------------------------------
  // The date -> mood map

  /** The two fields of a loaded entry the calendar reads. */
  datatype DayMood = DayMood(date: string, mood: string)

  /** `new Map(moods.map(m => [m.date, m.mood]))`: entries are set in order. */
  function MoodMap(moods: seq<DayMood>): map<string, string>
    decreases |moods|
  {
    if moods == [] then map[]
    else
      var last := moods[|moods| - 1];
      MoodMap(moods[..|moods| - 1])[last.date := last.mood]
  }

  /** A date is in the map exactly when some entry has it. */
  lemma {:induction false} MoodMapKeys(moods: seq<DayMood>, date: string)
    ensures date in MoodMap(moods) <==> exists i :: 0 <= i < |moods| && moods[i].date == date
    decreases |moods|
  {
    if moods != [] {
      var init := moods[..|moods| - 1];
      MoodMapKeys(init, date);
      if date in MoodMap(init) {
        var i :| 0 <= i < |init| && init[i].date == date;
        assert moods[i] == init[i];
      }
      if exists i :: 0 <= i < |moods| && moods[i].date == date {
        var i :| 0 <= i < |moods| && moods[i].date == date;
        if i < |init| {
          assert init[i] == moods[i];
        }
      }
    }
  }

  /** When several entries share a date, the last of them wins. */
  lemma {:induction false} MoodMapLastWins(moods: seq<DayMood>, i: nat)
    requires i < |moods|
    requires forall j :: i < j < |moods| ==> moods[j].date != moods[i].date
    ensures moods[i].date in MoodMap(moods) && MoodMap(moods)[moods[i].date] == moods[i].mood
    decreases |moods|
  {
    if i < |moods| - 1 {
      var init := moods[..|moods| - 1];
      assert init[i] == moods[i];
      MoodMapLastWins(init, i);
    }
  }

  // ---------------------------------------------------------------------
  // The month count

  /** How many of the days `1..n` are marked. */
  function CountMarked(marked: int -> bool, n: int): nat
    decreases n
  {
    if n <= 0 then 0 else CountMarked(marked, n - 1) + if marked(n) then 1 else 0
  }

  /** The marked days among `1..n`. */
  function Marked(marked: int -> bool, n: int): set<int> {
    set d | 1 <= d <= n && marked(d)
  }

  /** The count is the number of marked days, so it never exceeds the days counted. */
  lemma {:induction false} CountMarkedIsCard(marked: int -> bool, n: int)
    ensures CountMarked(marked, n) == |Marked(marked, n)|
    ensures CountMarked(marked, n) <= if n < 0 then 0 else n
    decreases n
  {
    if n <= 0 {
      assert Marked(marked, n) == {};
    } else {
      CountMarkedIsCard(marked, n - 1);
      if marked(n) {
        assert Marked(marked, n) == Marked(marked, n - 1) + {n};
      } else {
        assert Marked(marked, n) == Marked(marked, n - 1);
      }
    }
  }

  /** A day of the month is marked when its key is in the map. */
  function HasMood(year: int, monthIndex: int, moodMap: map<string, string>): int -> bool {
    d => DateKey(year, monthIndex, d) in moodMap
  }

  /** The days `1..n` of the month whose key is in the map. */
  function MarkedDays(year: int, monthIndex: int, moodMap: map<string, string>, n: int): set<int> {
    Marked(HasMood(year, monthIndex, moodMap), n)
  }

  /**
   * The loop that counts a month's marked days for the year overview:
   * `for (d = 1; d <= daysInMonth; d++) if (moodMap.has(key)) count++`.
   */
  method MonthCount(year: int, monthIndex: int, moodMap: map<string, string>) returns (count: nat)
    ensures count == |MarkedDays(year, monthIndex, moodMap, DaysInMonth(year, monthIndex))|
    ensures count <= DaysInMonth(year, monthIndex)
  {
    var daysInMonth := DaysInMonth(year, monthIndex);
    count := 0;
    var d := 1;
    while d <= daysInMonth
      invariant 1 <= d <= daysInMonth + 1
      invariant count == CountMarked(HasMood(year, monthIndex, moodMap), d - 1)
    {
      var key := DateKey(year, monthIndex, d);
      if key in moodMap {
        count := count + 1;
      }
      d := d + 1;
    }
    CountMarkedIsCard(HasMood(year, monthIndex, moodMap), daysInMonth);
  }

  // ---------------------------------------------------------------------
  // The component

  const HappyMood := "\U{1F60A} Happy"
  const StressedMood := "\U{1F61F} Stressed"
  const RelaxedMood := "\U{1F60C} Relaxed"
  const LowMood := "\U{1F614} Low"

  /** A mood `addMood` posts: the day, the selected mood and the note. */
  datatype MoodPost = MoodPost(date: string, mood: string, note: string)

  class Tracker {
    var year: int
    var selectedMonth: Option<int>
    var selectedDate: Option<string>
    var selectedMood: string
    var note: string
    var moods: seq<DayMood>
    var loading: bool
    /** The moods `handleSaveMood` has posted, oldest first. */
    var posted: seq<MoodPost>

    /** The initial state, showing the clock's `currentYear`. */
    constructor (currentYear: int)
      ensures year == currentYear && selectedMonth == None && selectedDate == None
      ensures selectedMood == HappyMood && note == "" && moods == [] && loading && posted == []
    {
      year := currentYear;
      selectedMonth := None;
      selectedDate := None;
      selectedMood := HappyMood;
      note := "";
      moods := [];
      loading := true;
      posted := [];
    }

    /**
     * `handleYearChange` with the field's value already converted by
     * `Number`: a valid year is taken and clears the selections; anything
     * else changes nothing (the source only alerts). `reload` says whether
     * the `[year]` effect runs again, which it does exactly when the year
     * now differs; it then calls `BeginFetch`.
     */
    method HandleYearChange(y: JsNumber) returns (accepted: bool, reload: bool)
      modifies this`year, this`selectedMonth, this`selectedDate
      ensures accepted == IsValidYear(y)
      ensures accepted ==>
        year == y.value.Floor && 2000 <= year <= 2099 && selectedMonth == None && selectedDate == None
      ensures !accepted ==>
        year == old(year) && selectedMonth == old(selectedMonth) && selectedDate == old(selectedDate)
      ensures reload <==> year != old(year)
    {
      accepted := y != NaN && IsValidYear(y);
      reload := false;
      if accepted {
        reload := y.value.Floor != year;
        year := y.value.Floor;
        selectedMonth := None;
        selectedDate := None;
      }
    }

    /**
     * The start of `fetchMoods`, run on mount and by the `[year]` effect:
     * the overview shows "Loading moods..." until the request settles.
     */
    method BeginFetch()
      modifies this`loading
      ensures loading
    {
      loading := true;
    }

    /**
     * `handleSaveMood(date)`: posts the selected mood with the note, then
     * clears the note. The three quick buttons call it with today's date
     * and so post `selectedMood`, whatever their own label says.
     */
    method HandleSaveMood(date: string)
      modifies this`posted, this`note
      ensures posted == old(posted) + [MoodPost(date, old(selectedMood), old(note))]
      ensures note == ""
    {
      posted := posted + [MoodPost(date, selectedMood, note)];
      note := "";
    }

    /** A mood button of the day panel. */
    method SelectMood(mood: string)
      modifies this`selectedMood
      ensures selectedMood == mood
    {
      selectedMood := mood;
    }

    /** The note field. */
    method SetNote(value: string)
      modifies this`note
      ensures note == value
    {
      note := value;
    }

    /** A month's View button. */
    method SelectMonth(monthIndex: int)
      modifies this`selectedMonth
      ensures selectedMonth == Some(monthIndex)
    {
      selectedMonth := Some(monthIndex);
    }

    /** The Close month button; the selected day is kept. */
    method CloseMonth()
      modifies this`selectedMonth
      ensures selectedMonth == None
    {
      selectedMonth := None;
    }

    /** Clicking a day of the open month selects its key. */
    method SelectDay(day: int)
      requires selectedMonth.Some?
      modifies this`selectedDate
      ensures selectedDate == Some(DateKey(year, selectedMonth.value, day))
    {
      selectedDate := Some(DateKey(year, selectedMonth.value, day));
    }

    /**
     * `fetchMoods` once its request has settled: `entries` is the
     * response's `entries` field (None when absent), or the request failed;
     * either way loading ends.
     */
    method MoodsLoaded(entries: Option<seq<DayMood>>, failed: bool)
      modifies this`moods, this`loading
      ensures moods == if failed then old(moods) else entries.GetOr([])
      ensures !loading
    {
      if !failed {
        moods := entries.GetOr([]);
      }
      loading := false;
    }

    /** The mood shown on a day of the calendar, if any. */
    function MoodOn(monthIndex: int, day: int): Option<string>
      reads this
    {
      var key := DateKey(year, monthIndex, day);
      var m := MoodMap(moods);
      if key in m then Some(m[key]) else None
    }
  }
}
