/**
 * The `useMoods(userId, year)` hook of src/hooks/useMoods.ts: it loads the
 * user's moods, keeps only the requested year's when a year is given, and
 * appends what `addMood` saves. The year of a date (`new Date(date)
 * .getFullYear()`, which depends on the time zone) is the parameter
 * `yearOf`, None for a date that does not parse.
 */
module UseMoods {
  import opened Wrappers
  import opened Db
  import opened Filters

  /** The outcome of `getMoods`: the entries, or a thrown error. */
  datatype Loaded = Entries(data: seq<MoodEntry>) | LoadThrew

  /** The outcome of `saveMood`: its result, or a thrown error. */
  datatype Saved = Result(entry: Option<MoodEntry>) | SaveThrew

  /** The year filter's test: a non-empty date whose year is `year`. */
  predicate InYear(m: MoodEntry, year: int, yearOf: string -> Option<int>) {
    m.date != "" && yearOf(m.date) == Some(year)
  }

  /** `data.filter(...)` with the year test. */
  function YearFilter(data: seq<MoodEntry>, year: int, yearOf: string -> Option<int>): (r: seq<MoodEntry>)
    ensures |r| <= |data|
    ensures forall m :: m in r <==> m in data && InYear(m, year, yearOf)
  {
    Filter(data, (m: MoodEntry) => InYear(m, year, yearOf))
  }

  /**
   * The filter keeps the entries' order: filtering a concatenation is
   * concatenating the filtered parts.
   */
  lemma YearFilterAppend(a: seq<MoodEntry>, b: seq<MoodEntry>, year: int, yearOf: string -> Option<int>)
    ensures YearFilter(a + b, year, yearOf) == YearFilter(a, year, yearOf) + YearFilter(b, year, yearOf)
  {
    FilterAppend(a, b, (m: MoodEntry) => InYear(m, year, yearOf));
  }

  /** When every entry is of the requested year, all are kept. */
  lemma YearFilterAll(data: seq<MoodEntry>, year: int, yearOf: string -> Option<int>)
    requires forall i :: 0 <= i < |data| ==> InYear(data[i], year, yearOf)
    ensures YearFilter(data, year, yearOf) == data
  {
    FilterKeepsAll(data, (m: MoodEntry) => InYear(m, year, yearOf));
  }

  /** The hook's state. */
  class Moods {
    const userId: string
    const year: Option<int>
    var moods: seq<MoodEntry>
    var loading: bool
    var error: Option<string>

    /** The initial state; `userId` defaults to 'anon' in the source's signature. */
    constructor (userId: string, year: Option<int>)
      ensures this.userId == userId && this.year == year
      ensures moods == [] && loading && error == None
    {
      this.userId := userId;
      this.year := year;
      moods := [];
      loading := true;
      error := None;
    }

    /** The start of the load effect. */
    method BeginLoad()
      modifies this`loading, this`error
      ensures loading && error == None
    {
      loading := true;
      error := None;
    }

    /**
     * The end of the load effect. An unmounted hook changes nothing.
     * Otherwise loaded entries replace `moods` (only the year's when a
     * year is set), a thrown error sets `error`, and loading ends either
     * way. An array is never falsy, so the source's empty-data branch
     * cannot be taken.
     */
    method FinishLoad(outcome: Loaded, mounted: bool, yearOf: string -> Option<int>)
      modifies this`moods, this`loading, this`error
      ensures !mounted ==> moods == old(moods) && loading == old(loading) && error == old(error)
      ensures mounted ==> !loading
      ensures mounted && outcome.Entries? ==>
        error == old(error) && moods == if year.Some? then YearFilter(outcome.data, year.value, yearOf) else outcome.data
      ensures mounted && outcome.LoadThrew? ==> moods == old(moods) && error == Some("Failed to load moods")
    {
      if !mounted {
        return;
      }
      loading := false;
      match outcome
      case Entries(data) =>
        if year.Some? {
          moods := YearFilter(data, year.value, yearOf);
        } else {
          moods := data;
        }
      case LoadThrew =>
        error := Some("Failed to load moods");
    }

    /**
     * `addMood` once `saveMood` has settled: a saved entry is appended
     * after the existing moods and returned; a null result or an error
     * leaves the moods and returns null.
     */
    method AddMood(saved: Saved) returns (r: Option<MoodEntry>)
      modifies this`moods
      ensures saved.Result? && saved.entry.Some? ==> r == saved.entry && moods == old(moods) + [saved.entry.value]
      ensures !(saved.Result? && saved.entry.Some?) ==> r == None && moods == old(moods)
    {
      if saved.Result? && saved.entry.Some? {
        moods := moods + [saved.entry.value];
        r := saved.entry;
      } else {
        r := None;
      }
    }

    /** `addMood` over `saveMood` itself: it appends unless the store is unavailable. */
    method AddMoodTo(demoMode: bool, firebaseAvailable: bool, date: string, mood: string, note: Option<string>) returns (r: Option<MoodEntry>)
      modifies this`moods
      ensures (!demoMode && !firebaseAvailable) <==> r == None
      ensures r.Some? ==> r.value == MoodEntry(date, mood, note, None) && moods == old(moods) + [r.value]
      ensures r == None ==> moods == old(moods)
    {
      r := AddMood(Result(SaveMood(demoMode, firebaseAvailable, userId, date, mood, note)));
    }
  }
}
