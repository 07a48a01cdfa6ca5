/**
 * The affirmation page of src/pages/AffirmationBooster.tsx: it derives a
 * mood key from the newest loaded mood, shows an affirmation for it, and
 * raises its streak when saving to the journal succeeds. The random draw
 * and the outcome of each request are parameters.
 */
module AffirmationBooster {
  import opened Wrappers
  import opened Text
  import opened JsObject
  import opened Db
  import opened Affirmations

  /** The newest mood: the first loaded entry's, or 'happy' with none loaded. */
  function LatestMood(moods: seq<MoodEntry>): string {
    if |moods| > 0 then moods[0].mood else "happy"
  }

  /**
   * The mood key: the first of happy, stressed, relaxed and low that the
   * lower-cased mood contains, and happy when none does.
   */
  function MoodKey(latestMood: string): (k: string)
    ensures k in Table
  {
    var lower := LowerStr(latestMood);
    if Contains(lower, "happy") then "happy"
    else if Contains(lower, "stressed") then "stressed"
    else if Contains(lower, "relaxed") then "relaxed"
    else if Contains(lower, "low") then "low"
    else "happy"
  }

  /** Each key is chosen exactly when it is the first of the four the mood contains. */
  lemma MoodKeyPriority(latestMood: string)
    ensures var lower := LowerStr(latestMood);
      MoodKey(latestMood) == "stressed" <==> !Contains(lower, "happy") && Contains(lower, "stressed")
    ensures var lower := LowerStr(latestMood);
      MoodKey(latestMood) == "relaxed" <==>
        !Contains(lower, "happy") && !Contains(lower, "stressed") && Contains(lower, "relaxed")
    ensures var lower := LowerStr(latestMood);
      MoodKey(latestMood) == "low" <==>
        !Contains(lower, "happy") && !Contains(lower, "stressed") && !Contains(lower, "relaxed")
        && Contains(lower, "low")
    ensures var lower := LowerStr(latestMood);
      MoodKey(latestMood) == "happy" <==>
        Contains(lower, "happy") || (!Contains(lower, "stressed") && !Contains(lower, "relaxed") && !Contains(lower, "low"))
  {
  }

  /** The three demo moods get their own keys: happy, stressed and relaxed. */
  lemma DemoMoodKeys()
    ensures MoodKey(DemoMoods[0].mood) == "happy"
    ensures MoodKey(DemoMoods[1].mood) == "stressed"
    ensures MoodKey(DemoMoods[2].mood) == "relaxed"
  {
    HappyLabelKey();
    StressedLabelKey();
    RelaxedLabelKey();
  }

  lemma HappyLabelKey()
    ensures MoodKey("\U{1F60A} Happy") == "happy"
  {
    var lower := LowerStr("\U{1F60A} Happy");
    assert lower == "\U{1F60A} happy";
    assert ContainsAt(lower, "happy", 2);
  }

  lemma StressedLabelKey()
    ensures MoodKey("\U{1F61F} Stressed") == "stressed"
  {
    var lower := LowerStr("\U{1F61F} Stressed");
    assert lower == "\U{1F61F} stressed";
    assert ContainsAt(lower, "stressed", 2);
    NotContainsByChar(lower, "happy", 0);
  }

  lemma RelaxedLabelKey()
    ensures MoodKey("\U{1F60C} Relaxed") == "relaxed"
  {
    var lower := LowerStr("\U{1F60C} Relaxed");
    assert lower == "\U{1F60C} relaxed";
    assert ContainsAt(lower, "relaxed", 2);
    NotContainsByChar(lower, "happy", 0);
    NotContainsByChar(lower, "stressed", 0);
  }

  /** The key of the loaded moods, as both the effect and "next" derive it. */
  function KeyOf(moods: seq<MoodEntry>): (k: string)
    ensures k in Table
  {
    MoodKey(LatestMood(moods))
  }

  /** With no mood loaded, the page shows a happy affirmation. */
  lemma NoMoodsIsHappy()
    ensures KeyOf([]) == "happy"
  {
    assert LowerStr("happy") == "happy";
    assert ContainsAt("happy", "happy", 0);
  }

  /**
   * The affirmation shown: since the key is always one of the table's,
   * `getRandomAffirmation` always finds a list and returns one of its entries.
   */
  function Shown(moods: seq<MoodEntry>, draw: real): (a: string)
    requires 0.0 <= draw < 1.0
    ensures Some(a) == GetRandomAffirmation(KeyOf(moods), draw)
    ensures a in Table[KeyOf(moods)]
  {
    TableShape(KeyOf(moods));
    GetRandomAffirmation(KeyOf(moods), draw).value
  }

  /** How the save request ended. */
  datatype SaveOutcome = Ok | NotOk | Threw

  /** The body the save posts. */
  datatype AffirmationPost = AffirmationPost(date: string, affirmation: string, userId: string)

  /**
   * The `streak` state as JavaScript holds it: a count, `undefined` (set
   * from a JSON body without a `streak` field), or NaN (what `prev + 1`
   * makes of a non-number).
   */
  datatype StreakValue = Count(n: int) | Undefined | NotANumber

  /** How the streak request ended: a body with a count, a body without one, or a rejection. */
  datatype StreakResponse = StreakBody(streak: int) | BodyWithoutStreak | Rejected

  /** `prev + 1`: a count goes up by one; `undefined` and NaN both become NaN. */
  function Incremented(v: StreakValue): (r: StreakValue)
    ensures r.Count? <==> v.Count?
    ensures v.Count? ==> r.n == v.n + 1
  {
    match v
    case Count(n) => Count(n + 1)
    case _ => NotANumber
  }

  /** Once the streak is not a number, no sequence of successful saves makes it one again. */
  lemma {:induction false} NotANumberSticks(v: StreakValue, saves: nat)
    requires !v.Count?
    ensures !IncrementedTimes(v, saves).Count?
    decreases saves
  {
    if saves > 0 {
      NotANumberSticks(Incremented(v), saves - 1);
    }
  }

  /** `saves` successful saves in a row. */
  function IncrementedTimes(v: StreakValue, saves: nat): StreakValue
    decreases saves
  {
    if saves == 0 then v else IncrementedTimes(Incremented(v), saves - 1)
  }

  class Booster {
    var currentAffirmation: string
    var streak: StreakValue

    constructor ()
      ensures currentAffirmation == "" && streak == Count(0)
    {
      currentAffirmation := "";
      streak := Count(0);
    }

    /**
     * Showing an affirmation for the loaded moods: the effect that runs
     * whenever they change, and the "Next Affirmation" button.
     */
    method ShowAffirmation(moods: seq<MoodEntry>, draw: real)
      requires 0.0 <= draw < 1.0
      modifies this`currentAffirmation
      ensures currentAffirmation == Shown(moods, draw)
      ensures currentAffirmation in Table[KeyOf(moods)]
    {
      currentAffirmation := Shown(moods, draw);
    }

    /**
     * The effect's streak request: any JSON body sets the streak to its
     * `streak` field, which the server's error body `{ error }` lacks, so
     * the streak becomes `undefined`; a rejected request leaves it.
     */
    method StreakFetched(response: StreakResponse)
      modifies this`streak
      ensures response.StreakBody? ==> streak == Count(response.streak)
      ensures response == BodyWithoutStreak ==> streak == Undefined
      ensures response == Rejected ==> streak == old(streak)
    {
      match response
      case StreakBody(n) => streak := Count(n);
      case BodyWithoutStreak => streak := Undefined;
      case Rejected =>
    }

    /**
     * `handleSaveToJournal`: posts today's date and the shown affirmation
     * for 'anon'; only an ok response raises the streak, by exactly one.
     */
    method SaveToJournal(today: string, outcome: SaveOutcome) returns (posted: AffirmationPost)
      modifies this`streak
      ensures posted == AffirmationPost(today, currentAffirmation, "anon")
      ensures streak == if outcome == Ok then Incremented(old(streak)) else old(streak)
      ensures outcome == Ok && old(streak).Count? ==> streak == Count(old(streak).n + 1)
    {
      posted := AffirmationPost(today, currentAffirmation, "anon");
      if outcome == Ok {
        streak := Incremented(streak);
      }
    }
  }
}
