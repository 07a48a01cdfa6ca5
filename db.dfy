/**
 * The storage helper of src/lib/db.ts. In demo mode nothing is stored:
 * `saveMood` echoes its entry and `getMoods` returns the demo moods of
 * src/config.ts. Outside demo mode both depend on whether the firebase SDK
 * loaded, and neither stores anything yet. The two flags are parameters
 * (the SDK check is an asynchronous import).
 */
module Db {
  import opened Wrappers

  /** `MoodEntry`; `note` and `userId` are optional fields. */
  datatype MoodEntry = MoodEntry(date: string, mood: string, note: Option<string>, userId: Option<string>)

  /** `DEMO_MODE` as src/config.ts sets it. */
  const DemoMode: bool := true

  /** A demo mood: a date and a mood label. */
  datatype DemoMood = DemoMood(date: string, mood: string)

  /** `demoMoods` of src/config.ts. */
  const DemoMoods: seq<DemoMood> := [
    DemoMood("2025-09-01", "\U{1F60A} Happy"),
    DemoMood("2025-09-02", "\U{1F61F} Stressed"),
    DemoMood("2025-09-03", "\U{1F60C} Relaxed")
  ]

  /**
   * `saveMood(userId, date, mood, note)`. Only outside demo mode without
   * the SDK does it fail (null); otherwise it returns exactly the given
   * date, mood and note, and never a user id.
   */
  function SaveMood(demoMode: bool, firebaseAvailable: bool, userId: string, date: string, mood: string, note: Option<string>): (r: Option<MoodEntry>)
    ensures r == None <==> !demoMode && !firebaseAvailable
    ensures r.Some? ==> r.value.date == date && r.value.mood == mood && r.value.note == note
    ensures r.Some? ==> r.value.userId == None
  {
    if demoMode then Some(MoodEntry(date, mood, note, None))
    else if !firebaseAvailable then None
    else Some(MoodEntry(date, mood, note, None))
  }

  /** The demo moods as entries with an empty note. */
  function DemoEntries(demo: seq<DemoMood>): (r: seq<MoodEntry>)
    ensures |r| == |demo|
    ensures forall i :: 0 <= i < |r| ==>
      r[i] == MoodEntry(demo[i].date, demo[i].mood, Some(""), None)
  {
    if demo == [] then []
    else [MoodEntry(demo[0].date, demo[0].mood, Some(""), None)] + DemoEntries(demo[1..])
  }

  /**
   * `getMoods(userId)`: in demo mode, the demo moods in order, each with
   * its date and mood and an empty note; otherwise nothing, with or
   * without the SDK.
   */
  function GetMoods(demoMode: bool, firebaseAvailable: bool, userId: string): (r: seq<MoodEntry>)
    ensures demoMode ==> |r| == |DemoMoods|
    ensures demoMode ==> forall i :: 0 <= i < |r| ==>
      r[i].date == DemoMoods[i].date && r[i].mood == DemoMoods[i].mood && r[i].note == Some("") && r[i].userId == None
    ensures !demoMode ==> r == []
  {
    if demoMode then DemoEntries(DemoMoods)
    else []
  }

  /** Neither operation looks at the user: any two users get the same answers. */
  lemma UserIgnored(demoMode: bool, firebaseAvailable: bool, u1: string, u2: string, date: string, mood: string, note: Option<string>)
    ensures SaveMood(demoMode, firebaseAvailable, u1, date, mood, note) == SaveMood(demoMode, firebaseAvailable, u2, date, mood, note)
    ensures GetMoods(demoMode, firebaseAvailable, u1) == GetMoods(demoMode, firebaseAvailable, u2)
  {
  }

  /** The configured demo mode always saves and lists the three demo moods. */
  lemma ConfiguredDemo(firebaseAvailable: bool, userId: string, date: string, mood: string, note: Option<string>)
    ensures SaveMood(DemoMode, firebaseAvailable, userId, date, mood, note) == Some(MoodEntry(date, mood, note, None))
    ensures |GetMoods(DemoMode, firebaseAvailable, userId)| == 3
    ensures GetMoods(DemoMode, firebaseAvailable, userId)[0].date == "2025-09-01"
  {
  }
}
