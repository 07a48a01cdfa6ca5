/**
 * The group journal of src/components/GroupJournaling.tsx: the community
 * entries and their mood filter, the "time ago" label, the mood badge
 * colour, and the writing form's state. The current time is the parameter
 * `nowMs`; an entry's timestamp is `hoursAgo` hours before the moment the
 * component rendered.
 */
module GroupJournaling {
  import opened Wrappers
  import opened Text
  import opened JsObject
  import opened Filters

  /** A community entry; its title, content and tags are display text. */
  datatype JournalEntry = JournalEntry(id: string, author: string, hoursAgo: int, likes: int, comments: int, isAnonymous: bool, mood: string)

  /** `journalEntries`. */
  const JournalEntries: seq<JournalEntry> := [
    JournalEntry("1", "Anonymous_Writer", 2, 24, 8, true, "reflective"),
    JournalEntry("2", "Hopeful_Journey", 4, 31, 12, true, "hopeful"),
    JournalEntry("3", "Grateful_Heart", 6, 18, 5, true, "grateful")
  ]

  /** A writing prompt; its title and description are display text. */
  datatype JournalPrompt = JournalPrompt(id: string, category: string, participants: int)

  /** `journalPrompts`. */
  const JournalPrompts: seq<JournalPrompt> := [
    JournalPrompt("1", "gratitude", 127),
    JournalPrompt("2", "growth", 89),
    JournalPrompt("3", "reflection", 156),
    JournalPrompt("4", "hope", 203)
  ]

  /**
   * `filteredEntries`: 'all' keeps every entry; any other value keeps
   * exactly the entries of that mood, in their order.
   */
  function FilteredEntries(filterMood: string, entries: seq<JournalEntry>): (r: seq<JournalEntry>)
    ensures filterMood == "all" ==> r == entries
    ensures filterMood != "all" ==> forall e :: e in r <==> e in entries && e.mood == filterMood
    ensures |r| <= |entries|
  {
    if filterMood == "all" then entries else Filter(entries, (e: JournalEntry) => e.mood == filterMood)
  }

  /** The filter keeps the entries' order. */
  lemma FilteredEntriesOrder(filterMood: string, a: seq<JournalEntry>, b: seq<JournalEntry>)
    ensures FilteredEntries(filterMood, a + b) == FilteredEntries(filterMood, a) + FilteredEntries(filterMood, b)
  {
    if filterMood != "all" {
      FilterAppend(a, b, (e: JournalEntry) => e.mood == filterMood);
    }
  }

  /**
   * On the shown entries, each of reflective, hopeful and grateful keeps
   * one entry, and 'challenging', although it is offered, keeps none.
   */
  lemma FixedEntries()
    ensures FilteredEntries("reflective", JournalEntries) == [JournalEntries[0]]
    ensures FilteredEntries("hopeful", JournalEntries) == [JournalEntries[1]]
    ensures FilteredEntries("grateful", JournalEntries) == [JournalEntries[2]]
    ensures FilteredEntries("challenging", JournalEntries) == []
  {
  }

  const HourMs: int := 3600000

  /**
   * `formatTimeAgo`: the whole hours since the date, `Math.floor(diff /
   * 3600000)` (a floor, so a future date counts as less than an hour).
   * Every language other than 'en' gets the Hindi wording.
   */
  function FormatTimeAgo(nowMs: int, dateMs: int, language: string): string {
    var diffInHours := (nowMs - dateMs) / HourMs;
    if diffInHours < 1 then (if language == "en" then "Just now" else "अभी")
    else if diffInHours == 1 then (if language == "en" then "1 hour ago" else "1 घंटे पहले")
    else if language == "en" then IntToString(diffInHours) + " hours ago"
    else IntToString(diffInHours) + " घंटे पहले"
  }

  /**
   * The English label's buckets: under an hour, including any future
   * date, is "Just now"; the second hour is "1 hour ago"; from two hours
   * on the label starts with the whole hours, which read back exactly.
   */
  lemma TimeAgoBuckets(nowMs: int, dateMs: int)
    ensures var r := FormatTimeAgo(nowMs, dateMs, "en");
      r == "Just now" <==> nowMs - dateMs < HourMs
    ensures var r := FormatTimeAgo(nowMs, dateMs, "en");
      r == "1 hour ago" <==> HourMs <= nowMs - dateMs < 2 * HourMs
    ensures var r := FormatTimeAgo(nowMs, dateMs, "en");
      nowMs - dateMs >= 2 * HourMs ==>
        |r| > 10 && r[|r| - 10..] == " hours ago" && AllDigits(r[..|r| - 10])
        && ParseDigits(r[..|r| - 10]) == (nowMs - dateMs) / HourMs
  {
    var diff := nowMs - dateMs;
    var r := FormatTimeAgo(nowMs, dateMs, "en");
    var h := diff / HourMs;
    if diff >= 2 * HourMs {
      assert h >= 2;
      var n := NatToString(h);
      ParseNatToString(h);
      assert r == n + " hours ago";
      assert r[..|r| - 10] == n;
      assert r[|r| - 1] == 'o';
      assert r[|r| - 10..] == " hours ago";
      assert r != "Just now" by { assert "Just now"[7] == 'w'; }
      NatToStringLength(h);
      assert |r| > 10;
    } else if diff >= HourMs {
      assert h == 1;
      assert r == "1 hour ago";
    } else {
      assert h < 1;
      assert r == "Just now";
    }
  }

  /** Every language but 'en' gets a Hindi label. */
  lemma TimeAgoHindi(nowMs: int, dateMs: int, language: string)
    requires language != "en"
    ensures var h := (nowMs - dateMs) / HourMs;
      FormatTimeAgo(nowMs, dateMs, language) ==
        if h < 1 then "अभी" else if h == 1 then "1 घंटे पहले" else IntToString(h) + " घंटे पहले"
  {
  }

  const GrayColor := "bg-gray-100 text-gray-800"

  /** The `colors` object of `getMoodColor`. */
  const MoodColors: map<string, string> := map[
    "grateful" := "bg-green-100 text-green-800",
    "reflective" := "bg-blue-100 text-blue-800",
    "hopeful" := "bg-yellow-100 text-yellow-800",
    "challenging" := "bg-red-100 text-red-800"
  ]

  /** `getMoodColor`: `colors[mood] || gray`. */
  function GetMoodColor(mood: string): Prop<string> {
    OrElse(Get(MoodColors, mood), GrayColor)
  }

  /**
   * The four known moods get their own colour, which is never the gray
   * one; any other mood is gray, except the names every object inherits.
   */
  lemma MoodColorTable(mood: string)
    ensures mood in MoodColors ==> GetMoodColor(mood) == Own(MoodColors[mood]) && MoodColors[mood] != GrayColor
    ensures mood !in MoodColors && mood !in PrototypeMembers ==> GetMoodColor(mood) == Own(GrayColor)
    ensures GetMoodColor(mood).Inherited? <==> mood in PrototypeMembers
  {
    LookupOrElse(MoodColors, mood, GrayColor);
    if mood in MoodColors {
      assert MoodColors[mood][5] != GrayColor[5];
    }
  }

  /** The writing form. */
  datatype NewEntry = NewEntry(title: string, content: string, isAnonymous: bool)

  /** The component's state. */
  class Journaling {
    var activeTab: string
    var selectedPrompt: Option<JournalPrompt>
    var newEntry: NewEntry
    var filterMood: string

    constructor ()
      ensures activeTab == "prompts" && selectedPrompt == None
      ensures newEntry == NewEntry("", "", true) && filterMood == "all"
    {
      activeTab := "prompts";
      selectedPrompt := None;
      newEntry := NewEntry("", "", true);
      filterMood := "all";
    }

    /** A tab button. */
    method SetTab(tab: string)
      modifies this`activeTab
      ensures activeTab == tab
    {
      activeTab := tab;
    }

    /** "Join This Prompt": select the prompt and open the writing tab. */
    method JoinPrompt(prompt: JournalPrompt)
      requires prompt in JournalPrompts
      modifies this`selectedPrompt, this`activeTab
      ensures selectedPrompt == Some(prompt) && activeTab == "write"
    {
      selectedPrompt := Some(prompt);
      activeTab := "write";
    }

    /** The title field changes only the title. */
    method SetTitle(value: string)
      modifies this`newEntry
      ensures newEntry == old(newEntry).(title := value)
    {
      newEntry := newEntry.(title := value);
    }

    /** The content field changes only the content. */
    method SetContent(value: string)
      modifies this`newEntry
      ensures newEntry == old(newEntry).(content := value)
    {
      newEntry := newEntry.(content := value);
    }

    /** The anonymity checkbox changes only the flag. */
    method SetAnonymous(checked: bool)
      modifies this`newEntry
      ensures newEntry == old(newEntry).(isAnonymous := checked)
    {
      newEntry := newEntry.(isAnonymous := checked);
    }

    /** The mood filter's select. */
    method SetFilterMood(mood: string)
      modifies this`filterMood
      ensures filterMood == mood
    {
      filterMood := mood;
    }

    /** The entries the entries tab lists. */
    function Visible(): (r: seq<JournalEntry>)
      reads this
      ensures forall e :: e in r ==> e in JournalEntries && (filterMood == "all" || e.mood == filterMood)
    {
      FilteredEntries(filterMood, JournalEntries)
    }
  }
}
