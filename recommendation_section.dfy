/**
 * The recommendation panel of src/components/RecommendationSection.tsx: a
 * table from mood to one music and one video recommendation, looked up
 * with calm as the fallback, for a mood that follows the component's prop.
 */
module RecommendationSection {
  import opened JsObject

  datatype Kind = Music | Video

  /** A recommendation; its artist, thumbnail, duration, description and embed address are display text. */
  datatype Item = Item(id: string, title: string, kind: Kind, mood: string)

  /** A table entry: the music list and the video list of one mood. */
  datatype MoodContent = MoodContent(music: seq<Item>, videos: seq<Item>)

  /** `recommendations`. */
  const Recommendations: map<string, MoodContent> := map[
    "calm" := MoodContent([Item("1", "Ocean Waves & Piano", Music, "calm")],
                          [Item("9", "Guided Forest Meditation", Video, "calm")]),
    "energetic" := MoodContent([Item("2", "Morning Motivation Mix", Music, "energetic")],
                               [Item("10", "High-Energy Workout Motivation", Video, "energetic")]),
    "happy" := MoodContent([Item("11", "Happy Pop Hits", Music, "happy")],
                           [Item("13", "Funny Cat Videos Compilation", Video, "happy")]),
    "good" := MoodContent([Item("14", "Chill Acoustic Vibes", Music, "good")],
                          [Item("16", "Nature Walk in the Park", Video, "good")]),
    "okay" := MoodContent([Item("17", "Neutral Background Music", Music, "okay")],
                          [Item("19", "Mindful Breathing Exercises", Video, "okay")]),
    "sad" := MoodContent([Item("20", "Melancholic Piano Pieces", Music, "sad")],
                         [Item("22", "Comforting Rain Sounds", Video, "sad")]),
    "anxious" := MoodContent([Item("23", "Calming Nature Sounds", Music, "anxious")],
                             [Item("25", "Guided Anxiety Relief", Video, "anxious")])
  ]

  /** An entry that is well formed for mood `k`: one music item and one video item, both of mood `k`. */
  predicate WellFormed(k: string, c: MoodContent) {
    |c.music| == 1 && |c.videos| == 1
    && c.music[0].kind == Music && c.music[0].mood == k
    && c.videos[0].kind == Video && c.videos[0].mood == k
  }

  /**
   * Every mood in the table has exactly one music and one video item,
   * each typed by its list and tagged with that mood.
   */
  lemma TableWellFormed(k: string)
    requires k in Recommendations
    ensures WellFormed(k, Recommendations[k])
  {
  }

  /**
   * `recommendations[currentMood] || recommendations['calm']`: a mood of
   * the table gets its own entry, any other mood calm's, except the names
   * every object inherits, which find a built-in with no lists.
   */
  function MoodContentFor(currentMood: string): (r: Prop<MoodContent>)
    ensures currentMood in Recommendations ==> r == Own(Recommendations[currentMood])
    ensures currentMood !in Recommendations && currentMood !in PrototypeMembers ==> r == Own(Recommendations["calm"])
    ensures currentMood in PrototypeMembers ==> r.Inherited?
  {
    LookupOrElse(Recommendations, currentMood, Recommendations["calm"]);
    OrElse(Get(Recommendations, currentMood), Recommendations["calm"])
  }

  /** Whatever the mood, a found entry is well formed for its own key or for calm. */
  lemma ShownWellFormed(currentMood: string)
    requires MoodContentFor(currentMood).Own?
    ensures var c := MoodContentFor(currentMood).value;
      WellFormed(if currentMood in Recommendations then currentMood else "calm", c)
  {
    if currentMood in Recommendations {
      TableWellFormed(currentMood);
    } else {
      TableWellFormed("calm");
    }
  }

  /** The component's state: the mood shown follows the `mood` prop. */
  class Panel {
    var currentMood: string
    var activeTab: Kind

    constructor (mood: string)
      ensures currentMood == mood && activeTab == Music
    {
      currentMood := mood;
      activeTab := Music;
    }

    /** The effect on a new `mood` prop. */
    method MoodPropChanged(mood: string)
      modifies this`currentMood
      ensures currentMood == mood
    {
      currentMood := mood;
    }

    /** A tab button. */
    method SelectTab(tab: Kind)
      modifies this`activeTab
      ensures activeTab == tab
    {
      activeTab := tab;
    }
  }
}
