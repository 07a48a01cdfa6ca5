/**
 * The recommendation browser of src/components/MoodBasedRecommendations.tsx:
 * three fixed lists (music, art, videos), a tab that picks the list, a
 * selected mood that filters it, and a gradient per mood.
 */
module MoodBasedRecommendations {
  import opened JsObject
  import opened Filters

  datatype Kind = Music | Art | Video

  /** A recommendation; its artist, thumbnail, duration and description are display text. */
  datatype Item = Item(id: string, title: string, kind: Kind, mood: string)

  const MusicRecommendations: seq<Item> := [
    Item("1", "Ocean Waves & Piano", Music, "calm"),
    Item("2", "Morning Motivation Mix", Music, "energetic"),
    Item("3", "Rainy Day Reflections", Music, "sad"),
    Item("4", "Anxiety Relief Soundscape", Music, "anxious")
  ]

  const ArtRecommendations: seq<Item> := [
    Item("5", "Serene Landscape Collection", Art, "calm"),
    Item("6", "Vibrant Abstract Energy", Art, "energetic"),
    Item("7", "Contemplative Portraits", Art, "sad"),
    Item("8", "Geometric Harmony", Art, "anxious")
  ]

  const VideoRecommendations: seq<Item> := [
    Item("9", "Guided Forest Meditation", Video, "calm"),
    Item("10", "High-Energy Workout Motivation", Video, "energetic")
  ]

  /** The list a tab shows; an unknown tab has none. */
  function TabList(activeTab: string): seq<Item> {
    if activeTab == "music" then MusicRecommendations
    else if activeTab == "art" then ArtRecommendations
    else if activeTab == "videos" then VideoRecommendations
    else []
  }

  /**
   * `getRecommendations`: the tab's items of the selected mood, in list
   * order; an unknown tab yields nothing.
   */
  function GetRecommendations(activeTab: string, selectedMood: string): (r: seq<Item>)
    ensures forall x :: x in r <==> x in TabList(activeTab) && x.mood == selectedMood
    ensures activeTab !in {"music", "art", "videos"} ==> r == []
  {
    Filter(TabList(activeTab), (x: Item) => x.mood == selectedMood)
  }

  /** Music has exactly one item for each of calm, energetic, sad and anxious. */
  lemma MusicCounts()
    ensures GetRecommendations("music", "calm") == [MusicRecommendations[0]]
    ensures GetRecommendations("music", "energetic") == [MusicRecommendations[1]]
    ensures GetRecommendations("music", "sad") == [MusicRecommendations[2]]
    ensures GetRecommendations("music", "anxious") == [MusicRecommendations[3]]
  {
  }

  /** Neither music nor art has anything for happy or focused, although both moods can be selected. */
  lemma UncoveredMoods()
    ensures GetRecommendations("music", "happy") == [] && GetRecommendations("music", "focused") == []
    ensures GetRecommendations("art", "happy") == [] && GetRecommendations("art", "focused") == []
  {
  }

  /** Art has exactly one item for each of calm, energetic, sad and anxious. */
  lemma ArtCounts()
    ensures GetRecommendations("art", "calm") == [ArtRecommendations[0]]
    ensures GetRecommendations("art", "energetic") == [ArtRecommendations[1]]
    ensures GetRecommendations("art", "sad") == [ArtRecommendations[2]]
    ensures GetRecommendations("art", "anxious") == [ArtRecommendations[3]]
  {
  }

  /** Videos only have calm and energetic items, one each. */
  lemma VideoCounts()
    ensures GetRecommendations("videos", "calm") == [VideoRecommendations[0]]
    ensures GetRecommendations("videos", "energetic") == [VideoRecommendations[1]]
    ensures GetRecommendations("videos", "sad") == [] && GetRecommendations("videos", "anxious") == []
  {
  }

  /** Every item a tab shows is of that tab's kind. */
  lemma TabKinds(activeTab: string, selectedMood: string)
    ensures forall x :: x in GetRecommendations(activeTab, selectedMood) ==>
      x.kind == (if activeTab == "music" then Music else if activeTab == "art" then Art else Video)
  {
  }

  const CalmGradient := "from-blue-500 to-cyan-500"

  /** The `colors` object of `getMoodColor`. */
  const MoodGradients: map<string, string> := map[
    "calm" := CalmGradient,
    "energetic" := "from-orange-500 to-red-500",
    "sad" := "from-gray-500 to-blue-500",
    "anxious" := "from-purple-500 to-pink-500",
    "happy" := "from-yellow-500 to-orange-500",
    "focused" := "from-green-500 to-teal-500"
  ]

  /** `getMoodColor`: `colors[mood] || colors.calm`. */
  function GetMoodColor(mood: string): Prop<string> {
    OrElse(Get(MoodGradients, mood), MoodGradients["calm"])
  }

  /**
   * A listed mood gets its own gradient; any other mood gets calm's,
   * except the names every object inherits.
   */
  lemma MoodColorFallback(mood: string)
    ensures mood in MoodGradients ==> GetMoodColor(mood) == Own(MoodGradients[mood])
    ensures mood !in MoodGradients && mood !in PrototypeMembers ==> GetMoodColor(mood) == Own(CalmGradient)
    ensures mood != "calm" && mood in MoodGradients ==> GetMoodColor(mood) != Own(CalmGradient)
  {
    LookupOrElse(MoodGradients, mood, MoodGradients["calm"]);
    if mood != "calm" && mood in MoodGradients {
      assert MoodGradients[mood][6] != CalmGradient[6];
    }
  }

  /** The component's state: the mood starts at calm and the tab at music. */
  class Browser {
    var selectedMood: string
    var activeTab: string

    constructor ()
      ensures selectedMood == "calm" && activeTab == "music"
    {
      selectedMood := "calm";
      activeTab := "music";
    }

    method SelectMood(mood: string)
      modifies this`selectedMood
      ensures selectedMood == mood
    {
      selectedMood := mood;
    }

    method SelectTab(tab: string)
      modifies this`activeTab
      ensures activeTab == tab
    {
      activeTab := tab;
    }

    /** The items shown. */
    function Shown(): (r: seq<Item>)
      reads this
      ensures forall x :: x in r ==> x.mood == selectedMood
    {
      GetRecommendations(activeTab, selectedMood)
    }
  }
}
