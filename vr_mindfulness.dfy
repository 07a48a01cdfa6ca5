/**
 * The session picker and player controls of src/components/VRMindfulness.tsx:
 * four fixed sessions, a difficulty badge colour, an `m:ss` clock, and the
 * handlers that set the player state.
 */
module VrMindfulness {
  import opened Wrappers
  import opened Text

  datatype SessionType = Breathing | Meditation | Nature | Guided
  datatype Difficulty = Beginner | Intermediate | Advanced

  /** A session card; its title, description and thumbnail are display text. */
  datatype VrSession = VrSession(id: string, duration: string, environment: string, kind: SessionType, difficulty: Difficulty)

  /** `vrSessions`, in display order. */
  const VrSessions: seq<VrSession> := [
    VrSession("1", "10 min", "Ocean Beach", Breathing, Beginner),
    VrSession("2", "20 min", "Forest Clearing", Meditation, Intermediate),
    VrSession("3", "15 min", "Mountain Summit", Nature, Beginner),
    VrSession("4", "25 min", "Space", Guided, Advanced)
  ]

  /** The string a difficulty has in the source's records. */
  function DifficultyName(d: Difficulty): string {
    match d
    case Beginner => "beginner"
    case Intermediate => "intermediate"
    case Advanced => "advanced"
  }

  const BeginnerColor := "text-green-600 bg-green-100"
  const IntermediateColor := "text-yellow-600 bg-yellow-100"
  const AdvancedColor := "text-red-600 bg-red-100"
  const DefaultColor := "text-gray-600 bg-gray-100"

  /** `getDifficultyColor`, a `switch` on the difficulty string with a gray default. */
  function DifficultyColor(difficulty: string): string {
    if difficulty == "beginner" then BeginnerColor
    else if difficulty == "intermediate" then IntermediateColor
    else if difficulty == "advanced" then AdvancedColor
    else DefaultColor
  }

  /**
   * Each known difficulty has its own colour, and every other string gets
   * the gray default (the comparison is exact, so "Beginner" is gray too).
   */
  lemma DifficultyColorTable(difficulty: string)
    ensures DifficultyColor(DifficultyName(Beginner)) == BeginnerColor
    ensures DifficultyColor(DifficultyName(Intermediate)) == IntermediateColor
    ensures DifficultyColor(DifficultyName(Advanced)) == AdvancedColor
    ensures DifficultyColor(difficulty) == DefaultColor <==>
      difficulty !in {"beginner", "intermediate", "advanced"}
  {
  }

  /** The colours of the three difficulties differ from each other and from the default. */
  lemma DifficultyColorsDistinct(d: Difficulty, e: Difficulty)
    ensures DifficultyColor(DifficultyName(d)) != DefaultColor
    ensures d != e ==> DifficultyColor(DifficultyName(d)) != DifficultyColor(DifficultyName(e))
  {
    assert BeginnerColor[5] == 'g' && IntermediateColor[5] == 'y' && AdvancedColor[5] == 'r';
    assert DefaultColor[5] == 'g' && DefaultColor[7] == 'a' && BeginnerColor[7] == 'e';
  }

  /** `formatTime`: unpadded minutes, ':', seconds padded to two digits. */
  function FormatTime(seconds: nat): string {
    NatToString(seconds / 60) + ":" + PadStart2(NatToString(seconds % 60))
  }

  /**
   * The clock reads back as minutes and seconds with `mins * 60 + secs ==
   * seconds` and `secs < 60`; the seconds part is always two digits.
   */
  lemma FormatTimeRoundTrip(seconds: nat)
    ensures ParseClock(FormatTime(seconds)) == Some((seconds / 60, seconds % 60))
    ensures var f := FormatTime(seconds); |f| >= 4 && f[|f| - 3] == ':'
  {
    var m, s := NatToString(seconds / 60), NatToString(seconds % 60);
    PadNumeral(s);
    ParseNatToString(seconds / 60);
    ParseNatToString(seconds % 60);
    ParseClockOf(m, PadStart2(s));
    NatToStringLength(seconds % 60);
  }

  /** The player's state. */
  class VrPlayer {
    var selectedSession: Option<VrSession>
    var isPlaying: bool
    var currentTime: int
    var showSettings: bool

    /** Nothing in the component advances the clock: only the restart button writes it, with 0. */
    ghost predicate Valid()
      reads this
    {
      currentTime == 0
    }

    constructor ()
      ensures Valid()
      ensures selectedSession == None && !isPlaying && currentTime == 0 && !showSettings
    {
      selectedSession := None;
      isPlaying := false;
      currentTime := 0;
      showSettings := false;
    }

    /** Clicking one of the session cards selects exactly that session. */
    method SelectSession(session: VrSession)
      requires session in VrSessions
      modifies this`selectedSession
      ensures selectedSession == Some(session)
    {
      selectedSession := Some(session);
    }

    /** The play/pause button (shown only with a session selected) flips `isPlaying`. */
    method TogglePlay()
      requires selectedSession.Some?
      modifies this`isPlaying
      ensures isPlaying == !old(isPlaying)
    {
      isPlaying := !isPlaying;
    }

    /** The restart button sets the clock to 0. */
    method Restart()
      requires selectedSession.Some?
      modifies this`currentTime
      ensures Valid() && currentTime == 0
    {
      currentTime := 0;
    }

    /** The settings button flips `showSettings`. */
    method ToggleSettings()
      requires selectedSession.Some?
      modifies this`showSettings
      ensures showSettings == !old(showSettings)
    {
      showSettings := !showSettings;
    }

    /** The player's clock: as the clock never moves, it always reads "0:00". */
    function Display(): (d: string)
      reads this
      requires Valid()
      ensures d == "0:00"
    {
      FormatTime(currentTime)
    }
  }
}
