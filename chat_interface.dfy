/**
 * The chat triage pipeline of src/components/ChatInterface.tsx.
 *
 * Classifiers and the reply table are functions. The per-turn controller
 * `sendMessage` is the `ChatSession` class: it appends to an append-only
 * message log, clears the input, records the crisis mood write, and
 * schedules delayed follow-ups. A `setTimeout` becomes a `Timer` in the
 * session's `pending` list; the event loop's delivery of the earliest one
 * is the method `FireTimer`.
 */
module ChatInterface {
  import opened Wrappers
  import opened Text
  import Sentiment

  // ---------------------------------------------------------------------
  // Messages

  datatype Sender = User | Ai | System

  /** The `type` field of a message ('normal', 'coping', 'helpline', 'mood', 'crisis'), which decides how it is rendered. */
  datatype Kind = NormalType | CopingType | HelplineType | MoodType | CrisisType

  /** The click handler of a message: none, or an `alert` with this text. */
  datatype Click = NoClick | Alert(notice: string)

  const EmpatheticText := "I hear your pain, and I care. You're not alone. Let's get you support."
  const RecoveryPromptText := "Would you like me to log this in your mood calendar so we can track your recovery together?"
  const CheckInPromptText := "Would you like to log your mood for today?"
  const OpenCalendarNotice := "Opening Mood Calendar..."

  /**
   * What a message is: the one of the seven messages `sendMessage` builds.
   * Its sender, text, type and click handler follow from that.
   */
  datatype Body =
    | UserText(words: string)      // the trimmed input
    | Empathy                      // the crisis turn's assistant message
    | CrisisCard                   // the crisis card, rendered by its own component
    | CopingSuggestion(tool: string)
    | RecoveryPrompt               // the mood prompt 2000 ms after a crisis turn
    | AiReply(reply: string)       // the assistant reply of a normal turn
    | CheckInPrompt                // the mood prompt after the fifth exchange

  datatype Message = Message(id: int, body: Body)
  {
    function Sender(): Sender {
      match body
      case UserText(_) => User
      case Empathy => Ai
      case AiReply(_) => Ai
      case _ => System
    }

    function Text(): string {
      match body
      case UserText(w) => w
      case Empathy => EmpatheticText
      case CrisisCard => ""
      case CopingSuggestion(tool) => CopingText(tool)
      case RecoveryPrompt => RecoveryPromptText
      case AiReply(r) => r
      case CheckInPrompt => CheckInPromptText
    }

    function Kind(): Kind {
      match body
      case CrisisCard => CrisisType
      case CopingSuggestion(_) => CopingType
      case RecoveryPrompt => MoodType
      case CheckInPrompt => MoodType
      case _ => NormalType
    }

    function OnClick(): Click {
      match body
      case CopingSuggestion(tool) => Alert("Launching " + tool + " feature...")
      case RecoveryPrompt => Alert(OpenCalendarNotice)
      case CheckInPrompt => Alert(OpenCalendarNotice)
      case _ => NoClick
    }
  }

  function CopingText(tool: string): string {
    "You might find the " + tool + " helpful. Click to try it."
  }

  // ---------------------------------------------------------------------
  // Classifiers

  datatype ChatSentiment = SadSentiment | AnxiousSentiment | PositiveSentiment | NeutralSentiment

  const SadKeywords: seq<string> := ["sad", "depressed", "unhappy", "down", "low", "hopeless", "tired"]
  const AnxiousKeywords: seq<string> := ["anxious", "nervous", "worried", "stressed", "overwhelmed", "panic"]
  const PositiveKeywords: seq<string> := ["happy", "good", "great", "joy", "excited", "love", "thankful"]

  /** `detectSentiment(text)`: sad before anxious before positive, else neutral. */
  function DetectSentiment(text: string): ChatSentiment {
    var lower := LowerStr(text);
    if Sentiment.ContainsAny(lower, SadKeywords) then SadSentiment
    else if Sentiment.ContainsAny(lower, AnxiousKeywords) then AnxiousSentiment
    else if Sentiment.ContainsAny(lower, PositiveKeywords) then PositiveSentiment
    else NeutralSentiment
  }

  /** The string `detectSentiment` returns, which `getAdaptiveResponse` switches on. */
  function SentimentName(s: ChatSentiment): string {
    match s
    case SadSentiment => "sad"
    case AnxiousSentiment => "anxious"
    case PositiveSentiment => "positive"
    case NeutralSentiment => "neutral"
  }

  /** The first key of the sentiment groups that has a hit decides; no hit is neutral. */
  lemma SentimentPriority(text: string)
    ensures var lower := LowerStr(text);
      && (DetectSentiment(text) == SadSentiment <==> Sentiment.ContainsAny(lower, SadKeywords))
      && (DetectSentiment(text) == AnxiousSentiment <==>
            !Sentiment.ContainsAny(lower, SadKeywords) && Sentiment.ContainsAny(lower, AnxiousKeywords))
      && (DetectSentiment(text) == PositiveSentiment <==>
            !Sentiment.ContainsAny(lower, SadKeywords) && !Sentiment.ContainsAny(lower, AnxiousKeywords)
            && Sentiment.ContainsAny(lower, PositiveKeywords))
      && (DetectSentiment(text) == NeutralSentiment <==>
            !Sentiment.ContainsAny(lower, SadKeywords + AnxiousKeywords + PositiveKeywords))
  {
    var lower := LowerStr(text);
    var all := SadKeywords + AnxiousKeywords + PositiveKeywords;
    if Sentiment.ContainsAny(lower, all) {
      var w :| w in all && Contains(lower, w);
      assert w in SadKeywords || w in AnxiousKeywords || w in PositiveKeywords;
    }
  }

  /** The coping-trigger table in the object's key order: stress, sleep, lonely. */
  const CopingTriggers: seq<(string, string)> :=
    [("stress", "Breathing Exercise"), ("sleep", "Guided Meditation"), ("lonely", "Journaling or Peer Support")]

  /** The tool of the first key in `table` that occurs in `lower`, if any. */
  function FirstTrigger(lower: string, table: seq<(string, string)>): Option<string>
    decreases |table|
  {
    if table == [] then None
    else if Contains(lower, table[0].0) then Some(table[0].1)
    else FirstTrigger(lower, table[1..])
  }

  /** The coping tool `checkCopingTrigger(text)` returns (`null` is None). */
  function CopingTool(text: string): Option<string> {
    FirstTrigger(LowerStr(text), CopingTriggers)
  }

  /** `checkCopingTrigger`: the `for ... in` loop over the trigger keys with an early return. */
  method CheckCopingTrigger(text: string) returns (tool: Option<string>)
    ensures tool == CopingTool(text)
    ensures tool.Some? <==> exists k :: 0 <= k < |CopingTriggers| && Contains(LowerStr(text), CopingTriggers[k].0)
    ensures tool.Some? ==> exists k :: (0 <= k < |CopingTriggers|
      && Contains(LowerStr(text), CopingTriggers[k].0) && tool.value == CopingTriggers[k].1
      && forall j :: 0 <= j < k ==> !Contains(LowerStr(text), CopingTriggers[j].0))
  {
    var lower := LowerStr(text);
    var k := 0;
    while k < |CopingTriggers|
      invariant 0 <= k <= |CopingTriggers|
      invariant forall j :: 0 <= j < k ==> !Contains(lower, CopingTriggers[j].0)
      invariant FirstTrigger(lower, CopingTriggers) == FirstTrigger(lower, CopingTriggers[k..])
    {
      if Contains(lower, CopingTriggers[k].0) {
        return Some(CopingTriggers[k].1);
      }
      assert CopingTriggers[k..][1..] == CopingTriggers[k + 1..];
      k := k + 1;
    }
    return None;
  }

  /**
   * Because "stressed" contains "stress", a text with "stressed" always
   * gets the breathing exercise from the coping table, and so never
   * reaches the anxious reply.
   */
  lemma StressedTriggersBreathing(text: string)
    requires Contains(LowerStr(text), "stressed")
    ensures CopingTool(text) == Some("Breathing Exercise")
  {
    assert ContainsAt("stressed", "stress", 0);
    ContainsTransitive(LowerStr(text), "stressed", "stress");
  }

  // ---------------------------------------------------------------------
  // Replies

  const SadReply := "I'm sorry you're feeling down. Remember, it's okay to have tough days."
  const AnxiousReply := "Take a deep breath. You're doing your best, and that's enough."
  const PositiveReply := "That's wonderful to hear! Keep up the great vibes!"
  const DefaultReply := "I'm here to listen. Tell me more."

  /** `getAdaptiveResponse(sentiment)`. */
  function AdaptiveResponse(sentiment: string): (r: string)
    ensures sentiment !in {"sad", "anxious", "positive"} ==> r == DefaultReply
    ensures r in {SadReply, AnxiousReply, PositiveReply, DefaultReply}
  {
    if sentiment == "sad" then SadReply
    else if sentiment == "anxious" then AnxiousReply
    else if sentiment == "positive" then PositiveReply
    else DefaultReply
  }

  /** Each sentiment gets its own sentence; the neutral one gets the default. */
  lemma AdaptiveResponseTable()
    ensures AdaptiveResponse(SentimentName(SadSentiment)) == SadReply
    ensures AdaptiveResponse(SentimentName(AnxiousSentiment)) == AnxiousReply
    ensures AdaptiveResponse(SentimentName(PositiveSentiment)) == PositiveReply
    ensures AdaptiveResponse(SentimentName(NeutralSentiment)) == DefaultReply
  {
  }

  const HindiPool: seq<string> := [
    "ज़िंदगी एक सफर है, मंज़िल नहीं।",
    "हर अंधेरा सुबह की निशानी है।",
    "दिल से जो निकले, वो असर रखता है।",
    "मुश्किलों से घबराना नहीं, ये तो जिंदगी की पहचान है।",
    "हर सुबह एक नई उम्मीद लेकर आती है।"
  ]
  const EnglishPool: seq<string> := [
    "Every storm runs out of rain.",
    "This too shall pass.",
    "The darkest hour is just before the dawn.",
    "Keep your face always toward the sunshine—and shadows will fall behind you.",
    "Tough times never last, but tough people do."
  ]

  /** The pool the chat draws from: Hindi only when the language lower-cases to "hindi". */
  function CulturalPool(language: string): seq<string> {
    if LowerStr(language) == "hindi" then HindiPool else EnglishPool
  }

  /**
   * `getCulturalResponse()` with `Math.random()` passed in as `draw`:
   * the element at `floor(draw * length)` of the language's pool.
   */
  function CulturalResponse(language: string, draw: real): (r: string)
    requires 0.0 <= draw < 1.0
    ensures r in CulturalPool(language)
    ensures LowerStr(language) == "hindi" ==> r in HindiPool
    ensures LowerStr(language) != "hindi" ==> r in EnglishPool
  {
    var pool := CulturalPool(language);
    var idx := (draw * |pool| as real).Floor;
    pool[idx]
  }

  /**
   * The text of the assistant reply for a normal turn: the adaptive
   * sentence, plus a space and a cultural phrase when the coin
   * (`Math.random()`) falls below 0.3.
   */
  function ReplyText(sentiment: ChatSentiment, language: string, coin: real, draw: real): (r: string)
    requires 0.0 <= draw < 1.0
  {
    var base := AdaptiveResponse(SentimentName(sentiment));
    if coin < 0.3 then base + " " + CulturalResponse(language, draw) else base
  }

  /** The reply is the fixed sentence, or that sentence, one space, and a phrase from the pool. */
  lemma ReplyTextShape(sentiment: ChatSentiment, language: string, coin: real, draw: real)
    requires 0.0 <= draw < 1.0
    ensures var base := AdaptiveResponse(SentimentName(sentiment));
      var r := ReplyText(sentiment, language, coin, draw);
      && (coin >= 0.3 ==> r == base)
      && (coin < 0.3 ==> exists c :: c in CulturalPool(language) && r == base + " " + c)
  {
    if coin < 0.3 {
      var c := CulturalResponse(language, draw);
      assert c in CulturalPool(language);
    }
  }

  // ---------------------------------------------------------------------
  // Quick actions on assistant messages

  /** The buttons `getQuickActions` can offer, in the order it pushes them. */
  datatype QuickAction = BreathingAction | MoodTrackerAction | JournalAction | HelplineAction
  {
    /** The button's caption. */
    function Caption(): string {
      match this
      case BreathingAction => "Breathing Exercise"
      case MoodTrackerAction => "Mood Tracker"
      case JournalAction => "Journal"
      case HelplineAction => "Crisis Helpline"
    }

    /** The text of the `alert` the button raises. */
    function Notice(): string {
      match this
      case BreathingAction => "Launching Breathing Exercise..."
      case MoodTrackerAction => OpenCalendarNotice
      case JournalAction => "Opening Journal..."
      case HelplineAction => "Displaying Crisis Helpline numbers..."
    }

    /** The position of the button in the order `getQuickActions` pushes them. */
    function Rank(): nat {
      match this
      case BreathingAction => 0
      case MoodTrackerAction => 1
      case JournalAction => 2
      case HelplineAction => 3
    }
  }

  /** Whether the lower-cased text asks for the button. */
  predicate Offers(lower: string, a: QuickAction) {
    match a
    case BreathingAction => Contains(lower, "breathing exercise")
    case MoodTrackerAction => Contains(lower, "mood tracker") || Contains(lower, "log mood")
    case JournalAction => Contains(lower, "journal") || Contains(lower, "journaling")
    case HelplineAction => Contains(lower, "crisis helpline") || Contains(lower, "urgent help") || Contains(lower, "suicidal")
  }

  function OfferIf(lower: string, a: QuickAction): seq<QuickAction> {
    if Offers(lower, a) then [a] else []
  }

  /**
   * `getQuickActions(text)`: exactly the buttons whose phrases occur in
   * the lower-cased text, each once, in the fixed push order.
   */
  function QuickActions(text: string): (actions: seq<QuickAction>)
    ensures forall a :: a in actions <==> Offers(LowerStr(text), a)
    ensures forall i, j :: 0 <= i < j < |actions| ==> actions[i].Rank() < actions[j].Rank()
  {
    var lower := LowerStr(text);
    OfferIf(lower, BreathingAction) + OfferIf(lower, MoodTrackerAction)
    + OfferIf(lower, JournalAction) + OfferIf(lower, HelplineAction)
  }

  /** "journaling" contains "journal", so the second journal phrase never changes the buttons. */
  lemma JournalPhraseRedundant(text: string)
    ensures Offers(LowerStr(text), JournalAction) <==> Contains(LowerStr(text), "journal")
  {
    if Contains(LowerStr(text), "journaling") {
      assert ContainsAt("journaling", "journal", 0);
      ContainsTransitive(LowerStr(text), "journaling", "journal");
    }
  }

  // ---------------------------------------------------------------------
  // One turn

  /**
   * The branch a submitted input takes, with the trimmed text it works on;
   * the three non-blank ones exclude each other.
   */
  datatype Turn =
    | Blank
    | CrisisTurn(text: string)
    | CopingTurn(text: string, tool: string)
    | NormalTurn(text: string, sentiment: ChatSentiment)

  function TurnOf(input: string): Turn {
    var text := Trim(input);
    if text == [] then Blank
    else if Sentiment.DetectMood(text) == Sentiment.Crisis then CrisisTurn(text)
    else match CopingTool(text)
      case Some(tool) => CopingTurn(text, tool)
      case None => NormalTurn(text, DetectSentiment(text))
  }

  /**
   * The branch taken is decided by crisis language first, then by the
   * coping table, then by sentiment; blank input takes none.
   */
  lemma TurnPolicy(input: string)
    ensures var text := Trim(input); var turn := TurnOf(input);
      && (turn == Blank <==> AllSpace(input))
      && (turn.CrisisTurn? <==> !AllSpace(input) && Sentiment.ContainsAny(LowerStr(text), Sentiment.CrisisPhrases))
      && (turn.CopingTurn? <==>
            !AllSpace(input) && !Sentiment.ContainsAny(LowerStr(text), Sentiment.CrisisPhrases) && CopingTool(text).Some?)
      && (turn.CopingTurn? ==> Some(turn.tool) == CopingTool(text))
      && (turn.NormalTurn? ==> turn.sentiment == DetectSentiment(text))
      && (turn != Blank ==> turn.text == text)
  {
    TrimEmptyIff(input);
    Sentiment.Priority(Trim(input));
  }

  /** A non-crisis input containing "stressed" gets the breathing exercise, never the anxious reply. */
  lemma StressedNeverAnxious(input: string)
    requires !AllSpace(input)
    requires Contains(LowerStr(Trim(input)), "stressed")
    requires Sentiment.DetectMood(Trim(input)) != Sentiment.Crisis
    ensures TurnOf(input) == CopingTurn(Trim(input), "Breathing Exercise")
  {
    TrimEmptyIff(input);
    StressedTriggersBreathing(Trim(input));
  }

  /** The record `saveCrisisMood(date)` posts. */
  datatype CrisisMoodRecord = CrisisMoodRecord(userId: string, date: string, mood: string, note: string)

  function CrisisRecord(date: string): CrisisMoodRecord {
    CrisisMoodRecord("anon", date, "crisis", "Crisis detected in chat")
  }

  /** What a `setTimeout` callback will do when it runs. */
  datatype TimerAction =
    | PromptRecovery
      /** Append the assistant reply built at send time; `captured` is the `exchangeCount` the closure saw then. */
    | DeliverReply(message: Message, captured: nat)

  datatype Timer = Timer(due: int, action: TimerAction)

  /** The messages a turn appends at once, at clock time `now`. */
  function ImmediateAppends(turn: Turn, now: int): seq<Message> {
    match turn
    case Blank => []
    case CrisisTurn(text) => [Message(now, UserText(text)), Message(now + 1, Empathy), Message(now + 2, CrisisCard)]
    case CopingTurn(text, tool) => [Message(now, UserText(text)), Message(now + 1, CopingSuggestion(tool))]
    case NormalTurn(text, _) => [Message(now, UserText(text))]
  }

  /** The timers a turn schedules; `count` is `exchangeCount` at send time. */
  function ScheduledTimers(turn: Turn, now: int, count: nat, language: string, coin: real, draw: real): seq<Timer>
    requires 0.0 <= draw < 1.0
  {
    match turn
    case CrisisTurn(_) => [Timer(now + 2000, PromptRecovery)]
    case NormalTurn(_, s) => [Timer(now + 1000, DeliverReply(Message(now + 2, AiReply(ReplyText(s, language, coin, draw))), count))]
    case _ => []
  }

  /** The messages a timer's callback appends when it runs at clock time `now`. */
  function TimerAppends(action: TimerAction, now: int): seq<Message> {
    match action
    case PromptRecovery => [Message(now + 3, RecoveryPrompt)]
    case DeliverReply(m, captured) => if captured + 1 == 5 then [m, Message(now + 3, CheckInPrompt)] else [m]
  }

  /**
   * A crisis turn appends the user message, the empathetic assistant
   * message and the crisis card, in that order, and schedules only the
   * mood prompt, 2000 ms later: no coping message and no reply.
   */
  lemma CrisisTurnShape(text: string, now: int, count: nat, language: string, coin: real, draw: real)
    requires 0.0 <= draw < 1.0
    ensures var out := ImmediateAppends(CrisisTurn(text), now);
      && |out| == 3
      && out[0].Sender() == User && out[0].Text() == text
      && out[1].Sender() == Ai && out[1].Text() == EmpatheticText
      && out[2].Sender() == System && out[2].Kind() == CrisisType
      && forall m :: m in out ==> m.Kind() != CopingType && !m.body.AiReply?
    ensures ScheduledTimers(CrisisTurn(text), now, count, language, coin, draw) == [Timer(now + 2000, PromptRecovery)]
  {
  }

  /** The follow-up of a crisis turn is the system mood prompt that opens the mood calendar. */
  lemma RecoveryPromptShape(now: int)
    ensures var out := TimerAppends(PromptRecovery, now);
      && |out| == 1 && out[0].Sender() == System && out[0].Kind() == MoodType
      && out[0].Text() == RecoveryPromptText && out[0].OnClick() == Alert(OpenCalendarNotice)
  {
  }

  /**
   * A coping turn appends the user message and exactly one system coping
   * message naming the tool the table chose, and schedules nothing.
   */
  lemma CopingTurnShape(text: string, tool: string, now: int, count: nat, language: string, coin: real, draw: real)
    requires 0.0 <= draw < 1.0
    ensures var out := ImmediateAppends(CopingTurn(text, tool), now);
      && |out| == 2
      && out[0].Sender() == User && out[0].Text() == text
      && out[1].Sender() == System && out[1].Kind() == CopingType && out[1].Text() == CopingText(tool)
      && out[1].OnClick() == Alert("Launching " + tool + " feature...")
    ensures ScheduledTimers(CopingTurn(text, tool), now, count, language, coin, draw) == []
  {
  }

  /**
   * A normal turn appends only the user message at once and schedules one
   * assistant reply 1000 ms later, carrying the count seen at send time;
   * when it runs, the mood prompt follows it exactly when that count plus
   * one is 5.
   */
  lemma NormalTurnShape(text: string, sentiment: ChatSentiment, now: int, count: nat, language: string, coin: real, draw: real, later: int)
    requires 0.0 <= draw < 1.0
    ensures var out := ImmediateAppends(NormalTurn(text, sentiment), now);
      |out| == 1 && out[0].Sender() == User && out[0].Text() == text
    ensures var timers := ScheduledTimers(NormalTurn(text, sentiment), now, count, language, coin, draw);
      && |timers| == 1 && timers[0].due == now + 1000 && timers[0].action.DeliverReply?
      && timers[0].action.captured == count
      && timers[0].action.message.Sender() == Ai
      && timers[0].action.message.Text() == ReplyText(sentiment, language, coin, draw)
      && var fired := TimerAppends(timers[0].action, later);
        && fired[0] == timers[0].action.message
        && (|fired| == 2 <==> count == 4)
        && (|fired| == 2 ==> fired[1].Kind() == MoodType && fired[1].Text() == CheckInPromptText)
  {
  }

  // The three non-blank branches of `sendMessage`, read off the trimmed input.

  lemma CrisisBranch(input: string)
    requires Trim(input) != [] && Sentiment.DetectMood(Trim(input)) == Sentiment.Crisis
    ensures TurnOf(input) == CrisisTurn(Trim(input))
  {
  }

  lemma CopingBranch(input: string, tool: string)
    requires Trim(input) != [] && Sentiment.DetectMood(Trim(input)) != Sentiment.Crisis
    requires CopingTool(Trim(input)) == Some(tool)
    ensures TurnOf(input) == CopingTurn(Trim(input), tool)
  {
  }

  lemma NormalBranch(input: string)
    requires Trim(input) != [] && Sentiment.DetectMood(Trim(input)) != Sentiment.Crisis
    requires CopingTool(Trim(input)).None?
    ensures TurnOf(input) == NormalTurn(Trim(input), DetectSentiment(Trim(input)))
  {
  }

  // ---------------------------------------------------------------------
  // The log invariants

  /** The number of assistant replies of normal turns in a log. */
  function CountReplies(log: seq<Message>): nat
    decreases |log|
  {
    if log == [] then 0 else CountReplies(log[..|log| - 1]) + (if log[|log| - 1].body.AiReply? then 1 else 0)
  }

  /** Appending one message adds one to the count exactly when it is a reply. */
  lemma CountRepliesSnoc(log: seq<Message>, m: Message)
    ensures CountReplies(log + [m]) == CountReplies(log) + if m.body.AiReply? then 1 else 0
  {
    assert (log + [m])[..|log|] == log;
  }

  /**
   * Every crisis card sits right after the empathetic assistant message;
   * stated message by message from the end of the log.
   */
  predicate CardsPreceded(log: seq<Message>)
    decreases |log|
  {
    log == [] ||
    (CardsPreceded(log[..|log| - 1])
     && (log[|log| - 1].body == CrisisCard ==> |log| >= 2 && log[|log| - 2].body == Empathy))
  }

  /** What `CardsPreceded` means for each position of the log. */
  lemma {:induction false} CardsPrecededAt(log: seq<Message>, i: nat)
    requires CardsPreceded(log) && i < |log| && log[i].body == CrisisCard
    ensures 0 < i && log[i - 1].body == Empathy
    ensures log[i - 1].Sender() == Ai && log[i - 1].Text() == EmpatheticText
    decreases |log|
  {
    if i < |log| - 1 {
      var prefix := log[..|log| - 1];
      assert prefix[i] == log[i];
      CardsPrecededAt(prefix, i);
      assert prefix[i - 1] == log[i - 1];
    }
  }

  /** Appending a message that is not a card keeps every card preceded. */
  lemma CardsSnoc(log: seq<Message>, m: Message)
    requires CardsPreceded(log)
    requires m.body == CrisisCard ==> |log| > 0 && log[|log| - 1].body == Empathy
    ensures CardsPreceded(log + [m])
  {
    assert (log + [m])[..|log|] == log;
  }

  /**
   * No reply text, with or without a cultural phrase, is the empathetic
   * sentence: the lengths differ, or a character at the same place does.
   * So the rendered log tells a reply from the crisis turn's message.
   */
  lemma ReplyIsNotEmpathetic(sentiment: ChatSentiment, language: string, coin: real, draw: real)
    requires 0.0 <= draw < 1.0
    ensures ReplyText(sentiment, language, coin, draw) != EmpatheticText
  {
    var base := AdaptiveResponse(SentimentName(sentiment));
    var r := ReplyText(sentiment, language, coin, draw);
    if coin < 0.3 {
      var tail := " " + CulturalResponse(language, draw);
      assert r == base + tail && tail[0] == ' ';
      SentenceNotEmpathetic(base, tail);
    } else {
      assert r == base + "";
      SentenceNotEmpathetic(base, "");
    }
  }

  /** A fixed sentence, alone or followed by a space and more, is not the empathetic sentence. */
  lemma SentenceNotEmpathetic(base: string, tail: string)
    requires base in {SadReply, AnxiousReply, PositiveReply, DefaultReply}
    requires tail == [] || tail[0] == ' '
    ensures base + tail != EmpatheticText
  {
    var r := base + tail;
    assert |EmpatheticText| == 70 && EmpatheticText[68] == 't';
    if base == SadReply {
      assert |base| == 70 && base[68] == 's' && r[68] == base[68];
    } else {
      if base == AnxiousReply {
        assert |base| == 62 && EmpatheticText[62] == 's';
      } else if base == PositiveReply {
        assert |base| == 50 && EmpatheticText[50] == 't';
      } else {
        assert |base| == 33 && EmpatheticText[33] == '\'';
      }
      if tail != [] {
        assert r[|base|] == ' ';
      }
    }
  }

  /** Pending reply timers hold assistant replies. */
  predicate PendingReplies(pending: seq<Timer>) {
    forall k :: 0 <= k < |pending| && pending[k].action.DeliverReply? ==> pending[k].action.message.body.AiReply?
  }

  /** Scheduling a timer whose reply, if any, is an assistant reply keeps `PendingReplies`. */
  lemma PendingSnoc(pending: seq<Timer>, t: Timer)
    requires PendingReplies(pending)
    requires t.action.DeliverReply? ==> t.action.message.body.AiReply?
    ensures PendingReplies(pending + [t])
  {
    var all := pending + [t];
    forall k | 0 <= k < |all| && all[k].action.DeliverReply?
      ensures all[k].action.message.body.AiReply?
    {
      if k < |pending| {
        assert all[k] == pending[k];
      }
    }
  }

  /** Timer `i` is the one the event loop runs next: the earliest due, the first scheduled among equals. */
  predicate IsNext(pending: seq<Timer>, i: nat) {
    i < |pending|
    && (forall j :: 0 <= j < i ==> pending[i].due < pending[j].due)
    && (forall j :: i < j < |pending| ==> pending[i].due <= pending[j].due)
  }

  /** The chat component's state, and what it has handed to timers and to the network. */
  class ChatSession {
    const language: string
    var messages: seq<Message>
    var input: string
    var exchangeCount: nat
    /** The `setTimeout` callbacks that have not run yet, in the order they were scheduled. */
    var pending: seq<Timer>
    /** The crisis mood records `saveCrisisMood` has posted (fire and forget), oldest first. */
    var crisisSaves: seq<CrisisMoodRecord>

    /**
     * The log keeps every crisis card right after its empathetic message,
     * and `exchangeCount` is the number of assistant replies in it.
     */
    ghost predicate Valid()
      reads this
    {
      CardsPreceded(messages) && exchangeCount == CountReplies(messages) && PendingReplies(pending)
    }

    constructor (language: string)
      ensures Valid()
      ensures this.language == language
      ensures messages == [] && input == "" && exchangeCount == 0 && pending == [] && crisisSaves == []
    {
      this.language := language;
      messages := [];
      input := "";
      exchangeCount := 0;
      pending := [];
      crisisSaves := [];
    }

    /** The input box's `onChange`. */
    method SetInput(value: string)
      modifies this`input
      ensures input == value
    {
      input := value;
    }

    /** One `setMessages(prev => [...prev, m])` update. */
    method Append(m: Message)
      requires CardsPreceded(messages)
      requires m.body == CrisisCard ==> |messages| > 0 && messages[|messages| - 1].body == Empathy
      modifies this`messages
      ensures messages == old(messages) + [m]
      ensures CardsPreceded(messages)
      ensures CountReplies(messages) == CountReplies(old(messages)) + if m.body.AiReply? then 1 else 0
    {
      CardsSnoc(messages, m);
      CountRepliesSnoc(messages, m);
      messages := messages + [m];
    }

    /**
     * `sendMessage()`, at clock time `now` (the turn's `Date.now()`) on
     * calendar date `today`, with the two `Math.random()` draws of a
     * normal turn passed in as `coin` and `draw`; `turn` is the branch it
     * took. The log only grows.
     */
    method SendMessage(now: int, today: string, coin: real, draw: real) returns (turn: Turn)
      requires Valid() && 0.0 <= draw < 1.0
      modifies this
      ensures turn == TurnOf(old(input))
      ensures Valid()
      ensures messages == old(messages) + ImmediateAppends(turn, now)
      ensures pending == old(pending) + ScheduledTimers(turn, now, old(exchangeCount), language, coin, draw)
      ensures exchangeCount == old(exchangeCount)
      ensures input == if turn == Blank then old(input) else ""
      ensures crisisSaves == old(crisisSaves) + if turn.CrisisTurn? then [CrisisRecord(today)] else []
    {
      turn := Classify(input);
      Respond(turn, now, today, coin, draw);
    }

    /** What `sendMessage()` does once it knows its branch. */
    method Respond(turn: Turn, now: int, today: string, coin: real, draw: real)
      requires Valid() && 0.0 <= draw < 1.0
      modifies this
      ensures Valid()
      ensures messages == old(messages) + ImmediateAppends(turn, now)
      ensures pending == old(pending) + ScheduledTimers(turn, now, old(exchangeCount), language, coin, draw)
      ensures exchangeCount == old(exchangeCount)
      ensures input == if turn == Blank then old(input) else ""
      ensures crisisSaves == old(crisisSaves) + if turn.CrisisTurn? then [CrisisRecord(today)] else []
    {
      match turn {
        case Blank =>
        case CrisisTurn(text) =>
          PostUserMessage(text, now);
          RespondToCrisis(now, today);
        case CopingTurn(text, tool) =>
          PostUserMessage(text, now);
          SuggestCoping(tool, now);
        case NormalTurn(text, sentiment) =>
          PostUserMessage(text, now);
          ScheduleReply(sentiment, now, coin, draw);
      }
    }

    /**
     * The checks `sendMessage()` makes, in its order: blank input does
     * nothing, crisis language comes first, then the coping table, and
     * otherwise the sentiment of the trimmed text.
     */
    static method Classify(input: string) returns (turn: Turn)
      ensures turn == TurnOf(input)
    {
      var text := Trim(input);
      if text == [] {
        return Blank;
      }
      if Sentiment.DetectMood(text) == Sentiment.Crisis {
        CrisisBranch(input);
        return CrisisTurn(text);
      }
      var copingTool := CheckCopingTrigger(text);
      if copingTool.Some? {
        CopingBranch(input, copingTool.value);
        return CopingTurn(text, copingTool.value);
      }
      NormalBranch(input);
      turn := NormalTurn(text, DetectSentiment(text));
    }

    /** Show the user's message, stamped `now`, and clear the input box. */
    method PostUserMessage(text: string, now: int)
      requires Valid()
      modifies this`messages, this`input
      ensures Valid()
      ensures messages == old(messages) + [Message(now, UserText(text))]
      ensures input == ""
    {
      Append(Message(now, UserText(text)));
      input := "";
    }

    /**
     * The crisis branch of `sendMessage()`: post the crisis mood, show the
     * empathetic message and the crisis card, and schedule the recovery
     * prompt two seconds later.
     */
    method RespondToCrisis(now: int, today: string)
      requires Valid()
      modifies this`messages, this`pending, this`crisisSaves
      ensures Valid()
      ensures messages == old(messages) + [Message(now + 1, Empathy), Message(now + 2, CrisisCard)]
      ensures pending == old(pending) + [Timer(now + 2000, PromptRecovery)]
      ensures crisisSaves == old(crisisSaves) + [CrisisRecord(today)]
    {
      crisisSaves := crisisSaves + [CrisisRecord(today)];
      var empathetic, card := Message(now + 1, Empathy), Message(now + 2, CrisisCard);
      Append(empathetic);
      Append(card);
      PendingSnoc(pending, Timer(now + 2000, PromptRecovery));
      pending := pending + [Timer(now + 2000, PromptRecovery)];
    }

    /** The coping branch of `sendMessage()`: suggest the tool straight away. */
    method SuggestCoping(tool: string, now: int)
      requires Valid()
      modifies this`messages
      ensures Valid()
      ensures messages == old(messages) + [Message(now + 1, CopingSuggestion(tool))]
    {
      Append(Message(now + 1, CopingSuggestion(tool)));
    }

    /**
     * The normal branch of `sendMessage()`: the reply is composed now,
     * from the sentiment of the text and the two draws, and delivered by a
     * timer one second later that has captured the current exchange count.
     */
    method ScheduleReply(sentiment: ChatSentiment, now: int, coin: real, draw: real)
      requires Valid() && 0.0 <= draw < 1.0
      modifies this`pending
      ensures Valid()
      ensures pending == old(pending) + [Timer(now + 1000, DeliverReply(
        Message(now + 2, AiReply(ReplyText(sentiment, language, coin, draw))), exchangeCount))]
    {
      var reply := ReplyText(sentiment, language, coin, draw);
      var timer := Timer(now + 1000, DeliverReply(Message(now + 2, AiReply(reply)), exchangeCount));
      PendingSnoc(pending, timer);
      pending := pending + [timer];
    }

    /**
     * The event loop runs timer `i`, the next one due, at clock time `now`:
     * it appends what the timer's callback appends, and a reply also
     * increments `exchangeCount`.
     */
    method FireTimer(i: nat, now: int)
      requires Valid() && IsNext(pending, i)
      modifies this
      ensures Valid()
      ensures pending == old(pending[..i] + pending[i + 1..])
      ensures messages == old(messages) + TimerAppends(old(pending[i].action), now)
      ensures exchangeCount == old(exchangeCount) + if old(pending[i].action).DeliverReply? then 1 else 0
      ensures input == old(input) && crisisSaves == old(crisisSaves)
    {
      var timer := pending[i];
      assert PendingReplies(pending[..i] + pending[i + 1..]) by {
        var rest := pending[..i] + pending[i + 1..];
        forall k | 0 <= k < |rest| && rest[k].action.DeliverReply?
          ensures rest[k].action.message.body.AiReply?
        {
          if k < i {
            assert rest[k] == pending[k];
          } else {
            assert rest[k] == pending[k + 1];
          }
        }
      }
      pending := pending[..i] + pending[i + 1..];
      match timer.action {
        case PromptRecovery =>
          Append(Message(now + 3, RecoveryPrompt));
        case DeliverReply(m, captured) =>
          Append(m);
          exchangeCount := exchangeCount + 1;
          if captured + 1 == 5 {
            Append(Message(now + 3, CheckInPrompt));
          }
      }
    }
  }
}
