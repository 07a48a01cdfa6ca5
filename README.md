# MannMitra wellness app — a verified model of its decision logic

MannMitra is a mental-wellness web app with a small REST back end. The
front end has several parts:

- a chat companion that triages each message (crisis language, coping
  triggers, sentiment) and answers with canned replies and delayed
  follow-ups;
- a paced breathing exercise and a five-minute mindfulness countdown;
- a VR session player;
- a yearly mood calendar;
- an affirmation page with a streak;
- a group journal, a community board and two recommendation browsers.

The back end keeps journals, affirmations, community posts and mood
entries in SQLite.

This project restates that logic in Dafny and proves what each piece
promises:

- Pure rules (classifiers, lookups with fallbacks, filters, formatters)
  are functions and lemmas.
- Components that update state step by step are classes whose methods
  give their whole new state in their postconditions.
- Timers are explicit steps: `Tick`, or a queue of pending callbacks.
- Randomness, clocks, network outcomes and the firebase flag are
  parameters.

The files:

- `wrappers.dfy`: `Option`.
- `text.dfy`: the JavaScript string operations used. These are
  `toLowerCase`, `includes`, `trim`, integer `toString`,
  `padStart(2, '0')`, and a clock parser that serves as the formatters'
  inverse.
- `js_object.dfy`: property lookup on object literals, including the
  names every object inherits.
- `filters.dfy`: `Array.prototype.filter`.
- One module per component, hook or library file, as listed in the
  table below.

Where the code and the behaviour its comments or labels describe
disagree, the model follows the code:

- **The check-in prompt after five exchanges is not one-time.** The
  reply timer of `sendMessage` captures `exchangeCount` when the message
  is sent (src/components/ChatInterface.tsx:227). The prompt therefore
  follows a reply exactly when the count seen at send time plus one is
  5. Two messages sent before the first reply arrives give two prompts.
  A count that has already passed 4 gives none. `ChatInterface.NormalTurnShape`
  and `ChatInterface.ChatSession.FireTimer` state this.
- **A breathing session is 900 ticks, 15 minutes, not 5.** The comment
  on `totalCycles` (src/components/BreathingExercise.tsx:12) and the
  calendar's modal title (src/components/MoodTracker.tsx:186) say 5
  minutes. 75 cycles of 12 one-second ticks is 900 seconds
  (`BreathingExercise.SessionLength`).
- **The quick buttons all save the selected mood.** The three quick
  buttons of the calendar are labelled Happy, Stressed and Relaxed, but
  each saves `selectedMood` for today (src/components/MoodTracker.tsx:104-106).
- **Some filters offer values no list has.** The journal filter offers
  'challenging'; the board sidebar offers 'relationships'; the
  recommendation browser offers happy and focused for music and art,
  and anything but calm and energetic for videos. These filters show
  nothing.

## Model

| member | source | states |
|---|---|---|
| Sentiment.CrisisPhraseWins | src/lib/sentiment.ts:6-8 | any of the five crisis phrases, in any casing, makes the mood crisis whatever else the text contains |
| Sentiment.Priority | src/lib/sentiment.ts:4-18 | each mood is returned exactly when its group is the first with a hit, in the order crisis, sad, anxious, happy; neutral exactly when no keyword of any group occurs |
| Sentiment.CaseInsensitive | src/lib/sentiment.ts:5 | upper- or lower-casing the text first does not change the mood |
| Sentiment.UnhappyIsSad | src/lib/sentiment.ts:9-15 | matching is by substring: a text with "unhappy" and no crisis phrase is sad, although it also contains "happy" |
| Sentiment.UnhappyAloneIsSad | src/lib/sentiment.ts:9 | the word "unhappy" alone is classified sad |
| Text.TrimEmptyIff | src/components/ChatInterface.tsx:147 | `trim` gives the empty string exactly for input made only of JavaScript white space |
| ChatInterface.SentimentPriority | src/components/ChatInterface.tsx:64-70 | `detectSentiment` is sad, anxious or positive exactly when that keyword list is the first with a substring hit in the lower-cased text, and neutral exactly when no keyword of the three lists occurs |
| ChatInterface.CheckCopingTrigger | src/components/ChatInterface.tsx:72-78 | the key loop with its early return: a tool exactly when some trigger key occurs in the lower-cased text, and then the tool of the first such key in the order stress, sleep, lonely |
| ChatInterface.StressedTriggersBreathing | src/components/ChatInterface.tsx:72-78 | a text containing "stressed" always gets the breathing exercise, since "stressed" contains "stress" |
| ChatInterface.AdaptiveResponse | src/components/ChatInterface.tsx:80-91 | the reply is one of the four fixed sentences, the "I'm here to listen" default for anything but sad, anxious and positive |
| ChatInterface.AdaptiveResponseTable | src/components/ChatInterface.tsx:80-91 | each detected sentiment gets its own sentence and neutral gets the default |
| ChatInterface.CulturalResponse | src/components/ChatInterface.tsx:93-98 | for any draw in [0, 1) the phrase is an element of the Hindi pool when the language lower-cases to "hindi" and of the English pool otherwise |
| ChatInterface.ReplyTextShape | src/components/ChatInterface.tsx:207-213 | the reply is the adaptive sentence alone when the coin is at least 0.3, and otherwise that sentence, one space and a phrase of the language's pool |
| ChatInterface.ReplyIsNotEmpathetic | src/components/ChatInterface.tsx:207-213 | no normal-turn reply, with or without a cultural phrase, equals the crisis turn's empathetic sentence |
| ChatInterface.QuickActions | src/components/ChatInterface.tsx:115-144 | a button is offered exactly when one of its phrases occurs in the lower-cased text, each at most once, in the fixed push order breathing, mood tracker, journal, helpline |
| ChatInterface.JournalPhraseRedundant | src/components/ChatInterface.tsx:131 | the journal button is offered exactly when "journal" occurs; the "journaling" test never adds anything |
| ChatInterface.TurnPolicy | src/components/ChatInterface.tsx:146-207 | blank input takes no branch; crisis exactly when a crisis phrase occurs in the trimmed text; coping exactly when there is no crisis phrase and a trigger key occurs, with the table's tool; otherwise normal, with `detectSentiment` of the trimmed text |
| ChatInterface.StressedNeverAnxious | src/components/ChatInterface.tsx:189-207 | a non-crisis input containing "stressed" takes the coping branch with the breathing exercise and never reaches the anxious reply |
| ChatInterface.CrisisBranch | src/components/ChatInterface.tsx:158-159 | a non-blank input whose trimmed text `detectMood` calls crisis takes the crisis branch |
| ChatInterface.CopingBranch | src/components/ChatInterface.tsx:190-191 | a non-blank, non-crisis input with a coping tool takes the coping branch with that tool |
| ChatInterface.NormalBranch | src/components/ChatInterface.tsx:206-207 | a non-blank, non-crisis input without a coping tool takes the normal branch with its sentiment |
| ChatInterface.CrisisTurnShape | src/components/ChatInterface.tsx:158-187 | a crisis turn appends the user message, the empathetic assistant message and the crisis card, in that order; none is a coping message or a reply; it schedules only the mood prompt, 2000 ms later |
| ChatInterface.RecoveryPromptShape | src/components/ChatInterface.tsx:176-185 | the crisis follow-up is one system mood prompt with the recovery text that opens the mood calendar |
| ChatInterface.CopingTurnShape | src/components/ChatInterface.tsx:190-204 | a coping turn appends the user message and exactly one system coping message naming the tool, whose click launches that tool, and schedules nothing |
| ChatInterface.NormalTurnShape | src/components/ChatInterface.tsx:207-240 | a normal turn appends only the user message and schedules one assistant reply 1000 ms later that carries the count seen at send time; when it runs, the check-in prompt follows exactly when that count is 4 |
| ChatInterface.CountRepliesSnoc | src/components/ChatInterface.tsx:223-224 | appending a message raises the reply count by one exactly when it is an assistant reply |
| ChatInterface.CardsPrecededAt | src/components/ChatInterface.tsx:175 | in a log the session can build, every crisis card sits right after the empathetic assistant message |
| ChatInterface.CardsSnoc | src/components/ChatInterface.tsx:175 | appending a message keeps every card preceded by the empathetic message, when a new card follows it |
| ChatInterface.ChatSession.constructor | src/components/ChatInterface.tsx:41-43 | the session starts with no messages, an empty input, a count of 0, no timers and no crisis records |
| ChatInterface.ChatSession.SetInput | src/components/ChatInterface.tsx:42 | the input box sets the input |
| ChatInterface.ChatSession.Append | src/components/ChatInterface.tsx:154-238 | every update appends after the existing messages, keeps cards after their empathetic message, and raises the reply count only for a reply |
| ChatInterface.ChatSession.SendMessage | src/components/ChatInterface.tsx:146-241 | the branch taken is the one `TurnOf` gives for the input. The log only grows, by that branch's messages. The timers grow by its follow-ups. `exchangeCount` is unchanged. The input is cleared unless blank. Exactly one crisis record is posted on a crisis turn and none otherwise |
| ChatInterface.ChatSession.Classify | src/components/ChatInterface.tsx:147-207 | the checks in the source's order compute `TurnOf` of the input |
| ChatInterface.ChatSession.Respond | src/components/ChatInterface.tsx:148-240 | once the branch is known, the same new state as `SendMessage` |
| ChatInterface.ChatSession.PostUserMessage | src/components/ChatInterface.tsx:148-155 | appends the user message with the trimmed text and clears the input |
| ChatInterface.ChatSession.RespondToCrisis | src/components/ChatInterface.tsx:160-185 | posts the crisis record for today, appends the empathetic message then the card, and schedules the recovery prompt 2000 ms later |
| ChatInterface.ChatSession.SuggestCoping | src/components/ChatInterface.tsx:192-202 | appends exactly the coping message for the tool |
| ChatInterface.ChatSession.ScheduleReply | src/components/ChatInterface.tsx:207-222 | schedules, 1000 ms later, the reply composed now, with the current count captured |
| ChatInterface.ChatSession.FireTimer | src/components/ChatInterface.tsx:222-240 | running the next due timer removes it from the queue and appends what its callback appends; a reply also raises `exchangeCount` by one; the input and crisis records are unchanged |
| BreathingExercise.InvBounds | src/components/BreathingExercise.tsx:8-12 | in every reachable state `0 <= timeLeft <= 4` and `0 <= cycleCount <= 75` |
| BreathingExercise.CountdownTick | src/components/BreathingExercise.tsx:50-72 | a tick above one second only takes one second off |
| BreathingExercise.PhaseChangeTick | src/components/BreathingExercise.tsx:51-58 | at one second or less, inhale turns to hold and hold to exhale, each with 4 fresh seconds, cycles and activity kept |
| BreathingExercise.CycleEndTick | src/components/BreathingExercise.tsx:59-69 | the end of an exhale adds a cycle; the 75th ends the session (complete, inactive, 0 seconds), an earlier one starts a new inhale of 4 seconds |
| BreathingExercise.IdleTick | src/components/BreathingExercise.tsx:48 | with the exercise inactive or complete, ticks change nothing |
| BreathingExercise.StepInv | src/components/BreathingExercise.tsx:48-74 | ticks keep the reachable-state invariant |
| BreathingExercise.Remaining | src/components/BreathingExercise.tsx:48-74 | the ticks left are never negative and are zero exactly on the completion screen |
| BreathingExercise.StepRemaining | src/components/BreathingExercise.tsx:48-74 | each tick of a running session brings the end exactly one tick closer and keeps it running until complete |
| BreathingExercise.RunRemaining | src/components/BreathingExercise.tsx:48-74 | an active session is at `Remaining - n` after n ticks, still running until it completes |
| BreathingExercise.SessionLength | src/components/BreathingExercise.tsx:12-74 | a started session is still running after 899 ticks and is complete, inactive and at 75 cycles after 900 |
| BreathingExercise.Breathing.constructor | src/components/BreathingExercise.tsx:8-11 | mounts on inhale with 4 seconds, 0 cycles, inactive |
| BreathingExercise.Breathing.Tick | src/components/BreathingExercise.tsx:48-74 | one interval callback performs one `Step` and keeps the invariant |
| BreathingExercise.Breathing.StartExercise | src/components/BreathingExercise.tsx:80-85 | sets (active, inhale, 4, 0) |
| BreathingExercise.Breathing.RestartExercise | src/components/BreathingExercise.tsx:87-92 | sets (inactive, inhale, 4, 0) |
| BreathingExercise.Breathing.Pause | src/components/BreathingExercise.tsx:200 | clears only `isActive`; phase, seconds and cycles unchanged |
| MindfulnessSession.StepInv | src/components/MindfulnessSession.tsx:10-19 | a tick takes at most one second off and keeps the clock within [0, 300]; it never goes negative |
| MindfulnessSession.PausedTick | src/components/MindfulnessSession.tsx:11 | while paused a tick changes nothing |
| MindfulnessSession.RunUnpaused | src/components/MindfulnessSession.tsx:11-13 | n unpaused ticks take n seconds off, stopping at 0 |
| MindfulnessSession.SessionEnds | src/components/MindfulnessSession.tsx:6-13 | from mount the clock shows 1 after 299 ticks and 0 after 300 or more |
| MindfulnessSession.Elapsed | src/components/MindfulnessSession.tsx:31 | the elapsed seconds `300 - timeLeft` stay within [0, 300] and are 0 exactly at the start |
| MindfulnessSession.FormatTimeRoundTrip | src/components/MindfulnessSession.tsx:21-25 | the clock parses back to minutes and seconds with `m*60 + s == seconds`, and is exactly `mm:ss` below 100 minutes |
| MindfulnessSession.FormatInitial | src/components/MindfulnessSession.tsx:21-25 | the full session shows "05:00" |
| MindfulnessSession.Session.constructor | src/components/MindfulnessSession.tsx:6-7 | starts at 300 seconds, unpaused |
| MindfulnessSession.Session.Tick | src/components/MindfulnessSession.tsx:10-19 | one second of the interval performs one `Step` and keeps the invariant |
| MindfulnessSession.Session.TogglePause | src/components/MindfulnessSession.tsx:27-29 | flips only the pause flag |
| MindfulnessSession.Session.Display | src/components/MindfulnessSession.tsx:21-25 | the shown clock is five characters with ':' in the middle and parses back to the time left |
| VrMindfulness.DifficultyColorTable | src/components/VRMindfulness.tsx:141-148 | beginner, intermediate and advanced get their own classes; the default gray exactly for every other string |
| VrMindfulness.DifficultyColorsDistinct | src/components/VRMindfulness.tsx:141-148 | the three difficulty colours differ from each other and from gray |
| VrMindfulness.FormatTimeRoundTrip | src/components/VRMindfulness.tsx:135-139 | the clock parses back to `(seconds / 60, seconds % 60)`, with the seconds always two digits after ':' |
| VrMindfulness.VrPlayer.constructor | src/components/VRMindfulness.tsx:20-23 | nothing selected, not playing, clock 0, settings closed |
| VrMindfulness.VrPlayer.SelectSession | src/components/VRMindfulness.tsx:179 | selects exactly the clicked session |
| VrMindfulness.VrPlayer.TogglePlay | src/components/VRMindfulness.tsx:254 | flips `isPlaying` |
| VrMindfulness.VrPlayer.Restart | src/components/VRMindfulness.tsx:261 | sets the clock to 0, the only value it ever has |
| VrMindfulness.VrPlayer.ToggleSettings | src/components/VRMindfulness.tsx:268 | flips `showSettings` |
| VrMindfulness.VrPlayer.Display | src/components/VRMindfulness.tsx:135-139 | as nothing advances the clock, the player always shows "0:00" |
| MoodTracker.ValidYearIsWhole | src/components/MoodTracker.tsx:7-9 | a valid year is a whole number from 2000 to 2099 |
| MoodTracker.ValidYearOfInt | src/components/MoodTracker.tsx:7-9 | a whole number is a valid year exactly when it lies in 2000..2099 |
| MoodTracker.InvalidYears | src/components/MoodTracker.tsx:7-9 | a check on sample values: a fraction, NaN and infinity are rejected |
| MoodTracker.DaysInMonth | src/components/MoodTracker.tsx:12-14 | day 0 of the next month is always 28 to 31 days in |
| MoodTracker.FebruaryLeap | src/components/MoodTracker.tsx:12-14 | February has 29 days exactly in leap years and 28 otherwise |
| MoodTracker.LeapInValidYears | src/components/MoodTracker.tsx:7-14 | within 2000..2099 a year is a leap year exactly when 4 divides it |
| MoodTracker.YearLength | src/components/MoodTracker.tsx:12-14 | the twelve month lengths of a valid year add up to 365, or 366 in a leap year |
| MoodTracker.DateConstructorQuirks | src/components/MoodTracker.tsx:13 | the Date constructor's rules: years 0..99 mean 1900..1999, and month 12 is January of the next year |
| MoodTracker.DateKeyRoundTrip | src/components/MoodTracker.tsx:163 | the key of a day of a four-digit year is ten characters `YYYY-MM-DD` and parses back to year, 1-based month and day |
| MoodTracker.DateKeyInjective | src/components/MoodTracker.tsx:163 | different days have different keys |
| MoodTracker.MoodMapKeys | src/components/MoodTracker.tsx:63 | a date is in the map exactly when some loaded entry has it |
| MoodTracker.MoodMapLastWins | src/components/MoodTracker.tsx:63 | when several entries share a date, the map holds the last one's mood |
| MoodTracker.CountMarkedIsCard | src/components/MoodTracker.tsx:162-165 | the running count over days 1..n is the number of marked days, never more than n |
| MoodTracker.MonthCount | src/components/MoodTracker.tsx:160-165 | the count loop gives the number of days 1..daysInMonth whose key is in the map, so at most the month's length |
| MoodTracker.Tracker.constructor | src/components/MoodTracker.tsx:17-25 | the current year, no month or day selected, Happy selected, empty note, no moods, loading |
| MoodTracker.Tracker.HandleYearChange | src/components/MoodTracker.tsx:71-81 | a value is accepted exactly when it is a valid year; then the year is set and month and day are cleared, otherwise all three are unchanged; the `[year]` effect reloads exactly when the year now differs |
| MoodTracker.Tracker.BeginFetch | src/components/MoodTracker.tsx:27-32 | the start of each load, on mount and after every year change: the overview shows the loading text until the request settles |
| MoodTracker.Tracker.HandleSaveMood | src/components/MoodTracker.tsx:65-69 | posts exactly (date, the selected mood, the note) and clears the note, whichever button called it |
| MoodTracker.Tracker.SelectMood | src/components/MoodTracker.tsx:140-143 | sets the selected mood |
| MoodTracker.Tracker.SetNote | src/components/MoodTracker.tsx:145 | sets the note |
| MoodTracker.Tracker.SelectMonth | src/components/MoodTracker.tsx:173 | opens that month |
| MoodTracker.Tracker.CloseMonth | src/components/MoodTracker.tsx:150 | closes the month |
| MoodTracker.Tracker.SelectDay | src/components/MoodTracker.tsx:119-128 | selects the day's key in the open month |
| MoodTracker.Tracker.MoodsLoaded | src/components/MoodTracker.tsx:31-42 | a settled request sets the moods to the response's entries, or none when absent; a failure keeps them; loading ends either way |
| JsObject.LookupOrElse | src/lib/affirmations.ts:33 | `obj[key] \|\| fallback` gives an own key's value, the fallback for other keys except the inherited names, and an inherited member exactly for those |
| Affirmations.TableShape | src/lib/affirmations.ts:1-30 | each of the four moods has exactly five affirmations, and no mood name is an inherited name |
| Affirmations.PickIndex | src/lib/affirmations.ts:34 | `floor(draw * n)` is an index of the list for every draw in [0, 1) |
| Affirmations.GetRandomAffirmation | src/lib/affirmations.ts:32-36 | a known mood gives one of its own affirmations; any other key gives a happy one, except the inherited names, which give undefined |
| Affirmations.AffirmationAt | src/lib/affirmations.ts:34-35 | the pick is the element at `floor(draw * 5)`, and every affirmation is picked by some draw |
| AffirmationBooster.MoodKey | src/pages/AffirmationBooster.tsx:15-18 | the key is always one of the table's four moods |
| AffirmationBooster.MoodKeyPriority | src/pages/AffirmationBooster.tsx:15-18 | each key is chosen exactly when it is the first of happy, stressed, relaxed, low that the lower-cased mood contains; happy also when none is |
| AffirmationBooster.DemoMoodKeys | src/pages/AffirmationBooster.tsx:14-18 | a check on the three configured demo labels: they get the keys happy, stressed and relaxed |
| AffirmationBooster.KeyOf | src/pages/AffirmationBooster.tsx:14-33 | the key the effect and "next" derive identically is one of the table's |
| AffirmationBooster.NoMoodsIsHappy | src/pages/AffirmationBooster.tsx:14 | a check on the empty list: with no mood loaded the key is happy |
| AffirmationBooster.Shown | src/pages/AffirmationBooster.tsx:19-34 | the shown affirmation is what `getRandomAffirmation` returns for the key, and always one of that key's list |
| AffirmationBooster.Booster.constructor | src/pages/AffirmationBooster.tsx:8-9 | no affirmation and a streak that is the count 0 |
| AffirmationBooster.Booster.ShowAffirmation | src/pages/AffirmationBooster.tsx:19-35 | the effect and "next" show an affirmation from the list of the latest mood's key |
| AffirmationBooster.Incremented | src/pages/AffirmationBooster.tsx:53 | `prev + 1` gives a count exactly when the streak was a count, one higher; `undefined` and NaN give NaN |
| AffirmationBooster.NotANumberSticks | src/pages/AffirmationBooster.tsx:21-53 | once the streak is not a number (after the server's error body), no number of successful saves makes it a count again |
| AffirmationBooster.Booster.StreakFetched | src/pages/AffirmationBooster.tsx:21-25 | a JSON body sets the streak to its `streak` field: the count when present, `undefined` for a body without one such as the server's `{ error }`; a rejected request keeps it |
| AffirmationBooster.Booster.SaveToJournal | src/pages/AffirmationBooster.tsx:42-61 | posts today, the shown affirmation and 'anon'; an ok response applies `prev + 1`, so a count rises by exactly one; any other outcome leaves the streak |
| Db.SaveMood | src/lib/db.ts:26-40 | fails (null) exactly outside demo mode without the SDK; otherwise returns exactly the given date, mood and note, never a user id |
| Db.DemoEntries | src/lib/db.ts:46 | each demo mood becomes an entry with its date and mood and an empty note, in order |
| Db.GetMoods | src/lib/db.ts:43-55 | demo mode gives the demo moods in order, each with an empty note; outside demo mode there is nothing, with or without the SDK |
| Db.UserIgnored | src/lib/db.ts:26-55 | neither operation depends on the user id |
| Db.ConfiguredDemo | src/config.ts:10-14 | with demo mode on, saving echoes the entry and listing gives the three demo moods |
| UseMoods.YearFilter | src/hooks/useMoods.ts:25-30 | keeps exactly the entries with a non-empty date whose year is the requested one |
| UseMoods.YearFilterAppend | src/hooks/useMoods.ts:25-30 | the year filter keeps the loaded order |
| UseMoods.YearFilterAll | src/hooks/useMoods.ts:25-30 | when all entries are of the year, all are kept |
| UseMoods.Moods.constructor | src/hooks/useMoods.ts:8-11 | no moods, loading, no error |
| UseMoods.Moods.BeginLoad | src/hooks/useMoods.ts:17-18 | loading starts and the error is cleared |
| UseMoods.Moods.FinishLoad | src/hooks/useMoods.ts:19-43 | an unmounted hook changes nothing; otherwise loaded entries replace the moods (only the year's when a year is set), a failure sets "Failed to load moods", and loading ends either way |
| UseMoods.Moods.AddMood | src/hooks/useMoods.ts:46-59 | a saved entry is appended after the existing moods and returned; a null result or an error changes nothing and returns null |
| UseMoods.Moods.AddMoodTo | src/hooks/useMoods.ts:46-59 | over `saveMood` itself: null exactly when the store is unavailable; otherwise the exact entry is appended |
| Filters.Filter | src/components/CommunitySupport.tsx:114 | the result is no longer than the input and holds exactly the input's elements that pass |
| Filters.FilterAppend | src/components/GroupJournaling.tsx:182 | filtering keeps order: the filter of a concatenation is the concatenation of the filters |
| Filters.FilterKeepsAll | src/hooks/useMoods.ts:25 | a filter every element passes changes nothing |
| Filters.FilterCount | backend/server.js:163 | the filter keeps each passing element exactly as often as it occurs, and drops every other |
| GroupJournaling.FilteredEntries | src/components/GroupJournaling.tsx:180-182 | 'all' keeps every entry; any other value keeps exactly the entries of that mood |
| GroupJournaling.FilteredEntriesOrder | src/components/GroupJournaling.tsx:180-182 | the filter keeps the entries' order |
| GroupJournaling.FixedEntries | src/components/GroupJournaling.tsx:125-168 | reflective, hopeful and grateful each show one entry; the offered 'challenging' shows none |
| GroupJournaling.TimeAgoBuckets | src/components/GroupJournaling.tsx:184-191 | in English: "Just now" exactly below one hour, future dates included; "1 hour ago" exactly in the second hour; from two hours on, the whole hours then " hours ago" |
| GroupJournaling.TimeAgoHindi | src/components/GroupJournaling.tsx:188-190 | every language but 'en' gets the Hindi wording of the same buckets |
| GroupJournaling.MoodColorTable | src/components/GroupJournaling.tsx:170-178 | the four moods get their own non-gray colours; any other mood gets gray, except the inherited names |
| GroupJournaling.Journaling.constructor | src/components/GroupJournaling.tsx:30-33 | the prompts tab, no prompt, an empty anonymous entry, filter 'all' |
| GroupJournaling.Journaling.SetTab | src/components/GroupJournaling.tsx:209-229 | a tab button sets the tab |
| GroupJournaling.Journaling.JoinPrompt | src/components/GroupJournaling.tsx:262-265 | selects that prompt and opens the writing tab |
| GroupJournaling.Journaling.SetTitle | src/components/GroupJournaling.tsx:383 | changes only the title |
| GroupJournaling.Journaling.SetContent | src/components/GroupJournaling.tsx:392 | changes only the content |
| GroupJournaling.Journaling.SetAnonymous | src/components/GroupJournaling.tsx:404 | changes only the anonymity flag |
| GroupJournaling.Journaling.SetFilterMood | src/components/GroupJournaling.tsx:287 | sets the mood filter |
| GroupJournaling.Journaling.Visible | src/components/GroupJournaling.tsx:180-182 | every listed entry is a community entry matching the filter |
| MoodBasedRecommendations.GetRecommendations | src/components/MoodBasedRecommendations.tsx:169-180 | exactly the items of the tab's list with the selected mood; an unknown tab gives nothing |
| MoodBasedRecommendations.MusicCounts | src/components/MoodBasedRecommendations.tsx:70-111 | music has exactly one item for each of calm, energetic, sad and anxious |
| MoodBasedRecommendations.ArtCounts | src/components/MoodBasedRecommendations.tsx:113-146 | art has exactly one item for each of calm, energetic, sad and anxious |
| MoodBasedRecommendations.UncoveredMoods | src/components/MoodBasedRecommendations.tsx:70-146 | music and art have nothing for happy or focused |
| MoodBasedRecommendations.VideoCounts | src/components/MoodBasedRecommendations.tsx:148-167 | videos have one calm and one energetic item and nothing for sad or anxious |
| MoodBasedRecommendations.TabKinds | src/components/MoodBasedRecommendations.tsx:169-178 | every item a tab shows is of that tab's kind |
| MoodBasedRecommendations.MoodColorFallback | src/components/MoodBasedRecommendations.tsx:182-192 | a listed mood gets its own gradient, distinct from calm's; any other mood gets calm's, except the inherited names |
| MoodBasedRecommendations.Browser.constructor | src/components/MoodBasedRecommendations.tsx:20-21 | calm and music |
| MoodBasedRecommendations.Browser.SelectMood | src/components/MoodBasedRecommendations.tsx:210 | sets the mood |
| MoodBasedRecommendations.Browser.SelectTab | src/components/MoodBasedRecommendations.tsx:234-256 | sets the tab |
| MoodBasedRecommendations.Browser.Shown | src/components/MoodBasedRecommendations.tsx:169-178 | every shown item has the selected mood |
| CommunitySupport.FilteredDiscussions | src/components/CommunitySupport.tsx:112-114 | 'all' shows every discussion; any other category exactly the discussions of that category |
| CommunitySupport.FilteredOrder | src/components/CommunitySupport.tsx:112-114 | the filter keeps the discussions' order |
| CommunitySupport.FixedDiscussions | src/components/CommunitySupport.tsx:69-114 | students, anxiety, depression and stress show one discussion each; the offered 'relationships' shows none |
| CommunitySupport.Board.constructor | src/components/CommunitySupport.tsx:20 | starts on 'all' |
| CommunitySupport.Board.SelectCategory | src/components/CommunitySupport.tsx:138 | a sidebar button selects its key |
| CommunitySupport.Board.Shown | src/components/CommunitySupport.tsx:112-114 | every shown discussion is one of the four and in the chosen category unless 'all' |
| RecommendationSection.TableWellFormed | src/components/RecommendationSection.tsx:19-209 | every mood of the table has exactly one music and one video item, each of its list's type and tagged with that mood |
| RecommendationSection.MoodContentFor | src/components/RecommendationSection.tsx:219 | a mood of the table gets its own entry; any other mood gets calm's, except the inherited names, which find a built-in |
| RecommendationSection.ShownWellFormed | src/components/RecommendationSection.tsx:19-219 | whatever entry is found is well formed for its own mood or for calm |
| RecommendationSection.Panel.constructor | src/components/RecommendationSection.tsx:212-213 | the music tab and the prop's mood |
| RecommendationSection.Panel.MoodPropChanged | src/components/RecommendationSection.tsx:215-217 | a new prop resets the current mood to it |
| RecommendationSection.Panel.SelectTab | src/components/RecommendationSection.tsx:227-235 | sets the tab |
| Server.FindJournal | backend/server.js:132-140 | finds the first row with the date, and none exactly when no row has it |
| Server.UpsertThenGet | backend/server.js:114-140 | after posting content for a date, getting that date returns that content |
| Server.UpsertOther | backend/server.js:114-140 | posting a date leaves every other date's answer unchanged |
| Server.UpsertUnique | backend/server.js:114-125 | the upsert keeps journal dates unique and adds a row only for a new date |
| Server.NeverWritten | backend/server.js:138-140 | a date never written reads as '' |
| Server.StreakInsert | backend/server.js:170-179 | a new affirmation raises its user's streak by one when its date is new for that user and changes no streak otherwise |
| Server.DistinctDatesBound | backend/server.js:173-174 | the streak is never more than the number of affirmations |
| Server.LikePosts | backend/server.js:227 | a like keeps the number of posts |
| Server.LikeAt | backend/server.js:227 | a like adds one to the posts with that id and leaves every other post as it was |
| Server.LikeKeepsIds | backend/server.js:224-232 | a like keeps every post id, so ids stay unique |
| Server.LikeUnknown | backend/server.js:227 | liking an id no post has changes nothing |
| Server.LexTotal | backend/server.js:248 | SQLite's text order relates any two dates |
| Server.BeforeTotal | backend/server.js:248 | `date DESC` with NULLs last relates any two entries |
| Server.Insert | backend/server.js:248 | inserting into a listing adds exactly that entry |
| Server.InsertSorted | backend/server.js:248 | inserting keeps a listing in date-descending order |
| Server.SortDesc | backend/server.js:248 | the sort is a permutation and is in date-descending order |
| Server.ListMoods | backend/server.js:245-253 | the listing holds exactly the user's entries, each as often as stored, newest date first |
| Server.Api.constructor | backend/server.js:19-61 | empty tables whose ids start at 1 |
| Server.Api.PostJournal | backend/server.js:114-130 | rejected exactly for a falsy date or an absent content, leaving the table unchanged; otherwise the date's row is upserted with the content, and an id is used only for a new date |
| Server.Api.GetJournal | backend/server.js:132-144 | the content of the date's row, or '' when no row has the date |
| Server.Api.PostAffirmation | backend/server.js:146-157 | rejected exactly for a falsy date or affirmation, changing nothing; otherwise appends the row with the user defaulting to 'anon' when absent |
| Server.Api.AffirmationsOn | backend/server.js:159-168 | exactly the affirmations of that date and user, the user defaulting to 'anon', each row as often as it is stored |
| Server.Api.GetStreak | backend/server.js:170-179 | the number of distinct dates of the user's affirmations, at most the number of rows |
| Server.Api.CreatePost | backend/server.js:204-213 | appends the post with no likes, the user defaulting to 'anon' |
| Server.Api.LikePost | backend/server.js:224-232 | applies the like to the table and succeeds whether or not the id exists; ids stay unique |
| Server.Api.PostMood | backend/server.js:235-243 | appends the entry unvalidated, the user defaulting to 'anon' |
| Server.Api.GetMoods | backend/server.js:245-253 | exactly the user's entries, newest date first |

## Left out

- Rendering: JSX, styling, icons, layout and the translated display
  strings of every component are not modelled. The presentational
  components and pages are not part of this model. These are
  Dashboard, Header, App, CrisisSupport, CrisisCard, WellnessJourney and
  Journal.
- Network I/O is replaced by the outcome it delivers, passed in as a
  parameter. The chat's crisis mood write becomes a recorded
  `CrisisMoodRecord`. The calendar's load and save, the affirmation
  page's streak fetch and journal save, and the `useMoods` loads and
  saves are result parameters. The calendar's refresh after a save is
  not modelled.
- Timers: `setInterval` becomes a `Tick` method, one call per second.
  The chat's `setTimeout` callbacks become a queue of timers, run by
  `FireTimer` in due order. The model assumes the event loop runs the
  earliest-due timer first, and the first scheduled among equal times.
- `Math.random` is a parameter. For the cultural phrase, the
  affirmation and the 30 % coin it is a real `draw` or `coin` in
  [0, 1). The 30 % rate is a distribution and is not stated.
- Clocks:
  - `Date.now()` is one clock reading per turn or callback. The source reads the clock
    separately for each message, so its ids can differ slightly.
  - `new Date().toISOString()` dates and timestamps are parameters.
  - Time zones are not modelled.
  - `useMoods` takes the year of a date as a parameter function; it
    depends on the time zone.
  - The current year of the calendar is a constructor parameter.
- Floating point: progress percentages are given as integer numerators
  (`MindfulnessSession.Elapsed`). The breathing and VR progress bars are
  not modelled.
- `Number(val)` in the year field is not modelled. Its result is passed
  in as a `JsNumber` (NaN, an infinity or a finite real).
- Browser APIs are not modelled: `alert` (only its text is kept),
  `window.open`, speech synthesis, navigation and scrolling. The
  breathing modal of the calendar and the chat is also left out.
- `db.ts` loads firebase with an asynchronous `import`. Demo mode and
  firebase availability are flags passed in. `DemoMode` records the
  configured value.
- Server:
  - Not modelled: the chat history, wellness and list-all community
    endpoints; the seeded recommendations; the tables no modelled
    endpoint uses; HTTP plumbing; the 500 answers on database errors.
  - Request fields are strings, null or absent. Numbers, booleans and
    objects in a JSON body are not modelled.
  - The like id is the integer the path segment denotes, or none.
  - The order `AffirmationsOn` returns is not stated; SQL gives none
    without `ORDER BY`. The order among moods of one date is not stated.
- Server.Api.AffirmationsOn: does not state the order of the rows it
  returns, because the query has no `ORDER BY`.
- Server.ListMoods: states only the date order and the exact multiset of
  rows, because `ORDER BY date` leaves ties in no particular order.
- GroupJournaling, CommunitySupport, MoodBasedRecommendations: only the
  languages 'en' and 'hi' have display strings. Any other language makes
  the source fail while rendering. This is left out with the rest of
  rendering.
- RecommendationSection.MoodContentFor: an inherited name
  ('constructor', 'toString', ...) finds a built-in with no lists. The
  component then fails while rendering. The model returns `Inherited`
  and does not model the failure.
- Affirmations.GetRandomAffirmation: for an inherited name the source
  indexes a built-in function. The result is `undefined` (None in the
  model), not an affirmation.
- Case mapping is modelled for the ASCII letters and the Kelvin sign
  only. Every keyword searched for is ASCII, so other characters cannot
  change a match.
