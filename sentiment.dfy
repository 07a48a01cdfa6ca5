/**
 * The keyword mood classifier of src/lib/sentiment.ts. The chat uses it
 * only to recognise crisis language; it lower-cases the text and tests
 * substring containment group by group, the first group with a hit
 * deciding the mood.
 */
module Sentiment {
  import opened Text

  datatype Mood = Crisis | Sad | Anxious | Happy | Neutral

  const CrisisPhrases: seq<string> := ["suicide", "kill myself", "end my life", "i can't go on", "want to die"]
  const SadWords: seq<string> := ["sad", "unhappy", "depressed"]
  const AnxiousWords: seq<string> := ["anxious", "worried", "nervous"]
  const HappyWords: seq<string> := ["happy", "good", "great"]

  /** Some word of `words` occurs in `s`. */
  predicate ContainsAny(s: string, words: seq<string>) {
    exists w | w in words :: Contains(s, w)
  }

  /** `detectMood(text)`. */
  function DetectMood(text: string): Mood {
    var lower := LowerStr(text);
    if ContainsAny(lower, CrisisPhrases) then Crisis
    else if ContainsAny(lower, SadWords) then Sad
    else if ContainsAny(lower, AnxiousWords) then Anxious
    else if ContainsAny(lower, HappyWords) then Happy
    else Neutral
  }

  /** Any crisis phrase, in any casing, makes the mood `Crisis`, whatever else the text contains. */
  lemma CrisisPhraseWins(text: string, phrase: string)
    requires phrase in CrisisPhrases && Contains(LowerStr(text), phrase)
    ensures DetectMood(text) == Crisis
  {
  }

  /**
   * The first matching group wins, in the order crisis, sad, anxious,
   * happy; no keyword at all gives `Neutral`.
   */
  lemma Priority(text: string)
    ensures var lower := LowerStr(text);
      && (DetectMood(text) == Crisis <==> ContainsAny(lower, CrisisPhrases))
      && (DetectMood(text) == Sad <==> !ContainsAny(lower, CrisisPhrases) && ContainsAny(lower, SadWords))
      && (DetectMood(text) == Anxious <==>
            !ContainsAny(lower, CrisisPhrases) && !ContainsAny(lower, SadWords) && ContainsAny(lower, AnxiousWords))
      && (DetectMood(text) == Happy <==>
            !ContainsAny(lower, CrisisPhrases) && !ContainsAny(lower, SadWords) && !ContainsAny(lower, AnxiousWords)
            && ContainsAny(lower, HappyWords))
      && (DetectMood(text) == Neutral <==>
            !ContainsAny(lower, CrisisPhrases + SadWords + AnxiousWords + HappyWords))
  {
    var lower := LowerStr(text);
    var all := CrisisPhrases + SadWords + AnxiousWords + HappyWords;
    if ContainsAny(lower, all) {
      var w :| w in all && Contains(lower, w);
      assert w in CrisisPhrases || w in SadWords || w in AnxiousWords || w in HappyWords;
    }
  }

  /** Matching ignores case: upper-casing or lower-casing the text first changes nothing. */
  lemma CaseInsensitive(text: string)
    ensures DetectMood(UpperStr(text)) == DetectMood(text)
    ensures DetectMood(LowerStr(text)) == DetectMood(text)
  {
    LowerOfUpper(text);
    LowerIdempotent(text);
  }

  /**
   * Matching is by substring, not whole word: a text containing "unhappy"
   * and no crisis phrase is `Sad`, though "unhappy" also contains "happy".
   */
  lemma UnhappyIsSad(text: string)
    requires Contains(LowerStr(text), "unhappy") && !ContainsAny(LowerStr(text), CrisisPhrases)
    ensures DetectMood(text) == Sad
  {
    assert "unhappy" in SadWords;
  }

  /** The word "unhappy" on its own is classified `Sad`. */
  lemma UnhappyAloneIsSad()
    ensures DetectMood("unhappy") == Sad
  {
    var lower := LowerStr("unhappy");
    assert lower == "unhappy";
    NotContainsByChar(lower, "suicide", 4);
    NotContainsByChar(lower, "kill myself", 0);
    NotContainsByChar(lower, "end my life", 0);
    NotContainsByChar(lower, "i can't go on", 0);
    NotContainsByChar(lower, "want to die", 0);
    assert ContainsAt(lower, "unhappy", 0);
    UnhappyIsSad("unhappy");
  }
}
