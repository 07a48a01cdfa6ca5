/**
 * `getRandomAffirmation` of src/lib/affirmations.ts: a table of five
 * affirmations for each of four moods, a lookup that falls back to the
 * happy list, and a pick at `Math.floor(Math.random() * length)`. The
 * random number is the parameter `draw`, in [0, 1).
 */
module Affirmations {
  import opened Wrappers
  import opened JsObject

  const Happy: seq<string> := [
    "I am grateful for the joy in my life.",
    "I radiate positivity and attract good things.",
    "My happiness is a choice, and I choose it now.",
    "I am surrounded by love and positivity.",
    "Every day brings new opportunities for joy."
  ]

  const Stressed: seq<string> := [
    "I am calm and in control of my thoughts.",
    "I release tension and embrace peace.",
    "I breathe in calm and breathe out stress.",
    "I am capable of handling any challenge.",
    "Peace begins with me."
  ]

  const Relaxed: seq<string> := [
    "I am at peace with myself and my surroundings.",
    "I flow with life effortlessly.",
    "I trust the process of life.",
    "I am grounded and centered.",
    "I allow myself to relax and recharge."
  ]

  const Low: seq<string> := [
    "I am worthy of love and happiness.",
    "I choose to see the good in every situation.",
    "I am strong and resilient.",
    "I forgive myself and move forward.",
    "I am enough just as I am."
  ]

  /** The `affirmations` object. */
  const Table: map<string, seq<string>> := map["happy" := Happy, "stressed" := Stressed, "relaxed" := Relaxed, "low" := Low]

  /** Every mood has exactly five affirmations and no mood name is an inherited member. */
  lemma TableShape(mood: string)
    requires mood in Table
    ensures |Table[mood]| == 5 && mood !in PrototypeMembers
  {
  }

  /** `Math.floor(draw * n)`: always an index of a list of length `n`. */
  function PickIndex(draw: real, n: nat): (i: nat)
    requires 0.0 <= draw < 1.0 && n > 0
    ensures i < n
  {
    var k := (draw * n as real).Floor;
    assert draw * n as real < n as real;
    k
  }

  /**
   * `getRandomAffirmation(mood)`. A key the table has yields one of its
   * own affirmations; any other key yields a happy one, except the names
   * inherited from `Object.prototype`, which find a built-in instead of a
   * list and yield `undefined` (None).
   */
  function GetRandomAffirmation(mood: string, draw: real): (r: Option<string>)
    requires 0.0 <= draw < 1.0
    ensures mood in Table ==> r.Some? && r.value in Table[mood]
    ensures mood !in Table && mood !in PrototypeMembers ==> r.Some? && r.value in Happy
    ensures mood in PrototypeMembers ==> r == None
  {
    match OrElse(Get(Table, mood), Happy)
    case Own(list) =>
      assert |list| == 5;
      Some(list[PickIndex(draw, |list|)])
    case _ => None
  }

  /**
   * The pick is the affirmation at `floor(draw * 5)`, and every
   * affirmation of a list is picked by some draw: `i / 5` picks the i-th.
   */
  lemma AffirmationAt(mood: string, draw: real, i: nat)
    requires mood in Table && 0.0 <= draw < 1.0 && i < 5
    ensures GetRandomAffirmation(mood, draw) == Some(Table[mood][PickIndex(draw, 5)])
    ensures PickIndex(i as real / 5.0, 5) == i
    ensures GetRandomAffirmation(mood, i as real / 5.0) == Some(Table[mood][i])
  {
    assert (i as real / 5.0) * 5.0 == i as real;
  }
}
