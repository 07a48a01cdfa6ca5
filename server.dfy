/**
 * The REST service of backend/server.js, with its SQLite tables held as
 * in-memory rows: journals (one per date, upserted), affirmations (with a
 * streak of distinct dates), community posts (with likes) and mood entries
 * (listed newest date first). A request body field is a JSON string, null,
 * or absent; a column value is a string or NULL.
 */
module Server {
  import opened Wrappers
  import opened Filters

  /** A field of a JSON request body. */
  datatype Field = Missing | Null | Text(s: string)

  /** JavaScript truthiness of a field: a non-empty string. */
  predicate Truthy(f: Field) {
    f.Text? && f.s != ""
  }

  /** The column value a field binds to: its string, or NULL. */
  function Stored(f: Field): Option<string> {
    if f.Text? then Some(f.s) else None
  }

  /** A destructuring default `{ x = d } = body`: it applies to an absent field only, not to null. */
  function WithDefault(f: Field, default: string): Option<string> {
    if f.Missing? then Some(default) else Stored(f)
  }

  /** The answer to a request (database failures, the 500 answers, are not modelled). */
  datatype Response = Success | BadRequest(error: string)

  // ---------------------------------------------------------------------
  // Journals

  datatype JournalRow = JournalRow(id: int, date: string, content: Option<string>)

  /** `SELECT * FROM journals WHERE date = ?`: the first row with the date. */
  function FindJournal(rows: seq<JournalRow>, date: string): (r: Option<nat>)
    ensures r.Some? ==> r.value < |rows| && rows[r.value].date == date
    ensures r.Some? ==> forall k :: 0 <= k < r.value ==> rows[k].date != date
    ensures r.None? <==> forall k :: 0 <= k < |rows| ==> rows[k].date != date
    decreases |rows|
  {
    if rows == [] then None
    else if rows[0].date == date then Some(0)
    else match FindJournal(rows[1..], date)
      case None => None
      case Some(i) => Some(i + 1)
  }

  /** The `date TEXT UNIQUE` constraint. */
  predicate UniqueDates(rows: seq<JournalRow>) {
    forall i, j :: 0 <= i < j < |rows| ==> rows[i].date != rows[j].date
  }

  /** The journal post's upsert: update the date's row, or insert one with the next id. */
  function Upsert(rows: seq<JournalRow>, id: int, date: string, content: Option<string>): seq<JournalRow> {
    match FindJournal(rows, date)
    case Some(i) => rows[i := rows[i].(content := content)]
    case None => rows + [JournalRow(id, date, content)]
  }

  /**
   * The `content` of `GET /api/journals/:date`: the row's content (None
   * for a NULL), or the empty string for a date never written.
   */
  function JournalResponse(rows: seq<JournalRow>, date: string): Option<string> {
    match FindJournal(rows, date)
    case Some(i) => rows[i].content
    case None => Some("")
  }

  /** After an upsert of `date`, reading `date` gives the new content. */
  lemma UpsertThenGet(rows: seq<JournalRow>, id: int, date: string, content: Option<string>)
    ensures JournalResponse(Upsert(rows, id, date, content), date) == content
  {
    var rows' := Upsert(rows, id, date, content);
    match FindJournal(rows, date)
    case Some(i) =>
      assert forall k :: 0 <= k < |rows| ==> rows'[k].date == rows[k].date;
      assert FindJournal(rows', date) == Some(i);
    case None =>
      assert rows'[|rows|].date == date;
      assert FindJournal(rows', date) == Some(|rows|);
  }

  /** An upsert of `date` leaves every other date's journal as it was. */
  lemma UpsertOther(rows: seq<JournalRow>, id: int, date: string, content: Option<string>, other: string)
    requires other != date
    ensures JournalResponse(Upsert(rows, id, date, content), other) == JournalResponse(rows, other)
  {
    var rows' := Upsert(rows, id, date, content);
    match FindJournal(rows, other)
    case Some(j) =>
      assert rows'[j] == rows[j];
      assert forall k :: 0 <= k < j ==> rows'[k].date == rows[k].date;
      assert FindJournal(rows', other) == Some(j);
    case None =>
      assert forall k :: 0 <= k < |rows'| ==> rows'[k].date != other;
  }

  /** The upsert keeps dates unique and adds a row only for a new date. */
  lemma UpsertUnique(rows: seq<JournalRow>, id: int, date: string, content: Option<string>)
    requires UniqueDates(rows)
    ensures UniqueDates(Upsert(rows, id, date, content))
    ensures |Upsert(rows, id, date, content)| == |rows| + if FindJournal(rows, date).None? then 1 else 0
  {
  }

  /** A date no row has reads as the empty string, not an error. */
  lemma NeverWritten(rows: seq<JournalRow>, date: string)
    requires forall k :: 0 <= k < |rows| ==> rows[k].date != date
    ensures JournalResponse(rows, date) == Some("")
  {
  }

  // ---------------------------------------------------------------------
  // Affirmations

  /** An affirmation row; validation makes its date and text non-empty strings. */
  datatype AffirmationRow = AffirmationRow(id: int, date: string, affirmation: string, userId: Option<string>)

  /** The distinct dates of a user's affirmations. */
  function UserDates(rows: seq<AffirmationRow>, userId: string): set<string> {
    set i | 0 <= i < |rows| && rows[i].userId == Some(userId) :: rows[i].date
  }

  /** `GET /api/affirmations/streak/:userId`: the count of `SELECT DISTINCT date`. */
  function Streak(rows: seq<AffirmationRow>, userId: string): nat {
    |UserDates(rows, userId)|
  }

  /**
   * A new affirmation raises its user's streak by one when its date is
   * new for that user, and otherwise changes no streak.
   */
  lemma StreakInsert(rows: seq<AffirmationRow>, row: AffirmationRow, userId: string)
    ensures row.userId == Some(userId) && row.date !in UserDates(rows, userId) ==>
      Streak(rows + [row], userId) == Streak(rows, userId) + 1
    ensures !(row.userId == Some(userId) && row.date !in UserDates(rows, userId)) ==>
      Streak(rows + [row], userId) == Streak(rows, userId)
  {
    var rows' := rows + [row];
    var added := if row.userId == Some(userId) then {row.date} else {};
    assert UserDates(rows', userId) == UserDates(rows, userId) + added by {
      forall d | d in UserDates(rows', userId)
        ensures d in UserDates(rows, userId) + added
      {
        var i :| 0 <= i < |rows'| && rows'[i].userId == Some(userId) && rows'[i].date == d;
        if i < |rows| {
          assert rows[i] == rows'[i];
        }
      }
      forall d | d in UserDates(rows, userId)
        ensures d in UserDates(rows', userId)
      {
        var i :| 0 <= i < |rows| && rows[i].userId == Some(userId) && rows[i].date == d;
        assert rows'[i] == rows[i];
      }
      if row.userId == Some(userId) {
        assert rows'[|rows|] == row;
      }
    }
  }

  // ---------------------------------------------------------------------
  // Community posts

  datatype PostRow = PostRow(id: int, userId: Option<string>, title: Option<string>, content: Option<string>, timestamp: string, likes: int)

  /**
   * `UPDATE communityPosts SET likes = likes + 1 WHERE id = ?`. The id is
   * the number the request's path segment denotes, None when it is not
   * numeric (then no row matches).
   */
  function LikePosts(rows: seq<PostRow>, id: Option<int>): (r: seq<PostRow>)
    ensures |r| == |rows|
    decreases |rows|
  {
    if rows == [] then []
    else [if Some(rows[0].id) == id then rows[0].(likes := rows[0].likes + 1) else rows[0]] + LikePosts(rows[1..], id)
  }

  /** A like adds one to the likes of the rows with that id and leaves every other row as it was. */
  lemma {:induction false} LikeAt(rows: seq<PostRow>, id: Option<int>, i: nat)
    requires i < |rows|
    ensures LikePosts(rows, id)[i] ==
      if Some(rows[i].id) == id then rows[i].(likes := rows[i].likes + 1) else rows[i]
    decreases |rows|
  {
    if i > 0 {
      LikeAt(rows[1..], id, i - 1);
    }
  }

  /** Post ids are unique and below the next id to be given out. */
  predicate PostIds(rows: seq<PostRow>, nextId: int) {
    (forall i :: 0 <= i < |rows| ==> rows[i].id < nextId)
    && (forall i, j :: 0 <= i < j < |rows| ==> rows[i].id != rows[j].id)
  }

  /** A like keeps every id, so ids stay unique. */
  lemma LikeKeepsIds(rows: seq<PostRow>, id: Option<int>, nextId: int)
    requires PostIds(rows, nextId)
    ensures PostIds(LikePosts(rows, id), nextId)
    ensures forall i :: 0 <= i < |rows| ==> LikePosts(rows, id)[i].id == rows[i].id
  {
    forall i | 0 <= i < |rows|
      ensures LikePosts(rows, id)[i].id == rows[i].id
    {
      LikeAt(rows, id, i);
    }
  }

  /** An id no post has changes nothing. */
  lemma LikeUnknown(rows: seq<PostRow>, id: Option<int>)
    requires forall i :: 0 <= i < |rows| ==> Some(rows[i].id) != id
    ensures LikePosts(rows, id) == rows
  {
    forall i | 0 <= i < |rows|
      ensures LikePosts(rows, id)[i] == rows[i]
    {
      LikeAt(rows, id, i);
    }
  }

  // ---------------------------------------------------------------------
  // Mood entries

  datatype MoodRow = MoodRow(id: int, userId: Option<string>, date: Option<string>, mood: Option<string>, note: Option<string>)

  /** SQLite's BINARY order on text, which for UTF-8 is code point order. */
  predicate LexLe(a: string, b: string)
    decreases |a|
  {
    a == [] || (b != [] && (a[0] < b[0] || (a[0] == b[0] && LexLe(a[1..], b[1..]))))
  }

  /** Any two strings are ordered one way or the other. */
  lemma {:induction false} LexTotal(a: string, b: string)
    ensures LexLe(a, b) || LexLe(b, a)
    decreases |a|
  {
    if a != [] && b != [] && a[0] == b[0] {
      LexTotal(a[1..], b[1..]);
    }
  }

  /**
   * `ORDER BY date DESC`: a later date comes first, and NULL dates, which
   * SQLite orders lowest, come last.
   */
  predicate Before(x: MoodRow, y: MoodRow) {
    match x.date
    case None => y.date.None?
    case Some(a) => y.date.None? || LexLe(y.date.value, a)
  }

  lemma BeforeTotal(x: MoodRow, y: MoodRow)
    ensures Before(x, y) || Before(y, x)
  {
    if x.date.Some? && y.date.Some? {
      LexTotal(x.date.value, y.date.value);
    }
  }

  /** Each entry comes no later than the next one in date-descending order. */
  predicate SortedDesc(s: seq<MoodRow>) {
    forall i :: 0 < i < |s| ==> Before(s[i - 1], s[i])
  }

  /** Inserting an entry into a date-descending list. */
  function Insert(x: MoodRow, s: seq<MoodRow>): (r: seq<MoodRow>)
    ensures multiset(r) == multiset(s) + multiset{x}
    ensures |r| == |s| + 1
    ensures r[0] == x || (s != [] && r[0] == s[0])
    decreases |s|
  {
    if s == [] then [x]
    else if Before(x, s[0]) then [x] + s
    else
      assert s == [s[0]] + s[1..];
      [s[0]] + Insert(x, s[1..])
  }

  lemma {:induction false} InsertSorted(x: MoodRow, s: seq<MoodRow>)
    requires SortedDesc(s)
    ensures SortedDesc(Insert(x, s))
    decreases |s|
  {
    if s != [] && !Before(x, s[0]) {
      BeforeTotal(x, s[0]);
      InsertSorted(x, s[1..]);
      var t := Insert(x, s[1..]);
      assert Insert(x, s) == [s[0]] + t;
      assert Before(s[0], t[0]) by {
        if t[0] != x {
          assert t[0] == s[1];
        }
      }
    }
  }

  /** The result order of `ORDER BY date DESC`. */
  function SortDesc(s: seq<MoodRow>): (r: seq<MoodRow>)
    ensures multiset(r) == multiset(s)
    ensures SortedDesc(r)
    decreases |s|
  {
    if s == [] then []
    else
      assert s == [s[0]] + s[1..];
      InsertSorted(s[0], SortDesc(s[1..]));
      Insert(s[0], SortDesc(s[1..]))
  }

  /**
   * `GET /api/mood/:userId`: exactly that user's entries, each once,
   * newest date first.
   */
  function ListMoods(rows: seq<MoodRow>, userId: string): (r: seq<MoodRow>)
    ensures multiset(r) == multiset(Filter(rows, (m: MoodRow) => m.userId == Some(userId)))
    ensures forall m :: m in r <==> m in rows && m.userId == Some(userId)
    ensures SortedDesc(r)
  {
    var mine := Filter(rows, (m: MoodRow) => m.userId == Some(userId));
    var r := SortDesc(mine);
    assert forall m :: m in r <==> m in multiset(mine);
    r
  }

  // ---------------------------------------------------------------------
  // The service

  class Api {
    var journals: seq<JournalRow>
    var nextJournalId: int
    var affirmations: seq<AffirmationRow>
    var nextAffirmationId: int
    var posts: seq<PostRow>
    var nextPostId: int
    var moods: seq<MoodRow>
    var nextMoodId: int

    /** The table constraints: unique journal dates and unique post ids. */
    ghost predicate Valid()
      reads this
    {
      UniqueDates(journals) && PostIds(posts, nextPostId)
    }

    /** Empty tables; AUTOINCREMENT ids start at 1. */
    constructor ()
      ensures Valid()
      ensures journals == [] && affirmations == [] && posts == [] && moods == []
      ensures nextJournalId == 1 && nextAffirmationId == 1 && nextPostId == 1 && nextMoodId == 1
    {
      journals := [];
      nextJournalId := 1;
      affirmations := [];
      nextAffirmationId := 1;
      posts := [];
      nextPostId := 1;
      moods := [];
      nextMoodId := 1;
    }

    /**
     * `POST /api/journals`: rejects a falsy date or an absent content
     * (empty or null content is accepted) and otherwise upserts the date's
     * row.
     */
    method PostJournal(date: Field, content: Field) returns (resp: Response)
      requires Valid()
      modifies this`journals, this`nextJournalId
      ensures Valid()
      ensures resp.BadRequest? <==> !Truthy(date) || content.Missing?
      ensures resp.BadRequest? ==>
        resp.error == "Date and content are required" && journals == old(journals) && nextJournalId == old(nextJournalId)
      ensures resp.Success? ==>
        journals == Upsert(old(journals), old(nextJournalId), date.s, Stored(content))
        && nextJournalId == old(nextJournalId) + if FindJournal(old(journals), date.s).None? then 1 else 0
    {
      if !Truthy(date) || content.Missing? {
        return BadRequest("Date and content are required");
      }
      var existing := FindJournal(journals, date.s);
      UpsertUnique(journals, nextJournalId, date.s, Stored(content));
      if existing.Some? {
        journals := journals[existing.value := journals[existing.value].(content := Stored(content))];
      } else {
        journals := journals + [JournalRow(nextJournalId, date.s, Stored(content))];
        nextJournalId := nextJournalId + 1;
      }
      resp := Success;
    }

    /** `GET /api/journals/:date`: the stored content, or '' for a date never written. */
    method GetJournal(date: string) returns (content: Option<string>)
      requires Valid()
      ensures content == JournalResponse(journals, date)
      ensures forall k :: 0 <= k < |journals| && journals[k].date == date ==> content == journals[k].content
      ensures (forall k :: 0 <= k < |journals| ==> journals[k].date != date) ==> content == Some("")
    {
      content := JournalResponse(journals, date);
    }

    /**
     * `POST /api/affirmations`: rejects a falsy date or affirmation and
     * otherwise appends a row; the user defaults to 'anon' when absent.
     */
    method PostAffirmation(date: Field, affirmation: Field, userId: Field) returns (resp: Response)
      modifies this`affirmations, this`nextAffirmationId
      ensures resp.BadRequest? <==> !Truthy(date) || !Truthy(affirmation)
      ensures resp.BadRequest? ==>
        resp.error == "Date and affirmation are required" && affirmations == old(affirmations) && nextAffirmationId == old(nextAffirmationId)
      ensures resp.Success? ==>
        affirmations == old(affirmations) + [AffirmationRow(old(nextAffirmationId), date.s, affirmation.s, WithDefault(userId, "anon"))]
        && nextAffirmationId == old(nextAffirmationId) + 1
    {
      if !Truthy(date) || !Truthy(affirmation) {
        return BadRequest("Date and affirmation are required");
      }
      affirmations := affirmations + [AffirmationRow(nextAffirmationId, date.s, affirmation.s, WithDefault(userId, "anon"))];
      nextAffirmationId := nextAffirmationId + 1;
      resp := Success;
    }

    /**
     * `GET /api/affirmations/:date`: the user's affirmations of that date
     * (the user defaults to 'anon' when the query has none).
     */
    method AffirmationsOn(date: string, queryUserId: Option<string>) returns (rows: seq<AffirmationRow>)
      ensures forall a :: a in rows <==>
        a in affirmations && a.date == date && a.userId == Some(queryUserId.GetOr("anon"))
      ensures forall a ::
        multiset(rows)[a] == if a.date == date && a.userId == Some(queryUserId.GetOr("anon")) then multiset(affirmations)[a] else 0
    {
      var userId := queryUserId.GetOr("anon");
      var matches := (a: AffirmationRow) => a.date == date && a.userId == Some(userId);
      rows := Filter(affirmations, matches);
      forall a: AffirmationRow
        ensures multiset(rows)[a] == if matches(a) then multiset(affirmations)[a] else 0
      {
        FilterCount(affirmations, matches, a);
      }
    }

    /** `GET /api/affirmations/streak/:userId`. */
    method GetStreak(userId: string) returns (streak: nat)
      ensures streak == |UserDates(affirmations, userId)|
      ensures streak <= |affirmations|
    {
      streak := Streak(affirmations, userId);
      DistinctDatesBound(affirmations, userId);
    }

    /** `POST /api/community`: appends a post with no likes; the user defaults to 'anon'. */
    method CreatePost(userId: Field, title: Field, content: Field, timestamp: string) returns (resp: Response)
      requires Valid()
      modifies this`posts, this`nextPostId
      ensures Valid() && resp == Success
      ensures posts == old(posts) + [PostRow(old(nextPostId), WithDefault(userId, "anon"), Stored(title), Stored(content), timestamp, 0)]
      ensures nextPostId == old(nextPostId) + 1
    {
      posts := posts + [PostRow(nextPostId, WithDefault(userId, "anon"), Stored(title), Stored(content), timestamp, 0)];
      nextPostId := nextPostId + 1;
      resp := Success;
    }

    /** `PUT /api/community/:id/like`: succeeds whether or not a post has the id. */
    method LikePost(id: Option<int>) returns (resp: Response)
      requires Valid()
      modifies this`posts
      ensures Valid() && resp == Success
      ensures posts == LikePosts(old(posts), id)
    {
      LikeKeepsIds(posts, id, nextPostId);
      posts := LikePosts(posts, id);
      resp := Success;
    }

    /** `POST /api/mood`: appends the entry unvalidated; the user defaults to 'anon'. */
    method PostMood(userId: Field, date: Field, mood: Field, note: Field) returns (resp: Response)
      modifies this`moods, this`nextMoodId
      ensures resp == Success
      ensures moods == old(moods) + [MoodRow(old(nextMoodId), WithDefault(userId, "anon"), Stored(date), Stored(mood), Stored(note))]
      ensures nextMoodId == old(nextMoodId) + 1
    {
      moods := moods + [MoodRow(nextMoodId, WithDefault(userId, "anon"), Stored(date), Stored(mood), Stored(note))];
      nextMoodId := nextMoodId + 1;
      resp := Success;
    }

    /** `GET /api/mood/:userId`. */
    method GetMoods(userId: string) returns (entries: seq<MoodRow>)
      ensures entries == ListMoods(moods, userId)
      ensures forall m :: m in entries <==> m in moods && m.userId == Some(userId)
      ensures SortedDesc(entries)
    {
      entries := ListMoods(moods, userId);
    }
  }

  /** A user has no more distinct dates than there are rows. */
  lemma {:induction false} DistinctDatesBound(rows: seq<AffirmationRow>, userId: string)
    ensures |UserDates(rows, userId)| <= |rows|
    decreases |rows|
  {
    if rows != [] {
      var init := rows[..|rows| - 1];
      DistinctDatesBound(init, userId);
      assert rows == init + [rows[|rows| - 1]];
      StreakInsert(init, rows[|rows| - 1], userId);
    }
  }
}
