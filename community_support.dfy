/**
 * The discussion list of src/components/CommunitySupport.tsx: four fixed
 * discussions, a category sidebar whose 'all' entry shows everything, and
 * a filter on the chosen category.
 */
module CommunitySupport {
  import opened Filters

  /** A discussion; its title is display text. */
  datatype Discussion = Discussion(id: string, author: string, replies: int, likes: int, timeAgo: string, category: string, isAnonymous: bool)

  /** `discussions`. */
  const Discussions: seq<Discussion> := [
    Discussion("1", "Student_2024", 12, 8, "2h", "students", true),
    Discussion("2", "Anonymous_Helper", 24, 15, "4h", "anxiety", true),
    Discussion("3", "Hopeful_Journey", 18, 22, "6h", "depression", true),
    Discussion("4", "Working_Well", 31, 19, "8h", "stress", true)
  ]

  /** The sidebar's category keys, in display order. */
  const CategoryKeys: seq<string> := ["all", "anxiety", "depression", "stress", "relationships", "students"]

  /**
   * `filteredDiscussions`: 'all' shows every discussion; any other
   * category exactly the discussions of that category, in their order.
   */
  function FilteredDiscussions(activeCategory: string, discussions: seq<Discussion>): (r: seq<Discussion>)
    ensures activeCategory == "all" ==> r == discussions
    ensures activeCategory != "all" ==> forall d :: d in r <==> d in discussions && d.category == activeCategory
  {
    if activeCategory == "all" then discussions
    else Filter(discussions, (d: Discussion) => d.category == activeCategory)
  }

  /** The filter keeps the discussions' order. */
  lemma FilteredOrder(activeCategory: string, a: seq<Discussion>, b: seq<Discussion>)
    ensures FilteredDiscussions(activeCategory, a + b) == FilteredDiscussions(activeCategory, a) + FilteredDiscussions(activeCategory, b)
  {
    if activeCategory != "all" {
      FilterAppend(a, b, (d: Discussion) => d.category == activeCategory);
    }
  }

  /**
   * On the fixed list, students, anxiety, depression and stress each show
   * one discussion, and 'relationships', offered in the sidebar, shows none.
   */
  lemma FixedDiscussions()
    ensures FilteredDiscussions("students", Discussions) == [Discussions[0]]
    ensures FilteredDiscussions("anxiety", Discussions) == [Discussions[1]]
    ensures FilteredDiscussions("depression", Discussions) == [Discussions[2]]
    ensures FilteredDiscussions("stress", Discussions) == [Discussions[3]]
    ensures FilteredDiscussions("relationships", Discussions) == []
  {
  }

  /** The component's state: the chosen category, 'all' at first. */
  class Board {
    var activeCategory: string

    constructor ()
      ensures activeCategory == "all"
    {
      activeCategory := "all";
    }

    /** A sidebar button selects its category key. */
    method SelectCategory(key: string)
      modifies this`activeCategory
      ensures activeCategory == key
    {
      activeCategory := key;
    }

    /** The discussions shown. */
    function Shown(): (r: seq<Discussion>)
      reads this
      ensures forall d :: d in r ==> d in Discussions && (activeCategory == "all" || d.category == activeCategory)
    {
      FilteredDiscussions(activeCategory, Discussions)
    }
  }
}
