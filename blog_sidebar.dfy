// The blog sidebar (src/components/blog/BlogSidebar.tsx): the mount effect that
// loads the category list with a post count per category, the tag list and the
// recent posts, and the count each category row displays.

module BlogSidebar {
  import opened Lists
  import opened BlogStore

  /** `allPosts.filter(post => post.category === category).length`: an exact, case-sensitive match. */
  function CategoryCount(posts: seq<Post>, category: string): nat {
    |Filter(posts, (p: Post) => p.category == category)|
  }

  /** The filtered length is the number of times the category occurs among the posts' categories. */
  lemma {:induction false} CategoryCountIsOccurrences(posts: seq<Post>, category: string)
    ensures CategoryCount(posts, category) == Count(Categories(posts), category)
  {
    CategoryCountIsMultiplicity(posts, category);
    CountIsMultiplicity(Categories(posts), category);
  }

  lemma {:induction false} CategoryCountIsMultiplicity(posts: seq<Post>, category: string)
    ensures CategoryCount(posts, category) == multiset(Categories(posts))[category]
  {
    if |posts| > 0 {
      CategoryCountIsMultiplicity(posts[1..], category);
      assert Categories(posts) == [posts[0].category] + Categories(posts[1..]);
    }
  }

  /** The sum, over a duplicate-free list of values, of how often each occurs in `s`. */
  function SumCounts(d: seq<string>, s: seq<string>): nat {
    if |d| == 0 then 0 else Count(s, d[0]) + SumCounts(d[1..], s)
  }

  lemma {:induction false} SumCountsEmpty(d: seq<string>)
    ensures SumCounts(d, []) == 0
  {
    if |d| > 0 {
      SumCountsEmpty(d[1..]);
    }
  }

  /** One more element adds one to the sum exactly when it is one of the listed values. */
  lemma {:induction false} SumCountsSnoc(d: seq<string>, p: seq<string>, x: string)
    requires NoDuplicates(d)
    ensures SumCounts(d, p + [x]) == SumCounts(d, p) + (if x in d then 1 else 0)
  {
    if |d| > 0 {
      assert NoDuplicates(d[1..]) by {
        forall i, j | 0 <= i < j < |d[1..]| ensures d[1..][i] != d[1..][j] {
          assert d[1..][i] == d[i + 1] && d[1..][j] == d[j + 1];
        }
      }
      SumCountsSnoc(d[1..], p, x);
      assert (p + [x])[..|p + [x]| - 1] == p;
      if d[0] == x {
        forall k | 0 <= k < |d[1..]| ensures d[1..][k] != x {
          assert d[1..][k] == d[k + 1];
        }
      }
    }
  }

  /** When every element of `s` is listed once, the counts add up to the length of `s`. */
  lemma {:induction false} SumCountsCoversAll(d: seq<string>, s: seq<string>)
    requires NoDuplicates(d)
    requires forall x :: x in s ==> x in d
    ensures SumCounts(d, s) == |s|
  {
    if |s| == 0 {
      SumCountsEmpty(d);
    } else {
      var p := s[..|s| - 1];
      assert s == p + [s[|s| - 1]];
      SumCountsCoversAll(d, p);
      SumCountsSnoc(d, p, s[|s| - 1]);
    }
  }

  /** The counts of the listed categories add up to the number of posts. */
  lemma ListedCountsSum(store: seq<Post>)
    ensures SumCounts(GetAllCategories(store), Categories(GetAllPosts(store))) == |store|
  {
    SumCountsCoversAll(GetAllCategories(store), Categories(GetAllPosts(store)));
  }

  /** Every listed category has at least one post, since the list is drawn from the posts. */
  lemma ListedCategoryIsUsed(store: seq<Post>, c: string)
    requires c in GetAllCategories(store)
    ensures CategoryCount(GetAllPosts(store), c) >= 1
  {
    CategoryCountIsOccurrences(GetAllPosts(store), c);
  }

  /** How many recent posts the sidebar asks for. */
  const SidebarRecentCount := 5

  /** The sidebar's four state hooks. */
  class Sidebar {
    const store: seq<Post>
    var categories: seq<string>
    var tags: seq<string>
    var recentPosts: seq<Post>
    var categoryCounts: map<string, nat>

    constructor(store: seq<Post>)
      ensures this.store == store
      ensures categories == [] && tags == [] && recentPosts == [] && categoryCounts == map[]
    {
      this.store := store;
      categories := [];
      tags := [];
      recentPosts := [];
      categoryCounts := map[];
    }

    /** The mount effect: counts the posts of each category, then sets the four state fields. */
    method Load()
      modifies this
      ensures categories == GetAllCategories(store) && tags == GetAllTags(store)
      ensures recentPosts == GetRecentPosts(store, SidebarRecentCount)
      ensures forall c :: c in categoryCounts <==> c in categories
      ensures forall c :: c in categoryCounts ==> categoryCounts[c] == CategoryCount(GetAllPosts(store), c)
    {
      var allCategories := GetAllCategories(store);
      var allPosts := GetAllPosts(store);
      var counts: map<string, nat> := map[];
      var i := 0;
      while i < |allCategories|
        invariant 0 <= i <= |allCategories|
        invariant forall c :: c in counts <==> c in allCategories[..i]
        invariant forall c :: c in counts ==> counts[c] == CategoryCount(allPosts, c)
      {
        var c := allCategories[i];
        assert allCategories[..i + 1] == allCategories[..i] + [c];
        counts := counts[c := CategoryCount(allPosts, c)];
        i := i + 1;
      }
      assert allCategories[..i] == allCategories;
      categories := allCategories;
      tags := GetAllTags(store);
      recentPosts := GetRecentPosts(store, SidebarRecentCount);
      categoryCounts := counts;
    }

    /** `categoryCounts[category] || 0`: a category without an entry shows 0. */
    function DisplayedCount(category: string): (n: nat)
      reads this
      ensures category !in categoryCounts ==> n == 0
      ensures category in categoryCounts ==> n == categoryCounts[category]
    {
      if category in categoryCounts then categoryCounts[category] else 0
    }
  }

  /** After loading, every row shows a positive count, and at most five recent posts are listed. */
  lemma LoadedSidebarShape(store: seq<Post>, categories: seq<string>, recent: seq<Post>, counts: map<string, nat>)
    requires categories == GetAllCategories(store) && recent == GetRecentPosts(store, SidebarRecentCount)
    requires forall c :: c in counts <==> c in categories
    requires forall c :: c in counts ==> counts[c] == CategoryCount(GetAllPosts(store), c)
    ensures forall c :: c in categories ==> c in counts && counts[c] >= 1
    ensures |recent| <= SidebarRecentCount
  {
    forall c | c in categories ensures c in counts && counts[c] >= 1 {
      ListedCategoryIsUsed(store, c);
    }
  }
}
