// The blog search page (src/components/blog/BlogSearch.tsx): the match test, the
// filtered result list, the submit guard, the search on mount and the result
// summary line.

module BlogSearch {
  import opened Lists
  import opened Text
  import opened BlogStore

  /** Some tag of the post contains the (lower-cased) term. */
  predicate SomeTagMatches(tags: seq<string>, term: string) {
    exists k :: 0 <= k < |tags| && Includes(Lower(tags[k]), term)
  }

  /** The filter of `performSearch`: title, excerpt, body, a tag or the category contains the query, ignoring case. */
  predicate PostMatches(p: Post, query: string) {
    var term := Lower(query);
    Includes(Lower(p.title), term)
    || Includes(Lower(p.excerpt), term)
    || Includes(Lower(p.content), term)
    || SomeTagMatches(p.tags, term)
    || Includes(Lower(p.category), term)
  }

  /** The posts `performSearch` stores: the matching ones, in newest-first order. */
  function SearchResults(store: seq<Post>, query: string): (r: seq<Post>)
    ensures SubsequenceOf(r, GetAllPosts(store))
    ensures forall p :: p in r <==> p in store && PostMatches(p, query)
    ensures forall p :: multiset(r)[p] == if PostMatches(p, query) then multiset(store)[p] else 0
    ensures forall i, j :: 0 <= i < j < |r| ==> !DateAfter(r[j].date, r[i].date)
  {
    var all := GetAllPosts(store);
    AllPostsMembership(store);
    FilterSubsequence(all, p => PostMatches(p, query));
    NewestFirstIsOrder();
    FilterSorted(all, p => PostMatches(p, query), NewestFirst);
    FilterCopies(all, p => PostMatches(p, query));
    Filter(all, p => PostMatches(p, query))
  }

  /** The empty query is contained in every text, so it would list every post. */
  lemma EmptyQueryMatchesAll(store: seq<Post>)
    ensures SearchResults(store, "") == GetAllPosts(store)
  {
    forall p | p in GetAllPosts(store) ensures PostMatches(p, "") {
      EmptyIncluded(Lower(p.title));
    }
    FilterAll(GetAllPosts(store), p => PostMatches(p, ""));
  }

  /** The query's case does not matter. */
  lemma SearchCaseInsensitive(store: seq<Post>, query: string)
    ensures SearchResults(store, query) == SearchResults(store, Lower(query))
  {
    LowerIdempotent(query);
    FilterExt(GetAllPosts(store), p => PostMatches(p, query), p => PostMatches(p, Lower(query)));
  }

  /** Searching for a category name finds at least every post in that category. */
  lemma CategoryPostsAreFound(store: seq<Post>, category: string, p: Post)
    requires p in GetPostsByCategory(store, category)
    ensures p in SearchResults(store, category)
  {
    assert OccursAt(Lower(p.category), Lower(category), 0);
  }

  /** The message above the results: none found, or the count with "result" in singular or plural. */
  function ResultSummary(n: nat): (r: string)
    ensures r == "No results found" <==> n == 0
    ensures n > 0 ==> |r| >= 13 + |NatToString(n)|
    ensures n > 0 ==> r[..6] == "Found " && r[6..6 + |NatToString(n)|] == NatToString(n)
    ensures n > 0 ==> r[6 + |NatToString(n)|..] == if n == 1 then " result" else " results"
    ensures n > 0 ==> (r[|r| - 1] == 's' <==> n != 1)
  {
    if n == 0 then "No results found"
    else
      var digits := NatToString(n);
      var tail := " result" + (if n == 1 then "" else "s");
      var r := "Found " + digits + tail;
      assert r[..6] == "Found " && r[6..6 + |digits|] == digits && r[6 + |digits|..] == tail;
      assert r[|r| - 1] == tail[|tail| - 1];
      assert r[6] == digits[0] && '0' <= r[6] <= '9';
      r
  }

  /** The search page's state. */
  class SearchPage {
    /** The store the page reads through `getAllPosts`. */
    const store: seq<Post>
    /**
     * `initialQuery`: the `q` parameter of the current URL, or "" when absent. It is read
     * again on every render, so a navigation to a new search URL changes it.
     */
    var initialQuery: string
    var searchQuery: string
    var searchResults: seq<Post>
    var isSearching: bool
    /** The queries whose search URLs have been pushed to the router, in order. */
    var navigations: seq<string>

    /** The page opened at a URL with the given `q`: the query starts as the URL's, no results, not searching. */
    constructor(store: seq<Post>, urlQuery: string)
      ensures this.store == store && initialQuery == urlQuery
      ensures searchQuery == urlQuery && searchResults == [] && !isSearching && navigations == []
    {
      this.store := store;
      initialQuery := urlQuery;
      searchQuery := urlQuery;
      searchResults := [];
      isSearching := false;
      navigations := [];
    }

    /** `performSearch`: marks the page as searching, stores the results, and clears the mark again. */
    method PerformSearch(query: string)
      modifies this
      ensures searchResults == SearchResults(store, query) && !isSearching
      ensures searchQuery == old(searchQuery) && initialQuery == old(initialQuery) && navigations == old(navigations)
    {
      isSearching := true;
      var results := SearchResults(store, query);
      searchResults := results;
      isSearching := false;
    }

    /** The input's change handler. */
    method SetSearchQuery(q: string)
      modifies this
      ensures searchQuery == q && initialQuery == old(initialQuery)
      ensures searchResults == old(searchResults) && isSearching == old(isSearching) && navigations == old(navigations)
    {
      searchQuery := q;
    }

    /**
     * `handleSearch`: a submitted query that is not blank navigates to its search URL, whose
     * `q` then reads back as the query, and runs the search; when the URL's query changed,
     * the `[initialQuery]` effect searches once more for the same query.
     */
    method HandleSearch()
      modifies this
      ensures searchQuery == old(searchQuery)
      ensures Trim(searchQuery) != "" ==>
        navigations == old(navigations) + [searchQuery] && initialQuery == searchQuery
        && searchResults == SearchResults(store, searchQuery) && !isSearching
      ensures Trim(searchQuery) == "" ==>
        navigations == old(navigations) && initialQuery == old(initialQuery)
        && searchResults == old(searchResults) && isSearching == old(isSearching)
    {
      if Trim(searchQuery) != "" {
        navigations := navigations + [searchQuery];
        PerformSearch(searchQuery);
        if initialQuery != searchQuery {
          initialQuery := searchQuery;
          QueryEffect();
        }
      }
    }

    /** The `[initialQuery]` effect, run on mount and after the URL's query changes: a non-empty query is searched. */
    method QueryEffect()
      modifies this
      ensures searchQuery == old(searchQuery) && initialQuery == old(initialQuery) && navigations == old(navigations)
      ensures initialQuery != "" ==> searchResults == SearchResults(store, initialQuery) && !isSearching
      ensures initialQuery == "" ==> searchResults == old(searchResults) && isSearching == old(isSearching)
    {
      if initialQuery != "" {
        PerformSearch(initialQuery);
      }
    }

    /** The summary heading is shown while the URL carries a query. */
    function Summary(): (s: Option<string>)
      reads this
      ensures s.Some? <==> initialQuery != ""
      ensures s.Some? ==> s.value == ResultSummary(|searchResults|)
    {
      if initialQuery != "" then Some(ResultSummary(|searchResults|)) else None
    }
  }

  /** A blank query submitted by itself changes nothing. */
  method BlankSubmitScenario(store: seq<Post>)
  {
    var page := new SearchPage(store, "");
    page.SetSearchQuery("  ");
    assert Trim("  ") == "";
    page.HandleSearch();
    assert page.navigations == [] && page.searchResults == [] && page.Summary() == None;
  }

  /** A page opened without a query shows the summary of the first search submitted on it. */
  method SubmitScenario(store: seq<Post>)
  {
    var page := new SearchPage(store, "");
    page.QueryEffect();
    page.SetSearchQuery("supply");
    assert Trim("supply") == "supply";
    page.HandleSearch();
    assert page.Summary() == Some(ResultSummary(|SearchResults(store, "supply")|));
  }
}
