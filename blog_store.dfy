// The blog's post store and its queries (src/lib/mdx.ts): lookup by slug, the
// newest-first listing, the category filter, the de-duplicated category and tag
// lists, the recent-post prefix and the pass-through serializer.

module BlogStore {
  import opened Lists
  import opened Text

  /** A calendar date, as `new Date("YYYY-MM-DD")` reads a post's date string. */
  datatype Date = Date(year: int, month: int, day: int)

  /** `new Date(a) > new Date(b)` for well-formed dates: a strictly later day. */
  predicate DateAfter(a: Date, b: Date) {
    a.year > b.year
    || (a.year == b.year && a.month > b.month)
    || (a.year == b.year && a.month == b.month && a.day > b.day)
  }

  /** A post with its front matter (`PostMeta`) and its body. */
  datatype Post = Post(
    title: string,
    date: Date,
    excerpt: string,
    author: string,
    category: string,
    tags: seq<string>,
    coverImage: string,
    slug: string,
    content: string)

  /** The outcome of a call that may throw: the value, or the thrown error's message. */
  datatype Result<T> = Success(value: T) | Failure(error: string)

  /** `getPostSlugs`: the slug of every post, in store order. */
  function GetPostSlugs(store: seq<Post>): (r: seq<string>)
    ensures |r| == |store|
    ensures forall i :: 0 <= i < |store| ==> r[i] == store[i].slug
  {
    seq(|store|, i requires 0 <= i < |store| => store[i].slug)
  }

  /** `blogPosts.find(post => post.slug === slug)`: the first post with that slug. */
  function FindBySlug(store: seq<Post>, slug: string): (r: Option<Post>)
    ensures r.None? <==> forall i :: 0 <= i < |store| ==> store[i].slug != slug
    ensures r.Some? ==> exists i :: 0 <= i < |store| && store[i] == r.value && store[i].slug == slug
                                    && forall j :: 0 <= j < i ==> store[j].slug != slug
  {
    if |store| == 0 then None
    else if store[0].slug == slug then Some(store[0])
    else
      var r := FindBySlug(store[1..], slug);
      assert forall i :: 1 <= i < |store| ==> store[i] == store[1..][i - 1];
      r
  }

  /** The message `getPostBySlug` throws for an unknown slug. */
  function NotFoundMessage(slug: string): string {
    "Post with slug \"" + slug + "\" not found"
  }

  /** `getPostBySlug`: the post with that slug, or the not-found error. */
  function GetPostBySlug(store: seq<Post>, slug: string): (r: Result<Post>)
    ensures r.Success? <==> slug in GetPostSlugs(store)
    ensures r.Success? ==> r.value in store && r.value.slug == slug
    ensures r.Failure? ==> r.error == NotFoundMessage(slug)
  {
    var slugs := GetPostSlugs(store);
    match FindBySlug(store, slug)
    case Some(p) => Success(p)
    case None =>
      assert forall k :: 0 <= k < |slugs| ==> slugs[k] != slug;
      Failure(NotFoundMessage(slug))
  }

  /** With distinct slugs, looking up a post's own slug gives that post back. */
  lemma LookupOwnSlug(store: seq<Post>, k: nat)
    requires NoDuplicates(GetPostSlugs(store))
    requires k < |store|
    ensures GetPostBySlug(store, store[k].slug) == Success(store[k])
  {
    var slugs := GetPostSlugs(store);
    match FindBySlug(store, store[k].slug)
    case Some(p) =>
      var i :| 0 <= i < |store| && store[i] == p && store[i].slug == store[k].slug;
      assert slugs[i] == slugs[k];
    case None =>
  }

  /** The place `(a, b) => a.date > b.date ? -1 : 1` gives `a`: before `b` unless `b` is strictly newer. */
  predicate NewestFirst(a: Post, b: Post) {
    !DateAfter(b.date, a.date)
  }

  lemma NewestFirstIsOrder()
    ensures Total(NewestFirst) && Transitive(NewestFirst)
  {
  }

  /** `getAllPosts`: a sorted copy of the store, newest first. */
  function GetAllPosts(store: seq<Post>): (r: seq<Post>)
    ensures multiset(r) == multiset(store)
    ensures |r| == |store|
    ensures forall i, j :: 0 <= i < j < |r| ==> !DateAfter(r[j].date, r[i].date)
  {
    NewestFirstIsOrder();
    SortBy(store, NewestFirst)
  }

  lemma AllPostsMembership(store: seq<Post>)
    ensures forall p :: p in GetAllPosts(store) <==> p in store
  {
    var r := GetAllPosts(store);
    assert forall p :: p in r <==> p in multiset(r);
    assert forall p :: p in store <==> p in multiset(store);
  }

  /** The category test of `getPostsByCategory`. */
  predicate InCategory(p: Post, category: string) {
    Lower(p.category) == Lower(category)
  }

  /** `getPostsByCategory`: the newest-first posts whose category matches, ignoring case. */
  function GetPostsByCategory(store: seq<Post>, category: string): (r: seq<Post>)
    ensures SubsequenceOf(r, GetAllPosts(store))
    ensures forall p :: p in r <==> p in store && InCategory(p, category)
    ensures forall p :: multiset(r)[p] == if InCategory(p, category) then multiset(store)[p] else 0
    ensures forall i, j :: 0 <= i < j < |r| ==> !DateAfter(r[j].date, r[i].date)
  {
    var all := GetAllPosts(store);
    AllPostsMembership(store);
    FilterSubsequence(all, p => InCategory(p, category));
    NewestFirstIsOrder();
    FilterSorted(all, p => InCategory(p, category), NewestFirst);
    FilterCopies(all, p => InCategory(p, category));
    Filter(all, p => InCategory(p, category))
  }

  /** The argument's case does not matter: a category and its lower-cased form select the same posts. */
  lemma CategoryCaseInsensitive(store: seq<Post>, category: string)
    ensures GetPostsByCategory(store, category) == GetPostsByCategory(store, Lower(category))
  {
    LowerIdempotent(category);
    FilterExt(GetAllPosts(store), p => InCategory(p, category), p => InCategory(p, Lower(category)));
  }

  /** The category of each post, in order. */
  function Categories(posts: seq<Post>): (r: seq<string>)
    ensures |r| == |posts| && forall i :: 0 <= i < |posts| ==> r[i] == posts[i].category
  {
    seq(|posts|, i requires 0 <= i < |posts| => posts[i].category)
  }

  /** The tag list of each post, in order. */
  function TagLists(posts: seq<Post>): (r: seq<seq<string>>)
    ensures |r| == |posts| && forall i :: 0 <= i < |posts| ==> r[i] == posts[i].tags
  {
    seq(|posts|, i requires 0 <= i < |posts| => posts[i].tags)
  }

  /** `getAllCategories`: the categories of the newest-first posts, each once, in order of first appearance. */
  function GetAllCategories(store: seq<Post>): (r: seq<string>)
    ensures NoDuplicates(r)
    ensures forall c :: c in r <==> c in Categories(GetAllPosts(store))
    ensures forall i, j :: 0 <= i < j < |r| ==>
      IndexOf(Categories(GetAllPosts(store)), r[i]) < IndexOf(Categories(GetAllPosts(store)), r[j])
  {
    Dedupe(Categories(GetAllPosts(store)))
  }

  /** The category list holds exactly the categories of the store's posts. */
  lemma AllCategoriesMembership(store: seq<Post>, c: string)
    ensures c in GetAllCategories(store) <==> exists p :: p in store && p.category == c
  {
    var all := GetAllPosts(store);
    var cs := Categories(all);
    AllPostsMembership(store);
    if c in cs {
      var i :| 0 <= i < |cs| && cs[i] == c;
      assert all[i] in store;
    }
    if exists p :: p in store && p.category == c {
      var p :| p in store && p.category == c;
      var i :| 0 <= i < |all| && all[i] == p;
      assert cs[i] == c;
    }
  }

  /** `getAllTags`: the tags of the newest-first posts, each once, in order of first appearance. */
  function GetAllTags(store: seq<Post>): (r: seq<string>)
    ensures NoDuplicates(r)
    ensures forall t :: t in r <==> t in Flatten(TagLists(GetAllPosts(store)))
    ensures forall i, j :: 0 <= i < j < |r| ==>
      IndexOf(Flatten(TagLists(GetAllPosts(store))), r[i]) < IndexOf(Flatten(TagLists(GetAllPosts(store))), r[j])
  {
    Dedupe(Flatten(TagLists(GetAllPosts(store))))
  }

  /** The tag list holds exactly the tags of the store's posts. */
  lemma AllTagsMembership(store: seq<Post>, t: string)
    ensures t in GetAllTags(store) <==> exists p :: p in store && t in p.tags
  {
    var all := GetAllPosts(store);
    var ts := TagLists(all);
    AllPostsMembership(store);
    if t in Flatten(ts) {
      var i :| 0 <= i < |ts| && t in ts[i];
      assert all[i] in store;
    }
    if exists p :: p in store && t in p.tags {
      var p :| p in store && t in p.tags;
      var i :| 0 <= i < |all| && all[i] == p;
      assert t in ts[i];
    }
  }

  /** The end index `Array.prototype.slice(0, count)` uses: a negative count counts back from the end. */
  function SliceEnd(n: nat, count: int): (e: nat)
    ensures e <= n
    ensures count >= 0 ==> e == if count < n then count else n
    ensures count < 0 ==> e == if n + count > 0 then n + count else 0
  {
    if count < 0 then (if n + count > 0 then n + count else 0)
    else if count < n then count
    else n
  }

  /** `getRecentPosts(count)`: the first posts of the newest-first listing. */
  function GetRecentPosts(store: seq<Post>, count: int): (r: seq<Post>)
    ensures r <= GetAllPosts(store)
    ensures |r| == SliceEnd(|store|, count)
  {
    GetAllPosts(store)[..SliceEnd(|store|, count)]
  }

  const DefaultRecentCount := 5

  /** `getRecentPosts()` with the default count: at most five posts, the newest ones. */
  function GetRecentPostsDefault(store: seq<Post>): (r: seq<Post>)
    ensures r <= GetAllPosts(store)
    ensures |r| == if |store| < DefaultRecentCount then |store| else DefaultRecentCount
  {
    GetRecentPosts(store, DefaultRecentCount)
  }

  /** No post outside the recent list is newer than a post in it. */
  lemma RecentAreNewest(store: seq<Post>, count: int, p: Post, q: Post)
    requires p in GetRecentPosts(store, count)
    requires q in GetAllPosts(store) && q !in GetRecentPosts(store, count)
    ensures !DateAfter(q.date, p.date)
  {
    var all, r := GetAllPosts(store), GetRecentPosts(store, count);
    var i :| 0 <= i < |r| && r[i] == p;
    var j :| 0 <= j < |all| && all[j] == q;
    assert j >= |r| by {
      assert forall k :: 0 <= k < |r| ==> all[k] in r;
    }
    assert all[i] == p;
  }

  /** What `serializeMdx` resolves to. */
  datatype Serialized = Serialized(compiledSource: string)

  /** `serializeMdx`: the source is passed through unchanged. */
  function SerializeMdx(source: string): (r: Serialized)
    ensures r.compiledSource == source
  {
    Serialized(source)
  }

  const PublishedOn := Date(2023, 7, 11)

  /** The store's three posts; their bodies are long prose and are passed in. */
  function SitePosts(supplyChain: string, bubble: string, moreMoney: string): (s: seq<Post>)
    ensures |s| == 3
  {
    [ Post("ARE YOU READY FOR THE NEW SUPPLY CHAIN?", PublishedOn, SupplyChainExcerpt, Author,
           "Manufacturing", ["3D Printing", "Supply Chain", "COVID-19", "Manufacturing", "Business"],
           "/images/blog/covers/ship1.avif", "ready-for-new-supply-chain", supplyChain),
      Post("How I Built a 3D Printing Business in a Bubble and Survived", PublishedOn, BubbleExcerpt, Author,
           "Entrepreneurship", ["3D Printing", "Business", "Startup", "Manufacturing", "Technology"],
           "/images/blog/covers/mag_covers.avif", "3d-printing-business-in-bubble", bubble),
      Post("How to Make More Money at Your 3D Printing Shop", PublishedOn, MoreMoneyExcerpt, Author,
           "Business", ["3D Printing", "Business Strategy", "Client Management", "Revenue", "Manufacturing"],
           "/images/blog/covers/mos_dash1.avif", "make-more-money-3d-printing-shop", moreMoney) ]
  }

  const Author := "Michael Moceri"
  const SupplyChainExcerpt := "Big companies may come knocking at your door as supply chains adjust after COVID-19. Will your 3D printing business be ready?"
  const BubbleExcerpt := "Magazine covers, Netflix documentaries, and daily news segments talking about how 3D printing took over the world of tech and gave everyone an impassioned vision of the future."
  const MoreMoneyExcerpt := "From a high-level perspective, you can categorize clients of 3D printing service shops into one of two buckets: transactional clients and relationship-based clients."

  /**
   * The site's posts have distinct slugs, so each is found by its own slug, and
   * all share one date, so the comparator alone does not fix their order.
   */
  lemma SiteStoreFacts(supplyChain: string, bubble: string, moreMoney: string)
    ensures NoDuplicates(GetPostSlugs(SitePosts(supplyChain, bubble, moreMoney)))
    ensures forall p :: p in SitePosts(supplyChain, bubble, moreMoney) ==> p.date == PublishedOn
  {
    var s := SitePosts(supplyChain, bubble, moreMoney);
    var slugs := GetPostSlugs(s);
    assert slugs[0][0] == 'r' && slugs[1][0] == '3' && slugs[2][0] == 'm';
  }

  lemma SiteLookup(supplyChain: string, bubble: string, moreMoney: string, k: nat)
    requires k < 3
    ensures GetPostBySlug(SitePosts(supplyChain, bubble, moreMoney), SitePosts(supplyChain, bubble, moreMoney)[k].slug)
            == Success(SitePosts(supplyChain, bubble, moreMoney)[k])
  {
    SiteStoreFacts(supplyChain, bubble, moreMoney);
    LookupOwnSlug(SitePosts(supplyChain, bubble, moreMoney), k);
  }
}
