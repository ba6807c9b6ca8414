/**
 * The home page's `load` function: fixed in-memory datasets, query-parameter
 * coercion, a search filter, a tag-based category filter, pagination, the
 * featured posts, an optional user record and the page's meta strings.
 */
module HomePage {
  import opened Wrappers
  import opened Text
  import opened Sequences
  import opened Pagination

  // ---------------------------------------------------------------- data

  datatype Post = Post(id: int, title: string, content: string, author: string, date: string, tags: seq<string>)

  datatype Category = Category(id: int, name: string, count: int)

  datatype Weather = Weather(city: string, temperature: int, condition: string, humidity: int, windSpeed: real)

  const DummyPosts: seq<Post> := [
    Post(1, "SvelteKit 시작하기", "SvelteKit은 현대적인 웹 개발 프레임워크입니다.",
         "김개발", "2024-01-15", ["svelte", "tutorial"]),
    Post(2, "TypeScript와 함께하는 개발", "TypeScript를 사용하면 더 안전한 코드를 작성할 수 있습니다.",
         "이타입", "2024-01-10", ["typescript", "javascript"]),
    Post(3, "반응형 웹 디자인", "모든 디바이스에서 완벽하게 동작하는 웹사이트를 만들어보세요.",
         "박디자인", "2024-01-05", ["css", "responsive"])
  ]

  const DummyCategories: seq<Category> := [
    Category(1, "프론트엔드", 15),
    Category(2, "백엔드", 8),
    Category(3, "디자인", 5),
    Category(4, "DevOps", 3)
  ]

  const DummyWeather: Weather := Weather("Seoul", 22, "맑음", 65, 3.2)

  // ---------------------------------------------------------- parameters

  /** What `Number(...)` yields for the `page` parameter (integers only). */
  datatype NumberValue = NaN | Int(value: int)

  /**
   * The query parameters `load` reads. `None` is a parameter that
   * `searchParams.get` reports as null; `page` holds `Number` of its text
   * (so an empty text is `Some(Int(0))`, a non-numeric one `Some(NaN)`).
   */
  datatype QueryParams = QueryParams(
    q: Option<string>,
    page: Option<NumberValue>,
    category: Option<string>,
    user: Option<string>)

  /** A draw of `Math.random()`. */
  type RandomDraw = r: real | 0.0 <= r < 1.0

  /** The wall clock and the random draws `load` consumes, in the order it consumes them. */
  datatype Environment = Environment(
    postCountDraw: RandomDraw,
    localDate: string,
    isoTimestamp: string,
    loadTimeDraw: RandomDraw)

  /** `get(name) || ''`: null and the empty string both become the empty string. */
  function TextParam(p: Option<string>): (r: string)
    ensures p.Some? ==> r == p.value
    ensures p.None? ==> r == ""
    ensures r == "" <==> p.None? || p.value == ""
  {
    p.GetOr("")
  }

  /** JavaScript truthiness of a number: everything but 0 and NaN. */
  predicate Truthy(v: NumberValue) {
    v.Int? && v.value != 0
  }

  /** `Number(get('page')) || 1`; `Number(null)` is 0. */
  function CoercePage(p: Option<NumberValue>): (page: int)
    ensures page != 0
    ensures p.None? || p.value.NaN? || p.value == Int(0) ==> page == 1
    ensures p.Some? && p.value.Int? && p.value.value != 0 ==> page == p.value.value
  {
    var v := p.GetOr(Int(0));
    if Truthy(v) then v.value else 1
  }

  // ------------------------------------------------------------- filters

  /** The scan agrees with the reference substring test on every lowered tag. */
  lemma TagsIncludesIsContains(tags: seq<string>, needle: string)
    ensures forall i :: 0 <= i < |tags| ==>
      (Includes(Lower(tags[i]), needle) <==> Contains(Lower(tags[i]), needle))
  {
    forall i | 0 <= i < |tags| {
      IncludesIsContains(Lower(tags[i]), needle);
    }
  }

  /** `tags.some(tag => tag.toLowerCase().includes(needle))`. */
  predicate SomeTagIncludes(tags: seq<string>, needle: string): (b: bool)
    ensures b <==> exists i :: 0 <= i < |tags| && Contains(Lower(tags[i]), needle)
  {
    TagsIncludesIsContains(tags, needle);
    exists i :: 0 <= i < |tags| && Includes(Lower(tags[i]), needle)
  }

  /**
   * The search test: title, content or some tag, lowered, includes `needle`.
   * Its contract states it as an OR of three substring tests.
   */
  predicate MatchesSearch(post: Post, needle: string): (b: bool)
    ensures b <==>
      || Contains(Lower(post.title), needle)
      || Contains(Lower(post.content), needle)
      || exists i :: 0 <= i < |post.tags| && Contains(Lower(post.tags[i]), needle)
  {
    IncludesIsContains(Lower(post.title), needle);
    IncludesIsContains(Lower(post.content), needle);
    || Includes(Lower(post.title), needle)
    || Includes(Lower(post.content), needle)
    || SomeTagIncludes(post.tags, needle)
  }

  /** The category test: some tag, lowered, includes `needle`; the category list is never read. */
  predicate MatchesCategory(post: Post, needle: string): (b: bool)
    ensures b <==> exists i :: 0 <= i < |post.tags| && Contains(Lower(post.tags[i]), needle)
  {
    SomeTagIncludes(post.tags, needle)
  }

  /** The search stage: no query keeps every post, otherwise the posts matching the lowered query. */
  function SearchFilter(posts: seq<Post>, q: string): (r: seq<Post>)
    ensures q == "" ==> r == posts
    ensures IsSubsequence(r, posts)
    ensures forall k :: 0 <= k < |r| ==> r[k] in posts && (q != "" ==> MatchesSearch(r[k], Lower(q)))
    ensures forall k :: 0 <= k < |posts| && (q == "" || MatchesSearch(posts[k], Lower(q))) ==> posts[k] in r
  {
    if q == "" then
      SubsequenceReflexive(posts);
      posts
    else
      FilterIsSubsequence(posts, p => MatchesSearch(p, Lower(q)));
      Filter(posts, p => MatchesSearch(p, Lower(q)))
  }

  /** The category stage: no category keeps every post, otherwise the posts with a matching tag. */
  function CategoryFilter(posts: seq<Post>, category: string): (r: seq<Post>)
    ensures category == "" ==> r == posts
    ensures IsSubsequence(r, posts)
    ensures forall k :: 0 <= k < |r| ==> r[k] in posts && (category != "" ==> MatchesCategory(r[k], Lower(category)))
    ensures forall k :: 0 <= k < |posts| && (category == "" || MatchesCategory(posts[k], Lower(category))) ==> posts[k] in r
  {
    if category == "" then
      SubsequenceReflexive(posts);
      posts
    else
      FilterIsSubsequence(posts, p => MatchesCategory(p, Lower(category)));
      Filter(posts, p => MatchesCategory(p, Lower(category)))
  }

  /** Whether a post survives both stages for the given query and category texts. */
  predicate Kept(post: Post, q: string, category: string) {
    && (q == "" || MatchesSearch(post, Lower(q)))
    && (category == "" || MatchesCategory(post, Lower(category)))
  }

  /**
   * `filteredPosts`: the search stage followed by the category stage. It
   * keeps the order of `dummyPosts` and holds exactly the posts that pass
   * both tests.
   */
  function Filtered(params: QueryParams): (r: seq<Post>)
    ensures IsSubsequence(r, DummyPosts)
    ensures forall k :: 0 <= k < |r| ==> r[k] in DummyPosts && Kept(r[k], TextParam(params.q), TextParam(params.category))
    ensures forall k :: 0 <= k < |DummyPosts| && Kept(DummyPosts[k], TextParam(params.q), TextParam(params.category)) ==> DummyPosts[k] in r
  {
    var q, category := TextParam(params.q), TextParam(params.category);
    StagesAreOneFilter(DummyPosts, q, category);
    FilterIsSubsequence(DummyPosts, p => Kept(p, q, category));
    CategoryFilter(SearchFilter(DummyPosts, q), category)
  }

  // ---------------------------------------------------------- user, meta

  datatype UserData = UserData(id: string, name: string, email: string, joinDate: string, postCount: int)

  /** `Math.floor(Math.random() * 20) + 1`. */
  function PostCount(draw: RandomDraw): (n: int)
    ensures 1 <= n <= 20
  {
    (draw * 20.0).Floor + 1
  }

  /** The user record: null for an absent or empty `user`, else built from the identifier. */
  function MakeUser(user: Option<string>, draw: RandomDraw): (u: Option<UserData>)
    ensures u.None? <==> user.None? || user.value == ""
    ensures u.Some? ==> && u.value.id == user.value
                        && u.value.name == "사용자" + user.value
                        && u.value.email == "user" + user.value + "@example.com"
                        && u.value.joinDate == "2023-12-01"
                        && 1 <= u.value.postCount <= 20
  {
    if user.Some? && user.value != "" then
      Some(UserData(user.value, "사용자" + user.value, "user" + user.value + "@example.com",
                    "2023-12-01", PostCount(draw)))
    else
      None
  }

  const BlogName: string := "SvelteKit 블로그"

  /** `pageTitle`. */
  function PageTitle(q: string): (t: string)
    ensures q != "" ==> t == "검색: " + q + " | " + BlogName
    ensures q == "" ==> t == BlogName
    ensures t == BlogName <==> q == ""
    ensures |BlogName| <= |t| && t[|t| - |BlogName|..] == BlogName
  {
    if q != "" then "검색: " + q + " | " + BlogName else BlogName
  }

  /** `pageDescription`. */
  function PageDescription(q: string): (d: string)
    ensures q != "" ==> d == "\"" + q + "\"에 대한 검색 결과"
    ensures q == "" ==> d == "SvelteKit으로 만든 멋진 블로그"
    ensures (d[0] == '"') <==> q != ""
  {
    if q != "" then "\"" + q + "\"에 대한 검색 결과" else "SvelteKit으로 만든 멋진 블로그"
  }

  const Keywords: seq<string> := ["svelte", "sveltekit", "typescript", "blog"]

  /** `Math.random() * 100 + 50`. */
  function LoadTime(draw: RandomDraw): (ms: real)
    ensures 50.0 <= ms < 150.0
  {
    draw * 100.0 + 50.0
  }

  // ---------------------------------------------------------------- load

  datatype Stats = Stats(totalPosts: nat, totalViews: int, totalUsers: int, lastUpdated: string)

  datatype Meta = Meta(title: string, description: string, keywords: seq<string>)

  datatype PageData = PageData(
    posts: seq<Post>,
    totalPosts: nat,
    featuredPosts: seq<Post>,
    categories: seq<Category>,
    weather: Weather,
    currentPage: int,
    totalPages: nat,
    hasNextPage: bool,
    hasPrevPage: bool,
    searchQuery: string,
    category: string,
    userData: Option<UserData>,
    stats: Stats,
    meta: Meta,
    timestamp: string,
    loadTime: real)

  /** The page-load pipeline. */
  function Load(params: QueryParams, env: Environment): (r: PageData)
    ensures r.searchQuery == TextParam(params.q) && r.category == TextParam(params.category)
    ensures r.currentPage == CoercePage(params.page) && r.currentPage != 0
    ensures r.totalPosts <= |DummyPosts|
    ensures r.totalPages == TotalPages(r.totalPosts) && (r.totalPages == 0 <==> r.totalPosts == 0)
    ensures r.hasNextPage <==> r.currentPage < r.totalPages
    ensures r.hasPrevPage <==> r.currentPage > 1
    ensures |r.posts| <= PostsPerPage
    ensures forall k :: 0 <= k < |r.posts| ==> r.posts[k] in DummyPosts && Kept(r.posts[k], r.searchQuery, r.category)
    ensures r.featuredPosts == DummyPosts[..2]
    ensures r.categories == DummyCategories && r.weather == DummyWeather
    ensures r.stats.totalPosts == |DummyPosts| == 3
    ensures r.stats.lastUpdated == env.localDate && r.timestamp == env.isoTimestamp
    ensures r.userData == MakeUser(params.user, env.postCountDraw)
    ensures r.userData.None? <==> params.user.None? || params.user.value == ""
    ensures r.stats == Stats(3, 1234, 45, env.localDate) && r.meta.keywords == Keywords
    ensures r.meta.title == PageTitle(r.searchQuery) && r.meta.description == PageDescription(r.searchQuery)
    ensures 50.0 <= r.loadTime < 150.0
  {
    var searchQuery := TextParam(params.q);
    var page := CoercePage(params.page);
    var category := TextParam(params.category);
    var filteredPosts := CategoryFilter(SearchFilter(DummyPosts, searchQuery), category);
    var totalPages := TotalPages(|filteredPosts|);
    var startIndex := StartIndex(page);
    var paginatedPosts := Slice(filteredPosts, startIndex, startIndex + PostsPerPage);
    var featuredPosts := Slice(DummyPosts, 0, 2);
    var userData := MakeUser(params.user, env.postCountDraw);
    var stats := Stats(|DummyPosts|, 1234, 45, env.localDate);
    PageData(
      paginatedPosts, |filteredPosts|, featuredPosts, DummyCategories, DummyWeather,
      page, totalPages, page < totalPages, page > 1,
      searchQuery, category, userData, stats,
      Meta(PageTitle(searchQuery), PageDescription(searchQuery), Keywords),
      env.isoTimestamp, LoadTime(env.loadTimeDraw))
  }

  // -------------------------------------------------------------- lemmas

  /**
   * Every text includes the empty string. So the `if (searchQuery)` guard
   * changes nothing: the search test with an empty query keeps every post.
   * The `if (category)` guard does matter: the tag test with an empty
   * category still drops the posts that have no tags.
   */
  lemma EmptyNeedle(posts: seq<Post>)
    ensures Filter(posts, p => MatchesSearch(p, Lower(""))) == posts
    ensures Filter(posts, p => MatchesCategory(p, Lower(""))) == Filter(posts, (p: Post) => p.tags != [])
  {
    forall k | 0 <= k < |posts|
      ensures MatchesSearch(posts[k], Lower(""))
      ensures MatchesCategory(posts[k], Lower("")) == (posts[k].tags != [])
    {
      assert Includes(Lower(posts[k].title), Lower(""));
      if posts[k].tags != [] {
        assert Includes(Lower(posts[k].tags[0]), Lower(""));
      }
    }
    FilterAllKept(posts, p => MatchesSearch(p, Lower("")));
    FilterAgree(posts, p => MatchesCategory(p, Lower("")), (p: Post) => p.tags != []);
  }

  /** The two filter stages together are one filter by `Kept`. */
  lemma StagesAreOneFilter(posts: seq<Post>, q: string, category: string)
    ensures CategoryFilter(SearchFilter(posts, q), category) == Filter(posts, p => Kept(p, q, category))
  {
    var search := p => MatchesSearch(p, Lower(q));
    var tag := p => MatchesCategory(p, Lower(category));
    var kept := p => Kept(p, q, category);
    if q == "" && category == "" {
      FilterAllKept(posts, kept);
    } else if q == "" {
      FilterAgree(posts, tag, kept);
    } else if category == "" {
      FilterAgree(posts, search, kept);
    } else {
      FilterFilter(posts, search, tag, kept);
    }
  }

  /**
   * `filteredPosts` keeps the order of `dummyPosts` and holds exactly the
   * posts that pass both tests, each as often as in `dummyPosts`; its
   * length is the response's `totalPosts`.
   */
  lemma FilteredExactly(params: QueryParams, env: Environment, x: Post)
    ensures IsSubsequence(Filtered(params), DummyPosts)
    ensures multiset(Filtered(params))[x] ==
      if Kept(x, TextParam(params.q), TextParam(params.category)) then multiset(DummyPosts)[x] else 0
    ensures Load(params, env).totalPosts == |Filtered(params)|
  {
    var kept := p => Kept(p, TextParam(params.q), TextParam(params.category));
    StagesAreOneFilter(DummyPosts, TextParam(params.q), TextParam(params.category));
    FilterIsSubsequence(DummyPosts, kept);
    FilterMultiplicity(DummyPosts, kept, x);
  }

  /**
   * For a page numbered from 1, `posts` is the clamped two-post window of
   * `filteredPosts` at `(page - 1) * 2`, empty exactly past the last page.
   */
  lemma LoadPageWindow(params: QueryParams, env: Environment)
    requires CoercePage(params.page) >= 1
    ensures var r := Load(params, env);
      var n := |Filtered(params)|;
      && r.posts == Filtered(params)[Min(StartIndex(r.currentPage), n)..Min(StartIndex(r.currentPage) + PostsPerPage, n)]
      && (r.posts == [] <==> r.currentPage > r.totalPages)
  {
    PageInRange(Filtered(params), CoercePage(params.page));
  }

  /**
   * A negative page is kept by `|| 1` and reaches `slice` with negative
   * bounds, which count back from the end of `filteredPosts`.
   */
  lemma LoadNegativePage(params: QueryParams, env: Environment)
    requires CoercePage(params.page) < 0
    ensures var r := Load(params, env);
      var n := |Filtered(params)|;
      && r.posts == Filtered(params)[Max(n + StartIndex(r.currentPage), 0)..Max(n + StartIndex(r.currentPage) + PostsPerPage, 0)]
      && !r.hasPrevPage && r.hasNextPage
  {
    NegativePage(Filtered(params), CoercePage(params.page));
  }

  /** The same request asking for page `page`. */
  function AtPage(params: QueryParams, page: int): QueryParams {
    params.(page := Some(Int(page)))
  }

  /** How `Load`'s pagination fields come from `filteredPosts`. */
  lemma LoadShape(params: QueryParams, env: Environment)
    ensures var r := Load(params, env);
      && r.posts == PageOf(Filtered(params), r.currentPage)
      && r.totalPosts == |Filtered(params)|
  {
  }

  lemma LoadPostsAt(params: QueryParams, env: Environment, page: int)
    requires page != 0
    ensures Load(AtPage(params, page), env).posts == PageOf(Filtered(params), page)
  {
    assert Filtered(AtPage(params, page)) == Filtered(params);
  }

  /** The `posts` of pages 1 .. m of one request, in order. */
  function LoadedPages(params: QueryParams, env: Environment, m: nat): (r: seq<seq<Post>>)
    ensures |r| == m
  {
    seq(m, i requires 0 <= i < m => Load(AtPage(params, i + 1), env).posts)
  }

  /** The loaded pages 1 .. m of one request are pages 1 .. m of its `filteredPosts`. */
  lemma LoadedPagesArePages(params: QueryParams, env: Environment, m: nat)
    ensures LoadedPages(params, env, m) == Pages(Filtered(params), m)
  {
    var pages := LoadedPages(params, env, m);
    forall i | 0 <= i < m
      ensures pages[i] == Pages(Filtered(params), m)[i]
    {
      LoadPostsAt(params, env, i + 1);
    }
  }

  /** Pages 1 .. totalPages of one request, concatenated, are its whole `filteredPosts`. */
  lemma LoadPagesCover(params: QueryParams, env: Environment)
    ensures Flatten(LoadedPages(params, env, Load(params, env).totalPages)) == Filtered(params)
  {
    LoadShape(params, env);
    LoadedPagesArePages(params, env, Load(params, env).totalPages);
    PagesCover(Filtered(params));
  }
}
