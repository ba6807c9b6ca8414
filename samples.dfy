/** The home page's `load` on concrete requests against its fixed datasets. */
module HomePageSamples {
  import opened Wrappers
  import opened Text
  import opened Sequences
  import opened Pagination
  import opened HomePage

  /** A request with no query parameters at all. */
  const NoParams: QueryParams := QueryParams(None, None, None, None)

  /** No tag, lowered, includes a needle holding the letter `c`, when no tag holds `c` or `up`. */
  lemma NoTagIncludes(tags: seq<string>, needle: string, c: char, up: char)
    requires c in needle && !IsUpper(c)
    requires forall u :: IsUpper(u) && LowerChar(u) == c ==> u == up
    requires forall i :: 0 <= i < |tags| ==> Lacks(tags[i], c, up)
    ensures !SomeTagIncludes(tags, needle)
  {
    forall i | 0 <= i < |tags| ensures !Includes(Lower(tags[i]), needle) {
      LoweredLacks(tags[i], c, up);
      MissingCharNotIncluded(Lower(tags[i]), needle, c);
    }
  }

  /** No post text, lowered, includes a needle holding the letter `c`, when no text holds `c` or `up`. */
  lemma NoSearchMatch(post: Post, needle: string, c: char, up: char)
    requires c in needle && !IsUpper(c)
    requires forall u :: IsUpper(u) && LowerChar(u) == c ==> u == up
    requires Lacks(post.title, c, up) && Lacks(post.content, c, up)
    requires forall i :: 0 <= i < |post.tags| ==> Lacks(post.tags[i], c, up)
    ensures !MatchesSearch(post, needle)
  {
    LoweredLacks(post.title, c, up);
    MissingCharNotIncluded(Lower(post.title), needle, c);
    LoweredLacks(post.content, c, up);
    MissingCharNotIncluded(Lower(post.content), needle, c);
    NoTagIncludes(post.tags, needle, c, up);
  }

  /** `[x]` when `x` passes `keep`, else nothing. */
  function IfKept<T>(x: T, keep: T -> bool): seq<T> {
    if keep(x) then [x] else []
  }

  lemma FilterCons<T>(s: seq<T>, keep: T -> bool)
    requires s != []
    ensures Filter(s, keep) == IfKept(s[0], keep) + Filter(s[1..], keep)
  {
  }

  /** Filtering three elements, spelled out. */
  lemma FilterOfThree<T>(x: T, y: T, z: T, keep: T -> bool)
    ensures Filter([x, y, z], keep) == IfKept(x, keep) + IfKept(y, keep) + IfKept(z, keep)
  {
    assert [x, y, z][1..] == [y, z];
    assert [y, z][1..] == [z];
    assert [z][1..] == [];
    FilterCons([z], keep);
    FilterCons([y, z], keep);
    FilterCons([x, y, z], keep);
  }

  /** Filtering the posts by `keep`, spelled out post by post. */
  lemma FilterPosts(keep: Post -> bool)
    ensures Filter(DummyPosts, keep) ==
      IfKept(DummyPosts[0], keep) + IfKept(DummyPosts[1], keep) + IfKept(DummyPosts[2], keep)
  {
    assert DummyPosts == [DummyPosts[0], DummyPosts[1], DummyPosts[2]];
    FilterOfThree(DummyPosts[0], DummyPosts[1], DummyPosts[2], keep);
  }

  /** The search stage for "SVELTE" keeps only the first post: the test ignores case. */
  lemma SearchSvelteFiltered()
    ensures SearchFilter(DummyPosts, "SVELTE") == [DummyPosts[0]]
  {
    assert Lower("SVELTE") == "svelte";
    var keep := p => MatchesSearch(p, "svelte");
    FirstPostSvelte();
    SecondPostNotSvelte();
    ThirdPostNotSvelte();
    FilterPosts(keep);
  }

  /** The first post's first tag is "svelte". */
  lemma FirstPostSvelte()
    ensures MatchesSearch(DummyPosts[0], "svelte")
  {
    assert Includes(Lower(DummyPosts[0].tags[0]), "svelte");
  }

  /** The second post has no letter l in any text, so "svelte" does not match it. */
  lemma SecondPostNotSvelte()
    ensures !MatchesSearch(DummyPosts[1], "svelte")
  {
    var post := DummyPosts[1];
    assert Lacks(post.title, 'l', 'L');
    assert Lacks(post.content, 'l', 'L');
    assert Lacks(post.tags[0], 'l', 'L') && Lacks(post.tags[1], 'l', 'L');
    NoSearchMatch(post, "svelte", 'l', 'L');
  }

  /** The third post has no letter l in any text, so "svelte" does not match it. */
  lemma ThirdPostNotSvelte()
    ensures !MatchesSearch(DummyPosts[2], "svelte")
  {
    var post := DummyPosts[2];
    assert Lacks(post.title, 'l', 'L');
    assert Lacks(post.content, 'l', 'L');
    assert Lacks(post.tags[0], 'l', 'L') && Lacks(post.tags[1], 'l', 'L');
    NoSearchMatch(post, "svelte", 'l', 'L');
  }

  /** Searching "SVELTE" shows only the first post, on a single page. */
  lemma SearchSvelte(env: Environment)
    ensures var r := Load(NoParams.(q := Some("SVELTE")), env);
      r.posts == [DummyPosts[0]] && r.totalPosts == 1 && r.totalPages == 1 && !r.hasNextPage
  {
    var params := NoParams.(q := Some("SVELTE"));
    SearchSvelteFiltered();
    assert Filtered(params) == [DummyPosts[0]];
    LoadShape(params, env);
  }

  /** The category stage for "typescript" keeps only the second post, whose tag holds that text. */
  lemma CategoryTypescriptFiltered()
    ensures CategoryFilter(DummyPosts, "typescript") == [DummyPosts[1]]
  {
    assert Lower("typescript") == "typescript";
    var keep := p => MatchesCategory(p, "typescript");
    SecondPostTypescript();
    PostNotTypescript(0);
    PostNotTypescript(2);
    FilterPosts(keep);
  }

  /** The first and third posts have no letter y in any tag, so "typescript" is not their category. */
  lemma PostNotTypescript(k: nat)
    requires k == 0 || k == 2
    ensures !MatchesCategory(DummyPosts[k], "typescript")
  {
    var tags := DummyPosts[k].tags;
    assert Lacks(tags[0], 'y', 'Y') && Lacks(tags[1], 'y', 'Y');
    NoTagIncludes(tags, "typescript", 'y', 'Y');
  }

  /** The second post's first tag is "typescript". */
  lemma SecondPostTypescript()
    ensures MatchesCategory(DummyPosts[1], "typescript")
  {
    assert Includes(Lower(DummyPosts[1].tags[0]), "typescript");
  }

  /** Filtering by the category "typescript" shows only the second post. */
  lemma CategoryTypescript(env: Environment)
    ensures var r := Load(NoParams.(category := Some("typescript")), env);
      r.posts == [DummyPosts[1]] && r.totalPosts == 1
  {
    var params := NoParams.(category := Some("typescript"));
    CategoryTypescriptFiltered();
    assert Filtered(params) == [DummyPosts[1]];
    LoadShape(params, env);
  }

  /** No tag holds the character 프, so the category stage for "프론트엔드" keeps nothing. */
  lemma CategoryNameFiltered()
    ensures CategoryFilter(DummyPosts, "프론트엔드") == []
  {
    assert Lower("프론트엔드") == "프론트엔드";
    var keep := p => MatchesCategory(p, "프론트엔드");
    NoTagIncludes(DummyPosts[0].tags, "프론트엔드", '프', '프');
    NoTagIncludes(DummyPosts[1].tags, "프론트엔드", '프', '프');
    NoTagIncludes(DummyPosts[2].tags, "프론트엔드", '프', '프');
    FilterPosts(keep);
  }

  /**
   * The name of a category from the category list matches no post: the
   * category filter looks at post tags only.
   */
  lemma CategoryNameMatchesNothing(env: Environment)
    ensures DummyCategories[0].name == "프론트엔드"
    ensures var r := Load(NoParams.(category := Some("프론트엔드")), env);
      r.posts == [] && r.totalPosts == 0 && r.totalPages == 0 && !r.hasNextPage && !r.hasPrevPage
  {
    var params := NoParams.(category := Some("프론트엔드"));
    CategoryNameFiltered();
    assert Filtered(params) == [];
    LoadShape(params, env);
  }

  /** Page 2 of the unfiltered list holds only the third post and is the last page. */
  lemma SecondPage(env: Environment)
    ensures var r := Load(NoParams.(page := Some(Int(2))), env);
      && r.posts == [DummyPosts[2]] && r.totalPosts == 3 && r.totalPages == 2
      && !r.hasNextPage && r.hasPrevPage
  {
    var params := NoParams.(page := Some(Int(2)));
    assert Filtered(params) == DummyPosts;
    LoadShape(params, env);
  }

  /** Page 3 of the unfiltered list is past the end: empty, and not an error. */
  lemma PastLastPage(env: Environment)
    ensures var r := Load(NoParams.(page := Some(Int(3))), env);
      r.posts == [] && !r.hasNextPage && r.hasPrevPage
  {
    var params := NoParams.(page := Some(Int(3)));
    assert Filtered(params) == DummyPosts;
    LoadShape(params, env);
  }

  /** A missing page parameter, `page=0` and a page that is not a number all show page 1: the first two posts. */
  lemma DefaultPage(env: Environment)
    ensures Load(NoParams, env).currentPage == 1 && Load(NoParams, env).posts == DummyPosts[..2]
    ensures var r := Load(NoParams.(page := Some(Int(0))), env);
      r.currentPage == 1 && r.posts == DummyPosts[..2]
    ensures var r := Load(NoParams.(page := Some(NaN)), env);
      r.currentPage == 1 && r.posts == DummyPosts[..2]
  {
    assert Filtered(NoParams) == DummyPosts;
    LoadShape(NoParams, env);
    assert Filtered(NoParams.(page := Some(Int(0)))) == DummyPosts;
    LoadShape(NoParams.(page := Some(Int(0))), env);
    assert Filtered(NoParams.(page := Some(NaN))) == DummyPosts;
    LoadShape(NoParams.(page := Some(NaN)), env);
  }

  /**
   * `page=-1` is not turned into 1: `slice(-4, -2)` on three posts is
   * `slice(0, 1)`, so the page shows the first post and claims a next page.
   */
  lemma MinusFirstPage(env: Environment)
    ensures var r := Load(NoParams.(page := Some(Int(-1))), env);
      && r.currentPage == -1 && r.posts == [DummyPosts[0]]
      && r.hasNextPage && !r.hasPrevPage
  {
    var params := NoParams.(page := Some(Int(-1)));
    assert Filtered(params) == DummyPosts;
    LoadShape(params, env);
  }

  /** `user=42` yields the user record built from "42". */
  lemma UserFortyTwo(env: Environment)
    ensures var u := Load(NoParams.(user := Some("42")), env).userData;
      && u.Some? && u.value.name == "사용자42" && u.value.email == "user42@example.com"
      && 1 <= u.value.postCount <= 20
  {
  }
}
