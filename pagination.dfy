/** Page arithmetic of the page-load pipeline: a fixed page size and `slice`. */
module Pagination {
  import opened Sequences

  /** `postsPerPage`. */
  const PostsPerPage: nat := 2

  /** `Math.ceil(n / postsPerPage)`, on integers. */
  function TotalPages(n: nat): (r: nat)
    ensures (r - 1) * PostsPerPage < n <= r * PostsPerPage
    ensures r == 0 <==> n == 0
  {
    (n + PostsPerPage - 1) / PostsPerPage
  }

  /** `startIndex`: where page `page` begins, before `slice` normalises it. */
  function StartIndex(page: int): (i: int)
    ensures i % PostsPerPage == 0
    ensures i >= 0 <==> page >= 1
  {
    (page - 1) * PostsPerPage
  }

  /** `slice(startIndex, startIndex + postsPerPage)`. */
  function PageOf<T>(s: seq<T>, page: int): (r: seq<T>)
    ensures |r| <= PostsPerPage
    ensures exists i :: SegmentAt(r, s, i)
  {
    Slice(s, StartIndex(page), StartIndex(page) + PostsPerPage)
  }

  /**
   * A page numbered from 1 is the clamped window of `PostsPerPage` elements
   * at its start index; it is empty exactly when it lies past the last page.
   */
  lemma PageInRange<T>(s: seq<T>, page: int)
    requires page >= 1
    ensures PageOf(s, page) == s[Min(StartIndex(page), |s|)..Min(StartIndex(page) + PostsPerPage, |s|)]
    ensures |PageOf(s, page)| <= PostsPerPage
    ensures StartIndex(page) >= |s| ==> PageOf(s, page) == []
    ensures PageOf(s, page) == [] <==> page > TotalPages(|s|)
  {
  }

  /**
   * A negative page is not rejected: `slice` counts both bounds back from
   * the end of the sequence.
   */
  lemma NegativePage<T>(s: seq<T>, page: int)
    requires page <= -1
    ensures PageOf(s, page) == s[Max(|s| + StartIndex(page), 0)..Max(|s| + StartIndex(page) + PostsPerPage, 0)]
    ensures |PageOf(s, page)| <= PostsPerPage
  {
  }

  /** Pages 1 .. m, in order. */
  function Pages<T>(s: seq<T>, m: nat): (r: seq<seq<T>>)
    ensures |r| == m
    ensures forall i :: 0 <= i < m ==> r[i] == PageOf(s, i + 1)
  {
    seq(m, i requires 0 <= i < m => PageOf(s, i + 1))
  }

  /** The first m pages together are the first m * PostsPerPage elements. */
  lemma {:induction false} PagesPrefix<T>(s: seq<T>, m: nat)
    ensures Flatten(Pages(s, m)) == s[..Min(m * PostsPerPage, |s|)]
  {
    if m > 0 {
      PagesPrefix(s, m - 1);
      assert Pages(s, m)[..m - 1] == Pages(s, m - 1);
      PageInRange(s, m);
    }
  }

  /** Pages 1 .. TotalPages, concatenated, give back the whole sequence. */
  lemma PagesCover<T>(s: seq<T>)
    ensures Flatten(Pages(s, TotalPages(|s|))) == s
  {
    PagesPrefix(s, TotalPages(|s|));
  }
}
