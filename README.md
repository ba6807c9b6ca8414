# Home page `load` of a SvelteKit blog, in Dafny

This project models the home page's page-load function of a small SvelteKit
blog (`src/routes/+page.ts`). The function reads four query parameters
(`q`, `page`, `category`, `user`) and builds the page's data from three fixed
in-memory datasets: three posts, four categories and one weather snapshot.
It does this in stages:

1. It coerces the parameters. `get(..) || ''` gives the texts, and
   `Number(get('page')) || 1` gives the page number.
2. A search filter keeps the posts whose lower-cased title, content or some
   tag includes the lower-cased query.
3. A category filter keeps the posts with some lower-cased tag that includes
   the lower-cased category. It matches tags only and never looks at the
   category list.
4. It paginates with `slice` at a fixed page size of 2. It also computes
   `totalPages = Math.ceil(n / 2)`, `hasNextPage` and `hasPrevPage`.
5. The featured posts are always the first two posts of the unfiltered list.
6. An optional user record is built from the `user` identifier.
7. The page title and description depend on whether there is a query.
8. It adds fixed stats, a timestamp and a simulated load time.

The model is pure, like the source. Every stage is a Dafny function, and the
properties are `ensures` clauses and lemmas.

- `wrappers.dfy` (`Wrappers`): `Option`, for absent parameters and the null
  user record.
- `text.dfy` (`Text`):
  - `Lower` models `toLowerCase` on ASCII only.
  - `Includes` models `String.prototype.includes` as a left-to-right prefix
    scan.
  - `Contains` is the independent definition "occurs at some index".
- `sequences.dfy` (`Sequences`):
  - `Filter` has the semantics of `Array.prototype.filter`.
  - `Slice` has the semantics of `Array.prototype.slice` for integer
    arguments, including the normalisation of negative indices.
  - `IsSubsequence` states "order-preserving subsequence".
- `pagination.dfy` (`Pagination`): the page size, `TotalPages`, the page
  window, and the proof that the pages concatenate back to the list.
- `home_page.dfy` (`HomePage`): the datasets, the parameter records,
  coercion, the two filter stages, the user record, the meta strings,
  `Load`, and the lemmas about `Load`.
- `samples.dfy` (`HomePageSamples`): `Load` on concrete requests against the
  fixed data.

`Load` takes the parameters already extracted from the URL, as a
`QueryParams` record. A text parameter is an `Option<string>`, where `None` is
what `searchParams.get` reports as null. The page parameter is the value that
`Number(...)` produced: `NaN` or an integer. `None` stands for an absent
parameter, because `Number(null)` is 0. The clock readings and the two
`Math.random()` draws arrive in an `Environment` record.

`Number(x) || 1` replaces only 0 and NaN with 1, so a negative page is kept:
- A negative page is kept as the current page.
- `slice` then counts its negative bounds back from the end (`NegativePage`,
  `LoadNegativePage`). So `page=-1` on three posts shows the first post
  (`MinusFirstPage`).
- `hasNextPage` is always true on a negative page, and `hasPrevPage` is
  always false.

Two more consequences of the code as written are proved:
- The `if (searchQuery)` guard is redundant, because every text includes the
  empty string.
- The `if (category)` guard is not redundant: a filter by the empty category
  would still drop posts that have no tags (`EmptyNeedle`).

## Model

| member | source | states |
|---|---|---|
| `Text.LowerChar` | src/routes/+page.ts:65-67 | the lowered character is never an upper-case letter; A-Z map to a-z, and every other character is unchanged |
| `Text.Lower` | src/routes/+page.ts:65-67 | the lowered text has the same length as the input, and each position holds the lowered character at that position |
| `Text.Includes` | src/routes/+page.ts:65-67 | a found needle is never longer than the text; the empty needle and any prefix are always found |
| `Text.IncludesIsContains` | src/routes/+page.ts:65-67 | the scan finds the needle exactly when it occurs at some index of the text (both directions) |
| `Text.MissingCharNotIncluded` | src/routes/+page.ts:65-67 | a needle holding a character that the text lacks is never found |
| `Text.LoweredLacks` | src/routes/+page.ts:65-67 | a character that lowering makes only from itself and one upper-case letter is absent from the lowered text when the text has neither |
| `Sequences.Filter` | src/routes/+page.ts:63-68 | the result is no longer than the input; every kept element is from the input and passes the test; every element of the input that passes is kept |
| `Sequences.FilterIsSubsequence` | src/routes/+page.ts:63-68 | filtering keeps the input's order: the result is a subsequence of the input |
| `Sequences.FilterMultiplicity` | src/routes/+page.ts:63-68 | a passing element is kept as many times as it occurs; a failing one is dropped entirely |
| `Sequences.FilterAllKept` | src/routes/+page.ts:63-68 | a filter that every element passes returns its input unchanged |
| `Sequences.FilterAgree` | src/routes/+page.ts:63-68 | two tests that agree on every element give the same filtered list |
| `Sequences.FilterFilter` | src/routes/+page.ts:61-76 | filtering by one test and then by another equals filtering once by their conjunction |
| `Sequences.RelativeIndex` | src/routes/+page.ts:82 | a slice bound becomes a position in 0..len: a non-negative one is clamped to len, a negative one counts back from the end and is clamped to 0 |
| `Sequences.Slice` | src/routes/+page.ts:82 | slicing never fails, is never longer than the input and yields a contiguous piece of it; with bounds 0 <= start <= end it is the clamped window; with two negative bounds it is the window counted from the end; when start <= end and the bounds are both non-negative or both negative it is never longer than end - start |
| `Pagination.TotalPages` | src/routes/+page.ts:79-80 | integer ceiling of n / 2: (r - 1) * 2 < n <= r * 2, and r is 0 exactly when n is 0 |
| `Pagination.StartIndex` | src/routes/+page.ts:81 | the start index is a multiple of the page size, and it is non-negative exactly when page >= 1 |
| `Pagination.PageOf` | src/routes/+page.ts:81-82 | a page holds at most 2 elements and is a contiguous piece of the list, for every page number |
| `Pagination.PageInRange` | src/routes/+page.ts:79-82 | for page >= 1 the page is the clamped window at (page - 1) * 2, holds at most 2 posts, is empty when the start index is past the end, and is empty exactly when page > totalPages |
| `Pagination.NegativePage` | src/routes/+page.ts:81-82 | for page <= -1 both slice bounds count back from the end, and the page still holds at most 2 posts |
| `Pagination.PagesPrefix` | src/routes/+page.ts:79-82 | pages 1..m concatenated are the first min(2m, n) elements |
| `Pagination.PagesCover` | src/routes/+page.ts:79-82 | pages 1..totalPages concatenated give back the whole list |
| `HomePage.TextParam` | src/routes/+page.ts:56-58 | a present text is kept and an absent one becomes ""; the result is "" exactly when the parameter is absent or empty |
| `HomePage.CoercePage` | src/routes/+page.ts:57 | the page is never 0; an absent, NaN or zero number gives 1; any other integer, negatives included, is kept |
| `HomePage.SearchFilter` | src/routes/+page.ts:61-69 | an empty query keeps the list; the result is an order-preserving subsequence; a post is kept exactly when it matches the lower-cased query |
| `HomePage.CategoryFilter` | src/routes/+page.ts:72-76 | an empty category keeps the list; the result is an order-preserving subsequence; a post is kept exactly when some lower-cased tag includes the lower-cased category |
| `HomePage.SomeTagIncludes` | src/routes/+page.ts:67-74 | the tag scan succeeds exactly when the needle occurs at some index of some lowered tag |
| `HomePage.MatchesSearch` | src/routes/+page.ts:64-67 | the search test holds exactly when the needle occurs in the lowered title, in the lowered content or in some lowered tag, in the occurs-at-an-index sense |
| `HomePage.MatchesCategory` | src/routes/+page.ts:74 | the category test holds exactly when the needle occurs in some lowered tag; it reads nothing but the post's tags |
| `HomePage.Filtered` | src/routes/+page.ts:61-76 | `filteredPosts` keeps the order of `dummyPosts`, holds only posts of `dummyPosts` that pass both tests, and holds every post of `dummyPosts` that passes both |
| `HomePage.EmptyNeedle` | src/routes/+page.ts:61-76 | the search test with an empty query keeps every post; the tag test with an empty category keeps exactly the posts that have tags |
| `HomePage.StagesAreOneFilter` | src/routes/+page.ts:61-76 | the search stage followed by the category stage equals one filter by the conjunction of the two tests |
| `HomePage.FilteredExactly` | src/routes/+page.ts:61-76 | `filteredPosts` is a subsequence of `dummyPosts` and holds each post that passes both tests as often as `dummyPosts` does, and no other; `totalPosts` is its length |
| `HomePage.PostCount` | src/routes/+page.ts:96 | the simulated post count lies in 1..20 for every draw in [0, 1) |
| `HomePage.MakeUser` | src/routes/+page.ts:88-98 | the record is null exactly when `user` is absent or empty; otherwise its id, name, email and join date are built from the identifier, and its post count lies in 1..20 |
| `HomePage.PageTitle` | src/routes/+page.ts:101 | "검색: ", the query, " ", a bar and the blog name for a query, "SvelteKit 블로그" without one; the title is the bare blog name exactly when there is no query, and it always ends with the blog name |
| `HomePage.PageDescription` | src/routes/+page.ts:102-104 | the quoted-query description for a query, else the fixed blog description; it opens with a quote mark exactly when there is a query |
| `HomePage.LoadTime` | src/routes/+page.ts:147 | the simulated load time lies in [50, 150) |
| `HomePage.Load` | src/routes/+page.ts:51-149 | echoes the coerced query and category; the current page is the coerced page, never 0; at most 2 posts, each from `dummyPosts` and passing both filters; `totalPages` is the ceiling of `totalPosts` / 2; `hasNextPage` iff page < totalPages; `hasPrevPage` iff page > 1; featured posts are always the first two posts; categories and weather are passed through; the stats are the fixed figures 3, 1234 and 45 with the given date; the keywords are fixed; `userData` is the user record built from `user` and the draw, null iff `user` is absent or empty |
| `HomePage.LoadShape` | src/routes/+page.ts:79-82 | `posts` is the current page of `filteredPosts`, and `totalPosts` is its length |
| `HomePage.LoadPageWindow` | src/routes/+page.ts:79-82 | for page >= 1, `posts` is `filteredPosts[min((page-1)*2, n) .. min((page-1)*2+2, n)]`, and it is empty exactly when page > totalPages |
| `HomePage.LoadNegativePage` | src/routes/+page.ts:57-126 | a negative page shows the window counted back from the end of `filteredPosts`, never has a previous page, and always claims a next page |
| `HomePage.LoadPostsAt` | src/routes/+page.ts:79-82 | the posts of page p (p != 0) of a request are page p of that request's `filteredPosts` |
| `HomePage.LoadPagesCover` | src/routes/+page.ts:79-82 | the `posts` of pages 1..totalPages of one request, concatenated, are its whole `filteredPosts` |
| `HomePageSamples.FilterOfThree` | src/routes/+page.ts:63 | filtering three elements keeps each one that passes, in order |
| `HomePageSamples.NoSearchMatch` | src/routes/+page.ts:63-68 | a post none of whose texts holds a letter of the needle, in either case, does not match the search |
| `HomePageSamples.SearchSvelteFiltered` | src/routes/+page.ts:61-69 | the search for "SVELTE" keeps only the first post, although the query is upper-case |
| `HomePageSamples.SearchSvelte` | src/routes/+page.ts:61-126 | `q=SVELTE` shows only the first post, on one page with no next page |
| `HomePageSamples.CategoryTypescript` | src/routes/+page.ts:72-82 | `category=typescript` shows only the second post |
| `HomePageSamples.CategoryNameMatchesNothing` | src/routes/+page.ts:35-82 | the first category's own name, used as `category`, matches no post: nothing is shown and there are 0 pages |
| `HomePageSamples.SecondPage` | src/routes/+page.ts:79-126 | page 2 of the three posts holds only the third post; it is the last page and has a previous one |
| `HomePageSamples.PastLastPage` | src/routes/+page.ts:79-126 | page 3 of the three posts is empty and not an error |
| `HomePageSamples.DefaultPage` | src/routes/+page.ts:57-82 | no page, `page=0` and a non-numeric page each give current page 1 and show the first two posts |
| `HomePageSamples.MinusFirstPage` | src/routes/+page.ts:57-126 | `page=-1` stays -1, shows the first post and claims a next page |
| `HomePageSamples.UserFortyTwo` | src/routes/+page.ts:88-98 | `user=42` gives the name "사용자42" and the email "user42@example.com" |

## Left out

- Framework plumbing is not modelled: the `PageLoad` type, `async`, `depends('app:homepage')`, and the `prerender` and `ssr` flags. They are configuration and calls into SvelteKit.
- URL and `searchParams` parsing is not modelled, and neither is JavaScript's general `Number()` string parsing. `Load` receives the extracted texts and the number that `Number` produced.
- `HomePage.CoercePage`: the page number is an integer or NaN. Fractional pages ("2.5"), `Infinity` and `-0` are floating-point values and are not represented.
- `Text.Lower`: only the ASCII letters A-Z are lowered. `toLowerCase` applies full Unicode case mapping, which is not modelled. The sample data's Korean text has no case, so the samples are unaffected.
- `HomePage.PostCount` and `HomePage.LoadTime`: `Math.random()` is a parameter in [0, 1), and the arithmetic is on exact reals rather than IEEE doubles.
- The clock is a parameter: `new Date().toLocaleDateString('ko-KR')` and `toISOString()` arrive as ready-made texts, because locale formatting and time are outside the model.
- The weather snapshot is an opaque constant that is passed through. Its wind speed 3.2 is a Dafny `real`, not a double.
- `Pagination.TotalPages`: `Math.ceil` of a float division is modelled as integer ceiling division. The two agree for every non-negative integer count.
- In JavaScript, `featuredPosts` and `posts` share object references with `dummyPosts`. The model compares posts as values, so sharing and identity are not represented.
