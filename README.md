# una-boot front controller, modelled in Dafny

This project models `FrontController` of una-boot, a Spring MVC content site.
The controller maps request paths to categories, tags, posts, archives and
search results, and picks a template of the active theme for each. It also
holds the visit-counter cache: an in-memory count of each post's views not yet
saved, added to the post's durable `visits` and written through the post
service once it exceeds 50.

Modules:

- `JavaStrings` (`java_strings.dfy`): `StringUtils.isBlank`, `Character.isWhitespace`, and
  `String.indexOf` for a substring, and for a one-character string such as `"."` as a search for that character (the two are proved to agree).
- `Views` (`views.dfy`): the outcome of a handler (a rendered path, a redirect, or an
  escaping exception) and `view`, which builds `/themes/<theme name>/<template up to its first dot>`.
- `VisitCache` (`visit_cache.dfy`): one view of a post as a function on the cache (`Hit`).
  A value model of many views (`Tally`, `Replay`) carries the properties
  proved over sequences of calls: conservation, isolation, bounds, monotonicity
  and the closed form of repeated views.
- `Front` (`front_controller.dfy`): the handlers `index`, `category`, `tags`, `tag`
  (archives), `guide`, `search` and `post`. The service lookups are function
  parameters. The `FrontController` class holds the "dayHits" cache as a map
  field and a log of the post service's `update` calls. Its methods
  `VisitsCache` and `HandlePost` change the cache, the log and the viewed
  `Post` object in place.

Java exceptions that escape a handler are modelled as `Fault` outcomes:
- a missing theme makes `theme.getName()` throw;
- a template without a dot makes `substring(0, -1)` throw;
- a URI shorter than 4 characters without `post/` makes `substring` throw;
- a negative page index makes `PageRequest.of` throw.

Java's `int` arithmetic on the search offset is modelled as well:
`offset - 1` wraps at `Integer.MIN_VALUE`.

Notes on the code's behaviour:
- The path has a leading slash: `/themes/classic/index`, not `themes/classic/index`.
- A post is hidden only when its status is exactly 0.
- A blank search keyword sets `posts` to null; it does not produce an empty list.
- A failed flush is not retried without double counting. The code has no such policy.
- The cache is not safe for concurrent use. The code never claims it is.

## Model

| member | source | states |
|---|---|---|
| `JavaStrings.IndexOf` | src/main/java/com/ramostear/unaboot/web/FrontController.java:178 | the result is -1 exactly when the character is absent; otherwise it is a position holding the character with no earlier occurrence |
| `JavaStrings.IsBlank` | src/main/java/com/ramostear/unaboot/web/FrontController.java:111 | `StringUtils.isBlank` on a non-null string: true exactly when every character is Java whitespace, so the empty string is blank (also used at :115, :132 and :157) |
| `JavaStrings.BlankConcat` | src/main/java/com/ramostear/unaboot/web/FrontController.java:111 | a concatenation is blank exactly when both parts are; it shows a URI `/post/<slug>` is never blank |
| `JavaStrings.IndexOfAgreesWithFind` | src/main/java/com/ramostear/unaboot/web/FrontController.java:178 | searching for a character gives the same position as searching for the one-character string, so `IndexOf(s, '.')` is `indexOf(".")` |
| `JavaStrings.Find` | src/main/java/com/ramostear/unaboot/web/FrontController.java:114 | the result is an occurrence of the pattern at or before every other occurrence, or -1 when there is none |
| `Views.View` | src/main/java/com/ramostear/unaboot/web/FrontController.java:176-179 | a missing theme and a template without a dot each give their exception; otherwise the path is the theme directory followed by the template cut before its first dot |
| `Views.ViewOfStem` | src/main/java/com/ramostear/unaboot/web/FrontController.java:178 | a template `stem.ext`, with no dot in `stem`, renders as the theme directory plus `stem` |
| `Views.ViewIgnoresExtension` | src/main/java/com/ramostear/unaboot/web/FrontController.java:178 | two templates that differ only after their first dot render the same path |
| `VisitCache.Hit` | src/main/java/com/ramostear/unaboot/web/FrontController.java:181-199 | the pending count rises by one; the call flushes exactly when that count exceeds 50; below it the durable count is unchanged, above it the whole batch is added and the entry removed; the returned value is the durable count after the call; durable plus pending rises by exactly one; the durable count never falls; other posts are untouched; entries stay in 1..50, and then a flush adds exactly 51 |
| `VisitCache.Record` | src/main/java/com/ramostear/unaboot/web/FrontController.java:190-193 | one view through the cache and the post service: it is counted once; below the threshold it stays pending and the durable count is unchanged; a flushing view adds the whole pending batch to the durable count, removes the entry and writes the post once with its new durable count; other posts are untouched |
| `VisitCache.ReplayConserves` | src/main/java/com/ramostear/unaboot/web/FrontController.java:183-194 | after any sequence of views, each post's durable plus pending count has grown by exactly its number of views |
| `VisitCache.ReplayMonotone` | src/main/java/com/ramostear/unaboot/web/FrontController.java:190-191 | no sequence of views lowers a post's durable count |
| `VisitCache.ReplayIsolates` | src/main/java/com/ramostear/unaboot/web/FrontController.java:183-193 | a post that is not viewed keeps its durable count and its cache entry |
| `VisitCache.ReplayKeepsBounded` | src/main/java/com/ramostear/unaboot/web/FrontController.java:188-193 | entries stay within 1..50; writes are only appended, at most one per view, each for a post that was viewed |
| `VisitCache.RepeatedViews` | src/main/java/com/ramostear/unaboot/web/FrontController.java:183-194 | after n views of one post starting at pending p (0..50), (p+n) mod 51 views are pending, the rest are in the durable count, and exactly (p+n) div 51 writes were made, all of them for this post |
| `VisitCache.QuietBeforeThreshold` | src/main/java/com/ramostear/unaboot/web/FrontController.java:195-196 | from an empty entry, each of the first 50 views writes nothing and returns the durable count the post had at the start |
| `VisitCache.FlushOnBatch` | src/main/java/com/ramostear/unaboot/web/FrontController.java:190-194 | from an empty entry, the 51st view flushes: it adds 51, writes the post once with the new total, empties the entry and returns the new total |
| `Front.Index` | src/main/java/com/ramostear/unaboot/web/FrontController.java:61-64 | the home page is the theme's `index` template |
| `Front.IndexOfClassic` | src/main/java/com/ramostear/unaboot/web/FrontController.java:176-179 | with the theme "classic", the home page is `/themes/classic/index` |
| `Front.CategoryPage` | src/main/java/com/ramostear/unaboot/web/FrontController.java:77-85 | an unknown category falls back to the home page; a known one renders its own template |
| `Front.TagPage` | src/main/java/com/ramostear/unaboot/web/FrontController.java:97-105 | an unknown tag falls back to the home page; a known one renders the theme's `tags` template |
| `Front.ArchivePage` | src/main/java/com/ramostear/unaboot/web/FrontController.java:131-137 | a blank archive redirects to `/`; any other renders the theme's `archive` template |
| `Front.Guide` | src/main/java/com/ramostear/unaboot/web/FrontController.java:140-152 | always a redirect; it leaves `/` exactly when the category and its top post both exist, and then goes to `/post/` plus that post's slug |
| `Front.PostSlug` | src/main/java/com/ramostear/unaboot/web/FrontController.java:110-117 | a blank URI redirects home; with a `post/` present, the suffix after the first one is looked up, or redirects home when blank; without one, a URI shorter than 4 characters throws and otherwise the suffix from position 4 is looked up or redirects home when blank; any slug looked up is a non-blank suffix of the URI |
| `Front.PostSlugOfCanonical` | src/main/java/com/ramostear/unaboot/web/FrontController.java:114-117 | the address `/post/<slug>` resolves to `slug`, or redirects home when the slug is blank |
| `Front.GuideLeadsToPost` | src/main/java/com/ramostear/unaboot/web/FrontController.java:145 | a guide redirect to a pinned post with a non-blank slug leads to an address that the post handler resolves to that slug |
| `Front.Pred32` | src/main/java/com/ramostear/unaboot/web/FrontController.java:163 | `offset - 1` equals the mathematical difference modulo 2^32 (Java `int` wrap-around) |
| `Front.Search` | src/main/java/com/ramostear/unaboot/web/FrontController.java:154-174 | a blank keyword queries nothing and shows no posts; otherwise the query asks for status 1, page `offset-1`, size 15; posts are shown only when the page is non-empty and then are that page; a negative page index throws before any query; offset and keyword are kept whenever the search page is shown, which is every case but the negative page index |
| `Front.FrontController.Shown` | src/main/java/com/ramostear/unaboot/web/FrontController.java:119-120 | a post is shown exactly when the URI yields a slug and the post found for it exists with a status other than 0, and it is that post |
| `Front.FrontController.DraftNotShown` | src/main/java/com/ramostear/unaboot/web/FrontController.java:120-121 | a post whose status is 0 is never shown at `/post/<slug>` |
| `Front.FrontController.VisitsCache` | src/main/java/com/ramostear/unaboot/web/FrontController.java:181-199 | the new cache, the post's visits and the returned value are those of `Hit`; one update is logged exactly when it flushes; entries stay within 1..50 |
| `Front.FrontController.HandlePost` | src/main/java/com/ramostear/unaboot/web/FrontController.java:109-127 | a blank URI or slug, a missing post or status 0 sends the visitor home with the cache and the update log unchanged; otherwise the view is counted once, as `Hit` says, and the post's template is rendered |

## Left out

- Spring MVC routing and annotations, `HttpServletRequest` and the servlet context: the URI, path variables, request parameters and the theme are plain parameters.
- The `Model` attributes of `category`, `tags`, `post` and `tag`: they only record output. The attributes of `search` are modelled.
- `redirect(...)` belongs to a base controller that is not part of this model. Its result is the abstract outcome `Redirect(url)`.
- Service implementations: `getBySlug`, `findBySlug`, `findTopPostByCategoryId` and `search` are uninterpreted function parameters. `convertToPostVO` and `convertToPostListVO` are not modelled, so the `posts` attribute holds the page content itself.
- Ehcache internals. The `dayHits` configuration is not part of this model, so the cache is a map that never evicts. The key is the post id; the source's string key `id + "_visits"` is distinct for distinct ids.
- Concurrency: calls are modelled one at a time. The source's unsynchronized get-increment-put can lose views or flush twice under concurrent requests.
- A failing `update`. It is modelled as a write that always succeeds. The code has no catch, so a failure would leave `visits` already raised and the entry kept.
- Logging (`log.info`).
- Whitespace follows `Character.isWhitespace` of Java 9 and later; on Java 8, U+180E also counts as whitespace, and that variant is not modelled.
- Strings are sequences of Unicode code points, not of UTF-16 code units, so positions in strings with surrogate pairs differ from Java's.
- Null fields (a null template, slug, status or visits) and a null theme name: the `NullPointerException`s or `"null"` strings they would produce are not modelled. A missing theme itself is modelled.
- VisitCache.Hit: counts and visits are unbounded integers, so the 64-bit wrap-around of the Java `Long` sum is not modelled; it would need more than 2^63 views.
- Front.FrontController.VisitsCache: the same 64-bit wrap-around is not modelled.
