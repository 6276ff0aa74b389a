# Blog core of a personal website, in Dafny

This project models the logic of a Django personal website's blog:

- the blog listing (`blog_list`): published posts, an OR-filter over the
  selected category and tag slugs, pages of four posts, a window of at most
  five page numbers centred on the current page, and sidebar facet counts of
  published posts ordered by count then name;
- the post page (`blog_detail`): not-found unless a published post has the
  slug, plus up to three newest related posts sharing a category;
- the models: the uniqueness constraints, the newest-first default ordering,
  the default author, and `save` filling a blank slug from the title or name;
- the `create_fake_posts` command: the loop that makes a slug unique with
  `-1`, `-2`, ... suffixes, and the loop that creates `count` published posts;
- the `site_config` context processor's canonical URL.

Files: `wrappers.dfy` (an `Option` type), `seqs.dfy` (order-preserving
filter, insertion sort, duplicate-freedom: the queryset operations),
`models.dfy`, `views.dfy`, `create_fake_posts.dfy`, `context_processors.dfy`.

Database rows are values (`Post`, `Facet`, `Blog`); posts link categories and
tags by id. Model instances whose `save` rewrites a field are classes
(`BlogPost`, `BlogCategory`, `BlogTag`), and the post table that the command
queries and inserts into is the class `PostTable`. Queries are filters over
the table in its default order. `slugify`, the clock, the site configuration
lookup, the request's absolute URI and the random choices are parameters or
nondeterministic choices.

Decisions where the code leaves something to the framework:

- `Paginator.get_page` follows Django: a missing or non-numeric page gives page
  1, a number outside `1..num_pages` gives the last page, and an empty list has
  one empty page.
- `order_by('name')` compares names by code point, lexicographically; the
  database's collation is not modelled.
- `get_object_or_404` with two matches is `MultipleFound`; the slug constraint
  rules it out (`Views.BlogDetail`).
- `objects.create` followed by `categories.set` and `tags.set` is one insertion
  (`Models.PostTable.Create`), which fails on a slug already in use.

## Model

| member | source | states |
|---|---|---|
| `Models.DefaultOrder` | blog/models.py:27-28 | posts come out newest first (by creation time, descending), as a permutation of the table, and stay duplicate-free |
| `Models.ValidFacts` | blog/models.py:18 | under the database constraints (`Blog.Valid`: post ids and slugs unique, category and tag ids, names and slugs unique per blog/models.py:40-41, 57-58, links pointing at stored rows) the post rows are distinct and there are as many facet ids as facet rows |
| `Models.FilledSlug` | blog/models.py:31-32 | the slug step of every `save` (also blog/models.py:48-49, 61-62): a blank slug becomes `slugify` of its source, a non-blank one is kept |
| `Models.PostTable.SlugTaken` | blog/management/commands/create_fake_posts.py:79 | `filter(slug=slug).exists()`: true iff some stored row has the slug |
| `Models.DefaultAuthor` | blog/models.py:7-13 | the author default is the configured full name, or "Admin" when the configuration lookup fails |
| `Models.FilledSlugIdempotent` | blog/models.py:31-33 | saving twice fills the slug exactly as saving once |
| `Models.BlogPost.constructor` | blog/models.py:16-25 | a new post is unpublished, has a blank slug, the default author, the current time as creation time, and no update time until it is saved |
| `Models.BlogPost.Save` | blog/models.py:30-33 | only `slug` and `updated` change; a blank slug becomes `slugify(title)`, a set one is unchanged; `updated` becomes the save time (`auto_now`, blog/models.py:24) |
| `Models.BlogCategory.constructor` | blog/models.py:39-42 | a new category has its name and description and a blank slug |
| `Models.BlogCategory.Save` | blog/models.py:47-50 | only `slug` changes: a blank slug becomes `slugify(name)`, a set one is unchanged |
| `Models.BlogTag.constructor` | blog/models.py:56-58 | a new tag has its name and a blank slug |
| `Models.BlogTag.Save` | blog/models.py:60-63 | only `slug` changes: a blank slug becomes `slugify(name)`, a set one is unchanged |
| `Models.IdsOfCardinality` | blog/management/commands/create_fake_posts.py:93-96 | categories (or tags) with unique primary keys have as many distinct ids as rows, so a sample of `n` rows links `n` facets |
| `Models.PostTable.Create` | blog/management/commands/create_fake_posts.py:83-96 | inserting a post with a used slug fails and changes nothing; otherwise the row is appended under a fresh id and slugs stay unique |
| `Views.NumPages` | blog/views.py:25 | pages of four: the page count is at least one and is the least number of pages that holds all posts |
| `Views.GetPage` | blog/views.py:26-27 | the current page is always a valid page: 1 for a missing page, the request when valid, the last page when out of range |
| `Views.PageItems` | blog/views.py:25-27 | a page holds at most four consecutive posts, exactly four on every page but the last, and the last page runs to the end of the list, so the pages partition the posts |
| `Views.PageRange` | blog/views.py:30-46 | the window has `min(5, num_pages)` ascending consecutive entries, all valid pages, and contains every valid current page |
| `Views.PageRangeAllPages` | blog/views.py:34-35 | with at most five pages the window is `1..num_pages` |
| `Views.PageRangeCentred` | blog/views.py:37-39 | when two pages fit either side, the window is `current-2..current+2` |
| `Views.PageRangeNearEnd` | blog/views.py:41-44 | near the last page the window is the last five pages |
| `Views.PageRangeNearStart` | blog/views.py:38-39 | near the first page the window is pages 1 to 5 |
| `Views.PageRangeExamples` | blog/views.py:30-46 | five pages around page 3 give pages 1-5; ten pages give 6-10 at pages 8 and 10 and 1-5 at page 1 |
| `Views.FilteredPosts` | blog/views.py:10-22 | a post is listed iff it is published and, when any slug is selected, it has a selected category slug or a selected tag slug; newest first; each post once |
| `Views.FilterIsUnion` | blog/views.py:16-22 | with both categories and tags selected the listing is the union of the two single-facet listings (OR, not AND) |
| `Views.CountThenNameIsTotalPreorder` | blog/views.py:51 | the sidebar order (count descending, then name ascending) is total and transitive |
| `Views.PublishedCount` | blog/views.py:49-50 | a facet's count is the number of distinct published posts linked to it |
| `Views.SidebarCounts` | blog/views.py:49-54 | every facet appears, with its published-post count, sorted by count descending then name ascending |
| `Views.BlogList` | blog/views.py:8-70 | the page shown is `get_page` of the requested number over the filtered listing, its posts are listed posts in newest-first order, the window is the page window of that page (so `min(5, num_pages)` pages containing it), the sidebar counts are the unfiltered ones, and the selected facets are those whose slug was asked for |
| `Views.SidebarIgnoresFilter` | blog/views.py:49-54 | the sidebar counts are the same whatever the filter and page |
| `Views.RelatedPosts` | blog/views.py:83-86 | at most three posts, each published, another post, sharing a category, newest first, each once; every related post left out is no newer than those kept; when fewer than three, every related post |
| `Views.BlogDetail` | blog/views.py:77-93 | not-found exactly when no published post has the slug; otherwise that post and its related posts |
| `Views.SlugIdentifiesPost` | blog/models.py:18 | two stored posts with the same slug are the same post |
| `FakePosts.CountArgument` | blog/management/commands/create_fake_posts.py:12 | the post count defaults to 10 |
| `FakePosts.DecimalString` | blog/management/commands/create_fake_posts.py:80 | the suffix is printed as a non-empty string of decimal digits |
| `FakePosts.DecimalRoundTrip` | blog/management/commands/create_fake_posts.py:80 | reading back a printed suffix gives the number |
| `FakePosts.DecimalInjective` | blog/management/commands/create_fake_posts.py:80 | different suffix numbers print differently |
| `FakePosts.CandidateInjective` | blog/management/commands/create_fake_posts.py:77-80 | `base`, `base-1`, `base-2`, ... are pairwise different slugs |
| `FakePosts.CandidatesBounded` | blog/management/commands/create_fake_posts.py:79-81 | a finite set of used slugs blocks only finitely many attempts, so the loop ends |
| `FakePosts.UniqueSlug` | blog/management/commands/create_fake_posts.py:76-81 | the slug is unused; it is `base` when `base` is free, otherwise `base-k` for the smallest `k` whose slug is free |
| `FakePosts.Sample` | blog/management/commands/create_fake_posts.py:93-96 | a sample links between `min(lo, n)` and `min(hi, n)` of the `n` facets, and only existing ones |
| `FakePosts.CreateOne` | blog/management/commands/create_fake_posts.py:70-96 | one new published post with a templated title, a stock excerpt and body, a slug no existing post uses, namely `slugify(title)` when that is free and otherwise `slugify(title)-k` for the smallest free `k`, and facet counts within the sample bounds |
| `FakePosts.Handle` | blog/management/commands/create_fake_posts.py:14-101 | exactly `count` posts are created (10 when the argument is absent, none for a non-positive count), old rows are untouched, new slugs are unused before and pairwise distinct, and each new row's slug is `slugify(title)` or its smallest free `-k` variant given the slugs of all rows stored before it |
| `ContextProcessors.RStrip` | home/context_processors.py:22 | `rstrip('/')`: a prefix not ending in `/`, followed in the input only by `/` |
| `ContextProcessors.RStripUnique` | home/context_processors.py:22 | those properties determine the stripped string |
| `ContextProcessors.RStripSlashes` | home/context_processors.py:22 | adding trailing slashes does not change the stripped string |
| `ContextProcessors.RStripNoTrailing` | home/context_processors.py:22 | a string without a trailing slash is unchanged |
| `ContextProcessors.CanonicalUrl` | home/context_processors.py:21-24 | with a site URL, the result ends with the request path and is preceded by the site URL without its trailing slashes; otherwise it is the absolute URI |
| `ContextProcessors.CanonicalUrlIgnoresTrailingSlashes` | home/context_processors.py:22 | site URLs that differ only in trailing slashes give the same canonical URL |
| `ContextProcessors.CanonicalUrlNoTrailingSlash` | home/context_processors.py:22 | a site URL without a trailing slash gives exactly site URL + path |

## Left out

- Database plumbing: the ORM's joins and queryset laziness, `super().save()`
  writing the row, `update` versus `insert`; queries are filters over values.
- Field lengths (`max_length`) and `CKEditor5Field` content; `featured_image`.
- Template selection for HTMX requests and `render`; `Resume.get_solo` in
  `blog_detail`; `SiteConfiguration.get_solo` in `site_config` (the canonical
  URL is the only computed entry).
- `request.build_absolute_uri()` is a parameter.
- `slugify` is a parameter with no properties assumed.
- The command's admin-user lookup or creation and its `stdout` messages; the
  post's author is a parameter string.
- FakePosts.Handle: all posts of one run get the same creation time `now`; the
  clock reading per `create` is not modelled.
- The Math-safe Markdown renderer is not part of this model: none of the
  modelled files contains it.
- blog/admin.py (declarative admin configuration) and projects/views.py (a
  fetch-and-render view).
