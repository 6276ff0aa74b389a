/**
 * The blog's two views (blog/views.py).
 *
 * `blog_list`: the published posts, narrowed by an OR-filter over the selected
 * category and tag slugs, split into pages of four, with a window of at most
 * five page numbers around the current page and the sidebar's facet counts.
 *
 * `blog_detail`: the published post with a slug, or not-found, and up to three
 * related posts that share a category with it.
 *
 * Queries become filters over the tables in their default order.
 */
module Views {
  import opened Wrappers
  import opened Seqs
  import opened Models

  // ----- pagination -----

  /** Posts per page (`Paginator(posts, 4)`). */
  const PerPage: nat := 4

  /** Page numbers shown at most (`max_visible`). */
  const MaxVisible: nat := 5

  /** Python's `range(lo, hi)`. */
  function Range(lo: int, hi: int): (r: seq<int>)
    ensures |r| == if lo < hi then hi - lo else 0
    ensures forall i :: 0 <= i < |r| ==> r[i] == lo + i
  {
    seq(if lo < hi then hi - lo else 0, i => lo + i)
  }

  /** The paginator's page count: an empty list still has one (empty) page. */
  function NumPages(count: nat): (n: nat)
    ensures n >= 1
    ensures count == 0 ==> n == 1
    ensures count > 0 ==> (n - 1) * PerPage < count <= n * PerPage
  {
    if count == 0 then 1 else (count + PerPage - 1) / PerPage
  }

  /** The paginator's `get_page`: a missing or non-numeric page number (`None`) gives
      page 1; a number outside `1..numPages` gives the last page. */
  function GetPage(requested: Option<int>, numPages: nat): (n: int)
    requires numPages >= 1
    ensures 1 <= n <= numPages
    ensures requested.None? ==> n == 1
    ensures requested.Some? && 1 <= requested.value <= numPages ==> n == requested.value
    ensures requested.Some? && !(1 <= requested.value <= numPages) ==> n == numPages
  {
    match requested
    case None => 1
    case Some(k) => if 1 <= k <= numPages then k else numPages
  }

  /** The items on page `number`: at most `PerPage` consecutive items, full on every
      page but the last, and non-empty unless there are no items at all. */
  function PageItems<T>(items: seq<T>, number: int): (r: seq<T>)
    requires 1 <= number <= NumPages(|items|)
    ensures |r| <= PerPage
    ensures (number - 1) * PerPage + |r| <= |items|
    ensures forall i :: 0 <= i < |r| ==> r[i] == items[(number - 1) * PerPage + i]
    ensures number < NumPages(|items|) ==> |r| == PerPage
    ensures number == NumPages(|items|) ==> (number - 1) * PerPage + |r| == |items|
    ensures |items| > 0 ==> |r| > 0
  {
    var lo := (number - 1) * PerPage;
    var hi := if number * PerPage <= |items| then number * PerPage else |items|;
    items[lo..hi]
  }

  /** A page of a sorted list is sorted and holds only items of the list. */
  lemma PageItemsSorted<T>(items: seq<T>, number: int, le: (T, T) -> bool)
    requires 1 <= number <= NumPages(|items|)
    requires SortedBy(items, le)
    ensures SortedBy(PageItems(items, number), le)
    ensures forall x :: x in PageItems(items, number) ==> x in items
  {
  }

  /** The page numbers to show (`page_range`): all pages when there are at most five,
      otherwise five consecutive pages centred on the current one and pulled back
      at the end. */
  function PageRange(numPages: int, currentPage: int): (r: seq<int>)
    ensures 0 <= numPages <= MaxVisible ==> |r| == numPages
    ensures numPages > MaxVisible ==> |r| == MaxVisible
    ensures forall i :: 0 <= i < |r| ==> r[i] == r[0] + i
    ensures forall n :: n in r ==> 1 <= n <= numPages
    ensures 1 <= currentPage <= numPages ==> currentPage in r
  {
    var r :=
      if numPages <= MaxVisible then
        Range(1, numPages + 1)
      else
        var start := if currentPage - MaxVisible / 2 > 1 then currentPage - MaxVisible / 2 else 1;
        var end := start + MaxVisible - 1;
        if end > numPages then
          Range(numPages - MaxVisible + 1, numPages + 1)
        else
          Range(start, end + 1);
    assert 1 <= currentPage <= numPages ==> r[currentPage - r[0]] == currentPage;
    r
  }

  /** With at most five pages the window is every page, `1..numPages`. */
  lemma PageRangeAllPages(numPages: int, currentPage: int)
    requires numPages <= MaxVisible
    ensures PageRange(numPages, currentPage) == Range(1, numPages + 1)
  {
  }

  /** Two pages either side of the current page fit: it sits in the middle. */
  lemma PageRangeCentred(numPages: int, currentPage: int)
    requires 1 <= currentPage - 2 && currentPage + 2 <= numPages
    ensures PageRange(numPages, currentPage) == Range(currentPage - 2, currentPage + 3)
  {
  }

  /** Near the last page the window is the last five pages. */
  lemma PageRangeNearEnd(numPages: int, currentPage: int)
    requires numPages > MaxVisible && currentPage + 2 > numPages
    ensures PageRange(numPages, currentPage) == Range(numPages - 4, numPages + 1)
  {
  }

  /** Near the first page the window is the first five pages. */
  lemma PageRangeNearStart(numPages: int, currentPage: int)
    requires numPages > MaxVisible && currentPage <= 3
    ensures PageRange(numPages, currentPage) == Range(1, 6)
  {
  }

  /** Worked windows: five pages around page 3, and ten pages near the end. */
  lemma PageRangeExamples()
    ensures PageRange(5, 3) == [1, 2, 3, 4, 5]
    ensures PageRange(10, 8) == [6, 7, 8, 9, 10]
    ensures PageRange(10, 10) == [6, 7, 8, 9, 10]
    ensures PageRange(10, 1) == [1, 2, 3, 4, 5]
  {
  }

  // ----- the category / tag filter -----

  /** No slug selected: the listing is not filtered. */
  predicate Unfiltered(categorySlugs: seq<string>, tagSlugs: seq<string>) {
    |categorySlugs| == 0 && |tagSlugs| == 0
  }

  /** `Q(categories__slug__in=...) | Q(tags__slug__in=...)`, each part present only
      when its list is non-empty. */
  predicate Matches(blog: Blog, p: Post, categorySlugs: seq<string>, tagSlugs: seq<string>) {
    || (|categorySlugs| > 0 && exists c :: c in blog.categories && c.id in p.categories && c.slug in categorySlugs)
    || (|tagSlugs| > 0 && exists t :: t in blog.tags && t.id in p.tags && t.slug in tagSlugs)
  }

  /** Whether a post is listed. */
  predicate Listed(blog: Blog, p: Post, categorySlugs: seq<string>, tagSlugs: seq<string>) {
    p.published && (Unfiltered(categorySlugs, tagSlugs) || Matches(blog, p, categorySlugs, tagSlugs))
  }

  /** The listing before pagination: exactly the listed posts, newest first, each once. */
  function FilteredPosts(blog: Blog, categorySlugs: seq<string>, tagSlugs: seq<string>): (r: seq<Post>)
    ensures forall p :: p in r <==> p in blog.posts && Listed(blog, p, categorySlugs, tagSlugs)
    ensures SortedBy(r, NewerOrSame)
    ensures blog.Valid() ==> Distinct(r)
  {
    var ordered := DefaultOrder(blog.posts);
    var keep := (p: Post) => Listed(blog, p, categorySlugs, tagSlugs);
    FilterSorted(ordered, keep, NewerOrSame);
    assert blog.Valid() ==> Distinct(ordered) by {
      if blog.Valid() { UniquePostsAreDistinct(blog.posts); }
    }
    Filter(ordered, keep)
  }

  /** The filter is a union, not an intersection: selecting categories and tags
      lists what either selection alone would list. */
  lemma FilterIsUnion(blog: Blog, categorySlugs: seq<string>, tagSlugs: seq<string>)
    requires |categorySlugs| > 0 && |tagSlugs| > 0
    ensures forall p :: p in FilteredPosts(blog, categorySlugs, tagSlugs) <==>
      p in FilteredPosts(blog, categorySlugs, []) || p in FilteredPosts(blog, [], tagSlugs)
  {
  }

  // ----- sidebar facet counts -----

  /** A category or tag annotated with its number of published posts. */
  datatype FacetCount = FacetCount(facet: Facet, count: nat)

  /** Code-point lexicographic order on names. */
  predicate NameLeq(a: string, b: string) {
    if |a| == 0 then true
    else if |b| == 0 then false
    else if a[0] != b[0] then a[0] < b[0]
    else NameLeq(a[1..], b[1..])
  }

  lemma {:induction false} NameLeqTotal(a: string, b: string)
    ensures NameLeq(a, b) || NameLeq(b, a)
  {
    if |a| > 0 && |b| > 0 && a[0] == b[0] {
      NameLeqTotal(a[1..], b[1..]);
    }
  }

  lemma {:induction false} NameLeqTransitive(a: string, b: string, c: string)
    requires NameLeq(a, b) && NameLeq(b, c)
    ensures NameLeq(a, c)
  {
    if |a| > 0 && |b| > 0 && |c| > 0 && a[0] == b[0] && b[0] == c[0] {
      NameLeqTransitive(a[1..], b[1..], c[1..]);
    }
  }

  /** `order_by('-post_count', 'name')`: larger counts first, ties by name. */
  predicate CountThenName(a: FacetCount, b: FacetCount) {
    a.count > b.count || (a.count == b.count && NameLeq(a.facet.name, b.facet.name))
  }

  lemma CountThenNameIsTotalPreorder()
    ensures TotalPreorder(CountThenName)
  {
    forall a: FacetCount, b: FacetCount ensures CountThenName(a, b) || CountThenName(b, a) {
      NameLeqTotal(a.facet.name, b.facet.name);
    }
    forall a: FacetCount, b: FacetCount, c: FacetCount | CountThenName(a, b) && CountThenName(b, c)
      ensures CountThenName(a, c)
    {
      if a.count == b.count == c.count {
        NameLeqTransitive(a.facet.name, b.facet.name, c.facet.name);
      }
    }
  }

  /** The number of published posts linked to facet `id` through `links`
      (`Count('posts', filter=Q(posts__published=True))`). */
  function PublishedCount(posts: seq<Post>, id: nat, links: Post -> set<nat>): (n: nat)
    ensures Distinct(posts) ==> n == |set p | p in posts && p.published && id in links(p)|
  {
    var linked := Filter(posts, (p: Post) => p.published && id in links(p));
    if Distinct(posts) then
      DistinctCardinality(linked);
      assert (set p | p in linked) == (set p | p in posts && p.published && id in links(p));
      |linked|
    else
      |linked|
  }

  function CategoriesOf(p: Post): set<nat> { p.categories }

  function TagsOf(p: Post): set<nat> { p.tags }

  /** Every facet with its count, in table order. */
  function Annotate(posts: seq<Post>, facets: seq<Facet>, links: Post -> set<nat>): (r: seq<FacetCount>)
    ensures |r| == |facets|
    ensures forall i :: 0 <= i < |r| ==> r[i] == FacetCount(facets[i], PublishedCount(posts, facets[i].id, links))
  {
    seq(|facets|, i requires 0 <= i < |facets| => FacetCount(facets[i], PublishedCount(posts, facets[i].id, links)))
  }

  /** The sidebar list: every facet once with its published-post count, by count
      descending, then name ascending. */
  function SidebarCounts(posts: seq<Post>, facets: seq<Facet>, links: Post -> set<nat>): (r: seq<FacetCount>)
    ensures SortedBy(r, CountThenName)
    ensures multiset(r) == multiset(Annotate(posts, facets, links))
    ensures forall e :: e in r ==> e.facet in facets && e.count == PublishedCount(posts, e.facet.id, links)
    ensures forall f :: f in facets ==> exists e :: e in r && e.facet == f
  {
    CountThenNameIsTotalPreorder();
    var annotated := Annotate(posts, facets, links);
    var r := Sort(annotated, CountThenName);
    assert forall e :: e in r <==> e in annotated by {
      forall e ensures e in r <==> e in annotated {
        assert e in r <==> e in multiset(r);
        assert e in annotated <==> e in multiset(annotated);
      }
    }
    assert forall f :: f in facets ==> FacetCount(f, PublishedCount(posts, f.id, links)) in annotated by {
      forall f | f in facets ensures FacetCount(f, PublishedCount(posts, f.id, links)) in annotated {
        var i :| 0 <= i < |facets| && facets[i] == f;
        assert annotated[i] == FacetCount(f, PublishedCount(posts, f.id, links));
      }
    }
    r
  }

  // ----- blog_list -----

  /** What `blog_list` hands to its template. */
  datatype Listing = Listing(
    items: seq<Post>,
    number: int,
    numPages: nat,
    pageRange: seq<int>,
    categories: seq<FacetCount>,
    tags: seq<FacetCount>,
    selectedCategories: seq<Facet>,
    selectedTags: seq<Facet>)

  /** `blog_list` for the query parameters `category`, `tag` and `page`. */
  function BlogList(blog: Blog, categorySlugs: seq<string>, tagSlugs: seq<string>, page: Option<int>): (r: Listing)
    ensures r.numPages == NumPages(|FilteredPosts(blog, categorySlugs, tagSlugs)|)
    ensures 1 <= r.number <= r.numPages
    ensures r.number == GetPage(page, r.numPages)
    ensures r.items == PageItems(FilteredPosts(blog, categorySlugs, tagSlugs), r.number)
    ensures forall p :: p in r.items ==> p in blog.posts && Listed(blog, p, categorySlugs, tagSlugs)
    ensures SortedBy(r.items, NewerOrSame)
    ensures r.pageRange == PageRange(r.numPages, r.number)
    ensures r.number in r.pageRange
    ensures |r.pageRange| == if r.numPages <= MaxVisible then r.numPages else MaxVisible
    ensures forall n :: n in r.pageRange ==> 1 <= n <= r.numPages
    ensures r.categories == SidebarCounts(blog.posts, blog.categories, CategoriesOf)
    ensures r.tags == SidebarCounts(blog.posts, blog.tags, TagsOf)
    ensures forall c :: c in r.selectedCategories <==> c in blog.categories && c.slug in categorySlugs
    ensures forall t :: t in r.selectedTags <==> t in blog.tags && t.slug in tagSlugs
  {
    var posts := FilteredPosts(blog, categorySlugs, tagSlugs);
    var numPages := NumPages(|posts|);
    var number := GetPage(page, numPages);
    var items := PageItems(posts, number);
    PageItemsSorted(posts, number, NewerOrSame);
    Listing(
      items,
      number,
      numPages,
      PageRange(numPages, number),
      SidebarCounts(blog.posts, blog.categories, CategoriesOf),
      SidebarCounts(blog.posts, blog.tags, TagsOf),
      if |categorySlugs| > 0 then Filter(blog.categories, (c: Facet) => c.slug in categorySlugs) else [],
      if |tagSlugs| > 0 then Filter(blog.tags, (t: Facet) => t.slug in tagSlugs) else [])
  }

  /** The sidebar counts do not depend on the active filter or page. */
  lemma SidebarIgnoresFilter(blog: Blog, categorySlugs: seq<string>, tagSlugs: seq<string>, page: Option<int>)
    ensures BlogList(blog, categorySlugs, tagSlugs, page).categories == BlogList(blog, [], [], None).categories
    ensures BlogList(blog, categorySlugs, tagSlugs, page).tags == BlogList(blog, [], [], None).tags
  {
  }

  // ----- blog_detail -----

  /** The outcome of `get_object_or_404`. */
  datatype Lookup<T> = Found(value: T) | NotFound | MultipleFound

  /** What `blog_detail` hands to its template. */
  datatype Detail = Detail(post: Post, related: seq<Post>)

  /** Whether `p` is related to `post`: published, another post, sharing a category. */
  predicate RelatedTo(p: Post, post: Post) {
    p.published && p.categories * post.categories != {} && p.id != post.id
  }

  /** Up to three related posts, newest first (`.distinct()[:3]`). */
  function RelatedPosts(blog: Blog, post: Post): (r: seq<Post>)
    ensures |r| <= 3
    ensures forall p :: p in r ==> p in blog.posts && RelatedTo(p, post)
    ensures SortedBy(r, NewerOrSame)
    ensures blog.Valid() ==> Distinct(r)
    ensures |r| < 3 ==> forall p :: p in blog.posts && RelatedTo(p, post) ==> p in r
    ensures forall p, q :: p in blog.posts && RelatedTo(p, post) && p !in r && q in r ==> NewerOrSame(q, p)
  {
    var ordered := DefaultOrder(blog.posts);
    var keep := (p: Post) => RelatedTo(p, post);
    FilterSorted(ordered, keep, NewerOrSame);
    var all := Filter(ordered, keep);
    assert blog.Valid() ==> Distinct(all) by {
      if blog.Valid() { UniquePostsAreDistinct(blog.posts); }
    }
    if |all| <= 3 then all
    else
      var r := all[..3];
      assert forall p :: p in r ==> p in all;
      assert forall p, q :: p in blog.posts && RelatedTo(p, post) && p !in r && q in r ==> NewerOrSame(q, p) by {
        forall p, q | p in blog.posts && RelatedTo(p, post) && p !in r && q in r ensures NewerOrSame(q, p) {
          assert p in all;
          var k :| 0 <= k < |all| && all[k] == p;
          var i :| 0 <= i < 3 && r[i] == q;
          assert k >= 3;
        }
      }
      r
  }

  /** `blog_detail`: the published post with `slug` and its related posts. */
  function BlogDetail(blog: Blog, slug: string): (r: Lookup<Detail>)
    ensures r.NotFound? <==> !exists p :: p in blog.posts && p.published && p.slug == slug
    ensures r.Found? ==>
      && r.value.post in blog.posts && r.value.post.published && r.value.post.slug == slug
      && r.value.related == RelatedPosts(blog, r.value.post)
    ensures blog.Valid() ==> !r.MultipleFound?
  {
    var matching := Filter(blog.posts, (p: Post) => p.published && p.slug == slug);
    if |matching| == 0 then
      NotFound
    else if |matching| > 1 then
      assert !blog.Valid() by {
        if blog.Valid() {
          UniquePostsAreDistinct(blog.posts);
          assert matching[0] in matching && matching[1] in matching;
          SlugIdentifiesPost(blog, matching[0], matching[1]);
        }
      }
      MultipleFound
    else
      assert matching[0] in matching;
      Found(Detail(matching[0], RelatedPosts(blog, matching[0])))
  }

  /** Two stored posts with the same slug are the same post. */
  lemma SlugIdentifiesPost(blog: Blog, p: Post, q: Post)
    requires blog.Valid()
    requires p in blog.posts && q in blog.posts && p.slug == q.slug
    ensures p == q
  {
    var i :| 0 <= i < |blog.posts| && blog.posts[i] == p;
    var j :| 0 <= j < |blog.posts| && blog.posts[j] == q;
  }
}
