/**
 * The `create_fake_posts` management command
 * (blog/management/commands/create_fake_posts.py): it creates `count`
 * published posts with titles built from fixed templates and topics, a slug
 * made unique by numbered suffixes, and a random choice of categories and tags.
 *
 * Every random choice is a nondeterministic choice within the same bounds;
 * `slugify` is a parameter; the post table is `Models.PostTable`.
 */
module FakePosts {
  import opened Wrappers
  import opened Seqs
  import opened Models

  /** A title template `before + "{}" + after`. */
  datatype Template = Template(before: string, after: string)

  /** `template.format(topic)` */
  function Format(t: Template, topic: string): string {
    t.before + topic + t.after
  }

  const Titles: seq<Template> := [
    Template("Getting Started with ", ""),
    Template("Advanced ", " Techniques"),
    Template("Introduction to ", ""),
    Template("", " Best Practices"),
    Template("Building with ", ""),
    Template("Mastering ", ""),
    Template("", " for Beginners"),
    Template("Deep Dive into ", ""),
    Template("Understanding ", ""),
    Template("", " Tips and Tricks"),
    Template("The Complete ", " Guide"),
    Template("", " Fundamentals"),
    Template("Modern ", " Development"),
    Template("", " Patterns"),
    Template("Optimizing ", "")
  ]

  const Topics: seq<string> := [
    "Django", "Python", "Machine Learning", "Docker", "REST APIs",
    "PostgreSQL", "React", "CI/CD", "Cloud Computing", "Kubernetes",
    "Data Science", "Web Security", "TypeScript", "GraphQL", "Redis",
    "MongoDB", "Git", "Linux", "AWS", "Azure", "FastAPI", "Vue.js",
    "Testing", "Microservices", "DevOps", "Serverless", "WebSockets"
  ]

  const Excerpts: seq<string> := [
    "Learn the essentials and build your first application.",
    "Essential practices every developer should know.",
    "A comprehensive guide to understanding core concepts.",
    "How to effectively leverage this technology in your projects.",
    "Create robust solutions with industry best practices.",
    "Improve your skills with these proven techniques.",
    "Build modern applications with confidence.",
    "Automate and streamline your development workflow.",
    "Understanding services and how to leverage them.",
    "Master the fundamentals and beyond.",
    "Explore analysis and implementation strategies.",
    "Protect your applications and write secure code."
  ]

  /** The fixed placeholder paragraphs that follow the excerpt in every post body. */
  const LoremParagraphs: string :=
    "<p>Lorem ipsum dolor sit amet, consectetur adipiscing elit. Sed do eiusmod tempor incididunt ut labore et dolore magna aliqua. Ut enim ad minim veniam, quis nostrud exercitation ullamco laboris nisi ut aliquip ex ea commodo consequat.</p>"
    + "<p>Duis aute irure dolor in reprehenderit in voluptate velit esse cillum dolore eu fugiat nulla pariatur. Excepteur sint occaecat cupidatat non proident, sunt in culpa qui officia deserunt mollit anim id est laborum.</p>"

  /** The body of a fake post. */
  function Body(excerpt: string): string {
    "<p>" + excerpt + "</p>" + LoremParagraphs
  }

  /** The `count` argument: optional, 10 when absent. */
  function CountArgument(arg: Option<int>): (count: int)
    ensures arg.None? ==> count == 10
    ensures arg.Some? ==> count == arg.value
  {
    match arg
    case None => 10
    case Some(n) => n
  }

  // ----- decimal numerals, as an f-string prints an int -----

  /** The character of decimal digit `d`. */
  function Digit(d: nat): (c: char)
    requires d < 10
    ensures '0' <= c <= '9'
    ensures (c as int) - ('0' as int) == d
  {
    (('0' as int) + d) as char
  }

  /** The decimal numeral of `n`, without leading zeros. */
  function DecimalString(n: nat): (s: string)
    ensures |s| >= 1
    ensures forall i :: 0 <= i < |s| ==> '0' <= s[i] <= '9'
  {
    if n < 10 then [Digit(n)] else DecimalString(n / 10) + [Digit(n % 10)]
  }

  /** The value of a string of decimal digits. */
  function ParseDecimal(s: string): nat
    requires forall i :: 0 <= i < |s| ==> '0' <= s[i] <= '9'
  {
    if |s| == 0 then 0
    else ParseDecimal(s[..|s| - 1]) * 10 + ((s[|s| - 1] as int) - ('0' as int))
  }

  /** Printing a number and reading it back gives the number. */
  lemma {:induction false} DecimalRoundTrip(n: nat)
    ensures ParseDecimal(DecimalString(n)) == n
  {
    var s := DecimalString(n);
    if n >= 10 {
      var prefix := DecimalString(n / 10);
      assert s == prefix + [Digit(n % 10)];
      assert s[..|s| - 1] == prefix;
      DecimalRoundTrip(n / 10);
    }
  }

  /** Distinct numbers print differently. */
  lemma DecimalInjective(m: nat, n: nat)
    requires DecimalString(m) == DecimalString(n)
    ensures m == n
  {
    DecimalRoundTrip(m);
    DecimalRoundTrip(n);
  }

  // ----- the unique-slug loop -----

  /** The slug tried at attempt `k`: `base` first, then `base-1`, `base-2`, ... */
  function Candidate(base: string, k: nat): string {
    if k == 0 then base else base + "-" + DecimalString(k)
  }

  /** Different attempts try different slugs. */
  lemma CandidateInjective(base: string, j: nat, k: nat)
    requires Candidate(base, j) == Candidate(base, k)
    ensures j == k
  {
    if j > 0 && k > 0 {
      var prefix := |base| + 1;
      assert Candidate(base, j)[prefix..] == DecimalString(j);
      assert Candidate(base, k)[prefix..] == DecimalString(k);
      DecimalInjective(j, k);
    }
  }

  /** If the first `n` candidates are all in `used`, then `used` has at least `n`
      elements: a finite set can block only finitely many attempts. */
  lemma {:induction false} CandidatesBounded(base: string, n: nat, used: set<string>)
    requires forall j :: 0 <= j < n ==> Candidate(base, j) in used
    ensures n <= |used|
  {
    if n > 0 {
      var last := Candidate(base, n - 1);
      var rest := used - {last};
      forall j | 0 <= j < n - 1 ensures Candidate(base, j) in rest {
        if Candidate(base, j) == last {
          CandidateInjective(base, j, n - 1);
        }
      }
      CandidatesBounded(base, n - 1, rest);
    }
  }

  /** `slug` is what the unique-slug loop yields for `base` against the slugs in
      `used`: the first candidate that `used` does not hold. */
  ghost predicate FirstFreeSlug(slug: string, base: string, used: set<string>) {
    && slug !in used
    && exists k: nat :: slug == Candidate(base, k) && forall j :: 0 <= j < k ==> Candidate(base, j) in used
  }

  /** The unique-slug loop: tries `base`, then `base-1`, `base-2`, ... and returns
      the first slug no stored post uses; `suffix` is the attempt that succeeded. */
  method UniqueSlug(table: PostTable, base: string) returns (slug: string, ghost suffix: nat)
    ensures !table.SlugTaken(slug)
    ensures slug == Candidate(base, suffix)
    ensures forall j :: 0 <= j < suffix ==> table.SlugTaken(Candidate(base, j))
    ensures !table.SlugTaken(base) ==> slug == base
    ensures FirstFreeSlug(slug, base, table.Slugs())
  {
    ghost var used := table.Slugs();
    slug := base;
    var counter: nat := 1;
    while table.SlugTaken(slug)
      invariant slug == Candidate(base, counter - 1)
      invariant forall j :: 0 <= j < counter - 1 ==> Candidate(base, j) in used
      invariant counter <= |used| + 1
      decreases |used| + 1 - counter
    {
      CandidatesBounded(base, counter, used);
      slug := base + "-" + DecimalString(counter);
      counter := counter + 1;
    }
    suffix := counter - 1;
  }

  /** Each row from `from` on got the first free slug for its title, given the slugs
      of the rows before it. */
  ghost predicate SlugsAssigned(rows: seq<Post>, from: nat, slugify: string -> string) {
    forall k :: from <= k < |rows| ==> FirstFreeSlug(rows[k].slug, slugify(rows[k].title), SlugsOf(rows[..k]))
  }

  /** Appending a row that got the first free slug keeps `SlugsAssigned`. */
  lemma SlugsAssignedAppend(rows: seq<Post>, from: nat, post: Post, slugify: string -> string)
    requires SlugsAssigned(rows, from, slugify)
    requires FirstFreeSlug(post.slug, slugify(post.title), SlugsOf(rows))
    ensures SlugsAssigned(rows + [post], from, slugify)
  {
    var all := rows + [post];
    assert all[..|rows|] == rows;
    forall k | from <= k < |rows| ensures all[..k] == rows[..k] {
    }
  }

  /** The rows from `from` on are what one run of the command stored: fake posts,
      none reusing a slug of `used`, each under the first free slug for its title. */
  ghost predicate RunRows(rows: seq<Post>, from: nat, used: set<string>, author: string, now: int,
                          categoryIds: set<nat>, tagIds: set<nat>, slugify: string -> string) {
    && (forall k :: from <= k < |rows| ==> FakePost(rows[k], author, now, categoryIds, tagIds))
    && (forall k :: from <= k < |rows| ==> rows[k].slug !in used)
    && SlugsAssigned(rows, from, slugify)
  }

  /** Storing one more post made by the run keeps `RunRows`. */
  lemma RunRowsAppend(rows: seq<Post>, from: nat, used: set<string>, post: Post, author: string, now: int,
                      categoryIds: set<nat>, tagIds: set<nat>, slugify: string -> string)
    requires RunRows(rows, from, used, author, now, categoryIds, tagIds, slugify)
    requires FakePost(post, author, now, categoryIds, tagIds)
    requires used <= SlugsOf(rows)
    requires FirstFreeSlug(post.slug, slugify(post.title), SlugsOf(rows))
    ensures RunRows(rows + [post], from, used, author, now, categoryIds, tagIds, slugify)
  {
    SlugsAssignedAppend(rows, from, post, slugify);
  }

  /** Rows kept as a prefix keep their slugs in use. */
  lemma SlugsOfPrefix(prefix: seq<Post>, rest: seq<Post>)
    ensures SlugsOf(prefix) <= SlugsOf(prefix + rest)
  {
    forall p | p in prefix ensures p in prefix + rest {
      var m :| 0 <= m < |prefix| && prefix[m] == p;
      assert (prefix + rest)[m] == p;
    }
  }

  // ----- the creation loop -----

  function Min(a: int, b: int): int {
    if a <= b then a else b
  }

  /** One of the title templates with one of the topics substituted. */
  ghost predicate TemplatedTitle(title: string) {
    exists t, topic :: t in Titles && topic in Topics && title == Format(t, topic)
  }

  /** A post as the command creates it: published, titled from a template and a
      topic, with a stock excerpt and body, and with as many categories and tags as
      `random.sample` may pick. */
  ghost predicate FakePost(p: Post, author: string, now: int, categoryIds: set<nat>, tagIds: set<nat>) {
    && p.published
    && TemplatedTitle(p.title)
    && p.excerpt in Excerpts
    && p.content == Body(p.excerpt)
    && p.author == author
    && p.created == now
    && p.categories <= categoryIds
    && (|categoryIds| > 0 ==> 1 <= |p.categories| <= Min(3, |categoryIds|))
    && p.tags <= tagIds
    && Min(2, |tagIds|) <= |p.tags| <= Min(5, |tagIds|)
  }

  /** `random.sample(facets, min(random.randint(lo, hi), len(facets)))`, as the set
      of ids it links. */
  method Sample(facets: seq<Facet>, lo: nat, hi: nat) returns (ids: set<nat>)
    requires FacetsUnique(facets)
    requires 1 <= lo <= hi
    ensures ids <= IdsOf(facets)
    ensures Min(lo, |facets|) <= |ids| <= Min(hi, |facets|)
  {
    var k :| lo <= k <= hi;
    var n := Min(k, |facets|);
    IdsOfCardinality(facets[..n]);
    assert IdsOf(facets[..n]) <= IdsOf(facets);
    ids :| ids <= IdsOf(facets) && |ids| == n;
  }

  /** The facets of one fake post: one to three categories when there are any,
      and two to five tags, each bound cut down to what exists. */
  method PickFacets(categories: seq<Facet>, tags: seq<Facet>) returns (categoryIds: set<nat>, tagIds: set<nat>)
    requires FacetsUnique(categories) && FacetsUnique(tags)
    ensures categoryIds <= IdsOf(categories)
    ensures |IdsOf(categories)| > 0 ==> 1 <= |categoryIds| <= Min(3, |IdsOf(categories)|)
    ensures tagIds <= IdsOf(tags)
    ensures Min(2, |IdsOf(tags)|) <= |tagIds| <= Min(5, |IdsOf(tags)|)
  {
    IdsOfCardinality(categories);
    IdsOfCardinality(tags);
    categoryIds := {};
    if |categories| > 0 {
      categoryIds := Sample(categories, 1, 3);
    }
    tagIds := {};
    if |tags| > 0 {
      tagIds := Sample(tags, 2, 5);
    }
  }

  /** One iteration of the creation loop: picks a title, an excerpt, a unique slug
      and the facets, and stores the post. */
  method CreateOne(table: PostTable, categories: seq<Facet>, tags: seq<Facet>,
                   author: string, slugify: string -> string, now: int)
    returns (post: Post)
    requires table.Valid()
    requires FacetsUnique(categories) && FacetsUnique(tags)
    modifies table
    ensures table.Valid()
    ensures table.rows == old(table.rows) + [post]
    ensures post.slug !in old(table.Slugs())
    ensures FirstFreeSlug(post.slug, slugify(post.title), old(table.Slugs()))
    ensures FakePost(post, author, now, IdsOf(categories), IdsOf(tags))
  {
    assert Titles[0] in Titles && Topics[0] in Topics && Excerpts[0] in Excerpts;
    var template :| template in Titles;
    var topic :| topic in Topics;
    var title := Format(template, topic);
    var excerpt :| excerpt in Excerpts;
    var slug, _ := UniqueSlug(table, slugify(title));

    var categoryIds, tagIds := PickFacets(categories, tags);

    assert TemplatedTitle(title);
    var content := Body(excerpt);
    var created := table.Create(title, slug, excerpt, content, author, now, true, categoryIds, tagIds);
    post := created.value;
    assert post.title == title && post.excerpt == excerpt && post.content == content;
    assert post.categories == categoryIds && post.tags == tagIds;
  }

  /** `Command.handle`: creates `count` published posts (10 when the argument is
      absent, none when `count` is not positive), each under a slug no other post
      uses, and leaves the rows already stored untouched. */
  method Handle(table: PostTable, countArg: Option<int>, categories: seq<Facet>, tags: seq<Facet>,
                author: string, slugify: string -> string, now: int)
    returns (createdCount: int)
    requires table.Valid()
    requires FacetsUnique(categories) && FacetsUnique(tags)
    modifies table
    ensures table.Valid()
    ensures createdCount == if CountArgument(countArg) > 0 then CountArgument(countArg) else 0
    ensures |table.rows| == |old(table.rows)| + createdCount
    ensures table.rows[..|old(table.rows)|] == old(table.rows)
    ensures forall i :: |old(table.rows)| <= i < |table.rows| ==>
      FakePost(table.rows[i], author, now, IdsOf(categories), IdsOf(tags))
    ensures forall i :: |old(table.rows)| <= i < |table.rows| ==> table.rows[i].slug !in old(table.Slugs())
    ensures forall i, j :: |old(table.rows)| <= i < j < |table.rows| ==> table.rows[i].slug != table.rows[j].slug
    ensures SlugsAssigned(table.rows, |old(table.rows)|, slugify)
  {
    var count := CountArgument(countArg);
    ghost var before := table.rows;
    ghost var usedBefore := table.Slugs();
    ghost var made: seq<Post> := [];
    createdCount := 0;
    var i := 0;
    while i < count
      invariant 0 <= i <= (if count > 0 then count else 0)
      invariant createdCount == i == |made|
      invariant table.Valid()
      invariant table.rows == before + made
      invariant RunRows(table.rows, |before|, usedBefore, author, now, IdsOf(categories), IdsOf(tags), slugify)
    {
      ghost var rows := table.rows;
      SlugsOfPrefix(before, made);
      var post := CreateOne(table, categories, tags, author, slugify, now);
      RunRowsAppend(rows, |before|, usedBefore, post, author, now, IdsOf(categories), IdsOf(tags), slugify);
      made := made + [post];
      createdCount := createdCount + 1;
      i := i + 1;
    }
  }
}
