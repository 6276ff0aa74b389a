/**
 * The blog's entities (blog/models.py): posts, categories and tags, the
 * uniqueness constraints the database enforces on them, the default
 * newest-first ordering of posts, the default author, and the slug that
 * `save` fills in when it is blank.
 *
 * Rows read from the database are values (`Post`, `Facet`, `Blog`); a model
 * instance whose `save` rewrites its own `slug` field is a class.
 * `slugify` is a foreign function and is passed in as a parameter.
 */
module Models {
  import opened Wrappers
  import opened Seqs

  /** A stored blog post. `categories` and `tags` hold the ids of the related rows. */
  datatype Post = Post(
    id: nat,
    title: string,
    slug: string,
    excerpt: string,
    content: string,
    author: string,
    created: int,
    published: bool,
    categories: set<nat>,
    tags: set<nat>)

  /** A stored category or tag: both have a unique name and a unique slug. */
  datatype Facet = Facet(id: nat, name: string, slug: string)

  /** The three tables the blog reads. */
  datatype Blog = Blog(posts: seq<Post>, categories: seq<Facet>, tags: seq<Facet>) {
    /** The database constraints: unique keys and slugs, unique facet names, and
        many-to-many links that point at existing rows. */
    ghost predicate Valid() {
      && PostsUnique(posts)
      && FacetsUnique(categories)
      && FacetsUnique(tags)
      && (forall p :: p in posts ==> p.categories <= IdsOf(categories) && p.tags <= IdsOf(tags))
    }
  }

  /** In a valid blog no post is stored twice and every facet has its own id. */
  lemma ValidFacts(blog: Blog)
    requires blog.Valid()
    ensures Distinct(blog.posts)
    ensures |IdsOf(blog.categories)| == |blog.categories| && |IdsOf(blog.tags)| == |blog.tags|
  {
    UniquePostsAreDistinct(blog.posts);
    IdsOfCardinality(blog.categories);
    IdsOfCardinality(blog.tags);
  }

  /** The slugs of a run of rows. */
  ghost function SlugsOf(rows: seq<Post>): set<string> {
    set p | p in rows :: p.slug
  }

  /** Post ids (primary key) and post slugs (`unique=True`) are pairwise distinct. */
  predicate PostsUnique(rows: seq<Post>) {
    forall i, j :: 0 <= i < j < |rows| ==> rows[i].id != rows[j].id && rows[i].slug != rows[j].slug
  }

  /** Facet ids, names and slugs are pairwise distinct. */
  predicate FacetsUnique(rows: seq<Facet>) {
    forall i, j :: 0 <= i < j < |rows| ==>
      rows[i].id != rows[j].id && rows[i].name != rows[j].name && rows[i].slug != rows[j].slug
  }

  function IdsOf(facets: seq<Facet>): set<nat> {
    set f | f in facets :: f.id
  }

  /** Distinct facet rows have as many ids as rows. */
  lemma {:induction false} IdsOfCardinality(facets: seq<Facet>)
    requires FacetsUnique(facets)
    ensures |IdsOf(facets)| == |facets|
  {
    if |facets| > 0 {
      var rest := facets[1..];
      assert FacetsUnique(rest) by {
        forall i, j | 0 <= i < j < |rest| ensures rest[i].id != rest[j].id {
          assert rest[i] == facets[i + 1] && rest[j] == facets[j + 1];
        }
      }
      IdsOfCardinality(rest);
      assert IdsOf(facets) == {facets[0].id} + IdsOf(rest);
      assert facets[0].id !in IdsOf(rest);
    }
  }

  /** Unique post ids make the rows themselves distinct. */
  lemma UniquePostsAreDistinct(rows: seq<Post>)
    requires PostsUnique(rows)
    ensures Distinct(rows)
  {
    forall i, j | 0 <= i < j < |rows| ensures rows[i] != rows[j] {
      assert rows[i].id != rows[j].id;
    }
  }

  // ----- Meta.ordering = ['-created_date'] -----

  /** `a` may come before `b` in the default ordering: it is at least as new. */
  predicate NewerOrSame(a: Post, b: Post) {
    a.created >= b.created
  }

  lemma NewerOrSameIsTotalPreorder()
    ensures TotalPreorder(NewerOrSame)
  {
  }

  /** The posts as every query on `BlogPost.objects` returns them: newest first. */
  function DefaultOrder(posts: seq<Post>): (r: seq<Post>)
    ensures SortedBy(r, NewerOrSame)
    ensures multiset(r) == multiset(posts)
    ensures forall p :: p in r <==> p in posts
    ensures Distinct(posts) ==> Distinct(r)
  {
    NewerOrSameIsTotalPreorder();
    var r := Sort(posts, NewerOrSame);
    assert forall p :: p in r <==> p in multiset(posts);
    if Distinct(posts) then
      SortDistinct(posts, NewerOrSame);
      r
    else
      r
  }

  // ----- get_default_author -----

  /** The author of a new post: the site configuration's full name, or "Admin" when
      the configuration lookup fails (`None`). */
  function DefaultAuthor(siteFullName: Option<string>): (r: string)
    ensures siteFullName.Some? ==> r == siteFullName.value
    ensures siteFullName.None? ==> r == "Admin"
  {
    match siteFullName
    case Some(name) => name
    case None => "Admin"
  }

  // ----- slug defaulting in save() -----

  /** The slug after `save`: a blank slug is derived from `source`; a set one is kept. */
  function FilledSlug(slug: string, source: string, slugify: string -> string): (r: string)
    ensures slug != "" ==> r == slug
    ensures slug == "" ==> r == slugify(source)
  {
    if slug == "" then slugify(source) else slug
  }

  /** Saving twice fills the slug no differently from saving once. */
  lemma FilledSlugIdempotent(slug: string, source: string, slugify: string -> string)
    ensures FilledSlug(FilledSlug(slug, source, slugify), source, slugify) == FilledSlug(slug, source, slugify)
  {
  }

  /** A `BlogPost` instance before and after it is saved. */
  class BlogPost {
    var title: string
    var slug: string
    var excerpt: string
    var content: string
    var author: string
    var created: int
    var updated: Option<int>
    var published: bool

    /** A new, unsaved post with the model's field defaults. */
    constructor (title: string, excerpt: string, content: string, siteFullName: Option<string>, now: int)
      ensures this.title == title && this.excerpt == excerpt && this.content == content
      ensures slug == ""
      ensures author == DefaultAuthor(siteFullName)
      ensures created == now && updated == None
      ensures !published
    {
      this.title := title;
      this.slug := "";
      this.excerpt := excerpt;
      this.content := content;
      this.author := DefaultAuthor(siteFullName);
      this.created := now;
      this.updated := None;
      this.published := false;
    }

    /** Fills a blank slug from the title and stamps `updated` (`auto_now`). */
    method Save(slugify: string -> string, now: int)
      modifies this`slug, this`updated
      ensures slug == FilledSlug(old(slug), title, slugify)
      ensures old(slug) == "" ==> slug == slugify(title)
      ensures old(slug) != "" ==> slug == old(slug)
      ensures updated == Some(now)
    {
      if slug == "" {
        slug := slugify(title);
      }
      updated := Some(now);
    }
  }

  /** A `BlogCategory` instance before and after it is saved. */
  class BlogCategory {
    var name: string
    var slug: string
    var description: string

    constructor (name: string, description: string)
      ensures this.name == name && this.description == description && slug == ""
    {
      this.name := name;
      this.slug := "";
      this.description := description;
    }

    /** Fills a blank slug from the name. */
    method Save(slugify: string -> string)
      modifies this`slug
      ensures slug == FilledSlug(old(slug), name, slugify)
      ensures old(slug) == "" ==> slug == slugify(name)
      ensures old(slug) != "" ==> slug == old(slug)
    {
      if slug == "" {
        slug := slugify(name);
      }
    }
  }

  /** A `BlogTag` instance before and after it is saved. */
  class BlogTag {
    var name: string
    var slug: string

    constructor (name: string)
      ensures this.name == name && slug == ""
    {
      this.name := name;
      this.slug := "";
    }

    /** Fills a blank slug from the name. */
    method Save(slugify: string -> string)
      modifies this`slug
      ensures slug == FilledSlug(old(slug), name, slugify)
      ensures old(slug) == "" ==> slug == slugify(name)
      ensures old(slug) != "" ==> slug == old(slug)
    {
      if slug == "" {
        slug := slugify(name);
      }
    }
  }

  // ----- the post table, as `BlogPost.objects` -----

  /** The post table: rows and the next primary key. */
  class PostTable {
    var rows: seq<Post>
    var nextId: nat

    ghost predicate Valid()
      reads this
    {
      PostsUnique(rows) && forall p :: p in rows ==> p.id < nextId
    }

    constructor ()
      ensures Valid() && rows == []
    {
      rows := [];
      nextId := 1;
    }

    /** `BlogPost.objects.filter(slug=slug).exists()` */
    predicate SlugTaken(slug: string): (taken: bool)
      reads this
      ensures taken <==> exists i :: 0 <= i < |rows| && rows[i].slug == slug
    {
      exists p :: p in rows && p.slug == slug
    }

    /** The slugs in use. */
    ghost function Slugs(): (s: set<string>)
      reads this
      ensures forall slug :: slug in s <==> SlugTaken(slug)
    {
      SlugsOf(rows)
    }

    /** `BlogPost.objects.create(...)`: inserts a row under a fresh id, or fails with
        the database's integrity error (`None`) when the slug is already used. */
    method Create(title: string, slug: string, excerpt: string, content: string, author: string,
                  created: int, published: bool, categories: set<nat>, tags: set<nat>)
      returns (post: Option<Post>)
      requires Valid()
      modifies this
      ensures Valid()
      ensures old(SlugTaken(slug)) ==> post == None && rows == old(rows)
      ensures !old(SlugTaken(slug)) ==>
        && post == Some(Post(old(nextId), title, slug, excerpt, content, author, created, published, categories, tags))
        && rows == old(rows) + [post.value]
    {
      if SlugTaken(slug) {
        post := None;
      } else {
        var p := Post(nextId, title, slug, excerpt, content, author, created, published, categories, tags);
        rows := rows + [p];
        nextId := nextId + 1;
        post := Some(p);
      }
    }
  }
}
