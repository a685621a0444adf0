/**
 * The request handlers of `FrontController` and its visit-counter cache.
 *
 * Service lookups are parameters: `getBySlug` of the category service,
 * `findBySlug` of the tag and post services, `findTopPostByCategoryId` of the
 * post-category service and `search` of the post service. The theme is the
 * value of the servlet context's "theme" attribute, `None` when it is unset.
 */
module Front {
  import opened Wrappers
  import opened JavaStrings
  import opened Views
  import opened VisitCache

  /** A category as the category service returns it. */
  datatype Category = Category(id: int, slug: string, template: string)

  /** A tag as the tag service returns it. */
  datatype Tag = Tag(id: int, slug: string)

  /** A post entity. Only `visits` is changed by the controller. */
  class Post {
    const id: int
    const slug: string
    const status: int
    const template: string
    var visits: int

    constructor (id: int, slug: string, status: int, template: string, visits: int)
      ensures this.id == id && this.slug == slug && this.status == status
      ensures this.template == template && this.visits == visits
    {
      this.id, this.slug, this.status, this.template := id, slug, status, template;
      this.visits := visits;
    }
  }

  /** `index` (`/`, `/index`, `/index.html`, `/home.html`): the theme's index template. */
  function Index(theme: Option<Theme>): (r: Outcome)
    ensures theme.Some? ==> r == Render(ThemeDir(theme.value) + "index")
    ensures theme.None? ==> r == Fault(ThemeMissing)
  {
    assert "index.html" == "index" + "." + "html";
    if theme.Some? then ViewOfStem(theme.value, "index", "html"); View(theme, "index.html")
    else View(theme, "index.html")
  }

  /** With the theme named "classic", the home page is "/themes/classic/index". */
  lemma IndexOfClassic()
    ensures Index(Some(Theme("classic"))) == Render("/themes/classic/index")
  {
    assert ThemeDir(Theme("classic")) + "index" == "/themes/classic/index";
  }

  /** `category` (`/{slug}`): a known category shows its own template, an
      unknown one falls back to the index page. */
  function CategoryPage(theme: Option<Theme>, slug: string, getBySlug: string -> Option<Category>): (r: Outcome)
    ensures getBySlug(slug).None? ==> r == Index(theme)
    ensures getBySlug(slug).Some? ==> r == View(theme, getBySlug(slug).value.template)
  {
    match getBySlug(slug)
    case Some(c) => View(theme, c.template)
    case None => View(theme, "index.html")
  }

  /** `tags` (`/tags/{slug}`): a known tag shows the tags page, an unknown one
      falls back to the index page. */
  function TagPage(theme: Option<Theme>, slug: string, findBySlug: string -> Option<Tag>): (r: Outcome)
    ensures theme.None? ==> r == Fault(ThemeMissing)
    ensures theme.Some? && findBySlug(slug).Some? ==> r == Render(ThemeDir(theme.value) + "tags")
    ensures findBySlug(slug).None? ==> r == Index(theme)
  {
    assert "tags.html" == "tags" + "." + "html";
    if findBySlug(slug).None? then Index(theme)
    else if theme.Some? then ViewOfStem(theme.value, "tags", "html"); View(theme, "tags.html")
    else View(theme, "tags.html")
  }

  /** `tag` (`/archives/{archive}`): a blank archive redirects home, any other
      shows the archive page. */
  function ArchivePage(theme: Option<Theme>, archive: string): (r: Outcome)
    ensures IsBlank(archive) ==> r == Redirect(Home)
    ensures !IsBlank(archive) && theme.Some? ==> r == Render(ThemeDir(theme.value) + "archive")
    ensures !IsBlank(archive) && theme.None? ==> r == Fault(ThemeMissing)
  {
    assert "archive.html" == "archive" + "." + "html";
    if IsBlank(archive) then Redirect(Home)
    else if theme.Some? then ViewOfStem(theme.value, "archive", "html"); View(theme, "archive.html")
    else View(theme, "archive.html")
  }

  /** `guide` (`/guides/{slug}`): the site of the pinned post of a known
      category, otherwise home. */
  function Guide(slug: string, getBySlug: string -> Option<Category>, findTopPost: int -> Post?): (r: Outcome)
    ensures r.Redirect?
    ensures r.url != Home <==> getBySlug(slug).Some? && findTopPost(getBySlug(slug).value.id) != null
    ensures r.url != Home ==> r.url == "/post/" + findTopPost(getBySlug(slug).value.id).slug
  {
    match getBySlug(slug)
    case None => Redirect(Home)
    case Some(c) =>
      var top := findTopPost(c.id);
      if top != null then Redirect("/post/" + top.slug) else Redirect(Home)
  }

  /** The first step of `post` (`/post/...`): the slug after the first "post/"
      of the URI, or where the handler stops before any lookup. */
  datatype SlugStep = Stop(outcome: Outcome) | Lookup(slug: string)

  const PostPrefix: string := "post/"

  function PostSlug(uri: string): (r: SlugStep)
    ensures IsBlank(uri) ==> r == Stop(Redirect(Home))
    // a slug looked up is a non-blank suffix of the URI ...
    ensures r.Lookup? ==> !IsBlank(r.slug) && |r.slug| <= |uri| && r.slug == uri[|uri| - |r.slug|..]
    // ... the one right after the first "post/", when there is one
    ensures r.Lookup? && Find(uri, PostPrefix) >= 0 ==>
      var at := |uri| - |r.slug| - |PostPrefix|;
      OccursAt(uri, PostPrefix, at) && forall j :: OccursAt(uri, PostPrefix, j) ==> at <= j
    // with a "post/" in it, the suffix after the first one is looked up, or home when blank
    ensures !IsBlank(uri) && Find(uri, PostPrefix) >= 0 ==>
      var tail := uri[Find(uri, PostPrefix) + |PostPrefix|..];
      r == if IsBlank(tail) then Stop(Redirect(Home)) else Lookup(tail)
    // without one, Java's index -1 plus 5 cuts off the first four characters
    ensures !IsBlank(uri) && Find(uri, PostPrefix) < 0 && |uri| < 4 ==> r == Stop(Fault(SlugOutOfRange(uri)))
    ensures !IsBlank(uri) && Find(uri, PostPrefix) < 0 && |uri| >= 4 ==>
      r == if IsBlank(uri[4..]) then Stop(Redirect(Home)) else Lookup(uri[4..])
  {
    if IsBlank(uri) then Stop(Redirect(Home))
    else
      var start := Find(uri, PostPrefix) + |PostPrefix|;
      if start > |uri| then Stop(Fault(SlugOutOfRange(uri)))
      else
        var slug := uri[start..];
        if IsBlank(slug) then Stop(Redirect(Home)) else Lookup(slug)
  }

  /** The canonical post address resolves to its own slug. */
  lemma PostSlugOfCanonical(slug: string)
    ensures PostSlug("/post/" + slug) == if IsBlank(slug) then Stop(Redirect(Home)) else Lookup(slug)
  {
    var uri := "/post/" + slug;
    assert OccursAt(uri, PostPrefix, 1) by { assert uri[1..6] == PostPrefix; }
    assert !OccursAt(uri, PostPrefix, 0) by { assert uri[0..5][0] != PostPrefix[0]; }
    assert Find(uri, PostPrefix) == 1;
    assert !IsBlank("/post/") by { assert !IsWhitespace("/post/"[0]); }
    BlankConcat("/post/", slug);
    assert uri[6..] == slug;
  }

  /** A guide that finds a pinned post with a non-blank slug sends the browser
      to the address that `post` resolves to that slug. */
  lemma GuideLeadsToPost(slug: string, getBySlug: string -> Option<Category>, findTopPost: int -> Post?)
    requires Guide(slug, getBySlug, findTopPost).url != Home
    requires !IsBlank(findTopPost(getBySlug(slug).value.id).slug)
    ensures PostSlug(Guide(slug, getBySlug, findTopPost).url) == Lookup(findTopPost(getBySlug(slug).value.id).slug)
  {
    PostSlugOfCanonical(findTopPost(getBySlug(slug).value.id).slug);
  }

  /** The paging request of `search`. */
  datatype PageQuery = PageQuery(keyword: string, status: int, page: int32, size: int)

  /** Java's `int`. */
  newtype int32 = x: int | -0x8000_0000 <= x < 0x8000_0000

  /** Java's `offset - 1` on an `int`, which wraps at the minimum value. */
  function Pred32(x: int32): (r: int32)
    ensures (r as int - (x as int - 1)) % 0x1_0000_0000 == 0
  {
    if x == -0x8000_0000 then 0x7fff_ffff else x - 1
  }

  const PublishedStatus: int := 1
  const SearchPageSize: int := 15

  /** What `search` produces: the query it made, if any, the "posts",
      "offset" and "keyword" attributes, and the outcome. */
  datatype SearchPage<T> = SearchPage(query: Option<PageQuery>, posts: Option<seq<T>>, offset: int32, keyword: string, outcome: Outcome)

  /** `search` (`/search?keyword=&offset=`); `search` stands for the post
      service's query, returning the content of the requested page. */
  function Search<T>(theme: Option<Theme>, keyword: string, offset: int32, search: PageQuery -> seq<T>): (r: SearchPage<T>)
    // a blank keyword queries nothing and shows no posts
    ensures IsBlank(keyword) ==> r.query.None? && r.posts.None?
    // otherwise: published posts only, 15 to a page, page numbers from 1 on
    ensures !IsBlank(keyword) && Pred32(offset) >= 0 ==>
      r.query == Some(PageQuery(keyword, PublishedStatus, Pred32(offset), SearchPageSize))
    // results are shown only when the page has some
    ensures r.posts.Some? ==> r.query.Some? && r.posts.value == search(r.query.value) && r.posts.value != []
    ensures r.query.Some? && search(r.query.value) != [] ==> r.posts.Some?
    // a page index below 0 is refused before any query
    ensures !IsBlank(keyword) && Pred32(offset) < 0 ==> r.query.None? && r.outcome == Fault(NegativePageIndex(Pred32(offset) as int))
    // the "offset" and "keyword" attributes are set whenever the search page is shown
    ensures IsBlank(keyword) || Pred32(offset) >= 0 ==> r.offset == offset && r.keyword == keyword
    // the search page is shown whatever was found
    ensures IsBlank(keyword) || Pred32(offset) >= 0 ==> r.outcome == View(theme, "search.html")
    ensures theme.Some? && (IsBlank(keyword) || Pred32(offset) >= 0) ==> r.outcome == Render(ThemeDir(theme.value) + "search")
  {
    assert "search.html" == "search" + "." + "html";
    var page := if theme.Some? then ViewOfStem(theme.value, "search", "html"); View(theme, "search.html")
                else View(theme, "search.html");
    if IsBlank(keyword) then SearchPage(None, None, offset, keyword, page)
    else
      var index := Pred32(offset);
      if index < 0 then SearchPage(None, None, offset, keyword, Fault(NegativePageIndex(index as int)))
      else
        var query := PageQuery(keyword, PublishedStatus, index, SearchPageSize);
        var content := search(query);
        SearchPage(Some(query), if content == [] then None else Some(content), offset, keyword, page)
  }

  /** The front controller's state: the "dayHits" cache, keyed by post id (the
      source keys it by the id followed by "_visits"), and the writes made
      through the post service. */
  class FrontController {
    var dayHits: map<int, int>
    var updates: seq<Write>

    ghost predicate Valid()
      reads this
    {
      Bounded(dayHits)
    }

    constructor ()
      ensures Valid() && dayHits == map[] && updates == []
    {
      dayHits, updates := map[], [];
    }

    /** `visitsCache`: counts one view of `post`, flushing past the threshold. */
    method VisitsCache(post: Post) returns (display: int)
      requires Valid()
      modifies this, post
      ensures Valid()
      ensures var h := Hit(old(dayHits), post.id, old(post.visits));
        && dayHits == h.hits && post.visits == h.visits && display == h.display
        && updates == if h.flushed then old(updates) + [Write(post.id, h.visits)] else old(updates)
    {
      var key := post.id;
      var count := 0;
      if key in dayHits {
        count := dayHits[key];
      }
      count := count + 1;
      dayHits := dayHits[key := count];
      if count > Threshold {
        post.visits := post.visits + count;
        updates := updates + [Write(post.id, post.visits)];
        dayHits := dayHits - {key};
        display := post.visits;
      } else {
        display := post.visits;
      }
    }

    /** The post that `post` shows for `uri`: found and not unpublished. */
    static function Shown(uri: string, findBySlug: string -> Post?): (p: Post?)
      ensures p != null <==>
        PostSlug(uri).Lookup? && findBySlug(PostSlug(uri).slug) != null && findBySlug(PostSlug(uri).slug).status != 0
      ensures p != null ==> p == findBySlug(PostSlug(uri).slug)
    {
      match PostSlug(uri)
      case Stop(_) => null
      case Lookup(slug) =>
        var post := findBySlug(slug);
        if post != null && post.status != 0 then post else null
    }

    /** A post whose status is 0 is never shown at its own address. */
    static lemma DraftNotShown(slug: string, findBySlug: string -> Post?)
      requires !IsBlank(slug) && findBySlug(slug) != null && findBySlug(slug).status == 0
      ensures Shown("/post/" + slug, findBySlug) == null
    {
      PostSlugOfCanonical(slug);
    }

    static function Touched(uri: string, findBySlug: string -> Post?): set<Post> {
      var post := Shown(uri, findBySlug);
      if post == null then {} else {post}
    }

    /** `post` (`/post/...`): a blank URI or slug, a missing post or one whose
        status is 0 redirects home without counting a view; otherwise the
        view is counted once and the post's own template is shown. */
    method HandlePost(theme: Option<Theme>, uri: string, findBySlug: string -> Post?) returns (out: Outcome)
      requires Valid()
      modifies this, Touched(uri, findBySlug)
      ensures Valid()
      ensures Shown(uri, findBySlug) == null ==>
        && dayHits == old(dayHits) && updates == old(updates)
        && out == (if PostSlug(uri).Stop? then PostSlug(uri).outcome else Redirect(Home))
      ensures Shown(uri, findBySlug) != null ==>
        var post := Shown(uri, findBySlug);
        var h := Hit(old(dayHits), post.id, old(post.visits));
        && dayHits == h.hits && post.visits == h.visits
        && updates == (if h.flushed then old(updates) + [Write(post.id, h.visits)] else old(updates))
        && out == View(theme, post.template)
    {
      match PostSlug(uri)
      case Stop(o) =>
        out := o;
      case Lookup(slug) =>
        var post := findBySlug(slug);
        if post == null || post.status == 0 {
          out := Redirect(Home);
        } else {
          var v := VisitsCache(post);
          post.visits := v;
          out := View(theme, post.template);
        }
    }
  }
}
