/** The blog post endpoints: the paginated and filtered listing, reading a
    post (which counts a view), creating, updating and deleting a post
    (only its author may change or delete it), liking, the featured posts
    and the search. HTTP routes answer with their own status codes; JSON
    routes always answer 200 with a `success` flag. */
module BlogApi {
  import opened Common
  import opened Text
  import opened Paging
  import opened BlogPostModel

  // ================================================================ serialization

  /** `post.tags.split(',') if post.tags else []`. */
  function TagList(tags: string): (items: seq<string>)
    ensures items == [] <==> tags == ""
    ensures forall k :: 0 <= k < |items| ==> ',' !in items[k]
  {
    if tags == "" then [] else SplitOn(tags, ',')
  }

  /** Joining the listed tags with commas gives the stored text back. */
  lemma TagListJoin(tags: string)
    ensures Join(TagList(tags), ",") == tags
  {
    if tags != "" {
      JoinSplit(tags, ',');
    }
  }

  /** Tags without commas, stored comma-separated, are listed back as they
      were (a single empty tag stores as "" and lists as none). */
  lemma TagListSplit(items: seq<string>)
    requires items != [] && items != [""]
    requires forall k :: 0 <= k < |items| ==> ',' !in items[k]
    ensures TagList(Join(items, ",")) == items
  {
    SplitJoin(items, ',');
    if |items| >= 2 {
      assert Join(items, ",") == items[0] + "," + Join(items[1..], ",");
      assert Join(items, ",")[|items[0]|] == ',';
    }
  }

  /** `_serialize_post`: the stored fields, the computed slug, excerpt and
      reading time, the author as id and name. */
  function SerializePost(id: int, p: Post, users: map<int, string>): Json
  {
    JObj(map[
      "id" := JInt(id),
      "title" := JStr(p.title),
      "slug" := (match Slug(p.title) case Some(s) => JStr(s) case None => JBool(false)),
      "content" := JStr(p.content),
      "excerpt" := JStr(Excerpt(p.content)),
      "author" := JObj(map["id" := JInt(p.authorId), "name" := UserName(users, p.authorId)]),
      "published_date" := JDate(p.publishedDate),
      "status" := JStr(StatusName(p.status)),
      "is_featured" := JBool(p.isFeatured),
      "view_count" := JInt(p.viewCount),
      "like_count" := JInt(p.likeCount),
      "tags" := JTexts(TagList(p.tags)),
      "reading_time_minutes" := JInt(ReadingTime(p.content))])
  }

  /** The posts of `ids`, serialized in order. */
  function SerializePosts(posts: map<int, Post>, ids: seq<int>, users: map<int, string>): (js: seq<Json>)
    requires forall k :: 0 <= k < |ids| ==> ids[k] in posts
    ensures |js| == |ids|
    ensures forall k :: 0 <= k < |ids| ==> js[k] == SerializePost(ids[k], posts[ids[k]], users)
  {
    seq(|ids|, k requires 0 <= k < |ids| => SerializePost(ids[k], posts[ids[k]], users))
  }

  // ================================================================ the listing's filters

  /** One term of the listing's search domain. */
  datatype Term = StatusIs(status: string) | AuthorIs(author: int) | FeaturedIs(featured: bool)

  predicate Holds(t: Term, p: Post)
  {
    match t
    case StatusIs(s) => StatusName(p.status) == s
    case AuthorIs(a) => p.authorId == a
    case FeaturedIs(f) => p.isFeatured == f
  }

  /** A domain of terms is their conjunction. */
  predicate MatchesAll(domain: seq<Term>, p: Post)
  {
    forall k :: 0 <= k < |domain| ==> Holds(domain[k], p)
  }

  /** The domain `get_posts` builds: a term per truthy filter parameter, in
      the order status, author, featured; a non-integer author raises. */
  function PostDomain(params: map<string, string>): Result<seq<Term>>
  {
    if HasParam(params, "author_id") && ParseInt(params["author_id"]).None? then Err(IntError(params["author_id"]))
    else Ok(StatusTerm(params) + AuthorTerm(params) + FeaturedTerm(params))
  }

  function StatusTerm(params: map<string, string>): seq<Term>
  {
    if HasParam(params, "status") then [StatusIs(params["status"])] else []
  }

  function AuthorTerm(params: map<string, string>): seq<Term>
  {
    if HasParam(params, "author_id") && ParseInt(params["author_id"]).Some? then
      [AuthorIs(ParseInt(params["author_id"]).value)]
    else []
  }

  function FeaturedTerm(params: map<string, string>): seq<Term>
  {
    if HasParam(params, "featured") then [FeaturedIs(Lower(params["featured"]) == "true")] else []
  }

  /** The domain built by appending one term per filter, as the handler
      does. */
  method BuildPostDomain(params: map<string, string>) returns (r: Result<seq<Term>>)
    ensures r == PostDomain(params)
  {
    var domain: seq<Term> := [];
    if HasParam(params, "status") {
      domain := domain + [StatusIs(params["status"])];
    }
    assert domain == StatusTerm(params);
    if HasParam(params, "author_id") {
      var author := ParseInt(params["author_id"]);
      if author.None? {
        return Err(IntError(params["author_id"]));
      }
      domain := domain + [AuthorIs(author.value)];
    }
    assert domain == StatusTerm(params) + AuthorTerm(params);
    if HasParam(params, "featured") {
      domain := domain + [FeaturedIs(Lower(params["featured"]) == "true")];
    }
    assert domain == StatusTerm(params) + AuthorTerm(params) + FeaturedTerm(params);
    r := Ok(domain);
  }

  /** What the filters mean: a post matches exactly when it has the given
      status, the given author and the given featured flag, each only
      where that parameter is supplied. */
  lemma PostFilterMeaning(params: map<string, string>, p: Post)
    requires PostDomain(params).Ok?
    ensures MatchesAll(PostDomain(params).value, p) <==>
      && (HasParam(params, "status") ==> StatusName(p.status) == params["status"])
      && (HasParam(params, "author_id") ==> p.authorId == ParseInt(params["author_id"]).value)
      && (HasParam(params, "featured") ==> p.isFeatured == (Lower(params["featured"]) == "true"))
  {
    var status, author, featured := StatusTerm(params), AuthorTerm(params), FeaturedTerm(params);
    MatchesConcat(status + author, featured, p);
    MatchesConcat(status, author, p);
    if HasParam(params, "status") { MatchesOne(StatusIs(params["status"]), p); }
    if HasParam(params, "author_id") { MatchesOne(AuthorIs(ParseInt(params["author_id"]).value), p); }
    if HasParam(params, "featured") { MatchesOne(FeaturedIs(Lower(params["featured"]) == "true"), p); }
  }

  lemma MatchesConcat(a: seq<Term>, b: seq<Term>, p: Post)
    ensures MatchesAll(a + b, p) <==> MatchesAll(a, p) && MatchesAll(b, p)
  {
    if MatchesAll(a + b, p) {
      forall k | 0 <= k < |a| ensures Holds(a[k], p) { assert a[k] == (a + b)[k]; }
      forall k | 0 <= k < |b| ensures Holds(b[k], p) { assert b[k] == (a + b)[|a| + k]; }
    }
  }

  lemma MatchesOne(t: Term, p: Post)
    ensures MatchesAll([t], p) <==> Holds(t, p)
  {
    assert [t][0] == t;
  }

  /** Only status, author_id and featured filter: any other parameter leaves
      the domain as it is. */
  lemma PostDomainIgnoresOthers(params: map<string, string>, key: string, v: string)
    requires key !in {"status", "author_id", "featured"}
    ensures PostDomain(params[key := v]) == PostDomain(params)
  {
    var q := params[key := v];
    assert HasParam(q, "status") == HasParam(params, "status");
    assert HasParam(q, "author_id") == HasParam(params, "author_id");
    assert HasParam(q, "featured") == HasParam(params, "featured");
  }

  // ================================================================ GET /posts

  const DEFAULT_PAGE_SIZE := 10
  const MAX_PAGE_SIZE := 100

  /** The ids of the stored posts that match `domain`, in listing order. */
  function Matching(posts: map<int, Post>, ids: seq<int>, domain: seq<Term>): (r: seq<int>)
    requires forall k :: 0 <= k < |ids| ==> ids[k] in posts
    ensures forall k :: 0 <= k < |r| ==> r[k] in posts && MatchesAll(domain, posts[r[k]])
  {
    Select(posts, ids, (p: Post) => MatchesAll(domain, p))
  }

  /** The data of a served page: the page's posts and the pagination. */
  function ListingData(posts: map<int, Post>, matching: seq<int>, pg: Pagination, users: map<int, string>): Json
    requires forall k :: 0 <= k < |matching| ==> matching[k] in posts
    requires Servable(pg) && pg.offset >= 0
  {
    var page := Window(matching, pg.offset, pg.limit);
    JObj(map[
      "posts" := JArr(SerializePosts(posts, page, users)),
      "pagination" := JObj(map[
        "page" := JInt(pg.page),
        "limit" := JInt(pg.limit),
        "total" := JInt(|matching|),
        "pages" := JInt(PageCount(|matching|, pg.limit))])])
  }

  /** The reply of `get_posts` over the stored posts `ids`: pagination and
      filters are read in order (a non-integer gives 400 "Invalid parameter:
      ..."), then the count and the page. A limit of 0 divides by zero and a
      negative limit or offset is refused by the database: 500. */
  function PostsReply(posts: map<int, Post>, ids: seq<int>, params: map<string, string>, users: map<int, string>): (r: Reply)
    requires forall k :: 0 <= k < |ids| ==> ids[k] in posts
    ensures r.Failure? && r.status == 400 <==>
      ParsePagination(params, DEFAULT_PAGE_SIZE, MAX_PAGE_SIZE).Err? || PostDomain(params).Err?
    ensures r.Failure? && r.status == 400 ==> StartsWith(r.error, INVALID_PARAMETER)
    ensures r.Success? <==>
      && ParsePagination(params, DEFAULT_PAGE_SIZE, MAX_PAGE_SIZE).Ok? && PostDomain(params).Ok?
      && Servable(ParsePagination(params, DEFAULT_PAGE_SIZE, MAX_PAGE_SIZE).value)
    ensures r.Failure? ==> r.status in {400, 500}
    ensures r.Success? ==> r.status == 200
  {
    var pg := ParsePagination(params, DEFAULT_PAGE_SIZE, MAX_PAGE_SIZE);
    var domain := PostDomain(params);
    if pg.Err? then Failure(400, InvalidParameter(pg.error))
    else if domain.Err? then Failure(400, InvalidParameter(domain.error))
    else if !Servable(pg.value) then Failure(500, INTERNAL_ERROR)
    else
      Success(200, ListingData(posts, Matching(posts, ids, domain.value), pg.value, users))
  }

  /** `get_posts` over the store's posts. */
  method GetPosts(store: PostStore, params: map<string, string>, users: map<int, string>) returns (r: Reply)
    requires store.Valid()
    ensures r == PostsReply(store.posts, store.Ids(), params, users)
  {
    var pg := ParsePagination(params, DEFAULT_PAGE_SIZE, MAX_PAGE_SIZE);
    if pg.Err? {
      return Failure(400, InvalidParameter(pg.error));
    }
    var domain := BuildPostDomain(params);
    if domain.Err? {
      return Failure(400, InvalidParameter(domain.error));
    }
    if !Servable(pg.value) {
      return Failure(500, INTERNAL_ERROR);
    }
    var matching := Matching(store.posts, store.Ids(), domain.value);
    r := Success(200, ListingData(store.posts, matching, pg.value, users));
  }

  // ================================================================ GET /posts/<id>

  const POST_NOT_FOUND := "Post not found"

  /** `get_post`: a missing post gives 404; otherwise the view is counted
      before the post is serialized. */
  method GetPost(store: PostStore, id: int, users: map<int, string>) returns (r: Reply)
    requires store.Valid()
    modifies store
    ensures store.Valid() && store.nextId == old(store.nextId)
    ensures id !in old(store.posts) ==> r == Failure(404, POST_NOT_FOUND) && store.posts == old(store.posts)
    ensures id in old(store.posts) ==>
      && store.posts == old(store.posts)[id := AddView(old(store.posts)[id])]
      && r == Success(200, JObj(map["post" := SerializePost(id, AddView(old(store.posts)[id]), users)]))
  {
    if id !in store.posts {
      return Failure(404, POST_NOT_FOUND);
    }
    store.ActionIncrementViews({id});
    assert UpdateAll(old(store.posts), {id}, AddView) == old(store.posts)[id := AddView(old(store.posts)[id])];
    r := Success(200, JObj(map["post" := SerializePost(id, store.posts[id], users)]));
  }

  // ================================================================ POST /posts

  const TITLE_REQUIRED := "Title is required"
  const CONTENT_REQUIRED := "Content is required"

  /** `params.get(key, default)`. */
  function ValueOr(params: map<string, Value>, key: string, default: Value): Value
  {
    if key in params then params[key] else default
  }

  /** The `vals` of `create_post`: title and content as given, the acting
      user as author, and status, featured flag and tags with their
      defaults. */
  function CreateVals(params: map<string, Value>, actor: int): (vals: map<string, Value>)
    requires "title" in params && "content" in params
    ensures vals.Keys == {"title", "content", "author_id", "status", "is_featured", "tags"}
    ensures vals["author_id"] == Int(actor)
    ensures "status" !in params ==> vals["status"] == Str("draft")
  {
    map["title" := params["title"], "content" := params["content"], "author_id" := Int(actor),
        "status" := ValueOr(params, "status", Str("draft")),
        "is_featured" := ValueOr(params, "is_featured", Bool(false)),
        "tags" := ValueOr(params, "tags", Str(""))]
  }

  /** The post `create_post` makes from a payload with a title and content. */
  function CreatedPost(params: map<string, Value>, actor: int, now: int): Result<Post>
    requires "title" in params && "content" in params
  {
    var vals :- DecodeVals(CreateVals(params, actor));
    NewPost(vals, actor, now)
  }

  /** A created post is written by the acting user and, unless a status
      is given, is a draft. */
  lemma CreatedPostFacts(params: map<string, Value>, actor: int, now: int)
    requires "title" in params && "content" in params
    requires CreatedPost(params, actor, now).Ok?
    ensures var p := CreatedPost(params, actor, now).value;
      p.authorId == actor && ("status" !in params ==> p.status == Draft) && Sound(p)
  {
    DecodedStamps(CreateVals(params, actor));
  }

  /** `create_post`: a falsy title or content is refused before anything is
      created; otherwise the post is created or the error reported, and
      nothing is stored on error. */
  method CreatePost(store: PostStore, params: map<string, Value>, actor: int, now: int, users: map<int, string>) returns (r: Reply)
    requires store.Valid()
    modifies store
    ensures store.Valid()
    ensures r.status == 200
    ensures !Given(params, "title") ==> r == Failure(200, TITLE_REQUIRED) && store.posts == old(store.posts)
    ensures Given(params, "title") && !Given(params, "content") ==>
      r == Failure(200, CONTENT_REQUIRED) && store.posts == old(store.posts)
    ensures Given(params, "title") && Given(params, "content") ==>
      var created := CreatedPost(params, actor, now);
      && (r.Success? <==> created.Ok?)
      && (created.Ok? ==> exists id :: id !in old(store.posts) && store.posts == old(store.posts)[id := created.value])
      && (created.Err? ==> r == Failure(200, created.error) && store.posts == old(store.posts))
  {
    if !Given(params, "title") {
      return Failure(200, TITLE_REQUIRED);
    }
    if !Given(params, "content") {
      return Failure(200, CONTENT_REQUIRED);
    }
    var vals := DecodeVals(CreateVals(params, actor));
    if vals.Err? {
      return Failure(200, vals.error);
    }
    var created := store.Create(vals.value, actor, now);
    if created.Err? {
      return Failure(200, created.error);
    }
    r := Success(200, JObj(map["post" := SerializePost(created.value, store.posts[created.value], users),
                                "message" := JStr("Post created successfully")]));
  }

  // ================================================================ PUT /posts/<id>

  const NOT_OWN_EDIT := "You can only edit your own posts"
  const NOT_OWN_DELETE := "You can only delete your own posts"
  const UPDATABLE: set<string> := {"title", "content", "status", "is_featured", "tags"}

  /** The `vals` of `update_post`: the supplied keys among the updatable
      ones, added one by one. */
  method UpdateVals(params: map<string, Value>) returns (vals: map<string, Value>)
    ensures vals.Keys == params.Keys * UPDATABLE
    ensures forall key :: key in vals ==> vals[key] == params[key]
  {
    vals := map[];
    if "title" in params {
      vals := vals["title" := params["title"]];
    }
    if "content" in params {
      vals := vals["content" := params["content"]];
    }
    if "status" in params {
      vals := vals["status" := params["status"]];
    }
    if "is_featured" in params {
      vals := vals["is_featured" := params["is_featured"]];
    }
    if "tags" in params {
      vals := vals["tags" := params["tags"]];
    }
  }

  /** The post after `update_post` writes the supplied updatable keys. */
  function UpdatedPost(p: Post, params: map<string, Value>, now: int): Result<Post>
    requires Sound(p)
  {
    var vals :- DecodeVals(map key | key in params && key in UPDATABLE :: params[key]);
    WritePost(p, vals, now)
  }

  /** An update never changes the author, the counters or, unless it
      publishes, the publication date. */
  lemma UpdateKeepsTheRest(p: Post, params: map<string, Value>, now: int)
    requires Sound(p) && UpdatedPost(p, params, now).Ok?
    ensures var q := UpdatedPost(p, params, now).value;
      q.authorId == p.authorId && q.viewCount == p.viewCount && q.likeCount == p.likeCount
      && (!(q.status == Published && p.status != Published) ==> q.publishedDate == p.publishedDate)
  {
    var vals := DecodeVals(map key | key in params && key in UPDATABLE :: params[key]).value;
    assert vals.authorId == Keep && vals.viewCount == Keep && vals.likeCount == Keep && vals.publishedDate == Keep;
  }

  /** `update_post`: only the author may update; the supplied updatable keys
      are written and nothing changes on error. */
  method UpdatePost(store: PostStore, id: int, params: map<string, Value>, actor: int, now: int,
                    users: map<int, string>) returns (r: Reply)
    requires store.Valid()
    modifies store
    ensures store.Valid() && store.nextId == old(store.nextId)
    ensures r.status == 200
    ensures id !in old(store.posts) ==> r == Failure(200, POST_NOT_FOUND) && store.posts == old(store.posts)
    ensures id in old(store.posts) && old(store.posts)[id].authorId != actor ==>
      r == Failure(200, NOT_OWN_EDIT) && store.posts == old(store.posts)
    ensures id in old(store.posts) && old(store.posts)[id].authorId == actor ==>
      var updated := UpdatedPost(old(store.posts)[id], params, now);
      && (r.Success? <==> updated.Ok?)
      && (updated.Ok? ==> store.posts == old(store.posts)[id := updated.value])
      && (updated.Err? ==> r == Failure(200, updated.error) && store.posts == old(store.posts))
  {
    if id !in store.posts {
      return Failure(200, POST_NOT_FOUND);
    }
    if store.posts[id].authorId != actor {
      return Failure(200, NOT_OWN_EDIT);
    }
    var raw := UpdateVals(params);
    assert raw == map key | key in params && key in UPDATABLE :: params[key];
    var vals := DecodeVals(raw);
    if vals.Err? {
      return Failure(200, vals.error);
    }
    var written := store.Write(id, vals.value, now);
    if written.Err? {
      return Failure(200, written.error);
    }
    r := Success(200, JObj(map["post" := SerializePost(id, store.posts[id], users),
                                "message" := JStr("Post updated successfully")]));
  }

  // ================================================================ DELETE /posts/<id>

  /** `delete_post`: only the author may delete, and a published post is
      kept with the model's error. */
  method DeletePost(store: PostStore, id: int, actor: int) returns (r: Reply)
    requires store.Valid()
    modifies store
    ensures store.Valid() && store.nextId == old(store.nextId)
    ensures r.status == 200
    ensures id !in old(store.posts) ==> r == Failure(200, POST_NOT_FOUND) && store.posts == old(store.posts)
    ensures id in old(store.posts) && old(store.posts)[id].authorId != actor ==>
      r == Failure(200, NOT_OWN_DELETE) && store.posts == old(store.posts)
    ensures id in old(store.posts) && old(store.posts)[id].authorId == actor ==>
      if old(store.posts)[id].status == Published
      then r == Failure(200, CANNOT_DELETE_PUBLISHED) && store.posts == old(store.posts)
      else r.Success? && store.posts == old(store.posts) - {id}
  {
    if id !in store.posts {
      return Failure(200, POST_NOT_FOUND);
    }
    if store.posts[id].authorId != actor {
      return Failure(200, NOT_OWN_DELETE);
    }
    var deleted := store.Unlink({id});
    if deleted.Err? {
      return Failure(200, deleted.error);
    }
    r := Success(200, JObj(map["message" := JStr("Post deleted successfully")]));
  }

  // ================================================================ POST /posts/<id>/like

  /** `like_post`: one more like, and the new count in the reply. */
  method LikePost(store: PostStore, id: int) returns (r: Reply)
    requires store.Valid()
    modifies store
    ensures store.Valid() && store.nextId == old(store.nextId)
    ensures id !in old(store.posts) ==> r == Failure(200, POST_NOT_FOUND) && store.posts == old(store.posts)
    ensures id in old(store.posts) ==>
      && store.posts == old(store.posts)[id := AddLike(old(store.posts)[id])]
      && r.Success? && r.data.JObj? && "like_count" in r.data.fields
      && r.data.fields["like_count"] == JInt(old(store.posts)[id].likeCount + 1)
  {
    if id !in store.posts {
      return Failure(200, POST_NOT_FOUND);
    }
    store.ActionLike({id});
    assert UpdateAll(old(store.posts), {id}, AddLike) == old(store.posts)[id := AddLike(old(store.posts)[id])];
    r := Success(200, JObj(map["like_count" := JInt(store.posts[id].likeCount),
                                "message" := JStr("Post liked successfully")]));
  }

  // ================================================================ GET /posts/featured

  predicate FeaturedPublished(p: Post) { p.isFeatured && p.status == Published }

  /** The featured published posts, in listing order. */
  function Featured(posts: map<int, Post>, ids: seq<int>): (r: seq<int>)
    requires forall k :: 0 <= k < |ids| ==> ids[k] in posts
    ensures forall k :: 0 <= k < |r| ==> r[k] in posts && FeaturedPublished(posts[r[k]])
  {
    Select(posts, ids, FeaturedPublished)
  }

  /** `get_featured_posts`: every featured published post, and their count. */
  function GetFeaturedPosts(store: PostStore, users: map<int, string>): (r: Reply)
    reads store
    requires store.Valid()
    ensures r.Success? && r.status == 200 && r.data.JObj? && "count" in r.data.fields
    ensures r.data.fields["count"] == JInt(Count(store.posts, FeaturedPublished))
  {
    var ids := Featured(store.posts, store.Ids());
    SelectCount(store.posts, store.nextId, FeaturedPublished);
    Success(200, JObj(map["posts" := JArr(SerializePosts(store.posts, ids, users)), "count" := JInt(|ids|)]))
  }

  /** The featured listing holds each featured published post of the store
      exactly once, and nothing else. */
  lemma FeaturedListsAll(store: PostStore)
    requires store.Valid()
    ensures var ids := Featured(store.posts, store.Ids());
      && |ids| == Count(store.posts, FeaturedPublished)
      && (forall id :: id in store.posts && FeaturedPublished(store.posts[id]) ==> id in ids)
  {
    SelectCount(store.posts, store.nextId, FeaturedPublished);
  }

  // ================================================================ GET /posts/search

  const DEFAULT_SEARCH_LIMIT := 20
  const QUERY_REQUIRED := "Search query (q) is required"

  /** A published post whose title or content contains the query, ignoring
      case. */
  predicate Found(q: string, p: Post)
  {
    (ILike(p.title, q) || ILike(p.content, q)) && p.status == Published
  }

  /** The test of `search_posts`' domain. */
  function Searched(q: string): Post -> bool
  {
    (p: Post) => Found(q, p)
  }

  /** The ids a search lists: the found posts, at most `limit` of them
      (0 meaning all). */
  function SearchResults(posts: map<int, Post>, ids: seq<int>, q: string, limit: nat): (r: seq<int>)
    requires forall k :: 0 <= k < |ids| ==> ids[k] in posts
    ensures forall k :: 0 <= k < |r| ==> r[k] in posts && Found(q, posts[r[k]])
    ensures limit > 0 ==> |r| <= limit
    ensures limit == 0 ==> forall k :: 0 <= k < |ids| && Found(q, posts[ids[k]]) ==> ids[k] in r
  {
    Window(Select(posts, ids, Searched(q)), 0, limit)
  }

  /** Over an ascending listing the search lists the first found posts:
      ascending, as many as were found up to the limit, and every found
      post it leaves out comes after all those listed. */
  lemma SearchListsFirstFound(posts: map<int, Post>, ids: seq<int>, q: string, limit: nat)
    requires forall k :: 0 <= k < |ids| ==> ids[k] in posts
    requires Increasing(ids)
    ensures var r := SearchResults(posts, ids, q, limit);
      var n := |Satisfying(posts, ids, Searched(q))|;
      && Increasing(r)
      && |r| == (if limit == 0 || n <= limit then n else limit)
      && forall k, j :: 0 <= k < |ids| && Searched(q)(posts[ids[k]]) && ids[k] !in r && 0 <= j < |r| ==> r[j] < ids[k]
  {
    WindowOfSelect(posts, ids, Searched(q), limit);
  }

  /** `search_posts`: the limit is read first (an error there is a 500), then
      an empty query gives 400 and a negative limit is refused by the
      database; otherwise the search results. */
  function SearchPosts(store: PostStore, params: map<string, string>, users: map<int, string>): (r: Reply)
    reads store
    requires store.Valid()
    ensures LimitParam(params, DEFAULT_SEARCH_LIMIT, MAX_PAGE_SIZE).Err? ==> r == Failure(500, INTERNAL_ERROR)
    ensures LimitParam(params, DEFAULT_SEARCH_LIMIT, MAX_PAGE_SIZE).Ok? && ParamOr(params, "q", "") == "" ==>
      r == Failure(400, QUERY_REQUIRED)
    ensures r.Success? <==>
      && LimitParam(params, DEFAULT_SEARCH_LIMIT, MAX_PAGE_SIZE).Ok?
      && ParamOr(params, "q", "") != ""
      && LimitParam(params, DEFAULT_SEARCH_LIMIT, MAX_PAGE_SIZE).value >= 0
    ensures r.Success? ==>
      && r.status == 200 && r.data.JObj? && "posts" in r.data.fields
      && r.data.fields["posts"] == JArr(SerializePosts(store.posts,
           SearchResults(store.posts, store.Ids(), params["q"], LimitParam(params, DEFAULT_SEARCH_LIMIT, MAX_PAGE_SIZE).value),
           users))
  {
    var limit := LimitParam(params, DEFAULT_SEARCH_LIMIT, MAX_PAGE_SIZE);
    if limit.Err? then Failure(500, INTERNAL_ERROR)
    else if ParamOr(params, "q", "") == "" then Failure(400, QUERY_REQUIRED)
    else if limit.value < 0 then Failure(500, INTERNAL_ERROR)
    else
      var items := SerializePosts(store.posts, SearchResults(store.posts, store.Ids(), params["q"], limit.value), users);
      Success(200, JObj(map["posts" := JArr(items), "count" := JInt(|items|), "query" := JStr(params["q"])]))
  }

  /** Over the whole store the search lists as many posts as
      `search_count` finds, up to the limit. */
  lemma SearchCount(store: PostStore, q: string, limit: nat)
    requires store.Valid()
    ensures var n := Count(store.posts, Searched(q));
      |SearchResults(store.posts, store.Ids(), q, limit)| == if limit == 0 || n <= limit then n else limit
  {
    SearchListsFirstFound(store.posts, store.Ids(), q, limit);
    SelectCard(store.posts, store.Ids(), Searched(q));
    SelectCount(store.posts, store.nextId, Searched(q));
  }
}
