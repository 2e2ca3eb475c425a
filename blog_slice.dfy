/**
 * The blog API: its bearer-header rule, the request each endpoint issues, the
 * projection of list responses, and the "BlogModel" tag that list queries
 * provide and mutations invalidate.
 *
 * Tag invalidation is modelled by an abstract cache of list results: each
 * entry records the data, the tags its query provided and whether it is stale.
 */
module BlogSlice {
  import opened AuthTypes
  import Http

  // ---------------------------------------------------------------------------
  // Header rule
  // ---------------------------------------------------------------------------

  const AllPostsPath: string := "posts/all"
  const UserPostsPrefix: string := "posts/user"

  /** `s.startsWith(prefix)`. */
  predicate StartsWith(s: string, prefix: string) {
    |prefix| <= |s| && s[..|prefix|] == prefix
  }

  /**
   * The bearer header is set only for a truthy token and an endpoint other
   * than "posts/all" and not starting with "posts/user". `endpoint` is the
   * string the request library hands to `prepareHeaders`.
   */
  predicate BlogAttachesBearer(token: Option<string>, endpoint: string): (attach: bool)
    ensures attach ==> Http.Truthy(token)
    ensures endpoint == AllPostsPath ==> !attach
  {
    Http.Truthy(token) && endpoint != AllPostsPath && !StartsWith(endpoint, UserPostsPrefix)
  }

  /** The blog API's headers: the input entries, plus the bearer header when the rule allows it. */
  function BlogHeaders(entries: map<string, string>, token: Option<string>, endpoint: string): (r: map<string, string>)
    ensures BlogAttachesBearer(token, endpoint) ==>
              Http.AuthorizationHeader in r && r[Http.AuthorizationHeader] == Http.Bearer(token.value)
    ensures !BlogAttachesBearer(token, endpoint) ==> r == entries
    ensures forall k :: k != Http.AuthorizationHeader ==>
              (k in r <==> k in entries) && (k in entries ==> r[k] == entries[k])
  {
    if BlogAttachesBearer(token, endpoint) then
      entries[Http.AuthorizationHeader := Http.Bearer(token.value)]
    else
      entries
  }

  /** `prepareHeaders`: sets the header on the object it was given and returns that object. */
  method PrepareHeaders(headers: Http.Headers, token: Option<string>, endpoint: string) returns (r: Http.Headers)
    modifies headers
    ensures r == headers
    ensures headers.entries == BlogHeaders(old(headers.entries), token, endpoint)
  {
    if Http.Truthy(token) && endpoint != AllPostsPath && !StartsWith(endpoint, UserPostsPrefix) {
      headers.Set(Http.AuthorizationHeader, Http.Bearer(token.value));
    }
    r := headers;
  }

  /** Any endpoint string beginning with "posts/user" is sent without a bearer header. */
  lemma UserPrefixedEndpointsArePublic(token: Option<string>, suffix: string)
    ensures !BlogAttachesBearer(token, UserPostsPrefix + suffix)
  {
  }

  /**
   * The blog rule is the auth API's rule narrowed by the two public
   * endpoints: outside them both rules agree.
   */
  lemma BlogRuleNarrowsAuthRule(token: Option<string>, endpoint: string)
    ensures BlogAttachesBearer(token, endpoint) ==> Http.Truthy(token)
    ensures endpoint != AllPostsPath && !StartsWith(endpoint, UserPostsPrefix) ==>
              (BlogAttachesBearer(token, endpoint) <==> Http.Truthy(token))
  {
  }

  // ---------------------------------------------------------------------------
  // Endpoints as data
  // ---------------------------------------------------------------------------

  /** A request or response body: a flat JSON object. */
  type Body = map<string, string>

  /** A blog post as the server returns it. */
  datatype BlogModel = BlogModel(id: string, title: string, content: string, username: string)

  /** A delete request: the post's id and title, and whatever else the caller's object holds. */
  datatype DeleteRequest = DeleteRequest(id: string, title: string, rest: Body)

  /** The `{posts}` object both list endpoints answer with. */
  datatype PostsResponse = PostsResponse(posts: seq<BlogModel>)

  datatype HttpMethod = GET | POST | PUT | DELETE

  datatype Request = Request(url: string, verb: HttpMethod, body: Option<Body>)

  datatype Endpoint =
    | GetAllBlogPosts
    | GetBlogPostsByUsername(user: string)
    | CreatePost(create: Body)
    | DeletePost(deletion: DeleteRequest)
    | UpdatePost(update: Body)
  {
    predicate IsQuery() { GetAllBlogPosts? || GetBlogPostsByUsername? }
  }

  const BlogModelTag: string := "BlogModel"

  /** The request each endpoint's `query` builds (a bare URL string means GET). */
  function RequestOf(e: Endpoint): (r: Request)
    ensures e.IsQuery() <==> r.verb == GET
    ensures e.IsQuery() <==> r.body.None?
  {
    match e
    case GetAllBlogPosts => Request(AllPostsPath, GET, None)
    case GetBlogPostsByUsername(u) => Request("posts/user/" + u, GET, None)
    case CreatePost(b) => Request("posts/post/create", POST, Some(b))
    case DeletePost(d) => Request("posts/post/delete", DELETE, Some(map["id" := d.id, "title" := d.title]))
    case UpdatePost(b) => Request("posts/post/update", PUT, Some(b))
  }

  /** The username in a per-user list URL, the inverse of how that URL is built. */
  function UsernameOf(url: string): (u: Option<string>)
    ensures u.Some? ==> url == "posts/user/" + u.value
  {
    var prefix := "posts/user/";
    if StartsWith(url, prefix) then
      assert url == prefix + url[|prefix|..];
      Some(url[|prefix|..])
    else
      None
  }

  /** The per-user URL names its user, so different users never share a URL. */
  lemma UsernameUrlRoundTrip(u: string)
    ensures UsernameOf(RequestOf(GetBlogPostsByUsername(u)).url) == Some(u)
  {
  }

  /** Create and update send the caller's body unchanged; delete sends exactly `{id, title}`. */
  lemma RequestBodies(e: Endpoint)
    ensures e.CreatePost? ==> RequestOf(e).body == Some(e.create)
    ensures e.UpdatePost? ==> RequestOf(e).body == Some(e.update)
    ensures e.DeletePost? ==>
              RequestOf(e).body.Some? && RequestOf(e).body.value.Keys == {"id", "title"}
              && RequestOf(e).body.value["id"] == e.deletion.id && RequestOf(e).body.value["title"] == e.deletion.title
  {
  }

  /**
   * Were the endpoint string the request URL, both list queries would be
   * public and every mutation would carry the bearer header exactly when the
   * token is truthy.
   */
  lemma RuleOnRequestUrls(e: Endpoint, token: Option<string>)
    ensures e.IsQuery() ==> !BlogAttachesBearer(token, RequestOf(e).url)
    ensures !e.IsQuery() ==> (BlogAttachesBearer(token, RequestOf(e).url) <==> Http.Truthy(token))
  {
    match e
    case GetBlogPostsByUsername(u) =>
      assert "posts/user/" + u == UserPostsPrefix + ("/" + u);
      UserPrefixedEndpointsArePublic(token, "/" + u);
    case GetAllBlogPosts =>
    case _ =>
      var url := RequestOf(e).url;
      assert url[..|UserPostsPrefix|] != UserPostsPrefix by {
        assert url[6] != UserPostsPrefix[6];
      }
  }

  /** `transformResponse` of both list queries: the response's `posts`, as is. */
  function TransformResponse(response: PostsResponse): (posts: seq<BlogModel>)
    ensures |posts| == |response.posts|
    ensures forall i :: 0 <= i < |posts| ==> posts[i] == response.posts[i]
  {
    response.posts
  }

  /** `providesTags` of each endpoint: only the list queries provide a tag, "BlogModel". */
  function ProvidesTags(e: Endpoint): (tags: set<string>)
    ensures tags <= {BlogModelTag}
    ensures BlogModelTag in tags <==> e.IsQuery()
  {
    if e.IsQuery() then {BlogModelTag} else {}
  }

  /** `invalidatesTags` of each endpoint: every mutation invalidates every tag a list query provides. */
  function InvalidatesTags(e: Endpoint): (tags: set<string>)
    ensures tags <= {BlogModelTag}
    ensures BlogModelTag in tags <==> !e.IsQuery()
    ensures !e.IsQuery() ==> forall q: Endpoint :: q.IsQuery() ==> ProvidesTags(q) <= tags
  {
    if e.IsQuery() then {} else {BlogModelTag}
  }

  // ---------------------------------------------------------------------------
  // Tag cache
  // ---------------------------------------------------------------------------

  /** A cached list result. */
  datatype Entry = Entry(data: seq<BlogModel>, tags: set<string>, stale: bool)

  /** Cached list results, keyed by the query endpoint and its argument. */
  type Cache = map<Endpoint, Entry>

  datatype CacheEvent =
    | QueryFulfilled(query: Endpoint, response: PostsResponse)
    | MutationFulfilled(mutation: Endpoint)

  /** Every entry belongs to a list query and carries the tags that query provides. */
  predicate WellTagged(c: Cache) {
    forall q :: q in c ==> q.IsQuery() && c[q].tags == ProvidesTags(q)
  }

  /** A fulfilled query stores its transformed response, fresh, under its own key. */
  function OnQueryFulfilled(c: Cache, q: Endpoint, response: PostsResponse): (d: Cache)
    requires q.IsQuery()
    ensures d.Keys == c.Keys + {q}
    ensures d[q].data == response.posts && !d[q].stale
    ensures forall k :: k in c && k != q ==> d[k] == c[k]
  {
    c[q := Entry(TransformResponse(response), ProvidesTags(q), false)]
  }

  /** A fulfilled mutation marks stale every entry sharing a tag it invalidates. */
  function OnMutationFulfilled(c: Cache, m: Endpoint): (d: Cache)
    ensures d.Keys == c.Keys
    ensures forall k :: k in c ==> d[k].data == c[k].data && d[k].tags == c[k].tags
    ensures forall k :: k in c && c[k].tags * InvalidatesTags(m) == {} ==> d[k] == c[k]
    ensures forall k :: k in c && c[k].tags * InvalidatesTags(m) != {} ==> d[k].stale
  {
    map k | k in c :: if c[k].tags * InvalidatesTags(m) != {} then c[k].(stale := true) else c[k]
  }

  function Apply(c: Cache, ev: CacheEvent): Cache {
    match ev
    case QueryFulfilled(q, response) => if q.IsQuery() then OnQueryFulfilled(c, q, response) else c
    case MutationFulfilled(m) => if m.IsQuery() then c else OnMutationFulfilled(c, m)
  }

  function ApplyAll(c: Cache, evs: seq<CacheEvent>): Cache
    decreases |evs|
  {
    if evs == [] then c else ApplyAll(Apply(c, evs[0]), evs[1..])
  }

  /** After any successful create, delete or update, every cached list is stale. */
  lemma MutationMarksAllStale(c: Cache, m: Endpoint)
    requires WellTagged(c) && !m.IsQuery()
    ensures forall k :: k in OnMutationFulfilled(c, m) ==> OnMutationFulfilled(c, m)[k].stale
  {
    forall k | k in c ensures OnMutationFulfilled(c, m)[k].stale {
      assert BlogModelTag in c[k].tags * InvalidatesTags(m);
    }
  }

  /** The cache stays well tagged whatever happens to it. */
  lemma {:induction false} ApplyAllWellTagged(c: Cache, evs: seq<CacheEvent>)
    requires WellTagged(c)
    ensures WellTagged(ApplyAll(c, evs))
    decreases |evs|
  {
    if evs != [] {
      ApplyAllWellTagged(Apply(c, evs[0]), evs[1..]);
    }
  }

  /** A list query fulfilled in `evs`. */
  predicate Refetches(evs: seq<CacheEvent>, q: Endpoint) {
    exists i :: 0 <= i < |evs| && evs[i].QueryFulfilled? && evs[i].query == q
  }

  /** A stale entry stays stale until its own query is fulfilled again. */
  lemma {:induction false} StaleUntilRefetched(c: Cache, evs: seq<CacheEvent>, q: Endpoint)
    requires q in c && c[q].stale
    requires !Refetches(evs, q)
    ensures q in ApplyAll(c, evs) && ApplyAll(c, evs)[q].stale
    decreases |evs|
  {
    if evs != [] {
      assert !Refetches(evs[1..], q);
      assert !(evs[0].QueryFulfilled? && evs[0].query == q);
      StaleUntilRefetched(Apply(c, evs[0]), evs[1..], q);
    }
  }

  /**
   * Once a create, delete or update has succeeded, every list that was cached
   * before it reads as stale until its own query has been fulfilled again.
   */
  lemma {:induction false} StaleAfterMutation(c: Cache, m: Endpoint, evs: seq<CacheEvent>, q: Endpoint)
    requires WellTagged(c) && !m.IsQuery() && q in c
    requires !Refetches(evs, q)
    ensures var d := ApplyAll(c, [MutationFulfilled(m)] + evs); q in d && d[q].stale
  {
    MutationMarksAllStale(c, m);
    var evs' := [MutationFulfilled(m)] + evs;
    assert evs'[0] == MutationFulfilled(m) && evs'[1..] == evs;
    StaleUntilRefetched(OnMutationFulfilled(c, m), evs, q);
  }
}
