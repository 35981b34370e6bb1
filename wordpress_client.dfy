/** The WordPress REST client (`WordPressClient` in wordpress_client.py).
    The HTTP server is a function from a request to a response, so a run of
    the client is determined by that function and the client's settings. */
module WordPress {
  import opened Wrappers
  import opened Json
  import opened Config

  // ---------------------------------------------------------------------
  // Client construction and requests
  // ---------------------------------------------------------------------

  const MaxPerPage: int := 100
  const PostsEndpoint: string := "/wp-json/wp/v2/posts"
  const InvalidPageNumberCode: string := "rest_post_invalid_page_number"
  /** The `_fields` projection asked of the server. */
  const RequestedFields: seq<string> :=
    ["id", "date", "slug", "status", "type", "link",
     "title.rendered", "content.rendered", "excerpt.rendered"]

  /** HTTP basic-auth credentials attached to the session. */
  datatype Credentials = Credentials(username: string, password: string)

  /** A client: its settings and the session's authentication, fixed at construction. */
  datatype Client = Client(config: WordPressConfig, auth: Option<Credentials>)

  /** Python truthiness of an optional string: present and non-empty. */
  predicate Truthy(s: Option<string>)
    ensures Truthy(s) <==> s != None && s != Some("")
  {
    s.Some? && s.value != []
  }

  /** `WordPressClient.__init__`: basic auth only when both the username
      and the application password are truthy. */
  function NewClient(config: WordPressConfig): (c: Client)
    ensures c.config == config
    ensures c.auth.Some? <==> Truthy(config.username) && Truthy(config.applicationPassword)
    ensures c.auth.Some? ==>
      c.auth.value.username == config.username.value &&
      c.auth.value.password == config.applicationPassword.value
  {
    if Truthy(config.username) && Truthy(config.applicationPassword) then
      Client(config, Some(Credentials(config.username.value, config.applicationPassword.value)))
    else
      Client(config, None)
  }

  /** One GET of the posts endpoint with its query parameters. */
  datatype Request = Request(
    url: string,
    after: string,
    page: nat,
    perPage: int,
    orderBy: string,
    order: string,
    fields: seq<string>,
    auth: Option<Credentials>)

  /** The request `_fetch_paginated` sends for page number `page`. */
  function RequestAt(c: Client, after: string, page: nat): (r: Request)
    ensures r.page == page && r.after == after && r.auth == c.auth
    ensures r.perPage <= MaxPerPage && r.perPage <= c.config.perPage
    ensures r.perPage == c.config.perPage || r.perPage == MaxPerPage
    ensures c.config.perPage > 0 ==> 0 < r.perPage
    ensures r.url == c.config.baseUrl + PostsEndpoint
    ensures r.orderBy == "date" && r.order == "asc" && r.fields == RequestedFields
  {
    Request(
      c.config.baseUrl + PostsEndpoint,
      after,
      page,
      if c.config.perPage < MaxPerPage then c.config.perPage else MaxPerPage,
      "date",
      "asc",
      RequestedFields,
      c.auth)
  }

  // ---------------------------------------------------------------------
  // Handling one response
  // ---------------------------------------------------------------------

  /** What the server can answer: a JSON array of posts (status 2xx), a 400
      whose body is JSON, a 400 whose body is not JSON, or any other
      4xx/5xx status. */
  datatype Response =
    | Page(posts: seq<Object>)
    | BadRequestJson(body: Value)
    | BadRequestNotJson
    | ErrorStatus(status: int)

  /** The failures that abort a fetch. */
  datatype FetchError =
    | HttpError(status: int)   // `raise_for_status` raised
    | ErrorBodyNotObject       // `error.get` on a JSON body that is not an object
    | DateFormatInvalid        // `_format_after` rejected the configured date

  /** What the loop does with one response. */
  datatype Step = Yield(posts: seq<Object>) | EndOfData | Abort(error: FetchError)

  /** A 400 whose JSON body has `code == "rest_post_invalid_page_number"`. */
  predicate IsInvalidPageNumber(r: Response)
  {
    && r.BadRequestJson?
    && r.body.Obj?
    && "code" in r.body.fields
    && r.body.fields["code"] == Str(InvalidPageNumberCode)
  }

  /** Lines 60-75 of one loop iteration. The `continue` after a 400 with a
      non-JSON body is never reached, since `raise_for_status` raises on 400. */
  function Classify(r: Response): (s: Step)
    ensures s.EndOfData? <==> r == Page([]) || IsInvalidPageNumber(r)
    ensures s.Yield? <==> r.Page? && r.posts != []
    ensures s.Yield? ==> s.posts == r.posts
    ensures s.Abort? <==> !r.Page? && !IsInvalidPageNumber(r)
    ensures s == Abort(ErrorBodyNotObject) <==> r.BadRequestJson? && !r.body.Obj?
    ensures r.ErrorStatus? ==> s == Abort(HttpError(r.status))
    ensures r.BadRequestNotJson? || (r.BadRequestJson? && r.body.Obj? && !IsInvalidPageNumber(r)) ==>
      s == Abort(HttpError(400))
  {
    match r
    case BadRequestNotJson => Abort(HttpError(400))
    case BadRequestJson(body) =>
      if !body.Obj? then Abort(ErrorBodyNotObject)
      else if IsInvalidPageNumber(r) then EndOfData
      else Abort(HttpError(400))
    case ErrorStatus(status) => Abort(HttpError(status))
    case Page(posts) => if posts == [] then EndOfData else Yield(posts)
  }

  /** The response ends the page loop, normally or with an error. */
  predicate Ends(r: Response)
  {
    !Classify(r).Yield?
  }

  /** A server and a page number `last` whose response ends the loop. */
  predicate Bounded(server: Request -> Response, c: Client, after: string, page: nat, last: nat)
  {
    1 <= page <= last && Ends(server(RequestAt(c, after, last)))
  }

  // ---------------------------------------------------------------------
  // Pagination
  // ---------------------------------------------------------------------

  /** The first page from `page` on whose response ends the loop. */
  function FirstEnd(server: Request -> Response, c: Client, after: string, page: nat, last: nat): (n: nat)
    requires Bounded(server, c, after, page, last)
    ensures page <= n <= last
    ensures Ends(server(RequestAt(c, after, n)))
    ensures forall p :: page <= p < n ==> Classify(server(RequestAt(c, after, p))).Yield?
    decreases last - page
  {
    if Ends(server(RequestAt(c, after, page))) then page
    else FirstEnd(server, c, after, page + 1, last)
  }

  /** Prefixes earlier batches to the outcome of the rest of the run. */
  function Prepend(batches: seq<seq<Object>>, rest: Result<seq<seq<Object>>, FetchError>): Result<seq<seq<Object>>, FetchError>
  {
    match rest
    case Ok(later) => Ok(batches + later)
    case Err(e) => Err(e)
  }

  lemma PrependNothing(rest: Result<seq<seq<Object>>, FetchError>)
    ensures Prepend([], rest) == rest
  {
    if rest.Ok? {
      assert [] + rest.value == rest.value;
    }
  }

  lemma PrependTwice(a: seq<seq<Object>>, b: seq<seq<Object>>, rest: Result<seq<seq<Object>>, FetchError>)
    ensures Prepend(a, Prepend(b, rest)) == Prepend(a + b, rest)
  {
    if rest.Ok? {
      assert a + (b + rest.value) == (a + b) + rest.value;
    }
  }

  /** The batches `_fetch_paginated` yields from page `page` on, or the
      error that ends the generator. */
  function Crawl(server: Request -> Response, c: Client, after: string, page: nat, last: nat): (r: Result<seq<seq<Object>>, FetchError>)
    requires Bounded(server, c, after, page, last)
    ensures r.Ok? ==> |r.value| <= last - page
    ensures r.Ok? ==> forall i :: 0 <= i < |r.value| ==> r.value[i] != []
    decreases last - page
  {
    match Classify(server(RequestAt(c, after, page)))
    case EndOfData => Ok([])
    case Abort(e) => Err(e)
    case Yield(posts) => Prepend([posts], Crawl(server, c, after, page + 1, last))
  }

  /** A run succeeds exactly when its first ending response is an end of
      data; it then holds every page before it, in page order, none empty.
      Otherwise it fails with that response's error. */
  lemma {:induction false} CrawlOutcome(server: Request -> Response, c: Client, after: string, page: nat, last: nat)
    requires Bounded(server, c, after, page, last)
    ensures var n := FirstEnd(server, c, after, page, last);
      && (Crawl(server, c, after, page, last).Ok? <==> Classify(server(RequestAt(c, after, n))).EndOfData?)
      && (Crawl(server, c, after, page, last).Err? ==>
            Classify(server(RequestAt(c, after, n))) == Abort(Crawl(server, c, after, page, last).error))
      && (Crawl(server, c, after, page, last).Ok? ==>
            var batches := Crawl(server, c, after, page, last).value;
            && |batches| == n - page
            && forall i :: 0 <= i < |batches| ==>
                 batches[i] != [] && server(RequestAt(c, after, page + i)) == Page(batches[i]))
    decreases last - page
  {
    if !Ends(server(RequestAt(c, after, page))) {
      CrawlOutcome(server, c, after, page + 1, last);
      var rest := Crawl(server, c, after, page + 1, last);
      if rest.Ok? {
        var batches := Crawl(server, c, after, page, last).value;
        forall i | 0 <= i < |batches|
          ensures batches[i] != [] && server(RequestAt(c, after, page + i)) == Page(batches[i])
        {
          if i > 0 {
            assert batches[i] == rest.value[i - 1];
          }
        }
      }
    }
  }

  /** The run does not depend on which ending page was used to bound it. */
  lemma {:induction false} CrawlBoundIrrelevant(server: Request -> Response, c: Client, after: string, page: nat, last1: nat, last2: nat)
    requires Bounded(server, c, after, page, last1)
    requires Bounded(server, c, after, page, last2)
    ensures Crawl(server, c, after, page, last1) == Crawl(server, c, after, page, last2)
    decreases last1 - page
  {
    if !Ends(server(RequestAt(c, after, page))) {
      CrawlBoundIrrelevant(server, c, after, page + 1, last1, last2);
    }
  }

  /** Two servers whose responses are handled alike on pages `page` to
      `last` give the same run. */
  lemma {:induction false} CrawlDependsOnSteps(s1: Request -> Response, s2: Request -> Response, c: Client, after: string, page: nat, last: nat)
    requires Bounded(s1, c, after, page, last)
    requires forall p :: page <= p <= last ==>
      Classify(s1(RequestAt(c, after, p))) == Classify(s2(RequestAt(c, after, p)))
    ensures Bounded(s2, c, after, page, last)
    ensures Crawl(s1, c, after, page, last) == Crawl(s2, c, after, page, last)
    decreases last - page
  {
    if !Ends(s1(RequestAt(c, after, page))) {
      CrawlDependsOnSteps(s1, s2, c, after, page + 1, last);
    }
  }

  /** An empty page and an "invalid page number" 400 at the same position
      end the run identically. */
  lemma EmptyPageSameAsInvalidPage(s1: Request -> Response, s2: Request -> Response, c: Client, after: string, k: nat)
    requires 1 <= k
    requires forall p :: 1 <= p < k ==> s1(RequestAt(c, after, p)) == s2(RequestAt(c, after, p))
    requires s1(RequestAt(c, after, k)) == Page([])
    requires IsInvalidPageNumber(s2(RequestAt(c, after, k)))
    ensures Bounded(s1, c, after, 1, k) && Bounded(s2, c, after, 1, k)
    ensures Crawl(s1, c, after, 1, k) == Crawl(s2, c, after, 1, k)
  {
    CrawlDependsOnSteps(s1, s2, c, after, 1, k);
  }

  /** `_fetch_paginated`: requests pages 1, 2, 3, ... until a response ends
      the loop. `requests` records the traffic; `last` is a page known to
      end the run (against a server that never ends it, `_fetch_paginated` loops forever). */
  method FetchPaginated(server: Request -> Response, c: Client, after: string, ghost last: nat)
    returns (outcome: Result<seq<seq<Object>>, FetchError>, ghost requests: seq<Request>)
    requires Bounded(server, c, after, 1, last)
    ensures outcome == Crawl(server, c, after, 1, last)
    ensures 1 <= |requests| <= last
    ensures forall i :: 0 <= i < |requests| ==> requests[i] == RequestAt(c, after, i + 1)
    ensures forall i :: 0 <= i < |requests| - 1 ==> Classify(server(requests[i])).Yield?
    ensures Ends(server(requests[|requests| - 1]))
  {
    var page: nat := 1;
    var batches: seq<seq<Object>> := [];
    requests := [];
    PrependNothing(Crawl(server, c, after, 1, last));
    while true
      invariant 1 <= page <= last
      invariant |requests| == page - 1
      invariant forall i :: 0 <= i < |requests| ==> requests[i] == RequestAt(c, after, i + 1)
      invariant forall i :: 0 <= i < |requests| ==> Classify(server(requests[i])).Yield?
      invariant Crawl(server, c, after, 1, last) == Prepend(batches, Crawl(server, c, after, page, last))
      decreases last - page
    {
      var request := RequestAt(c, after, page);
      requests := requests + [request];
      var response := server(request);
      match Classify(response)
      case EndOfData =>
        assert batches + [] == batches;
        outcome := Ok(batches);
        return;
      case Abort(e) =>
        outcome := Err(e);
        return;
      case Yield(posts) =>
        PrependTwice(batches, [posts], Crawl(server, c, after, page + 1, last));
        batches := batches + [posts];
        page := page + 1;
    }
  }

  // ---------------------------------------------------------------------
  // Safe nested lookup and projection
  // ---------------------------------------------------------------------

  /** One step of a path lookup: the value under `key` when `v` is an
      object holding it, `None` otherwise. */
  function Descend(v: Value, key: string): Value
  {
    if v.Obj? && key in v.fields then v.fields[key] else Null
  }

  /** The value `_get_nested(data, *keys)` returns. */
  function Lookup(data: Value, keys: seq<string>): (r: Value)
    ensures keys == [] ==> r == data
    ensures keys != [] && !data.Obj? ==> r == Null
    ensures keys != [] && data.Obj? && keys[0] !in data.fields ==> r == Null
    decreases |keys|
  {
    if keys == [] then data
    else match data
      case Obj(fields) => if keys[0] in fields then Lookup(fields[keys[0]], keys[1..]) else Null
      case _ => Null
  }

  /** Adding a key to the end of a path is one more step from where the
      shorter path ended. */
  lemma {:induction false} LookupSnoc(data: Value, keys: seq<string>, key: string)
    ensures Lookup(data, keys + [key]) == Descend(Lookup(data, keys), key)
    decreases |keys|
  {
    if keys != [] {
      assert (keys + [key])[0] == keys[0];
      assert (keys + [key])[1..] == keys[1..] + [key];
      if data.Obj? && keys[0] in data.fields {
        LookupSnoc(data.fields[keys[0]], keys[1..], key);
      }
    }
  }

  /** Looking up a path in two parts is looking up the second part from
      the end of the first. */
  lemma {:induction false} LookupAppend(data: Value, first: seq<string>, second: seq<string>)
    ensures Lookup(data, first + second) == Lookup(Lookup(data, first), second)
    decreases |first|
  {
    if first == [] {
      assert first + second == second;
    } else {
      assert (first + second)[0] == first[0];
      assert (first + second)[1..] == first[1..] + second;
      if data.Obj? && first[0] in data.fields {
        LookupAppend(data.fields[first[0]], first[1..], second);
      } else {
        assert Lookup(data, first) == Null;
        if second != [] {
          assert Lookup(Null, second) == Null;
        }
      }
    }
  }

  /** As soon as an intermediate value is not an object or lacks the next
      key, the whole lookup is `None`. */
  lemma LookupMissing(data: Value, keys: seq<string>, i: nat)
    requires i < |keys|
    requires !Lookup(data, keys[..i]).Obj? || keys[i] !in Lookup(data, keys[..i]).fields
    ensures Lookup(data, keys) == Null
  {
    assert keys == keys[..i] + keys[i..];
    LookupAppend(data, keys[..i], keys[i..]);
  }

  /** `_get_nested`: walks the path, reassigning `current`, and returns
      `None` at the first step that cannot be taken. */
  method GetNested(data: Value, keys: seq<string>) returns (r: Value)
    ensures r == Lookup(data, keys)
    ensures keys == [] ==> r == data
  {
    var current := data;
    var i := 0;
    while i < |keys|
      invariant 0 <= i <= |keys|
      invariant Lookup(data, keys) == Lookup(current, keys[i..])
    {
      var key := keys[i];
      if !current.Obj? || key !in current.fields {
        return Null;
      }
      assert keys[i..][1..] == keys[i + 1..];
      current := current.fields[key];
      i := i + 1;
    }
    assert keys[i..] == [];
    return current;
  }

  /** Top-level keys `_extract_fields` copies as they are. */
  const TopLevelFields: seq<string> := ["id", "date", "slug", "status", "type", "link"]
  /** Keys `_extract_fields` takes from the nested `rendered` value. */
  const RenderedFields: seq<string> := ["title", "content", "excerpt"]

  /** The nested `rendered` value of `post[key]`, or `None`. */
  function Rendered(post: Object, key: string): Value
  {
    if key in post && post[key].Obj? && "rendered" in post[key].fields
    then post[key].fields["rendered"]
    else Null
  }

  /** The keys of every extracted record. */
  const ExtractedFields: seq<string> := TopLevelFields + RenderedFields

  /** A two-key path into a post is its nested lookup. */
  lemma LookupTwoKeys(post: Object, key: string, sub: string)
    ensures Lookup(Obj(post), [key, sub]) ==
      if key in post && post[key].Obj? && sub in post[key].fields then post[key].fields[sub] else Null
  {
  }

  /** `_extract_fields`: the flat record of one post, keyed by exactly the
      nine extracted fields; a missing key or a missing nested value is `None`. */
  function ExtractFields(post: Object): (r: Object)
    ensures forall k :: k in r <==> k in ExtractedFields
    ensures forall k :: k in TopLevelFields ==> r[k] == Get(post, k)
    ensures forall k :: k in RenderedFields ==> r[k] == Rendered(post, k)
  {
    var r := map k | k in ExtractedFields ::
      if k in RenderedFields then Lookup(Obj(post), [k, "rendered"]) else Get(post, k);
    assert forall k :: k in RenderedFields ==> r[k] == Rendered(post, k) by {
      forall k | k in RenderedFields ensures r[k] == Rendered(post, k) {
        LookupTwoKeys(post, k, "rendered");
      }
    }
    r
  }

  // ---------------------------------------------------------------------
  // fetch_posts
  // ---------------------------------------------------------------------

  /** All batches joined in order. */
  function Concat(batches: seq<seq<Object>>): (r: seq<Object>)
    ensures |r| == TotalLength(batches)
    decreases |batches|
  {
    if batches == [] then [] else Concat(batches[..|batches| - 1]) + batches[|batches| - 1]
  }

  /** The sum of the batch lengths. */
  function TotalLength(batches: seq<seq<Object>>): nat
    decreases |batches|
  {
    if batches == [] then 0 else TotalLength(batches[..|batches| - 1]) + |batches[|batches| - 1]|
  }

  /** Post `j` of batch `i` sits after every post of the earlier batches:
      request order is kept. */
  lemma {:induction false} ConcatAt(batches: seq<seq<Object>>, i: nat, j: nat)
    requires i < |batches| && j < |batches[i]|
    ensures TotalLength(batches[..i]) + j < |Concat(batches)|
    ensures Concat(batches)[TotalLength(batches[..i]) + j] == batches[i][j]
    decreases |batches|
  {
    var init := batches[..|batches| - 1];
    if i == |batches| - 1 {
      assert batches[..i] == init;
    } else {
      assert init[..i] == batches[..i];
      ConcatAt(init, i, j);
    }
  }

  /** The list comprehension `[self._extract_fields(post) for post in posts]`. */
  function ProjectAll(posts: seq<Object>): (r: seq<Object>)
    ensures |r| == |posts|
    ensures forall i :: 0 <= i < |posts| ==> r[i] == ExtractFields(posts[i])
  {
    seq(|posts|, i requires 0 <= i < |posts| => ExtractFields(posts[i]))
  }

  /** `fetch_posts`: the projections of every yielded page, in request order,
      or the error of the first page that failed. `formatAfter` stands for
      `_format_after`, `None` being the `ValueError` it may raise. */
  method FetchPosts(c: Client, server: Request -> Response, formatAfter: string -> Option<string>, ghost last: nat)
    returns (result: Result<seq<Object>, FetchError>)
    requires formatAfter(c.config.date).Some? ==> Bounded(server, c, formatAfter(c.config.date).value, 1, last)
    ensures formatAfter(c.config.date).None? ==> result == Err(DateFormatInvalid)
    ensures formatAfter(c.config.date).Some? ==>
      match Crawl(server, c, formatAfter(c.config.date).value, 1, last)
      case Err(e) => result == Err(e)
      case Ok(batches) =>
        && result.Ok?
        && |result.value| == TotalLength(batches)
        && forall i :: 0 <= i < |result.value| ==> result.value[i] == ExtractFields(Concat(batches)[i])
  {
    var after := formatAfter(c.config.date);
    if after.None? {
      return Err(DateFormatInvalid);
    }
    var outcome, _ := FetchPaginated(server, c, after.value, last);
    if outcome.Err? {
      return Err(outcome.error);
    }
    var batches := outcome.value;
    var posts: seq<Object> := [];
    var i := 0;
    while i < |batches|
      invariant 0 <= i <= |batches|
      invariant posts == Concat(batches[..i])
    {
      assert batches[..i + 1][..i] == batches[..i];
      posts := posts + batches[i];
      i := i + 1;
    }
    assert batches[..i] == batches;
    return Ok(ProjectAll(posts));
  }
}
