/**
 * The reference API client `Zero` and its response `ZeroResponse`
 * (alfajor/apiclient/zero.py). `open` is the single request primitive; the six
 * verb methods only shape their arguments into one `open` call and return what
 * it returns. The reference client does no work: every response has fixed
 * values and remembers the client that produced it.
 */
module ZeroClient {
  import opened Wrappers

  /** Request headers, the iterable of (name, value) pairs passed as `headers`. */
  type Headers = seq<(string, string)>

  /** Query-string or form fields, the mapping passed as `query` or `post`. */
  type Fields = map<string, string>

  /** The eight arguments of one `open` call; `verb` is its `method` argument. */
  datatype Request = Request(
    uri: string,
    verb: string,
    query: Option<Fields>,
    post: Option<Fields>,
    body: Option<string>,
    baseUrl: Option<string>,
    headers: Headers,
    httpVersion: Option<string>)

  /** One call of a verb method, holding exactly the parameters that method exposes. */
  datatype Call =
    | GetCall(uri: string, query: Option<Fields>, baseUrl: Option<string>, headers: Headers)
    | HeadCall(uri: string, query: Option<Fields>, baseUrl: Option<string>, headers: Headers)
    | PostCall(uri: string, post: Option<Fields>, baseUrl: Option<string>, headers: Headers)
    | PutCall(uri: string, body: Option<string>, baseUrl: Option<string>, headers: Headers)
    | DeleteCall(uri: string, baseUrl: Option<string>, headers: Headers)
    | OptionsCall(uri: string, body: Option<string>, baseUrl: Option<string>, headers: Headers)

  /** The verb tokens the verb methods pass to `open`. */
  const VerbTokens: set<string> := {"GET", "HEAD", "POST", "PUT", "DELETE", "OPTIONS"}

  /**
   * The record a verb call hands to `open`: the verb token fixed, the uri,
   * base URL and headers forwarded, the verb's own payload forwarded, and
   * every other argument left at its default.
   */
  function Shape(call: Call): (r: Request)
    ensures r.uri == call.uri && r.baseUrl == call.baseUrl && r.headers == call.headers
    ensures r.verb in VerbTokens && r.httpVersion == None
  {
    match call
    case GetCall(uri, query, baseUrl, headers) =>
      Request(uri, "GET", query, None, None, baseUrl, headers, None)
    case HeadCall(uri, query, baseUrl, headers) =>
      Request(uri, "HEAD", query, None, None, baseUrl, headers, None)
    case PostCall(uri, post, baseUrl, headers) =>
      Request(uri, "POST", None, post, None, baseUrl, headers, None)
    case PutCall(uri, body, baseUrl, headers) =>
      Request(uri, "PUT", None, None, body, baseUrl, headers, None)
    case DeleteCall(uri, baseUrl, headers) =>
      Request(uri, "DELETE", None, None, None, baseUrl, headers, None)
    case OptionsCall(uri, body, baseUrl, headers) =>
      Request(uri, "OPTIONS", None, None, body, baseUrl, headers, None)
  }

  /**
   * The requests a verb method may hand to `open`, stated by the payload
   * table: a verb token, no HTTP version override, a query only for GET and
   * HEAD, post data only for POST, a raw body only for PUT and OPTIONS.
   */
  predicate WellShaped(r: Request) {
    && r.verb in VerbTokens
    && r.httpVersion.None?
    && (r.query.Some? ==> r.verb == "GET" || r.verb == "HEAD")
    && (r.post.Some? ==> r.verb == "POST")
    && (r.body.Some? ==> r.verb == "PUT" || r.verb == "OPTIONS")
  }

  /** Recovers the verb call that produced an `open` request, if there is one. */
  function Classify(r: Request): Option<Call> {
    if r.httpVersion.Some? then None
    else if r.verb == "GET" && r.post.None? && r.body.None? then
      Some(GetCall(r.uri, r.query, r.baseUrl, r.headers))
    else if r.verb == "HEAD" && r.post.None? && r.body.None? then
      Some(HeadCall(r.uri, r.query, r.baseUrl, r.headers))
    else if r.verb == "POST" && r.query.None? && r.body.None? then
      Some(PostCall(r.uri, r.post, r.baseUrl, r.headers))
    else if r.verb == "PUT" && r.query.None? && r.post.None? then
      Some(PutCall(r.uri, r.body, r.baseUrl, r.headers))
    else if r.verb == "DELETE" && r.query.None? && r.post.None? && r.body.None? then
      Some(DeleteCall(r.uri, r.baseUrl, r.headers))
    else if r.verb == "OPTIONS" && r.query.None? && r.post.None? then
      Some(OptionsCall(r.uri, r.body, r.baseUrl, r.headers))
    else None
  }

  // ---- The verb methods over an arbitrary `open` ----
  // `self.open` is the extension point: a client that overrides it keeps the
  // verb methods, so they are stated here for every implementation of `open`.

  /** `get`: calls `open` with GET and returns what it returns. */
  function GetVia<R>(open: Request -> R, uri: string, query: Option<Fields>,
                     baseUrl: Option<string>, headers: Headers): (r: R)
    ensures r == open(Shape(GetCall(uri, query, baseUrl, headers)))
  {
    open(Request(uri, "GET", query, None, None, baseUrl, headers, None))
  }

  /** `head`: calls `open` with HEAD and returns what it returns. */
  function HeadVia<R>(open: Request -> R, uri: string, query: Option<Fields>,
                      baseUrl: Option<string>, headers: Headers): (r: R)
    ensures r == open(Shape(HeadCall(uri, query, baseUrl, headers)))
  {
    open(Request(uri, "HEAD", query, None, None, baseUrl, headers, None))
  }

  /** `post`: calls `open` with POST and returns what it returns. */
  function PostVia<R>(open: Request -> R, uri: string, post: Option<Fields>,
                      baseUrl: Option<string>, headers: Headers): (r: R)
    ensures r == open(Shape(PostCall(uri, post, baseUrl, headers)))
  {
    open(Request(uri, "POST", None, post, None, baseUrl, headers, None))
  }

  /** `put`: calls `open` with PUT and returns what it returns. */
  function PutVia<R>(open: Request -> R, uri: string, body: Option<string>,
                     baseUrl: Option<string>, headers: Headers): (r: R)
    ensures r == open(Shape(PutCall(uri, body, baseUrl, headers)))
  {
    open(Request(uri, "PUT", None, None, body, baseUrl, headers, None))
  }

  /** `delete`: calls `open` with DELETE and returns what it returns. */
  function DeleteVia<R>(open: Request -> R, uri: string, baseUrl: Option<string>, headers: Headers): (r: R)
    ensures r == open(Shape(DeleteCall(uri, baseUrl, headers)))
  {
    open(Request(uri, "DELETE", None, None, None, baseUrl, headers, None))
  }

  /** `options`: calls `open` with OPTIONS and returns what it returns. */
  function OptionsVia<R>(open: Request -> R, uri: string, body: Option<string>,
                         baseUrl: Option<string>, headers: Headers): (r: R)
    ensures r == open(Shape(OptionsCall(uri, body, baseUrl, headers)))
  {
    open(Request(uri, "OPTIONS", None, None, body, baseUrl, headers, None))
  }

  /** The verb method that `call` names, over the given `open`. */
  function InvokeVia<R>(open: Request -> R, call: Call): (r: R)
    ensures r == open(Shape(call))
  {
    match call
    case GetCall(uri, query, baseUrl, headers) => GetVia(open, uri, query, baseUrl, headers)
    case HeadCall(uri, query, baseUrl, headers) => HeadVia(open, uri, query, baseUrl, headers)
    case PostCall(uri, post, baseUrl, headers) => PostVia(open, uri, post, baseUrl, headers)
    case PutCall(uri, body, baseUrl, headers) => PutVia(open, uri, body, baseUrl, headers)
    case DeleteCall(uri, baseUrl, headers) => DeleteVia(open, uri, baseUrl, headers)
    case OptionsCall(uri, body, baseUrl, headers) => OptionsVia(open, uri, body, baseUrl, headers)
  }

  /** A non-functional API client. It holds no state of its own. */
  class Zero {
    /** Capabilities provided by this client: none. */
    const capabilities: seq<string> := []

    /** Default HTTP version for new requests. */
    const httpVersion: string := "HTTP/1.0"

    const userAgent: map<string, string> :=
      map["browser" := "zero-client", "platform" := "python", "version" := "0.1"]

    /** `Zero()`: the class declares no initialiser, so nothing is stored. */
    constructor ()
    {
    }

    /** Issues a request: whatever the arguments, a fixed response born from this client. */
    function Open(req: Request): (r: ZeroResponse)
      ensures r.Client() == this
      ensures r.statusCode == 0 && r.status == None && r.requestUri == None
      ensures r.headers == map[] && r.cookies == map[]
      ensures r.response == None && !r.isJson && r.json == None
    {
      ZeroResponse(this)
    }

    /** `get`: the generic GET wrapper over this client's own `open`; it answers what `open` answers on the GET record. */
    function Get(uri: string, query: Option<Fields> := None, baseUrl: Option<string> := None,
                 headers: Headers := []): (r: ZeroResponse)
      ensures r == Open(Shape(GetCall(uri, query, baseUrl, headers)))
      ensures r.Client() == this && r.statusCode == 0
    {
      GetVia(Open, uri, query, baseUrl, headers)
    }

    /** `head`: the generic HEAD wrapper over this client's own `open`; it answers what `open` answers on the HEAD record. */
    function Head(uri: string, query: Option<Fields> := None, baseUrl: Option<string> := None,
                  headers: Headers := []): (r: ZeroResponse)
      ensures r == Open(Shape(HeadCall(uri, query, baseUrl, headers)))
      ensures r.Client() == this && r.statusCode == 0
    {
      HeadVia(Open, uri, query, baseUrl, headers)
    }

    /** `post`: the generic POST wrapper over this client's own `open`; it answers what `open` answers on the POST record. */
    function Post(uri: string, post: Option<Fields> := None, baseUrl: Option<string> := None,
                  headers: Headers := []): (r: ZeroResponse)
      ensures r == Open(Shape(PostCall(uri, post, baseUrl, headers)))
      ensures r.Client() == this && r.statusCode == 0
    {
      PostVia(Open, uri, post, baseUrl, headers)
    }

    /** `put`: the generic PUT wrapper over this client's own `open`; it answers what `open` answers on the PUT record. */
    function Put(uri: string, body: Option<string> := None, baseUrl: Option<string> := None,
                 headers: Headers := []): (r: ZeroResponse)
      ensures r == Open(Shape(PutCall(uri, body, baseUrl, headers)))
      ensures r.Client() == this && r.statusCode == 0
    {
      PutVia(Open, uri, body, baseUrl, headers)
    }

    /** `delete`: the generic DELETE wrapper over this client's own `open`; it answers what `open` answers on the DELETE record. */
    function Delete(uri: string, baseUrl: Option<string> := None, headers: Headers := []): (r: ZeroResponse)
      ensures r == Open(Shape(DeleteCall(uri, baseUrl, headers)))
      ensures r.Client() == this && r.statusCode == 0
    {
      DeleteVia(Open, uri, baseUrl, headers)
    }

    /** `options`: the generic OPTIONS wrapper over this client's own `open`; it answers what `open` answers on the OPTIONS record. */
    function Options(uri: string, body: Option<string> := None, baseUrl: Option<string> := None,
                     headers: Headers := []): (r: ZeroResponse)
      ensures r == Open(Shape(OptionsCall(uri, body, baseUrl, headers)))
      ensures r.Client() == this && r.statusCode == 0
    {
      OptionsVia(Open, uri, body, baseUrl, headers)
    }

    /** Test code calling the verb method of this client that `call` names, with `call`'s arguments. */
    function Invoke(call: Call): (r: ZeroResponse)
      ensures r == Open(Shape(call)) && r == ZeroResponse(this)
    {
      match call
      case GetCall(uri, query, baseUrl, headers) => Get(uri, query, baseUrl, headers)
      case HeadCall(uri, query, baseUrl, headers) => Head(uri, query, baseUrl, headers)
      case PostCall(uri, post, baseUrl, headers) => Post(uri, post, baseUrl, headers)
      case PutCall(uri, body, baseUrl, headers) => Put(uri, body, baseUrl, headers)
      case DeleteCall(uri, baseUrl, headers) => Delete(uri, baseUrl, headers)
      case OptionsCall(uri, body, baseUrl, headers) => Options(uri, body, baseUrl, headers)
    }

    /** Sets a cookie: the reference client keeps no cookie jar, so nothing changes. */
    method SetCookie(name: string, value: string, domain: Option<string> := None, path: string := "/")
      ensures unchanged(this)
    {
    }

    /** Deletes a cookie: the reference client keeps no cookie jar, so nothing changes. */
    method DeleteCookie(name: string, domain: Option<string> := None, path: string := "/")
      ensures unchanged(this)
    {
    }
  }

  /** A response of the reference client; its attributes are fixed for every instance. */
  datatype ZeroResponse = ZeroResponse(originator: Zero) {
    const statusCode: int := 0
    const status: Option<string> := None
    const requestUri: Option<string> := None
    const headers: map<string, string> := map[]
    const cookies: map<string, string> := map[]
    /** The source URI for this response. */
    const response: Option<string> := None
    /** True if the content type says the body is JSON. */
    const isJson: bool := false
    /** The body parsed as JSON; never produced by this client. */
    const json: Option<string> := None

    /** The client accessor: the client stored at construction, not a new one. */
    function Client(): (c: Zero)
      ensures c == originator
    {
      originator
    }
  }

  /** The client reached by issuing `calls` in turn, each on the client of the previous response. */
  function Follow(c: Zero, calls: seq<Call>): Zero
    decreases |calls|
  {
    if calls == [] then c else Follow(c.Invoke(calls[0]).Client(), calls[1..])
  }

  // ---- The record each verb method hands to `open` ----

  lemma GetHeadShape(uri: string, query: Option<Fields>, baseUrl: Option<string>, headers: Headers)
    ensures Shape(GetCall(uri, query, baseUrl, headers))
         == Request(uri, "GET", query, None, None, baseUrl, headers, None)
    ensures Shape(HeadCall(uri, query, baseUrl, headers))
         == Request(uri, "HEAD", query, None, None, baseUrl, headers, None)
  {
  }

  lemma PostShape(uri: string, post: Option<Fields>, baseUrl: Option<string>, headers: Headers)
    ensures Shape(PostCall(uri, post, baseUrl, headers))
         == Request(uri, "POST", None, post, None, baseUrl, headers, None)
  {
  }

  lemma PutShape(uri: string, body: Option<string>, baseUrl: Option<string>, headers: Headers)
    ensures Shape(PutCall(uri, body, baseUrl, headers))
         == Request(uri, "PUT", None, None, body, baseUrl, headers, None)
  {
  }

  lemma OptionsShape(uri: string, body: Option<string>, baseUrl: Option<string>, headers: Headers)
    ensures Shape(OptionsCall(uri, body, baseUrl, headers))
         == Request(uri, "OPTIONS", None, None, body, baseUrl, headers, None)
  {
  }

  lemma DeleteShape(uri: string, baseUrl: Option<string>, headers: Headers)
    ensures Shape(DeleteCall(uri, baseUrl, headers))
         == Request(uri, "DELETE", None, None, None, baseUrl, headers, None)
  {
  }

  // ---- Shape against its inverse and against the payload table ----

  /** Classify undoes Shape: the verb call is recoverable from the record `open` sees. */
  lemma ClassifyShape(call: Call)
    ensures Classify(Shape(call)) == Some(call)
  {
  }

  /** Shape undoes Classify: a classified request is exactly what its call hands to `open`. */
  lemma ShapeClassify(r: Request)
    ensures Classify(r).Some? ==> Shape(Classify(r).value) == r
  {
  }

  /** Classify accepts exactly the requests the payload table allows. */
  lemma ClassifyIffWellShaped(r: Request)
    ensures Classify(r).Some? <==> WellShaped(r)
  {
  }

  /** The records the verb methods can hand to `open` are exactly the well-shaped ones. */
  lemma ShapeImage(r: Request)
    ensures WellShaped(r) <==> exists call :: Shape(call) == r
  {
    ClassifyIffWellShaped(r);
    if WellShaped(r) {
      ShapeClassify(r);
      assert Shape(Classify(r).value) == r;
    }
    if call :| Shape(call) == r {
      ClassifyShape(call);
    }
  }

  /** Two different verb calls never hand the same record to `open`. */
  lemma ShapeInjective(c1: Call, c2: Call)
    ensures Shape(c1) == Shape(c2) ==> c1 == c2
  {
    ClassifyShape(c1);
    ClassifyShape(c2);
  }

  // ---- Responses and their clients ----

  /** Every verb call answers with the fixed response whose client is the caller itself. */
  lemma InvokeFixedResponse(c: Zero, call: Call)
    ensures c.Invoke(call) == ZeroResponse(c)
    ensures c.Invoke(call).Client() == c && c.Invoke(call).statusCode == 0
  {
  }

  /**
   * Following the client accessor through any chain of requests comes back
   * to the first client: no hop yields a new client.
   */
  lemma {:induction false} FollowReturnsOriginator(c: Zero, calls: seq<Call>)
    ensures Follow(c, calls) == c
    decreases |calls|
  {
    if calls != [] {
      FollowReturnsOriginator(c.Invoke(calls[0]).Client(), calls[1..]);
    }
  }

  /** The class-level defaults of every Zero client. */
  lemma ZeroDefaults(c: Zero)
    ensures c.capabilities == [] && c.httpVersion == "HTTP/1.0"
    ensures c.userAgent == map["browser" := "zero-client", "platform" := "python", "version" := "0.1"]
  {
  }
}
