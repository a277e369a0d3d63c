/** The shared request client (`fetchApi`): the request fingerprint, the
    registry of in-flight requests that lets identical concurrent calls share
    one network request, header construction, and the shaping of a response
    into a success envelope or an error. */
module Client {
  import opened Wrappers
  import opened Text

  // ---------------------------------------------------------------------
  // Requests

  /** Header records, in insertion order. */
  type Headers = seq<(string, string)>

  /** A file chosen in an upload field. */
  datatype File = File(name: string)

  /** The value of one multipart part: a JSON blob or an uploaded file. */
  datatype PartValue = JsonBlob(json: string) | Upload(file: File)

  datatype Part = Part(name: string, value: PartValue)

  /** A request body: none, a plain string (callers pass `JSON.stringify`
      output), or a multipart form given by its parts in append order. */
  datatype Body = NoBody | Plain(text: string) | Form(parts: seq<Part>)

  /** The caller's request options: only the members fetchApi looks at. */
  datatype Options = Options(httpMethod: Option<string>, body: Body, headers: Option<Headers>, credentials: Option<string>)

  /** Options with nothing set: a plain GET. */
  const NoOptions := Options(None, NoBody, None, None)

  /** What is handed to the transport for one physical request. */
  datatype Init = Init(httpMethod: Option<string>, body: Body, headers: Headers, credentials: string)

  datatype Request = Request(key: string, url: string, init: Init)

  // ---------------------------------------------------------------------
  // Responses

  /** A parsed JSON body: its `message` and `code` members when they are
      strings, and the rest of the value. */
  datatype Document = Document(message: Option<string>, code: Option<string>, rest: string)

  /** The result of reading a response body as JSON. */
  datatype Parsed = Doc(doc: Document) | Malformed(reason: string)

  /** What the transport reports for one physical request: the request
      itself failed, or a response arrived. */
  datatype Transport = Failed(reason: string) | Answered(status: int, body: Parsed)

  /** The uniform success envelope. */
  datatype ApiResponse<T> = ApiResponse(data: T, success: bool, message: Option<string>)

  /** A thrown error: its message, and the HTTP status and backend code
      that fetchApi attaches to errors built from a non-OK response. */
  datatype ApiError = ApiError(message: string, status: Option<int>, code: Option<string>)

  // ---------------------------------------------------------------------
  // Fingerprint

  /** The HTTP method, `GET` when unset or empty. */
  function Method(o: Options): (m: string)
    ensures m != ""
    ensures IsTruthy(o.httpMethod) ==> m == o.httpMethod.value
    ensures !IsTruthy(o.httpMethod) ==> m == "GET"
  {
    OrElse(o.httpMethod, "GET")
  }

  /** The body part of the fingerprint: empty for no (or an empty) body, a
      constant for every multipart form, and the JSON serialisation of a
      string body. */
  function BodyMarker(b: Body): (r: string)
    ensures r == "" <==> b == NoBody || b == Plain("")
    ensures b.Form? ==> r == "form-data"
    ensures b.Plain? && b.text != "" ==> r == QuoteJson(b.text)
  {
    match b
    case NoBody => ""
    case Form(_) => "form-data"
    case Plain(t) => if t == "" then "" else QuoteJson(t)
  }

  /** The fingerprint `method:endpoint:marker` under which identical calls
      share one in-flight request. */
  function RequestKey(endpoint: string, o: Options): string {
    Method(o) + ":" + endpoint + ":" + BodyMarker(o.body)
  }

  /** No body and the empty string body are not told apart. */
  predicate IsBlank(b: Body) {
    b == NoBody || b == Plain("")
  }

  /** Two bodies the fingerprint does not tell apart: both blank, both
      multipart forms (whatever their parts), or the same string. */
  predicate Interchangeable(b1: Body, b2: Body) {
    (IsBlank(b1) && IsBlank(b2)) || (b1.Form? && b2.Form?) || (b1.Plain? && b2.Plain? && b1.text == b2.text)
  }

  /** The body marker identifies a body up to `Interchangeable`. */
  lemma BodyMarkerExact(b1: Body, b2: Body)
    ensures BodyMarker(b1) == BodyMarker(b2) <==> Interchangeable(b1, b2)
  {
    if BodyMarker(b1) == BodyMarker(b2) {
      if b1.Plain? && b2.Plain? && b1.text != "" && b2.text != "" {
        QuoteJsonInjective(b1.text, b2.text);
      }
    }
  }

  /** Splitting at the first colon: a colon-free head is recovered exactly. */
  lemma SplitAtColon(a: string, x: string, b: string, y: string)
    requires ':' !in a && ':' !in b
    requires a + ":" + x == b + ":" + y
    ensures a == b && x == y
  {
    var l, r := a + ":" + x, b + ":" + y;
    assert l[|a|] == ':' && r[|b|] == ':';
    assert a == l[..|a|] == r[..|b|] == b;
    assert x == l[|a| + 1..] == r[|b| + 1..] == y;
  }

  /** For colon-free methods and endpoints, two calls get the same
      fingerprint exactly when they have the same method, the same endpoint
      and interchangeable bodies. */
  lemma RequestKeyExact(e1: string, o1: Options, e2: string, o2: Options)
    requires ':' !in Method(o1) && ':' !in Method(o2) && ':' !in e1 && ':' !in e2
    ensures RequestKey(e1, o1) == RequestKey(e2, o2)
        <==> Method(o1) == Method(o2) && e1 == e2 && Interchangeable(o1.body, o2.body)
  {
    var m1, m2, k1, k2 := Method(o1), Method(o2), BodyMarker(o1.body), BodyMarker(o2.body);
    assert RequestKey(e1, o1) == m1 + ":" + (e1 + ":" + k1);
    assert RequestKey(e2, o2) == m2 + ":" + (e2 + ":" + k2);
    if RequestKey(e1, o1) == RequestKey(e2, o2) {
      SplitAtColon(m1, e1 + ":" + k1, m2, e2 + ":" + k2);
      SplitAtColon(e1, k1, e2, k2);
    }
    BodyMarkerExact(o1.body, o2.body);
  }

  // ---------------------------------------------------------------------
  // Headers

  /** The value recorded for `k`. */
  function Lookup(h: Headers, k: string): Option<string> {
    if h == [] then None else if h[0].0 == k then Some(h[0].1) else Lookup(h[1..], k)
  }

  /** `headers[k] = v` on a record: the entry for `k` is replaced in place,
      or appended when there is none. */
  function SetHeader(h: Headers, k: string, v: string): (r: Headers)
    ensures Lookup(r, k) == Some(v)
    ensures forall k' :: k' != k ==> Lookup(r, k') == Lookup(h, k')
  {
    if h == [] then [(k, v)]
    else if h[0].0 == k then [(k, v)] + h[1..]
    else [h[0]] + SetHeader(h[1..], k, v)
  }

  /** The headers fetchApi builds: the caller's, then `Authorization` when an
      access token is stored, then the JSON content type unless the body is a
      multipart form. */
  function BuiltHeaders(base: Headers, token: Option<string>, body: Body): (r: Headers)
    ensures Lookup(r, "Authorization") ==
      if IsTruthy(token) then Some("Bearer " + token.value) else Lookup(base, "Authorization")
    ensures Lookup(r, "Content-Type") == if body.Form? then Lookup(base, "Content-Type") else Some("application/json")
    ensures forall k :: k != "Authorization" && k != "Content-Type" ==> Lookup(r, k) == Lookup(base, k)
  {
    assert "Authorization"[0] != "Content-Type"[0];
    var withAuth := if IsTruthy(token) then SetHeader(base, "Authorization", "Bearer " + token.value) else base;
    if body.Form? then withAuth else SetHeader(withAuth, "Content-Type", "application/json")
  }

  /** What is sent: the built headers and `credentials: "include"`, each
      overridden by the caller's own member of the same name, because the
      options are spread after them. */
  function SentInit(o: Options, token: Option<string>): (r: Init)
    ensures r.httpMethod == o.httpMethod && r.body == o.body
    ensures r.credentials == o.credentials.GetOr("include")
    ensures o.headers.Some? ==> r.headers == o.headers.value
    ensures o.headers.None? ==>
      Lookup(r.headers, "Authorization") == if IsTruthy(token) then Some("Bearer " + token.value) else None
    ensures o.headers.None? ==>
      Lookup(r.headers, "Content-Type") == if o.body.Form? then None else Some("application/json")
    ensures o.headers.None? ==>
      forall k :: k != "Authorization" && k != "Content-Type" ==> Lookup(r.headers, k) == None
  {
    var built := BuiltHeaders(o.headers.GetOr([]), token, o.body);
    assert "Authorization"[0] != "Content-Type"[0];
    Init(o.httpMethod, o.body, o.headers.GetOr(built), o.credentials.GetOr("include"))
  }

  // ---------------------------------------------------------------------
  // Response shaping

  /** `response.ok`. */
  predicate IsOkStatus(status: int) {
    200 <= status <= 299
  }

  /** The message of an error built from a non-OK response. */
  function HttpErrorMessage(status: int, body: Parsed): (m: string)
    ensures m != ""
    ensures body.Doc? && IsTruthy(body.doc.message) ==> m == body.doc.message.value
    ensures !(body.Doc? && IsTruthy(body.doc.message)) ==> m == "HTTP error! status: " + IntToString(status)
  {
    var fallback := "HTTP error! status: " + IntToString(status);
    if body.Doc? then OrElse(body.doc.message, fallback) else fallback
  }

  /** How fetchApi settles for a transport outcome. */
  function ShapeResponse(t: Transport): (r: Result<ApiResponse<Document>, ApiError>)
    ensures r.Ok? <==> t.Answered? && IsOkStatus(t.status) && t.body.Doc?
    ensures r.Ok? ==> r.value == ApiResponse(t.body.doc, true, None)
    ensures r.Err? && t.Answered? && !IsOkStatus(t.status) ==>
      && r.error.status == Some(t.status)
      && r.error.code == (if t.body.Doc? then t.body.doc.code else None)
      && r.error.message != ""
      && (t.body.Doc? && IsTruthy(t.body.doc.message) ==> r.error.message == t.body.doc.message.value)
    ensures r.Err? && (t.Failed? || IsOkStatus(t.status)) ==> r.error.status == None && r.error.code == None
  {
    match t
    case Failed(reason) => Err(ApiError(reason, None, None))
    case Answered(status, body) =>
      if !IsOkStatus(status) then
        Err(ApiError(HttpErrorMessage(status, body), Some(status), if body.Doc? then body.doc.code else None))
      else
        match body
        case Doc(d) => Ok(ApiResponse(d, true, None))
        case Malformed(reason) => Err(ApiError(reason, None, None))
  }

  /** A non-OK response without a usable message reports its status. */
  lemma HttpErrorFallback(status: int, body: Parsed)
    requires !IsOkStatus(status)
    requires !(body.Doc? && IsTruthy(body.doc.message))
    ensures ShapeResponse(Answered(status, body)).error.message == "HTTP error! status: " + IntToString(status)
  {
  }

  // ---------------------------------------------------------------------
  // The in-flight registry

  /** How a call joined the registry: it shares the pending request with
      that id, or it started request `id`. */
  datatype Begun = Shared(id: nat) | Started(id: nat)

  /** The client's module state. Requests are numbered in the order they
      were issued; `fetches` logs them and `settled` holds those that have
      finished. */
  class Registry {
    const baseUrl: string
    var inFlight: map<string, nat>
    var fetches: seq<Request>
    var settled: set<nat>

    /** The registry holds exactly the unsettled requests, each under its own
        fingerprint. */
    ghost predicate Valid()
      reads this
    {
      && (forall k :: k in inFlight ==>
            inFlight[k] < |fetches| && fetches[inFlight[k]].key == k && inFlight[k] !in settled)
      && (forall id :: 0 <= id < |fetches| && id !in settled ==>
            fetches[id].key in inFlight && inFlight[fetches[id].key] == id)
      && (forall id :: id in settled ==> id < |fetches|)
    }

    constructor (baseUrl: string)
      ensures Valid()
      ensures this.baseUrl == baseUrl && inFlight == map[] && fetches == [] && settled == {}
    {
      this.baseUrl := baseUrl;
      inFlight := map[];
      fetches := [];
      settled := {};
    }

    /** The start of a call: share the pending request with the same
        fingerprint, or issue a new one and register it. */
    method Begin(endpoint: string, options: Options, token: Option<string>) returns (b: Begun)
      requires Valid()
      modifies this
      ensures Valid()
      ensures settled == old(settled)
      ensures RequestKey(endpoint, options) in old(inFlight) ==>
        && b == Shared(old(inFlight)[RequestKey(endpoint, options)])
        && inFlight == old(inFlight) && fetches == old(fetches)
      ensures RequestKey(endpoint, options) !in old(inFlight) ==>
        && b == Started(|old(fetches)|)
        && fetches == old(fetches) + [Request(RequestKey(endpoint, options), baseUrl + endpoint, SentInit(options, token))]
        && inFlight == old(inFlight)[RequestKey(endpoint, options) := b.id]
    {
      var key := RequestKey(endpoint, options);
      if key in inFlight {
        b := Shared(inFlight[key]);
      } else {
        b := Started(|fetches|);
        fetches := fetches + [Request(key, baseUrl + endpoint, SentInit(options, token))];
        inFlight := inFlight[key := b.id];
      }
    }

    /** The request `id` finishes with outcome `t`: success or failure, its
        fingerprint leaves the registry. */
    method Settle(id: nat, t: Transport) returns (r: Result<ApiResponse<Document>, ApiError>)
      requires Valid()
      requires id < |fetches| && id !in settled
      modifies this
      ensures Valid()
      ensures r == ShapeResponse(t)
      ensures fetches == old(fetches) && settled == old(settled) + {id}
      ensures inFlight == old(inFlight) - {fetches[id].key}
    {
      r := ShapeResponse(t);
      inFlight := inFlight - {fetches[id].key};
      settled := settled + {id};
    }

    /** One awaited call, start to settlement. `t` is the outcome of the
        physical request the call waits on: its own, or the pending one it
        shares. Either way that request has settled, and its fingerprint has
        left the registry, by the time the call resumes. */
    method Fetch(endpoint: string, options: Options, token: Option<string>, t: Transport)
      returns (r: Result<ApiResponse<Document>, ApiError>, issued: bool)
      requires Valid()
      modifies this
      ensures Valid()
      ensures r == ShapeResponse(t)
      ensures issued <==> RequestKey(endpoint, options) !in old(inFlight)
      ensures inFlight == old(inFlight) - {RequestKey(endpoint, options)}
      ensures issued ==>
        && fetches == old(fetches) + [Request(RequestKey(endpoint, options), baseUrl + endpoint, SentInit(options, token))]
        && settled == old(settled) + {|old(fetches)|}
      ensures !issued ==>
        fetches == old(fetches) && settled == old(settled) + {old(inFlight)[RequestKey(endpoint, options)]}
    {
      var b := Begin(endpoint, options, token);
      issued := b.Started?;
      r := Settle(b.id, t);
    }
  }

  /** At most one physical request per fingerprint is outstanding. */
  lemma OneOutstandingPerKey(c: Registry)
    requires c.Valid()
    ensures forall i, j :: 0 <= i < j < |c.fetches| && i !in c.settled && j !in c.settled ==>
      c.fetches[i].key != c.fetches[j].key
  {
  }

  /** Two identical calls while the first is pending share one request; once
      it settles, the same call issues a fresh one. */
  method DedupTrace(endpoint: string, options: Options, token: Option<string>, t: Transport)
    returns (first: Begun, second: Begun, third: Begun, r: Result<ApiResponse<Document>, ApiError>)
    ensures first.Started? && second == Shared(first.id)
    ensures r == ShapeResponse(t)
    ensures third.Started? && third.id != first.id
  {
    var c := new Registry("");
    first := c.Begin(endpoint, options, token);
    second := c.Begin(endpoint, options, token);
    r := c.Settle(first.id, t);
    third := c.Begin(endpoint, options, token);
  }
}
