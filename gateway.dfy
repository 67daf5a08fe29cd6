/**
 * The facade's client for the CRM's v5 REST API (app/services/retailcrm.py):
 * URL building, the API key added to every query, the choice between a query
 * string (GET) and a url-encoded form (POST), the form field that carries a
 * JSON document, and the mapping of HTTP outcomes to results or errors.
 *
 * The HTTP client is an oracle `Http` from the request on the wire to its
 * outcome; `json.dumps` is kept symbolic (a `JsonField` body carries the
 * document it encodes).
 */
module Gateway {
  import opened Base
  import opened Json
  import opened Models

  const ApiVersion := "v5"

  /** `s.rstrip('/')`. */
  function RStripSlash(s: string): (r: string)
    ensures r <= s
    ensures r == [] || r[|r| - 1] != '/'
    ensures forall i :: |r| <= i < |s| ==> s[i] == '/'
  {
    if s != [] && s[|s| - 1] == '/' then RStripSlash(s[..|s| - 1]) else s
  }

  /** Trailing slashes in the configured URL make no difference. */
  lemma {:induction false} TrailingSlashIgnored(url: string)
    ensures RStripSlash(url + "/") == RStripSlash(url)
  {
    assert (url + "/")[..|url|] == url;
  }

  /** The configured service: the base URL without trailing slashes, and the API key. */
  datatype Service = Service(baseUrl: string, apiKey: string) {

    /** `_get_url(endpoint)`. */
    function Url(endpoint: string): string {
      baseUrl + "/api/" + ApiVersion + "/" + endpoint
    }

    /** The query of a request that passed no `params`. */
    function KeyOnly(): map<string, Value> {
      map["apiKey" := Str(apiKey)]
    }
  }

  /** `__init__`: the settings become the service. */
  function NewService(url: string, apiKey: string): (svc: Service)
    ensures svc.baseUrl <= url && (svc.baseUrl == [] || svc.baseUrl[|svc.baseUrl| - 1] != '/')
    ensures svc.apiKey == apiKey
  {
    Service(RStripSlash(url), apiKey)
  }

  /** Every URL is the base, the versioned API path, then the endpoint; distinct endpoints get distinct URLs. */
  lemma UrlParts(svc: Service, e1: string, e2: string)
    ensures var u := svc.Url(e1); var n := |svc.baseUrl|;
      |u| == n + 8 + |e1| && u[..n] == svc.baseUrl && u[n..n + 8] == "/api/v5/" && u[n + 8..] == e1
    ensures svc.Url(e1) == svc.Url(e2) ==> e1 == e2
  {
    var n := |svc.baseUrl|;
    var u1, u2 := svc.Url(e1), svc.Url(e2);
    assert u1 == svc.baseUrl + "/api/v5/" + e1;
    assert u1[n + 8..] == e1;
    assert u2[n + 8..] == e2;
  }

  // ---------------------------------------------------------------------------
  // The wire.

  /** A POST body: one form field holding the JSON text of a document, or the fields themselves. */
  datatype Body = JsonField(name: string, doc: map<string, Value>) | Form(fields: map<string, Value>)

  datatype WireRequest =
    | HttpGet(url: string, query: map<string, Value>)
    | HttpPost(url: string, query: map<string, Value>, body: Body)

  /** What the HTTP client produced: a status with the body decoded as JSON (None when it is not JSON), or a transport error. */
  datatype HttpResult = Response(status: int, json: Option<Value>) | TransportError

  type Http = WireRequest -> HttpResult

  datatype GatewayError =
    | StatusError(code: int)        // raise_for_status
    | Unsupported(httpMethod: string)  // the ValueError for a method other than GET and POST
    | NotJson                       // response.json() failed
    | Transport                     // the client could not complete the exchange

  datatype CrmResult = Done(json: Value) | Failed(error: GatewayError)

  /** ASCII upper-casing, which is all that "GET" and "POST" need. */
  function UpperChar(c: char): char {
    if 'a' <= c <= 'z' then (c as int - 32) as char else c
  }

  function Upper(s: string): (u: string)
    ensures |u| == |s| && forall i :: 0 <= i < |s| ==> u[i] == UpperChar(s[i])
  {
    seq(|s|, i requires 0 <= i < |s| => UpperChar(s[i]))
  }

  /** `c` is the upper-case ASCII letter `u` written in either case. */
  predicate EitherCase(c: char, u: char) {
    c == u || c as int == u as int + 32
  }

  lemma UpperCharIs(c: char, u: char)
    requires 'A' <= u <= 'Z'
    ensures UpperChar(c) == u <==> EitherCase(c, u)
  {
  }

  /**
   * The method names are compared without regard to case: the names that
   * upper-case to GET or POST are exactly those words in any mix of cases.
   */
  lemma MethodCaseInsensitive(m: string)
    ensures Upper(m) == "GET" <==> |m| == 3 && forall i :: 0 <= i < 3 ==> EitherCase(m[i], "GET"[i])
    ensures Upper(m) == "POST" <==> |m| == 4 && forall i :: 0 <= i < 4 ==> EitherCase(m[i], "POST"[i])
  {
    forall i | 0 <= i < |m| && i < 3
      ensures UpperChar(m[i]) == "GET"[i] <==> EitherCase(m[i], "GET"[i])
    {
      UpperCharIs(m[i], "GET"[i]);
    }
    forall i | 0 <= i < |m| && i < 4
      ensures UpperChar(m[i]) == "POST"[i] <==> EitherCase(m[i], "POST"[i])
    {
      UpperCharIs(m[i], "POST"[i]);
    }
  }

  /**
   * The POST form: when both `json_param` and `data` are truthy, a single field
   * named `json_param` holds the document; otherwise the form is `data or {}`.
   */
  function FormBody(data: Option<map<string, Value>>, jsonParam: Option<string>): (b: Body)
    ensures b.JsonField? <==> NonEmpty(jsonParam) && data.Some? && data.value != map[]
    ensures b.JsonField? ==> b.name == jsonParam.value && b.doc == data.value
    ensures b.Form? ==> b.fields == (if data.Some? then data.value else map[])
  {
    if NonEmpty(jsonParam) && data.Some? && data.value != map[] then JsonField(jsonParam.value, data.value)
    else Form(if data.Some? then data.value else map[])
  }

  /** An empty document is sent as an empty form: the named field is missing altogether. */
  lemma EmptyDocumentSendsNoField(name: string)
    ensures FormBody(Some(map[]), Some(name)) == Form(map[])
  {
  }

  /**
   * The request `_make_request` sends for these arguments, with the API key
   * added to the query; None when the method is neither GET nor POST.
   */
  function Prepare(svc: Service, httpMethod: string, endpoint: string, params: map<string, Value>,
                   data: Option<map<string, Value>>, jsonParam: Option<string>): (req: Option<WireRequest>)
    ensures req.Some? <==> Upper(httpMethod) == "GET" || Upper(httpMethod) == "POST"
    ensures req.Some? ==> req.value.url == svc.Url(endpoint) && req.value.query == params["apiKey" := Str(svc.apiKey)]
    ensures req.Some? ==> (req.value.HttpGet? <==> Upper(httpMethod) == "GET")
  {
    var query := params["apiKey" := Str(svc.apiKey)];
    var m := Upper(httpMethod);
    if m == "GET" then Some(HttpGet(svc.Url(endpoint), query))
    else if m == "POST" then Some(HttpPost(svc.Url(endpoint), query, FormBody(data, jsonParam)))
    else None
  }

  /** `raise_for_status()` then `response.json()`: only a 2xx answer with a JSON body is a result. */
  function Receive(res: HttpResult): (r: CrmResult)
    ensures r.Done? <==> res.Response? && 200 <= res.status < 300 && res.json.Some?
    ensures r.Done? ==> r.json == res.json.value
    ensures (r.Failed? && r.error.StatusError?) <==> res.Response? && !(200 <= res.status < 300)
    ensures r.Failed? && r.error.StatusError? ==> r.error.code == res.status
  {
    match res
    case TransportError => Failed(Transport)
    case Response(status, json) =>
      if !(200 <= status < 300) then Failed(StatusError(status))
      else if json.None? then Failed(NotJson)
      else Done(json.value)
  }

  /** The whole of `_make_request` as a value. */
  function Exchange(svc: Service, httpMethod: string, endpoint: string, params: map<string, Value>,
                    data: Option<map<string, Value>>, jsonParam: Option<string>, http: Http): CrmResult
  {
    match Prepare(svc, httpMethod, endpoint, params, data, jsonParam)
    case None => Failed(Unsupported(httpMethod))
    case Some(req) => Receive(http(req))
  }

  // ---------------------------------------------------------------------------
  // The mutable dictionaries the service fills in and hands around.

  /** A Python dict that callers share by reference. */
  class Dict {
    var items: map<string, Value>

    constructor (init: map<string, Value>)
      ensures items == init
    {
      items := init;
    }

    method Set(key: string, v: Value)
      modifies this
      ensures items == old(items)[key := v]
    {
      items := items[key := v];
    }
  }

  /**
   * `_make_request`: adds the API key to the caller's `params` (a fresh dict
   * when there is none) before anything else, then sends the request.
   */
  method MakeRequest(svc: Service, httpMethod: string, endpoint: string, params: Dict?,
                     data: Option<map<string, Value>>, jsonParam: Option<string>, http: Http)
    returns (sent: Option<WireRequest>, r: CrmResult)
    modifies params
    ensures params != null ==> params.items == old(params.items)["apiKey" := Str(svc.apiKey)]
    ensures sent == Prepare(svc, httpMethod, endpoint, if params == null then map[] else old(params.items), data, jsonParam)
    ensures r == Exchange(svc, httpMethod, endpoint, if params == null then map[] else old(params.items), data, jsonParam, http)
  {
    var url := svc.Url(endpoint);
    var query := params;
    if query == null {
      query := new Dict(map[]);
    }
    query.Set("apiKey", Str(svc.apiKey));
    var m := Upper(httpMethod);
    if m == "GET" {
      sent := Some(HttpGet(url, query.items));
    } else if m == "POST" {
      var form := FormBody(data, jsonParam);
      sent := Some(HttpPost(url, query.items, form));
    } else {
      sent := None;
      r := Failed(Unsupported(httpMethod));
      return;
    }
    r := Receive(http(sent.value));
  }

  // ---------------------------------------------------------------------------
  // get_customers

  /** The names the CRM expects inside `filter[...]`. */
  function FilterKey(name: string): string {
    "filter[" + name + "]"
  }

  /** The `filter_params` dict, in insertion order: one entry per truthy filter. */
  function FilterParams(f: CustomerFilter): seq<(string, string)> {
    (if NonEmpty(f.firstName) then [("firstName", f.firstName.value)] else [])
    + (if NonEmpty(f.lastName) then [("lastName", f.lastName.value)] else [])
    + (if NonEmpty(f.email) then [("email", f.email.value)] else [])
    + (if NonEmpty(f.createdAtFrom) then [("createdAtFrom", f.createdAtFrom.value)] else [])
    + (if NonEmpty(f.createdAtTo) then [("createdAtTo", f.createdAtTo.value)] else [])
  }

  /** `params[f"filter[{key}]"] = value` for each entry, in order. */
  function Prefixed(ps: seq<(string, string)>): map<string, Value> {
    if ps == [] then map[]
    else Prefixed(ps[..|ps| - 1])[FilterKey(ps[|ps| - 1].0) := Str(ps[|ps| - 1].1)]
  }

  lemma {:induction false} PrefixedAppend(ps: seq<(string, string)>, qs: seq<(string, string)>)
    ensures Prefixed(ps + qs) == Prefixed(ps) + Prefixed(qs)
    decreases |qs|
  {
    if qs == [] {
      assert ps + qs == ps;
    } else {
      var init := qs[..|qs| - 1];
      assert (ps + qs)[..|ps + qs| - 1] == ps + init;
      PrefixedAppend(ps, init);
    }
  }

  /** One `filter[name]` entry when the filter is truthy, none otherwise. */
  function FilterEntry(name: string, field: Option<string>): map<string, Value> {
    if NonEmpty(field) then map[FilterKey(name) := Str(field.value)] else map[]
  }

  /** The query of a customer search before the API key is added. */
  function CustomerParams(f: CustomerFilter, page: int, limit: int): map<string, Value> {
    map["page" := Int(page), "limit" := Int(limit)]
    + FilterEntry("firstName", f.firstName) + FilterEntry("lastName", f.lastName) + FilterEntry("email", f.email)
    + FilterEntry("createdAtFrom", f.createdAtFrom) + FilterEntry("createdAtTo", f.createdAtTo)
  }

  lemma SingleEntry(name: string, field: Option<string>)
    ensures Prefixed(if NonEmpty(field) then [(name, field.value)] else []) == FilterEntry(name, field)
  {
    if NonEmpty(field) {
      var ps := [(name, field.value)];
      assert ps[..0] == [];
      assert Prefixed(ps) == Prefixed(ps[..0])[FilterKey(name) := Str(field.value)];
    }
  }

  lemma UnionAssoc(a: map<string, Value>, b: map<string, Value>, c: map<string, Value>)
    ensures a + (b + c) == a + b + c
  {
  }

  /** Copying `filter_params` entry by entry yields the reference query. */
  lemma FilterEntries(f: CustomerFilter, page: int, limit: int)
    ensures map["page" := Int(page), "limit" := Int(limit)] + Prefixed(FilterParams(f)) == CustomerParams(f, page, limit)
  {
    var p1 := if NonEmpty(f.firstName) then [("firstName", f.firstName.value)] else [];
    var p2 := if NonEmpty(f.lastName) then [("lastName", f.lastName.value)] else [];
    var p3 := if NonEmpty(f.email) then [("email", f.email.value)] else [];
    var p4 := if NonEmpty(f.createdAtFrom) then [("createdAtFrom", f.createdAtFrom.value)] else [];
    var p5 := if NonEmpty(f.createdAtTo) then [("createdAtTo", f.createdAtTo.value)] else [];
    assert FilterParams(f) == p1 + p2 + p3 + p4 + p5;
    PrefixedAppend(p1 + p2 + p3 + p4, p5);
    PrefixedAppend(p1 + p2 + p3, p4);
    PrefixedAppend(p1 + p2, p3);
    PrefixedAppend(p1, p2);
    SingleEntry("firstName", f.firstName);
    SingleEntry("lastName", f.lastName);
    SingleEntry("email", f.email);
    SingleEntry("createdAtFrom", f.createdAtFrom);
    SingleEntry("createdAtTo", f.createdAtTo);
    var base := map["page" := Int(page), "limit" := Int(limit)];
    var e1, e2, e3 := FilterEntry("firstName", f.firstName), FilterEntry("lastName", f.lastName), FilterEntry("email", f.email);
    var e4, e5 := FilterEntry("createdAtFrom", f.createdAtFrom), FilterEntry("createdAtTo", f.createdAtTo);
    UnionAssoc(base, e1 + e2 + e3 + e4, e5);
    UnionAssoc(base, e1 + e2 + e3, e4);
    UnionAssoc(base, e1 + e2, e3);
    UnionAssoc(base, e1, e2);
  }

  /** The entry `filter[name]` is in the query exactly when the filter is truthy, and then holds it. */
  predicate Forwarded(q: map<string, Value>, name: string, field: Option<string>) {
    (FilterKey(name) in q <==> NonEmpty(field)) && (NonEmpty(field) ==> q[FilterKey(name)] == Str(field.value))
  }

  /** An entry holds only its own key, which is neither `page` nor `limit`. */
  lemma EntryKeys(name: string, field: Option<string>)
    ensures FilterEntry(name, field).Keys <= {FilterKey(name)}
    ensures "page" !in FilterEntry(name, field) && "limit" !in FilterEntry(name, field)
  {
    assert |FilterKey(name)| >= 8 > |"limit"| > |"page"|;
  }

  /** A customer search always sends `page` and `limit`, and no key beyond those and the five filters. */
  lemma CustomerParamsKeys(f: CustomerFilter, page: int, limit: int)
    ensures var q := CustomerParams(f, page, limit);
      q["page"] == Int(page) && q["limit"] == Int(limit)
      && q.Keys <= {"page", "limit", FilterKey("firstName"), FilterKey("lastName"), FilterKey("email"),
                    FilterKey("createdAtFrom"), FilterKey("createdAtTo")}
  {
    var base := map["page" := Int(page), "limit" := Int(limit)];
    var e1, e2, e3 := FilterEntry("firstName", f.firstName), FilterEntry("lastName", f.lastName), FilterEntry("email", f.email);
    var e4, e5 := FilterEntry("createdAtFrom", f.createdAtFrom), FilterEntry("createdAtTo", f.createdAtTo);
    EntryKeys("firstName", f.firstName);
    EntryKeys("lastName", f.lastName);
    EntryKeys("email", f.email);
    EntryKeys("createdAtFrom", f.createdAtFrom);
    EntryKeys("createdAtTo", f.createdAtTo);
    var q := CustomerParams(f, page, limit);
    assert q == base + e1 + e2 + e3 + e4 + e5;
    assert q.Keys == base.Keys + e1.Keys + e2.Keys + e3.Keys + e4.Keys + e5.Keys;
  }

  /** A filter entry merged over a map without its key is forwarded. */
  lemma ForwardedFrom(before: map<string, Value>, name: string, field: Option<string>)
    requires FilterKey(name) !in before
    ensures Forwarded(before + FilterEntry(name, field), name, field)
  {
  }

  /** A forwarded filter stays forwarded when an entry under a name of another length is merged in. */
  lemma ForwardedPast(q: map<string, Value>, name: string, field: Option<string>, other: string, otherField: Option<string>)
    requires Forwarded(q, name, field) && |other| != |name|
    ensures Forwarded(q + FilterEntry(other, otherField), name, field)
    ensures FilterKey(name) !in q ==> FilterKey(name) !in q + FilterEntry(other, otherField)
  {
    assert |FilterKey(other)| == |other| + 8 && |FilterKey(name)| == |name| + 8;
  }

  /** A key missing from a map is still missing after merging an entry under a name of another length. */
  lemma StillAbsent(q: map<string, Value>, name: string, other: string, otherField: Option<string>)
    requires FilterKey(name) !in q && |other| != |name|
    ensures FilterKey(name) !in q + FilterEntry(other, otherField)
  {
    assert |FilterKey(other)| == |other| + 8 && |FilterKey(name)| == |name| + 8;
  }

  /** `page` and `limit` are not filter keys. */
  lemma NotPageOrLimit(base: map<string, Value>, name: string)
    requires base.Keys <= {"page", "limit"}
    ensures FilterKey(name) !in base
  {
    assert |FilterKey(name)| >= 8 > |"limit"| > |"page"|;
  }

  /** Each of the five filters is sent as `filter[...]` exactly when it is truthy. */
  lemma CustomerFiltersForwarded(f: CustomerFilter, page: int, limit: int)
    ensures var q := CustomerParams(f, page, limit);
      Forwarded(q, "firstName", f.firstName) && Forwarded(q, "lastName", f.lastName)
      && Forwarded(q, "email", f.email) && Forwarded(q, "createdAtFrom", f.createdAtFrom)
      && Forwarded(q, "createdAtTo", f.createdAtTo)
  {
    var n1, n2, n3, n4, n5 := "firstName", "lastName", "email", "createdAtFrom", "createdAtTo";
    assert |n1| == 9 && |n2| == 8 && |n3| == 5 && |n4| == 13 && |n5| == 11;
    var b0 := map["page" := Int(page), "limit" := Int(limit)];
    var b1 := b0 + FilterEntry(n1, f.firstName);
    var b2 := b1 + FilterEntry(n2, f.lastName);
    var b3 := b2 + FilterEntry(n3, f.email);
    var b4 := b3 + FilterEntry(n4, f.createdAtFrom);
    NotPageOrLimit(b0, n1);
    NotPageOrLimit(b0, n2);
    NotPageOrLimit(b0, n3);
    NotPageOrLimit(b0, n4);
    NotPageOrLimit(b0, n5);
    // firstName
    ForwardedFrom(b0, n1, f.firstName);
    ForwardedPast(b1, n1, f.firstName, n2, f.lastName);
    ForwardedPast(b2, n1, f.firstName, n3, f.email);
    ForwardedPast(b3, n1, f.firstName, n4, f.createdAtFrom);
    ForwardedPast(b4, n1, f.firstName, n5, f.createdAtTo);
    // lastName
    StillAbsent(b0, n2, n1, f.firstName);
    ForwardedFrom(b1, n2, f.lastName);
    ForwardedPast(b2, n2, f.lastName, n3, f.email);
    ForwardedPast(b3, n2, f.lastName, n4, f.createdAtFrom);
    ForwardedPast(b4, n2, f.lastName, n5, f.createdAtTo);
    // email
    StillAbsent(b0, n3, n1, f.firstName);
    StillAbsent(b1, n3, n2, f.lastName);
    ForwardedFrom(b2, n3, f.email);
    ForwardedPast(b3, n3, f.email, n4, f.createdAtFrom);
    ForwardedPast(b4, n3, f.email, n5, f.createdAtTo);
    // createdAtFrom
    StillAbsent(b0, n4, n1, f.firstName);
    StillAbsent(b1, n4, n2, f.lastName);
    StillAbsent(b2, n4, n3, f.email);
    ForwardedFrom(b3, n4, f.createdAtFrom);
    ForwardedPast(b4, n4, f.createdAtFrom, n5, f.createdAtTo);
    // createdAtTo
    StillAbsent(b0, n5, n1, f.firstName);
    StillAbsent(b1, n5, n2, f.lastName);
    StillAbsent(b2, n5, n3, f.email);
    StillAbsent(b3, n5, n4, f.createdAtFrom);
    ForwardedFrom(b4, n5, f.createdAtTo);
  }

  /** The loop of `get_customers` that copies each filter into `params` under `filter[...]`. */
  method AddFilters(params: Dict, filterParams: seq<(string, string)>)
    modifies params
    ensures params.items == old(params.items) + Prefixed(filterParams)
  {
    for i := 0 to |filterParams|
      invariant params.items == old(params.items) + Prefixed(filterParams[..i])
    {
      assert filterParams[..i + 1][..i] == filterParams[..i];
      params.Set(FilterKey(filterParams[i].0), Str(filterParams[i].1));
    }
    assert filterParams[..|filterParams|] == filterParams;
  }

  /** `get_customers`: the query is `page`, `limit` and the truthy filters, sent by GET to `customers`. */
  method GetCustomers(svc: Service, f: CustomerFilter, page: int, limit: int, http: Http)
    returns (sent: Option<WireRequest>, r: CrmResult)
    ensures sent == Some(HttpGet(svc.Url("customers"), CustomerParams(f, page, limit)["apiKey" := Str(svc.apiKey)]))
    ensures r == Receive(http(sent.value))
  {
    var params := new Dict(map["page" := Int(page), "limit" := Int(limit)]);
    var filterParams := CollectFilters(f);
    AddFilters(params, filterParams);
    FilterEntries(f, page, limit);
    sent, r := MakeRequest(svc, "GET", "customers", params, None, None, http);
  }

  /** The `filter_params` dict of `get_customers`, filled by one test per filter. */
  method CollectFilters(f: CustomerFilter) returns (filterParams: seq<(string, string)>)
    ensures filterParams == FilterParams(f)
  {
    filterParams := [];
    if NonEmpty(f.firstName) {
      filterParams := filterParams + [("firstName", f.firstName.value)];
    }
    if NonEmpty(f.lastName) {
      filterParams := filterParams + [("lastName", f.lastName.value)];
    }
    if NonEmpty(f.email) {
      filterParams := filterParams + [("email", f.email.value)];
    }
    if NonEmpty(f.createdAtFrom) {
      filterParams := filterParams + [("createdAtFrom", f.createdAtFrom.value)];
    }
    if NonEmpty(f.createdAtTo) {
      filterParams := filterParams + [("createdAtTo", f.createdAtTo.value)];
    }
  }

  // ---------------------------------------------------------------------------
  // get_orders

  /** The query of an order search before the API key is added; the customer filter only when truthy. */
  function OrderParams(customerId: Option<int>, page: int, limit: int): map<string, Value> {
    var q := map["page" := Int(page), "limit" := Int(limit)];
    if customerId.Some? && customerId.value != 0 then q["filter[customerId]" := Int(customerId.value)] else q
  }

  /** Orders are restricted to a customer exactly when the id is present and non-zero; page and limit always go. */
  lemma OrderParamsContent(customerId: Option<int>, page: int, limit: int)
    ensures var q := OrderParams(customerId, page, limit);
      q["page"] == Int(page) && q["limit"] == Int(limit)
      && ("filter[customerId]" in q <==> customerId.Some? && customerId.value != 0)
      && ("filter[customerId]" in q ==> q["filter[customerId]"] == Int(customerId.value))
      && q.Keys <= {"page", "limit", "filter[customerId]"}
  {
  }

  /** `get_orders`: GET `orders` with the page, the limit and the customer filter. */
  method GetOrders(svc: Service, customerId: Option<int>, page: int, limit: int, http: Http)
    returns (sent: Option<WireRequest>, r: CrmResult)
    ensures sent == Some(HttpGet(svc.Url("orders"), OrderParams(customerId, page, limit)["apiKey" := Str(svc.apiKey)]))
    ensures r == Receive(http(sent.value))
  {
    var params := new Dict(map["page" := Int(page), "limit" := Int(limit)]);
    if customerId.Some? && customerId.value != 0 {
      params.Set("filter[customerId]", Int(customerId.value));
    }
    sent, r := MakeRequest(svc, "GET", "orders", params, None, None, http);
  }

  // ---------------------------------------------------------------------------
  // The create endpoints: each POSTs its document under its own form field.

  /** The request for a create endpoint: only the API key in the query, the document in the form. */
  function CreateRequest(svc: Service, endpoint: string, field: string, data: map<string, Value>): WireRequest {
    HttpPost(svc.Url(endpoint), svc.KeyOnly(), FormBody(Some(data), Some(field)))
  }

  /** Any non-empty document reaches the CRM as JSON text under the field name. */
  lemma CreateRequestCarriesDocument(svc: Service, endpoint: string, field: string, data: map<string, Value>)
    requires field != "" && data != map[]
    ensures CreateRequest(svc, endpoint, field, data).body == JsonField(field, data)
  {
  }

  method CreateCustomer(svc: Service, data: map<string, Value>, http: Http)
    returns (sent: Option<WireRequest>, r: CrmResult)
    ensures sent == Some(CreateRequest(svc, "customers/create", "customer", data))
    ensures r == Receive(http(sent.value))
  {
    sent, r := MakeRequest(svc, "POST", "customers/create", null, Some(data), Some("customer"), http);
  }

  method CreateOrder(svc: Service, data: map<string, Value>, http: Http)
    returns (sent: Option<WireRequest>, r: CrmResult)
    ensures sent == Some(CreateRequest(svc, "orders/create", "order", data))
    ensures r == Receive(http(sent.value))
  {
    sent, r := MakeRequest(svc, "POST", "orders/create", null, Some(data), Some("order"), http);
  }

  /** The reference to the order that `create_payment` adds to the payment. */
  function OrderRef(orderId: int): Value {
    Object(map["id" := Int(orderId)])
  }

  /**
   * `create_payment`: writes `order = {id}` into the caller's dict, then posts
   * the whole dict, which can no longer be empty, as the `payment` document.
   */
  method CreatePayment(svc: Service, orderId: int, paymentData: Dict, http: Http)
    returns (sent: Option<WireRequest>, r: CrmResult)
    modifies paymentData
    ensures paymentData.items == old(paymentData.items)["order" := OrderRef(orderId)]
    ensures sent == Some(CreateRequest(svc, "orders/payments/create", "payment", paymentData.items))
    ensures sent.value.body.JsonField?
    ensures r == Receive(http(sent.value))
  {
    paymentData.Set("order", OrderRef(orderId));
    assert "order" in paymentData.items;
    sent, r := MakeRequest(svc, "POST", "orders/payments/create", null, Some(paymentData.items), Some("payment"), http);
  }
}
