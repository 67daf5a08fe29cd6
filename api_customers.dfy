/**
 * The customer endpoints of the REST facade (app/api/customers.py):
 * `GET /customers` forwards the filters and maps the CRM's customers to
 * CustomerResponse, and `POST /customers` turns a CustomerCreate into the
 * CRM's customer document.
 */
module ApiCustomers {
  import opened Base
  import opened Json
  import opened Models
  import opened Gateway
  import opened ApiCommon

  const FetchFailedText := "Failed to fetch customers"
  const CreateFailedText := "Failed to create customer"
  const CreatedText := "Customer created successfully"

  // ---------------------------------------------------------------------------
  // GET /customers

  /** The query bounds `page >= 1` and `1 <= limit <= 100`. */
  predicate ValidQuery(page: int, limit: int) {
    page >= 1 && 1 <= limit <= 100
  }

  /**
   * `customer.get("phones", [{}])[0].get("number") if customer.get("phones") else None`;
   * None where the expression raises.
   */
  function PhoneOf(c: map<string, Value>): Option<Value> {
    if !Truthy(Lookup(c, "phones")) then Some(Null)
    else
      match c["phones"]
      case Array(xs) => Get(xs[0], "number", Null)
      case _ => None
  }

  /** A phone is the number of the first entry of a non-empty `phones` list, and null without one. */
  lemma PhoneIsFirstNumber(c: map<string, Value>)
    ensures "phones" !in c || !Truthy(c["phones"]) ==> PhoneOf(c) == Some(Null)
    ensures "phones" in c && c["phones"].Array? && c["phones"].items != [] && c["phones"].items[0].Object? ==>
      PhoneOf(c) == Some(Lookup(c["phones"].items[0].fields, "number"))
  {
  }

  /** One element of the CRM's `customers` list as a CustomerResponse; None where the mapping raises. */
  function MapCustomer(v: Value): (r: Option<CustomerResponse>)
    ensures r.Some? ==> v.Object? && "id" in v.fields && Int(r.value.id) == v.fields["id"]
    ensures r.Some? ==> (TextValue(r.value.firstName) == Lookup(v.fields, "firstName")
      && TextValue(r.value.lastName) == Lookup(v.fields, "lastName")
      && TextValue(r.value.email) == Lookup(v.fields, "email")
      && TextValue(r.value.createdAt) == Lookup(v.fields, "createdAt")
      && Some(TextValue(r.value.phone)) == PhoneOf(v.fields))
  {
    match v
    case Object(c) =>
      if "id" !in c then None
      else
        var phone := PhoneOf(c);
        if phone.None? then None
        else MakeCustomerResponse(c["id"], Lookup(c, "firstName"), Lookup(c, "lastName"), Lookup(c, "email"),
                                  phone.value, Lookup(c, "createdAt"))
    case _ => None
  }

  /** What the endpoint answers once the CRM call has returned or raised. */
  function CustomersReply(r: CrmResult): Response<seq<CustomerResponse>> {
    match Inspect(r)
    case Broken(e) => Escalate(e, false)
    case Rejected(_) => Escalate(HttpFault(400, Text(FetchFailedText)), false)
    case Accepted(m) =>
      match Elements(GetOr(m, "customers", Array([])))
      case None => Escalate(BadData, false)
      case Some(xs) =>
        match MapAll(MapCustomer, xs)
        case None => Escalate(BadData, false)
        case Some(customers) => Ok(customers)
  }

  /**
   * `get_customers`: a query outside the bounds is refused before the CRM is
   * called; otherwise the filters go to the CRM and its reply is mapped.
   */
  method GetCustomers(svc: Service, filter: CustomerFilter, page: int, limit: int, http: Http)
    returns (sent: Option<WireRequest>, resp: Response<seq<CustomerResponse>>)
    ensures !ValidQuery(page, limit) ==> sent == None && resp == Error(422, Unprocessable)
    ensures ValidQuery(page, limit) ==>
      sent == Some(HttpGet(svc.Url("customers"), CustomerParams(filter, page, limit)["apiKey" := Str(svc.apiKey)]))
      && resp == CustomersReply(Receive(http(sent.value)))
  {
    if !ValidQuery(page, limit) {
      return None, Error(422, Unprocessable);
    }
    var result;
    sent, result := Gateway.GetCustomers(svc, filter, page, limit, http);
    resp := CustomersReply(result);
  }

  /** A successful reply lists every customer the CRM returned, in its order. */
  lemma CustomersListed(m: map<string, Value>, xs: seq<Value>)
    requires Truthy(Lookup(m, "success")) && "customers" in m && m["customers"] == Array(xs)
    requires forall i :: 0 <= i < |xs| ==> MapCustomer(xs[i]).Some?
    ensures var resp := CustomersReply(Done(Object(m)));
      resp.Ok? && |resp.value| == |xs|
      && forall i :: 0 <= i < |xs| ==> Int(resp.value[i].id) == xs[i].fields["id"] && MapCustomer(xs[i]) == Some(resp.value[i])
  {
  }

  /** A successful reply without a `customers` key is an empty list. */
  lemma NoCustomersKey(m: map<string, Value>)
    requires Truthy(Lookup(m, "success")) && "customers" !in m
    ensures CustomersReply(Done(Object(m))) == Ok([])
  {
  }

  /** One customer that cannot be mapped fails the whole listing with a 500. */
  lemma BadCustomerFailsListing(m: map<string, Value>, xs: seq<Value>, k: int)
    requires Truthy(Lookup(m, "success")) && "customers" in m && m["customers"] == Array(xs)
    requires 0 <= k < |xs| && MapCustomer(xs[k]).None?
    ensures CustomersReply(Done(Object(m))) == Error(500, Internal(BadData))
  {
  }

  /**
   * A reply without a truthy `success` raises a 400 inside the `try`, which the
   * generic `except Exception` turns into a 500.
   */
  lemma FetchRejectionIs500(m: map<string, Value>)
    requires !Truthy(Lookup(m, "success"))
    ensures CustomersReply(Done(Object(m))) == Error(500, Internal(HttpFault(400, Text(FetchFailedText))))
  {
  }

  /** An error status from the CRM reaches the client unchanged. */
  lemma FetchUpstreamStatus(status: int, json: Option<Value>)
    requires !(200 <= status < 300)
    ensures CustomersReply(Receive(Response(status, json))) == Error(status, StatusText(status))
  {
  }

  // ---------------------------------------------------------------------------
  // POST /customers

  /** The CRM's customer document: each name and the email only when non-empty, the phone as a one-entry list. */
  function CustomerPayload(c: CustomerCreate): map<string, Value> {
    var m1 := if c.firstName != "" then map["firstName" := Str(c.firstName)] else map[];
    var m2 := if NonEmpty(c.lastName) then m1["lastName" := Str(c.lastName.value)] else m1;
    var m3 := if NonEmpty(c.email) then m2["email" := Str(c.email.value)] else m2;
    if NonEmpty(c.phone) then m3["phones" := Array([Object(map["number" := Str(c.phone.value)])])] else m3
  }

  /** How the CRM reads a customer document back; a missing name is empty. */
  function ReadCustomer(m: map<string, Value>): CustomerCreate {
    var first := if "firstName" in m && m["firstName"].Str? then m["firstName"].s else "";
    var last := if "lastName" in m && m["lastName"].Str? then Some(m["lastName"].s) else None;
    var email := if "email" in m && m["email"].Str? then Some(m["email"].s) else None;
    var phone :=
      if "phones" in m && m["phones"].Array? && |m["phones"].items| == 1 && m["phones"].items[0].Object?
         && "number" in m["phones"].items[0].fields && m["phones"].items[0].fields["number"].Str?
      then Some(m["phones"].items[0].fields["number"].s) else None;
    CustomerCreate(first, last, email, phone)
  }

  /** An empty optional text is the same as none. */
  function Normal(o: Option<string>): Option<string> {
    if NonEmpty(o) then o else None
  }

  /**
   * The document carries everything the request held, except that empty
   * strings are dropped; and it holds no other key.
   */
  lemma CustomerPayloadRoundTrip(c: CustomerCreate)
    ensures ReadCustomer(CustomerPayload(c)) == CustomerCreate(c.firstName, Normal(c.lastName), Normal(c.email), Normal(c.phone))
    ensures CustomerPayload(c).Keys <= {"firstName", "lastName", "email", "phones"}
    ensures ("phones" in CustomerPayload(c)) <==> NonEmpty(c.phone)
  {
    assert |"firstName"| == 9 && |"lastName"| == 8 && |"email"| == 5 && |"phones"| == 6;
  }

  /** The failure detail: the CRM's message, with its `errors` appended when there are any. */
  function CreateFailure(m: map<string, Value>): (d: Detail)
    ensures d.Message? <==> !Truthy(GetOr(m, "errors", Object(map[])))
    ensures d.Message? ==> d.msg == GetOr(m, "errorMsg", Str(CreateFailedText))
    ensures d.WithErrors? ==> d.msg == GetOr(m, "errorMsg", Str(CreateFailedText)) && d.errors == m["errors"]
  {
    var msg := GetOr(m, "errorMsg", Str(CreateFailedText));
    var errors := GetOr(m, "errors", Object(map[]));
    if Truthy(errors) then WithErrors(msg, errors) else Message(msg)
  }

  /** What the endpoint answers once the CRM call has returned or raised; its own 400 passes through. */
  function CreatedReply(r: CrmResult): Response<Value> {
    match Inspect(r)
    case Broken(e) => Escalate(e, true)
    case Rejected(m) => Escalate(HttpFault(400, CreateFailure(m)), true)
    case Accepted(m) => Ok(Confirmation(Lookup(m, "id"), CreatedText))
  }

  /** `create_customer`: the document is built field by field, sent, and the reply classified. */
  method CreateCustomer(svc: Service, c: CustomerCreate, http: Http)
    returns (sent: Option<WireRequest>, resp: Response<Value>)
    ensures sent == Some(CreateRequest(svc, "customers/create", "customer", CustomerPayload(c)))
    ensures resp == CreatedReply(Receive(http(sent.value)))
  {
    var data: map<string, Value> := map[];
    if c.firstName != "" {
      data := data["firstName" := Str(c.firstName)];
    }
    if NonEmpty(c.lastName) {
      data := data["lastName" := Str(c.lastName.value)];
    }
    if NonEmpty(c.email) {
      data := data["email" := Str(c.email.value)];
    }
    if NonEmpty(c.phone) {
      data := data["phones" := Array([Object(map["number" := Str(c.phone.value)])])];
    }
    var result;
    sent, result := Gateway.CreateCustomer(svc, data, http);
    resp := CreatedReply(result);
  }

  /** A CRM rejection stays a 400 with the CRM's message, or the default text when it gave none. */
  lemma CreateRejectionIs400(m: map<string, Value>)
    requires !Truthy(Lookup(m, "success"))
    ensures CreatedReply(Done(Object(m))) == Error(400, CreateFailure(m))
    ensures "errorMsg" !in m && "errors" !in m ==> CreatedReply(Done(Object(m))) == Error(400, Message(Str(CreateFailedText)))
  {
  }

  /** An accepted customer is confirmed with the CRM's id. */
  lemma CreateAccepted(m: map<string, Value>)
    requires Truthy(Lookup(m, "success"))
    ensures CreatedReply(Done(Object(m))) == Ok(Confirmation(Lookup(m, "id"), CreatedText))
  {
  }

  /** A customer whose fields are all empty is sent as an empty form, without the `customer` field. */
  lemma BlankCustomerSendsNoDocument(svc: Service)
    ensures CreateRequest(svc, "customers/create", "customer", CustomerPayload(CustomerCreate("", None, None, None))).body
      == Form(map[])
  {
  }
}
