/**
 * The order endpoints of the REST facade (app/api/orders.py): listing a
 * customer's orders with the page size coerced to 20, 50 or 100, creating an
 * order from an OrderCreate, and recording a payment against an order.
 */
module ApiOrders {
  import opened Base
  import opened Json
  import opened Models
  import opened Gateway
  import opened ApiCommon

  const FetchFailedText := "Failed to fetch orders"
  const CreateFailedText := "Failed to create order"
  const CreatedText := "Order created successfully"
  const PaymentFailedText := "Failed to create payment"
  const PaymentCreatedText := "Payment created successfully"

  // ---------------------------------------------------------------------------
  // GET /customers/{customer_id}/orders

  /** The page sizes the CRM accepts for orders. */
  const PageSizes: set<int> := {20, 50, 100}

  /** The query bounds `page >= 1` and `20 <= limit <= 100`. */
  predicate ValidQuery(page: int, limit: int) {
    page >= 1 && 20 <= limit <= 100
  }

  /** `if limit not in [20, 50, 100]: limit = 20`. */
  function CoercedLimit(limit: int): (l: int)
    ensures l in PageSizes
    ensures l == limit <==> limit in PageSizes
  {
    if limit in PageSizes then limit else 20
  }

  /** One element of the CRM's `orders` list as an OrderResponse; None where the mapping raises. */
  function MapOrder(v: Value): (r: Option<OrderResponse>)
    ensures r.Some? ==> v.Object? && "id" in v.fields && Int(r.value.id) == v.fields["id"]
    ensures r.Some? ==> (TextValue(r.value.number) == Lookup(v.fields, "number")
      && TextValue(r.value.createdAt) == Lookup(v.fields, "createdAt")
      && TextValue(r.value.status) == Lookup(v.fields, "status"))
    ensures r.Some? ==>
      var customer := GetOr(v.fields, "customer", Object(map[]));
      && customer.Object?
      && var cid := Lookup(customer.fields, "id");
      r.value.customerId == (if cid.Int? then Some(cid.i) else None)
    ensures r.Some? ==>
      var total := Lookup(v.fields, "totalSumm");
      r.value.totalSum == (if total.Int? then Some(total.i as real) else if total.Num? then Some(total.r) else None)
  {
    match v
    case Object(o) =>
      if "id" !in o then None
      else
        var customer := GetOr(o, "customer", Object(map[]));
        if !customer.Object? then None
        else MakeOrderResponse(o["id"], Lookup(o, "number"), Lookup(customer.fields, "id"), Lookup(o, "createdAt"),
                               Lookup(o, "status"), Lookup(o, "totalSumm"))
    case _ => None
  }

  /**
   * An order whose fields have the expected JSON types is mapped, whatever
   * else its customer object holds: the customer id is read from
   * `customer.id` and the total from `totalSumm`, an integer total widened.
   */
  lemma OrderFields(o: map<string, Value>)
    requires "id" in o && o["id"].Int?
    requires "customer" in o && o["customer"].Object? && "id" in o["customer"].fields && o["customer"].fields["id"].Int?
    requires "totalSumm" in o && AsReal(o["totalSumm"]).Some?
    requires AsOptionalText(Lookup(o, "number")).Some? && AsOptionalText(Lookup(o, "createdAt")).Some?
    requires AsOptionalText(Lookup(o, "status")).Some?
    ensures var r := MapOrder(Object(o));
      && r.Some? && r.value.id == o["id"].i
      && r.value.customerId == Some(o["customer"].fields["id"].i)
      && r.value.totalSum == AsReal(o["totalSumm"])
  {
  }

  /** An order without a customer has no customer id; one whose customer is null cannot be mapped. */
  lemma OrderWithoutCustomer(o: map<string, Value>)
    requires "id" in o
    ensures "customer" !in o && MapOrder(Object(o)).Some? ==> MapOrder(Object(o)).value.customerId == None
    ensures "customer" in o && o["customer"] == Null ==> MapOrder(Object(o)) == None
  {
  }

  /** What the endpoint answers once the CRM call has returned or raised. */
  function OrdersReply(r: CrmResult): Response<seq<OrderResponse>> {
    match Inspect(r)
    case Broken(e) => Escalate(e, false)
    case Rejected(_) => Escalate(HttpFault(400, Text(FetchFailedText)), false)
    case Accepted(m) =>
      match Elements(GetOr(m, "orders", Array([])))
      case None => Escalate(BadData, false)
      case Some(xs) =>
        match MapAll(MapOrder, xs)
        case None => Escalate(BadData, false)
        case Some(orders) => Ok(orders)
  }

  /**
   * `get_customer_orders`: a query outside the bounds is refused before the
   * CRM is called; otherwise the limit is coerced and the orders fetched.
   */
  method GetCustomerOrders(svc: Service, customerId: int, page: int, limit: int, http: Http)
    returns (sent: Option<WireRequest>, resp: Response<seq<OrderResponse>>)
    ensures !ValidQuery(page, limit) ==> sent == None && resp == Error(422, Unprocessable)
    ensures ValidQuery(page, limit) ==>
      sent == Some(HttpGet(svc.Url("orders"), OrderParams(Some(customerId), page, CoercedLimit(limit))["apiKey" := Str(svc.apiKey)]))
      && resp == OrdersReply(Receive(http(sent.value)))
  {
    if !ValidQuery(page, limit) {
      return None, Error(422, Unprocessable);
    }
    var size := limit;
    if size !in PageSizes {
      size := 20;
    }
    var result;
    sent, result := Gateway.GetOrders(svc, Some(customerId), page, size, http);
    resp := OrdersReply(result);
  }

  /** The page size sent to the CRM is always 20, 50 or 100, and is the requested one when that is allowed. */
  lemma SentLimitAllowed(customerId: int, page: int, limit: int)
    requires ValidQuery(page, limit)
    ensures var q := OrderParams(Some(customerId), page, CoercedLimit(limit));
      q["limit"].Int? && q["limit"].i in PageSizes && (limit in PageSizes ==> q["limit"] == Int(limit))
      && (limit !in PageSizes ==> q["limit"] == Int(20))
  {
    OrderParamsContent(Some(customerId), page, CoercedLimit(limit));
  }

  /** Customer 0 is falsy, so its listing goes out without the customer filter. */
  lemma CustomerZeroUnfiltered(page: int, limit: int)
    ensures "filter[customerId]" !in OrderParams(Some(0), page, CoercedLimit(limit))
  {
    OrderParamsContent(Some(0), page, CoercedLimit(limit));
  }

  /** A successful reply lists every order the CRM returned, in its order; without `orders` it is empty. */
  lemma OrdersListed(m: map<string, Value>, xs: seq<Value>)
    requires Truthy(Lookup(m, "success"))
    requires "orders" in m ==> m["orders"] == Array(xs) && forall i :: 0 <= i < |xs| ==> MapOrder(xs[i]).Some?
    ensures var resp := OrdersReply(Done(Object(m)));
      resp.Ok? && ("orders" !in m ==> resp.value == [])
      && ("orders" in m ==> |resp.value| == |xs| && forall i :: 0 <= i < |xs| ==> MapOrder(xs[i]) == Some(resp.value[i]))
  {
  }

  /** A reply without a truthy `success` becomes a 500 rather than the 400 raised for it. */
  lemma FetchRejectionIs500(m: map<string, Value>)
    requires !Truthy(Lookup(m, "success"))
    ensures OrdersReply(Done(Object(m))) == Error(500, Internal(HttpFault(400, Text(FetchFailedText))))
  {
  }

  /** An error status from the CRM reaches the client unchanged. */
  lemma FetchUpstreamStatus(status: int, json: Option<Value>)
    requires !(200 <= status < 300)
    ensures OrdersReply(Receive(Response(status, json))) == Error(status, StatusText(status))
  {
  }

  // ---------------------------------------------------------------------------
  // POST /orders

  /** An item as the CRM names its fields. */
  function ItemPayload(item: OrderItem): Value {
    Object(map["productName" := Str(item.productName), "quantity" := Int(item.quantity),
               "initialPrice" := Num(item.price)])
  }

  function ItemsPayload(items: seq<OrderItem>): (vs: seq<Value>)
    ensures |vs| == |items| && forall i :: 0 <= i < |items| ==> vs[i] == ItemPayload(items[i])
  {
    seq(|items|, i requires 0 <= i < |items| => ItemPayload(items[i]))
  }

  /** The CRM's order document: the customer reference, the items in order, and the number when non-empty. */
  function OrderPayload(order: OrderCreate): map<string, Value> {
    var m := map["customer" := Object(map["id" := Int(order.customerId)]), "items" := Array(ItemsPayload(order.items))];
    if NonEmpty(order.number) then m["number" := Str(order.number.value)] else m
  }

  /** How the CRM reads an item back. */
  function ReadItem(v: Value): Option<OrderItem> {
    match v
    case Object(m) =>
      if "productName" in m && m["productName"].Str? && "quantity" in m && m["quantity"].Int?
         && "initialPrice" in m && m["initialPrice"].Num?
      then Some(OrderItem(m["productName"].s, m["quantity"].i, m["initialPrice"].r))
      else None
    case _ => None
  }

  /** How the CRM reads an order document back. */
  function ReadOrder(m: map<string, Value>): Option<OrderCreate> {
    if "customer" in m && m["customer"].Object? && "id" in m["customer"].fields && m["customer"].fields["id"].Int?
       && "items" in m && m["items"].Array?
    then
      var items := MapAll(ReadItem, m["items"].items);
      var number := if "number" in m && m["number"].Str? then Some(m["number"].s) else None;
      if items.Some? then Some(OrderCreate(m["customer"].fields["id"].i, items.value, number)) else None
    else None
  }

  /** The document carries the whole order, items in order, except that an empty number is dropped. */
  lemma OrderPayloadRoundTrip(order: OrderCreate)
    ensures ReadOrder(OrderPayload(order)) == Some(order.(number := if NonEmpty(order.number) then order.number else None))
  {
    var m := OrderPayload(order);
    var vs := ItemsPayload(order.items);
    assert |"number"| == 6 && |"items"| == 5 && |"customer"| == 8;
    assert m["items"] == Array(vs);
    assert forall i :: 0 <= i < |vs| ==> ReadItem(vs[i]) == Some(order.items[i]);
    var items := MapAll(ReadItem, vs);
    assert items.value == order.items;
  }

  /** What the endpoint answers once the CRM call has returned or raised. */
  function OrderCreatedReply(r: CrmResult): Response<Value> {
    match Inspect(r)
    case Broken(e) => Escalate(e, false)
    case Rejected(m) => Escalate(HttpFault(400, Message(GetOr(m, "errorMsg", Str(CreateFailedText)))), false)
    case Accepted(m) => Ok(Confirmation(Lookup(m, "id"), CreatedText))
  }

  /** `create_order`: the items are appended one by one, then the document is sent. */
  method CreateOrder(svc: Service, order: OrderCreate, http: Http)
    returns (sent: Option<WireRequest>, resp: Response<Value>)
    ensures sent == Some(CreateRequest(svc, "orders/create", "order", OrderPayload(order)))
    ensures sent.value.body.JsonField?
    ensures resp == OrderCreatedReply(Receive(http(sent.value)))
  {
    var items: seq<Value> := [];
    for i := 0 to |order.items|
      invariant items == ItemsPayload(order.items[..i])
    {
      items := items + [ItemPayload(order.items[i])];
    }
    assert order.items[..|order.items|] == order.items;
    var data := map["customer" := Object(map["id" := Int(order.customerId)]), "items" := Array(items)];
    if NonEmpty(order.number) {
      data := data["number" := Str(order.number.value)];
    }
    assert "customer" in data;
    var result;
    sent, result := Gateway.CreateOrder(svc, data, http);
    resp := OrderCreatedReply(result);
  }

  /** A CRM rejection of an order surfaces as a 500 that wraps the 400 and its message. */
  lemma OrderRejectionIs500(m: map<string, Value>)
    requires !Truthy(Lookup(m, "success"))
    ensures OrderCreatedReply(Done(Object(m)))
      == Error(500, Internal(HttpFault(400, Message(GetOr(m, "errorMsg", Str(CreateFailedText))))))
  {
  }

  // ---------------------------------------------------------------------------
  // POST /orders/{order_id}/payment

  /** The payment document before the order reference is added: exactly type, status and amount. */
  function PaymentPayload(p: PaymentCreate): map<string, Value> {
    map["type" := TextValue(p.paymentType), "status" := TextValue(p.status), "amount" := Num(p.amount)]
  }

  /** What the endpoint answers once the CRM call has returned or raised. */
  function PaymentCreatedReply(r: CrmResult): Response<Value> {
    match Inspect(r)
    case Broken(e) => Escalate(e, false)
    case Rejected(m) => Escalate(HttpFault(400, Message(GetOr(m, "errorMsg", Str(PaymentFailedText)))), false)
    case Accepted(m) => Ok(Confirmation(Lookup(m, "id"), PaymentCreatedText))
  }

  /**
   * `create_order_payment`: the body is optional, and a missing one fails on
   * `payment.type` inside the `try`, which becomes a 500 without any CRM call.
   */
  method CreateOrderPayment(svc: Service, orderId: int, payment: Option<PaymentCreate>, http: Http)
    returns (sent: Option<WireRequest>, resp: Response<Value>)
    ensures payment.None? ==> sent == None && resp == Error(500, Internal(BadData))
    ensures payment.Some? ==>
      sent == Some(CreateRequest(svc, "orders/payments/create", "payment",
                                 PaymentPayload(payment.value)["order" := OrderRef(orderId)]))
      && resp == PaymentCreatedReply(Receive(http(sent.value)))
  {
    if payment.None? {
      return None, Escalate(BadData, false);
    }
    var p := payment.value;
    var paymentData := new Dict(map["type" := TextValue(p.paymentType), "status" := TextValue(p.status),
                                    "amount" := Num(p.amount)]);
    var result;
    sent, result := Gateway.CreatePayment(svc, orderId, paymentData, http);
    resp := PaymentCreatedReply(result);
  }

  /** The payment document holds exactly type, status, amount and the order reference, and is sent as JSON. */
  lemma PaymentDocument(svc: Service, orderId: int, p: PaymentCreate)
    ensures var doc := PaymentPayload(p)["order" := OrderRef(orderId)];
      doc.Keys == {"type", "status", "amount", "order"}
      && doc["amount"] == Num(p.amount) && doc["type"] == TextValue(p.paymentType) && doc["status"] == TextValue(p.status)
      && doc["order"] == Object(map["id" := Int(orderId)])
      && CreateRequest(svc, "orders/payments/create", "payment", doc).body == JsonField("payment", doc)
  {
    assert |"type"| == 4 && |"status"| == 6 && |"amount"| == 6 && |"order"| == 5;
    assert "status" != "amount" by { assert "status"[0] != "amount"[0]; }
  }

  /** A CRM rejection of a payment surfaces as a 500 that wraps the 400 and its message. */
  lemma PaymentRejectionIs500(m: map<string, Value>)
    requires !Truthy(Lookup(m, "success"))
    ensures PaymentCreatedReply(Done(Object(m)))
      == Error(500, Internal(HttpFault(400, Message(GetOr(m, "errorMsg", Str(PaymentFailedText))))))
  {
  }
}
