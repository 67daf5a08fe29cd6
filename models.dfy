/**
 * The request and response bodies of the REST facade (app/models.py) and the
 * validation the framework applies to them before an endpoint runs: required
 * fields, the `None` and literal defaults, and the `gt=0` bounds.
 *
 * A body arrives as decoded JSON with snake_case keys.  Parsing yields None
 * where the framework answers 422; the endpoints only ever see parsed values.
 */
module Models {
  import opened Base
  import opened Json

  /** The filters of a customer search; the dates are already formatted as text. */
  datatype CustomerFilter = CustomerFilter(
    firstName: Option<string>, lastName: Option<string>, email: Option<string>,
    createdAtFrom: Option<string>, createdAtTo: Option<string>)

  datatype CustomerCreate = CustomerCreate(
    firstName: string, lastName: Option<string>, email: Option<string>, phone: Option<string>)

  datatype CustomerResponse = CustomerResponse(
    id: int, firstName: Option<string>, lastName: Option<string>, email: Option<string>,
    phone: Option<string>, createdAt: Option<string>)

  datatype OrderItem = OrderItem(productName: string, quantity: int, price: real)

  datatype OrderCreate = OrderCreate(customerId: int, items: seq<OrderItem>, number: Option<string>)

  datatype OrderResponse = OrderResponse(
    id: int, number: Option<string>, customerId: Option<int>, createdAt: Option<string>,
    status: Option<string>, totalSum: Option<real>)

  datatype PaymentCreate = PaymentCreate(amount: real, paymentType: Option<string>, status: Option<string>)

  /** The literal defaults of PaymentCreate. */
  const DefaultPaymentType := "cash"
  const DefaultPaymentStatus := "paid"

  // ---------------------------------------------------------------------------
  // Field validators: None where validation fails.

  /** A `str` field. */
  function AsText(v: Value): Option<string> {
    match v
    case Str(s) => Some(s)
    case _ => None
  }

  /** An `Optional[str]` field: null is None, a string is kept. */
  function AsOptionalText(v: Value): Option<Option<string>> {
    match v
    case Null => Some(None)
    case Str(s) => Some(Some(s))
    case _ => None
  }

  /** An `int` field. */
  function AsInt(v: Value): Option<int> {
    match v
    case Int(i) => Some(i)
    case _ => None
  }

  /** An `Optional[int]` field. */
  function AsOptionalInt(v: Value): Option<Option<int>> {
    match v
    case Null => Some(None)
    case Int(i) => Some(Some(i))
    case _ => None
  }

  /** A `float` field: JSON integers are widened. */
  function AsReal(v: Value): Option<real> {
    match v
    case Int(i) => Some(i as real)
    case Num(r) => Some(r)
    case _ => None
  }

  /** An `Optional[float]` field. */
  function AsOptionalReal(v: Value): Option<Option<real>> {
    match v
    case Null => Some(None)
    case Int(i) => Some(Some(i as real))
    case Num(r) => Some(Some(r))
    case _ => None
  }

  /** The JSON form of an `Optional[str]`. */
  function TextValue(o: Option<string>): Value {
    match o
    case Some(s) => Str(s)
    case None => Null
  }

  lemma OptionalTextRoundTrip(o: Option<string>)
    ensures AsOptionalText(TextValue(o)) == Some(o)
  {
  }

  // ---------------------------------------------------------------------------
  // The `gt=0` constraints.

  predicate ValidItem(item: OrderItem) {
    item.quantity > 0 && item.price > 0.0
  }

  predicate ValidOrder(order: OrderCreate) {
    forall i :: 0 <= i < |order.items| ==> ValidItem(order.items[i])
  }

  predicate ValidPayment(p: PaymentCreate) {
    p.amount > 0.0
  }

  // ---------------------------------------------------------------------------
  // Request bodies.

  /** CustomerCreate: `first_name` is required, the rest default to None. */
  function ParseCustomerCreate(body: Value): (r: Option<CustomerCreate>)
    ensures r.Some? ==> body.Object? && "first_name" in body.fields
    ensures r.Some? && "last_name" !in body.fields ==> r.value.lastName == None
    ensures r.Some? && "email" !in body.fields ==> r.value.email == None
    ensures r.Some? && "phone" !in body.fields ==> r.value.phone == None
  {
    match body
    case Object(m) =>
      if "first_name" !in m then None
      else
        var first := AsText(m["first_name"]);
        var last := AsOptionalText(Lookup(m, "last_name"));
        var email := AsOptionalText(Lookup(m, "email"));
        var phone := AsOptionalText(Lookup(m, "phone"));
        if first.Some? && last.Some? && email.Some? && phone.Some? then
          Some(CustomerCreate(first.value, last.value, email.value, phone.value))
        else None
    case _ => None
  }

  /** The JSON a client sends for a customer. */
  function DumpCustomerCreate(c: CustomerCreate): Value {
    Object(map["first_name" := Str(c.firstName), "last_name" := TextValue(c.lastName),
               "email" := TextValue(c.email), "phone" := TextValue(c.phone)])
  }

  lemma CustomerCreateRoundTrip(c: CustomerCreate)
    ensures ParseCustomerCreate(DumpCustomerCreate(c)) == Some(c)
  {
    OptionalTextRoundTrip(c.lastName);
    OptionalTextRoundTrip(c.email);
    OptionalTextRoundTrip(c.phone);
  }

  /** Only the first name is needed; the other fields then default to None. */
  lemma CustomerCreateDefaults(first: string)
    ensures ParseCustomerCreate(Object(map["first_name" := Str(first)]))
      == Some(CustomerCreate(first, None, None, None))
  {
  }

  /** OrderItem: all three fields are required, quantity and price must be positive. */
  function ParseItem(v: Value): (r: Option<OrderItem>)
    ensures r.Some? ==> ValidItem(r.value)
  {
    match v
    case Object(m) =>
      if "product_name" in m && "quantity" in m && "price" in m then
        var name := AsText(m["product_name"]);
        var quantity := AsInt(m["quantity"]);
        var price := AsReal(m["price"]);
        if name.Some? && quantity.Some? && price.Some? && quantity.value > 0 && price.value > 0.0 then
          Some(OrderItem(name.value, quantity.value, price.value))
        else None
      else None
    case _ => None
  }

  /** OrderCreate: `customer_id` and `items` are required, `number` defaults to None. */
  function ParseOrderCreate(body: Value): (r: Option<OrderCreate>)
    ensures r.Some? ==> ValidOrder(r.value)
    ensures r.Some? ==> body.Object? && "customer_id" in body.fields && "items" in body.fields
    ensures r.Some? && "number" !in body.fields ==> r.value.number == None
  {
    match body
    case Object(m) =>
      if "customer_id" in m && "items" in m && m["items"].Array? then
        var id := AsInt(m["customer_id"]);
        var items := MapAll(ParseItem, m["items"].items);
        var number := AsOptionalText(Lookup(m, "number"));
        if id.Some? && items.Some? && number.Some? then
          Some(OrderCreate(id.value, items.value, number.value))
        else None
      else None
    case _ => None
  }

  function DumpItem(item: OrderItem): Value {
    Object(map["product_name" := Str(item.productName), "quantity" := Int(item.quantity),
               "price" := Num(item.price)])
  }

  function DumpItems(items: seq<OrderItem>): (vs: seq<Value>)
    ensures |vs| == |items|
    ensures forall i :: 0 <= i < |items| ==> vs[i] == DumpItem(items[i])
  {
    if items == [] then [] else [DumpItem(items[0])] + DumpItems(items[1..])
  }

  function DumpOrderCreate(order: OrderCreate): Value {
    Object(map["customer_id" := Int(order.customerId), "items" := Array(DumpItems(order.items)),
               "number" := TextValue(order.number)])
  }

  /** Every order that meets the constraints survives a trip through its JSON form. */
  lemma OrderCreateRoundTrip(order: OrderCreate)
    requires ValidOrder(order)
    ensures ParseOrderCreate(DumpOrderCreate(order)) == Some(order)
  {
    var vs := DumpItems(order.items);
    assert forall i :: 0 <= i < |vs| ==> ParseItem(vs[i]) == Some(order.items[i]) by {
      forall i | 0 <= i < |vs|
        ensures ParseItem(vs[i]) == Some(order.items[i])
      {
        assert ValidItem(order.items[i]);
      }
    }
    var parsed := MapAll(ParseItem, vs);
    assert parsed.value == order.items;
    OptionalTextRoundTrip(order.number);
  }

  /** One item that does not validate anywhere in the list rejects the whole order. */
  lemma UnparsableItemRejectsOrder(body: Value, k: int)
    requires body.Object? && "items" in body.fields && body.fields["items"].Array?
    requires 0 <= k < |body.fields["items"].items| && ParseItem(body.fields["items"].items[k]).None?
    ensures ParseOrderCreate(body) == None
  {
  }

  /** A non-positive quantity or price anywhere in the list rejects the whole order. */
  lemma BadItemRejectsOrder(body: Value, k: int)
    requires body.Object? && "items" in body.fields && body.fields["items"].Array?
    requires 0 <= k < |body.fields["items"].items|
    requires var item := body.fields["items"].items[k];
      item.Object? &&
      (|| ("quantity" in item.fields && AsInt(item.fields["quantity"]).Some? && AsInt(item.fields["quantity"]).value <= 0)
       || ("price" in item.fields && AsReal(item.fields["price"]).Some? && AsReal(item.fields["price"]).value <= 0.0))
    ensures ParseOrderCreate(body) == None
  {
    var item := body.fields["items"].items[k];
    assert ParseItem(item) == None;
    UnparsableItemRejectsOrder(body, k);
  }

  /** PaymentCreate: `amount` is required and positive; type and status default to "cash" and "paid". */
  function ParsePaymentCreate(body: Value): (r: Option<PaymentCreate>)
    ensures r.Some? ==> ValidPayment(r.value)
    ensures r.Some? && body.Object? && "type" !in body.fields ==> r.value.paymentType == Some(DefaultPaymentType)
    ensures r.Some? && body.Object? && "status" !in body.fields ==> r.value.status == Some(DefaultPaymentStatus)
  {
    match body
    case Object(m) =>
      if "amount" in m then
        var amount := AsReal(m["amount"]);
        var kind := AsOptionalText(if "type" in m then m["type"] else Str(DefaultPaymentType));
        var status := AsOptionalText(if "status" in m then m["status"] else Str(DefaultPaymentStatus));
        if amount.Some? && amount.value > 0.0 && kind.Some? && status.Some? then
          Some(PaymentCreate(amount.value, kind.value, status.value))
        else None
      else None
    case _ => None
  }

  function DumpPaymentCreate(p: PaymentCreate): Value {
    Object(map["amount" := Num(p.amount), "type" := TextValue(p.paymentType), "status" := TextValue(p.status)])
  }

  lemma PaymentCreateRoundTrip(p: PaymentCreate)
    requires ValidPayment(p)
    ensures ParsePaymentCreate(DumpPaymentCreate(p)) == Some(p)
  {
    OptionalTextRoundTrip(p.paymentType);
    OptionalTextRoundTrip(p.status);
  }

  /** A body with only a positive amount is a cash payment marked paid. */
  lemma PaymentDefaults(amount: real)
    requires amount > 0.0
    ensures ParsePaymentCreate(Object(map["amount" := Num(amount)]))
      == Some(PaymentCreate(amount, Some(DefaultPaymentType), Some(DefaultPaymentStatus)))
  {
  }

  /** An explicit null type is kept as None rather than replaced by the default. */
  lemma ExplicitNullType(amount: real)
    requires amount > 0.0
    ensures ParsePaymentCreate(Object(map["amount" := Num(amount), "type" := Null])).value.paymentType == None
  {
  }

  // ---------------------------------------------------------------------------
  // Response bodies, built from what the CRM returned.

  /** `CustomerResponse(...)`: None where a value does not fit its field. */
  function MakeCustomerResponse(id: Value, first: Value, last: Value, email: Value, phone: Value, created: Value)
    : (r: Option<CustomerResponse>)
    ensures r.Some? <==> (id.Int? && AsOptionalText(first).Some? && AsOptionalText(last).Some?
      && AsOptionalText(email).Some? && AsOptionalText(phone).Some? && AsOptionalText(created).Some?)
    ensures r.Some? ==> (TextValue(r.value.firstName) == first && TextValue(r.value.lastName) == last
      && TextValue(r.value.email) == email && TextValue(r.value.phone) == phone
      && TextValue(r.value.createdAt) == created && Int(r.value.id) == id)
  {
    var f, l, e, p, c := AsOptionalText(first), AsOptionalText(last), AsOptionalText(email),
      AsOptionalText(phone), AsOptionalText(created);
    if id.Int? && f.Some? && l.Some? && e.Some? && p.Some? && c.Some? then
      Some(CustomerResponse(id.i, f.value, l.value, e.value, p.value, c.value))
    else None
  }

  /** `OrderResponse(...)`: None where a value does not fit its field. */
  function MakeOrderResponse(id: Value, number: Value, customerId: Value, created: Value, status: Value, total: Value)
    : (r: Option<OrderResponse>)
    ensures r.Some? <==> (id.Int? && AsOptionalText(number).Some? && AsOptionalInt(customerId).Some?
      && AsOptionalText(created).Some? && AsOptionalText(status).Some? && AsOptionalReal(total).Some?)
    ensures r.Some? ==> (r.value.id == id.i && TextValue(r.value.number) == number
      && TextValue(r.value.createdAt) == created && TextValue(r.value.status) == status
      && r.value.customerId == (if customerId.Int? then Some(customerId.i) else None)
      && r.value.totalSum == (if total.Int? then Some(total.i as real) else if total.Num? then Some(total.r) else None))
  {
    var n, k, c, s, t := AsOptionalText(number), AsOptionalInt(customerId), AsOptionalText(created),
      AsOptionalText(status), AsOptionalReal(total);
    if id.Int? && n.Some? && k.Some? && c.Some? && s.Some? && t.Some? then
      Some(OrderResponse(id.i, n.value, k.value, c.value, s.value, t.value))
    else None
  }
}
