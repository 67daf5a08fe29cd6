/**
 * retailcrmbot/bot/handlers/orders.py: a customer's orders with their pages,
 * the order creation form (customer id, number, item lines) and the payment
 * form (order id, amount, payment type).
 *
 * As for the customer handlers, each handler is a function `On...` on
 * sessions and a method of the Python name proved to agree with it.  Both
 * order flows begin in the same step `OrderCustomerId`; which handler answers
 * that step is decided by the router (see the BotDispatch module).
 */
module BotOrders {
  import opened Base
  import opened Text
  import opened Json
  import opened Keyboards
  import opened Fsm
  import opened BotCommon

  const ListPrefix := "orders_list"

  // ---------------------------------------------------------------------
  // A customer's orders

  function OrdersQuery(page: int): map<string, Value> {
    map["page" := Int(page), "limit" := Int(PageSize)]
  }

  /**
   * `show_orders_page`: one GET for the customer's orders.  A rendered page
   * remembers the customer in the session for the page buttons; an error
   * answer must be a JSON object to be reported (`error_data.get`).
   */
  function ShowOrders(s: Session, customerId: Value, page: int, api: Api): (t: Transition)
    ensures t.effect.Effect? && t.effect.request == Some(ListOrders(customerId, OrdersQuery(page)))
    ensures t.after == (if t.effect.reply.Listing? then s.UpdateData(map["orders_customer_id" := customerId]) else s)
  {
    var req := ListOrders(customerId, OrdersQuery(page));
    var reply := api(req);
    if !reply.Unreachable? && reply.status != 200 then
      var shown := if reply.Answered? && reply.body.Some? && reply.body.value.Object? then FetchFailed else Failed;
      Transition(s, Effect(Some(req), shown))
    else
      var shown := ListingReply(page, ListPrefix, reply);
      if shown.Listing? then
        Transition(s.UpdateData(map["orders_customer_id" := customerId]), Effect(Some(req), shown))
      else
        Transition(s, Effect(Some(req), shown))
  }

  function OnOrdersByCustomerStart(s: Session): Transition {
    Transition(s.SetState(OrderCustomerId), Effect(None, Ask(CancelButton())))
  }

  /**
   * `process_customer_id_for_orders`: an integer is stored, the context is
   * cleared and the first page is shown; anything else is asked again.
   */
  function OnCustomerIdForOrders(s: Session, text: string, api: Api): Transition {
    match ParseInt(text)
    case None => Answer(s, Reprompt(NotAnInteger))
    case Some(n) => ShowOrders(Cleared, Int(n), 1, api)
  }

  /** A page button: only works while the session remembers a (truthy) customer. */
  function OnOrdersPage(s: Session, callbackData: string, api: Api): Transition {
    match PageFromCallback(callbackData)
    case None => Transition(s, Crash)
    case Some(page) =>
      var customerId := Lookup(s.data, "orders_customer_id");
      if Truthy(customerId) then ShowOrders(s, customerId, page, api) else Answer(s, Silent)
  }

  method ShowOrdersPage(ctx: FsmContext, customerId: Value, page: int, api: Api) returns (eff: Effect)
    modifies ctx
    ensures var t := ShowOrders(old(ctx.Snapshot()), customerId, page, api); ctx.Snapshot() == t.after && eff == t.effect
  {
    var params := map["page" := Int(page), "limit" := Int(PageSize)];
    var req := ListOrders(customerId, params);
    var reply := api(req);
    if !reply.Unreachable? && reply.status != 200 {
      if reply.Answered? && reply.body.Some? && reply.body.value.Object? {
        return Effect(Some(req), FetchFailed);
      }
      return Effect(Some(req), Failed);
    }
    var shown := ListingReply(page, ListPrefix, reply);
    if shown.Listing? {
      ctx.UpdateData(map["orders_customer_id" := customerId]);
    }
    eff := Effect(Some(req), shown);
  }

  method OrdersByCustomerStart(ctx: FsmContext) returns (eff: Effect)
    modifies ctx
    ensures var t := OnOrdersByCustomerStart(old(ctx.Snapshot())); ctx.Snapshot() == t.after && eff == t.effect
  {
    ctx.SetState(OrderCustomerId);
    eff := Effect(None, Ask(CancelButton()));
  }

  method ProcessCustomerIdForOrders(ctx: FsmContext, text: string, api: Api) returns (eff: Effect)
    modifies ctx
    ensures var t := OnCustomerIdForOrders(old(ctx.Snapshot()), text, api); ctx.Snapshot() == t.after && eff == t.effect
  {
    var customerId := ParseInt(text);
    if customerId.None? {
      return Effect(None, Reprompt(NotAnInteger));
    }
    ctx.UpdateData(map["customer_id" := Int(customerId.value)]);
    ctx.Clear();
    eff := ShowOrdersPage(ctx, Int(customerId.value), 1, api);
  }

  method OrdersPageHandler(ctx: FsmContext, callbackData: string, api: Api) returns (eff: Effect)
    modifies ctx
    ensures var t := OnOrdersPage(old(ctx.Snapshot()), callbackData, api); ctx.Snapshot() == t.after && eff == t.effect
  {
    var page := PageFromCallback(callbackData);
    if page.None? {
      return Crash;
    }
    var data := ctx.GetData();
    var customerId := Lookup(data, "orders_customer_id");
    if Truthy(customerId) {
      eff := ShowOrdersPage(ctx, customerId, page.value, api);
    } else {
      eff := Effect(None, Silent);
    }
  }

  /**
   * Once a customer's first page is shown (the context was cleared just
   * before), every page button of it asks for the same customer's orders --
   * unless the customer id was 0, which is falsy, so that the buttons then do
   * nothing.
   */
  lemma PagesFollowCustomer(n: int, page: int, api: Api)
    ensures var t := ShowOrders(Cleared, Int(n), 1, api);
      t.effect.reply.Listing? ==>
        && (n != 0 ==> OnOrdersPage(t.after, PageCallback(ListPrefix, page), api) == ShowOrders(t.after, Int(n), page, api))
        && (n == 0 ==> OnOrdersPage(t.after, PageCallback(ListPrefix, page), api) == Answer(t.after, Silent))
  {
    var t := ShowOrders(Cleared, Int(n), 1, api);
    if t.effect.reply.Listing? {
      assert Lookup(t.after.data, "orders_customer_id") == Int(n);
      PageButton(t.after, page, api);
    }
  }

  /** A valid customer id shows that customer's first page from a cleared session. */
  lemma CustomerIdShowsOrders(s: Session, text: string, n: int, api: Api)
    requires ParseInt(text) == Some(n)
    ensures OnCustomerIdForOrders(s, text, api) == ShowOrders(Cleared, Int(n), 1, api)
  {
  }

  /** A page button of the orders list asks for that page of the remembered customer, if any. */
  lemma PageButton(s: Session, page: int, api: Api)
    ensures var customerId := Lookup(s.data, "orders_customer_id");
      OnOrdersPage(s, PageCallback(ListPrefix, page), api)
        == if Truthy(customerId) then ShowOrders(s, customerId, page, api) else Answer(s, Silent)
  {
    PageCallbackRoundTrip(ListPrefix, page);
  }

  // ---------------------------------------------------------------------
  // The order creation form

  function OnOrdersCreateStart(s: Session): Transition {
    Transition(s.SetState(OrderCustomerId), Effect(None, Ask(CancelButton())))
  }

  /** `process_customer_id_for_create`: store the customer and ask for the number. */
  function OnCustomerIdForCreate(s: Session, text: string): Transition {
    match ParseInt(text)
    case None => Answer(s, Reprompt(NotAnInteger))
    case Some(n) =>
      Transition(s.UpdateData(map["customer_id" := Int(n)]).SetState(OrderNumber),
                 Effect(None, Ask(SkipButton("skip_order_number"))))
  }

  function OnSkipOrderNumber(s: Session): Transition {
    Transition(s.UpdateData(map["number" := Null]).SetState(OrderItems), Effect(None, Ask(CancelButton())))
  }

  function OnOrderNumber(s: Session, text: string): Transition {
    Transition(s.UpdateData(map["number" := Str(text)]).SetState(OrderItems), Effect(None, Ask(CancelButton())))
  }

  /** One order line. */
  datatype Item = Item(productName: string, quantity: int, price: real)

  /** The outcome of reading the item lines: the first bad line decides. */
  datatype ItemsResult = Parsed(items: seq<Item>) | BadFormat | BadNumbers

  /**
   * One line `name|quantity|price`: exactly three pieces, an `int()` quantity
   * and a `float()` price.
   */
  function ParseItemLine(line: string): ItemsResult {
    var parts := Split(line, '|');
    if |parts| != 3 then BadFormat
    else
      var quantity, price := ParseInt(Strip(parts[1])), ParseDecimal(Strip(parts[2]));
      if quantity.Some? && price.Some? then Parsed([Item(Strip(parts[0]), quantity.value, price.value)])
      else BadNumbers
  }

  /** `items + rest`, where a failure stays a failure. */
  function Prepend(items: seq<Item>, rest: ItemsResult): ItemsResult {
    match rest
    case Parsed(more) => Parsed(items + more)
    case _ => rest
  }

  lemma PrependTwice(xs: seq<Item>, ys: seq<Item>, rest: ItemsResult)
    ensures Prepend(xs, Prepend(ys, rest)) == Prepend(xs + ys, rest)
  {
    if rest.Parsed? {
      assert xs + (ys + rest.items) == (xs + ys) + rest.items;
    }
  }

  /** All lines in order. */
  function ParseLines(lines: seq<string>): ItemsResult {
    if lines == [] then Parsed([])
    else match ParseItemLine(lines[0])
      case Parsed(first) => Prepend(first, ParseLines(lines[1..]))
      case failure => failure
  }

  /** The lines of the message: `text.strip().split('\n')`. */
  function ItemLines(text: string): seq<string> {
    Split(Strip(text), '\n')
  }

  /** The loop of `process_order_items` over the lines. */
  method CollectItems(lines: seq<string>) returns (r: ItemsResult)
    ensures r == ParseLines(lines)
  {
    var items: seq<Item> := [];
    var i := 0;
    while i < |lines|
      invariant 0 <= i <= |lines|
      invariant Prepend(items, ParseLines(lines[i..])) == ParseLines(lines)
    {
      var verdict := ParseItemLine(lines[i]);
      if !verdict.Parsed? {
        return verdict;
      }
      assert lines[i..][1..] == lines[i + 1..];
      assert ParseLines(lines[i..]) == Prepend(verdict.items, ParseLines(lines[i + 1..]));
      PrependTwice(items, verdict.items, ParseLines(lines[i + 1..]));
      items := items + verdict.items;
      i := i + 1;
    }
    assert lines[i..] == [];
    r := Parsed(items);
  }

  /** The first line decides: a failure ends the batch, a parsed line is put in front of the rest. */
  lemma ParseLinesFirst(lines: seq<string>)
    requires lines != []
    ensures var head := ParseItemLine(lines[0]);
      ParseLines(lines) == if head.Parsed? then Prepend(head.items, ParseLines(lines[1..])) else head
  {
  }

  /** One bad line, wherever it stands, rejects the whole batch. */
  lemma {:induction false} BadLineRejectsBatch(lines: seq<string>, k: int)
    requires 0 <= k < |lines| && !ParseItemLine(lines[k]).Parsed?
    ensures !ParseLines(lines).Parsed?
  {
    ParseLinesFirst(lines);
    if k > 0 && ParseItemLine(lines[0]).Parsed? {
      assert lines[1..][k - 1] == lines[k];
      BadLineRejectsBatch(lines[1..], k - 1);
    }
  }

  /** An item as the JSON object the facade expects. */
  function ItemValue(item: Item): Value {
    Object(map["product_name" := Str(item.productName), "quantity" := Int(item.quantity), "price" := Num(item.price)])
  }

  function ItemValues(items: seq<Item>): (r: seq<Value>)
    ensures |r| == |items| && forall i :: 0 <= i < |items| ==> r[i] == ItemValue(items[i])
  {
    if items == [] then [] else [ItemValue(items[0])] + ItemValues(items[1..])
  }

  /** The body of the creation request: customer, items, and the number when truthy. */
  function OrderBody(data: map<string, Value>, items: seq<Item>): (r: map<string, Value>)
    requires "customer_id" in data
    ensures r.Keys == {"customer_id", "items"} + (if Truthy(Lookup(data, "number")) then {"number"} else {})
    ensures r["customer_id"] == data["customer_id"] && r["items"] == Array(ItemValues(items))
    ensures "number" in r ==> r["number"] == data["number"]
  {
    var body := map["customer_id" := data["customer_id"], "items" := Array(ItemValues(items))];
    if Truthy(Lookup(data, "number")) then body["number" := data["number"]] else body
  }

  /**
   * `process_order_items`: a malformed line or a bad number asks again and
   * keeps the session; a session without a customer (the KeyError is caught)
   * reports an error; otherwise the order is submitted, and an answer whose
   * JSON does not parse is caught by the same `except ValueError` as a bad
   * number.
   */
  function OnOrderItems(s: Session, text: string, api: Api): Transition {
    match ParseLines(ItemLines(text))
    case BadFormat => Answer(s, Reprompt(BadItemFormat))
    case BadNumbers => Answer(s, Reprompt(BadItemNumbers))
    case Parsed(items) =>
      if "customer_id" !in s.data then Answer(s, Failed)
      else
        var req := CreateOrder(OrderBody(s.data, items));
        var reply := api(req);
        // A body that claims to be JSON and does not parse raises a ValueError
        // inside the try, which is answered like a bad number.
        if reply.Garbled? then Transition(s, Effect(Some(req), Reprompt(BadItemNumbers)))
        else Submission(s, req, reply, OrdersMenu())
  }

  /**
   * A message with one malformed line, or one line whose quantity or price is
   * not a number, is asked again: nothing is submitted and the session,
   * step and collected data alike, stays as it was.
   */
  lemma BadItemsKeepSession(s: Session, text: string, api: Api, k: int)
    requires 0 <= k < |ItemLines(text)| && !ParseItemLine(ItemLines(text)[k]).Parsed?
    ensures var t := OnOrderItems(s, text, api);
      t.after == s && t.effect.Effect? && t.effect.request == None && t.effect.reply.Reprompt?
  {
    BadLineRejectsBatch(ItemLines(text), k);
  }

  /**
   * A well-formed batch is submitted once: the session is cleared exactly
   * when the facade accepts the order, and the "check the numbers" prompt
   * comes back exactly when the facade's JSON does not parse.
   */
  lemma ItemsSubmitted(s: Session, text: string, api: Api)
    requires ParseLines(ItemLines(text)).Parsed? && "customer_id" in s.data
    ensures var req := CreateOrder(OrderBody(s.data, ParseLines(ItemLines(text)).items));
      var t := OnOrderItems(s, text, api);
      && t.after == (if Accepted(api(req)) then Cleared else s)
      && t.effect.Effect? && t.effect.request == Some(req)
      && (t.effect.reply == Reprompt(BadItemNumbers) <==> api(req).Garbled?)
  {
  }

  method OrdersCreateStart(ctx: FsmContext) returns (eff: Effect)
    modifies ctx
    ensures var t := OnOrdersCreateStart(old(ctx.Snapshot())); ctx.Snapshot() == t.after && eff == t.effect
  {
    ctx.SetState(OrderCustomerId);
    eff := Effect(None, Ask(CancelButton()));
  }

  method ProcessCustomerIdForCreate(ctx: FsmContext, text: string) returns (eff: Effect)
    modifies ctx
    ensures var t := OnCustomerIdForCreate(old(ctx.Snapshot()), text); ctx.Snapshot() == t.after && eff == t.effect
  {
    var customerId := ParseInt(text);
    if customerId.None? {
      return Effect(None, Reprompt(NotAnInteger));
    }
    ctx.UpdateData(map["customer_id" := Int(customerId.value)]);
    ctx.SetState(OrderNumber);
    eff := Effect(None, Ask(SkipButton("skip_order_number")));
  }

  method SkipOrderNumber(ctx: FsmContext) returns (eff: Effect)
    modifies ctx
    ensures var t := OnSkipOrderNumber(old(ctx.Snapshot())); ctx.Snapshot() == t.after && eff == t.effect
  {
    ctx.UpdateData(map["number" := Null]);
    ctx.SetState(OrderItems);
    eff := Effect(None, Ask(CancelButton()));
  }

  method ProcessOrderNumber(ctx: FsmContext, text: string) returns (eff: Effect)
    modifies ctx
    ensures var t := OnOrderNumber(old(ctx.Snapshot()), text); ctx.Snapshot() == t.after && eff == t.effect
  {
    ctx.UpdateData(map["number" := Str(text)]);
    ctx.SetState(OrderItems);
    eff := Effect(None, Ask(CancelButton()));
  }

  method ProcessOrderItems(ctx: FsmContext, text: string, api: Api) returns (eff: Effect)
    modifies ctx
    ensures var t := OnOrderItems(old(ctx.Snapshot()), text, api); ctx.Snapshot() == t.after && eff == t.effect
  {
    var parsed := CollectItems(Split(Strip(text), '\n'));
    if parsed.BadFormat? {
      return Effect(None, Reprompt(BadItemFormat));
    } else if parsed.BadNumbers? {
      return Effect(None, Reprompt(BadItemNumbers));
    }
    var data := ctx.GetData();
    if "customer_id" !in data {
      return Effect(None, Failed);
    }
    var body := map["customer_id" := data["customer_id"], "items" := Array(ItemValues(parsed.items))];
    if Truthy(Lookup(data, "number")) {
      body := body["number" := data["number"]];
    }
    var req := CreateOrder(body);
    if api(req).Garbled? {
      return Effect(Some(req), Reprompt(BadItemNumbers));
    }
    eff := Submit(ctx, req, api, OrdersMenu());
  }

  /** A product name that can be typed on one item line and read back unchanged. */
  predicate PlainName(name: string) {
    '|' !in name && '\n' !in name && Unpadded(name)
  }

  /** An item line as the prompt describes it: `name|quantity|price`. */
  function ItemLine(name: string, quantity: int, price: int): string {
    name + "|" + IntToString(quantity) + "|" + IntToString(price)
  }

  /** A single well-formed line is read back as the item it describes. */
  lemma ItemLineRoundTrip(name: string, quantity: int, price: int)
    requires PlainName(name)
    ensures ParseItemLine(ItemLine(name, quantity, price)) == Parsed([Item(name, quantity, price as real)])
  {
    var q, p := IntToString(quantity), IntToString(price);
    NumberChars(quantity);
    NumberChars(price);
    NumberParses(quantity);
    NumberParses(price);
    assert ItemLine(name, quantity, price) == name + ['|'] + q + ['|'] + p;
    SplitThree(name, q, p, '|');
    StripUnpadded(name);
    AcceptLine(ItemLine(name, quantity, price), name, q, p, quantity, price as real);
  }

  /** A line whose three pieces read as numbers is accepted with the stripped name. */
  lemma AcceptLine(line: string, name: string, q: string, p: string, quantity: int, price: real)
    requires Split(line, '|') == [name, q, p]
    requires ParseInt(Strip(q)) == Some(quantity) && ParseDecimal(Strip(p)) == Some(price)
    ensures ParseItemLine(line) == Parsed([Item(Strip(name), quantity, price)])
  {
  }

  /** The text of a whole number holds neither separator. */
  lemma NumberChars(n: int)
    ensures '|' !in IntToString(n) && '\n' !in IntToString(n)
  {
  }

  /** `int()` and `float()` read the text of a whole number back (`strip()` leaves it alone). */
  lemma NumberParses(n: int)
    ensures ParseInt(Strip(IntToString(n))) == Some(n)
    ensures ParseDecimal(Strip(IntToString(n))) == Some(n as real)
  {
    StripNoSpace(IntToString(n));
    ParseIntRoundTrip(n);
    ParseDecimalOfInt(n);
  }

  /** `a|b|c` splits into its three pieces. */
  lemma SplitThree(a: string, b: string, c: string, sep: char)
    requires sep !in a && sep !in b && sep !in c
    ensures Split(a + [sep] + b + [sep] + c, sep) == [a, b, c]
  {
    assert a + [sep] + b + [sep] + c == a + [sep] + (b + [sep] + c);
    SplitAppend(a, b + [sep] + c, sep);
    SplitAppend(b, c, sep);
    SplitNoSep(a, sep);
    SplitNoSep(b, sep);
    SplitNoSep(c, sep);
  }

  /** The lines the user types for the given items. */
  function ItemLinesOf(names: seq<string>, quantities: seq<int>, prices: seq<int>): (r: seq<string>)
    requires |names| == |quantities| == |prices|
    ensures |r| == |names|
  {
    if names == [] then [] else [ItemLine(names[0], quantities[0], prices[0])] + ItemLinesOf(names[1..], quantities[1..], prices[1..])
  }

  function ItemsOf(names: seq<string>, quantities: seq<int>, prices: seq<int>): (r: seq<Item>)
    requires |names| == |quantities| == |prices|
    ensures |r| == |names|
  {
    if names == [] then [] else [Item(names[0], quantities[0], prices[0] as real)] + ItemsOf(names[1..], quantities[1..], prices[1..])
  }

  /** Every line of a list of item lines is read back as its item. */
  lemma {:induction false} ItemLinesRoundTrip(names: seq<string>, quantities: seq<int>, prices: seq<int>)
    requires |names| == |quantities| == |prices|
    requires forall i :: 0 <= i < |names| ==> PlainName(names[i])
    ensures ParseLines(ItemLinesOf(names, quantities, prices)) == Parsed(ItemsOf(names, quantities, prices))
  {
    if names != [] {
      var lines := ItemLinesOf(names, quantities, prices);
      ItemLineRoundTrip(names[0], quantities[0], prices[0]);
      ItemLinesRoundTrip(names[1..], quantities[1..], prices[1..]);
      assert lines[0] == ItemLine(names[0], quantities[0], prices[0]);
      assert lines[1..] == ItemLinesOf(names[1..], quantities[1..], prices[1..]);
      assert ParseLines(lines) == Prepend([Item(names[0], quantities[0], prices[0] as real)], ParseLines(lines[1..]));
    }
  }

  /**
   * Round trip of the item format: a message made of one `name|quantity|price`
   * line per item (names without `|` or line breaks and without surrounding
   * whitespace, whole-number quantities and prices) yields exactly those items.
   */
  lemma ItemMessageRoundTrip(names: seq<string>, quantities: seq<int>, prices: seq<int>)
    requires |names| == |quantities| == |prices| >= 1
    requires forall i :: 0 <= i < |names| ==> PlainName(names[i])
    ensures ParseLines(ItemLines(Join(ItemLinesOf(names, quantities, prices), '\n'))) == Parsed(ItemsOf(names, quantities, prices))
  {
    var lines := ItemLinesOf(names, quantities, prices);
    LinesOfItems(names, quantities, prices);
    assert forall i :: 0 <= i < |lines| ==> OneLine(lines[i]);
    TextOfLines(lines);
    ItemLinesRoundTrip(names, quantities, prices);
  }

  /** Each item line is a single line without surrounding whitespace. */
  lemma LinesOfItems(names: seq<string>, quantities: seq<int>, prices: seq<int>)
    requires |names| == |quantities| == |prices|
    requires forall i :: 0 <= i < |names| ==> PlainName(names[i])
    ensures forall i :: 0 <= i < |names| ==> OneLine(ItemLinesOf(names, quantities, prices)[i])
  {
    var lines := ItemLinesOf(names, quantities, prices);
    ItemLinesAt(names, quantities, prices);
    forall i | 0 <= i < |lines|
      ensures OneLine(lines[i])
    {
      ItemLineShape(names[i], quantities[i], prices[i]);
    }
  }

  lemma {:induction false} ItemLinesAt(names: seq<string>, quantities: seq<int>, prices: seq<int>)
    requires |names| == |quantities| == |prices|
    ensures forall i :: 0 <= i < |names| ==> ItemLinesOf(names, quantities, prices)[i] == ItemLine(names[i], quantities[i], prices[i])
  {
    if names != [] {
      var lines := ItemLinesOf(names, quantities, prices);
      var rest := ItemLinesOf(names[1..], quantities[1..], prices[1..]);
      ItemLinesAt(names[1..], quantities[1..], prices[1..]);
      forall i | 0 <= i < |names|
        ensures lines[i] == ItemLine(names[i], quantities[i], prices[i])
      {
        if i > 0 {
          assert lines[i] == rest[i - 1];
          assert names[1..][i - 1] == names[i];
        }
      }
    }
  }

  /** A non-empty line without line breaks or surrounding whitespace. */
  predicate OneLine(line: string) {
    '\n' !in line && line != [] && Unpadded(line)
  }

  lemma ItemLineShape(name: string, quantity: int, price: int)
    requires PlainName(name)
    ensures OneLine(ItemLine(name, quantity, price))
  {
    var q, p := IntToString(quantity), IntToString(price);
    NumberChars(quantity);
    NumberChars(price);
    var tail := "|" + q + "|" + p;
    assert ItemLine(name, quantity, price) == name + tail;
    assert tail[0] == '|' && tail[|tail| - 1] == p[|p| - 1];
    assert '\n' !in tail;
    UnpaddedConcat(name, tail);
  }

  lemma UnpaddedConcat(a: string, b: string)
    requires Unpadded(a) && Unpadded(b) && b != []
    ensures Unpadded(a + b)
  {
    if a != [] {
      assert (a + b)[0] == a[0];
    }
    assert (a + b)[|a + b| - 1] == b[|b| - 1];
  }

  /** Lines joined with line breaks come back, unchanged, from `strip().split('\n')`. */
  lemma TextOfLines(lines: seq<string>)
    requires |lines| >= 1
    requires forall i :: 0 <= i < |lines| ==> OneLine(lines[i])
    ensures ItemLines(Join(lines, '\n')) == lines
  {
    JoinEnds(lines);
    StripUnpadded(Join(lines, '\n'));
    JoinSplit(lines, '\n');
  }

  /** A join of single lines neither starts nor ends with whitespace. */
  lemma {:induction false} JoinEnds(lines: seq<string>)
    requires |lines| >= 1
    requires forall i :: 0 <= i < |lines| ==> OneLine(lines[i])
    ensures Join(lines, '\n') != [] && Unpadded(Join(lines, '\n'))
  {
    assert OneLine(lines[0]);
    if |lines| > 1 {
      JoinEnds(lines[1..]);
      var rest := Join(lines[1..], '\n');
      var text := Join(lines, '\n');
      assert text == lines[0] + ['\n'] + rest;
      assert text[0] == lines[0][0];
      assert text[|text| - 1] == rest[|rest| - 1];
    }
  }

  // ---------------------------------------------------------------------
  // The payment form

  function OnPaymentCreateStart(s: Session): Transition {
    Transition(s.SetState(PaymentOrderId), Effect(None, Ask(CancelButton())))
  }

  function OnOrderIdForPayment(s: Session, text: string): Transition {
    match ParseInt(text)
    case None => Answer(s, Reprompt(NotAnInteger))
    case Some(n) =>
      Transition(s.UpdateData(map["order_id" := Int(n)]).SetState(PaymentAmount), Effect(None, Ask(CancelButton())))
  }

  function OnPaymentAmount(s: Session, text: string): Transition {
    match ParseDecimal(text)
    case None => Answer(s, Reprompt(NotANumber))
    case Some(x) =>
      Transition(s.UpdateData(map["amount" := Num(x)]).SetState(PaymentType),
                 Effect(None, Ask(SkipButton("skip_payment_type"))))
  }

  function PaymentBody(amount: Value, paymentType: string): map<string, Value> {
    map["amount" := amount, "type" := Str(paymentType), "status" := Str("paid")]
  }

  /**
   * `create_payment_request`: the amount is read outside the `try` (a
   * missing amount escapes the handler), the order id inside it (a missing
   * one is reported before any request).
   */
  function PaymentStep(s: Session, paymentType: string, api: Api): Transition {
    if "amount" !in s.data then Transition(s, Crash)
    else if "order_id" !in s.data then Answer(s, Failed)
    else
      var req := CreatePayment(s.data["order_id"], PaymentBody(s.data["amount"], paymentType));
      Submission(s, req, api(req), OrdersMenu())
  }

  function OnSkipPaymentType(s: Session, api: Api): Transition {
    PaymentStep(s, "cash", api)
  }

  function OnPaymentType(s: Session, text: string, api: Api): Transition {
    PaymentStep(s, text, api)
  }

  method PaymentCreateStart(ctx: FsmContext) returns (eff: Effect)
    modifies ctx
    ensures var t := OnPaymentCreateStart(old(ctx.Snapshot())); ctx.Snapshot() == t.after && eff == t.effect
  {
    ctx.SetState(PaymentOrderId);
    eff := Effect(None, Ask(CancelButton()));
  }

  method ProcessOrderIdForPayment(ctx: FsmContext, text: string) returns (eff: Effect)
    modifies ctx
    ensures var t := OnOrderIdForPayment(old(ctx.Snapshot()), text); ctx.Snapshot() == t.after && eff == t.effect
  {
    var orderId := ParseInt(text);
    if orderId.None? {
      return Effect(None, Reprompt(NotAnInteger));
    }
    ctx.UpdateData(map["order_id" := Int(orderId.value)]);
    ctx.SetState(PaymentAmount);
    eff := Effect(None, Ask(CancelButton()));
  }

  method ProcessPaymentAmount(ctx: FsmContext, text: string) returns (eff: Effect)
    modifies ctx
    ensures var t := OnPaymentAmount(old(ctx.Snapshot()), text); ctx.Snapshot() == t.after && eff == t.effect
  {
    var amount := ParseDecimal(text);
    if amount.None? {
      return Effect(None, Reprompt(NotANumber));
    }
    ctx.UpdateData(map["amount" := Num(amount.value)]);
    ctx.SetState(PaymentType);
    eff := Effect(None, Ask(SkipButton("skip_payment_type")));
  }

  method CreatePaymentRequest(ctx: FsmContext, paymentType: string, api: Api) returns (eff: Effect)
    modifies ctx
    ensures var t := PaymentStep(old(ctx.Snapshot()), paymentType, api); ctx.Snapshot() == t.after && eff == t.effect
  {
    var data := ctx.GetData();
    if "amount" !in data {
      return Crash;
    }
    var body := map["amount" := data["amount"], "type" := Str(paymentType), "status" := Str("paid")];
    if "order_id" !in data {
      return Effect(None, Failed);
    }
    eff := Submit(ctx, CreatePayment(data["order_id"], body), api, OrdersMenu());
  }

  method SkipPaymentType(ctx: FsmContext, api: Api) returns (eff: Effect)
    modifies ctx
    ensures var t := OnSkipPaymentType(old(ctx.Snapshot()), api); ctx.Snapshot() == t.after && eff == t.effect
  {
    eff := CreatePaymentRequest(ctx, "cash", api);
  }

  method ProcessPaymentType(ctx: FsmContext, text: string, api: Api) returns (eff: Effect)
    modifies ctx
    ensures var t := OnPaymentType(old(ctx.Snapshot()), text, api); ctx.Snapshot() == t.after && eff == t.effect
  {
    eff := CreatePaymentRequest(ctx, text, api);
  }

  /**
   * The payment form from any session: a valid order id and amount lead to
   * one request for that order carrying that amount, the chosen type (cash
   * when skipped) and status "paid".
   */
  lemma PaymentFormSubmitsAnswers(s: Session, orderText: string, amountText: string, paymentType: Option<string>, api: Api)
    requires ParseInt(orderText).Some? && ParseDecimal(amountText).Some?
    ensures var s1 := OnOrderIdForPayment(OnPaymentCreateStart(s).after, orderText).after;
      var s2 := OnPaymentAmount(s1, amountText).after;
      && s2.state == Some(PaymentType)
      && var t := (match paymentType case Some(text) => OnPaymentType(s2, text, api) case None => OnSkipPaymentType(s2, api));
      && t.effect.Effect?
      && t.effect.request == Some(CreatePayment(Int(ParseInt(orderText).value),
           PaymentBody(Num(ParseDecimal(amountText).value), paymentType.GetOr("cash"))))
  {
  }
}
