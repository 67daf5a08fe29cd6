/**
 * How an update reaches a handler (retailcrmbot/bot/main.py:22-24 and the
 * decorators of the three handler files): the dispatcher offers each update
 * to the start router, then to the customers router, then to the orders
 * router, and inside each router to its handlers in registration order; the
 * first handler whose filter accepts the update runs, and an update nobody
 * accepts is dropped.  Message filters never accept callbacks and callback
 * filters never accept messages, so one list in that order decides both.
 */
module BotDispatch {
  import opened Base
  import opened Text
  import opened Json
  import opened Keyboards
  import opened Fsm
  import opened BotCommon
  import S = BotStart
  import C = BotCustomers
  import O = BotOrders

  /** A text message, or the data of a pressed inline button. */
  datatype Update = Message(text: string) | Callback(data: string)

  /** The text a message handler reads, or the data a callback handler reads. */
  function Payload(u: Update): string {
    match u
    case Message(text) => text
    case Callback(data) => data
  }

  /** The handlers of each router. */
  datatype StartHandler = CmdStart | CustomersSection | OrdersSection | HelpCommand | BackToMain | CancelAction | PageInfo

  datatype CustomersHandler =
    | CustomersList | CustomersPage | CustomersFilterStart
    | SkipFirstName | ProcessFilterFirstName | SkipLastName | ProcessFilterLastName | SkipEmail | ProcessFilterEmail
    | CustomersCreateStart | ProcessFirstName | SkipLastNameCreate | ProcessLastName
    | SkipEmailCreate | ProcessEmail | SkipPhoneCreate | ProcessPhone

  datatype OrdersHandler =
    | OrdersByCustomerStart | ProcessCustomerIdForOrders | OrdersPage
    | OrdersCreateStart | ProcessCustomerIdForCreate | SkipOrderNumber | ProcessOrderNumber | ProcessOrderItems
    | PaymentCreateStart | ProcessOrderIdForPayment | ProcessPaymentAmount | SkipPaymentType | ProcessPaymentType

  /** A handler, by the router it is registered on. */
  datatype Handler = Start(sh: StartHandler) | Customers(ch: CustomersHandler) | Orders(oh: OrdersHandler)

  /** The leading run of non-space characters. */
  function TakeWord(s: string): (w: string)
    ensures w <= s && NoSpace(w)
    ensures |w| < |s| ==> IsSpace(s[|w|])
  {
    if s == [] || IsSpace(s[0]) then [] else [s[0]] + TakeWord(s[1..])
  }

  /**
   * `CommandStart()`: the first whitespace-separated word of the text is
   * `/start`; whatever follows it is accepted.
   */
  predicate IsStartCommand(text: string) {
    TakeWord(TrimStart(text)) == "/start"
  }

  /** `/start` alone, or followed by whitespace and arguments, is the start command. */
  lemma StartCommandAccepted(rest: string)
    requires rest == [] || IsSpace(rest[0])
    ensures IsStartCommand("/start" + rest)
  {
    var text := "/start" + rest;
    assert text[0] == '/';
    assert TrimStart(text) == text;
    assert NoSpace("/start");
    TakeWordStopsAtSpace("/start", rest);
  }

  /** A word followed by whitespace, or by nothing, is taken whole. */
  lemma {:induction false} TakeWordStopsAtSpace(w: string, rest: string)
    requires NoSpace(w) && (rest == [] || IsSpace(rest[0]))
    ensures TakeWord(w + rest) == w
    decreases |w|
  {
    if w == [] {
      assert w + rest == rest;
    } else {
      assert (w + rest)[0] == w[0] && !IsSpace(w[0]);
      assert (w + rest)[1..] == w[1..] + rest;
      TakeWordStopsAtSpace(w[1..], rest);
      assert [w[0]] + w[1..] == w;
    }
  }

  /** A text that starts with anything but whitespace or a slash is not a command. */
  lemma NotStartCommand(text: string)
    requires text != [] && !IsSpace(text[0]) && text[0] != '/'
    ensures !IsStartCommand(text)
  {
    assert TrimStart(text) == text;
    var w := TakeWord(text);
    assert w != [] ==> w[0] == text[0];
  }

  // The filters used by the bot: `CommandStart()`, `F.text == t`, a state
  // filter, `F.data == d` and `F.data.startswith(p)`.

  predicate StartCommand(u: Update) {
    u.Message? && IsStartCommand(u.text)
  }

  predicate TextIs(u: Update, t: string) {
    u.Message? && u.text == t
  }

  predicate InState(s: Session, u: Update, st: FsmState) {
    u.Message? && s.state == Some(st)
  }

  predicate DataIs(u: Update, d: string) {
    u.Callback? && u.data == d
  }

  predicate DataPrefix(u: Update, p: string) {
    u.Callback? && p <= u.data
  }

  /** retailcrmbot/bot/handlers/start.py, its filters in the order of its decorators. */
  function StartRouter(s: Session, u: Update): Option<StartHandler> {
    if StartCommand(u) then Some(CmdStart)
    else if TextIs(u, CustomersLabel) then Some(CustomersSection)
    else if TextIs(u, OrdersLabel) then Some(OrdersSection)
    else if TextIs(u, HelpLabel) then Some(HelpCommand)
    else if DataIs(u, "back_main") then Some(BackToMain)
    else if DataIs(u, "cancel") then Some(CancelAction)
    else if DataIs(u, "page_info") then Some(PageInfo)
    else None
  }

  /** retailcrmbot/bot/handlers/customers.py, in the order of its decorators. */
  function CustomersRouter(s: Session, u: Update): Option<CustomersHandler> {
    if DataIs(u, "customers_list") then Some(CustomersList)
    else if DataPrefix(u, "customers_list_page_") then Some(CustomersPage)
    else if DataIs(u, "customers_filter") then Some(CustomersFilterStart)
    else if DataIs(u, "skip_first_name") then Some(SkipFirstName)
    else if InState(s, u, FilterFirstName) then Some(ProcessFilterFirstName)
    else if DataIs(u, "skip_last_name") then Some(SkipLastName)
    else if InState(s, u, FilterLastName) then Some(ProcessFilterLastName)
    else if DataIs(u, "skip_email") then Some(SkipEmail)
    else if InState(s, u, FilterEmail) then Some(ProcessFilterEmail)
    else if DataIs(u, "customers_create") then Some(CustomersCreateStart)
    else if InState(s, u, CustomerFirstName) then Some(ProcessFirstName)
    else if DataIs(u, "skip_last_name_create") then Some(SkipLastNameCreate)
    else if InState(s, u, CustomerLastName) then Some(ProcessLastName)
    else if DataIs(u, "skip_email_create") then Some(SkipEmailCreate)
    else if InState(s, u, CustomerEmail) then Some(ProcessEmail)
    else if DataIs(u, "skip_phone_create") then Some(SkipPhoneCreate)
    else if InState(s, u, CustomerPhone) then Some(ProcessPhone)
    else None
  }

  /**
   * retailcrmbot/bot/handlers/orders.py, in the order of its decorators:
   * `OrderStates.waiting_customer_id` is registered twice (lines 23 and 97)
   * and the first registration wins.
   */
  function OrdersRouter(s: Session, u: Update): Option<OrdersHandler> {
    if DataIs(u, "orders_by_customer") then Some(OrdersByCustomerStart)
    else if InState(s, u, OrderCustomerId) then Some(ProcessCustomerIdForOrders)
    else if DataPrefix(u, "orders_list_page_") then Some(OrdersPage)
    else if DataIs(u, "orders_create") then Some(OrdersCreateStart)
    else if InState(s, u, OrderCustomerId) then Some(ProcessCustomerIdForCreate)
    else if DataIs(u, "skip_order_number") then Some(SkipOrderNumber)
    else if InState(s, u, OrderNumber) then Some(ProcessOrderNumber)
    else if InState(s, u, OrderItems) then Some(ProcessOrderItems)
    else if DataIs(u, "payment_create") then Some(PaymentCreateStart)
    else if InState(s, u, PaymentOrderId) then Some(ProcessOrderIdForPayment)
    else if InState(s, u, PaymentAmount) then Some(ProcessPaymentAmount)
    else if DataIs(u, "skip_payment_type") then Some(SkipPaymentType)
    else if InState(s, u, PaymentType) then Some(ProcessPaymentType)
    else None
  }

  /** The dispatcher: the routers in the order they are included (main.py:22-24). */
  function Route(s: Session, u: Update): Option<Handler> {
    match StartRouter(s, u)
    case Some(h) => Some(Start(h))
    case None =>
      match CustomersRouter(s, u)
      case Some(h) => Some(Customers(h))
      case None =>
        match OrdersRouter(s, u)
        case Some(h) => Some(Orders(h))
        case None => None
  }

  function ApplyStart(h: StartHandler, s: Session): Transition {
    match h
    case CmdStart => S.OnCmdStart(s)
    case CustomersSection => S.OnCustomersSection(s)
    case OrdersSection => S.OnOrdersSection(s)
    case HelpCommand => S.OnHelp(s)
    case BackToMain => S.OnBackToMain(s)
    case CancelAction => S.OnCancel(s)
    case PageInfo => S.OnPageInfo(s)
  }

  function ApplyCustomers(h: CustomersHandler, s: Session, input: string, api: Api): Transition {
    match h
    case CustomersList => C.OnCustomersList(s, api)
    case CustomersPage => C.OnCustomersPage(s, input, api)
    case CustomersFilterStart => C.OnFilterStart(s)
    case SkipFirstName => C.OnSkipFirstName(s)
    case ProcessFilterFirstName => C.OnFilterFirstName(s, input)
    case SkipLastName => C.OnSkipLastName(s)
    case ProcessFilterLastName => C.OnFilterLastName(s, input)
    case SkipEmail => C.OnSkipEmail(s, api)
    case ProcessFilterEmail => C.OnFilterEmail(s, input, api)
    case CustomersCreateStart => C.OnCreateStart(s)
    case ProcessFirstName => C.OnFirstName(s, input)
    case SkipLastNameCreate => C.OnSkipLastNameCreate(s)
    case ProcessLastName => C.OnLastName(s, input)
    case SkipEmailCreate => C.OnSkipEmailCreate(s)
    case ProcessEmail => C.OnEmail(s, input)
    case SkipPhoneCreate => C.OnSkipPhoneCreate(s, api)
    case ProcessPhone => C.OnPhone(s, input, api)
  }

  function ApplyOrders(h: OrdersHandler, s: Session, input: string, api: Api): Transition {
    match h
    case OrdersByCustomerStart => O.OnOrdersByCustomerStart(s)
    case ProcessCustomerIdForOrders => O.OnCustomerIdForOrders(s, input, api)
    case OrdersPage => O.OnOrdersPage(s, input, api)
    case OrdersCreateStart => O.OnOrdersCreateStart(s)
    case ProcessCustomerIdForCreate => O.OnCustomerIdForCreate(s, input)
    case SkipOrderNumber => O.OnSkipOrderNumber(s)
    case ProcessOrderNumber => O.OnOrderNumber(s, input)
    case ProcessOrderItems => O.OnOrderItems(s, input, api)
    case PaymentCreateStart => O.OnPaymentCreateStart(s)
    case ProcessOrderIdForPayment => O.OnOrderIdForPayment(s, input)
    case ProcessPaymentAmount => O.OnPaymentAmount(s, input)
    case SkipPaymentType => O.OnSkipPaymentType(s, api)
    case ProcessPaymentType => O.OnPaymentType(s, input, api)
  }

  /** A handler applied to the session and the text or data of the update. */
  function Apply(h: Handler, s: Session, input: string, api: Api): Transition {
    match h
    case Start(x) => ApplyStart(x, s)
    case Customers(x) => ApplyCustomers(x, s, input, api)
    case Orders(x) => ApplyOrders(x, s, input, api)
  }

  /** One update: the routed handler's transition, or nothing at all. */
  function Step(s: Session, u: Update, api: Api): Transition {
    match Route(s, u)
    case None => Answer(s, Ignored)
    case Some(h) => Apply(h, s, Payload(u), api)
  }

  /** An update together with the way the facade answers while it is handled. */
  datatype Event = Event(update: Update, api: Api)

  /** The session after a sequence of updates. */
  function Run(s: Session, events: seq<Event>): Session
    decreases |events|
  {
    if events == [] then s
    else Run(Step(s, events[0].update, events[0].api).after, events[1..])
  }

  /** Runs a handler of the start router. */
  method FeedStart(ctx: FsmContext, h: StartHandler) returns (eff: Effect)
    modifies ctx
    ensures var t := ApplyStart(h, old(ctx.Snapshot())); ctx.Snapshot() == t.after && eff == t.effect
  {
    match h {
      case CmdStart => eff := S.CmdStart(ctx);
      case CustomersSection => eff := S.CustomersSection(ctx);
      case OrdersSection => eff := S.OrdersSection(ctx);
      case HelpCommand => eff := S.HelpCommand();
      case BackToMain => eff := S.BackToMain(ctx);
      case CancelAction => eff := S.CancelAction(ctx);
      case PageInfo => eff := S.PageInfo();
    }
  }

  /** Runs a handler of the customers router. */
  method FeedCustomers(ctx: FsmContext, h: CustomersHandler, input: string, api: Api) returns (eff: Effect)
    modifies ctx
    ensures var t := ApplyCustomers(h, old(ctx.Snapshot()), input, api); ctx.Snapshot() == t.after && eff == t.effect
  {
    match h {
      case CustomersList => eff := C.CustomersList(ctx, api);
      case CustomersPage => eff := C.CustomersPageHandler(ctx, input, api);
      case CustomersFilterStart => eff := C.CustomersFilterStart(ctx);
      case SkipFirstName => eff := C.SkipFirstName(ctx);
      case ProcessFilterFirstName => eff := C.ProcessFilterFirstName(ctx, input);
      case SkipLastName => eff := C.SkipLastName(ctx);
      case ProcessFilterLastName => eff := C.ProcessFilterLastName(ctx, input);
      case SkipEmail => eff := C.SkipEmail(ctx, api);
      case ProcessFilterEmail => eff := C.ProcessFilterEmail(ctx, input, api);
      case CustomersCreateStart => eff := C.CustomersCreateStart(ctx);
      case ProcessFirstName => eff := C.ProcessFirstName(ctx, input);
      case SkipLastNameCreate => eff := C.SkipLastNameCreate(ctx);
      case ProcessLastName => eff := C.ProcessLastName(ctx, input);
      case SkipEmailCreate => eff := C.SkipEmailCreate(ctx);
      case ProcessEmail => eff := C.ProcessEmail(ctx, input);
      case SkipPhoneCreate => eff := C.SkipPhoneCreate(ctx, api);
      case ProcessPhone => eff := C.ProcessPhone(ctx, input, api);
    }
  }

  /** Runs a handler of the orders router. */
  method FeedOrders(ctx: FsmContext, h: OrdersHandler, input: string, api: Api) returns (eff: Effect)
    modifies ctx
    ensures var t := ApplyOrders(h, old(ctx.Snapshot()), input, api); ctx.Snapshot() == t.after && eff == t.effect
  {
    match h {
      case OrdersByCustomerStart => eff := O.OrdersByCustomerStart(ctx);
      case ProcessCustomerIdForOrders => eff := O.ProcessCustomerIdForOrders(ctx, input, api);
      case OrdersPage => eff := O.OrdersPageHandler(ctx, input, api);
      case OrdersCreateStart => eff := O.OrdersCreateStart(ctx);
      case ProcessCustomerIdForCreate => eff := O.ProcessCustomerIdForCreate(ctx, input);
      case SkipOrderNumber => eff := O.SkipOrderNumber(ctx);
      case ProcessOrderNumber => eff := O.ProcessOrderNumber(ctx, input);
      case ProcessOrderItems => eff := O.ProcessOrderItems(ctx, input, api);
      case PaymentCreateStart => eff := O.PaymentCreateStart(ctx);
      case ProcessOrderIdForPayment => eff := O.ProcessOrderIdForPayment(ctx, input);
      case ProcessPaymentAmount => eff := O.ProcessPaymentAmount(ctx, input);
      case SkipPaymentType => eff := O.SkipPaymentType(ctx, api);
      case ProcessPaymentType => eff := O.ProcessPaymentType(ctx, input, api);
    }
  }

  /** Feeding one update to the chat's FSM context. */
  method Feed(ctx: FsmContext, u: Update, api: Api) returns (eff: Effect)
    modifies ctx
    ensures var t := Step(old(ctx.Snapshot()), u, api); ctx.Snapshot() == t.after && eff == t.effect
  {
    var h := Route(ctx.Snapshot(), u);
    match h {
      case None => eff := Effect(None, Ignored);
      case Some(Start(x)) => eff := FeedStart(ctx, x);
      case Some(Customers(x)) => eff := FeedCustomers(ctx, x, Payload(u), api);
      case Some(Orders(x)) => eff := FeedOrders(ctx, x, Payload(u), api);
    }
  }

  // ---------------------------------------------------------------------
  // What each handler may do to the session

  /** The step a handler moves the session to, if it moves it anywhere. */
  function Target(h: Handler): Option<FsmState> {
    match h
    case Customers(CustomersFilterStart) => Some(FilterFirstName)
    case Customers(SkipFirstName) => Some(FilterLastName)
    case Customers(ProcessFilterFirstName) => Some(FilterLastName)
    case Customers(SkipLastName) => Some(FilterEmail)
    case Customers(ProcessFilterLastName) => Some(FilterEmail)
    case Customers(CustomersCreateStart) => Some(CustomerFirstName)
    case Customers(ProcessFirstName) => Some(CustomerLastName)
    case Customers(SkipLastNameCreate) => Some(CustomerEmail)
    case Customers(ProcessLastName) => Some(CustomerEmail)
    case Customers(SkipEmailCreate) => Some(CustomerPhone)
    case Customers(ProcessEmail) => Some(CustomerPhone)
    case Orders(OrdersByCustomerStart) => Some(OrderCustomerId)
    case Orders(OrdersCreateStart) => Some(OrderCustomerId)
    case Orders(ProcessCustomerIdForCreate) => Some(OrderNumber)
    case Orders(SkipOrderNumber) => Some(OrderItems)
    case Orders(ProcessOrderNumber) => Some(OrderItems)
    case Orders(PaymentCreateStart) => Some(PaymentOrderId)
    case Orders(ProcessOrderIdForPayment) => Some(PaymentAmount)
    case Orders(ProcessPaymentAmount) => Some(PaymentType)
    case _ => None
  }

  /** The keys a handler may add to the session's data. */
  function Written(h: Handler): set<string> {
    match h
    case Customers(SkipFirstName) => {"first_name"}
    case Customers(ProcessFilterFirstName) => {"first_name"}
    case Customers(ProcessFirstName) => {"first_name"}
    case Customers(SkipLastName) => {"last_name"}
    case Customers(ProcessFilterLastName) => {"last_name"}
    case Customers(SkipLastNameCreate) => {"last_name"}
    case Customers(ProcessLastName) => {"last_name"}
    case Customers(SkipEmailCreate) => {"email"}
    case Customers(ProcessEmail) => {"email"}
    case Orders(ProcessCustomerIdForOrders) => {"orders_customer_id"}
    case Orders(OrdersPage) => {"orders_customer_id"}
    case Orders(ProcessCustomerIdForCreate) => {"customer_id"}
    case Orders(SkipOrderNumber) => {"number"}
    case Orders(ProcessOrderNumber) => {"number"}
    case Orders(ProcessOrderIdForPayment) => {"order_id"}
    case Orders(ProcessPaymentAmount) => {"amount"}
    case _ => {}
  }

  /** A handler's footprint: the step it leaves and the keys it leaves. */
  predicate WithinFootprint(h: Handler, s: Session, t: Transition) {
    && (t.after.state == s.state || t.after.state == None || t.after.state == Target(h))
    && (forall k :: k in t.after.data ==> k in s.data || k in Written(h))
  }

  /**
   * Every handler either keeps the step, clears it, or moves to its own
   * target step; and the keys it leaves in the data were there before or are
   * its own.  In particular the search form's "filters" never survives a
   * handler: it is stored just before the session is cleared.
   */
  lemma HandlerFootprint(h: Handler, s: Session, input: string, api: Api)
    ensures WithinFootprint(h, s, Apply(h, s, input, api))
  {
    match h
    case Start(x) =>
    case Customers(x) => CustomersFootprint(x, s, input, api);
    case Orders(x) => OrdersFootprint(x, s, input, api);
  }

  lemma CustomersFootprint(h: CustomersHandler, s: Session, input: string, api: Api)
    ensures WithinFootprint(Customers(h), s, ApplyCustomers(h, s, input, api))
  {
    var t := ApplyCustomers(h, s, input, api);
    match h
    case SkipPhoneCreate => assert t.after == s || t.after == Cleared;
    case ProcessPhone => assert t.after == s || t.after == Cleared;
    case _ =>
  }

  lemma OrdersFootprint(h: OrdersHandler, s: Session, input: string, api: Api)
    ensures WithinFootprint(Orders(h), s, ApplyOrders(h, s, input, api))
  {
    if h.SkipPaymentType? || h.ProcessPaymentType? || h.ProcessOrderItems? {
      SubmittingFootprint(h, s, input, api);
    } else if h.ProcessCustomerIdForOrders? {
      LookupFootprint(s, input, api);
    } else if h.OrdersPage? {
      PageFootprint(s, input, api);
    } else {
      FormFootprint(h, s, input, api);
    }
  }

  /** The handlers that submit a form leave the session as it was, or cleared. */
  lemma SubmittingFootprint(h: OrdersHandler, s: Session, input: string, api: Api)
    requires h.SkipPaymentType? || h.ProcessPaymentType? || h.ProcessOrderItems?
    ensures WithinFootprint(Orders(h), s, ApplyOrders(h, s, input, api))
  {
    if h.ProcessOrderItems? {
      ItemsFootprint(s, input, api);
    } else {
      PaymentSubmitFootprint(h, s, input, api);
    }
  }

  lemma ItemsFootprint(s: Session, input: string, api: Api)
    ensures WithinFootprint(Orders(ProcessOrderItems), s, ApplyOrders(ProcessOrderItems, s, input, api))
  {
    var t := ApplyOrders(ProcessOrderItems, s, input, api);
    assert t.after == s || t.after == Cleared;
  }

  lemma PaymentSubmitFootprint(h: OrdersHandler, s: Session, input: string, api: Api)
    requires h.SkipPaymentType? || h.ProcessPaymentType?
    ensures WithinFootprint(Orders(h), s, ApplyOrders(h, s, input, api))
  {
    var t := ApplyOrders(h, s, input, api);
    assert t.after == s || t.after == Cleared;
  }

  lemma LookupFootprint(s: Session, input: string, api: Api)
    ensures WithinFootprint(Orders(ProcessCustomerIdForOrders), s, O.OnCustomerIdForOrders(s, input, api))
  {
    match ParseInt(input)
    case None =>
    case Some(n) => LookupLeaves(Int(n), api);
  }

  /** The orders lookup clears the session and then remembers at most the customer. */
  lemma LookupLeaves(customerId: Value, api: Api)
    ensures var after := O.ShowOrders(Cleared, customerId, 1, api).after;
      after.state == None && forall k :: k in after.data ==> k == "orders_customer_id"
  {
  }

  lemma PageFootprint(s: Session, input: string, api: Api)
    ensures WithinFootprint(Orders(OrdersPage), s, O.OnOrdersPage(s, input, api))
  {
    var t := O.OnOrdersPage(s, input, api);
    var remembered := map["orders_customer_id" := Lookup(s.data, "orders_customer_id")];
    assert t.after == s || t.after == s.UpdateData(remembered);
  }

  lemma FormFootprint(h: OrdersHandler, s: Session, input: string, api: Api)
    requires !(h.SkipPaymentType? || h.ProcessPaymentType? || h.ProcessOrderItems?)
    requires !(h.ProcessCustomerIdForOrders? || h.OrdersPage?)
    ensures WithinFootprint(Orders(h), s, ApplyOrders(h, s, input, api))
  {
    if h.PaymentCreateStart? || h.ProcessOrderIdForPayment? || h.ProcessPaymentAmount? {
      PaymentFormFootprint(h, s, input);
    } else {
      OrderFormFootprint(h, s, input);
    }
  }

  /** The steps of the order form move to their own target and write their own key. */
  lemma OrderFormFootprint(h: OrdersHandler, s: Session, input: string)
    requires h.OrdersByCustomerStart? || h.OrdersCreateStart? || h.ProcessCustomerIdForCreate?
      || h.SkipOrderNumber? || h.ProcessOrderNumber?
    ensures forall api: Api :: WithinFootprint(Orders(h), s, ApplyOrders(h, s, input, api))
  {
  }

  /** So do the steps of the payment form. */
  lemma PaymentFormFootprint(h: OrdersHandler, s: Session, input: string)
    requires h.PaymentCreateStart? || h.ProcessOrderIdForPayment? || h.ProcessPaymentAmount?
    ensures forall api: Api :: WithinFootprint(Orders(h), s, ApplyOrders(h, s, input, api))
  {
  }

  // ---------------------------------------------------------------------
  // Routing

  /** A text that neither the start command nor a main menu button claims. */
  predicate Ordinary(text: string) {
    !IsStartCommand(text) && text != CustomersLabel && text != OrdersLabel && text != HelpLabel
  }

  /**
   * The handler that a step's typed answer goes to: the first one registered
   * for that step.  For `OrderCustomerId` that is the orders lookup
   * (orders.py:23), not the order creation form (orders.py:97).
   */
  function StepHandler(st: FsmState): Handler {
    match st
    case FilterFirstName => Customers(ProcessFilterFirstName)
    case FilterLastName => Customers(ProcessFilterLastName)
    case FilterEmail => Customers(ProcessFilterEmail)
    case CustomerFirstName => Customers(ProcessFirstName)
    case CustomerLastName => Customers(ProcessLastName)
    case CustomerEmail => Customers(ProcessEmail)
    case CustomerPhone => Customers(ProcessPhone)
    case OrderCustomerId => Orders(ProcessCustomerIdForOrders)
    case OrderNumber => Orders(ProcessOrderNumber)
    case OrderItems => Orders(ProcessOrderItems)
    case PaymentOrderId => Orders(ProcessOrderIdForPayment)
    case PaymentAmount => Orders(ProcessPaymentAmount)
    case PaymentType => Orders(ProcessPaymentType)
  }

  /** A handler that the dispatcher picked is applied to the update's text or data. */
  lemma RoutedStep(s: Session, u: Update, h: Handler, api: Api)
    requires Route(s, u) == Some(h)
    ensures Step(s, u, api) == Apply(h, s, Payload(u), api)
  {
  }

  /** An orders handler is picked only when the two routers before it pick nothing. */
  lemma RoutedToOrders(s: Session, u: Update, x: OrdersHandler)
    requires Route(s, u) == Some(Orders(x))
    ensures OrdersRouter(s, u) == Some(x)
  {
  }

  /**
   * An ordinary text goes to the handler of the current step, and is
   * dropped when there is no step.
   */
  lemma TypedTextFollowsStep(s: Session, text: string)
    requires Ordinary(text)
    ensures Route(s, Message(text)) == if s.state.Some? then Some(StepHandler(s.state.value)) else None
  {
    assert StartRouter(s, Message(text)) == None;
    CustomersRouterOnText(s, text);
    OrdersRouterOnText(s, text);
  }

  lemma CustomersRouterOnText(s: Session, text: string)
    ensures CustomersRouter(s, Message(text)) ==
      if s.state.Some? && StepHandler(s.state.value).Customers? then Some(StepHandler(s.state.value).ch) else None
  {
  }

  lemma OrdersRouterOnText(s: Session, text: string)
    ensures OrdersRouter(s, Message(text)) ==
      if s.state.Some? && StepHandler(s.state.value).Orders? then Some(StepHandler(s.state.value).oh) else None
  {
  }

  /** Callback routing never depends on the step: no callback handler has a state filter. */
  lemma CallbacksIgnoreStep(s1: Session, s2: Session, data: string)
    ensures Route(s1, Callback(data)) == Route(s2, Callback(data))
  {
    StartCallbacksIgnoreStep(s1, s2, data);
    CustomersCallbacksIgnoreStep(s1, s2, data);
    OrdersCallbacksIgnoreStep(s1, s2, data);
  }

  lemma StartCallbacksIgnoreStep(s1: Session, s2: Session, data: string)
    ensures StartRouter(s1, Callback(data)) == StartRouter(s2, Callback(data))
  {
  }

  lemma CustomersCallbacksIgnoreStep(s1: Session, s2: Session, data: string)
    ensures CustomersRouter(s1, Callback(data)) == CustomersRouter(s2, Callback(data))
  {
  }

  lemma OrdersCallbacksIgnoreStep(s1: Session, s2: Session, data: string)
    ensures OrdersRouter(s1, Callback(data)) == OrdersRouter(s2, Callback(data))
  {
  }

  /** Inside the orders router the second `waiting_customer_id` handler is unreachable. */
  lemma ShadowedInOrdersRouter(s: Session, u: Update)
    ensures OrdersRouter(s, u) != Some(ProcessCustomerIdForCreate)
  {
  }

  /**
   * The second `OrderStates.waiting_customer_id` handler (orders.py:97) is
   * registered after the first one (orders.py:23) with the same filter, so it
   * never runs.
   */
  lemma ShadowedCreateNeverRouted(s: Session, u: Update)
    ensures Route(s, u) != Some(Orders(ProcessCustomerIdForCreate))
  {
    match Route(s, u)
    case Some(Orders(x)) =>
      RoutedToOrders(s, u, x);
      ShadowedInOrdersRouter(s, u);
    case _ =>
  }

  /** The start command is claimed by the start router, whatever the step. */
  lemma StartCommandMessage(s: Session, rest: string)
    requires rest == [] || IsSpace(rest[0])
    ensures StartRouter(s, Message("/start" + rest)) == Some(CmdStart)
  {
    StartCommandAccepted(rest);
  }

  /** So are the three texts of the main menu. */
  lemma CustomersText(s: Session)
    ensures StartRouter(s, Message(CustomersLabel)) == Some(CustomersSection)
  {
    NotStartCommand(CustomersLabel);
  }

  lemma OrdersText(s: Session)
    ensures StartRouter(s, Message(OrdersLabel)) == Some(OrdersSection)
  {
    NotStartCommand(OrdersLabel);
  }

  lemma HelpLabelText(s: Session)
    ensures StartRouter(s, Message(HelpLabel)) == Some(HelpCommand)
  {
    NotStartCommand(HelpLabel);
  }

  /** So are the "back to menu", "cancel" and page indicator buttons. */
  lemma StartCallbacks(s: Session)
    ensures StartRouter(s, Callback("back_main")) == Some(BackToMain)
    ensures StartRouter(s, Callback("cancel")) == Some(CancelAction)
    ensures StartRouter(s, Callback("page_info")) == Some(PageInfo)
  {
  }

  /**
   * Whatever the step, an update the start router claims abandons any form
   * (the session is cleared), except help and the page indicator, which
   * leave the session as it was; none of them calls the facade.
   */
  lemma StartRouterResets(s: Session, u: Update, api: Api)
    requires StartRouter(s, u).Some?
    ensures var x := StartRouter(s, u).value;
      var t := Step(s, u, api);
      && t.after == (if x == HelpCommand || x == PageInfo then s else Cleared)
      && t.effect.Effect? && t.effect.request == None
  {
    var x := StartRouter(s, u).value;
    RouteStart(s, u);
    RoutedStep(s, u, Start(x), api);
    StartHandlerResets(x, s);
  }

  lemma RouteStart(s: Session, u: Update)
    requires StartRouter(s, u).Some?
    ensures Route(s, u) == Some(Start(StartRouter(s, u).value))
  {
  }

  lemma StartHandlerResets(x: StartHandler, s: Session)
    ensures var t := ApplyStart(x, s);
      && t.after == (if x == HelpCommand || x == PageInfo then s else Cleared)
      && t.effect.Effect? && t.effect.request == None
  {
  }

  /** The buttons of the customers menu and the search form's skip buttons reach their handlers. */
  lemma CustomersButtons(s: Session)
    ensures Route(s, Callback("customers_list")) == Some(Customers(CustomersList))
    ensures Route(s, Callback("customers_filter")) == Some(Customers(CustomersFilterStart))
    ensures Route(s, Callback("customers_create")) == Some(Customers(CustomersCreateStart))
    ensures Route(s, Callback("skip_first_name")) == Some(Customers(SkipFirstName))
  {
    CustomersListButton(s);
    CustomersFilterButton(s);
    CustomersCreateButton(s);
    SkipFirstNameButton(s);
  }

  lemma CustomersListButton(s: Session)
    ensures Route(s, Callback("customers_list")) == Some(Customers(CustomersList))
  {
  }

  lemma CustomersFilterButton(s: Session)
    ensures Route(s, Callback("customers_filter")) == Some(Customers(CustomersFilterStart))
  {
    assert !("customers_list_page_" <= "customers_filter") by { assert "customers_filter"[10] != 'l'; }
  }

  lemma CustomersCreateButton(s: Session)
    ensures Route(s, Callback("customers_create")) == Some(Customers(CustomersCreateStart))
  {
    StartIgnoresCreate(s);
    CustomersClaimsCreate(s);
  }

  lemma StartIgnoresCreate(s: Session)
    ensures StartRouter(s, Callback("customers_create")) == None
  {
  }

  lemma CustomersClaimsCreate(s: Session)
    ensures CustomersRouter(s, Callback("customers_create")) == Some(CustomersCreateStart)
  {
    assert !("customers_list_page_" <= "customers_create") by { assert "customers_create"[10] != 'l'; }
    assert "customers_create" != "customers_filter" by { assert "customers_create"[10] != "customers_filter"[10]; }
  }

  lemma SkipFirstNameButton(s: Session)
    ensures Route(s, Callback("skip_first_name")) == Some(Customers(SkipFirstName))
  {
    assert !("customers_list_page_" <= "skip_first_name") by { assert "skip_first_name"[0] != 'c'; }
  }

  /** The buttons of the orders menu reach their handlers. */
  lemma OrdersButtons(s: Session)
    ensures Route(s, Callback("orders_by_customer")) == Some(Orders(OrdersByCustomerStart))
    ensures Route(s, Callback("orders_create")) == Some(Orders(OrdersCreateStart))
  {
  }

  /** Callback data that starts with the customers page prefix reaches the customers page handler. */
  lemma CustomersPageData(s: Session, d: string)
    requires C.ListPrefix + "_page_" <= d
    ensures Route(s, Callback(d)) == Some(Customers(CustomersPage))
  {
  }

  /** Callback data that starts with the orders page prefix reaches the orders page handler. */
  lemma OrdersPageData(s: Session, d: string)
    requires O.ListPrefix + "_page_" <= d
    ensures Route(s, Callback(d)) == Some(Orders(OrdersPage))
  {
    var p := O.ListPrefix + "_page_";
    assert d[0] == p[0] && d[7] == p[7];
    assert d != "skip_last_name_create" by { assert d[0] != "skip_last_name_create"[0]; }
    assert !("customers_list_page_" <= d) by { assert d[0] != "customers_list_page_"[0]; }
    assert d != "orders_by_customer" by { assert d[7] != "orders_by_customer"[7]; }
  }

  /** The page buttons of both listings reach the page handlers, whatever the step. */
  lemma PageButtonsRoute(s: Session, page: int)
    ensures Route(s, Callback(PageCallback(C.ListPrefix, page))) == Some(Customers(CustomersPage))
    ensures Route(s, Callback(PageCallback(O.ListPrefix, page))) == Some(Orders(OrdersPage))
  {
    CustomersPageData(s, PageCallback(C.ListPrefix, page));
    OrdersPageData(s, PageCallback(O.ListPrefix, page));
  }

  /**
   * The order creation form, started from any step, asks for a customer id,
   * and the text typed in then goes to the orders lookup (orders.py:23),
   * never to the form's own handler.
   */
  lemma OrderCreationListsOrders(s: Session, text: string, api: Api)
    requires Ordinary(text)
    ensures var s1 := Step(s, Callback("orders_create"), api).after;
      && s1.state == Some(OrderCustomerId)
      && Route(s1, Message(text)) == Some(Orders(ProcessCustomerIdForOrders))
  {
    OrdersCreateButton(s, api);
    OrdinaryPassesStart(Step(s, Callback("orders_create"), api).after, text);
    LookupClaimsText(Step(s, Callback("orders_create"), api).after, text);
  }

  lemma LookupClaimsText(s: Session, text: string)
    requires StartRouter(s, Message(text)) == None && s.state == Some(OrderCustomerId)
    ensures Route(s, Message(text)) == Some(Orders(ProcessCustomerIdForOrders))
  {
    CustomersRouterOnText(s, text);
    OrdersRouterOnText(s, text);
    RouteFallsToOrders(s, Message(text));
  }

  /** The start router claims no typed text other than its own command and the menu labels. */
  lemma OrdinaryPassesStart(s: Session, text: string)
    requires Ordinary(text)
    ensures StartRouter(s, Message(text)) == None
  {
  }

  /** An update that neither of the first two routers claims goes to the orders router's pick. */
  lemma RouteFallsToOrders(s: Session, u: Update)
    requires StartRouter(s, u) == None && CustomersRouter(s, u) == None
    ensures Route(s, u) == if OrdersRouter(s, u).Some? then Some(Orders(OrdersRouter(s, u).value)) else None
  {
  }

  lemma OrdersCreateButton(s: Session, api: Api)
    ensures Step(s, Callback("orders_create"), api).after.state == Some(OrderCustomerId)
  {
    OrdersButtons(s);
    RoutedStep(s, Callback("orders_create"), Orders(OrdersCreateStart), api);
  }

  /** The data every reachable session satisfies. */
  predicate Reachable(s: Session) {
    s.state != Some(OrderNumber) && "filters" !in s.data
  }

  lemma StepKeepsReachable(s: Session, u: Update, api: Api)
    requires Reachable(s)
    ensures Reachable(Step(s, u, api).after)
  {
    match Route(s, u)
    case None =>
    case Some(h) =>
      ShadowedCreateNeverRouted(s, u);
      RoutedStep(s, u, h, api);
      HandlerFootprint(h, s, Payload(u), api);
      FootprintKeepsReachable(h, s, Apply(h, s, Payload(u), api));
  }

  /** A handler other than the shadowed one cannot leave an unreachable session behind. */
  lemma FootprintKeepsReachable(h: Handler, s: Session, t: Transition)
    requires Reachable(s) && h != Orders(ProcessCustomerIdForCreate) && WithinFootprint(h, s, t)
    ensures Reachable(t.after)
  {
    assert Target(h) != Some(OrderNumber);
    assert "filters" !in Written(h);
  }

  /**
   * From a fresh chat, no sequence of updates ever reaches the order number
   * step or leaves search filters in the session.
   */
  lemma {:induction false} RunKeepsReachable(s: Session, events: seq<Event>)
    requires Reachable(s)
    ensures Reachable(Run(s, events))
    decreases |events|
  {
    if events != [] {
      StepKeepsReachable(s, events[0].update, events[0].api);
      RunKeepsReachable(Step(s, events[0].update, events[0].api).after, events[1..]);
    }
  }

  /** Consequently the order number handler (orders.py:127) never runs in a chat. */
  lemma OrderNumberNeverRuns(events: seq<Event>, u: Update)
    ensures Route(Run(Cleared, events), u) != Some(Orders(ProcessOrderNumber))
  {
    RunKeepsReachable(Cleared, events);
    var s := Run(Cleared, events);
    match Route(s, u)
    case Some(Orders(x)) =>
      RoutedToOrders(s, u, x);
      OrderNumberNeedsStep(s, u);
    case _ =>
  }

  lemma OrderNumberNeedsStep(s: Session, u: Update)
    ensures OrdersRouter(s, u) == Some(ProcessOrderNumber) ==> s.state == Some(OrderNumber)
  {
  }

  /**
   * And a customers page button never applies the search's filters: every
   * page after the first is an unfiltered listing.
   */
  lemma CustomerPagesUnfiltered(events: seq<Event>, page: int, api: Api)
    ensures var s := Run(Cleared, events);
      Step(s, Callback(PageCallback(C.ListPrefix, page)), api) == Transition(s, C.ShowPage(page, Null, api))
  {
    RunKeepsReachable(Cleared, events);
    var s := Run(Cleared, events);
    PageButtonsRoute(s, page);
    PageCallbackRoundTrip(C.ListPrefix, page);
  }
}
