/**
 * retailcrmbot/bot/handlers/customers.py: the customer list with its pages,
 * the three-step search form and the four-step creation form.
 *
 * Each handler is specified by a function `On...` from the session before it
 * (and the user's input, and the facade) to the session after it and what it
 * did; the method of the same Python name performs it on the chat's FSM
 * context and is proved to agree with that function.
 */
module BotCustomers {
  import opened Base
  import opened Text
  import opened Json
  import opened Keyboards
  import opened Fsm
  import opened BotCommon

  const ListPrefix := "customers_list"

  // ---------------------------------------------------------------------
  // The list

  /** The three filters the search form collects, in the order it asks for them. */
  predicate IsFilterName(k: string) {
    k == "first_name" || k == "last_name" || k == "email"
  }

  /** `if f.get(k): m[k] = f[k]`. */
  function CopyIfTruthy(m: map<string, Value>, f: map<string, Value>, k: string): (r: map<string, Value>)
    ensures forall j :: j in r <==> j in m || (j == k && Truthy(Lookup(f, k)))
    ensures forall j :: j in r ==> r[j] == (if j == k && Truthy(Lookup(f, k)) then f[k] else m[j])
  {
    if Truthy(Lookup(f, k)) then m[k := f[k]] else m
  }

  /**
   * The query of `show_customers_page`: page and limit 20, plus each truthy
   * filter.  None when `filters` is truthy but not a dict: `filters.get`
   * raises before the request is made, outside the handler's `try`.
   */
  function CustomerListParams(page: int, filters: Value): (r: Option<map<string, Value>>)
    ensures r.None? <==> Truthy(filters) && !filters.Object?
    ensures r.Some? ==> "page" in r.value && r.value["page"] == Int(page)
    ensures r.Some? ==> "limit" in r.value && r.value["limit"] == Int(PageSize)
    ensures r.Some? ==> forall k :: k in r.value && k != "page" && k != "limit" ==> IsFilterName(k)
    ensures r.Some? ==> forall k :: IsFilterName(k) ==>
      && (k in r.value <==> filters.Object? && Truthy(Lookup(filters.fields, k)))
      && (k in r.value ==> r.value[k] == filters.fields[k])
  {
    var base := map["page" := Int(page), "limit" := Int(PageSize)];
    if !Truthy(filters) then Some(base)
    else if !filters.Object? then None
    else
      var f := filters.fields;
      Some(CopyIfTruthy(CopyIfTruthy(CopyIfTruthy(base, f, "first_name"), f, "last_name"), f, "email"))
  }

  /** `show_customers_page(page, filters)`: one GET, then the listing reply. */
  function ShowPage(page: int, filters: Value, api: Api): Effect {
    match CustomerListParams(page, filters)
    case None => Crash
    case Some(params) =>
      var req := ListCustomers(params);
      Effect(Some(req), ListingReply(page, ListPrefix, api(req)))
  }

  function OnCustomersList(s: Session, api: Api): Transition {
    Transition(s, ShowPage(1, Null, api))
  }

  /** A page button: the page number comes from the callback data, the filters from the session. */
  function OnCustomersPage(s: Session, callbackData: string, api: Api): Transition {
    match PageFromCallback(callbackData)
    case None => Transition(s, Crash)
    case Some(page) => Transition(s, ShowPage(page, Lookup(s.data, "filters"), api))
  }

  method ShowCustomersPage(page: int, filters: Value, api: Api) returns (eff: Effect)
    ensures eff == ShowPage(page, filters, api)
  {
    var params := map["page" := Int(page), "limit" := Int(PageSize)];
    if Truthy(filters) {
      if !filters.Object? {
        return Crash;
      }
      var f := filters.fields;
      if Truthy(Lookup(f, "first_name")) {
        params := params["first_name" := f["first_name"]];
      }
      if Truthy(Lookup(f, "last_name")) {
        params := params["last_name" := f["last_name"]];
      }
      if Truthy(Lookup(f, "email")) {
        params := params["email" := f["email"]];
      }
    }
    var req := ListCustomers(params);
    eff := Effect(Some(req), ListingReply(page, ListPrefix, api(req)));
  }

  method CustomersList(ctx: FsmContext, api: Api) returns (eff: Effect)
    ensures eff == OnCustomersList(ctx.Snapshot(), api).effect
  {
    eff := ShowCustomersPage(1, Null, api);
  }

  method CustomersPageHandler(ctx: FsmContext, callbackData: string, api: Api) returns (eff: Effect)
    ensures eff == OnCustomersPage(ctx.Snapshot(), callbackData, api).effect
  {
    var page := PageFromCallback(callbackData);
    if page.None? {
      return Crash;
    }
    var data := ctx.GetData();
    eff := ShowCustomersPage(page.value, Lookup(data, "filters"), api);
  }

  // ---------------------------------------------------------------------
  // The search form

  function OnFilterStart(s: Session): Transition {
    Transition(s.SetState(FilterFirstName), Effect(None, Ask(SkipButton("skip_first_name"))))
  }

  function OnSkipFirstName(s: Session): Transition {
    Transition(s.UpdateData(map["first_name" := Null]).SetState(FilterLastName),
               Effect(None, Ask(SkipButton("skip_last_name"))))
  }

  function OnFilterFirstName(s: Session, text: string): Transition {
    Transition(s.UpdateData(map["first_name" := Str(text)]).SetState(FilterLastName),
               Effect(None, Ask(SkipButton("skip_last_name"))))
  }

  function OnSkipLastName(s: Session): Transition {
    Transition(s.UpdateData(map["last_name" := Null]).SetState(FilterEmail),
               Effect(None, Ask(SkipButton("skip_email"))))
  }

  function OnFilterLastName(s: Session, text: string): Transition {
    Transition(s.UpdateData(map["last_name" := Str(text)]).SetState(FilterEmail),
               Effect(None, Ask(SkipButton("skip_email"))))
  }

  /** The filters the last step assembles from the session and the email answer. */
  function SearchFilters(data: map<string, Value>, email: Value): Value {
    Object(map["first_name" := Lookup(data, "first_name"), "last_name" := Lookup(data, "last_name"), "email" := email])
  }

  /**
   * The last step stores the filters and then clears the context, so the
   * search runs with the filters it holds locally and the session keeps none.
   */
  function FinishSearch(s: Session, email: Value, api: Api): Transition {
    Transition(Cleared, ShowPage(1, SearchFilters(s.data, email), api))
  }

  function OnSkipEmail(s: Session, api: Api): Transition {
    FinishSearch(s, Null, api)
  }

  function OnFilterEmail(s: Session, text: string, api: Api): Transition {
    FinishSearch(s, Str(text), api)
  }

  method CustomersFilterStart(ctx: FsmContext) returns (eff: Effect)
    modifies ctx
    ensures var t := OnFilterStart(old(ctx.Snapshot())); ctx.Snapshot() == t.after && eff == t.effect
  {
    ctx.SetState(FilterFirstName);
    eff := Effect(None, Ask(SkipButton("skip_first_name")));
  }

  method SkipFirstName(ctx: FsmContext) returns (eff: Effect)
    modifies ctx
    ensures var t := OnSkipFirstName(old(ctx.Snapshot())); ctx.Snapshot() == t.after && eff == t.effect
  {
    ctx.UpdateData(map["first_name" := Null]);
    ctx.SetState(FilterLastName);
    eff := Effect(None, Ask(SkipButton("skip_last_name")));
  }

  method ProcessFilterFirstName(ctx: FsmContext, text: string) returns (eff: Effect)
    modifies ctx
    ensures var t := OnFilterFirstName(old(ctx.Snapshot()), text); ctx.Snapshot() == t.after && eff == t.effect
  {
    ctx.UpdateData(map["first_name" := Str(text)]);
    ctx.SetState(FilterLastName);
    eff := Effect(None, Ask(SkipButton("skip_last_name")));
  }

  method SkipLastName(ctx: FsmContext) returns (eff: Effect)
    modifies ctx
    ensures var t := OnSkipLastName(old(ctx.Snapshot())); ctx.Snapshot() == t.after && eff == t.effect
  {
    ctx.UpdateData(map["last_name" := Null]);
    ctx.SetState(FilterEmail);
    eff := Effect(None, Ask(SkipButton("skip_email")));
  }

  method ProcessFilterLastName(ctx: FsmContext, text: string) returns (eff: Effect)
    modifies ctx
    ensures var t := OnFilterLastName(old(ctx.Snapshot()), text); ctx.Snapshot() == t.after && eff == t.effect
  {
    ctx.UpdateData(map["last_name" := Str(text)]);
    ctx.SetState(FilterEmail);
    eff := Effect(None, Ask(SkipButton("skip_email")));
  }

  /** Shared tail of `skip_email` and `process_filter_email`. */
  method RunSearch(ctx: FsmContext, email: Value, api: Api) returns (eff: Effect)
    modifies ctx
    ensures var t := FinishSearch(old(ctx.Snapshot()), email, api); ctx.Snapshot() == t.after && eff == t.effect
  {
    var data := ctx.GetData();
    var filters := Object(map["first_name" := Lookup(data, "first_name"), "last_name" := Lookup(data, "last_name"), "email" := email]);
    ctx.UpdateData(map["filters" := filters]);
    ctx.Clear();
    eff := ShowCustomersPage(1, filters, api);
  }

  method SkipEmail(ctx: FsmContext, api: Api) returns (eff: Effect)
    modifies ctx
    ensures var t := OnSkipEmail(old(ctx.Snapshot()), api); ctx.Snapshot() == t.after && eff == t.effect
  {
    eff := RunSearch(ctx, Null, api);
  }

  method ProcessFilterEmail(ctx: FsmContext, text: string, api: Api) returns (eff: Effect)
    modifies ctx
    ensures var t := OnFilterEmail(old(ctx.Snapshot()), text, api); ctx.Snapshot() == t.after && eff == t.effect
  {
    eff := RunSearch(ctx, Str(text), api);
  }

  /**
   * The search sends exactly the non-empty answers of the form as query
   * filters (a skipped or empty answer is not sent).
   */
  lemma SearchSendsAnswers(s: Session, text: string, api: Api)
    ensures var eff := OnFilterEmail(s, text, api).effect;
      && eff.Effect? && eff.request.Some? && eff.request.value.ListCustomers?
      && var params := eff.request.value.params;
      && ("email" in params <==> text != "") && ("email" in params ==> params["email"] == Str(text))
      && ("first_name" in params <==> Truthy(Lookup(s.data, "first_name")))
      && ("last_name" in params <==> Truthy(Lookup(s.data, "last_name")))
      && params["page"] == Int(1)
  {
    var filters := SearchFilters(s.data, Str(text));
    assert Lookup(filters.fields, "email") == Str(text);
    assert Lookup(filters.fields, "first_name") == Lookup(s.data, "first_name");
    assert Lookup(filters.fields, "last_name") == Lookup(s.data, "last_name");
  }

  /**
   * The filters do not survive the search: the pages after the first are
   * requested without them, whatever the search was.
   */
  lemma NextPageForgetsFilters(s: Session, email: Value, api: Api, page: int)
    ensures var t := FinishSearch(s, email, api);
      OnCustomersPage(t.after, PageCallback(ListPrefix, page), api).effect == ShowPage(page, Null, api)
  {
    PageCallbackRoundTrip(ListPrefix, page);
  }

  // ---------------------------------------------------------------------
  // The creation form

  function OnCreateStart(s: Session): Transition {
    Transition(s.SetState(CustomerFirstName), Effect(None, Ask(CancelButton())))
  }

  function OnFirstName(s: Session, text: string): Transition {
    Transition(s.UpdateData(map["first_name" := Str(text)]).SetState(CustomerLastName),
               Effect(None, Ask(SkipButton("skip_last_name_create"))))
  }

  function OnSkipLastNameCreate(s: Session): Transition {
    Transition(s.UpdateData(map["last_name" := Null]).SetState(CustomerEmail),
               Effect(None, Ask(SkipButton("skip_email_create"))))
  }

  function OnLastName(s: Session, text: string): Transition {
    Transition(s.UpdateData(map["last_name" := Str(text)]).SetState(CustomerEmail),
               Effect(None, Ask(SkipButton("skip_email_create"))))
  }

  function OnSkipEmailCreate(s: Session): Transition {
    Transition(s.UpdateData(map["email" := Null]).SetState(CustomerPhone),
               Effect(None, Ask(SkipButton("skip_phone_create"))))
  }

  function OnEmail(s: Session, text: string): Transition {
    Transition(s.UpdateData(map["email" := Str(text)]).SetState(CustomerPhone),
               Effect(None, Ask(SkipButton("skip_phone_create"))))
  }

  /**
   * The body of the creation request: the first name, and the last name,
   * email and phone only when truthy.  None when the session has no first
   * name: `data["first_name"]` raises outside the handler's `try`.
   */
  function CustomerBody(data: map<string, Value>, phone: Value): (r: Option<map<string, Value>>)
    ensures r.Some? <==> "first_name" in data
    ensures r.Some? ==> "first_name" in r.value && r.value["first_name"] == data["first_name"]
    ensures r.Some? ==> forall k :: k in r.value ==> k == "first_name" || k == "last_name" || k == "email" || k == "phone"
    ensures r.Some? ==> forall k :: k == "last_name" || k == "email" ==>
      && (k in r.value <==> Truthy(Lookup(data, k)))
      && (k in r.value ==> r.value[k] == data[k])
    ensures r.Some? ==> ("phone" in r.value <==> Truthy(phone)) && ("phone" in r.value ==> r.value["phone"] == phone)
  {
    if "first_name" !in data then None
    else
      var body := CopyIfTruthy(CopyIfTruthy(map["first_name" := data["first_name"]], data, "last_name"), data, "email");
      Some(if Truthy(phone) then body["phone" := phone] else body)
  }

  /** `create_customer_request`: build the body and submit it. */
  function CreateCustomerStep(s: Session, phone: Value, api: Api): Transition {
    match CustomerBody(s.data, phone)
    case None => Transition(s, Crash)
    case Some(body) => Submission(s, CreateCustomer(body), api(CreateCustomer(body)), CustomersMenu())
  }

  function OnSkipPhoneCreate(s: Session, api: Api): Transition {
    CreateCustomerStep(s, Null, api)
  }

  function OnPhone(s: Session, text: string, api: Api): Transition {
    CreateCustomerStep(s, Str(text), api)
  }

  method CustomersCreateStart(ctx: FsmContext) returns (eff: Effect)
    modifies ctx
    ensures var t := OnCreateStart(old(ctx.Snapshot())); ctx.Snapshot() == t.after && eff == t.effect
  {
    ctx.SetState(CustomerFirstName);
    eff := Effect(None, Ask(CancelButton()));
  }

  method ProcessFirstName(ctx: FsmContext, text: string) returns (eff: Effect)
    modifies ctx
    ensures var t := OnFirstName(old(ctx.Snapshot()), text); ctx.Snapshot() == t.after && eff == t.effect
  {
    ctx.UpdateData(map["first_name" := Str(text)]);
    ctx.SetState(CustomerLastName);
    eff := Effect(None, Ask(SkipButton("skip_last_name_create")));
  }

  method SkipLastNameCreate(ctx: FsmContext) returns (eff: Effect)
    modifies ctx
    ensures var t := OnSkipLastNameCreate(old(ctx.Snapshot())); ctx.Snapshot() == t.after && eff == t.effect
  {
    ctx.UpdateData(map["last_name" := Null]);
    ctx.SetState(CustomerEmail);
    eff := Effect(None, Ask(SkipButton("skip_email_create")));
  }

  method ProcessLastName(ctx: FsmContext, text: string) returns (eff: Effect)
    modifies ctx
    ensures var t := OnLastName(old(ctx.Snapshot()), text); ctx.Snapshot() == t.after && eff == t.effect
  {
    ctx.UpdateData(map["last_name" := Str(text)]);
    ctx.SetState(CustomerEmail);
    eff := Effect(None, Ask(SkipButton("skip_email_create")));
  }

  method SkipEmailCreate(ctx: FsmContext) returns (eff: Effect)
    modifies ctx
    ensures var t := OnSkipEmailCreate(old(ctx.Snapshot())); ctx.Snapshot() == t.after && eff == t.effect
  {
    ctx.UpdateData(map["email" := Null]);
    ctx.SetState(CustomerPhone);
    eff := Effect(None, Ask(SkipButton("skip_phone_create")));
  }

  method ProcessEmail(ctx: FsmContext, text: string) returns (eff: Effect)
    modifies ctx
    ensures var t := OnEmail(old(ctx.Snapshot()), text); ctx.Snapshot() == t.after && eff == t.effect
  {
    ctx.UpdateData(map["email" := Str(text)]);
    ctx.SetState(CustomerPhone);
    eff := Effect(None, Ask(SkipButton("skip_phone_create")));
  }

  method CreateCustomerRequest(ctx: FsmContext, phone: Value, api: Api) returns (eff: Effect)
    modifies ctx
    ensures var t := CreateCustomerStep(old(ctx.Snapshot()), phone, api); ctx.Snapshot() == t.after && eff == t.effect
  {
    var data := ctx.GetData();
    if "first_name" !in data {
      return Crash;
    }
    var body := map["first_name" := data["first_name"]];
    if Truthy(Lookup(data, "last_name")) {
      body := body["last_name" := data["last_name"]];
    }
    if Truthy(Lookup(data, "email")) {
      body := body["email" := data["email"]];
    }
    if Truthy(phone) {
      body := body["phone" := phone];
    }
    eff := Submit(ctx, CreateCustomer(body), api, CustomersMenu());
  }

  method SkipPhoneCreate(ctx: FsmContext, api: Api) returns (eff: Effect)
    modifies ctx
    ensures var t := OnSkipPhoneCreate(old(ctx.Snapshot()), api); ctx.Snapshot() == t.after && eff == t.effect
  {
    eff := CreateCustomerRequest(ctx, Null, api);
  }

  method ProcessPhone(ctx: FsmContext, text: string, api: Api) returns (eff: Effect)
    modifies ctx
    ensures var t := OnPhone(old(ctx.Snapshot()), text, api); ctx.Snapshot() == t.after && eff == t.effect
  {
    eff := CreateCustomerRequest(ctx, Str(text), api);
  }

  // ---------------------------------------------------------------------
  // The creation form as a whole

  /** An optional answer: typed text, or the skip button. */
  function LastNameAnswer(s: Session, a: Option<string>): Session {
    match a
    case Some(text) => OnLastName(s, text).after
    case None => OnSkipLastNameCreate(s).after
  }

  function EmailAnswer(s: Session, a: Option<string>): Session {
    match a
    case Some(text) => OnEmail(s, text).after
    case None => OnSkipEmailCreate(s).after
  }

  function PhoneAnswer(s: Session, a: Option<string>, api: Api): Transition {
    match a
    case Some(text) => OnPhone(s, text, api)
    case None => OnSkipPhoneCreate(s, api)
  }

  /** The customer the user described: the first name and every non-empty optional answer. */
  function Described(first: string, last: Option<string>, email: Option<string>, phone: Option<string>): map<string, Value> {
    map["first_name" := Str(first)]
    + (if NonEmpty(last) then map["last_name" := Str(last.value)] else map[])
    + (if NonEmpty(email) then map["email" := Str(email.value)] else map[])
    + (if NonEmpty(phone) then map["phone" := Str(phone.value)] else map[])
  }

  /**
   * Walking the creation form from any session (the form does not clear the
   * session when it starts) submits exactly the customer described by the
   * answers: every optional step overwrites its key, so nothing stale leaks in.
   * The session is cleared exactly when the facade accepts the customer.
   */
  lemma CreationFormSubmitsAnswers(s: Session, first: string, last: Option<string>,
                                   email: Option<string>, phone: Option<string>, api: Api)
    ensures var s4 := EmailAnswer(LastNameAnswer(OnFirstName(OnCreateStart(s).after, first).after, last), email);
      && s4.state == Some(CustomerPhone)
      && var t := PhoneAnswer(s4, phone, api);
      && t.effect.Effect? && t.effect.request == Some(CreateCustomer(Described(first, last, email, phone)))
      && t.after == (if Accepted(api(CreateCustomer(Described(first, last, email, phone)))) then Cleared else s4)
  {
    var s1 := OnFirstName(OnCreateStart(s).after, first).after;
    assert Lookup(s1.data, "first_name") == Str(first);
    var s2 := LastNameAnswer(s1, last);
    assert Lookup(s2.data, "first_name") == Str(first);
    assert Lookup(s2.data, "last_name") == OptionalText(last);
    var s4 := EmailAnswer(s2, email);
    assert s4.state == Some(CustomerPhone);
    assert Lookup(s4.data, "first_name") == Str(first);
    assert Lookup(s4.data, "last_name") == OptionalText(last);
    assert Lookup(s4.data, "email") == OptionalText(email);
    BodyOfAnswers(s4.data, first, last, email, phone);
  }

  /** The body built from a session holding the answers is the described customer. */
  lemma BodyOfAnswers(data: map<string, Value>, first: string, last: Option<string>,
                      email: Option<string>, phone: Option<string>)
    requires Lookup(data, "first_name") == Str(first)
    requires Lookup(data, "last_name") == OptionalText(last)
    requires Lookup(data, "email") == OptionalText(email)
    ensures CustomerBody(data, OptionalText(phone)) == Some(Described(first, last, email, phone))
  {
    var m0 := map["first_name" := Str(first)];
    var m1 := m0 + (if NonEmpty(last) then map["last_name" := Str(last.value)] else map[]);
    var m2 := m1 + (if NonEmpty(email) then map["email" := Str(email.value)] else map[]);
    CopyAnswer(m0, data, "last_name", last);
    CopyAnswer(m1, data, "email", email);
    assert map["first_name" := data["first_name"]] == m0;
    if NonEmpty(phone) {
      assert m2["phone" := Str(phone.value)] == m2 + map["phone" := Str(phone.value)];
    } else {
      assert !Truthy(OptionalText(phone));
      assert m2 + map[] == m2;
    }
  }

  /** Copying an answer kept in the session adds it exactly when it is non-empty. */
  lemma CopyAnswer(m: map<string, Value>, data: map<string, Value>, k: string, a: Option<string>)
    requires Lookup(data, k) == OptionalText(a)
    ensures CopyIfTruthy(m, data, k) == m + (if NonEmpty(a) then map[k := Str(a.value)] else map[])
  {
    if NonEmpty(a) {
      assert m[k := Str(a.value)] == m + map[k := Str(a.value)];
    }
  }
}
