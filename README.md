# RetailCRM bot and facade, modelled in Dafny

This project models the two deterministic cores of the RetailCRM system.

**1. The Telegram bot's per-chat conversation.** Each chat has an FSM context: the current step (or none) and a map of collected values. The handlers of `start.py`, `customers.py` and `orders.py` are transitions on that context:

- the customer list and its pages;
- the three-step customer search;
- the four-step customer creation form;
- a customer's orders and their pages;
- the order creation form, with its `name|quantity|price` item lines;
- the payment form.

The dispatcher offers each update to the start, customers and orders routers in that order, and picks the first handler whose filter accepts it. The keyboards and their callback strings are modelled with it.

**2. The REST facade in front of the CRM:**

- the request models and their validation (`app/models.py`);
- the CRM client (`app/services/retailcrm.py`): the URL, the `apiKey` injection, the `filter[...]` query and the single-field form encoding of documents;
- the five endpoints (`app/api/customers.py`, `app/api/orders.py`): payload shaping, reply mapping and the HTTP status each failure becomes.

Modules follow the source:

| module | models |
|---|---|
| `Base`, `Text`, `Json` | Python values, `str.strip`/`split`, `int()`/`float()` on text, truthiness and `dict.get` |
| `Keyboards` | the keyboards |
| `Fsm` | the states, the FSM context (a class) and the bot's view of the facade |
| `BotCommon`, `BotStart`, `BotCustomers`, `BotOrders` | the bot's handler files |
| `BotDispatch` | the routers and their order |
| `Models` | the request models |
| `Gateway` | the CRM client |
| `ApiCommon`, `ApiCustomers`, `ApiOrders` | the endpoints |

How the handlers are modelled:

- Each bot handler is a pure function `On...` from the session, the input and the facade to the session afterwards and what the handler did.
- The method with the Python name performs the handler on the `FsmContext` class, using `update_data`, `set_state`, `clear` and `get_data`. It is proved to agree with that function.
- The endpoints and client calls are methods. They return the wire request they sent and the response they give.

Both network hops are oracles, passed as parameters:

- `Api = BotRequest -> ApiReply` (a status with a JSON body, or an exception);
- `Http = WireRequest -> HttpResult`.

## Model

| member | source | states |
|---|---|---|
| Text.Strip | retailcrmbot/bot/handlers/orders.py:145 | `str.strip()`: the result has no leading or trailing whitespace and is no longer than the text |
| Text.StripKeepsMiddle | retailcrmbot/bot/handlers/orders.py:145 | `str.strip()` removes the leading and the trailing whitespace and nothing else: the result is the run of the text between them |
| Text.TrimStart | retailcrmbot/bot/handlers/orders.py:158 | only leading whitespace is removed, and the result starts with a non-space |
| Text.TrimEnd | retailcrmbot/bot/handlers/orders.py:158 | only trailing whitespace is removed, and the result ends with a non-space |
| Text.Split | retailcrmbot/bot/handlers/orders.py:149 | `str.split(sep)`: at least one piece, and no piece holds the separator |
| Text.SplitJoin | retailcrmbot/bot/handlers/orders.py:145 | joining the pieces of a split with the separator gives back the text |
| Text.JoinSplit | retailcrmbot/bot/handlers/orders.py:145 | splitting a join of separator-free pieces gives back the pieces |
| Text.LastSegment | retailcrmbot/bot/handlers/orders.py:77 | `split("_")[-1]` holds no separator |
| Text.LastSegmentAfter | retailcrmbot/bot/handlers/customers.py:82 | the last segment of `prefix + sep + t` is `t` when `t` holds no separator |
| Text.ParseDigits | retailcrmbot/bot/handlers/orders.py:26 | a digit run is accepted exactly when it is well formed: digits, with single underscores between digits |
| Text.IntToString | retailcrmbot/bot/keyboards.py:45 | the decimal text of an integer is non-empty and has only digits and a leading minus |
| Text.ParseIntRoundTrip | retailcrmbot/bot/handlers/orders.py:77 | `int()` reads back the decimal text of every integer |
| Text.ParseIntAccepts | retailcrmbot/bot/handlers/orders.py:26 | `int()` accepts exactly the texts that are an optionally signed, well-formed digit run once stripped; only a leading minus gives a negative result |
| Text.ParseIntRejectsBlank | retailcrmbot/bot/handlers/orders.py:26 | `int()` of blank text fails, so it takes the ValueError path |
| Text.ParseDecimalSign | retailcrmbot/bot/handlers/orders.py:231 | `float()` rejects blank text, and only a leading minus gives a negative result |
| Text.ParseDecimalOfInt | retailcrmbot/bot/handlers/orders.py:231 | `float()` of the text of a whole number is that number |
| Text.ParseDecimalOfFraction | retailcrmbot/bot/handlers/orders.py:160 | `float()` of `digits.fraction`, such as a price `12.50`, is the whole part plus the fraction's digits over the matching power of ten |
| Json.Get | app/api/customers.py:45 | `.get(key, default)` succeeds exactly on a dict, and gives the value under the key or the default |
| Json.MapAll | app/api/customers.py:39-49 | a list comprehension succeeds exactly when every element maps, and keeps the elements' order |
| Keyboards.MenuCallbacks | retailcrmbot/bot/keyboards.py:15-36 | the customers menu sends `customers_list`, `customers_filter`, `customers_create`, `back_main`, in that order; the orders menu sends `orders_by_customer`, `orders_create`, `payment_create`, `back_main` |
| Keyboards.SkipAndCancelCallbacks | retailcrmbot/bot/keyboards.py:67-82 | the skip button sends exactly the data it was given; the cancel button sends `cancel` |
| Keyboards.PaginationKeyboard | retailcrmbot/bot/keyboards.py:39-64 | "prev" is present iff `current > 1` and leads to `{prefix}_page_{current-1}`; "next" is present iff `current < total` and leads to `{prefix}_page_{current+1}`; the `current/total` indicator with `page_info` sits between them; the second row is the single `back_main` button |
| Keyboards.PageCallbackRoundTrip | retailcrmbot/bot/keyboards.py:42-57 | the page handlers' `int(data.split("_")[-1])` recovers exactly the page a button was built for, for every prefix and page |
| Keyboards.NavigationTargets | retailcrmbot/bot/keyboards.py:42-57 | the prev and next buttons lead back to pages `current-1` and `current+1` |
| Fsm.FsmContext.constructor | retailcrmbot/bot/main.py:19 | a chat the in-memory storage has never seen has no step and no data |
| Fsm.FsmContext.UpdateData | retailcrmbot/bot/handlers/orders.py:27 | `update_data` merges the keys into the data; later keys win and the step is kept |
| Fsm.FsmContext.SetState | retailcrmbot/bot/handlers/orders.py:16 | `set_state` moves the step and keeps the data |
| Fsm.FsmContext.Clear | retailcrmbot/bot/handlers/start.py:13 | `clear` removes both the step and all data |
| Fsm.FsmContext.GetData | retailcrmbot/bot/handlers/orders.py:79 | `get_data` returns the current data |
| BotCommon.NextPageIffFull | retailcrmbot/bot/handlers/orders.py:59 | a listing offers a next page exactly when 10 rows came back, although 20 were requested |
| BotCommon.ListingReply | retailcrmbot/bot/handlers/customers.py:46-71 | a page is shown iff the facade answered 200 with a non-empty list of records; its keyboard follows the page-full rule; an empty list shows "not found" |
| BotCommon.Submission | retailcrmbot/bot/handlers/orders.py:178-200 | a submitted form sends its request; the session is cleared exactly when the answer is 200 with a truthy `success`, and otherwise stays as it was; "created" is shown exactly in that case |
| BotCommon.Submit | retailcrmbot/bot/handlers/orders.py:178-193 | performs the submission on the context, with the session and reply of `Submission` |
| BotStart.CmdStart | retailcrmbot/bot/handlers/start.py:11-18 | `/start` clears the session from any step and shows the main menu |
| BotStart.CustomersSection | retailcrmbot/bot/handlers/start.py:21-28 | the customers menu text clears the session and shows the customers menu |
| BotStart.OrdersSection | retailcrmbot/bot/handlers/start.py:31-38 | the orders menu text clears the session and shows the orders menu |
| BotStart.HelpCommand | retailcrmbot/bot/handlers/start.py:41-54 | help only answers; it cannot touch the session |
| BotStart.BackToMain | retailcrmbot/bot/handlers/start.py:57-64 | `back_main` clears the session from any step |
| BotStart.CancelAction | retailcrmbot/bot/handlers/start.py:67-71 | `cancel` clears the session from any step |
| BotStart.PageInfo | retailcrmbot/bot/handlers/start.py:74-76 | the page indicator is only acknowledged; it cannot touch the session |
| BotCustomers.CopyIfTruthy | retailcrmbot/bot/handlers/customers.py:23-29 | a filter is copied into the query exactly when its value is truthy; other keys are untouched |
| BotCustomers.CustomerListParams | retailcrmbot/bot/handlers/customers.py:21-29 | the list query always has `page` and `limit` 20, plus each of `first_name`, `last_name`, `email` exactly when that filter is truthy, and nothing else; filters that are not a dict make the handler raise |
| BotCustomers.ShowCustomersPage | retailcrmbot/bot/handlers/customers.py:19-76 | one GET with that query, then the listing reply |
| BotCustomers.CustomersList | retailcrmbot/bot/handlers/customers.py:13-16 | the list button shows page 1 without filters |
| BotCustomers.CustomersPageHandler | retailcrmbot/bot/handlers/customers.py:79-87 | a page button shows the parsed page with the filters stored in the session |
| BotCustomers.CustomersFilterStart | retailcrmbot/bot/handlers/customers.py:90-97 | moves to the search's first-name step and offers a skip button |
| BotCustomers.SkipFirstName | retailcrmbot/bot/handlers/customers.py:100-108 | stores a null first name and moves to the last-name step |
| BotCustomers.ProcessFilterFirstName | retailcrmbot/bot/handlers/customers.py:111-118 | stores the typed first name and moves to the last-name step |
| BotCustomers.SkipLastName | retailcrmbot/bot/handlers/customers.py:121-129 | stores a null last name and moves to the email step |
| BotCustomers.ProcessFilterLastName | retailcrmbot/bot/handlers/customers.py:132-139 | stores the typed last name and moves to the email step |
| BotCustomers.RunSearch | retailcrmbot/bot/handlers/customers.py:145-155 | the search's last step clears the session and lists page 1 with the filters it assembled locally |
| BotCustomers.SkipEmail | retailcrmbot/bot/handlers/customers.py:142-155 | ends the search with a null email |
| BotCustomers.ProcessFilterEmail | retailcrmbot/bot/handlers/customers.py:158-170 | ends the search with the typed email |
| BotCustomers.SearchSendsAnswers | retailcrmbot/bot/handlers/customers.py:158-170 | the search sends page 1 with `email` iff it is non-empty, and `first_name`/`last_name` iff the stored answers are truthy |
| BotCustomers.NextPageForgetsFilters | retailcrmbot/bot/handlers/customers.py:151-152 | the filters are stored and then cleared at once, so every later page button lists unfiltered pages |
| BotCustomers.CustomerBody | retailcrmbot/bot/handlers/customers.py:250-259 | the creation body always has `first_name`; it has `last_name`, `email` and `phone` exactly when each is truthy, and no other key; without a stored first name the handler raises |
| BotCustomers.CustomersCreateStart | retailcrmbot/bot/handlers/customers.py:173-181 | moves to the first-name step and offers only cancel |
| BotCustomers.ProcessFirstName | retailcrmbot/bot/handlers/customers.py:184-191 | stores the first name and moves to the last-name step, offering a skip |
| BotCustomers.SkipLastNameCreate | retailcrmbot/bot/handlers/customers.py:194-202 | stores a null last name and moves to the email step |
| BotCustomers.ProcessLastName | retailcrmbot/bot/handlers/customers.py:205-212 | stores the last name and moves to the email step |
| BotCustomers.SkipEmailCreate | retailcrmbot/bot/handlers/customers.py:215-223 | stores a null email and moves to the phone step |
| BotCustomers.ProcessEmail | retailcrmbot/bot/handlers/customers.py:226-233 | stores the email and moves to the phone step |
| BotCustomers.CreateCustomerRequest | retailcrmbot/bot/handlers/customers.py:247-279 | submits the creation body; the session is cleared only on acceptance |
| BotCustomers.SkipPhoneCreate | retailcrmbot/bot/handlers/customers.py:236-239 | submits without a phone |
| BotCustomers.ProcessPhone | retailcrmbot/bot/handlers/customers.py:242-244 | submits with the typed phone |
| BotCustomers.CreationFormSubmitsAnswers | retailcrmbot/bot/handlers/customers.py:184-259 | walking the form from any session reaches the phone step and submits exactly the described customer (first name, and each non-empty optional answer); the session is cleared iff the facade accepts |
| BotCustomers.BodyOfAnswers | retailcrmbot/bot/handlers/customers.py:250-259 | a session holding the answers yields the body of the described customer |
| BotCustomers.CopyAnswer | retailcrmbot/bot/handlers/customers.py:254-257 | a stored answer is copied exactly when it is non-empty |
| BotOrders.ShowOrders | retailcrmbot/bot/handlers/orders.py:36-71 | one GET with `page` and `limit` 20 for the customer; the customer is remembered in the session exactly when a page is shown |
| BotOrders.ShowOrdersPage | retailcrmbot/bot/handlers/orders.py:36-71 | performs that on the context |
| BotOrders.OrdersByCustomerStart | retailcrmbot/bot/handlers/orders.py:13-20 | moves to the customer-id step |
| BotOrders.ProcessCustomerIdForOrders | retailcrmbot/bot/handlers/orders.py:23-33 | a non-integer asks again and keeps the session; an integer clears the session and shows page 1 of that customer's orders |
| BotOrders.OrdersPageHandler | retailcrmbot/bot/handlers/orders.py:74-83 | a page button shows the parsed page of the remembered customer, and does nothing without one |
| BotOrders.CustomerIdShowsOrders | retailcrmbot/bot/handlers/orders.py:26-31 | a valid id shows that customer's first page from a cleared session |
| BotOrders.PageButton | retailcrmbot/bot/handlers/orders.py:77-83 | an orders page button asks for that page of the remembered customer when it is truthy |
| BotOrders.PagesFollowCustomer | retailcrmbot/bot/handlers/orders.py:61-83 | after a shown first page every page button asks for the same customer; customer 0 is falsy, so its buttons do nothing |
| BotOrders.CollectItems | retailcrmbot/bot/handlers/orders.py:145-166 | the line loop yields exactly the reference reading of all lines: items in input order, or the first bad line's failure |
| BotOrders.BadLineRejectsBatch | retailcrmbot/bot/handlers/orders.py:148-156 | one bad line anywhere rejects the whole batch |
| BotOrders.BadItemsKeepSession | retailcrmbot/bot/handlers/orders.py:145-198 | a message with a malformed line, or with a non-numeric quantity or price, is asked again; nothing is submitted and the session is unchanged |
| BotOrders.ItemValues | retailcrmbot/bot/handlers/orders.py:162-166 | each item becomes its JSON object, in order |
| BotOrders.OrderBody | retailcrmbot/bot/handlers/orders.py:170-176 | the order body has `customer_id` and `items`, plus `number` exactly when the stored number is truthy |
| BotOrders.OrdersCreateStart | retailcrmbot/bot/handlers/orders.py:86-94 | moves to the same customer-id step as the lookup |
| BotOrders.ProcessCustomerIdForCreate | retailcrmbot/bot/handlers/orders.py:97-108 | stores the customer id and moves to the number step; a non-integer asks again |
| BotOrders.SkipOrderNumber | retailcrmbot/bot/handlers/orders.py:111-124 | stores a null number and moves to the items step |
| BotOrders.ProcessOrderNumber | retailcrmbot/bot/handlers/orders.py:127-139 | stores the typed number and moves to the items step |
| BotOrders.ProcessOrderItems | retailcrmbot/bot/handlers/orders.py:142-200 | reads the lines and submits the order; the session is cleared only on acceptance, and an answer whose JSON does not parse is re-prompted like a bad number |
| BotOrders.ItemsSubmitted | retailcrmbot/bot/handlers/orders.py:168-198 | a well-formed batch is submitted once; the session is cleared exactly when the facade accepts, and the "check the numbers" prompt comes back exactly when the facade's JSON does not parse |
| BotOrders.ItemLineRoundTrip | retailcrmbot/bot/handlers/orders.py:149-166 | a line of name, quantity and whole-number price separated by bars is read back as that item |
| BotOrders.AcceptLine | retailcrmbot/bot/handlers/orders.py:149-160 | a three-piece line with numeric pieces is accepted with the stripped name |
| BotOrders.NumberParses | retailcrmbot/bot/handlers/orders.py:159-160 | `int()` and `float()` read back the text of a whole number |
| BotOrders.ItemLinesRoundTrip | retailcrmbot/bot/handlers/orders.py:148-166 | every line of a list of item lines with whole-number prices is read back as its item, in order |
| BotOrders.ItemMessageRoundTrip | retailcrmbot/bot/handlers/orders.py:145-166 | a message of item lines with whole-number prices, joined by line breaks, is read back as exactly those items |
| BotOrders.TextOfLines | retailcrmbot/bot/handlers/orders.py:145 | single lines joined by line breaks come back unchanged from `strip().split('\n')` |
| BotOrders.PaymentCreateStart | retailcrmbot/bot/handlers/orders.py:203-211 | moves to the order-id step |
| BotOrders.ProcessOrderIdForPayment | retailcrmbot/bot/handlers/orders.py:214-225 | stores an integer order id and moves to the amount step; anything else asks again |
| BotOrders.ProcessPaymentAmount | retailcrmbot/bot/handlers/orders.py:228-239 | stores a numeric amount and moves to the type step; anything else asks again |
| BotOrders.CreatePaymentRequest | retailcrmbot/bot/handlers/orders.py:253-283 | submits amount, type and status `paid` for the stored order; the session is cleared only on acceptance |
| BotOrders.SkipPaymentType | retailcrmbot/bot/handlers/orders.py:242-245 | submits with type `cash` |
| BotOrders.ProcessPaymentType | retailcrmbot/bot/handlers/orders.py:248-250 | submits with the typed type |
| BotOrders.PaymentFormSubmitsAnswers | retailcrmbot/bot/handlers/orders.py:214-260 | from any session, a valid order id and amount reach the type step and submit that order's payment with the amount, the typed type or `cash`, and status `paid` |
| BotDispatch.TakeWord | retailcrmbot/bot/handlers/start.py:11 | the command word is the leading run of non-space characters |
| BotDispatch.StartCommandAccepted | retailcrmbot/bot/handlers/start.py:11 | `/start`, alone or followed by whitespace, is the start command |
| BotDispatch.NotStartCommand | retailcrmbot/bot/handlers/start.py:11 | a text that starts with neither whitespace nor a slash is not the command |
| BotDispatch.FeedStart | retailcrmbot/bot/handlers/start.py:11-76 | applies a start-router handler to the context |
| BotDispatch.FeedCustomers | retailcrmbot/bot/handlers/customers.py:13-244 | applies a customers-router handler to the context |
| BotDispatch.FeedOrders | retailcrmbot/bot/handlers/orders.py:13-250 | applies an orders-router handler to the context |
| BotDispatch.Feed | retailcrmbot/bot/main.py:22-24 | one update changes the chat's context as the first matching handler, in router order, prescribes |
| BotDispatch.HandlerFootprint | retailcrmbot/bot/states.py:4-26 | every handler keeps the step, clears it, or moves to its own target step; it adds only its own keys to the data |
| BotDispatch.CustomersFootprint | retailcrmbot/bot/handlers/customers.py:13-244 | the footprint rule for the customers handlers |
| BotDispatch.OrdersFootprint | retailcrmbot/bot/handlers/orders.py:13-250 | the footprint rule for the orders handlers |
| BotDispatch.SubmittingFootprint | retailcrmbot/bot/handlers/orders.py:142-283 | the submitting handlers leave the session as it was, or cleared |
| BotDispatch.LookupFootprint | retailcrmbot/bot/handlers/orders.py:23-33 | the orders lookup stays within its footprint |
| BotDispatch.LookupLeaves | retailcrmbot/bot/handlers/orders.py:27-31 | the orders lookup leaves no step and at most the remembered customer |
| BotDispatch.PageFootprint | retailcrmbot/bot/handlers/orders.py:74-83 | the orders page button stays within its footprint |
| BotDispatch.FormFootprint | retailcrmbot/bot/handlers/orders.py:86-239 | the form steps of the orders router stay within their footprints |
| BotDispatch.RoutedStep | retailcrmbot/bot/main.py:22-24 | the handler the dispatcher picks is applied to the update's text or data |
| BotDispatch.RoutedToOrders | retailcrmbot/bot/main.py:22-24 | an orders handler is picked only when the start and customers routers pick nothing |
| BotDispatch.TypedTextFollowsStep | retailcrmbot/bot/main.py:22-24 | an ordinary text goes to the handler registered first for the current step, and to none without a step |
| BotDispatch.CallbacksIgnoreStep | retailcrmbot/bot/main.py:22-24 | callback routing never depends on the step |
| BotDispatch.ShadowedInOrdersRouter | retailcrmbot/bot/handlers/orders.py:97 | inside the orders router the second `waiting_customer_id` handler is unreachable |
| BotDispatch.ShadowedCreateNeverRouted | retailcrmbot/bot/handlers/orders.py:97 | that handler is never picked by the dispatcher |
| BotDispatch.StartCommandMessage | retailcrmbot/bot/handlers/start.py:11 | the start command is claimed by the start router, whatever the step |
| BotDispatch.CustomersText | retailcrmbot/bot/handlers/start.py:21 | the customers menu text is claimed by the start router, whatever the step |
| BotDispatch.OrdersText | retailcrmbot/bot/handlers/start.py:31 | the orders menu text is claimed by the start router, whatever the step |
| BotDispatch.HelpLabelText | retailcrmbot/bot/handlers/start.py:41 | the help text is claimed by the start router, whatever the step |
| BotDispatch.StartCallbacks | retailcrmbot/bot/handlers/start.py:57-76 | `back_main`, `cancel` and `page_info` are claimed by the start router |
| BotDispatch.StartRouterResets | retailcrmbot/bot/handlers/start.py:11-76 | whatever the step, an update the start router claims clears the session (help and page indicator keep it) and sends nothing to the facade; a menu text typed in a form is a section switch, not an answer |
| BotDispatch.CustomersButtons | retailcrmbot/bot/handlers/customers.py:13-108 | the customers menu buttons and the first skip button reach their handlers |
| BotDispatch.OrdersButtons | retailcrmbot/bot/handlers/orders.py:13-94 | the orders menu buttons reach their handlers |
| BotDispatch.CustomersPageData | retailcrmbot/bot/handlers/customers.py:79 | data starting with `customers_list_page_` reaches the customers page handler |
| BotDispatch.OrdersPageData | retailcrmbot/bot/handlers/orders.py:74 | data starting with `orders_list_page_` reaches the orders page handler |
| BotDispatch.PageButtonsRoute | retailcrmbot/bot/keyboards.py:42-57 | the page buttons of both listings reach their page handlers, whatever the step |
| BotDispatch.OrderCreationListsOrders | retailcrmbot/bot/handlers/orders.py:86-106 | the order creation form, started from any step, asks for a customer id, and the typed id then goes to the orders lookup, not to the form |
| BotDispatch.StepKeepsReachable | retailcrmbot/bot/handlers/orders.py:97-139 | no update leads into the order number step or leaves search filters in the session |
| BotDispatch.RunKeepsReachable | retailcrmbot/bot/handlers/orders.py:97-139 | the same holds for every sequence of updates |
| BotDispatch.OrderNumberNeverRuns | retailcrmbot/bot/handlers/orders.py:127 | in a chat started fresh, the order number handler is never picked |
| BotDispatch.OrderNumberNeedsStep | retailcrmbot/bot/handlers/orders.py:127 | that handler needs the order number step |
| BotDispatch.CustomerPagesUnfiltered | retailcrmbot/bot/handlers/customers.py:84-87 | in any chat started fresh, a customers page button lists the page without filters |
| Models.OptionalTextRoundTrip | app/models.py:7-9 | an optional text field reads back its own JSON form |
| Models.ParseCustomerCreate | app/models.py:14-18 | a customer needs `first_name`; a missing last name, email or phone is None |
| Models.CustomerCreateRoundTrip | app/models.py:14-18 | every customer survives a trip through its JSON form |
| Models.CustomerCreateDefaults | app/models.py:14-18 | a body with only the first name is valid, with the other fields None |
| Models.ParseItem | app/models.py:30-33 | an accepted item has a positive quantity and a positive price |
| Models.ParseOrderCreate | app/models.py:36-39 | an accepted order has `customer_id` and `items`, all items valid, and a missing number is None |
| Models.DumpItems | app/models.py:38 | items become their JSON forms, in order |
| Models.OrderCreateRoundTrip | app/models.py:30-39 | every order that meets the constraints survives a trip through its JSON form |
| Models.UnparsableItemRejectsOrder | app/models.py:30-39 | one item that does not validate, anywhere in the list, rejects the whole order |
| Models.BadItemRejectsOrder | app/models.py:32-33 | an integer quantity or a numeric price that is not positive, anywhere in the list, rejects the whole order |
| Models.ParsePaymentCreate | app/models.py:51-54 | an accepted payment has a positive amount; a missing type is `cash` and a missing status is `paid` |
| Models.PaymentCreateRoundTrip | app/models.py:51-54 | every valid payment survives a trip through its JSON form |
| Models.PaymentDefaults | app/models.py:51-54 | a body with only a positive amount is a cash payment marked paid |
| Models.ExplicitNullType | app/models.py:53 | an explicit null type stays None instead of taking the default |
| Models.MakeCustomerResponse | app/models.py:21-27 | a CustomerResponse is built exactly when the id is an integer and the other values are text or null, and it holds those values |
| Models.MakeOrderResponse | app/models.py:42-48 | an OrderResponse is built exactly when each value fits its field, and it holds those values: the customer id when it is an integer, the total widened from an integer or kept as a number, None for null |
| Gateway.RStripSlash | app/services/retailcrm.py:9 | `rstrip('/')` keeps a prefix, drops only slashes, and leaves no trailing slash |
| Gateway.TrailingSlashIgnored | app/services/retailcrm.py:9 | a trailing slash in the configured URL makes no difference |
| Gateway.NewService | app/services/retailcrm.py:8-11 | the service keeps the key and a base URL without trailing slash |
| Gateway.UrlParts | app/services/retailcrm.py:13-14 | every URL is the base, then `/api/v5/`, then the endpoint; distinct endpoints get distinct URLs |
| Gateway.Upper | app/services/retailcrm.py:31 | `upper()` maps each character, keeping the length |
| Gateway.MethodCaseInsensitive | app/services/retailcrm.py:31-33 | a method name upper-cases to GET or POST exactly when it is that word with each letter in either case; every other name matches neither |
| Gateway.FormBody | app/services/retailcrm.py:34-37 | the form is the single field `json_param` holding the document exactly when both are non-empty; otherwise it is `data or {}` |
| Gateway.EmptyDocumentSendsNoField | app/services/retailcrm.py:34-37 | an empty document is sent as an empty form without the named field |
| Gateway.Prepare | app/services/retailcrm.py:24-52 | a request is formed exactly for GET and POST; it goes to the endpoint's URL with the params plus `apiKey` |
| Gateway.Receive | app/services/retailcrm.py:54-55 | a result is returned exactly for a 2xx answer with a JSON body; a non-2xx answer is a status error carrying its code |
| Gateway.Dict.constructor | app/services/retailcrm.py:67-70 | a dict holds its initial items |
| Gateway.Dict.Set | app/services/retailcrm.py:86 | setting a key changes that key only |
| Gateway.MakeRequest | app/services/retailcrm.py:16-55 | the caller's params gain `apiKey`, even before an unsupported method is refused; the request and result are those of `Prepare` and `Exchange` |
| Gateway.PrefixedAppend | app/services/retailcrm.py:85-86 | copying two runs of filters is copying one, then the other |
| Gateway.FilterEntries | app/services/retailcrm.py:67-86 | copying `filter_params` entry by entry gives the reference query |
| Gateway.CustomerParamsKeys | app/services/retailcrm.py:67-86 | a customer search always sends `page` and `limit`, and no keys besides those and the five filters |
| Gateway.CustomerFiltersForwarded | app/services/retailcrm.py:72-86 | each filter is sent as `filter[firstName]`, `filter[lastName]`, `filter[email]`, `filter[createdAtFrom]` or `filter[createdAtTo]` exactly when it is truthy, holding its value |
| Gateway.AddFilters | app/services/retailcrm.py:84-86 | the loop adds every collected filter under `filter[...]` to the caller's params |
| Gateway.CollectFilters | app/services/retailcrm.py:72-82 | collects the truthy filters in order |
| Gateway.GetCustomers | app/services/retailcrm.py:57-88 | one GET to `customers` with that query plus `apiKey` |
| Gateway.OrderParamsContent | app/services/retailcrm.py:99-105 | orders are filtered by customer exactly when the id is present and non-zero; `page` and `limit` always go |
| Gateway.GetOrders | app/services/retailcrm.py:93-107 | one GET to `orders` with that query plus `apiKey` |
| Gateway.CreateRequestCarriesDocument | app/services/retailcrm.py:34-35 | a non-empty document reaches the CRM as JSON under the field name |
| Gateway.CreateCustomer | app/services/retailcrm.py:90-91 | POSTs to `customers/create` under the field `customer` |
| Gateway.CreateOrder | app/services/retailcrm.py:109-110 | POSTs to `orders/create` under the field `order` |
| Gateway.CreatePayment | app/services/retailcrm.py:112-118 | the caller's dict gains `order = {id}`, and it is always POSTed to `orders/payments/create` as JSON under `payment` |
| ApiCommon.Escalate | app/api/orders.py:41-44 | an upstream status error keeps its status; an endpoint's own error passes through only where it is re-raised; everything else is a 500 |
| ApiCommon.Inspect | app/api/orders.py:26 | a reply is accepted exactly when it is a dict with a truthy `success`, and rejected when `success` is missing or falsy |
| ApiCustomers.PhoneIsFirstNumber | app/api/customers.py:45 | the phone is the `number` of the first `phones` entry, and null without phones |
| ApiCustomers.MapCustomer | app/api/customers.py:40-47 | each CRM customer maps `id`, `firstName`, `lastName`, `email`, `createdAt` and the first phone to the response fields |
| ApiCustomers.GetCustomers | app/api/customers.py:11-53 | a query outside `page >= 1`, `1 <= limit <= 100` is a 422 with no CRM call; otherwise the filters are forwarded and the reply mapped |
| ApiCustomers.CustomersListed | app/api/customers.py:38-49 | a successful reply lists every customer, in order |
| ApiCustomers.NoCustomersKey | app/api/customers.py:38 | a successful reply without `customers` is an empty list |
| ApiCustomers.BadCustomerFailsListing | app/api/customers.py:39-53 | one customer that cannot be mapped makes the listing a 500 |
| ApiCustomers.FetchRejectionIs500 | app/api/customers.py:35-53 | a CRM rejection raises a 400 that the generic clause turns into a 500 |
| ApiCustomers.FetchUpstreamStatus | app/api/customers.py:50-51 | a CRM error status reaches the client unchanged |
| ApiCustomers.CustomerPayloadRoundTrip | app/api/customers.py:59-68 | the CRM document holds exactly the non-empty fields, renamed, with the phone as a one-entry `phones` list |
| ApiCustomers.CreateFailure | app/api/customers.py:73-75 | the failure detail is `errorMsg` (default "Failed to create customer"), with the errors appended exactly when they are truthy |
| ApiCustomers.CreateCustomer | app/api/customers.py:56-88 | sends that document to `customers/create` and classifies the reply |
| ApiCustomers.CreateRejectionIs400 | app/api/customers.py:72-86 | a CRM rejection stays a 400 with that detail |
| ApiCustomers.CreateAccepted | app/api/customers.py:78-82 | acceptance answers `{success: true, id, message}` |
| ApiCustomers.BlankCustomerSendsNoDocument | app/api/customers.py:59-70 | a customer with only empty fields is sent as an empty form without `customer` |
| ApiOrders.CoercedLimit | app/api/orders.py:17-18 | the limit becomes one of 20, 50, 100, and is kept exactly when it already is one |
| ApiOrders.MapOrder | app/api/orders.py:31-38 | each CRM order maps `id`, `number`, `createdAt` and `status` to the response fields; `customer` (default `{}`) must be a dict whose integer `id` becomes the customer id, and an integer or numeric `totalSumm` becomes the total |
| ApiOrders.OrderFields | app/api/orders.py:31-38 | every order whose fields have the expected types is mapped, whatever else its customer holds, with the customer id from `customer.id` and the total from `totalSumm` |
| ApiOrders.OrderWithoutCustomer | app/api/orders.py:34 | an order without a customer has no customer id; a null customer cannot be mapped |
| ApiOrders.GetCustomerOrders | app/api/orders.py:10-44 | a query outside `page >= 1`, `20 <= limit <= 100` is a 422 with no CRM call; otherwise the limit is coerced and the reply mapped |
| ApiOrders.SentLimitAllowed | app/api/orders.py:14-24 | the sent limit is always 20, 50 or 100, and the requested one when allowed |
| ApiOrders.CustomerZeroUnfiltered | app/services/retailcrm.py:104-105 | customer 0 is falsy, so its listing is sent without the customer filter |
| ApiOrders.OrdersListed | app/api/orders.py:29-40 | a successful reply lists every order, in order; without `orders` it is empty |
| ApiOrders.FetchRejectionIs500 | app/api/orders.py:26-44 | a CRM rejection becomes a 500 |
| ApiOrders.FetchUpstreamStatus | app/api/orders.py:41-42 | a CRM error status reaches the client unchanged |
| ApiOrders.ItemsPayload | app/api/orders.py:58-63 | items are renamed to `productName`, `quantity`, `initialPrice`, in input order |
| ApiOrders.OrderPayloadRoundTrip | app/api/orders.py:50-63 | the CRM document carries the whole order, items in order; an empty number is dropped |
| ApiOrders.CreateOrder | app/api/orders.py:47-81 | the loop builds that document, which is sent as JSON to `orders/create` |
| ApiOrders.OrderRejectionIs500 | app/api/orders.py:67-81 | a CRM rejection becomes a 500 that wraps the 400 and the CRM's message |
| ApiOrders.CreateOrderPayment | app/api/orders.py:84-112 | a missing body is a 500 with no CRM call; otherwise type, status and amount go to `create_payment` for the order |
| ApiOrders.PaymentDocument | app/api/orders.py:90-96 | the payment document holds exactly type, status, amount and the order reference, sent as JSON |
| ApiOrders.PaymentRejectionIs500 | app/api/orders.py:98-112 | a CRM rejection becomes a 500 that wraps the 400 and the CRM's message |

## Where the code and its documentation differ

The model follows the code in each case:

- **Clearing the session.** The bot clears the session after a form submission only when the facade answers 200 with a truthy `success` (`customers.py:266-267`, `orders.py:182-183`, `orders.py:270-271`). A refusal or an exception keeps the step and the data.
- **Next page.** A listing offers a next page only when exactly 10 rows came back, although the bot requests 20 per page (`customers.py:64`, `orders.py:59`). A full page of 20 therefore shows no "next" button.
- **CRM rejections.** A CRM reply with a falsy `success` raises a 400 inside the `try`. `get_customers` and all three order endpoints have no `except HTTPException` clause, so it becomes a 500 there. Only `create_customer` keeps it a 400.
- **Upstream errors.** The client raises on any non-2xx answer (`retailcrm.py:54`) rather than returning a failure value. The endpoints turn that into the same status code.

## Left out

- Transport: the aiohttp and httpx sessions, timeouts and headers are left out. Each call is an oracle result: a status with a JSON body, a status whose body is not JSON (aiohttp's ContentTypeError), a status whose JSON does not parse (JSONDecodeError, a ValueError), or an exception.
- Timing and concurrency: concurrent chats in the in-memory storage are left out. Each chat is modelled on its own.
- Configuration, app wiring and the debug `print` calls are left out.
- Message rendering: the Russian message texts, the list text loops and message editing are left out. A reply is a symbolic `Reply` value.
- Inputs: only text messages are modelled. A non-text message (`message.text` is None) is not. A `/start@botname` mention is not recognised as the command.
- Events: each step sees one facade oracle. A handler that calls the facade twice in one event is not modelled.
- Models.ParseCustomerCreate: `EmailStr` validation is not modelled; any string email is accepted.
- Models.ParseItem: pydantic's lax coercions (numeric strings, integral floats for `int`) are treated as invalid rather than converted.
- ApiCustomers.GetCustomers: the dates are taken as already formatted text. `datetime` parsing, `strftime` and the 422 for a malformed date are not modelled.
- ItemLineRoundTrip: the item-line round trips (and ItemLinesRoundTrip, ItemMessageRoundTrip) are stated for whole-number prices, because they print the price with `str()` of an integer; a fractional price such as `12.50` is covered by Text.ParseDecimalOfFraction on its own.
- Text.ParseDecimal: `float()` reads an optional sign and a plain decimal. Exponents, `inf`, `nan` and underscores are not read, and the value is an exact decimal rather than a binary float.
- Gateway.Upper: only ASCII letters are upper-cased. That covers the method names the client compares.
- JSON text: `json.dumps` is kept symbolic. The form field holds the document itself, which is injective by construction.
- Key order: Python dicts are maps, so key insertion order is not modelled. That order affects neither the query nor the document content.
- ApiOrders.CreateOrder: the `order_data["items"]` list is built as a local sequence. Its aliasing with the dict is not modelled.
