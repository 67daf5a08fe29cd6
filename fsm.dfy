/**
 * The bot's per-chat conversation state (retailcrmbot/bot/states.py and the
 * aiogram FSM context every handler receives): the current step, or none, and
 * the data map of collected values.  Handlers only ever `update_data`,
 * `set_state`, `clear` and `get_data`.
 *
 * The module also fixes what a handler can do to the outside world: the one
 * request it sends to the REST facade (answered by an oracle) and the reply it
 * shows the user.
 */
module Fsm {
  import opened Base
  import opened Json
  import opened Keyboards

  /** The state groups CustomerStates, CustomerFilterStates, OrderStates and PaymentStates. */
  datatype FsmState =
    | CustomerFirstName | CustomerLastName | CustomerEmail | CustomerPhone
    | FilterFirstName | FilterLastName | FilterEmail
    | OrderCustomerId | OrderItems | OrderNumber
    | PaymentOrderId | PaymentAmount | PaymentType

  /** A snapshot of one chat's FSM context. */
  datatype Session = Session(state: Option<FsmState>, data: map<string, Value>) {

    /** `update_data(**kv)`: merge, later keys win; the step is kept. */
    function UpdateData(kv: map<string, Value>): Session {
      this.(data := data + kv)
    }

    /** `set_state(st)`: move the step; the data is kept. */
    function SetState(st: FsmState): Session {
      this.(state := Some(st))
    }
  }

  /** What `clear()` leaves behind: no step, no data. */
  const Cleared := Session(None, map[])

  /** The FSM context of one chat, as the handlers see and change it. */
  class FsmContext {
    var state: Option<FsmState>
    var data: map<string, Value>

    function Snapshot(): Session
      reads this
    {
      Session(state, data)
    }

    /** A chat that has never been seen starts with no step and no data. */
    constructor ()
      ensures Snapshot() == Cleared
    {
      state := None;
      data := map[];
    }

    method UpdateData(kv: map<string, Value>)
      modifies this
      ensures Snapshot() == old(Snapshot()).UpdateData(kv)
    {
      data := data + kv;
    }

    method SetState(st: FsmState)
      modifies this
      ensures Snapshot() == old(Snapshot()).SetState(st)
    {
      state := Some(st);
    }

    method Clear()
      modifies this
      ensures Snapshot() == Cleared
    {
      state := None;
      data := map[];
    }

    /** `get_data()` hands out a copy of the data map. */
    method GetData() returns (d: map<string, Value>)
      ensures d == data
    {
      d := data;
    }
  }

  /** The requests the bot sends to the REST facade. */
  datatype BotRequest =
    | ListCustomers(params: map<string, Value>)            // GET  {api}/customers
    | CreateCustomer(body: map<string, Value>)             // POST {api}/customers
    | ListOrders(customerId: Value, params: map<string, Value>)  // GET {api}/customers/{id}/orders
    | CreateOrder(body: map<string, Value>)                // POST {api}/orders
    | CreatePayment(orderId: Value, body: map<string, Value>)    // POST {api}/orders/{id}/payment

  /**
   * What comes back: a status with the body decoded as JSON (None when the
   * content type is not JSON, so that `resp.json()` raises aiohttp's
   * ContentTypeError); a status whose body claims to be JSON but does not
   * parse (`resp.json()` raises JSONDecodeError, a ValueError); or an
   * exception from the HTTP client.
   */
  datatype ApiReply = Answered(status: int, body: Option<Value>) | Garbled(status: int) | Unreachable

  /** The facade, as seen from the bot. */
  type Api = BotRequest -> ApiReply

  /** Why an answer is re-prompted without moving on. */
  datatype Problem = NotAnInteger | NotANumber | BadItemFormat | BadItemNumbers

  /** The message the user sees (its Russian wording is not modelled). */
  datatype Reply =
    | Ignored                                 // no handler matched the update
    | Silent                                  // only the callback is acknowledged
    | Welcome(mainMenu: ReplyKeyboard)
    | SectionMenu(menu: InlineKeyboard)
    | HelpText
    | MainMenuText
    | Cancelled
    | Ask(markup: InlineKeyboard)             // the prompt for the next field
    | Reprompt(problem: Problem)
    | Listing(markup: InlineKeyboard)         // a page of customers or orders
    | NothingFound
    | FetchFailed                             // a non-200 answer to a list request
    | Created(id: Value, menu: InlineKeyboard)
    | CreateFailed(detail: Value)             // the facade's `detail`, or the fallback text
    | Failed                                  // an exception caught and shown to the user

  /**
   * What a handler did: the request it sent, if any, and its reply; or
   * Crash when an exception escaped the handler (aiogram only logs it).
   */
  datatype Effect = Effect(request: Option<BotRequest>, reply: Reply) | Crash

  /** The session after a handler ran, and what the handler did. */
  datatype Transition = Transition(after: Session, effect: Effect)

  /** A handler that only answers, leaving the session as it was. */
  function Answer(s: Session, reply: Reply): Transition {
    Transition(s, Effect(None, reply))
  }
}
