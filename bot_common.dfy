/**
 * Logic the customer and order handlers share: the "page is full" guess at
 * the number of pages, the shape a listing must have to be rendered, and what
 * happens to the session when a form is submitted to the facade
 * (retailcrmbot/bot/handlers/customers.py:64,266-279;
 * retailcrmbot/bot/handlers/orders.py:59,182-193,270-283).
 */
module BotCommon {
  import opened Base
  import opened Json
  import opened Keyboards
  import opened Fsm

  /** The bot asks for 20 rows per page but guesses "there is a next page" only when exactly 10 came back. */
  const PageSize := 20
  const FullPage := 10

  /** `total_pages = page + 1 if len(rows) == 10 else page`. */
  function TotalPages(page: int, rows: nat): int {
    if rows == FullPage then page + 1 else page
  }

  /** The listing keyboard offers a next page exactly when the page held 10 rows. */
  lemma NextPageIffFull(page: int, rows: nat, prefix: string)
    ensures var row := PaginationKeyboard(page, TotalPages(page, rows), prefix).rows[0];
      row[|row| - 1].text == NextLabel <==> rows == FullPage
  {
  }

  /**
   * A list the text loop can render: a JSON array of objects that all have an
   * `id` (anything else makes the loop raise, which the handler catches).
   */
  predicate Records(v: Value) {
    v.Array? && forall i :: 0 <= i < |v.items| ==> v.items[i].Object? && "id" in v.items[i].fields
  }

  /**
   * The reply to a list request: an error for a failed call, "nothing found"
   * for an empty (falsy) list, otherwise the page with its keyboard.
   */
  function ListingReply(page: int, prefix: string, reply: ApiReply): (r: Reply)
    ensures r.Listing? <==>
      reply.Answered? && reply.status == 200 && reply.body.Some? && Truthy(reply.body.value) && Records(reply.body.value)
    ensures r.Listing? ==> r.markup == PaginationKeyboard(page, TotalPages(page, |reply.body.value.items|), prefix)
    ensures r == NothingFound <==> reply.Answered? && reply.status == 200 && reply.body.Some? && !Truthy(reply.body.value)
  {
    match reply
    case Unreachable => Failed
    case Garbled(status) => if status != 200 then FetchFailed else Failed
    case Answered(status, body) =>
      if status != 200 then FetchFailed
      else match body
        case None => Failed
        case Some(rows) =>
          if !Truthy(rows) then NothingFound
          else if !Records(rows) then Failed
          else Listing(PaginationKeyboard(page, TotalPages(page, |rows.items|), prefix))
  }

  /** The facade accepted a submitted form: status 200 and a truthy `success`. */
  predicate Accepted(reply: ApiReply) {
    && reply.Answered? && reply.status == 200
    && reply.body.Some? && reply.body.value.Object?
    && Truthy(Lookup(reply.body.value.fields, "success"))
  }

  /**
   * Submitting a form: the session is cleared only when the facade accepted
   * it; a refusal, an unreadable answer or an exception keep the step and the
   * collected data so that the user can retry or cancel.
   */
  function Submission(s: Session, req: BotRequest, reply: ApiReply, menu: InlineKeyboard): (t: Transition)
    ensures t.after == (if Accepted(reply) then Cleared else s)
    ensures t.effect.Effect? && t.effect.request == Some(req)
    ensures t.effect.reply.Created? <==> Accepted(reply)
  {
    match reply
    case Unreachable => Transition(s, Effect(Some(req), Failed))
    case Garbled(_) => Transition(s, Effect(Some(req), Failed))
    case Answered(status, body) =>
      match body
      case None => Transition(s, Effect(Some(req), Failed))
      case Some(result) =>
        if !result.Object? then Transition(s, Effect(Some(req), Failed))
        else if status == 200 && Truthy(Lookup(result.fields, "success")) then
          Transition(Cleared, Effect(Some(req), Created(Lookup(result.fields, "id"), menu)))
        else
          var detail := if "detail" in result.fields then result.fields["detail"] else Str("Неизвестная ошибка");
          Transition(s, Effect(Some(req), CreateFailed(detail)))
  }

  /** Sends a completed form and clears the session on success only. */
  method Submit(ctx: FsmContext, req: BotRequest, api: Api, menu: InlineKeyboard) returns (eff: Effect)
    modifies ctx
    ensures var t := Submission(old(ctx.Snapshot()), req, api(req), menu);
      ctx.Snapshot() == t.after && eff == t.effect
  {
    var reply := api(req);
    if !reply.Answered? || reply.body.None? || !reply.body.value.Object? {
      return Effect(Some(req), Failed);
    }
    var result := reply.body.value.fields;
    if reply.status == 200 && Truthy(Lookup(result, "success")) {
      ctx.Clear();
      eff := Effect(Some(req), Created(Lookup(result, "id"), menu));
    } else {
      var detail := if "detail" in result then result["detail"] else Str("Неизвестная ошибка");
      eff := Effect(Some(req), CreateFailed(detail));
    }
  }
}
