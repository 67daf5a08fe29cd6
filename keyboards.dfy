/**
 * The bot's keyboards (retailcrmbot/bot/keyboards.py): fixed menus, the
 * skip and cancel buttons, and the pagination keyboard whose callback data
 * `{prefix}_page_{n}` the page handlers parse back into a page number.
 */
module Keyboards {
  import opened Base
  import opened Text

  /** An inline button: its label and the callback data it sends back. */
  datatype Button = Button(text: string, callbackData: string)

  /** An inline keyboard: rows of buttons, top to bottom. */
  datatype InlineKeyboard = InlineKeyboard(rows: seq<seq<Button>>)

  /** A reply keyboard: rows of button labels that the user sends as text. */
  datatype ReplyKeyboard = ReplyKeyboard(rows: seq<seq<string>>, resize: bool)

  const CustomersLabel := "Клиенты"
  const OrdersLabel := "Заказы"
  const HelpLabel := "Помощь"
  const PrevLabel := "Назад"
  const NextLabel := "Вперед"

  /** The callback data of every button, row by row, left to right. */
  function Callbacks(rows: seq<seq<Button>>): seq<string> {
    if rows == [] then [] else RowCallbacks(rows[0]) + Callbacks(rows[1..])
  }

  function RowCallbacks(row: seq<Button>): seq<string> {
    if row == [] then [] else [row[0].callbackData] + RowCallbacks(row[1..])
  }

  /** The persistent main menu: two sections and help. */
  function MainMenu(): ReplyKeyboard {
    ReplyKeyboard([[CustomersLabel, OrdersLabel], [HelpLabel]], true)
  }

  function CustomersMenu(): InlineKeyboard {
    InlineKeyboard([
      [Button("Список клиентов", "customers_list")],
      [Button("Найти клиента", "customers_filter")],
      [Button("Создать клиента", "customers_create")],
      [Button("Назад", "back_main")]
    ])
  }

  function OrdersMenu(): InlineKeyboard {
    InlineKeyboard([
      [Button("Заказы клиента", "orders_by_customer")],
      [Button("Создать заказ", "orders_create")],
      [Button("Добавить платеж", "payment_create")],
      [Button("Назад", "back_main")]
    ])
  }

  /** The two section menus offer their actions in this order, then the way back. */
  lemma MenuCallbacks()
    ensures Callbacks(CustomersMenu().rows)
         == ["customers_list", "customers_filter", "customers_create", "back_main"]
    ensures Callbacks(OrdersMenu().rows)
         == ["orders_by_customer", "orders_create", "payment_create", "back_main"]
  {
  }

  /** A single "skip" button sending the given callback data. */
  function SkipButton(callbackData: string): InlineKeyboard {
    InlineKeyboard([[Button("Пропустить", callbackData)]])
  }

  /** A single "cancel" button. */
  function CancelButton(): InlineKeyboard {
    InlineKeyboard([[Button("Отмена", "cancel")]])
  }

  /** The skip button sends exactly the data it was given; the cancel button sends "cancel". */
  lemma SkipAndCancelCallbacks(callbackData: string)
    ensures Callbacks(SkipButton(callbackData).rows) == [callbackData]
    ensures Callbacks(CancelButton().rows) == ["cancel"]
  {
    var rows := SkipButton(callbackData).rows;
    assert RowCallbacks(rows[0]) == [callbackData] by {
      assert rows[0][1..] == [];
    }
    assert rows[1..] == [];
  }

  /** The callback data of a page-navigation button: `{prefix}_page_{page}`. */
  function PageCallback(prefix: string, page: int): string {
    prefix + "_page_" + IntToString(page)
  }

  /** What the page handlers do with callback data: `int(data.split("_")[-1])`. */
  function PageFromCallback(data: string): Option<int> {
    ParseInt(LastSegment(data, '_'))
  }

  /** Round trip: the page handlers recover exactly the page a button was built for. */
  lemma PageCallbackRoundTrip(prefix: string, page: int)
    ensures PageFromCallback(PageCallback(prefix, page)) == Some(page)
  {
    var digits := IntToString(page);
    assert PageCallback(prefix, page) == (prefix + "_page") + ['_'] + digits;
    LastSegmentAfter(prefix + "_page", digits, '_');
    ParseIntRoundTrip(page);
  }

  /** The "current/total" indicator. */
  function Indicator(current: int, total: int): Button {
    Button(IntToString(current) + "/" + IntToString(total), "page_info")
  }

  /**
   * The pagination keyboard: a first row "prev", indicator, "next" where
   * "prev" exists only past page 1 and "next" only before the last page,
   * and a second row holding the single way back to the main menu.
   */
  function PaginationKeyboard(current: int, total: int, prefix: string): (kb: InlineKeyboard)
    ensures |kb.rows| == 2 && kb.rows[1] == [Button("Назад в меню", "back_main")]
    ensures var row := kb.rows[0];
      && |row| == 1 + (if current > 1 then 1 else 0) + (if current < total then 1 else 0)
      && (row[0].text == PrevLabel <==> current > 1)
      && (current > 1 ==> row[0].callbackData == PageCallback(prefix, current - 1))
      && (row[|row| - 1].text == NextLabel <==> current < total)
      && (current < total ==> row[|row| - 1].callbackData == PageCallback(prefix, current + 1))
      && row[if current > 1 then 1 else 0] == Indicator(current, total)
  {
    var prev := if current > 1 then [Button(PrevLabel, PageCallback(prefix, current - 1))] else [];
    var next := if current < total then [Button(NextLabel, PageCallback(prefix, current + 1))] else [];
    var shown := IntToString(total);
    assert Indicator(current, total).text[|Indicator(current, total).text| - 1] == shown[|shown| - 1];
    InlineKeyboard([prev + [Indicator(current, total)] + next, [Button("Назад в меню", "back_main")]])
  }

  /** Every navigation button of the keyboard leads to the neighbouring page. */
  lemma NavigationTargets(current: int, total: int, prefix: string)
    ensures var row := PaginationKeyboard(current, total, prefix).rows[0];
      && (current > 1 ==> PageFromCallback(row[0].callbackData) == Some(current - 1))
      && (current < total ==> PageFromCallback(row[|row| - 1].callbackData) == Some(current + 1))
  {
    PageCallbackRoundTrip(prefix, current - 1);
    PageCallbackRoundTrip(prefix, current + 1);
  }
}
