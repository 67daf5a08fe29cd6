/**
 * retailcrmbot/bot/handlers/start.py: the handlers that reset the
 * conversation (/start, the two section buttons of the main menu, the
 * "back to menu" and "cancel" callbacks) and the two that leave it alone
 * (help and the page indicator).
 */
module BotStart {
  import opened Base
  import opened Fsm
  import opened Keyboards

  // Specification: each handler as a transition of the session.

  function OnCmdStart(s: Session): Transition {
    Transition(Cleared, Effect(None, Welcome(MainMenu())))
  }

  function OnCustomersSection(s: Session): Transition {
    Transition(Cleared, Effect(None, SectionMenu(CustomersMenu())))
  }

  function OnOrdersSection(s: Session): Transition {
    Transition(Cleared, Effect(None, SectionMenu(OrdersMenu())))
  }

  function OnHelp(s: Session): Transition {
    Answer(s, HelpText)
  }

  function OnBackToMain(s: Session): Transition {
    Transition(Cleared, Effect(None, MainMenuText))
  }

  function OnCancel(s: Session): Transition {
    Transition(Cleared, Effect(None, Cancelled))
  }

  function OnPageInfo(s: Session): Transition {
    Answer(s, Silent)
  }

  // The handlers, acting on the chat's FSM context.

  /** `/start`: forget any form in progress and show the main menu. */
  method CmdStart(ctx: FsmContext) returns (eff: Effect)
    modifies ctx
    ensures ctx.Snapshot() == Cleared
    ensures eff == OnCmdStart(old(ctx.Snapshot())).effect
  {
    ctx.Clear();
    eff := Effect(None, Welcome(MainMenu()));
  }

  /** The "Клиенты" menu text: forget any form and show the customers menu. */
  method CustomersSection(ctx: FsmContext) returns (eff: Effect)
    modifies ctx
    ensures ctx.Snapshot() == Cleared
    ensures eff == OnCustomersSection(old(ctx.Snapshot())).effect
  {
    ctx.Clear();
    eff := Effect(None, SectionMenu(CustomersMenu()));
  }

  /** The "Заказы" menu text: forget any form and show the orders menu. */
  method OrdersSection(ctx: FsmContext) returns (eff: Effect)
    modifies ctx
    ensures ctx.Snapshot() == Cleared
    ensures eff == OnOrdersSection(old(ctx.Snapshot())).effect
  {
    ctx.Clear();
    eff := Effect(None, SectionMenu(OrdersMenu()));
  }

  /** The "Помощь" menu text: the help text; the session is not touched. */
  method HelpCommand() returns (eff: Effect)
    ensures eff == Effect(None, HelpText)
  {
    eff := Effect(None, HelpText);
  }

  /** The `back_main` callback: forget any form. */
  method BackToMain(ctx: FsmContext) returns (eff: Effect)
    modifies ctx
    ensures ctx.Snapshot() == Cleared
    ensures eff == OnBackToMain(old(ctx.Snapshot())).effect
  {
    ctx.Clear();
    eff := Effect(None, MainMenuText);
  }

  /** The `cancel` callback: forget any form. */
  method CancelAction(ctx: FsmContext) returns (eff: Effect)
    modifies ctx
    ensures ctx.Snapshot() == Cleared
    ensures eff == OnCancel(old(ctx.Snapshot())).effect
  {
    ctx.Clear();
    eff := Effect(None, Cancelled);
  }

  /** The `page_info` callback (the page indicator): only acknowledged. */
  method PageInfo() returns (eff: Effect)
    ensures eff == Effect(None, Silent)
  {
    eff := Effect(None, Silent);
  }
}
