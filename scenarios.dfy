/**
 * Whole conversations, from the administrator's first press to the last
 * reply: each update is shown to reach its handler (`Bot.Dispatched`, as
 * `Bot.Handle` would route it), and that handler is run.
 */
module Scenarios {
  import opened Wrappers
  import opened Strings
  import opened Platform
  import opened Store
  import opened Catalog
  import opened Menu
  import opened Broadcast
  import opened Conversation
  import opened Handlers

  /** Every message sent in `effects` goes to `chat`. */
  predicate SendsOnlyTo(effects: seq<Effect>, chat: int) {
    forall e :: e in effects && e.Send? ==> e.chat == chat
  }

  /** The administrator enters new payment details through the panel. */
  method SetPaymentDetails(bot: Bot, admin: Account, card: string, fio: string)
    requires bot.Valid() && admin.id == bot.adminId && bot.StateOf(admin.id) == Idle
    modifies bot, bot.db
    ensures bot.Valid() && bot.StateOf(admin.id) == Idle
    ensures bot.db.GetSetting(CARD_NUMBER_KEY) == Strip(card)
    ensures bot.db.GetSetting(RECIPIENT_FIO_KEY) == Strip(fio)
    ensures bot.db.users == old(bot.db.users)
  {
    var setCard := Callback(admin, "admin_set_card");
    assert setCard.data[0] == 'a';
    assert bot.Dispatched(setCard) == OnAdminSetCard;
    var _ := bot.AdminSetCard(admin);
    assert bot.Dispatched(Message(admin, Some(card))) == OnCardNumber;
    var _ := bot.ReceiveCardNumber(admin, card);
    assert bot.Dispatched(Message(admin, Some(fio))) == OnRecipientFio;
    var _ := bot.ReceiveRecipientFio(admin, fio);
  }

  /** A school button pressed with no state set is dispatched to `process_school`. */
  lemma SchoolPressRoutes(bot: Bot, buyer: Account, k: string, school: string)
    requires bot.StateOf(buyer.id) == Idle
    ensures bot.Dispatched(Callback(buyer, "school|" + k + "|" + school)) == OnSchool
  {
    var data := "school|" + k + "|" + school;
    assert data[..7] == "school|";
    SchoolPayloadRoutes(buyer, data);
  }

  /**
   * A buyer with no state presses the button of subject `k` and `school`,
   * which reaches `process_school`: the product screen is drawn with the
   * stored payment details.
   */
  method OpenProductScreen(bot: Bot, buyer: Account, k: string, school: string) returns (shown: seq<Effect>)
    requires bot.Valid() && bot.StateOf(buyer.id) == Idle
    requires HasSubject(k)
    ensures |shown| == 2 && shown[1].Edit?
    ensures Contains(shown[1].text, bot.db.GetSetting(CARD_NUMBER_KEY))
    ensures Contains(shown[1].text, bot.db.GetSetting(RECIPIENT_FIO_KEY))
  {
    var data := "school|" + k + "|" + school;
    var card, fio := bot.db.GetSetting(CARD_NUMBER_KEY), bot.db.GetSetting(RECIPIENT_FIO_KEY);
    SchoolPressShowsPaymentDetails(k, school, card, fio);
    SchoolPressRoutes(bot, buyer, k, school);
    ghost var drawn := MenuEffects(Navigate(data), card, fio);
    shown := bot.MenuCallback(data);
    assert shown == [AnswerCallback("", false)] + drawn;
    assert shown[1] == drawn[0];
  }

  /**
   * The administrator changes the payment details through the panel; the
   * next product screen any buyer opens, for any subject of the catalogue
   * and any school, shows the new card number and name, stripped of
   * surrounding whitespace.
   */
  method PaymentDetailsReachBuyers(bot: Bot, admin: Account, buyer: Account, card: string, fio: string, k: string, school: string)
    returns (shown: seq<Effect>)
    requires bot.Valid() && admin.id == bot.adminId && bot.StateOf(admin.id) == Idle
    requires HasSubject(k)
    modifies bot, bot.db
    ensures bot.Valid() && bot.StateOf(admin.id) == Idle
    ensures |shown| == 2 && shown[1].Edit?
    ensures Contains(shown[1].text, Strip(card)) && Contains(shown[1].text, Strip(fio))
  {
    SetPaymentDetails(bot, admin, card, fio);
    assert bot.StateOf(buyer.id) == Idle;
    shown := OpenProductScreen(bot, buyer, k, school);
  }

  /** The administrator starts a broadcast and sends its text; the bot awaits the decision. */
  method PrepareBroadcast(bot: Bot, admin: Account, text: string) returns (effects: seq<Effect>)
    requires bot.Valid() && admin.id == bot.adminId && bot.StateOf(admin.id) == Idle
    modifies bot
    ensures bot.Valid() && bot.StateOf(admin.id) == WaitingBroadcastConfirm(Take(text, BROADCAST_LIMIT))
    ensures SendsOnlyTo(effects, admin.id)
  {
    var start := Callback(admin, "admin_broadcast");
    assert start.data[0] == 'a';
    assert bot.Dispatched(start) == OnAdminBroadcast;
    var e1 := bot.AdminBroadcast(admin);
    assert bot.Dispatched(Message(admin, Some(text))) == OnBroadcastText;
    var e2 := bot.ReceiveBroadcastText(admin, text);
    effects := e1 + e2;
  }

  /**
   * A broadcast the administrator cancels reaches no user: every message the
   * bot sends goes to the administrator, and nothing is stored.
   */
  method CancelledBroadcastReachesNoUser(bot: Bot, admin: Account, text: string)
    returns (effects: seq<Effect>)
    requires bot.Valid() && admin.id == bot.adminId && bot.StateOf(admin.id) == Idle
    modifies bot
    ensures bot.Valid() && bot.StateOf(admin.id) == Idle
    ensures SendsOnlyTo(effects, admin.id)
    ensures |effects| > 0 && effects[|effects| - 1] == Send(admin.id, CANCELLED)
  {
    var prepared := PrepareBroadcast(bot, admin, text);
    assert bot.Dispatched(Callback(admin, "broadcast_cancel")) == OnBroadcastDecision;
    var decided := bot.BroadcastDecision(admin, "broadcast_cancel", {});
    effects := prepared + decided;
  }

  /**
   * A broadcast the administrator confirms reaches every registered user
   * with the text cut to `BROADCAST_LIMIT`, and nobody else but the
   * administrator.
   */
  method ConfirmedBroadcastReachesEveryUser(bot: Bot, admin: Account, text: string, failing: set<int>)
    returns (effects: seq<Effect>)
    requires bot.Valid() && admin.id == bot.adminId && bot.StateOf(admin.id) == Idle
    modifies bot
    ensures bot.Valid() && bot.StateOf(admin.id) == Idle
    ensures forall uid :: uid in bot.db.users ==> Send(uid, Take(text, BROADCAST_LIMIT)) in effects
    ensures forall e :: e in effects && e.Send? && e.chat != admin.id ==>
      e.chat in bot.db.users && e.text == Take(text, BROADCAST_LIMIT)
  {
    var prepared := PrepareBroadcast(bot, admin, text);
    var draft := Take(text, BROADCAST_LIMIT);
    assert bot.Dispatched(Callback(admin, "broadcast_confirm")) == OnBroadcastDecision;
    var decided := bot.BroadcastDecision(admin, "broadcast_confirm", failing);
    var ids := AscendingIds(bot.db.users.Keys);
    assert decided == [AnswerCallback(STARTING_ALERT, false)] + Attempts(ids, draft)
                      + [Send(admin.id, Report(|Delivered(ids, failing)|, |Undelivered(ids, failing)|))];
    ConfirmReachesEveryUserOnce(bot.db.users, draft, failing);
    effects := prepared + decided;
    forall e | e in effects && e.Send? && e.chat != admin.id
      ensures e.chat in bot.db.users && e.text == draft
    {
      assert e !in prepared;
      assert e in Attempts(ids, draft);
    }
  }
}
