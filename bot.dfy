/**
 * The bot itself: the administrator's identity, the database and the
 * dispatcher's per-user conversation state, with one method per registered
 * handler and `Handle`, which routes an update to its handler.
 */
module Handlers {
  import opened Wrappers
  import opened Strings
  import opened Platform
  import opened Store
  import opened Catalog
  import opened Menu
  import opened Broadcast
  import opened Conversation

  const ACCESS_DENIED := "Доступ запрещён."
  const ADMIN_PANEL := "Панель администратора:"
  const NO_ACCESS_ALERT := "Нет доступа"
  const NO_ACCESS_REPLY := "Нет доступа."
  const ASK_BROADCAST_TEXT := "Отправьте текст для рассылки (макс 4000 символов)."
  const PREVIEW_HEADING := "Предпросмотр рассылки:\n\n"
  const CANCELLED_ALERT := "Рассылка отменена"
  const CANCELLED := "Отменено."
  const STARTING_ALERT := "Запуск рассылки..."
  const ASK_CARD := "Введите номер карты (или реквизиты) — отправьте одним сообщением:"
  const ASK_FIO := "Теперь укажите ФИО получателя:"
  const NOT_RECOGNISED := "Команда не распознана. Нажмите /start чтобы вернуться в начало."

  /** The keyboard under the broadcast preview. */
  const CONFIRM_KEYBOARD: seq<Button> := [
    CallbackButton("✅ Начать рассылку", "broadcast_confirm"),
    CallbackButton("❌ Отмена", "broadcast_cancel")
  ]

  function DetailsUpdated(card: string, fio: string): string {
    "Реквизиты обновлены:\n" + card + "\n" + fio
  }

  /**
   * What a confirmed broadcast does: acknowledge, one send per listed user,
   * then the report to the administrator.
   */
  function ConfirmEffects(adminId: int, ids: seq<int>, draft: string, failing: set<int>): seq<Effect> {
    [AnswerCallback(STARTING_ALERT, false)]
    + Attempts(ids, draft)
    + [Send(adminId, Report(|Delivered(ids, failing)|, |Undelivered(ids, failing)|))]
  }

  /**
   * Sending to a list of distinct ids, in order, reaches each listed id
   * exactly once and nobody else, always with the same text.
   */
  lemma AttemptsReachEachOnce(ids: seq<int>, draft: string)
    requires forall i, j :: 0 <= i < j < |ids| ==> ids[i] < ids[j]
    ensures forall uid :: uid in ids ==> Send(uid, draft) in Attempts(ids, draft)
    ensures forall e :: e in Attempts(ids, draft) ==> e.Send? && e.chat in ids && e.text == draft
    ensures forall i, j :: 0 <= i < j < |ids| ==> Attempts(ids, draft)[i] != Attempts(ids, draft)[j]
  {
    var sends := Attempts(ids, draft);
    forall uid | uid in ids ensures Send(uid, draft) in sends {
      var i :| 0 <= i < |ids| && ids[i] == uid;
      assert sends[i] == Send(uid, draft);
    }
    forall e | e in sends ensures e.Send? && e.chat in ids && e.text == draft {
      var i :| 0 <= i < |sends| && sends[i] == e;
      assert sends[i].chat == ids[i];
    }
  }

  /**
   * A confirmed broadcast reaches every registered user exactly once and
   * nobody else, always with the draft, and its report accounts for every
   * one of them.
   */
  lemma ConfirmReachesEveryUserOnce(users: map<int, UserRow>, draft: string, failing: set<int>)
    ensures |Attempts(AscendingIds(users.Keys), draft)| == |users.Keys|
    ensures forall uid :: uid in users ==> Send(uid, draft) in Attempts(AscendingIds(users.Keys), draft)
    ensures forall e :: e in Attempts(AscendingIds(users.Keys), draft) ==> e.Send? && e.chat in users && e.text == draft
    ensures forall i, j :: 0 <= i < j < |users.Keys| ==>
      Attempts(AscendingIds(users.Keys), draft)[i] != Attempts(AscendingIds(users.Keys), draft)[j]
    ensures |Delivered(AscendingIds(users.Keys), failing)| + |Undelivered(AscendingIds(users.Keys), failing)| == |users.Keys|
  {
    var ids := AscendingIds(users.Keys);
    AscendingIdsSorted(users.Keys);
    AttemptsReachEachOnce(ids, draft);
    DeliveryPartitions(ids, failing);
  }

  class Bot {
    /** The one account allowed into the admin panel. */
    const adminId: int
    const db: Database
    /** The dispatcher's memory storage: the state of each user that has one. */
    var sessions: map<int, AdminState>

    /**
     * Only the administrator is ever put into a state (every state is set by
     * a handler that first turned everyone else away), and finishing removes
     * the entry rather than storing `Idle`.
     */
    ghost predicate Valid()
      reads this
    {
      forall u :: u in sessions ==> u == adminId && sessions[u] != Idle
    }

    function StateOf(u: int): AdminState
      reads this
    {
      if u in sessions then sessions[u] else Idle
    }

    /** The handler the dispatcher picks for `ev` in the current state. */
    function Dispatched(ev: Event): Handler
      reads this
    {
      Route(StateOf(ev.sender.id), ev)
    }

    constructor (adminId: int, db: Database)
      ensures this.adminId == adminId && this.db == db
      ensures sessions == map[] && Valid()
    {
      this.adminId := adminId;
      this.db := db;
      sessions := map[];
    }

    /** `cmd_start`: registers (or re-registers) the sender and greets them. */
    method CmdStart(from: Account, now: string) returns (effects: seq<Effect>)
      modifies db
      ensures db.users == old(db.users)[from.id := RowOf(from, now)]
      ensures db.settings == old(db.settings)
      ensures effects == [Respond(WELCOME_TEXT, StartKeyboard())]
    {
      db.AddUser(from, now);
      effects := [Respond(WELCOME_TEXT, StartKeyboard())];
    }

    /**
     * `process_buy`, `process_subject`, `process_school`, `back_subjects` and
     * `back_start`: acknowledge the press, then draw the screen the payload
     * leads to, or stop with the exception the handler raises.
     */
    method MenuCallback(data: string) returns (effects: seq<Effect>)
      requires IsMenuPayload(data)
      ensures effects == [AnswerCallback("", false)]
        + MenuEffects(Navigate(data), db.GetSetting(CARD_NUMBER_KEY), db.GetSetting(RECIPIENT_FIO_KEY))
    {
      var outcome := Navigate(data);
      if outcome.Fail? {
        return [AnswerCallback("", false), Raised(outcome.error)];
      }
      var view := Draw(outcome.screen);
      effects := [AnswerCallback("", false), Edit(view.text, view.buttons)];
    }

    /** The screen a menu handler draws, with the payment settings as stored now. */
    method Draw(screen: Screen) returns (view: View)
      requires ValidScreen(screen)
      ensures view == Render(screen, db.GetSetting(CARD_NUMBER_KEY), db.GetSetting(RECIPIENT_FIO_KEY))
    {
      match screen
      case Welcome =>
        view := View(BACK_START_TEXT, StartKeyboard());
      case SubjectList =>
        var kb := MakeSubjectsKeyboard();
        view := View(SUBJECT_PROMPT, kb);
      case ProgramList(k) =>
        var kb := MakeSchoolsKeyboard(k);
        view := View(ProgramPrompt(Lookup(k).title), kb);
      case ProductDetail(k, school) =>
        var e := Lookup(k);
        var card := db.GetSetting(CARD_NUMBER_KEY);
        var fio := db.GetSetting(RECIPIENT_FIO_KEY);
        view := View(ProductText(e.title, school, e.price, card, fio), ProductKeyboard());
    }

    /** `cmd_admin`: the panel for the administrator, a refusal for anyone else. */
    method CmdAdmin(from: Account) returns (effects: seq<Effect>)
      ensures from.id == adminId ==> effects == [Reply(ADMIN_PANEL, AdminKeyboard())]
      ensures from.id != adminId ==> effects == [Reply(ACCESS_DENIED, [])]
    {
      if from.id != adminId {
        return [Reply(ACCESS_DENIED, [])];
      }
      effects := [Reply(ADMIN_PANEL, AdminKeyboard())];
    }

    /** `admin_broadcast`: asks the administrator for the text and waits for it. */
    method AdminBroadcast(from: Account) returns (effects: seq<Effect>)
      modifies this
      ensures from.id != adminId ==> sessions == old(sessions) && effects == [AnswerCallback(NO_ACCESS_ALERT, true)]
      ensures from.id == adminId ==> sessions == old(sessions)[adminId := WaitingBroadcastText]
      ensures from.id == adminId ==> effects == [AnswerCallback("", false), Send(adminId, ASK_BROADCAST_TEXT)]
    {
      if from.id != adminId {
        return [AnswerCallback(NO_ACCESS_ALERT, true)];
      }
      effects := [AnswerCallback("", false), Send(adminId, ASK_BROADCAST_TEXT)];
      sessions := sessions[adminId := WaitingBroadcastText];
    }

    /**
     * `receive_broadcast_text`: keeps the first `BROADCAST_LIMIT` characters as
     * the draft, shows it with the confirm and cancel buttons and waits for the
     * decision.
     */
    method ReceiveBroadcastText(from: Account, text: string) returns (effects: seq<Effect>)
      modifies this
      ensures from.id != adminId ==> sessions == old(sessions) && effects == [Reply(NO_ACCESS_REPLY, [])]
      ensures from.id == adminId ==>
        sessions == old(sessions)[adminId := WaitingBroadcastConfirm(Take(text, BROADCAST_LIMIT))]
      ensures from.id == adminId ==>
        effects == [Reply(PREVIEW_HEADING + Take(text, BROADCAST_LIMIT), CONFIRM_KEYBOARD)]
    {
      if from.id != adminId {
        return [Reply(NO_ACCESS_REPLY, [])];
      }
      var draft := Take(text, BROADCAST_LIMIT);
      sessions := sessions[adminId := WaitingBroadcastConfirm(draft)];
      effects := [Reply(PREVIEW_HEADING + draft, CONFIRM_KEYBOARD)];
    }

    /**
     * `broadcast_confirm_or_cancel`: cancel finishes at once; anything else
     * sends the draft to every registered user, in ascending id order, counting
     * deliveries and failures (`failing` are the users a send to fails for),
     * reports the counts and finishes.
     */
    method BroadcastDecision(from: Account, data: string, failing: set<int>) returns (effects: seq<Effect>)
      modifies this
      ensures from.id != adminId ==> sessions == old(sessions) && effects == [AnswerCallback(NO_ACCESS_ALERT, true)]
      ensures from.id == adminId ==> sessions == old(sessions) - {adminId}
      ensures from.id == adminId && data == "broadcast_cancel" ==>
        effects == [AnswerCallback(CANCELLED_ALERT, false), Send(adminId, CANCELLED)]
      ensures from.id == adminId && data != "broadcast_cancel" ==>
        effects == ConfirmEffects(adminId, AscendingIds(db.users.Keys), DraftText(old(StateOf(adminId))), failing)
    {
      if from.id != adminId {
        return [AnswerCallback(NO_ACCESS_ALERT, true)];
      }
      if data == "broadcast_cancel" {
        sessions := sessions - {adminId};
        return [AnswerCallback(CANCELLED_ALERT, false), Send(adminId, CANCELLED)];
      }
      var draft := DraftText(StateOf(adminId));
      effects := [AnswerCallback(STARTING_ALERT, false)];
      var ids := db.AllUserIds();
      var sends, sent, failed := Dispatch(ids, draft, failing);
      effects := effects + sends + [Send(adminId, Report(sent, failed))];
      sessions := sessions - {adminId};
    }

    /** `admin_set_card`: asks the administrator for the card number and waits for it. */
    method AdminSetCard(from: Account) returns (effects: seq<Effect>)
      modifies this
      ensures from.id != adminId ==> sessions == old(sessions) && effects == [AnswerCallback(NO_ACCESS_ALERT, true)]
      ensures from.id == adminId ==> sessions == old(sessions)[adminId := WaitingCardNumber]
      ensures from.id == adminId ==> effects == [AnswerCallback("", false), Send(adminId, ASK_CARD)]
    {
      if from.id != adminId {
        return [AnswerCallback(NO_ACCESS_ALERT, true)];
      }
      effects := [AnswerCallback("", false), Send(adminId, ASK_CARD)];
      sessions := sessions[adminId := WaitingCardNumber];
    }

    /** `receive_card_number`: keeps the stripped text as the card number and asks for the name. */
    method ReceiveCardNumber(from: Account, text: string) returns (effects: seq<Effect>)
      modifies this
      ensures from.id != adminId ==> sessions == old(sessions) && effects == [Reply(NO_ACCESS_REPLY, [])]
      ensures from.id == adminId ==> sessions == old(sessions)[adminId := WaitingRecipientFio(Strip(text))]
      ensures from.id == adminId ==> effects == [Reply(ASK_FIO, [])]
    {
      if from.id != adminId {
        return [Reply(NO_ACCESS_REPLY, [])];
      }
      sessions := sessions[adminId := WaitingRecipientFio(Strip(text))];
      effects := [Reply(ASK_FIO, [])];
    }

    /**
     * `receive_recipient_fio`: stores the kept card number and the stripped
     * name as the two payment settings, confirms them and finishes.
     */
    method ReceiveRecipientFio(from: Account, text: string) returns (effects: seq<Effect>)
      modifies this, db
      ensures db.users == old(db.users)
      ensures from.id != adminId ==>
        sessions == old(sessions) && db.settings == old(db.settings) && effects == [Reply(NO_ACCESS_REPLY, [])]
      ensures from.id == adminId ==> sessions == old(sessions) - {adminId}
      ensures from.id == adminId ==>
        db.settings == old(db.settings)[CARD_NUMBER_KEY := PendingCard(old(StateOf(adminId)))][RECIPIENT_FIO_KEY := Strip(text)]
      ensures from.id == adminId ==>
        effects == [Reply(DetailsUpdated(PendingCard(old(StateOf(adminId))), Strip(text)), [])]
    {
      if from.id != adminId {
        return [Reply(NO_ACCESS_REPLY, [])];
      }
      var fio := Strip(text);
      var card := PendingCard(StateOf(adminId));
      db.SetSetting(CARD_NUMBER_KEY, card);
      db.SetSetting(RECIPIENT_FIO_KEY, fio);
      effects := [Reply(DetailsUpdated(card, fio), [])];
      sessions := sessions - {adminId};
    }

    /** `catch_all`: unknown commands are ignored, anything else gets the fallback reply. */
    method CatchAll(text: Option<string>) returns (effects: seq<Effect>)
      ensures effects == [] <==> text.Some? && StartsWith(text.value, "/")
      ensures effects != [] ==> effects == [Reply(NOT_RECOGNISED, [])]
    {
      if text.Some? && StartsWith(text.value, "/") {
        return [];
      }
      effects := [Reply(NOT_RECOGNISED, [])];
    }

    /**
     * One update, end to end: pick the handler by the sender's state and run
     * it. `now` is the registration time `/start` records; `failing` are the
     * users a broadcast send fails for.
     */
    method Handle(ev: Event, now: string, failing: set<int>) returns (effects: seq<Effect>)
      requires Valid()
      modifies this, db
      ensures Valid()
      // the administrator's state follows the transition table; nobody else ever has one
      ensures ev.sender.id == adminId ==>
        StateOf(adminId) == NextState(old(StateOf(adminId)), old(Dispatched(ev)), ev)
      ensures ev.sender.id != adminId ==> sessions == old(sessions)
      // only /start touches the user registry, only the recipient's name the settings
      ensures old(Dispatched(ev)) == OnStart ==> db.users == old(db.users)[ev.sender.id := RowOf(ev.sender, now)]
      ensures old(Dispatched(ev)) != OnStart ==> db.users == old(db.users)
      ensures old(Dispatched(ev)) == OnRecipientFio && ev.sender.id == adminId ==>
        db.settings == old(db.settings)[CARD_NUMBER_KEY := PendingCard(old(StateOf(adminId)))]
                                       [RECIPIENT_FIO_KEY := Strip(ev.text.value)]
      ensures old(Dispatched(ev)) != OnRecipientFio || ev.sender.id != adminId ==> db.settings == old(db.settings)
      // what is said in reply
      ensures old(Dispatched(ev)) == Unhandled ==> effects == []
      ensures old(Dispatched(ev)) == OnStart ==> effects == [Respond(WELCOME_TEXT, StartKeyboard())]
      ensures IsMenuHandler(old(Dispatched(ev))) ==>
        ev.Callback? && IsMenuPayload(ev.data)
        && effects == [AnswerCallback("", false)]
                      + MenuEffects(Navigate(ev.data), db.GetSetting(CARD_NUMBER_KEY), db.GetSetting(RECIPIENT_FIO_KEY))
      ensures old(Dispatched(ev)) == OnFallback ==>
        effects == (if ev.text.Some? && StartsWith(ev.text.value, "/") then [] else [Reply(NOT_RECOGNISED, [])])
      ensures old(Dispatched(ev)) in {OnAdminBroadcast, OnAdminSetCard} && ev.sender.id != adminId ==>
        effects == [AnswerCallback(NO_ACCESS_ALERT, true)]
      ensures old(Dispatched(ev)) == OnAdmin && ev.sender.id != adminId ==> effects == [Reply(ACCESS_DENIED, [])]
      ensures old(Dispatched(ev)) == OnAdmin && ev.sender.id == adminId ==> effects == [Reply(ADMIN_PANEL, AdminKeyboard())]
      ensures old(Dispatched(ev)) == OnAdminBroadcast && ev.sender.id == adminId ==>
        effects == [AnswerCallback("", false), Send(adminId, ASK_BROADCAST_TEXT)]
      ensures old(Dispatched(ev)) == OnBroadcastText ==>
        effects == [Reply(PREVIEW_HEADING + Take(ev.text.value, BROADCAST_LIMIT), CONFIRM_KEYBOARD)]
      ensures old(Dispatched(ev)) == OnAdminSetCard && ev.sender.id == adminId ==>
        effects == [AnswerCallback("", false), Send(adminId, ASK_CARD)]
      ensures old(Dispatched(ev)) == OnCardNumber ==> effects == [Reply(ASK_FIO, [])]
      ensures old(Dispatched(ev)) == OnRecipientFio ==>
        effects == [Reply(DetailsUpdated(PendingCard(old(StateOf(adminId))), Strip(ev.text.value)), [])]
      ensures old(Dispatched(ev)) == OnBroadcastDecision && ev.data == "broadcast_cancel" ==>
        effects == [AnswerCallback(CANCELLED_ALERT, false), Send(adminId, CANCELLED)]
      ensures old(Dispatched(ev)) == OnBroadcastDecision && ev.data == "broadcast_confirm" ==>
        effects == ConfirmEffects(adminId, AscendingIds(old(db.users).Keys), DraftText(old(StateOf(adminId))), failing)
    {
      var h := Dispatched(ev);
      if h == OnStart {
        effects := CmdStart(ev.sender, now);
      } else if h == OnAdmin {
        effects := CmdAdmin(ev.sender);
      } else if IsMenuHandler(h) {
        effects := MenuCallback(ev.data);
      } else if h == OnAdminBroadcast {
        effects := AdminBroadcast(ev.sender);
      } else if h == OnBroadcastText {
        effects := ReceiveBroadcastText(ev.sender, ev.text.value);
      } else if h == OnBroadcastDecision {
        effects := BroadcastDecision(ev.sender, ev.data, failing);
      } else if h == OnAdminSetCard {
        effects := AdminSetCard(ev.sender);
      } else if h == OnCardNumber {
        effects := ReceiveCardNumber(ev.sender, ev.text.value);
      } else if h == OnRecipientFio {
        effects := ReceiveRecipientFio(ev.sender, ev.text.value);
      } else if h == OnFallback {
        effects := CatchAll(ev.text);
      } else {
        effects := [];
      }
    }
  }
}
