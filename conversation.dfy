/**
 * The administrator's conversation state and the routing of updates to
 * handlers.
 *
 * Routing follows the dispatcher's rules as the handlers are registered: a
 * handler registered for a state fires only while the sender is in that
 * state, and a handler registered without one fires only while the sender
 * has no state (the dispatcher's default; an assumption of this model).
 * Among the handlers that fit, the first registered wins.
 */
module Conversation {
  import opened Wrappers
  import opened Strings
  import opened Store
  import opened Catalog
  import opened Menu

  /** The longest broadcast text kept (`message.text[:4000]`). */
  const BROADCAST_LIMIT: nat := 4000

  /**
   * `AdminStates`, with the data stored alongside each state: the draft
   * broadcast while it awaits confirmation, the card number while the
   * recipient's name is awaited. `Idle` is "no state set".
   */
  datatype AdminState =
    | Idle
    | WaitingBroadcastText
    | WaitingBroadcastConfirm(draft: string)
    | WaitingCardNumber
    | WaitingRecipientFio(card: string)

  /** An incoming update. A message without text (a photo, a sticker, ...) has `text == None`. */
  datatype Event =
    | Message(sender: Account, text: Option<string>)
    | Callback(sender: Account, data: string)

  /** The registered handlers, and `Unhandled` when none fits. */
  datatype Handler =
    | OnStart | OnAdmin
    | OnBuy | OnSubject | OnSchool | OnBackSubjects | OnBackStart
    | OnAdminBroadcast | OnBroadcastText | OnBroadcastDecision
    | OnAdminSetCard | OnCardNumber | OnRecipientFio
    | OnFallback
    | Unhandled

  /** The handlers registered without a state. */
  predicate IsStateless(h: Handler) {
    h.OnStart? || h.OnAdmin? || IsMenuHandler(h) || h.OnAdminBroadcast? || h.OnAdminSetCard? || h.OnFallback?
  }

  predicate IsMenuHandler(h: Handler) {
    h.OnBuy? || h.OnSubject? || h.OnSchool? || h.OnBackSubjects? || h.OnBackStart?
  }

  /** The length of the leading run of `s` that holds neither whitespace nor `@`. */
  function NameLength(s: string): (n: nat)
    ensures n <= |s|
    ensures forall i :: 0 <= i < n ==> !IsSpace(s[i]) && s[i] != '@'
    ensures n < |s| ==> IsSpace(s[n]) || s[n] == '@'
  {
    if s == [] || IsSpace(s[0]) || s[0] == '@' then 0 else 1 + NameLength(s[1..])
  }

  /**
   * The command a text starts with: the name after `/` up to the first
   * whitespace or `@` (`/start@bot payload` is the command `start`).
   */
  function CommandOf(text: string): (cmd: Option<string>)
    ensures cmd.Some? <==> StartsWith(text, "/")
    ensures cmd.Some? ==> StartsWith(text, "/" + cmd.value)
    ensures cmd.Some? ==> forall i :: 0 <= i < |cmd.value| ==> !IsSpace(cmd.value[i]) && cmd.value[i] != '@'
    ensures cmd.Some? ==> 1 + |cmd.value| == |text| || IsSpace(text[1 + |cmd.value|]) || text[1 + |cmd.value|] == '@'
  {
    if |text| == 0 || text[0] != '/' then None
    else
      var rest := text[1..];
      var name := rest[..NameLength(rest)];
      assert text[..1 + |name|] == "/" + name;
      Some(name)
  }

  /** Which handler an update reaches, given the sender's state. */
  function Route(st: AdminState, ev: Event): (h: Handler)
    ensures h == OnBroadcastText <==> st == WaitingBroadcastText && ev.Message? && ev.text.Some?
    ensures h == OnCardNumber <==> st == WaitingCardNumber && ev.Message? && ev.text.Some?
    ensures h == OnRecipientFio <==> st.WaitingRecipientFio? && ev.Message? && ev.text.Some?
    ensures h == OnBroadcastDecision <==>
      st.WaitingBroadcastConfirm? && ev.Callback? && (ev.data == "broadcast_confirm" || ev.data == "broadcast_cancel")
    ensures IsStateless(h) ==> st == Idle
    ensures IsMenuHandler(h) ==> ev.Callback? && IsMenuPayload(ev.data)
    ensures st == Idle && ev.Message? ==> h == OnStart || h == OnAdmin || h == OnFallback
    ensures st == Idle && ev.Message? ==>
      (h == OnStart <==> ev.text.Some? && CommandOf(ev.text.value) == Some("start"))
    ensures st == Idle && ev.Message? ==>
      (h == OnAdmin <==> ev.text.Some? && CommandOf(ev.text.value) == Some("admin"))
    ensures st == Idle && ev.Callback? ==> (IsMenuHandler(h) <==> IsMenuPayload(ev.data))
    ensures st == Idle && ev.Callback? ==> (h == OnAdminBroadcast <==> ev.data == "admin_broadcast")
    ensures st == Idle && ev.Callback? ==> (h == OnAdminSetCard <==> ev.data == "admin_set_card")
    ensures ev.Callback? ==> h != OnStart && h != OnAdmin && h != OnFallback
    ensures st == Idle && ev.Callback? ==>
      (h == Unhandled <==> !IsMenuPayload(ev.data) && ev.data != "admin_broadcast" && ev.data != "admin_set_card")
  {
    match ev
    case Message(_, text) =>
      (match st
      case Idle => RouteIdleMessage(text)
      case WaitingBroadcastText => if text.Some? then OnBroadcastText else Unhandled
      case WaitingCardNumber => if text.Some? then OnCardNumber else Unhandled
      case WaitingRecipientFio(_) => if text.Some? then OnRecipientFio else Unhandled
      case WaitingBroadcastConfirm(_) => Unhandled)
    case Callback(_, data) =>
      match st
      case Idle => RouteIdleCallback(data)
      case WaitingBroadcastConfirm(_) =>
        if data == "broadcast_cancel" || data == "broadcast_confirm" then OnBroadcastDecision else Unhandled
      case _ => Unhandled
  }

  /** The message handlers registered without a state, in registration order. */
  function RouteIdleMessage(text: Option<string>): (h: Handler)
    ensures h == OnStart || h == OnAdmin || h == OnFallback
    ensures h == OnStart <==> text.Some? && CommandOf(text.value) == Some("start")
    ensures h == OnAdmin <==> text.Some? && CommandOf(text.value) == Some("admin")
  {
    if text.Some? && CommandOf(text.value) == Some("start") then OnStart
    else if text.Some? && CommandOf(text.value) == Some("admin") then OnAdmin
    else OnFallback
  }

  /** The callback handlers registered without a state, in registration order. */
  function RouteIdleCallback(data: string): (h: Handler)
    ensures h != OnStart && h != OnAdmin && h != OnFallback
    ensures IsStateless(h) || h == Unhandled
    ensures h == Unhandled <==> !IsMenuPayload(data) && data != "admin_broadcast" && data != "admin_set_card"
    ensures IsMenuHandler(h) <==> IsMenuPayload(data)
    ensures h == OnAdminBroadcast <==> data == "admin_broadcast"
    ensures h == OnAdminSetCard <==> data == "admin_set_card"
  {
    if data == "buy" then OnBuy
    else if StartsWith(data, "subj|") then
      assert data[0] == 's';
      OnSubject
    else if StartsWith(data, "school|") then OnSchool
    else if data == "back_subjects" then OnBackSubjects
    else if data == "back_start" then OnBackStart
    else if data == "admin_broadcast" then
      assert data[0] == 'a';
      OnAdminBroadcast
    else if data == "admin_set_card" then
      assert data[0] == 'a';
      OnAdminSetCard
    else Unhandled
  }

  /** With no state set, a `school|` payload reaches `process_school`, whatever follows the prefix. */
  lemma SchoolPayloadRoutes(u: Account, data: string)
    requires StartsWith(data, "school|")
    ensures Route(Idle, Callback(u, data)) == OnSchool
  {
    assert data[0] == 's' && data[1] == 'c';
  }

  /** The data kept with a state is what its handler stores: a draft within the limit, a stripped card number. */
  predicate Consistent(st: AdminState) {
    (st.WaitingBroadcastConfirm? ==> |st.draft| <= BROADCAST_LIMIT)
    && (st.WaitingRecipientFio? ==> Strip(st.card) == st.card)
  }

  /** `data.get('broadcast_text', '')`. */
  function DraftText(st: AdminState): string {
    if st.WaitingBroadcastConfirm? then st.draft else ""
  }

  /** `data.get('card_number', '')`. */
  function PendingCard(st: AdminState): string {
    if st.WaitingRecipientFio? then st.card else ""
  }

  /**
   * The administrator's state after handler `h` ran on `ev` (for anyone
   * else the admin-identity checks leave the state alone).
   */
  function NextState(st: AdminState, h: Handler, ev: Event): (next: AdminState)
    ensures Consistent(st) ==> Consistent(next)
    ensures h == OnBroadcastDecision || h == OnRecipientFio ==> next == Idle
    ensures next != st ==>
      h in {OnAdminBroadcast, OnBroadcastText, OnBroadcastDecision, OnAdminSetCard, OnCardNumber, OnRecipientFio}
  {
    match h
    case OnAdminBroadcast => WaitingBroadcastText
    case OnBroadcastText => if ev.Message? && ev.text.Some? then WaitingBroadcastConfirm(Take(ev.text.value, BROADCAST_LIMIT)) else st
    case OnBroadcastDecision => Idle
    case OnAdminSetCard => WaitingCardNumber
    case OnCardNumber =>
      if ev.Message? && ev.text.Some? then
        StripIdempotent(ev.text.value);
        WaitingRecipientFio(Strip(ev.text.value))
      else st
    case OnRecipientFio => Idle
    case _ => st
  }

  /**
   * The draft that `broadcast_confirm_or_cancel` reads is the one
   * `receive_broadcast_text` stored; where no draft is stored it reads "".
   */
  lemma DraftReadsBack(u: Account, t: string, st: AdminState)
    ensures var ev := Message(u, Some(t));
      DraftText(NextState(WaitingBroadcastText, Route(WaitingBroadcastText, ev), ev)) == Take(t, BROADCAST_LIMIT)
    ensures !st.WaitingBroadcastConfirm? ==> DraftText(st) == ""
  {
  }

  /**
   * The card number that `receive_recipient_fio` reads is the one
   * `receive_card_number` stored; where none is stored it reads "".
   */
  lemma PendingCardReadsBack(u: Account, t: string, st: AdminState)
    ensures var ev := Message(u, Some(t));
      PendingCard(NextState(WaitingCardNumber, Route(WaitingCardNumber, ev), ev)) == Strip(t)
    ensures !st.WaitingRecipientFio? ==> PendingCard(st) == ""
  {
  }

  /**
   * The two buttons of the administrator's panel open the two conversations:
   * with no state set, the first reaches `admin_broadcast` and awaits the
   * broadcast text, the second reaches `admin_set_card` and awaits the card
   * number.
   */
  lemma AdminPanelOpensConversations(u: Account)
    ensures |AdminKeyboard()| == 2 && AdminKeyboard()[0].CallbackButton? && AdminKeyboard()[1].CallbackButton?
    ensures var ev := Callback(u, AdminKeyboard()[0].payload);
      Route(Idle, ev) == OnAdminBroadcast && NextState(Idle, Route(Idle, ev), ev) == WaitingBroadcastText
    ensures var ev := Callback(u, AdminKeyboard()[1].payload);
      Route(Idle, ev) == OnAdminSetCard && NextState(Idle, Route(Idle, ev), ev) == WaitingCardNumber
  {
    assert AdminKeyboard()[0].payload[0] == 'a' && AdminKeyboard()[1].payload[0] == 'a';
  }

  /** The administrator's state after a run of updates, all from the administrator. */
  function Run(st: AdminState, evs: seq<Event>): AdminState
    decreases |evs|
  {
    if evs == [] then st
    else Run(NextState(st, Route(st, evs[0]), evs[0]), evs[1..])
  }

  /**
   * While a text is awaited, any text message is that text, even one that
   * reads as a command: `/start` does not restart and `/admin` does not
   * reopen the panel.
   */
  lemma {:induction false} AwaitedTextSwallowsCommands(st: AdminState, u: Account, t: string)
    requires st == WaitingBroadcastText || st == WaitingCardNumber || st.WaitingRecipientFio?
    ensures Route(st, Message(u, Some(t))) !in {OnStart, OnAdmin, OnFallback}
    ensures NextState(st, Route(st, Message(u, Some(t))), Message(u, Some(t))) != st
  {
    if st.WaitingRecipientFio? {
      assert NextState(st, OnRecipientFio, Message(u, Some(t))) == Idle;
    }
  }

  /**
   * Whatever the administrator sends, a stored draft never exceeds
   * `BROADCAST_LIMIT` and a stored card number is always stripped.
   */
  lemma {:induction false} RunKeepsConsistent(st: AdminState, evs: seq<Event>)
    requires Consistent(st)
    ensures Consistent(Run(st, evs))
    decreases |evs|
  {
    if evs != [] {
      RunKeepsConsistent(NextState(st, Route(st, evs[0]), evs[0]), evs[1..]);
    }
  }

  /** A run takes its first update, then the rest from the state it leads to. */
  lemma RunCons(st: AdminState, ev: Event, evs: seq<Event>)
    ensures Run(st, [ev] + evs) == Run(NextState(st, Route(st, ev), ev), evs)
  {
    assert ([ev] + evs)[0] == ev && ([ev] + evs)[1..] == evs;
  }

  /**
   * The draft that confirmation sends is the broadcast text cut to
   * `BROADCAST_LIMIT`: itself when short enough, its first 4000 characters
   * otherwise.
   */
  lemma BroadcastDraftIsTruncatedText(u: Account, t: string)
    ensures var st := NextState(WaitingBroadcastText, OnBroadcastText, Message(u, Some(t)));
      st.WaitingBroadcastConfirm?
      && |DraftText(st)| <= BROADCAST_LIMIT
      && (|t| <= BROADCAST_LIMIT ==> DraftText(st) == t)
      && (|t| > BROADCAST_LIMIT ==> |DraftText(st)| == BROADCAST_LIMIT && DraftText(st) <= t)
  {
  }

  /**
   * The broadcast flow: admin_broadcast, a text, then confirm or cancel
   * brings the administrator back to `Idle`; the text in between becomes the
   * draft.
   */
  lemma {:induction false} BroadcastFlowReturnsToIdle(u: Account, t: string, decision: string)
    requires decision == "broadcast_confirm" || decision == "broadcast_cancel"
    ensures Run(Idle, [Callback(u, "admin_broadcast"), Message(u, Some(t))])
         == WaitingBroadcastConfirm(Take(t, BROADCAST_LIMIT))
    ensures Run(Idle, [Callback(u, "admin_broadcast"), Message(u, Some(t)), Callback(u, decision)]) == Idle
  {
    var e1, e2, e3 := Callback(u, "admin_broadcast"), Message(u, Some(t)), Callback(u, decision);
    var draft := WaitingBroadcastConfirm(Take(t, BROADCAST_LIMIT));
    assert e1.data[0] == 'a';
    calc {
      Run(Idle, [e1, e2]);
    == { RunCons(Idle, e1, [e2]); }
      Run(WaitingBroadcastText, [e2]);
    == { RunCons(WaitingBroadcastText, e2, []); }
      Run(draft, []);
    }
    calc {
      Run(Idle, [e1, e2, e3]);
    == { RunCons(Idle, e1, [e2, e3]); }
      Run(WaitingBroadcastText, [e2, e3]);
    == { RunCons(WaitingBroadcastText, e2, [e3]); }
      Run(draft, [e3]);
    == { RunCons(draft, e3, []); }
      Run(Idle, []);
    }
  }

  /**
   * The payment flow: admin_set_card, a card number, then a name brings the
   * administrator back to `Idle`, holding the stripped card number in between.
   */
  lemma {:induction false} PaymentFlowReturnsToIdle(u: Account, card: string, fio: string)
    ensures Run(Idle, [Callback(u, "admin_set_card"), Message(u, Some(card))]) == WaitingRecipientFio(Strip(card))
    ensures Run(Idle, [Callback(u, "admin_set_card"), Message(u, Some(card)), Message(u, Some(fio))]) == Idle
  {
    var e1, e2, e3 := Callback(u, "admin_set_card"), Message(u, Some(card)), Message(u, Some(fio));
    var pending := WaitingRecipientFio(Strip(card));
    assert e1.data[0] == 'a';
    calc {
      Run(Idle, [e1, e2]);
    == { RunCons(Idle, e1, [e2]); }
      Run(WaitingCardNumber, [e2]);
    == { RunCons(WaitingCardNumber, e2, []); }
      Run(pending, []);
    }
    calc {
      Run(Idle, [e1, e2, e3]);
    == { RunCons(Idle, e1, [e2, e3]); }
      Run(WaitingCardNumber, [e2, e3]);
    == { RunCons(WaitingCardNumber, e2, [e3]); }
      Run(pending, [e3]);
    == { RunCons(pending, e3, []); }
      Run(Idle, []);
    }
  }
}
