/**
 * The browsing menu: the welcome, subject-list, program-list and product
 * screens, and the callback payloads that move between them. A menu
 * callback handler acknowledges the press, then either replaces the pressed
 * message with the next screen or stops with an exception.
 */
module Menu {
  import opened Wrappers
  import opened Strings
  import opened Platform
  import opened Catalog

  /** The opening of the welcome text, up to where the `back_start` screen cuts it short. */
  const WELCOME_OPENING :=
    "🎓 Добро пожаловать в *ЕГЭ Школу Онлайн* — быстрые и понятные курсы для уверенной подготовки к экзаменам!\n\n"
    + "Здесь вы можете купить доступ к видеоурокам"

  /** What `/start` answers with. */
  const WELCOME_TEXT := WELCOME_OPENING + WELCOME_REST

  const WELCOME_REST :=
    ", авторским заданиям и разбору задач от опытных преподавателей.\n\n"
    + "📚 Доступна подготовка по профильной и базовой программе, персональные чек-листы и рекомендации.\n\n"
    + "Выберите предмет и программу — получите готовую дорожную карту подготовки и материалы сразу после оплаты."

  /** What the `back_start` button shows: the welcome cut short. */
  const BACK_START_TEXT := WELCOME_OPENING + "..."

  const SUBJECT_PROMPT := "Выберите предмет:"

  datatype Screen =
    | Welcome
    | SubjectList
    | ProgramList(subject: string)
    | ProductDetail(subject: string, school: string)

  /** Where a menu callback leads: a screen, or the exception its handler raises. */
  datatype Outcome = Goto(screen: Screen) | Fail(error: HandlerError)

  datatype View = View(text: string, buttons: seq<Button>)

  /** The payloads the five menu handlers are registered for. */
  predicate IsMenuPayload(data: string) {
    data == "buy" || StartsWith(data, "subj|") || StartsWith(data, "school|")
    || data == "back_subjects" || data == "back_start"
  }

  /** A screen that names a subject names one of the catalogue. */
  predicate ValidScreen(s: Screen) {
    match s
    case ProgramList(k) => HasSubject(k)
    case ProductDetail(k, _) => HasSubject(k)
    case _ => true
  }

  /**
   * The transition table of `process_buy`, `process_subject`,
   * `process_school`, `back_subjects` and `back_start`. The subject key is
   * looked up in the catalogue (an unknown one raises `KeyError`); the school
   * is whatever follows the second delimiter and is not checked; a school
   * payload without a second delimiter cannot be unpacked into three names.
   */
  function Navigate(data: string): (r: Outcome)
    requires IsMenuPayload(data)
    ensures r.Goto? ==> ValidScreen(r.screen)
    ensures r.Fail? ==> StartsWith(data, "subj|") || StartsWith(data, "school|")
    ensures data == "buy" || data == "back_subjects" ==> r == Goto(SubjectList)
    ensures r == Goto(Welcome) <==> data == "back_start"
    ensures StartsWith(data, "subj|") ==>
      r == if HasSubject(data[5..]) then Goto(ProgramList(data[5..])) else Fail(KeyError(data[5..]))
    ensures StartsWith(data, "school|") && Lacks(data[7..], '|') ==> r == Fail(UnpackError(2))
    ensures StartsWith(data, "school|") && !Lacks(data[7..], '|') ==>
      var rest := data[7..];
      var j := IndexOf(rest, '|').value;
      r == if HasSubject(rest[..j]) then Goto(ProductDetail(rest[..j], rest[j + 1..])) else Fail(KeyError(rest[..j]))
  {
    if data == "buy" || data == "back_subjects" then
      assert data[0] == 'b';
      Goto(SubjectList)
    else if data == "back_start" then
      assert data[0] == 'b';
      Goto(Welcome)
    else if StartsWith(data, "subj|") then
      assert data[1] == 'u';
      OpenSubject(data)
    else
      assert data[0] == 's' && data[1] == 'c';
      OpenSchool(data)
  }

  /** `process_subject`: the key after the prefix, looked up in the catalogue. */
  function OpenSubject(data: string): (r: Outcome)
    requires StartsWith(data, "subj|")
    ensures r == if HasSubject(data[5..]) then Goto(ProgramList(data[5..])) else Fail(KeyError(data[5..]))
  {
    // a one-cut split of a subject payload always unpacks into two names
    SplitSubjectPayload(data);
    var key := Split(data, '|', 1)[1];
    if !HasSubject(key) then Fail(KeyError(key))
    else Goto(ProgramList(key))
  }

  /** `process_school`: the payload unpacked into a key and a school, the key looked up. */
  function OpenSchool(data: string): (r: Outcome)
    requires StartsWith(data, "school|")
    ensures Lacks(data[7..], '|') ==> r == Fail(UnpackError(2))
    ensures !Lacks(data[7..], '|') ==>
      var rest := data[7..];
      var j := IndexOf(rest, '|').value;
      r == if HasSubject(rest[..j]) then Goto(ProductDetail(rest[..j], rest[j + 1..])) else Fail(KeyError(rest[..j]))
  {
    SplitSchoolPayload(data);
    var pieces := Split(data, '|', 2);
    if |pieces| != 3 then Fail(UnpackError(|pieces|))
    else if !HasSubject(pieces[1]) then Fail(KeyError(pieces[1]))
    else Goto(ProductDetail(pieces[1], pieces[2]))
  }

  /** `data.split('|', 1)` of a subject payload: the prefix, then the whole rest. */
  lemma SplitSubjectPayload(data: string)
    requires StartsWith(data, "subj|")
    ensures Split(data, '|', 1) == ["subj", data[5..]]
  {
    assert data == "subj" + ['|'] + data[5..];
    SplitTwo("subj", data[5..], '|');
  }

  /**
   * `data.split('|', 2)` of a school payload: the prefix, then the text up to
   * the next delimiter and everything after it, or only the rest when there
   * is no second delimiter.
   */
  lemma SplitSchoolPayload(data: string)
    requires StartsWith(data, "school|")
    ensures Lacks(data[7..], '|') ==> Split(data, '|', 2) == ["school", data[7..]]
    ensures !Lacks(data[7..], '|') ==>
      var rest := data[7..];
      var j := IndexOf(rest, '|').value;
      Split(data, '|', 2) == ["school", rest[..j], rest[j + 1..]]
  {
    assert data == data[..7] + data[7..];
    assert data == "school" + ['|'] + data[7..];
    SplitTwiceAfter("school", data[7..], '|');
  }

  function ProgramPrompt(title: string): string {
    "Предмет: *" + title + "*\nВыберите программу:"
  }

  /** The product screen's text above the payment details. */
  function ProductHeading(title: string, school: string, price: nat): string {
    "*Товар:* " + (title + (" — " + (school + ("\n*Цена:* " + (DecimalDigits(price)
    + "₽\n\n*Реквизиты для оплаты:*\n")))))
  }

  /** The product screen's text below the payment details. */
  const PRODUCT_FOOTER :=
    "\n\nПосле оплаты пришлите, пожалуйста, чек менеджеру @" + MANAGER_USERNAME + ".\n"
    + "Мы пришлем доступ в течение рабочего времени."

  /** The product screen's text, with the payment details as they are stored when it is drawn. */
  function ProductText(title: string, school: string, price: nat, card: string, fio: string): string {
    ProductHeading(title, school, price) + card + "\n" + fio + PRODUCT_FOOTER
  }

  /**
   * The text and keyboard of a screen, given the two payment settings. The
   * product screen shows both settings, as they are when it is drawn.
   */
  function Render(s: Screen, card: string, fio: string): (v: View)
    requires ValidScreen(s)
    ensures s.ProductDetail? ==> Contains(v.text, card) && Contains(v.text, fio)
    ensures |v.buttons| > 0
  {
    match s
    case Welcome => View(BACK_START_TEXT, StartKeyboard())
    case SubjectList => View(SUBJECT_PROMPT, SubjectsKeyboard())
    case ProgramList(k) => View(ProgramPrompt(Lookup(k).title), SchoolsKeyboard(k))
    case ProductDetail(k, school) =>
      var e := Lookup(k);
      var head := ProductHeading(e.title, school, e.price);
      ShownBetween(head, card, fio, PRODUCT_FOOTER);
      View(ProductText(e.title, school, e.price, card, fio), ProductKeyboard())
  }

  /**
   * What a menu handler does after acknowledging the press: exactly one
   * thing, either editing the message into the next screen or raising.
   */
  function MenuEffects(o: Outcome, card: string, fio: string): (effects: seq<Effect>)
    requires o.Goto? ==> ValidScreen(o.screen)
    ensures |effects| == 1
    ensures effects[0].Raised? <==> o.Fail?
    ensures o.Fail? ==> effects[0].error == o.error
    ensures o.Goto? ==> effects[0] == Edit(Render(o.screen, card, fio).text, Render(o.screen, card, fio).buttons)
    ensures o.Goto? && o.screen.ProductDetail? ==> Contains(effects[0].text, card) && Contains(effects[0].text, fio)
  {
    match o
    case Goto(s) => var v := Render(s, card, fio); [Edit(v.text, v.buttons)]
    case Fail(e) => [Raised(e)]
  }

  // ----- properties of the menu -----

  /** `'subj|' + k` splits back into `k`, so the handler shows `k`'s programs, or raises `KeyError` for an unknown `k`. */
  lemma SubjectPayloadRoundTrip(k: string)
    ensures IsMenuPayload("subj|" + k)
    ensures Navigate("subj|" + k) == if HasSubject(k) then Goto(ProgramList(k)) else Fail(KeyError(k))
  {
    assert ("subj|" + k)[..5] == "subj|";
    assert "subj|" + k == "subj" + ['|'] + k;
    SplitTwo("subj", k, '|');
  }

  /**
   * `'school|' + k + '|' + s` splits back into `(k, s)` whenever `k` holds no
   * delimiter; `s` may hold some, since the split stops after two cuts.
   */
  lemma SchoolPayloadRoundTrip(k: string, s: string)
    requires Lacks(k, '|')
    ensures IsMenuPayload("school|" + k + "|" + s)
    ensures Navigate("school|" + k + "|" + s)
         == if HasSubject(k) then Goto(ProductDetail(k, s)) else Fail(KeyError(k))
  {
    var data := "school|" + k + "|" + s;
    assert data[..7] == "school|";
    assert data[0] == 's' && data[1] == 'c';
    assert !StartsWith(data, "subj|");
    assert data == "school" + ['|'] + k + ['|'] + s;
    SplitThree("school", k, s, '|');
  }

  /** A school payload with no second delimiter makes the handler's unpacking fail. */
  lemma SchoolPayloadWithoutProgram(k: string)
    requires Lacks(k, '|')
    ensures IsMenuPayload("school|" + k)
    ensures Navigate("school|" + k) == Fail(UnpackError(2))
  {
    var data := "school|" + k;
    assert data[..7] == "school|";
    assert data[0] == 's' && data[1] == 'c';
    assert !StartsWith(data, "subj|");
    assert data == "school" + ['|'] + k;
    SplitAtFirst("school", '|', k, 2);
    SplitWithoutSeparator(k, '|', 1);
  }

  /** The screen each callback button of a screen is meant to open, button by button. */
  function ButtonTarget(s: Screen, i: nat): Screen {
    match s
    case Welcome => SubjectList
    case SubjectList => if i < |SUBJECTS| then ProgramList(SUBJECTS[i].key) else Welcome
    case ProgramList(k) => if i < |SCHOOLS| then ProductDetail(k, SCHOOLS[i]) else SubjectList
    case ProductDetail(_, _) => SubjectList
  }

  /**
   * No dead buttons: every callback button drawn on a menu screen carries a
   * payload a menu handler accepts, and that payload leads to the screen the
   * button is meant to open (never to an exception).
   */
  lemma MenuButtonsLeadWhereMeant(s: Screen, card: string, fio: string, i: nat)
    requires ValidScreen(s)
    requires i < |Render(s, card, fio).buttons|
    requires Render(s, card, fio).buttons[i].CallbackButton?
    ensures IsMenuPayload(Render(s, card, fio).buttons[i].payload)
    ensures Navigate(Render(s, card, fio).buttons[i].payload) == Goto(ButtonTarget(s, i))
  {
    match s
    case Welcome =>
      assert Render(s, card, fio).buttons == StartKeyboard();
      StartButtonOpensSubjects();
    case SubjectList =>
      assert Render(s, card, fio).buttons == SubjectsKeyboard();
      SubjectButtonLeads(i);
    case ProgramList(k) =>
      assert Render(s, card, fio).buttons == SchoolsKeyboard(k);
      SchoolButtonLeads(k, i);
    case ProductDetail(_, _) =>
      assert Render(s, card, fio).buttons == ProductKeyboard();
  }

  /** A button of the subject list opens its subject's programs, or the welcome for the back button. */
  lemma SubjectButtonLeads(i: nat)
    requires i < |SubjectsKeyboard()|
    ensures SubjectsKeyboard()[i].CallbackButton?
    ensures IsMenuPayload(SubjectsKeyboard()[i].payload)
    ensures Navigate(SubjectsKeyboard()[i].payload) == Goto(ButtonTarget(SubjectList, i))
  {
    var kb := SubjectsKeyboard();
    if i < |SUBJECTS| {
      assert kb[i] == SubjectButton(SUBJECTS[i]);
      SubjectPayloadRoundTrip(SUBJECTS[i].key);
      ListedKeysResolve(i);
    } else {
      assert kb[i] == CallbackButton(BACK_CAPTION, "back_start");
    }
  }

  /** A button of a subject's program list opens that product, or the subject list for the back button. */
  lemma SchoolButtonLeads(k: string, i: nat)
    requires HasSubject(k)
    requires i < |SchoolsKeyboard(k)|
    ensures SchoolsKeyboard(k)[i].CallbackButton?
    ensures IsMenuPayload(SchoolsKeyboard(k)[i].payload)
    ensures Navigate(SchoolsKeyboard(k)[i].payload) == Goto(ButtonTarget(ProgramList(k), i))
  {
    var kb := SchoolsKeyboard(k);
    if i < |SCHOOLS| {
      assert kb[i] == SchoolButton(k, SCHOOLS[i]);
      KnownKeyWellFormed(k);
      SchoolPayloadRoundTrip(k, SCHOOLS[i]);
    } else {
      assert kb[i] == CallbackButton(BACK_CAPTION, "back_subjects");
    }
  }

  /** The start keyboard's one button opens the subject list. */
  lemma StartButtonOpensSubjects()
    ensures |StartKeyboard()| == 1 && StartKeyboard()[0].CallbackButton?
    ensures IsMenuPayload(StartKeyboard()[0].payload)
    ensures Navigate(StartKeyboard()[0].payload) == Goto(SubjectList)
  {
  }

  /**
   * Pressing a school button of a catalogue subject draws that product with
   * the payment details as they are stored at the time of the press.
   */
  lemma SchoolPressShowsPaymentDetails(k: string, school: string, card: string, fio: string)
    requires HasSubject(k)
    ensures IsMenuPayload("school|" + k + "|" + school)
    ensures |MenuEffects(Navigate("school|" + k + "|" + school), card, fio)| == 1
    ensures MenuEffects(Navigate("school|" + k + "|" + school), card, fio)[0].Edit?
    ensures Contains(MenuEffects(Navigate("school|" + k + "|" + school), card, fio)[0].text, card)
    ensures Contains(MenuEffects(Navigate("school|" + k + "|" + school), card, fio)[0].text, fio)
  {
    KnownKeyWellFormed(k);
    SchoolPayloadRoundTrip(k, school);
  }

  /** The product screen names the course and the school, and gives the price, of the entry it is drawn for. */
  lemma ProductScreenShowsEntry(k: string, school: string, card: string, fio: string)
    requires HasSubject(k)
    ensures Contains(Render(ProductDetail(k, school), card, fio).text, Lookup(k).title)
    ensures Contains(Render(ProductDetail(k, school), card, fio).text, school)
    ensures Contains(Render(ProductDetail(k, school), card, fio).text, DecimalDigits(Lookup(k).price))
  {
    var e := Lookup(k);
    var head := ProductHeading(e.title, school, e.price);
    HeadingShowsEntry(e.title, school, e.price);
    ShownAfterHeading(head, card, fio, PRODUCT_FOOTER, e.title);
    ShownAfterHeading(head, card, fio, PRODUCT_FOOTER, school);
    ShownAfterHeading(head, card, fio, PRODUCT_FOOTER, DecimalDigits(e.price));
  }

  /** The product heading names the course, the school and the price. */
  lemma HeadingShowsEntry(title: string, school: string, price: nat)
    ensures Contains(ProductHeading(title, school, price), title)
    ensures Contains(ProductHeading(title, school, price), school)
    ensures Contains(ProductHeading(title, school, price), DecimalDigits(price))
  {
    var d := DecimalDigits(price);
    var priceLine := d + "₽\n\n*Реквизиты для оплаты:*\n";
    var schoolPart := school + ("\n*Цена:* " + priceLine);
    var titlePart := title + (" — " + schoolPart);
    ContainsStart(title, " — " + schoolPart);
    ContainsPrepend("*Товар:* ", titlePart, title);
    ContainsStart(school, "\n*Цена:* " + priceLine);
    ContainsPrepend(" — ", schoolPart, school);
    ContainsPrepend(title, " — " + schoolPart, school);
    ContainsPrepend("*Товар:* ", titlePart, school);
    ContainsStart(d, "₽\n\n*Реквизиты для оплаты:*\n");
    ContainsPrepend("\n*Цена:* ", priceLine, d);
    ContainsPrepend(school, "\n*Цена:* " + priceLine, d);
    ContainsPrepend(" — ", schoolPart, d);
    ContainsPrepend(title, " — " + schoolPart, d);
    ContainsPrepend("*Товар:* ", titlePart, d);
  }

  /** Whatever the heading shows, the product text shows too. */
  lemma ShownAfterHeading(head: string, card: string, fio: string, foot: string, t: string)
    requires Contains(head, t)
    ensures Contains(head + card + "\n" + fio + foot, t)
  {
    ContainsAppend(head, card, t);
    ContainsAppend(head + card, "\n", t);
    ContainsAppend(head + card + "\n", fio, t);
    ContainsAppend(head + card + "\n" + fio, foot, t);
  }

  lemma ShownBetween(head: string, card: string, fio: string, foot: string)
    ensures Contains(head + card + "\n" + fio + foot, card)
    ensures Contains(head + card + "\n" + fio + foot, fio)
  {
    var text := head + card + "\n" + fio + foot;
    assert text[|head|..] == card + "\n" + fio + foot;
    assert StartsWith(text[|head|..], card);
    var at := |head| + |card| + 1;
    assert text[at..] == fio + foot;
    assert StartsWith(text[at..], fio);
  }

  /**
   * `back_start` does not redraw what `/start` shows: its text is the
   * opening of the welcome followed by an ellipsis, under the same keyboard.
   */
  lemma BackStartShortensWelcome()
    ensures Render(Welcome, "", "").buttons == StartKeyboard()
    ensures BACK_START_TEXT != WELCOME_TEXT
    ensures StartsWith(WELCOME_TEXT, BACK_START_TEXT[..|BACK_START_TEXT| - 3])
    ensures BACK_START_TEXT[|BACK_START_TEXT| - 3..] == "..."
  {
    var n := |WELCOME_OPENING|;
    assert |WELCOME_REST| > 3;
    assert BACK_START_TEXT[..n] == WELCOME_OPENING == WELCOME_TEXT[..n];
  }
}
