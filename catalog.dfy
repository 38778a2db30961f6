/**
 * The static catalogue (`SUBJECTS`, `SCHOOLS`) and the inline keyboards the
 * menu screens carry. Each keyboard is a specification function; the
 * `Make...Keyboard` methods build the same buttons one insertion at a time,
 * as the bot does.
 */
module Catalog {
  import opened Wrappers
  import opened Strings
  import opened Platform

  datatype Subject = Subject(key: string, title: string, price: nat)

  /** `SUBJECTS`, in the dictionary's insertion order. */
  const SUBJECTS: seq<Subject> := [
    Subject("math_p", "Профильная математика", 499),
    Subject("rus", "Русский язык", 499),
    Subject("bio", "Биология", 349),
    Subject("info", "Информатика", 349),
    Subject("hist", "История", 349),
    Subject("soc", "Обществознание", 349),
    Subject("chem", "Химия", 329),
    Subject("phys", "Физика", 329)
  ]

  const SCHOOLS: seq<string> := ["стобальный", "пифагор"]

  const MANAGER_USERNAME := "qwuzinw"
  const BUY_CAPTION := "💸 Купить доступ"
  const BACK_CAPTION := "⬅️ Назад"
  const BACK_TO_SUBJECTS_CAPTION := "⬅️ Назад к предметам"
  const CONTACT_MANAGER_CAPTION := "Связаться с менеджером"

  /** The entry `SUBJECTS[key]` reads, or `None` where it raises `KeyError`. */
  function Find(entries: seq<Subject>, key: string): (r: Option<Subject>)
    ensures r.Some? ==> r.value in entries && r.value.key == key
    ensures r.None? ==> forall i :: 0 <= i < |entries| ==> entries[i].key != key
  {
    if entries == [] then None
    else if entries[0].key == key then Some(entries[0])
    else Find(entries[1..], key)
  }

  predicate HasSubject(key: string) {
    Find(SUBJECTS, key).Some?
  }

  function Lookup(key: string): Subject
    requires HasSubject(key)
  {
    Find(SUBJECTS, key).value
  }

  /** The catalogue is a dictionary: no key twice, no key holding the payload delimiter, every price positive. */
  lemma CatalogWellFormed()
    ensures forall i, j :: 0 <= i < j < |SUBJECTS| ==> SUBJECTS[i].key != SUBJECTS[j].key
    ensures forall i :: 0 <= i < |SUBJECTS| ==> Lacks(SUBJECTS[i].key, '|') && SUBJECTS[i].price > 0
  {
  }

  /** A key the catalogue knows is a listed key: it holds no delimiter, and its price is positive. */
  lemma KnownKeyWellFormed(k: string)
    requires HasSubject(k)
    ensures Lookup(k).key == k && Lacks(k, '|') && Lookup(k).price > 0
  {
    CatalogWellFormed();
    var i :| 0 <= i < |SUBJECTS| && SUBJECTS[i] == Lookup(k);
  }

  /** Every key listed in the catalogue is found, and found at its own entry. */
  lemma {:induction false} ListedKeysResolve(i: nat)
    requires i < |SUBJECTS|
    ensures HasSubject(SUBJECTS[i].key) && Lookup(SUBJECTS[i].key) == SUBJECTS[i]
  {
    CatalogWellFormed();
    FindFirst(SUBJECTS, i);
  }

  /** With distinct keys, looking up the key of entry `i` finds entry `i`. */
  lemma {:induction false} FindFirst(entries: seq<Subject>, i: nat)
    requires i < |entries|
    requires forall a, b :: 0 <= a < b < |entries| ==> entries[a].key != entries[b].key
    ensures Find(entries, entries[i].key) == Some(entries[i])
  {
    if i > 0 {
      assert entries[0].key != entries[i].key;
      FindFirst(entries[1..], i - 1);
    }
  }

  // ----- keyboards -----

  /** `make_start_keyboard`. */
  function StartKeyboard(): seq<Button> {
    [CallbackButton(BUY_CAPTION, "buy")]
  }

  /** `make_admin_keyboard`. */
  function AdminKeyboard(): seq<Button> {
    [CallbackButton("📣 Рассылка", "admin_broadcast"), CallbackButton("💳 Указать номер карты", "admin_set_card")]
  }

  function SubjectButton(e: Subject): Button {
    CallbackButton(e.title + " — " + DecimalDigits(e.price) + "₽", "subj|" + e.key)
  }

  function SchoolButton(subjectKey: string, school: string): Button {
    CallbackButton(Capitalize(school), "school|" + subjectKey + "|" + school)
  }

  /** `make_subjects_keyboard`: one button per catalogue entry, in order, then back to the start. */
  function SubjectsKeyboard(): seq<Button> {
    seq(|SUBJECTS|, i requires 0 <= i < |SUBJECTS| => SubjectButton(SUBJECTS[i]))
      + [CallbackButton(BACK_CAPTION, "back_start")]
  }

  /** `make_schools_keyboard`: one button per school, in order, then back to the subjects. */
  function SchoolsKeyboard(subjectKey: string): seq<Button> {
    seq(|SCHOOLS|, i requires 0 <= i < |SCHOOLS| => SchoolButton(subjectKey, SCHOOLS[i]))
      + [CallbackButton(BACK_CAPTION, "back_subjects")]
  }

  /** The keyboard of the product screen: a link to the manager, then back to the subjects. */
  function ProductKeyboard(): seq<Button> {
    [UrlButton(CONTACT_MANAGER_CAPTION, "https://t.me/" + MANAGER_USERNAME),
     CallbackButton(BACK_TO_SUBJECTS_CAPTION, "back_subjects")]
  }

  method MakeSubjectsKeyboard() returns (kb: seq<Button>)
    ensures kb == SubjectsKeyboard()
  {
    kb := [];
    for i := 0 to |SUBJECTS|
      invariant |kb| == i
      invariant forall j :: 0 <= j < i ==> kb[j] == SubjectButton(SUBJECTS[j])
    {
      kb := kb + [SubjectButton(SUBJECTS[i])];
    }
    kb := kb + [CallbackButton(BACK_CAPTION, "back_start")];
  }

  method MakeSchoolsKeyboard(subjectKey: string) returns (kb: seq<Button>)
    ensures kb == SchoolsKeyboard(subjectKey)
  {
    kb := [];
    for i := 0 to |SCHOOLS|
      invariant |kb| == i
      invariant forall j :: 0 <= j < i ==> kb[j] == SchoolButton(subjectKey, SCHOOLS[j])
    {
      kb := kb + [SchoolButton(subjectKey, SCHOOLS[i])];
    }
    kb := kb + [CallbackButton(BACK_CAPTION, "back_subjects")];
  }
}
