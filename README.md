# SlivOSH bot, modelled in Dafny

The bot sells access to exam-preparation courses in Telegram. A visitor
sends `/start`, is registered in the `users` table, and walks an inline
menu: subjects, then a program ("school") of that subject, then a product
screen showing the price and the payment details (card number and recipient
name) stored in the `settings` table. The single administrator (`ADMIN_ID`)
has a panel with two conversations driven by a finite-state machine:

- A broadcast. The administrator asks for a broadcast and sends a text. The
  text is cut to 4000 characters and shown as a preview. On confirmation it
  is sent to every registered user, and the administrator gets a report of
  how many sends went through and how many failed.
- Setting payment details. The administrator sends a card number, then a
  recipient name. Both are stripped of surrounding whitespace and stored.

Anything else gets a polite fallback, except unknown `/commands`, which are
ignored.

The model has these modules, one per concern of `main.py`:

| module | file | what it holds |
|---|---|---|
| `Wrappers` | wrappers.dfy | `Option` |
| `Strings` | strings.dfy | Python's `str.strip`, `str.split(sep, maxsplit)`, slicing `[:n]`, `str.capitalize` (ASCII Latin and basic Cyrillic) and `str(int)` |
| `Platform` | platform.dfy | inline buttons, the exceptions a handler can raise, and the effects a handler has on Telegram (`Reply`, `Respond`, `AnswerCallback`, `Send`, `Edit`, `Raised`) |
| `Store` | store.dfy | the SQLite database as a class `Database` with a `settings` map and a `users` map, updated in place by its methods |
| `Catalog` | catalog.dfy | `SUBJECTS`, `SCHOOLS` and the four keyboards, as specification functions plus the loops that build them |
| `Menu` | menu.dfy | the five stateless callback handlers as a transition table over screens, and what each screen shows |
| `Broadcast` | broadcast.dfy | the send loop of the broadcast, with its counters |
| `Conversation` | conversation.dfy | the administrator's FSM state, the update router, and the state transitions |
| `Handlers` | bot.dfy | the bot as a class holding the database and the per-user FSM storage, with one method per handler and the dispatcher `Handle` |
| `Scenarios` | scenarios.dfy | multi-update runs of the bot: setting payment details and seeing them on the product screen, and preparing, cancelling or confirming a broadcast |

The model rests on these facts and assumptions:

- **Routing.** aiogram tries handlers in registration order and takes the first
  whose filters pass. A handler registered without `state=` fires only when
  the sender has no FSM state. A message handler without `content_types`
  fires only for text. The `commands=` filter compares the first word after
  `/`, cut at whitespace or `@`. `Conversation.Route` states this default
  state filter explicitly. Under it, a text sent while a text is awaited is
  always that text, even `/start`.
- **FSM storage.** The storage is `MemoryStorage`, keyed per user in private
  chats. `state.finish()` clears both the state and its data. In the model a
  session is a map from user id to `AdminState`, and a missing entry means
  no state. Only the administrator can ever enter a state, which
  `Handlers.Bot.Valid` records.
- **Stored drafts.** The broadcast draft and the pending card number are kept
  inside the state they belong to. `data.get(key, '')` becomes `DraftText`
  or `PendingCard`, which return `""` in any other state.
- **User order.** `SELECT user_id FROM users` on an `INTEGER PRIMARY KEY`
  table returns the ids in ascending order. The model lists them by
  `Store.AscendingIds`.
- **Failed sends.** Which sends of a broadcast fail is up to Telegram, so the
  set of failing ids is a parameter.
- **Timestamp.** The registration timestamp is a parameter `now`.
- **Exceptions.** A menu payload whose subject is unknown, or whose split
  gives the wrong number of pieces, raises in the source. The model records
  this as a `Raised(KeyError …)` or `Raised(UnpackError …)` effect.

The `back_start` callback redraws the start keyboard under a shortened
welcome text: the opening paragraph followed by `...`. The model keeps that
text as the code has it, although a reader might expect `/start`'s full
text; `Menu.BackStartShortensWelcome` states the difference.

## Model

| member | source | states |
|---|---|---|
| Store.Seeded | main.py:81-83 | the two payment keys are present afterwards; existing values are untouched; a missing key gets its placeholder (`INSERT OR IGNORE`) |
| Store.SeededIdempotent | main.py:63-85 | running `init_db` again (every restart) changes nothing further |
| Store.Database.constructor | main.py:63-80 | a fresh database has empty `settings` and `users` tables |
| Store.Database.InitDb | main.py:63-85 | settings become `Seeded(old settings)` and users are unchanged |
| Store.Database.SetSetting | main.py:88-93 | `REPLACE` semantics: the key now reads back as the value, every other key reads as before, users unchanged |
| Store.Database.GetSetting | main.py:96-102 | the stored value, or `""` when the key is missing |
| Store.Database.AddUser | main.py:105-112 | the sender's row is replaced by a fresh row; nothing else changes |
| Store.RowOf | main.py:108-110 | the row written for a user: each name as given, a missing one as `""` (`or ''`), and the registration time |
| Store.RegistrationKeepsOneRowPerId | main.py:105-112 | re-registration keeps the row count; a new id adds exactly one row; each missing name is stored as `""` (`or ''`) |
| Store.Database.AllUserIds | main.py:115-121 | the ids of the users table in ascending order |
| Store.AscendingIdsSorted | main.py:115-121 | the id list has one entry per user, is strictly increasing, and holds exactly the registered ids |
| Store.RegisteredIdListedOnce | main.py:105-121 | however often a user registered, the id list holds them exactly once |
| Catalog.Find | main.py:124-133 | `SUBJECTS[key]`: a found entry has that key; `None` (a `KeyError`) only when no entry has it |
| Catalog.CatalogWellFormed | main.py:124-133 | the catalogue keys are distinct and hold no payload delimiter, and every price is positive |
| Catalog.KnownKeyWellFormed | main.py:124-133 | a key the catalogue knows resolves to its own entry, holds no payload delimiter, and has a positive price |
| Catalog.ListedKeysResolve | main.py:124-133 | each listed key looks up its own entry |
| Catalog.FindFirst | main.py:124-133 | with distinct keys, the lookup of entry i's key returns entry i |
| Catalog.MakeSubjectsKeyboard | main.py:155-160 | the loop builds one button per subject, in catalogue order, then the back button to `back_start` |
| Catalog.MakeSchoolsKeyboard | main.py:163-168 | the loop builds one capitalized button per school, in order, then the back button to `back_subjects` |
| Menu.Navigate | main.py:189-237 | `buy` and `back_subjects` lead to the subject list and `back_start` alone to the welcome; a subject payload leads to the programs of the key after the prefix, or raises `KeyError` for an unknown key; a school payload without a second delimiter raises on unpacking, and otherwise leads to the product of the key up to that delimiter and the school after it, or raises `KeyError`; only subject and school payloads raise; every screen reached is valid |
| Menu.OpenSubject | main.py:195-200 | `process_subject`: the programs of the key after the subject prefix, or `KeyError` of that key when the catalogue lacks it |
| Menu.OpenSchool | main.py:202-206 | `process_school`: with no second delimiter the unpacking raises; otherwise the product of the key up to it and the school after it, or `KeyError` of that key |
| Menu.SplitSubjectPayload | main.py:198 | a one-cut split of a subject payload gives the prefix and the whole rest |
| Menu.SplitSchoolPayload | main.py:205 | a two-cut split of a school payload gives the prefix, the text up to the next delimiter and everything after it, or two pieces when there is no second delimiter |
| Menu.SubjectPayloadRoundTrip | main.py:195-200 | the subject payload of key `k` splits back into `k`: the programs of `k`, or `KeyError(k)` |
| Menu.SchoolPayloadRoundTrip | main.py:202-206 | the school payload of `(k, s)` splits back into `(k, s)` for a delimiter-free `k`, even when `s` holds the delimiter |
| Menu.SchoolPayloadWithoutProgram | main.py:205 | a school payload with one delimiter fails to unpack into three names |
| Menu.Render | main.py:189-237 | each screen has buttons, and the product screen's text contains the card number and recipient name it is drawn with |
| Menu.ProductScreenShowsEntry | main.py:206-216 | the product screen of a known subject names its course title and the school, and gives its price in decimal |
| Menu.MenuEffects | main.py:189-237 | after acknowledging, a menu handler does exactly one thing: it edits the message into the rendered screen, text and keyboard both, or raises the outcome's error; a product screen shows both payment details |
| Menu.StartButtonOpensSubjects | main.py:149-152 | the start keyboard's one button is a callback that opens the subject list |
| Menu.SubjectButtonLeads | main.py:155-160 | each subject button opens that subject's programs, and the back button the welcome |
| Menu.SchoolButtonLeads | main.py:163-168 | each school button of a known subject opens that product, and the back button the subject list |
| Menu.MenuButtonsLeadWhereMeant | main.py:149-237 | every callback button drawn on a menu screen carries a payload some menu handler accepts, and it opens the intended screen without raising |
| Menu.SchoolPressShowsPaymentDetails | main.py:202-221 | pressing a school button of a known subject edits the message into a text that contains both payment details |
| Menu.BackStartShortensWelcome | main.py:229-237 | `back_start` shows the start keyboard under a text that differs from `/start`'s: its opening followed by `...` |
| Strings.Strip | main.py:312 | the result has no whitespace at either end and is the part of the input between its leading and trailing whitespace |
| Strings.StripOfPadded | main.py:312-322 | whitespace around a text with non-blank ends is removed exactly |
| Strings.StripIdempotent | main.py:322 | stripping twice is stripping once |
| Strings.Split | main.py:198-205 | at most `maxsplit + 1` pieces; joining them gives back the input; every piece but the last is free of the separator |
| Strings.SplitTwo | main.py:198 | `a`, the delimiter, then `b`, with `a` free of the delimiter, splits once into `[a, b]` |
| Strings.SplitThree | main.py:205 | `a`, `b` and `c` joined by the delimiter, with `a` and `b` free of it, split twice into `[a, b, c]` |
| Strings.SplitTwiceAfter | main.py:205 | two cuts of a delimiter-free prefix, the delimiter and a rest give the prefix and then one cut of the rest: the rest alone when it holds no delimiter, else the parts before and after its first delimiter |
| Strings.Take | main.py:261 | `[:n]`: a prefix of the input, of length `min(n, len)`, and the whole input when it is short enough |
| Strings.Capitalize | main.py:166 | first character upper case, the rest lower case, same length |
| Strings.CapitalizeIdempotent | main.py:166 | capitalizing twice is capitalizing once |
| Strings.DecimalDigits | main.py:212 | `str(n)`: decimal digits without leading zero that denote `n` |
| Broadcast.Attempts | main.py:286-288 | one send per id, in list order, each carrying the text |
| Broadcast.ReportDeterminesCounts | main.py:295 | the final report tells the counts apart: two reports read alike only for the same sent and failed counts |
| Broadcast.DeliveryPartitions | main.py:286-294 | every attempted id is counted once, as delivered or as failed, by whether its send raises |
| Broadcast.Dispatch | main.py:283-295 | the loop attempts every id once in order; `sent` counts the delivered ids and `failed` the failing ones; together they count the ids |
| Broadcast.ThirdOfFiveFails | main.py:284-295 | five recipients with the third unreachable give 4 sent and 1 failed |
| Conversation.CommandOf | main.py:178 | a command exists exactly when the text starts with `/`; it is the whole first word after `/`, cut at whitespace or `@` |
| Conversation.Route | main.py:178-336 | the first matching handler. The text handlers fire exactly in their state on a text message, and the decision handler exactly on confirm or cancel while awaiting confirmation. Stateless handlers fire only with no state. With no state, a message reaches `cmd_start` exactly when its command is `start`, `cmd_admin` exactly when it is `admin`, and the fallback otherwise; a button press reaches a menu handler exactly for a menu payload, the two admin handlers exactly for their own payloads, and no handler for any other data; a button press never reaches a message handler |
| Conversation.RouteIdleMessage | main.py:178-336 | with no state, a text message reaches `cmd_start` exactly for the `start` command, `cmd_admin` exactly for `admin`, and the catch-all otherwise |
| Conversation.RouteIdleCallback | main.py:189-305 | with no state, a button press reaches a menu handler exactly for a menu payload, `admin_broadcast` and `admin_set_card` exactly for their own data, and no handler at all for any other data; it never reaches a message handler or a state-bound handler |
| Conversation.SchoolPayloadRoutes | main.py:202 | any callback whose data starts with the school prefix, sent with no state, goes to `process_school` |
| Conversation.NextState | main.py:254-328 | the admin conversation steps: confirm, cancel and the recipient name end in no state; only the six admin conversation handlers change the state; a consistent state stays consistent (a draft within 4000 characters, a stripped card number) |
| Conversation.RunKeepsConsistent | main.py:261-315 | whatever the administrator sends, a stored draft never exceeds 4000 characters and a stored card number is always stripped |
| Conversation.DraftReadsBack | main.py:280-281 | `DraftText`, the `get('broadcast_text', '')` read, gives back the truncated text the text handler stored, and `""` where no draft is stored |
| Conversation.PendingCardReadsBack | main.py:323-324 | `PendingCard`, the `get('card_number', '')` read, gives back the stripped card number the card handler stored, and `""` where none is stored |
| Conversation.AdminPanelOpensConversations | main.py:171-175 | the admin panel's two buttons reach `admin_broadcast` and `admin_set_card` and start waiting for the broadcast text and the card number |
| Conversation.AwaitedTextSwallowsCommands | main.py:256-328 | while a text is awaited, no text reaches `/start`, `/admin` or the fallback, and the state moves on |
| Conversation.BroadcastDraftIsTruncatedText | main.py:261-267 | the kept draft is the text when it has at most 4000 characters, and otherwise its first 4000 characters |
| Conversation.BroadcastFlowReturnsToIdle | main.py:247-296 | admin_broadcast then a text awaits confirmation of the truncated text; confirm or cancel then returns to no state |
| Conversation.PaymentFlowReturnsToIdle | main.py:298-328 | admin_set_card then a card number holds the stripped number; a name then returns to no state |
| Handlers.AttemptsReachEachOnce | main.py:283-288 | over a strictly increasing id list, every id is sent the text, only those ids are, and no id twice |
| Handlers.ConfirmReachesEveryUserOnce | main.py:280-295 | confirming sends the draft to every registered user exactly once and to nobody else; sent plus failed is the number of users |
| Handlers.Bot.constructor | main.py:58-60 | the bot starts with no FSM state for anyone |
| Handlers.Bot.CmdStart | main.py:178-187 | registers the sender (settings untouched) and answers the welcome with the start keyboard |
| Handlers.Bot.MenuCallback | main.py:189-237 | acknowledges the press, then edits the message into the payload's screen, drawn with the current payment settings, or raises |
| Handlers.Bot.Draw | main.py:189-237 | the drawn text and keyboard are the screen's rendering with the settings as stored |
| Handlers.Bot.CmdAdmin | main.py:240-245 | the administrator gets the panel; anyone else gets "Доступ запрещён." |
| Handlers.Bot.AdminBroadcast | main.py:247-254 | a non-admin gets an alert and no state; the administrator is asked for the text and awaits it |
| Handlers.Bot.ReceiveBroadcastText | main.py:256-267 | a non-admin is refused; the administrator gets the preview of the text cut to 4000 characters and awaits confirmation with that draft |
| Handlers.Bot.BroadcastDecision | main.py:269-296 | a non-admin gets an alert; cancel clears the state and tells the administrator; confirm sends the stored draft to every user in id order and reports the counts, then clears the state |
| Handlers.Bot.AdminSetCard | main.py:298-305 | a non-admin gets an alert and no state; the administrator is asked for the card number and awaits it |
| Handlers.Bot.ReceiveCardNumber | main.py:307-315 | a non-admin is refused; the administrator's stripped text is kept as the pending card number and the name is asked for |
| Handlers.Bot.ReceiveRecipientFio | main.py:317-328 | a non-admin is refused and nothing is stored; for the administrator the pending card and the stripped name are stored, confirmed back, and the state is cleared |
| Handlers.Bot.CatchAll | main.py:331-336 | silent exactly for a text starting with `/`; otherwise the "not recognised" reply |
| Handlers.Bot.Handle | main.py:178-336 | one update: the routed handler's effects; the administrator's state follows `NextState`; a non-admin's state never changes; users change only on `/start`, settings only on the administrator's name message; only the administrator ever holds a state |
| Scenarios.SetPaymentDetails | main.py:298-328 | after admin_set_card, a card number and a name, the stored settings are the stripped card and name, users are unchanged, and the administrator has no state |
| Scenarios.SchoolPressRoutes | main.py:202 | a school button pressed with no state set is dispatched to `process_school` |
| Scenarios.OpenProductScreen | main.py:202-221 | a buyer's press of a school button shows a product text that contains both stored payment details |
| Scenarios.PaymentDetailsReachBuyers | main.py:202-328 | after the administrator sets the details, a buyer's product screen shows the stripped card and name |
| Scenarios.PrepareBroadcast | main.py:247-267 | admin_broadcast then a text leaves the administrator awaiting confirmation of the truncated text, and nobody but the administrator is messaged |
| Scenarios.CancelledBroadcastReachesNoUser | main.py:269-278 | cancelling messages only the administrator, last with "Отменено.", and clears the state |
| Scenarios.ConfirmedBroadcastReachesEveryUser | main.py:279-296 | confirming sends (attempts to deliver) the truncated text to every registered user; any send to someone other than the administrator goes to a user and carries the draft |

## Left out

- Telegram itself: the network, aiogram's `Bot`, `Message` and `CallbackQuery` objects, the Markdown parse mode, and the row layout of keyboards. Handlers produce effect values instead.
- Send failures outside the broadcast loop: only the broadcast catches them, and elsewhere aiogram logs them. Platform errors such as "message is not modified" are not modelled.
- `asyncio.sleep(0.05)` between sends, and all concurrency. Overlapping updates, such as a double press of "confirm" while a broadcast is running, are not modelled. Each update runs to completion.
- SQLite mechanics: connections, commits, and the file `DB_FILE`. The tables are maps.
- `datetime.utcnow().isoformat()`: the timestamp is a parameter.
- Configuration loading, logging, `print` and `executor.start_polling`: start-up plumbing with no behaviour to prove.
- `PurchaseStates` (main.py:143-145): declared, but no handler uses it.
- Conversation.CommandOf: does not model the case-insensitive comparison of command names or the check that an `@mention` names this bot. Both only matter for texts the bot's own users are unlikely to send. It also reads a command only when `/` is the first character, where aiogram skips leading whitespace; Telegram trims incoming message texts, so a text with leading whitespace does not arrive.
- Strings.Capitalize: case mapping covers ASCII Latin and basic Cyrillic letters only; letters such as `é` or `À` keep their case, which covers the school names. Full Unicode case tables are not modelled.
- Chats are identified with users: the bot serves private chats, where the chat id is the user id.
- The scenarios call the handler that `Handle` routes to, after stating that routing with `Dispatched` (and `Scenarios.SchoolPressRoutes`), instead of calling `Handle` itself. This keeps each proof small, and `Handle`'s contract states the same effects per handler.
