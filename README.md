# PracticeBot: profile store and bot handlers

PracticeBot is a Telegram bot backed by a small REST service, the Profile
API, which keeps one MongoDB document per Telegram user (`_id`, `telegram_id`,
`username`, `first_name`, `last_name`, `language_code`). This project models:

- **The Profile API** (`profile_api.dfy`, module `ProfileApi`). The `users`
  collection is the class `Collection`, holding `docs: map<int, Document>`.
  `FindOne` and `UpdateOne` give `find_one({"_id": id})` and
  `update_one({"_id": id}, {"$set": ...}, upsert)` the meaning the endpoints
  rely on. `$set` overwrites only the fields it names. An upsert on a missing
  id inserts a document built from the filter's `_id` plus those fields. Without
  upsert, a missing id is left alone. The endpoints `create_user`,
  `get_user_data` and `update_user_language`, and the helpers `getUser` and
  `updateUser`, are methods over a collection. Each is tied to a function of the
  old collection (`Created`, `Lookup`, `LanguageUpdated`), and the lemmas prove
  the properties of those functions. A request field is a `Slot`: `Absent` when
  the client did not send it (pydantic "unset", dropped by
  `model_dump(exclude_unset=True)`), `Present(None)` when sent as null. A stored
  field has the same shape: it is missing from the document, or present and
  possibly null.
- **String helpers** (`strings.dfy`, module `Strings`). These are Python's
  `startswith` and a split on a one-character separator (`split(":")`), which
  the language-callback filter and parser use. `Join` undoes `Split` (`JoinSplit`). `SplitPiecesHaveNoSeparator`, `SplitWithoutSeparator`, `SplitAtFirstSeparator` and `FirstPiece` describe its pieces.
- **Translations** (`translations.dfy`, module `Translations`). This covers
  `get_translated_text` with its fallback from the locale to `"en"` to `""`,
  and the label scan `is_button_text_for_key` as a loop proved equal to the
  predicate `IsLabelFor`. It also covers the 2×3 menu `keyboard_buttons` and
  `Route`, which gives the handler a text message reaches: the first handler,
  in registration order, whose filter accepts the text. The translation table
  is a parameter, `map<string, map<string, string>>`.
- **Handlers** (`handlers.dfy`, module `Handlers`). The start, language-callback
  and menu-button handlers are methods that call the endpoint methods directly.
  The replies they compose are functions: the language prompt, the welcome
  message with the menu, the profile summary, and the project and request texts.

Facts about the code that the model keeps:

- `update_user_language` accepts any string as the language code, the empty
  string included.
- Get answers every field and sends an unset one as null, so `ResponseJson`
  always carries `language_code`.
- A button label in any locale selects the handler, because the scan covers
  every locale of the key (`RouteAnyLocale`).
- That different buttons have disjoint labels depends on the translation
  table, which is data. It is the hypothesis `ButtonLabelsDisjoint` of the
  routing lemmas.

Three consequences of the code are proved:

- `/start` overwrites the stored profile with the platform's, including a
  language chosen earlier (`StartStoresPlatformProfile`).
- When button labels are disjoint and each button key has an entry for the
  language or for `"en"`, the history and help buttons reach no handler
  (`MenuButtonRoute`). Without disjoint labels, a history label that equals a
  user label reaches the user handler.
- The `"en"` default of `user_data.get("language_code", "en")` never applies,
  because the key is always present. A null language still reads the English
  texts, since the lookup misses and falls back (`CurrentLangIsStored`,
  `NoStoredLanguageReadsEnglish`).

## Model

| member | source | states |
|---|---|---|
| `ProfileApi.Collection.FindOne` | api/main.py:39 | finds a document exactly when one has the id; returns that document, whose `_id` is the id |
| `ProfileApi.Collection.UpdateOne` | api/main.py:45-48 | the new collection is the `$set`/upsert update of the old one; `matched` is true exactly when the id was stored; every document stays under its own `_id` |
| `ProfileApi.GetUser` | api/main.py:37-40 | returns the stored document for the id, or None when there is none |
| `ProfileApi.UpdateUser` | api/main.py:43-48 | applies the update without upsert and discards the outcome |
| `ProfileApi.CreateUser` | api/main.py:51-64 | the collection becomes `Created(old, user)`; the id is now stored; other documents are unchanged; the reply is the fixed message with the request's `telegram_id` in both cases |
| `ProfileApi.GetUserData` | api/main.py:67-75 | fails with NotFound exactly when no document has the id; otherwise returns the stored fields with `telegram_id` equal to the id |
| `ProfileApi.UpdateUserLanguage` | api/main.py:78-84 | the collection becomes `LanguageUpdated(old, id, body)`; it is unchanged when the id is absent; the reply is the same message either way |
| `ProfileApi.Overwrite` | api/main.py:60 | `$set` on one field: a field named in the update replaces the stored one; an unnamed one stays |
| `ProfileApi.ApplySet` | api/main.py:58-62 | a field named in the `$set` replaces the stored one; unnamed fields and `_id` stay |
| `ProfileApi.Blank` | api/main.py:58-62 | the document an upsert starts from: the filter's `_id` with no other field |
| `ProfileApi.Created` | api/main.py:51-64 | the store after create: the id is added to the keys, other documents are unchanged, and the id's document has `telegram_id` equal to the id |
| `ProfileApi.LanguageUpdated` | api/main.py:78-84 | the store after update-language: no key is added or removed; other documents are unchanged; an absent id leaves the store as it was; a stored id gets the new `language_code` |
| `ProfileApi.ApplyUpdate` | api/main.py:45-48 | `update_one` with `$set`: the key set gains the id only with upsert; other documents are unchanged; the id's document is its old one, or the filter's `_id` alone, with the `$set` applied |
| `ProfileApi.CreateSet` | api/main.py:55-56 | `model_dump(exclude_unset=True)`: `telegram_id` is always set; each other field is in the `$set` exactly when the client sent it, with the value sent |
| `ProfileApi.LanguageSet` | api/main.py:82 | the `$set` names only `language_code`, set to the given code |
| `ProfileApi.ToProfile` | api/main.py:74-75 | `telegram_id` is taken from `_id`; each field is its stored value, and a field missing from the document reads as null |
| `ProfileApi.Lookup` | api/main.py:69-75 | NotFound with status 404 exactly when no document has the id; otherwise the document read as a profile |
| `ProfileApi.UpdateKeepsKeyed` | api/main.py:45-48 | no update moves a document away from its own `_id` |
| `ProfileApi.CreateInsertsNew` | api/main.py:55-62 | create on an unknown id adds exactly that id; the new document has `_id` and `telegram_id` equal to it and holds the fields as sent, with unsent fields missing; other documents are unchanged |
| `ProfileApi.CreateMergesExisting` | api/main.py:55-62 | create on a known id adds no id; each field sent replaces the stored one, null included; each unsent field keeps its value; other documents are unchanged |
| `ProfileApi.CreateThenLookup` | api/main.py:55-75 | Get after create answers each field as sent, else the earlier stored value, else null |
| `ProfileApi.CreateStoresExplicitNull` | api/main.py:55 | each of the four text fields sent as null is stored as null and read back as null |
| `ProfileApi.ApplySetIdempotent` | api/main.py:60 | `$set` with the same fields twice equals once |
| `ProfileApi.UpdateIdempotent` | api/main.py:45-48 | the same update, with or without upsert, applied twice equals once |
| `ProfileApi.CreateIdempotent` | api/main.py:58-62 | create twice with the same body leaves the store that create once does |
| `ProfileApi.LookupNotFound` | api/main.py:69-72 | Get fails exactly when no document has the id, and then with status 404 |
| `ProfileApi.LookupFound` | api/main.py:69-75 | Get on a stored id returns its fields, a missing field as null, with `telegram_id` copied from `_id` |
| `ProfileApi.LanguageUpdateOnlyLanguage` | api/main.py:78-84 | update-language on a known id changes only that document's `language_code`; no id is added or removed; other documents are unchanged |
| `ProfileApi.LanguageUpdateAbsentNoop` | api/main.py:43-48 | update-language on an unknown id leaves the store unchanged, and Get still fails |
| `ProfileApi.CreateLanguageCreateScenario` | api/main.py:51-84 | create {42, "ann"}, set language "ru", create {42, first name "Anna"}: each Get shows the merged record |
| `Strings.StartsWith` | bot/bot.py:92 | `startswith`: the prefix fits and matches the string character by character, and the string is the prefix followed by the rest |
| `Strings.Split` | bot/bot.py:94 | a split always has at least one piece, and at least two when the separator occurs |
| `Strings.JoinSplit` | bot/bot.py:94 | joining the pieces of a split with the separator restores the string |
| `Strings.SplitPiecesHaveNoSeparator` | bot/bot.py:94 | no piece contains the separator |
| `Strings.SplitWithoutSeparator` | bot/bot.py:94 | a string without the separator is its own single piece |
| `Strings.SplitAtFirstSeparator` | bot/bot.py:94 | the text before the first separator is the first piece; the rest splits on its own |
| `Strings.FirstPiece` | bot/bot.py:94 | the first piece is the longest prefix without the separator |
| `Translations.GetTranslatedText` | bot/bot.py:27-30 | the locale's entry wins when the key has it; otherwise the result is some locale's entry for the key, or `""`; an unknown key gives `""` |
| `Translations.TranslatedTextFallback` | bot/bot.py:27-29 | the lookup gives the locale's entry, else the `"en"` entry, else `""`; an unknown key gives `""` |
| `Translations.NoLanguageIsEnglish` | bot/bot.py:27-29 | looking up with None as the locale equals looking up `"en"` |
| `Translations.TranslatedTextIsLabel` | bot/bot.py:27-37 | when the key has the locale or `"en"`, the looked-up text is one of the key's labels |
| `Translations.IsButtonTextForKey` | bot/bot.py:32-37 | true exactly when some locale's text under the key equals the message; false for a key not in the table |
| `Translations.KeyboardButtons` | bot/bot.py:41-56 | two rows of three buttons in the order user, history, projects / settings, request, help; each label is the key's text for the language; the keyboard resizes |
| `Translations.FirstLabelled` | bot/bot.py:111-172 | returns a key the text labels, with no earlier key labelled by the text; None exactly when the text labels none of the keys |
| `Translations.Route` | bot/bot.py:111-172 | the text reaches a handled button's handler only when it is one of that button's labels and no handler registered before accepts it; no handler exactly when it labels no handled button |
| `Translations.LabelOfOneButton` | bot/bot.py:32-37 | with disjoint labels, a text labels at most one button |
| `Translations.RouteExact` | bot/bot.py:111-172 | with disjoint labels, a text reaches a handled button's handler exactly when it is one of that button's labels |
| `Translations.RouteAnyLocale` | bot/bot.py:34-36 | with disjoint labels, a handled button's label in any locale selects that button's handler |
| `Translations.MenuButtonRoute` | bot/bot.py:41-56 | with disjoint labels and an entry for the key in the language or `"en"`, a menu button built for the language reaches its own handler, and history and help reach none |
| `Handlers.CommandStartHandler` | bot/bot.py:58-90 | posts all five fields, with the start language; the store becomes `Created(old, StartRequest(from))`; replies with the language prompt in the start language |
| `Handlers.SetLanguageHandler` | bot/bot.py:92-109 | a payload not starting `set_lang:` changes nothing and gets no reply; otherwise the store becomes `LanguageUpdated(old, id, lang)` with the parsed language (unchanged when the sender has no record), and the welcome with the menu comes in that language either way |
| `Handlers.MenuButtonHandler` | bot/bot.py:111-196 | replies exactly when the text reaches a handler and the sender's record exists; the reply is that handler's, built from the fetched profile |
| `Translations.FirstLabelledAt` | bot/bot.py:111-172 | the handler chosen is the first in registration order whose filter accepts the text |
| `Handlers.StartLanguage` | bot/bot.py:64 | never empty; either `"en"` or the platform's language code |
| `Handlers.StartRequest` | bot/bot.py:66-72 | all five fields are sent, none left unset: the platform's id, names and nulls as they are, and the start language |
| `Handlers.ChooseLanguage` | bot/bot.py:78-90 | the prompt text in the given language, with three choices whose payloads the callback accepts and parses to `en`, `ru` and `hy` |
| `Handlers.ParseLanguageCallback` | bot/bot.py:92-94 | a language exactly for payloads starting `set_lang:`; the language never contains a colon |
| `Handlers.WelcomeReply` | bot/bot.py:104-107 | the welcome text in the chosen language and exactly the keyboard `keyboard_buttons(lang)` builds: 2×3, labelled in that language, resizing |
| `Handlers.ResponseJson` | api/main.py:67-75 | the Get response carries all four text fields, each with the stored value or null |
| `Handlers.CurrentLang` | bot/bot.py:121 | the response's `language_code` when the key is present, `"en"` only when it is missing |
| `Handlers.Truthy` | bot/bot.py:64 | Python truthiness of an optional string: neither None nor empty |
| `Handlers.JsonGet` | bot/bot.py:121-126 | `dict.get`: the value under the key when present, else the default |
| `Handlers.Shown` | bot/bot.py:132-135 | `x if x else null_text`: the value when truthy, else the "not set" text; never empty when that text is not |
| `Handlers.UserSummary` | bot/bot.py:121-136 | the title, then username, first name, last name and language rows, each with its label and value or the "not set" text when the value is not truthy, all in the current language |
| `Handlers.MenuReply` | bot/bot.py:121-196 | the user button gives the profile summary, projects and request give their texts, settings gives the language prompt, all in the current language |
| `Handlers.StartLanguageChoice` | bot/bot.py:64 | the start language is the platform code when truthy, else `"en"`; it is never empty |
| `Handlers.StartStoresPlatformProfile` | bot/bot.py:60-76 | after `/start`, Get returns exactly the platform's fields, nulls included, with the start language, whatever was stored before |
| `Handlers.LanguageCallbackAccepted` | bot/bot.py:92 | a callback is handled exactly when its payload starts `set_lang:` |
| `Handlers.LanguageCallbackSegment` | bot/bot.py:94 | the chosen language is the text after the first colon up to the next colon or the end |
| `Handlers.LanguageCallbackRoundTrip` | bot/bot.py:80-94 | `set_lang:` followed by a colon-free code parses back to that code |
| `Handlers.LanguageButtonsSelect` | bot/bot.py:80-82 | there are three buttons, for English, Russian and Armenian, and their payloads select `en`, `ru` and `hy` |
| `Handlers.CurrentLangIsStored` | bot/bot.py:121 | the menu handlers' current language is the stored one, null included; the `"en"` default never applies |
| `Handlers.NoStoredLanguageReadsEnglish` | bot/bot.py:121-128 | with no stored language, every text is looked up as for `"en"` |
| `Handlers.ChosenLanguageIsCurrent` | bot/bot.py:97-121 | after a known user picks a language, the menu handlers read that language |

## Left out

- HTTP between bot and API (`httpx`, URLs, JSON encoding) is replaced by direct calls to the endpoint methods. `raise_for_status` is modelled only as "a failed call ends the handler without a reply".
- aiogram internals are not modelled: polling, dispatch, and which texts its `CommandStart` filter takes for the start command. `MenuButtonHandler` covers the other text messages, checked against the button handlers in registration order.
- The effects of `edit_reply_markup(None)` and `callback.answer()` inside the language callback are not modelled. They are messaging I/O.
- The MongoDB client, the connection string, the database choice, and per-document atomicity under concurrent requests are not modelled.
- ProfileApi.CreateUser: ids are unbounded integers. The driver refuses an `_id` outside the signed 64-bit range [-2^63, 2^63) with an OverflowError, so the endpoint answers a server error. The model instead stores the record.
- ProfileApi.GetUserData: for an id outside the signed 64-bit range the driver fails with a server error. The model answers NotFound.
- ProfileApi.UpdateUserLanguage: for an id outside the signed 64-bit range the driver fails with a server error. The model changes nothing and answers the usual message.
- FastAPI routing and pydantic validation are not modelled. A request is assumed well typed: an integer `telegram_id` and string or null fields. Validation errors (HTTP 422) and storage unavailability are not modelled.
- The `$set` of `_id` in create is not represented. It sets `_id` to the id it filters on, which changes nothing.
- `load_translations` (reading the JSON file into a global), `load_dotenv`/`os.getenv`, the unused `google.genai` import, and `main()` are not modelled. The table is a parameter of every function that reads it.
- The `str.format(**kwargs)` in `get_translated_text` is not modelled. No call passes arguments, so the model returns the looked-up text. Brace escapes and the error on a placeholder are not captured.
- The profile summary is modelled as its title and its four (label, value) rows. The f-string line layout, with its colons and newlines, is not modelled.
- `ResponseJson` holds only the four text fields of the Get response. The handlers never read `telegram_id`.
- The class `UserUpdateData` is declared in api/main.py but no endpoint uses it.
- The translation table's contents are not part of this model. That different buttons have disjoint labels is a hypothesis of the routing lemmas, not a proved fact.
