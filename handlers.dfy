/**
 * The bot's handlers: what each one sends to the Profile API and what it
 * replies. HTTP between bot and API is replaced by direct calls to the
 * endpoint methods; a failed call (`raise_for_status`) ends the handler
 * without a reply.
 */
module Handlers {
  import opened Wrappers
  import opened Strings
  import opened Translations
  import ProfileApi

  type Text = ProfileApi.Text

  /** The sender of an update, as the messaging platform describes it. */
  datatype TelegramUser = TelegramUser(
    id: int,
    username: Text,
    firstName: Text,
    lastName: Text,
    languageCode: Text)

  /** One inline choice: its label and its callback payload. */
  datatype InlineButton = InlineButton(text: string, callbackData: string)

  /** What a handler sends back to the chat. */
  datatype Reply =
    | LanguagePrompt(text: string, choices: seq<InlineButton>)
    | Welcome(text: string, keyboard: ReplyKeyboard)
    | ProfileSummary(title: string, rows: seq<(string, string)>)
    | Plain(text: string)

  const LanguageCallbackPrefix := "set_lang:"

  /** The three languages offered, in the order they are shown. */
  const LanguageCodes: seq<string> := ["en", "ru", "hy"]

  const LanguageButtons: seq<InlineButton> :=
    [InlineButton("English", "set_lang:en"),
     InlineButton("Русский", "set_lang:ru"),
     InlineButton("Հայերեն", "set_lang:hy")]

  /** Python truthiness of an optional string: present and not empty. */
  predicate Truthy(s: Text)
    ensures Truthy(s) <==> s != None && s != Some("")
  {
    s.Some? && s.value != ""
  }

  // ---------------------------------------------------------------------
  // The start command
  // ---------------------------------------------------------------------

  /** The language the start handler uses: the platform's when truthy, else "en". */
  function StartLanguage(u: TelegramUser): (lang: string)
    ensures lang != ""
    ensures lang == DefaultLanguage || u.languageCode == Some(lang)
  {
    if Truthy(u.languageCode) then u.languageCode.value else DefaultLanguage
  }

  /** The body the start handler posts: all five fields, nulls included. */
  function StartRequest(u: TelegramUser): (r: ProfileApi.UserData)
    ensures r.telegramId == u.id
    ensures r.username.Present? && r.firstName.Present? && r.lastName.Present? && r.languageCode.Present?
    ensures r.username.value == u.username && r.firstName.value == u.firstName && r.lastName.value == u.lastName
    ensures r.languageCode.value == Some(StartLanguage(u))
  {
    ProfileApi.UserData(
      u.id,
      ProfileApi.Present(u.username),
      ProfileApi.Present(u.firstName),
      ProfileApi.Present(u.lastName),
      ProfileApi.Present(Some(StartLanguage(u))))
  }

  /**
   * The language prompt shown by the start and settings handlers: the
   * prompt text in `lang`, and one choice per offered language whose
   * payload the language callback accepts and parses to that language.
   */
  function ChooseLanguage(t: Table, lang: Option<string>): (r: Reply)
    ensures r.LanguagePrompt? && r.text == GetTranslatedText(t, "choose_language_text", lang)
    ensures |r.choices| == |LanguageCodes|
    ensures forall i :: 0 <= i < |r.choices| ==>
      ParseLanguageCallback(r.choices[i].callbackData) == Some(LanguageCodes[i])
  {
    LanguageButtonsSelect();
    LanguagePrompt(GetTranslatedText(t, "choose_language_text", lang), LanguageButtons)
  }

  /** `command_start_handler`: create or refresh the record, then offer the languages. */
  method CommandStartHandler(users: ProfileApi.Collection, t: Table, from: TelegramUser)
    returns (reply: Reply)
    requires users.Valid()
    modifies users
    ensures users.Valid()
    ensures users.docs == ProfileApi.Created(old(users.docs), StartRequest(from))
    ensures reply == ChooseLanguage(t, Some(StartLanguage(from)))
  {
    var _ := ProfileApi.CreateUser(users, StartRequest(from));
    reply := ChooseLanguage(t, Some(StartLanguage(from)));
  }

  // ---------------------------------------------------------------------
  // The language callback
  // ---------------------------------------------------------------------

  /**
   * The callback filter and parser: payloads starting `set_lang:` are
   * accepted and give `data.split(":")[1]`; others reach no handler.
   */
  function ParseLanguageCallback(data: string): (r: Option<string>)
    ensures r.Some? <==> StartsWith(data, LanguageCallbackPrefix)
    ensures r.Some? ==> ':' !in r.value
  {
    if StartsWith(data, LanguageCallbackPrefix) then
      assert data[8] == ':' by { assert data[..9][8] == ':'; }
      SplitPiecesHaveNoSeparator(data, ':');
      Some(Split(data, ':')[1])
    else None
  }

  /** The welcome message and the menu, in the chosen language. */
  function WelcomeReply(t: Table, lang: string): (r: Reply)
    ensures r.Welcome? && r.text == GetTranslatedText(t, "welcome_message", Some(lang))
    ensures r.keyboard == KeyboardButtons(t, lang)
  {
    Welcome(GetTranslatedText(t, "welcome_message", Some(lang)), KeyboardButtons(t, lang))
  }

  /** `set_language_handler`: store the chosen language, then welcome with the menu. */
  method SetLanguageHandler(users: ProfileApi.Collection, t: Table, userId: int, data: string)
    returns (reply: Option<Reply>)
    requires users.Valid()
    modifies users
    ensures users.Valid()
    ensures ParseLanguageCallback(data).None? ==> reply.None? && users.docs == old(users.docs)
    ensures ParseLanguageCallback(data).Some? ==>
      var lang := ParseLanguageCallback(data).value;
      && users.docs == ProfileApi.LanguageUpdated(old(users.docs), userId, ProfileApi.UserLanguageUpdate(lang))
      && reply == Some(WelcomeReply(t, lang))
    ensures ParseLanguageCallback(data).Some? && userId !in old(users.docs) ==>
      users.docs == old(users.docs) && reply.Some?
  {
    var lang := ParseLanguageCallback(data);
    if lang.None? {
      return None;
    }
    var _ := ProfileApi.UpdateUserLanguage(users, userId, ProfileApi.UserLanguageUpdate(lang.value));
    reply := Some(WelcomeReply(t, lang.value));
  }

  // ---------------------------------------------------------------------
  // The menu buttons
  // ---------------------------------------------------------------------

  /** The text fields of the JSON object `GET /users/{id}` answers: every one is there, null or not. */
  function ResponseJson(p: ProfileApi.UserProfile): (obj: map<string, Text>)
    ensures obj.Keys == {"username", "first_name", "last_name", "language_code"}
    ensures obj["username"] == p.username && obj["first_name"] == p.firstName
    ensures obj["last_name"] == p.lastName && obj["language_code"] == p.languageCode
  {
    map["username" := p.username, "first_name" := p.firstName,
        "last_name" := p.lastName, "language_code" := p.languageCode]
  }

  /** `obj.get(key, default)`. */
  function JsonGet(obj: map<string, Text>, key: string, default: Text): (r: Text)
    ensures key in obj ==> r == obj[key]
    ensures key !in obj ==> r == default
  {
    if key in obj then obj[key] else default
  }

  /** `current_lang = user_data.get("language_code", "en")`. */
  function CurrentLang(obj: map<string, Text>): (lang: Text)
    ensures "language_code" in obj ==> lang == obj["language_code"]
    ensures "language_code" !in obj ==> lang == Some(DefaultLanguage)
  {
    JsonGet(obj, "language_code", Some(DefaultLanguage))
  }

  /** A profile value, or the "not set" text when it is not truthy. */
  function Shown(value: Text, nullText: string): (r: string)
    ensures Truthy(value) ==> Some(r) == value
    ensures !Truthy(value) ==> r == nullText
    ensures nullText != "" ==> r != ""
  {
    if Truthy(value) then value.value else nullText
  }

  /** The profile fields the summary shows, in order; each is also its label's key. */
  const SummaryFields: seq<string> := ["username", "first_name", "last_name", "language_code"]

  /**
   * The profile summary of `user_button_handler`: the title, then one row
   * per field with its label and its value, or the "not set" text when the
   * value is not truthy; all in the current language.
   */
  function UserSummary(t: Table, obj: map<string, Text>): (r: Reply)
    ensures r.ProfileSummary? && r.title == GetTranslatedText(t, "user_info_title", CurrentLang(obj))
    ensures |r.rows| == |SummaryFields|
    ensures forall i :: 0 <= i < |SummaryFields| ==>
      r.rows[i] == (GetTranslatedText(t, SummaryFields[i], CurrentLang(obj)),
                    Shown(JsonGet(obj, SummaryFields[i], None), GetTranslatedText(t, "null_user", CurrentLang(obj))))
  {
    var lang := CurrentLang(obj);
    var nullText := GetTranslatedText(t, "null_user", lang);
    ProfileSummary(
      GetTranslatedText(t, "user_info_title", lang),
      [(GetTranslatedText(t, "username", lang), Shown(JsonGet(obj, "username", None), nullText)),
       (GetTranslatedText(t, "first_name", lang), Shown(JsonGet(obj, "first_name", None), nullText)),
       (GetTranslatedText(t, "last_name", lang), Shown(JsonGet(obj, "last_name", None), nullText)),
       (GetTranslatedText(t, "language_code", lang), Shown(JsonGet(obj, "language_code", None), nullText))])
  }

  /** The reply of the handler for a handled button, given the fetched profile. */
  function MenuReply(t: Table, key: string, obj: map<string, Text>): (r: Reply)
    ensures key == ButtonUser ==> r == UserSummary(t, obj)
    ensures key == ButtonProjects ==> r == Plain(GetTranslatedText(t, "project_text", CurrentLang(obj)))
    ensures key == ButtonRequest ==> r == Plain(GetTranslatedText(t, "request_btn_text", CurrentLang(obj)))
    ensures key == ButtonSettings ==> r == ChooseLanguage(t, CurrentLang(obj))
  {
    var lang := CurrentLang(obj);
    if key == ButtonUser then UserSummary(t, obj)
    else if key == ButtonProjects then Plain(GetTranslatedText(t, "project_text", lang))
    else if key == ButtonRequest then Plain(GetTranslatedText(t, "request_btn_text", lang))
    else ChooseLanguage(t, lang)
  }

  /**
   * A text message that is not the start command: the first handler whose
   * filter accepts the text fetches the sender's profile and answers; no
   * reply when no filter accepts it or the profile is not found.
   */
  method MenuButtonHandler(users: ProfileApi.Collection, t: Table, userId: int, text: string)
    returns (reply: Option<Reply>)
    requires users.Valid()
    ensures reply.Some? <==> Route(t, text).Some? && userId in users.docs
    ensures reply.Some? ==>
      reply.value == MenuReply(t, Route(t, text).value, ResponseJson(ProfileApi.ToProfile(users.docs[userId])))
  {
    var handler: Option<string> := None;
    var i := 0;
    while i < |HandledButtons| && handler.None?
      invariant 0 <= i <= |HandledButtons|
      invariant handler.None? ==> forall j :: 0 <= j < i ==> !IsLabelFor(t, text, HandledButtons[j])
      invariant handler.Some? ==> handler == Route(t, text)
      decreases |HandledButtons| - i
    {
      var accepted := IsButtonTextForKey(t, text, HandledButtons[i]);
      if accepted {
        FirstLabelledAt(t, text, HandledButtons, i);
        handler := Some(HandledButtons[i]);
      }
      i := i + 1;
    }
    if handler.None? {
      return None;
    }
    var response := ProfileApi.GetUserData(users, userId);
    if response.Err? {
      return None;
    }
    reply := Some(MenuReply(t, handler.value, ResponseJson(response.value)));
  }

  // ---------------------------------------------------------------------
  // Properties
  // ---------------------------------------------------------------------

  /** The start language is the platform's code when truthy, else "en"; never empty. */
  lemma StartLanguageChoice(u: TelegramUser)
    ensures Truthy(u.languageCode) ==> StartLanguage(u) == u.languageCode.value
    ensures !Truthy(u.languageCode) ==> StartLanguage(u) == "en"
    ensures StartLanguage(u) != ""
  {
  }

  /**
   * After the start command the stored profile is exactly the platform's:
   * fields the platform leaves null are cleared, and a language chosen
   * earlier is replaced by the start language.
   */
  lemma StartStoresPlatformProfile(m: ProfileApi.Store, u: TelegramUser)
    requires ProfileApi.Keyed(m)
    ensures ProfileApi.Lookup(ProfileApi.Created(m, StartRequest(u)), u.id)
         == Ok(ProfileApi.UserProfile(u.id, u.username, u.firstName, u.lastName, Some(StartLanguage(u))))
  {
    ProfileApi.CreateThenLookup(m, StartRequest(u));
  }

  /** A payload is accepted exactly when it starts `set_lang:`. */
  lemma LanguageCallbackAccepted(data: string)
    ensures ParseLanguageCallback(data).Some? <==> StartsWith(data, LanguageCallbackPrefix)
  {
  }

  /**
   * The language taken from an accepted payload is the text after the
   * first colon up to the next colon or the end.
   */
  lemma LanguageCallbackSegment(data: string)
    requires StartsWith(data, LanguageCallbackPrefix)
    ensures var rest, lang := data[9..], ParseLanguageCallback(data).value;
      StartsWith(rest, lang) && ':' !in lang && (|lang| == |rest| || rest[|lang|] == ':')
  {
    var rest := data[9..];
    assert data == "set_lang" + [':'] + rest;
    SplitAtFirstSeparator("set_lang", rest, ':');
    FirstPiece(rest, ':');
  }

  /** A language code without a colon survives the trip through a payload. */
  lemma LanguageCallbackRoundTrip(code: string)
    requires ':' !in code
    ensures ParseLanguageCallback(LanguageCallbackPrefix + code) == Some(code)
  {
    var data := LanguageCallbackPrefix + code;
    assert data == "set_lang" + [':'] + code;
    SplitAtFirstSeparator("set_lang", code, ':');
    SplitWithoutSeparator(code, ':');
  }

  /** Each offered button's payload is accepted and selects that button's language. */
  lemma LanguageButtonsSelect()
    ensures |LanguageButtons| == |LanguageCodes|
    ensures forall i :: 0 <= i < |LanguageButtons| ==>
      ParseLanguageCallback(LanguageButtons[i].callbackData) == Some(LanguageCodes[i])
  {
    forall i | 0 <= i < |LanguageButtons|
      ensures ParseLanguageCallback(LanguageButtons[i].callbackData) == Some(LanguageCodes[i])
    {
      assert LanguageButtons[i].callbackData == LanguageCallbackPrefix + LanguageCodes[i];
      LanguageCallbackRoundTrip(LanguageCodes[i]);
    }
  }

  /**
   * The menu handlers read the stored language: the response always has
   * the key, so the "en" default of `get` never applies.
   */
  lemma CurrentLangIsStored(p: ProfileApi.UserProfile)
    ensures CurrentLang(ResponseJson(p)) == p.languageCode
  {
  }

  /** A user with no stored language gets the English texts. */
  lemma NoStoredLanguageReadsEnglish(t: Table, key: string, p: ProfileApi.UserProfile)
    requires p.languageCode.None?
    ensures GetTranslatedText(t, key, CurrentLang(ResponseJson(p))) == GetTranslatedText(t, key, Some(DefaultLanguage))
  {
    CurrentLangIsStored(p);
    NoLanguageIsEnglish(t, key);
  }

  /** After the language callback, the menu handlers of a known user use the chosen language. */
  lemma ChosenLanguageIsCurrent(m: ProfileApi.Store, id: int, lang: string)
    requires ProfileApi.Keyed(m) && id in m
    ensures var m' := ProfileApi.LanguageUpdated(m, id, ProfileApi.UserLanguageUpdate(lang));
      && ProfileApi.Lookup(m', id).Ok?
      && CurrentLang(ResponseJson(ProfileApi.Lookup(m', id).value)) == Some(lang)
  {
    ProfileApi.LanguageUpdateOnlyLanguage(m, id, ProfileApi.UserLanguageUpdate(lang));
  }
}
