/**
 * The bot's translation table and what is built from it: the lookup with
 * its fallbacks, the test whether a message is the label of a button, the
 * persistent menu, and the choice of menu handler for a message.
 *
 * The table (`translations_data`, loaded once from a JSON file) is a
 * parameter: key, then locale, to text.
 */
module Translations {
  import opened Wrappers

  type Table = map<string, map<string, string>>

  /** The locale every lookup falls back to, and the bot's default language. */
  const DefaultLanguage := "en"

  const ButtonUser := "button_user"
  const ButtonHistory := "button_history"
  const ButtonProjects := "button_projects"
  const ButtonSettings := "button_settings"
  const ButtonRequest := "button_request"
  const ButtonHelp := "button_help"

  /** The menu: two rows of three buttons, by key. */
  const MenuLayout: seq<seq<string>> :=
    [[ButtonUser, ButtonHistory, ButtonProjects],
     [ButtonSettings, ButtonRequest, ButtonHelp]]

  /** The button keys that have a message handler, in the order they are registered. */
  const HandledButtons: seq<string> := [ButtonUser, ButtonProjects, ButtonRequest, ButtonSettings]

  /** The six button keys of the menu. */
  const ButtonKeys: set<string> :=
    {ButtonUser, ButtonHistory, ButtonProjects, ButtonSettings, ButtonRequest, ButtonHelp}

  /**
   * `get_translated_text(key, lang_code)`: the entry for the locale, else the
   * English entry, else "". `lang` is None where the caller passes Python's
   * None, which is never a locale of the table.
   */
  function GetTranslatedText(t: Table, key: string, lang: Option<string>): (r: string)
    ensures key in t && lang.Some? && lang.value in t[key] ==> r == t[key][lang.value]
    ensures r == "" || (key in t && exists locale :: locale in t[key] && t[key][locale] == r)
    ensures key !in t ==> r == ""
  {
    var entries := if key in t then t[key] else map[];
    if lang.Some? && lang.value in entries then entries[lang.value]
    else if DefaultLanguage in entries then entries[DefaultLanguage]
    else ""
  }

  /** `text` is some locale's label for `key`. */
  predicate IsLabelFor(t: Table, text: string, key: string)
  {
    key in t && exists locale :: locale in t[key] && t[key][locale] == text
  }

  /** `is_button_text_for_key`: scans the key's translations for the message text. */
  method IsButtonTextForKey(t: Table, messageText: string, key: string) returns (found: bool)
    ensures found <==> IsLabelFor(t, messageText, key)
  {
    var translations := if key in t then t[key] else map[];
    var remaining := translations.Values;
    while remaining != {}
      invariant remaining <= translations.Values
      invariant forall v :: v in translations.Values && v !in remaining ==> v != messageText
      decreases remaining
    {
      var translated :| translated in remaining;
      if translated == messageText {
        return true;
      }
      remaining := remaining - {translated};
    }
    assert messageText !in translations.Values;
    return false;
  }

  /** `ReplyKeyboardMarkup(keyboard=rows, resize_keyboard=...)`. */
  datatype ReplyKeyboard = ReplyKeyboard(rows: seq<seq<string>>, resize: bool)

  /** `keyboard_buttons(lang_code)`: the menu, each button labelled in `lang`. */
  function KeyboardButtons(t: Table, lang: string): (kb: ReplyKeyboard)
    ensures kb.resize
    ensures |kb.rows| == |MenuLayout|
    ensures forall i :: 0 <= i < |MenuLayout| ==> |kb.rows[i]| == |MenuLayout[i]|
    ensures forall i, j :: 0 <= i < |MenuLayout| && 0 <= j < |MenuLayout[i]| ==>
      kb.rows[i][j] == GetTranslatedText(t, MenuLayout[i][j], Some(lang))
  {
    var labelOf := (key: string) => GetTranslatedText(t, key, Some(lang));
    ReplyKeyboard(
      [[labelOf(ButtonUser), labelOf(ButtonHistory), labelOf(ButtonProjects)],
       [labelOf(ButtonSettings), labelOf(ButtonRequest), labelOf(ButtonHelp)]],
      true)
  }

  /** The first of `keys` that `text` is a label of. */
  function FirstLabelled(t: Table, text: string, keys: seq<string>): (r: Option<string>)
    ensures r.Some? ==> IsLabelFor(t, text, r.value)
    ensures r.Some? ==> exists i :: (0 <= i < |keys| && keys[i] == r.value &&
      forall j :: 0 <= j < i ==> !IsLabelFor(t, text, keys[j]))
    ensures r.None? <==> forall k :: k in keys ==> !IsLabelFor(t, text, k)
  {
    if |keys| == 0 then None
    else if IsLabelFor(t, text, keys[0]) then Some(keys[0])
    else
      var r := FirstLabelled(t, text, keys[1..]);
      assert r.Some? ==> exists i :: (0 < i < |keys| && keys[i] == r.value &&
        forall j :: 0 <= j < i ==> !IsLabelFor(t, text, keys[j])) by {
        if r.Some? {
          var i :| 0 <= i < |keys[1..]| && keys[1..][i] == r.value &&
            forall j :: 0 <= j < i ==> !IsLabelFor(t, text, keys[1..][j]);
          assert forall j :: 0 <= j < i + 1 ==> !IsLabelFor(t, text, keys[j]) by {
            forall j | 0 < j < i + 1 ensures !IsLabelFor(t, text, keys[j]) {
              assert keys[j] == keys[1..][j - 1];
            }
          }
          assert keys[i + 1] == r.value;
        }
      }
      r
  }

  /** The key a text labels first is the one `FirstLabelled` returns. */
  lemma {:induction false} FirstLabelledAt(t: Table, text: string, keys: seq<string>, i: nat)
    requires i < |keys| && IsLabelFor(t, text, keys[i])
    requires forall j :: 0 <= j < i ==> !IsLabelFor(t, text, keys[j])
    ensures FirstLabelled(t, text, keys) == Some(keys[i])
  {
    if i > 0 {
      FirstLabelledAt(t, text, keys[1..], i - 1);
    }
  }

  /**
   * The menu handler a text message reaches: the first handler, in
   * registration order, whose filter accepts the text; None when none does.
   */
  function Route(t: Table, text: string): (r: Option<string>)
    ensures r.Some? ==> r.value in HandledButtons && IsLabelFor(t, text, r.value)
    ensures r.Some? ==> exists i :: (0 <= i < |HandledButtons| && HandledButtons[i] == r.value &&
      forall j :: 0 <= j < i ==> !IsLabelFor(t, text, HandledButtons[j]))
    ensures r.None? <==> forall k :: k in HandledButtons ==> !IsLabelFor(t, text, k)
  {
    FirstLabelled(t, text, HandledButtons)
  }

  /** No two menu buttons share a label, in any pair of locales. */
  predicate ButtonLabelsDisjoint(t: Table)
  {
    forall k1, k2, l1, l2 ::
      (k1 in ButtonKeys && k2 in ButtonKeys && k1 != k2 &&
       k1 in t && k2 in t && l1 in t[k1] && l2 in t[k2]) ==> t[k1][l1] != t[k2][l2]
  }

  // ---------------------------------------------------------------------
  // Properties
  // ---------------------------------------------------------------------

  /** The lookup takes the locale's entry, else the English one, else "". */
  lemma TranslatedTextFallback(t: Table, key: string, lang: string)
    ensures key !in t ==> GetTranslatedText(t, key, Some(lang)) == ""
    ensures key in t && lang in t[key] ==> GetTranslatedText(t, key, Some(lang)) == t[key][lang]
    ensures key in t && lang !in t[key] && DefaultLanguage in t[key] ==>
      GetTranslatedText(t, key, Some(lang)) == t[key][DefaultLanguage]
    ensures key in t && lang !in t[key] && DefaultLanguage !in t[key] ==>
      GetTranslatedText(t, key, Some(lang)) == ""
  {
  }

  /** Looking up with no locale at all is looking up in English. */
  lemma NoLanguageIsEnglish(t: Table, key: string)
    ensures GetTranslatedText(t, key, None) == GetTranslatedText(t, key, Some(DefaultLanguage))
  {
  }

  /** A lookup yields some locale's entry for the key, or "" when it has none to give. */
  lemma TranslatedTextIsLabel(t: Table, key: string, lang: string)
    requires key in t && (lang in t[key] || DefaultLanguage in t[key])
    ensures IsLabelFor(t, GetTranslatedText(t, key, Some(lang)), key)
  {
    var locale := if lang in t[key] then lang else DefaultLanguage;
    assert t[key][locale] == GetTranslatedText(t, key, Some(lang));
  }

  /** With disjoint labels a text is a label of at most one button. */
  lemma LabelOfOneButton(t: Table, text: string, k1: string, k2: string)
    requires ButtonLabelsDisjoint(t)
    requires k1 in ButtonKeys && k2 in ButtonKeys
    requires IsLabelFor(t, text, k1) && IsLabelFor(t, text, k2)
    ensures k1 == k2
  {
    var l1 :| l1 in t[k1] && t[k1][l1] == text;
    var l2 :| l2 in t[k2] && t[k2][l2] == text;
  }

  /**
   * With disjoint labels, a text reaches the handler of a handled button
   * exactly when it is one of that button's labels.
   */
  lemma RouteExact(t: Table, text: string, key: string)
    requires ButtonLabelsDisjoint(t)
    requires key in HandledButtons
    ensures Route(t, text) == Some(key) <==> IsLabelFor(t, text, key)
  {
    if IsLabelFor(t, text, key) {
      var r := Route(t, text);
      assert key == HandledButtons[0] || key == HandledButtons[1] ||
             key == HandledButtons[2] || key == HandledButtons[3];
      assert r.Some?;
      LabelOfOneButton(t, text, r.value, key);
    }
  }

  /** Matching ignores locale: a handled button's label in any locale selects its handler. */
  lemma RouteAnyLocale(t: Table, key: string, locale: string)
    requires ButtonLabelsDisjoint(t)
    requires key in HandledButtons && key in t && locale in t[key]
    ensures Route(t, t[key][locale]) == Some(key)
  {
    RouteExact(t, t[key][locale], key);
  }

  /**
   * Pressing a menu button built for `lang` reaches that button's handler;
   * the history and help buttons, which have none, reach no handler.
   */
  lemma MenuButtonRoute(t: Table, lang: string, i: nat, j: nat)
    requires ButtonLabelsDisjoint(t)
    requires i < |MenuLayout| && j < |MenuLayout[i]|
    requires var key := MenuLayout[i][j]; key in t && (lang in t[key] || DefaultLanguage in t[key])
    ensures var key := MenuLayout[i][j];
      Route(t, KeyboardButtons(t, lang).rows[i][j]) == if key in HandledButtons then Some(key) else None
  {
    var key := MenuLayout[i][j];
    var text := KeyboardButtons(t, lang).rows[i][j];
    TranslatedTextIsLabel(t, key, lang);
    if key in HandledButtons {
      RouteExact(t, text, key);
    } else {
      var r := Route(t, text);
      if r.Some? {
        LabelOfOneButton(t, text, r.value, key);
        assert false;
      }
    }
  }
}
