/**
 * The server's message catalogue and its lookup (app.py, TRANSLATIONS and
 * get_translated_text). Only the entries the modelled request handlers use,
 * plus the one entry that lacks a Hindi text, are reproduced.
 */
module Translations {
  import opened Optional

  type Session = map<string, string>

  const LanguageKey := "preferred_language"
  const DefaultLanguage := "en"

  /** The catalogue's keys; Unknown stands for any key the catalogue does not have. */
  datatype MessageKey =
    | PasswordLabel
    | PleaseLoginAccessDashboard
    | InvalidSessionLoginAgain
    | DatabaseNotAvailable
    | UsernamePasswordRequired
    | UsernameExists
    | AccountCreatedLoggedIn
    | WelcomeBack
    | InvalidUsernamePassword
    | UsernameNotFound
    | InvalidAction
    | LoggedOutSuccessfully
    | Unknown(name: string)

  /** The key as the source writes it. */
  function Name(key: MessageKey): string
  {
    match key
    case PasswordLabel => "password_label"
    case PleaseLoginAccessDashboard => "please_login_access_dashboard"
    case InvalidSessionLoginAgain => "invalid_session_login_again"
    case DatabaseNotAvailable => "database_not_available"
    case UsernamePasswordRequired => "username_password_required"
    case UsernameExists => "username_exists"
    case AccountCreatedLoggedIn => "account_created_logged_in"
    case WelcomeBack => "welcome_back"
    case InvalidUsernamePassword => "invalid_username_password"
    case UsernameNotFound => "username_not_found"
    case InvalidAction => "invalid_action"
    case LoggedOutSuccessfully => "logged_out_successfully"
    case Unknown(name) => name
  }

  /**
   * The key a name denotes: the catalogued entry of that name, or Unknown for
   * a name the catalogue does not have. Only keys of this form are looked up.
   */
  function KeyOf(name: string): (key: MessageKey)
    ensures Name(key) == name
  {
    if name == "password_label" then PasswordLabel
    else if name == "please_login_access_dashboard" then PleaseLoginAccessDashboard
    else if name == "invalid_session_login_again" then InvalidSessionLoginAgain
    else if name == "database_not_available" then DatabaseNotAvailable
    else if name == "username_password_required" then UsernamePasswordRequired
    else if name == "username_exists" then UsernameExists
    else if name == "account_created_logged_in" then AccountCreatedLoggedIn
    else if name == "welcome_back" then WelcomeBack
    else if name == "invalid_username_password" then InvalidUsernamePassword
    else if name == "username_not_found" then UsernameNotFound
    else if name == "invalid_action" then InvalidAction
    else if name == "logged_out_successfully" then LoggedOutSuccessfully
    else Unknown(name)
  }

  /** A key as the lookup receives it: an Unknown key never carries a catalogued name. */
  predicate Canonical(key: MessageKey)
  {
    key.Unknown? ==> KeyOf(key.name) == key
  }

  /** Names and canonical keys correspond one to one. */
  lemma KeyOfName(key: MessageKey)
    ensures KeyOf(Name(key)) == key <==> Canonical(key)
  {
  }

  /** The languages the catalogue has texts in. */
  datatype Language = English | Hindi

  /** The language a session code names, if the catalogue has texts in it. */
  function LanguageOf(code: string): (l: Option<Language>)
    ensures l == Some(English) <==> code == "en"
    ensures l == Some(Hindi) <==> code == "hi"
  {
    if code == "en" then Some(English) else if code == "hi" then Some(Hindi) else None
  }

  // The catalogue's texts, one constant per entry and language.
  const EnglishPasswordLabel := "Password:"
  const EnglishPleaseLoginAccessDashboard := "Please log in to access the dashboard."
  const EnglishInvalidSessionLoginAgain := "Your session is invalid. Please log in again."
  const EnglishDatabaseNotAvailable := "Database not available. Please contact admin."
  const EnglishUsernamePasswordRequired := "Username and password are required."
  const EnglishUsernameExists := "Username already exists. Please choose a different one or log in."
  const EnglishAccountCreatedLoggedIn := "Account created and logged in successfully for {username}!"
  const EnglishWelcomeBack := "Welcome back, {username}!"
  const EnglishInvalidUsernamePassword := "Invalid username or password."
  const EnglishUsernameNotFound := "Username not found. Please register or check your username."
  const EnglishInvalidAction := "Invalid action."
  const EnglishLoggedOutSuccessfully := "You have been logged out successfully!"
  const HindiPleaseLoginAccessDashboard := "डैशबोर्ड तक पहुंचने के लिए कृपया लॉग इन करें।"
  const HindiInvalidSessionLoginAgain := "आपका सत्र अमान्य है। कृपया फिर से लॉग इन करें।"
  const HindiDatabaseNotAvailable := "डेटाबेस उपलब्ध नहीं है। कृपया व्यवस्थापक से संपर्क करें।"
  const HindiUsernamePasswordRequired := "यूज़रनेम और पासवर्ड आवश्यक हैं।"
  const HindiUsernameExists := "यूज़रनेम पहले से मौजूद है। कृपया कोई भिन्न चुनें या लॉग इन करें।"
  const HindiAccountCreatedLoggedIn := "{username} के लिए खाता सफलतापूर्वक बनाया और लॉग इन किया गया!"
  const HindiWelcomeBack := "वापस स्वागत है, {username}!"
  const HindiInvalidUsernamePassword := "अमान्य यूज़रनेम या पासवर्ड।"
  const HindiUsernameNotFound := "यूज़रनेम नहीं मिला। कृपया रजिस्टर करें या अपना यूज़रनेम जांचें।"
  const HindiInvalidAction := "अमान्य कार्रवाई।"
  const HindiLoggedOutSuccessfully := "आप सफलतापूर्वक लॉग आउट हो गए हैं!"

  /** `TRANSLATIONS[key]['en']`: every catalogued key has an English text. */
  function EnglishText(key: MessageKey): (r: Option<string>)
    ensures r.None? <==> key.Unknown?
  {
    match key
    case PasswordLabel => Some(EnglishPasswordLabel)
    case PleaseLoginAccessDashboard => Some(EnglishPleaseLoginAccessDashboard)
    case InvalidSessionLoginAgain => Some(EnglishInvalidSessionLoginAgain)
    case DatabaseNotAvailable => Some(EnglishDatabaseNotAvailable)
    case UsernamePasswordRequired => Some(EnglishUsernamePasswordRequired)
    case UsernameExists => Some(EnglishUsernameExists)
    case AccountCreatedLoggedIn => Some(EnglishAccountCreatedLoggedIn)
    case WelcomeBack => Some(EnglishWelcomeBack)
    case InvalidUsernamePassword => Some(EnglishInvalidUsernamePassword)
    case UsernameNotFound => Some(EnglishUsernameNotFound)
    case InvalidAction => Some(EnglishInvalidAction)
    case LoggedOutSuccessfully => Some(EnglishLoggedOutSuccessfully)
    case Unknown(_) => None
  }

  /** `TRANSLATIONS[key]['hi']`: every catalogued key but `password_label` has a Hindi text. */
  function HindiText(key: MessageKey): (r: Option<string>)
    ensures r.None? <==> key.Unknown? || key == PasswordLabel
  {
    match key
    case PasswordLabel => None
    case PleaseLoginAccessDashboard => Some(HindiPleaseLoginAccessDashboard)
    case InvalidSessionLoginAgain => Some(HindiInvalidSessionLoginAgain)
    case DatabaseNotAvailable => Some(HindiDatabaseNotAvailable)
    case UsernamePasswordRequired => Some(HindiUsernamePasswordRequired)
    case UsernameExists => Some(HindiUsernameExists)
    case AccountCreatedLoggedIn => Some(HindiAccountCreatedLoggedIn)
    case WelcomeBack => Some(HindiWelcomeBack)
    case InvalidUsernamePassword => Some(HindiInvalidUsernamePassword)
    case UsernameNotFound => Some(HindiUsernameNotFound)
    case InvalidAction => Some(HindiInvalidAction)
    case LoggedOutSuccessfully => Some(HindiLoggedOutSuccessfully)
    case Unknown(_) => None
  }

  /** `TRANSLATIONS[key][lang]` when both are present. */
  function Text(key: MessageKey, lang: Language): (r: Option<string>)
    ensures r.None? <==> key.Unknown? || (key == PasswordLabel && lang == Hindi)
  {
    match lang
    case English => EnglishText(key)
    case Hindi => HindiText(key)
  }

  /** `session.get('preferred_language', 'en')`. */
  function SessionLanguage(session: Session): (lang: string)
    ensures LanguageKey !in session ==> lang == DefaultLanguage
    ensures LanguageKey in session ==> lang == session[LanguageKey]
  {
    if LanguageKey in session then session[LanguageKey] else DefaultLanguage
  }

  /** `TRANSLATIONS.get(key, {}).get(code)`. */
  function TextFor(key: MessageKey, code: string): Option<string>
  {
    match LanguageOf(code)
    case Some(lang) => Text(key, lang)
    case None => None
  }

  /**
   * The text for `key` in the session's language; failing that, the English
   * text; failing that, the key itself.
   */
  function GetTranslatedText(session: Session, key: MessageKey): (text: string)
    ensures text == Name(key) || Some(text) == Text(key, English) || Some(text) == Text(key, Hindi)
  {
    match TextFor(key, SessionLanguage(session))
    case Some(t) => t
    case None =>
      match Text(key, English)
      case Some(t) => t
      case None => Name(key)
  }

  /** A reference statement of the fallback order, as a list of candidates tried in turn. */
  function FirstPresent(candidates: seq<Option<string>>, fallback: string): string
  {
    if candidates == [] then fallback
    else if candidates[0].Some? then candidates[0].value
    else FirstPresent(candidates[1..], fallback)
  }

  lemma FirstPresentOfTwo(first: Option<string>, second: Option<string>, fallback: string)
    ensures FirstPresent([first, second], fallback)
      == if first.Some? then first.value else if second.Some? then second.value else fallback
  {
    var candidates := [first, second];
    assert candidates[1..] == [second];
    if first.None? {
      assert FirstPresent(candidates, fallback) == FirstPresent([second], fallback);
      assert [second][1..] == [];
      if second.None? {
        assert FirstPresent([second], fallback) == FirstPresent([], fallback);
      }
    }
  }

  /** The code "en" selects the English column. */
  lemma EnglishCodeIsEnglish(key: MessageKey)
    ensures TextFor(key, "en") == Text(key, English)
  {
    assert LanguageOf("en") == Some(English);
  }

  /** The lookup agrees with trying the session language, then English, then the key. */
  lemma TranslationFallbackOrder(session: Session, key: MessageKey)
    ensures GetTranslatedText(session, key)
      == FirstPresent([TextFor(key, SessionLanguage(session)), TextFor(key, "en")], Name(key))
  {
    var first := TextFor(key, SessionLanguage(session));
    var second := TextFor(key, "en");
    EnglishCodeIsEnglish(key);
    FirstPresentOfTwo(first, second, Name(key));
  }

  /** A catalogued key yields one of its own texts; an unknown key comes back as its name. */
  lemma TranslationIsOwnText(session: Session, key: MessageKey)
    ensures !key.Unknown? ==> exists lang :: Text(key, lang) == Some(GetTranslatedText(session, key))
    ensures key.Unknown? ==> GetTranslatedText(session, key) == key.name
  {
    if !key.Unknown? {
      var t := TextFor(key, SessionLanguage(session));
      if t.Some? {
        assert Text(key, LanguageOf(SessionLanguage(session)).value) == t;
      } else {
        assert Text(key, English) == Some(GetTranslatedText(session, key));
      }
    }
  }

  /**
   * Looked up by name, a catalogued name yields one of its own texts and only
   * a name outside the catalogue comes back verbatim.
   */
  lemma KnownKeysNeverEchoed(session: Session, name: string)
    ensures !KeyOf(name).Unknown? ==>
      exists lang :: Text(KeyOf(name), lang) == Some(GetTranslatedText(session, KeyOf(name)))
    ensures KeyOf(name).Unknown? ==> GetTranslatedText(session, KeyOf(name)) == name
  {
    TranslationIsOwnText(session, KeyOf(name));
  }

  /** A session without a language is served English. */
  lemma NoLanguageMeansEnglish(session: Session, key: MessageKey)
    requires LanguageKey !in session
    ensures !key.Unknown? ==> Some(GetTranslatedText(session, key)) == Text(key, English)
  {
    EnglishCodeIsEnglish(key);
  }

  /** An entry with no Hindi text falls back to English in a Hindi session. */
  lemma PasswordLabelInHindi(session: Session)
    requires LanguageKey in session && session[LanguageKey] == "hi"
    ensures GetTranslatedText(session, PasswordLabel) == "Password:"
  {
  }
}
