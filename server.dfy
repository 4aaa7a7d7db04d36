/**
 * The Flask application's session logic (app.py): the check run before every
 * request, the preference update, login/registration and logout. One
 * client's `session` is a map from key to text and the users collection is a
 * map from username to user document; password hashing is supplied from
 * outside (a fresh hash per registration, a checking function fixed at
 * start-up).
 */
module FlaskApp {
  import opened Optional
  import opened Translations

  const UserIdKey := "user_id"
  const ModeKey := "preferred_mode"
  const DefaultMode := "light"

  datatype UserDoc = UserDoc(
    username: string,
    passwordHash: string,
    preferredMode: Option<string>,
    preferredLanguage: Option<string>,
    createdAt: int,
    lastLogin: int)

  /** `user_doc.get('preferred_mode', 'light')` */
  function DocMode(doc: UserDoc): string
  {
    match doc.preferredMode
    case Some(m) => m
    case None => DefaultMode
  }

  /** `user_doc.get('preferred_language', 'en')` */
  function DocLanguage(doc: UserDoc): string
  {
    match doc.preferredLanguage
    case Some(l) => l
    case None => DefaultLanguage
  }

  /** A flashed message: its catalogue key and the text it had in the session's language at that moment. */
  datatype Flash = Flash(key: MessageKey, text: string)

  /** What the before-request check decides. */
  datatype Gate = Proceed | RedirectToLogin(flash: Flash)

  /** A JSON value in a request body: a string, or anything else. */
  datatype Json = JString(s: string) | JOther

  datatype JsonResponse = JsonResponse(status: nat, success: bool, message: string)

  datatype LoginResult =
    | DatabaseUnavailable
    | CredentialsRequired
    | UsernameTaken
    | Registered
    | LoggedIn
    | WrongPassword
    | UnknownUsername
    | UnknownAction

  /** Where login_submit redirects: home after a registration or a login, the login page otherwise. */
  function RedirectsHome(r: LoginResult): bool
  {
    r == Registered || r == LoggedIn
  }

  /**
   * The English verdict predict_with_cnn stores for two class probabilities:
   * genuine only when strictly more likely, so a tie is reported as spoofed.
   */
  function VerdictFor(probGenuine: real, probSpoofed: real): (verdict: string)
    ensures verdict == "✅ Genuine" <==> probGenuine > probSpoofed
    ensures verdict == "✅ Genuine" || verdict == "🔴 Spoofed Voice Detected!"
  {
    if probGenuine > probSpoofed then "✅ Genuine" else "🔴 Spoofed Voice Detected!"
  }

  /**
   * Swapping two different probabilities swaps the verdict; equal
   * probabilities are reported as spoofed whichever way round they come.
   */
  lemma VerdictSymmetry(p: real, q: real)
    ensures p != q ==> (VerdictFor(p, q) == "✅ Genuine" <==> VerdictFor(q, p) != "✅ Genuine")
    ensures p == q ==> VerdictFor(p, q) == VerdictFor(q, p) == "🔴 Spoofed Voice Detected!"
  {
  }

  /** Requests the check lets through without a session. */
  predicate IsPublicPath(path: string)
    ensures "/static/" <= path ==> IsPublicPath(path)
    ensures IsPublicPath(path) ==> "/static/" <= path || path == "/login" || path == "/login_submit"
  {
    (|path| >= 8 && path[..8] == "/static/") || path == "/login" || path == "/login_submit"
  }

  predicate ValidMode(v: Json)
  {
    v == JString("light") || v == JString("dark")
  }

  predicate ValidLanguage(v: Json)
  {
    v == JString("en") || v == JString("hi")
  }

  /** A form field counts as given only when present and non-empty (Python truthiness). */
  predicate Given(field: Option<string>)
  {
    field.Some? && field.value != ""
  }

  /** The session after the first step of the check: a language is always present. */
  function WithDefaultLanguage(session: Session): (s: Session)
    ensures LanguageKey in s
    ensures LanguageKey in session ==> s == session
    ensures LanguageKey !in session ==> s == session[LanguageKey := DefaultLanguage]
  {
    if LanguageKey in session then session else session[LanguageKey := DefaultLanguage]
  }

  /** The three keys a logout or an invalid session removes. */
  function WithoutLogin(session: Session): (s: Session)
    ensures UserIdKey !in s && ModeKey !in s && LanguageKey !in s
    ensures forall k :: k in session && k != UserIdKey && k != ModeKey && k != LanguageKey ==>
      k in s && s[k] == session[k]
    ensures forall k :: k in s ==> k in session
  {
    session - {UserIdKey, ModeKey, LanguageKey}
  }

  /** The text flashed after the login keys were removed is always the English one. */
  lemma FlashAfterLogoutIsEnglish(session: Session, key: MessageKey)
    ensures !key.Unknown? ==> Some(GetTranslatedText(WithoutLogin(session), key)) == Text(key, English)
  {
    NoLanguageMeansEnglish(WithoutLogin(session), key);
  }

  /** The preference fields a request body sets, once all of them have validated. */
  function UpdateFields(data: map<string, Json>): (fields: map<string, string>)
    requires ModeKey in data ==> ValidMode(data[ModeKey])
    requires LanguageKey in data ==> ValidLanguage(data[LanguageKey])
    ensures fields.Keys == data.Keys * {ModeKey, LanguageKey}
    ensures forall k :: k in fields ==> JString(fields[k]) == data[k]
  {
    var m: map<string, string> := if ModeKey in data then map[ModeKey := data[ModeKey].s] else map[];
    if LanguageKey in data then m[LanguageKey := data[LanguageKey].s] else m
  }

  /** `$set` of some preference fields on a user document. */
  function SetPreferences(doc: UserDoc, fields: map<string, string>): (d: UserDoc)
    ensures d.username == doc.username && d.passwordHash == doc.passwordHash
    ensures d.createdAt == doc.createdAt && d.lastLogin == doc.lastLogin
    ensures d.preferredMode == if ModeKey in fields then Some(fields[ModeKey]) else doc.preferredMode
    ensures d.preferredLanguage ==
      if LanguageKey in fields then Some(fields[LanguageKey]) else doc.preferredLanguage
  {
    doc.(preferredMode := if ModeKey in fields then Some(fields[ModeKey]) else doc.preferredMode,
         preferredLanguage := if LanguageKey in fields then Some(fields[LanguageKey]) else doc.preferredLanguage)
  }

  /** Every document is filed under its own username, as `find_one({'username': ...})` looks it up. */
  predicate KeyedByUsername(users: map<string, UserDoc>)
  {
    forall k :: k in users ==> users[k].username == k
  }

  /** `update_one({'username': name}, ...)`: a name with no document matches nothing. */
  function UpdateUser(users: map<string, UserDoc>, name: string, fields: map<string, string>)
    : (r: map<string, UserDoc>)
    ensures r.Keys == users.Keys
    ensures forall k :: k in users && k != name ==> r[k] == users[k]
    ensures name in users ==> r[name] == SetPreferences(users[name], fields)
    ensures KeyedByUsername(users) ==> KeyedByUsername(r)
  {
    if name in users then users[name := SetPreferences(users[name], fields)] else users
  }

  class Server {
    var session: Session
    var users: map<string, UserDoc>
    /** False when the MongoDB connection failed at start-up (`users_collection is None`). */
    const databaseConnected: bool
    /** werkzeug's `check_password_hash(stored_hash, password)`. */
    const checkPasswordHash: (string, string) -> bool

    /** The users collection files every document under its own username. */
    predicate Valid()
      reads this
    {
      KeyedByUsername(users)
    }

    constructor (databaseConnected: bool, checkPasswordHash: (string, string) -> bool,
                 users: map<string, UserDoc>)
      requires KeyedByUsername(users)
      ensures Valid()
      ensures this.databaseConnected == databaseConnected
      ensures this.checkPasswordHash == checkPasswordHash
      ensures this.users == users && session == map[]
    {
      this.databaseConnected := databaseConnected;
      this.checkPasswordHash := checkPasswordHash;
      this.users := users;
      session := map[];
    }

    /** get_translated_text against the current session. */
    function FlashOf(key: MessageKey): (f: Flash)
      reads this
      ensures f.key == key
    {
      Flash(key, GetTranslatedText(session, key))
    }

    /**
     * check_login_and_load_user_data. The language defaults to English first;
     * public paths then pass. Otherwise a session without a user is sent to
     * the login page; a user with a document has its mode and language loaded
     * into the session and passes; a user without one has the three login
     * keys removed and is sent to the login page; without a database every
     * logged-in request is sent there too.
     */
    method BeforeRequest(path: string) returns (gate: Gate)
      modifies this`session
      ensures IsPublicPath(path) ==> gate == Proceed && session == WithDefaultLanguage(old(session))
      ensures !IsPublicPath(path) && UserIdKey !in old(session) ==>
        session == WithDefaultLanguage(old(session))
        && gate == RedirectToLogin(Flash(PleaseLoginAccessDashboard,
             GetTranslatedText(session, PleaseLoginAccessDashboard)))
      ensures !IsPublicPath(path) && UserIdKey in old(session) && !databaseConnected ==>
        session == WithDefaultLanguage(old(session))
        && gate == RedirectToLogin(Flash(DatabaseNotAvailable,
             GetTranslatedText(session, DatabaseNotAvailable)))
      ensures !IsPublicPath(path) && UserIdKey in old(session) && databaseConnected ==>
        var userId := old(session)[UserIdKey];
        if userId in users then
          gate == Proceed
          && session == WithDefaultLanguage(old(session))[ModeKey := DocMode(users[userId])]
                                                         [LanguageKey := DocLanguage(users[userId])]
        else
          session == WithoutLogin(old(session))
          && gate == RedirectToLogin(Flash(InvalidSessionLoginAgain,
               GetTranslatedText(session, InvalidSessionLoginAgain)))
      ensures gate.Proceed? && !IsPublicPath(path) ==> UserIdKey in session && session[UserIdKey] in users
    {
      if LanguageKey !in session {
        session := session[LanguageKey := DefaultLanguage];
      }
      if IsPublicPath(path) {
        return Proceed;
      }
      if UserIdKey !in session {
        return RedirectToLogin(FlashOf(PleaseLoginAccessDashboard));
      }
      if databaseConnected {
        var userId := session[UserIdKey];
        if userId in users {
          var doc := users[userId];
          session := session[ModeKey := DocMode(doc)];
          session := session[LanguageKey := DocLanguage(doc)];
          gate := Proceed;
        } else {
          session := session - {UserIdKey};
          session := session - {ModeKey};
          session := session - {LanguageKey};
          gate := RedirectToLogin(FlashOf(InvalidSessionLoginAgain));
        }
      } else {
        gate := RedirectToLogin(FlashOf(DatabaseNotAvailable));
      }
    }

    /**
     * update_preferences. No user: 401; no database: 500; both before the
     * body is looked at. Each supplied field must be valid (mode light/dark,
     * language en/hi), else 400; a valid mode is written to the session
     * before the language is checked. Nothing supplied: 400. Only when every
     * supplied field passed is the user's document updated.
     */
    method UpdatePreferences(data: map<string, Json>) returns (response: JsonResponse)
      requires Valid()
      modifies this
      ensures Valid()
      ensures response.success <==> response.status == 200
      ensures UserIdKey !in old(session) ==>
        response == JsonResponse(401, false, "Not logged in.")
        && session == old(session) && users == old(users)
      ensures UserIdKey in old(session) && !databaseConnected ==>
        response == JsonResponse(500, false, GetTranslatedText(old(session), DatabaseNotAvailable))
        && session == old(session) && users == old(users)
      ensures UserIdKey in old(session) && databaseConnected ==>
        if ModeKey in data && !ValidMode(data[ModeKey]) then
          response == JsonResponse(400, false, "Invalid mode.")
          && session == old(session) && users == old(users)
        else if LanguageKey in data && !ValidLanguage(data[LanguageKey]) then
          response == JsonResponse(400, false, "Invalid language.")
          && session == (if ModeKey in data then old(session)[ModeKey := data[ModeKey].s] else old(session))
          && users == old(users)
        else if ModeKey !in data && LanguageKey !in data then
          response == JsonResponse(400, false, "No preferences provided to update.")
          && session == old(session) && users == old(users)
        else
          response == JsonResponse(200, true, "Preferences updated.")
          && session == old(session) + UpdateFields(data)
          && users == UpdateUser(old(users), old(session)[UserIdKey], UpdateFields(data))
    {
      if UserIdKey !in session {
        return JsonResponse(401, false, "Not logged in.");
      }
      if !databaseConnected {
        return JsonResponse(500, false, GetTranslatedText(session, DatabaseNotAvailable));
      }
      var userId := session[UserIdKey];
      var updateFields: map<string, string> := map[];
      if ModeKey in data {
        var newMode := data[ModeKey];
        if ValidMode(newMode) {
          updateFields := updateFields[ModeKey := newMode.s];
          session := session[ModeKey := newMode.s];
        } else {
          return JsonResponse(400, false, "Invalid mode.");
        }
      }
      if LanguageKey in data {
        var newLanguage := data[LanguageKey];
        if ValidLanguage(newLanguage) {
          updateFields := updateFields[LanguageKey := newLanguage.s];
          session := session[LanguageKey := newLanguage.s];
        } else {
          return JsonResponse(400, false, "Invalid language.");
        }
      }
      assert ModeKey in data ==> ModeKey in updateFields;
      assert LanguageKey in data ==> LanguageKey in updateFields;
      if updateFields == map[] {
        return JsonResponse(400, false, "No preferences provided to update.");
      }
      assert updateFields == UpdateFields(data);
      users := UpdateUser(users, userId, updateFields);
      response := JsonResponse(200, true, "Preferences updated.");
    }

    /**
     * login_submit. Without a database, or without both a username and a
     * password, nothing is looked up. Registering an existing name fails;
     * a new name is inserted with light mode and English and logged in.
     * Logging in needs an existing name and a matching password; only then
     * are the session keys set (and the last-login time stamped). Any other
     * action fails. Every failure leaves the session and the users alone.
     */
    method LoginSubmit(username: Option<string>, password: Option<string>, action: Option<string>,
                       freshHash: string, now: int)
      returns (result: LoginResult, flash: Flash)
      requires Valid()
      modifies this
      ensures Valid()
      ensures !RedirectsHome(result) ==> session == old(session) && users == old(users)
      ensures !databaseConnected ==> result == DatabaseUnavailable
      ensures databaseConnected && !(Given(username) && Given(password)) ==> result == CredentialsRequired
      ensures databaseConnected && Given(username) && Given(password) ==>
        var name := username.value;
        if action == Some("register") then
          if name in old(users) then result == UsernameTaken
          else
            result == Registered
            && users == old(users)[name := UserDoc(name, freshHash, Some(DefaultMode), Some(DefaultLanguage), now, now)]
            && session == old(session)[UserIdKey := name][ModeKey := DefaultMode][LanguageKey := DefaultLanguage]
        else if action == Some("login") then
          if name !in old(users) then result == UnknownUsername
          else if !checkPasswordHash(old(users)[name].passwordHash, password.value) then result == WrongPassword
          else
            var doc := old(users)[name];
            result == LoggedIn
            && users == old(users)[name := doc.(lastLogin := now)]
            && session == old(session)[UserIdKey := name][ModeKey := DocMode(doc)][LanguageKey := DocLanguage(doc)]
        else result == UnknownAction
      ensures result == Registered ==> Some(flash.text) == Text(AccountCreatedLoggedIn, English)
    {
      if !databaseConnected {
        return DatabaseUnavailable, FlashOf(DatabaseNotAvailable);
      }
      if !Given(username) || !Given(password) {
        return CredentialsRequired, FlashOf(UsernamePasswordRequired);
      }
      var name := username.value;
      var userDoc := if name in users then Some(users[name]) else None;
      if action == Some("register") {
        if userDoc.Some? {
          return UsernameTaken, FlashOf(UsernameExists);
        }
        users := users[name := UserDoc(name, freshHash, Some(DefaultMode), Some(DefaultLanguage), now, now)];
        session := session[UserIdKey := name];
        session := session[ModeKey := DefaultMode];
        session := session[LanguageKey := DefaultLanguage];
        result, flash := Registered, FlashOf(AccountCreatedLoggedIn);
      } else if action == Some("login") {
        if userDoc.None? {
          return UnknownUsername, FlashOf(UsernameNotFound);
        }
        var doc := userDoc.value;
        if !checkPasswordHash(doc.passwordHash, password.value) {
          return WrongPassword, FlashOf(InvalidUsernamePassword);
        }
        session := session[UserIdKey := name];
        session := session[ModeKey := DocMode(doc)];
        session := session[LanguageKey := DocLanguage(doc)];
        users := users[name := doc.(lastLogin := now)];
        result, flash := LoggedIn, FlashOf(WelcomeBack);
      } else {
        result, flash := UnknownAction, FlashOf(InvalidAction);
      }
    }

    /** logout: the three login keys are removed; the goodbye is therefore always in English. */
    method Logout() returns (flash: Flash)
      modifies this`session
      ensures session == WithoutLogin(old(session))
      ensures flash == Flash(LoggedOutSuccessfully, "You have been logged out successfully!")
    {
      session := session - {UserIdKey};
      session := session - {ModeKey};
      session := session - {LanguageKey};
      FlashAfterLogoutIsEnglish(old(session), LoggedOutSuccessfully);
      flash := FlashOf(LoggedOutSuccessfully);
    }
  }

  /** A new account passes the check on the next request, with its defaults loaded. */
  method RegisterThenVisit(check: (string, string) -> bool, name: string, password: string,
                           hash: string, now: int, path: string)
    returns (result: LoginResult, gate: Gate, mode: string, language: string)
    requires name != "" && password != ""
    ensures result == Registered && gate == Proceed
    ensures mode == DefaultMode && language == DefaultLanguage
  {
    var server := new Server(true, check, map[]);
    var flash;
    result, flash := server.LoginSubmit(Some(name), Some(password), Some("register"), hash, now);
    assert result == Registered;
    var doc := UserDoc(name, hash, Some(DefaultMode), Some(DefaultLanguage), now, now);
    assert server.users == map[name := doc];
    assert server.session == map[UserIdKey := name, ModeKey := DefaultMode, LanguageKey := DefaultLanguage];
    gate := server.BeforeRequest(path);
    mode := server.session[ModeKey];
    language := server.session[LanguageKey];
  }

  /** After a logout, every non-public path is sent back to the login page. */
  method LogoutThenVisit(check: (string, string) -> bool, users: map<string, UserDoc>,
                         name: string, password: string, path: string)
    returns (gate: Gate)
    requires KeyedByUsername(users)
    requires name in users && name != "" && password != ""
    requires check(users[name].passwordHash, password)
    requires !IsPublicPath(path)
    ensures gate == RedirectToLogin(Flash(PleaseLoginAccessDashboard, "Please log in to access the dashboard."))
  {
    var server := new Server(true, check, users);
    var result, flash := server.LoginSubmit(Some(name), Some(password), Some("login"), "", 0);
    flash := server.Logout();
    gate := server.BeforeRequest(path);
  }
}
