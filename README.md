# Voice spoofing detector: a verified model of its decision logic

The application lets a logged-in user upload an audio file or record one in
the browser, sends it for analysis and shows a genuine/spoofed verdict. Most
of the code is browser glue and calls into machine-learning and database
libraries. This project models the small pieces of decision logic under that
glue, on both sides:

- the page script's audio-input state (`static/script.js`): login status,
  the selected file, the recorded blob, the recorder and its timer, and the
  analyze button's enabled flag, as class `AnalyzerPage.Page` with one method
  per event handler;
- the recording timer's `mm:ss` text (`RecordingTimer`) and the chart's
  genuine/spoofed split (`SpoofingChart`), as functions;
- the server's message lookup with its two-level fallback (`Translations`);
- the server's session logic (`app.py`): the check run before every request,
  the preference update, registration/login and logout, as class
  `FlaskApp.Server` whose fields are one client's session and the users
  collection;
- the pad-or-truncate of the MFCC matrix to 94 frames (`MfccShape`).

The two audio sources are not mutually exclusive. Choosing a file clears the
recording (`static/script.js:476`), but starting a recording clears only the
previous recording and keeps the file (`static/script.js:556-557`). When both
are held, the analyze action sends the file. `FileSurvivesRecording` and
`FileReplacesRecording` prove the two directions.

The analyze button's flag is modelled as the value last written to it, not as
a formula. The record handler sets the recording to null without recomputing
the button, so the button can stay enabled with no source until the
recorder's stop event. `Page.Valid` states exactly when the flag may lag.
`StaleAnalyzeButton` shows it happening. The analyze handler then sends
nothing, so the lag is harmless.

Outside inputs become parameters: the reply to the login-status request, the
files in the file input, whether microphone access is granted, the recorded
chunks, a fresh password hash and the current time for registration and login,
the password-checking function (fixed when the server is built), and whether
the database connected at start-up.

## Model

| member | source | states |
|---|---|---|
| AnalyzerPage.SourceToAnalyze | static/script.js:648-662 | the uploaded file is sent when there is one, else the recording; nothing exactly when neither is held |
| AnalyzerPage.SourceExistsIffAllowedWhenLoggedIn | static/script.js:439-449 | for a logged-in user, a source is on offer exactly when the analyze rule allows analysis |
| AnalyzerPage.Page.constructor | static/script.js:435-436 | the page starts logged out, with no file, no recording, no recorder, no chunks, the timer at 0 and the analyze button disabled |
| AnalyzerPage.Page.UpdateAnalyzeButtonState | static/script.js:439-453 | the button is enabled iff logged in and (a file is selected or a recording exists); nothing else changes |
| AnalyzerPage.Page.RefreshLoginStatus | static/script.js:358-401 | logged in iff the reply has a non-empty user_email (a failed request counts as logged out); the sources are kept and the button recomputed; the invariant is kept |
| AnalyzerPage.Page.FileInputChanged | static/script.js:456-492 | logged out: no variable changes and the button is not recomputed; logged in with a file: it is selected and the recording becomes null; logged in with no file: the selection is cleared and the recording kept |
| AnalyzerPage.Page.ClearFileClicked | static/script.js:498-505 | the selection becomes null, the recording is unchanged, the button is recomputed |
| AnalyzerPage.Page.RecordClicked | static/script.js:540-592 | logged out or microphone refused: nothing changes; otherwise the recorder is recording, the chunk list is empty, the previous recording is null and the timer restarts at 0, while the selected file and the button flag are untouched |
| AnalyzerPage.Page.OnDataAvailable | static/script.js:559-561 | the chunk is appended to the chunk list and nothing else changes |
| AnalyzerPage.Page.StopClicked | static/script.js:598-611 | acts only when the recorder is recording: it becomes inactive, one stop event is pending and the timer stops; the recording is not yet set |
| AnalyzerPage.Page.OnRecorderStop | static/script.js:563-574 | the recording becomes a blob of the chunks gathered so far (the only place it becomes non-null) and the button is recomputed |
| AnalyzerPage.Page.TimerTick | static/script.js:527-532 | the count goes up by one and the text shown is the timer text of the new count |
| AnalyzerPage.Page.ClearRecordingClicked | static/script.js:631-640 | the recording becomes null, the file is unchanged, the button is recomputed |
| AnalyzerPage.Page.AnalyzeClicked | static/script.js:647-720 | what is sent is the file if held, else the recording, else nothing (no request); the page variables end as they were |
| AnalyzerPage.FileSurvivesRecording | static/script.js:553-557 | a file chosen before a recording is still held after it, and analyze then sends the file |
| AnalyzerPage.FileReplacesRecording | static/script.js:470-482 | choosing a file after a recording drops the recording, and analyze sends the file |
| AnalyzerPage.StaleAnalyzeButton | static/script.js:554-557 | after a second recording starts, the button is enabled although the rule does not allow analysis, and analyze sends nothing |
| AnalyzerPage.LogoutKeepsSources | static/script.js:371-400 | a logout seen by the login-status refresh disables analysis but keeps the selected file |
| RecordingTimer.Decimal | static/script.js:531 | `String(n)` is one or more decimal digits with no leading zero, a single digit exactly below 10 |
| RecordingTimer.PadStart2 | static/script.js:531 | `padStart(2, '0')` yields at least two characters, ends with the input, and adds only '0's in front |
| RecordingTimer.ParseDecimalOfDecimal | static/script.js:531 | reading the decimal text of n gives back n |
| RecordingTimer.PaddedDecimalReadsBack | static/script.js:531 | padding adds only leading zeros: the padded text still reads as n, and is exactly two characters below 10 |
| RecordingTimer.TimerText | static/script.js:529-531 | the text shown, `pad2(n div 60) + ":" + pad2(n mod 60)`, reads back as the elapsed count n |
| RecordingTimer.SecondsTakeTwoCharacters | static/script.js:531 | below 100 a padded decimal is exactly two characters |
| RecordingTimer.TimerTextShape | static/script.js:529-531 | below 100 minutes the text is five characters with ':' in the middle |
| RecordingTimer.TimerTextAtStart | static/script.js:526 | the text written when the timer starts, "00:00", is the timer text of 0 |
| SpoofingChart.ChartValues | static/script.js:734-735 | the named verdict's slice shows the confidence and the other slice its complement; for any other label both slices show 100 minus the confidence |
| SpoofingChart.ChartSumsTo100 | static/script.js:734-735 | the slices sum to 100 iff the label is "genuine" or "spoofed" (or the confidence is 50) |
| SpoofingChart.ResultColor | static/script.js:690-696 | the result text is red exactly for "spoofed", green for every other label |
| SpoofingChart.ResultColorMatchesChart | static/script.js:690-696 | for a verdict whose confidence is not 50, the text is red exactly when the confidence is drawn on the spoofed slice |
| Translations.SessionLanguage | app.py:197 | the session's language, "en" when none is stored |
| Translations.TranslationFallbackOrder | app.py:195-198 | the lookup returns the first present of: the entry in the session language, the English entry, the key itself |
| Translations.KeyOf | app.py:88-193 | the key a name denotes; its name is the given name again |
| Translations.KeyOfName | app.py:88-193 | a key is recovered from its name exactly when it is canonical (an unknown key never carries a catalogued name) |
| Translations.EnglishText | app.py:88-193 | a key has an English text exactly when it is in the catalogue |
| Translations.HindiText | app.py:88-193 | a key has a Hindi text exactly when it is in the catalogue and is not `password_label` |
| Translations.Text | app.py:88-193 | the catalogue has no text exactly for keys outside it and for `password_label` in Hindi |
| Translations.GetTranslatedText | app.py:195-198 | the result is the key's name or one of its own English or Hindi texts |
| Translations.TranslationIsOwnText | app.py:195-198 | a catalogued key yields one of its own texts in some language; an unknown key comes back as its name |
| Translations.KnownKeysNeverEchoed | app.py:88-198 | looked up by name, a catalogued name yields one of its own texts, and only a name outside the catalogue comes back verbatim |
| Translations.NoLanguageMeansEnglish | app.py:197-198 | with no language in the session, a known key yields its English text |
| Translations.PasswordLabelInHindi | app.py:98 | `password_label` has no Hindi text, so a Hindi session gets "Password:" |
| MfccShape.PadRow | app.py:217 | the row followed by the requested number of zeros |
| MfccShape.FitFrames | app.py:215-219 | the result has exactly 94 columns and the same rows; column j holds the input's column j where it exists, else 0 |
| MfccShape.PreprocessShape | app.py:211-219 | no features exactly when the audio is empty; otherwise a 94-column matrix with the same number of rows |
| MfccShape.PaddingIsUndone | app.py:215-217 | a short matrix is recovered by cutting the padding off again |
| MfccShape.TruncationKeepsPrefix | app.py:218-219 | a long matrix keeps exactly its first 94 columns |
| MfccShape.FitFramesIdempotent | app.py:215-219 | fitting an already fitted matrix changes nothing |
| FlaskApp.VerdictFor | app.py:247-251 | the verdict is Genuine iff the genuine probability is strictly higher; a tie is Spoofed |
| FlaskApp.VerdictSymmetry | app.py:247-251 | swapping two different probabilities swaps the verdict; a tie is Spoofed in either order |
| FlaskApp.IsPublicPath | app.py:282 | every `/static/` path is public, and the only other public paths are `/login` and `/login_submit` |
| FlaskApp.WithDefaultLanguage | app.py:278-279 | a session without a language gets "en"; one with a language is unchanged |
| FlaskApp.WithoutLogin | app.py:298-300 | user_id, preferred_mode and preferred_language are gone and every other key is kept |
| FlaskApp.FlashAfterLogoutIsEnglish | app.py:298-301 | a catalogued message translated after those keys are removed is its English text |
| FlaskApp.UpdateFields | app.py:388-410 | the fields written are exactly the supplied preference keys, each with its supplied string |
| FlaskApp.SetPreferences | app.py:417 | `$set` replaces exactly the supplied preferences and keeps the name, password hash, creation and last-login times |
| FlaskApp.UpdateUser | app.py:417 | the same usernames remain; only the named user's document changes, by `$set`; a collection keyed by username stays so |
| FlaskApp.Server.constructor | app.py:25-36 | the server starts with the given users (each filed under its own username), database status and password check, and an empty session |
| FlaskApp.Server.BeforeRequest | app.py:276-310 | the language defaults to "en"; public paths pass; no user redirects to login; no database redirects to login; a known user has mode and language loaded and passes; an unknown user loses the three login keys and is redirected; a request that passes on a private path has a user in the database |
| FlaskApp.Server.UpdatePreferences | app.py:375-422 | 401 without a user and 500 without a database, both with no change; 400 for an invalid mode (no change) or an invalid language (a valid mode already in the session, no database write) or an empty update; otherwise 200, the session and the user's document get exactly the supplied fields; the users stay keyed by username |
| FlaskApp.Server.LoginSubmit | app.py:439-508 | every failure leaves session and users untouched; no database or a missing username/password is rejected first; register fails for an existing name, else inserts a light/English user and logs it in; login succeeds only for an existing name with a matching password, and only then sets the session; any other action fails; the users stay keyed by username |
| FlaskApp.Server.Logout | app.py:512-519 | the three login keys are removed and the goodbye is in English |
| FlaskApp.RegisterThenVisit | app.py:459-479 | a newly registered user passes the next check with light mode and English |
| FlaskApp.LogoutThenVisit | app.py:515-517 | after a logout every private path is redirected to the login page |

## Left out

- All DOM work in `static/script.js` (texts, classes, the audio player, message boxes, the login modal), `fetch`, `MediaRecorder`/`getUserMedia`, `Blob` URLs, `localStorage`, Chart.js rendering, the news feed, the history list, the FAQ accordion, smooth scrolling and the scroll progress bar: browser I/O with no state the analyzed logic depends on.
- Asynchrony: each handler runs to completion in one step. Events that could interleave with the awaited microphone request or the analysis request are not modelled; the record handler's await and the analyze handler's request are single steps.
- AnalyzerPage.Page.AnalyzeClicked: the analysis response (verdict text, chart, history refresh) is not modelled inside it; the chart split is `SpoofingChart.ChartValues` on its own.
- AnalyzerPage.Page.TimerTick: `setInterval` scheduling is left out; a tick is taken to happen only while the interval is installed.
- The authentication modal's register/login forms (`static/script.js:250-355`): requests to endpoints not in the modelled server.
- Floating-point arithmetic: chart values and probabilities are exact reals; JavaScript number rounding is not modelled.
- librosa resampling and MFCC computation, min-max normalisation, the added batch and channel axes, TensorFlow model loading and prediction, and the random dummy probabilities (`app.py:56-85`, `app.py:220-273`): floating point and foreign libraries. Only the shape step and the verdict comparison are kept.
- MongoDB, werkzeug hashing, pydub conversion, base64 embedding and Flask rendering/redirects/flashing: the collection is a map keyed by username, hashing is a parameter, a redirect is a result value and a flash is its key and text.
- FlaskApp.Server.LoginSubmit: the exception branch (`app.py:505-508`) is not modelled, and the `{username}` placeholder is not filled into the flashed text.
- FlaskApp.Server.UpdatePreferences: the exception branch (`app.py:420-422`) is not modelled, and a body that is not a JSON object (where `get_json` fails) is outside the model.
- The routes that only render pages or store analysis records (`/home`, `/results`, `/account`, `/predict` storage, `/thank_you`).
- The message catalogue keeps only the entries the modelled handlers use, plus `password_label`, the one entry without a Hindi text. Keys are an enumeration of those entries, and `Unknown(name)` stands for every other name; `KeyOf` maps a name to its key, so a lookup by name never sees an `Unknown` key carrying a catalogued name. The page-label entries (`app_title`, `username_label` and the like) are left out because no modelled handler looks them up, so their names map to `Unknown`.
- `generate_audio.py`: it writes a sine-wave WAV file and has no decision logic.
