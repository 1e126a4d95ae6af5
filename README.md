# Cook Islands Māori NLP front end: session state machine

This project models the logic of `streamlit_app.py`, the single-page Streamlit front end of a
Cook Islands Māori NLP platform, in Dafny, and proves properties of that model. Three parts are modelled:

- **Voice generation (text to speech).** One session's `st.session_state` is a class,
  `Session.SessionState`. Its fields are `processing`, `audio_bytes`, `error_message`,
  `user_text` and `input_key`. It also records which of these keys the session already holds,
  and the stored values of the text-input widgets. Its methods are the script's steps:
  - the initialisation at the top of every pass;
  - the glyph-button callback `add_char` and the text input's `on_change` callback;
  - the click on the generate button;
  - the processing pass that the forced rerun triggers.

  The endpoint lookup and the HTTP call are replaced by an `Outcome` value with six cases:
  success with bytes, a non-ok response, a connection error, a timeout, and any other exception,
  plus a failed lookup of the `TTS_URL` secret. In that last case the lookup raises before any
  request is made, so `Process` reports nothing sent. The busy flag and
  the two result slots are also given as a value, `TtsJob.Job`, and the class methods are
  specified against the pure transitions `Pressed` and `Responded`. Lemmas over any run of
  presses and processing passes from a new session prove these facts:
  - the slots are never both set;
  - both stay empty until a cycle has completed;
  - after that, exactly one is set whenever the job is idle.
- **Error messages.** These are pure string functions. For each failure kind the proofs fix
  the message's opening phrase and its closing text. The HTTP message contains the status code
  as Python's `str` renders it, plus the reason and the body, each at a known position. The
  category can be read back from the message.
- **Transcription submission.** The validation decision is a pure function. The email is
  checked first, then the audio. An accepted submission builds one request with:
  - the uploaded file's name, or `recording.wav` on the record path;
  - the file's bytes;
  - the content type `audio/wav`;
  - the email address;
  - a timeout of 3600 seconds.

  Dispatch appends that request to a ghost log on a `Transcription.Transcriber` object.

Widget keys such as `text_input_<n>` and `btn_char_<i>` are built from counters with Python's
`str(int)`, modelled in `Decimal`. `NatToDecimal` is proved to round-trip with a digit
reader. That proof makes the keys injective, and injectivity is why a bumped `input_key` names
a widget that does not exist yet. The model stores widget values in a map indexed by the counter.

The callbacks and the click and processing steps require an initialised session. Streamlit runs a
callback only for a widget drawn by an earlier pass, and every pass starts with the initialisation.

Two behaviours of the code worth noting:
- Only the empty string counts as a missing email. An address made only of blanks is accepted
  (`Transcription.BlankEmailPasses`), as `not email` does in the code.
- A successful response with an empty body fills `audio_bytes` with empty bytes. The page then
  shows neither the player nor an error, because the display tests the truthiness of each slot
  (`TtsJob.ShowsAudio`, `TtsJob.ShowsError`).

## Model

| member | source | states |
|---|---|---|
| Decimal.DecimalRoundTrip | streamlit_app.py:158 | reading back the decimal digits Python writes for a status code or counter gives the number again |
| Decimal.IntToStringInjective | streamlit_app.py:158 | distinct integers render as distinct strings under Python's `str` |
| TtsMessages.FailureMessage | streamlit_app.py:156-166 | each failure's message opens with its category phrase ("HTTP Error ", "Connection error: ", "Request timed out: ", "Unexpected error: ") and ends with the body or the exception text |
| Decimal.NatToDecimal | streamlit_app.py:119 | Python's digits of a natural number: at least one digit, only digits, no leading zero |
| Decimal.IntToString | streamlit_app.py:158 | Python's `str` of an int: digits only exactly for non-negative numbers, a leading minus sign before the digits otherwise |
| TtsMessages.HttpMessageParts | streamlit_app.py:157-160 | a non-ok response's message holds the status code, ": ", the reason, "\nResponse body: " and the body, in that order, at fixed positions |
| TtsMessages.UnexpectedMessageParts | streamlit_app.py:166 | an unexpected exception's message names the exception type right after the prefix, then ": " and its text |
| TtsMessages.ClassifyFailureMessage | streamlit_app.py:156-166 | the failure category can be recovered from the message, so the four kinds of failure give distinct messages |
| TtsMessages.NoEndpointMessage | streamlit_app.py:144-166 | a failed `TTS_URL` lookup gives the catch-all message for its exception type, the same as any other exception of that type, with the type name right after the prefix |
| TtsMessages.NoEndpointKindsDiffer | streamlit_app.py:146-166 | a store without the `TTS_URL` key (`KeyError`) and a missing secrets file (`FileNotFoundError`) give different messages |
| TtsMessages.ServerErrorMessage | streamlit_app.py:157-160 | a 500 response with body "model unavailable" gives a message holding "500" after the prefix and ending with the body |
| TtsJob.GenerateLabel | streamlit_app.py:135 | the button caption is "Please wait..." exactly while processing and "Generate audio" exactly while idle |
| TtsJob.GenerateEnabled | streamlit_app.py:135-136 | the button is enabled exactly when it carries the idle caption, that is, exactly when not processing |
| TtsJob.Pressed | streamlit_app.py:136-141 | a press while processing changes nothing (the button is disabled); from idle it clears both slots and sets processing |
| TtsJob.Responded | streamlit_app.py:144-168 | a pending request's outcome lands in exactly one slot (success bytes unchanged, otherwise the failure message) and processing always ends false; with nothing pending nothing changes |
| TtsJob.Step | streamlit_app.py:136-168 | a press or a processing pass keeps the slots coherent (never both set, both empty while processing) |
| TtsJob.Run | streamlit_app.py:136-168 | any sequence of presses and processing passes from a coherent job ends coherent |
| TtsJob.RunSettles | streamlit_app.py:12-14 | over any run: coherent, both slots empty if no cycle completed, exactly one set when idle after a completed cycle |
| TtsJob.FreshRunSettled | streamlit_app.py:12-14 | from a new session, after any run the slots are never both set, both are None before the first completed cycle, and exactly one is set when idle afterwards |
| TtsJob.PressThenRespond | streamlit_app.py:138-168 | a click from idle followed by its processing pass ends idle, with the audio set exactly on success and the error set exactly on failure |
| TtsJob.ShowsAudio | streamlit_app.py:172 | the player is shown only for present audio, and never for empty bytes |
| TtsJob.ShowsError | streamlit_app.py:182 | the error box is shown only for a present message, and never for an empty one |
| TtsJob.FailureIsShown | streamlit_app.py:156-183 | every failed request ends with its error box shown and no player |
| TtsJob.SuccessIsShown | streamlit_app.py:154-183 | a successful request shows the player exactly when the body is not empty, and never an error |
| TtsJob.NeverBothShown | streamlit_app.py:172-183 | in a coherent state the audio player and the error box are never both rendered |
| TextBuffer.TextInputKey | streamlit_app.py:119 | the text input's key is "text_input_" followed by digits whose value is the counter |
| TextBuffer.TextInputKeyInjective | streamlit_app.py:110-119 | distinct counter values name distinct text inputs |
| TextBuffer.PrefixedKeyInjective | streamlit_app.py:119 | two keys with one prefix are equal only when their counters are |
| TextBuffer.GlyphKey | streamlit_app.py:129 | a glyph button's key is "btn_char_" followed by digits whose value is its index |
| TextBuffer.GlyphButtons | streamlit_app.py:125-130 | the loop yields one button per special character, in order, the i-th with glyph `special_chars[i]` and key `btn_char_<i>` |
| TextBuffer.GlyphKeysDistinct | streamlit_app.py:127-130 | the glyph buttons' keys are pairwise distinct |
| Session.SessionState.constructor | streamlit_app.py:9 | a session no pass has touched holds none of the keys and no widget values |
| Session.SessionState.Init | streamlit_app.py:9-18 | each key gets its default (False, None, None, "Kia orana kōtou kātoatoa", 0) only if absent; on an initialised session nothing changes |
| Session.SessionState.AddChar | streamlit_app.py:108-110 | `user_text` becomes the old text plus the glyph (the old text is a prefix), `input_key` grows by exactly one, nothing else changes, and the new key has no widget yet |
| Session.SessionState.RenderTextInput | streamlit_app.py:116-121 | a text input under a new key starts out holding `user_text`; one under a known key keeps its value; either way it shows `user_text`, and the invariant keeps the current widget equal to `user_text` |
| Session.SessionState.OnTextChange | streamlit_app.py:112-113 | `user_text` becomes the value under `text_input_<input_key>`; no other field changes; a missing key raises and changes nothing |
| Session.SessionState.EditText | streamlit_app.py:116-121 | an edit stores the value under the current key, and the callback then makes it `user_text` |
| Session.SessionState.Click | streamlit_app.py:135-142 | a click is registered exactly when idle; it clears both slots and sets processing, and `user_text` is kept |
| Session.SessionState.Process | streamlit_app.py:144-169 | with a request pending and the endpoint found, exactly one request carrying the current text and a 60-second timeout is sent; a missing endpoint sends nothing; either way the job moves as `Responded` says and processing ends false; with nothing pending nothing is sent |
| Transcription.MakeRequest | streamlit_app.py:54-62 | the request carries the file name, the bytes, content type "audio/wav", the email and a 3600-second timeout |
| Transcription.Attached | streamlit_app.py:75-96 | the audio a button has: none exactly when its widget is empty; the upload keeps its own name, a recording is named "recording.wav" |
| Transcription.Decide | streamlit_app.py:72-96 | an empty email gives the email error whatever the audio; a non-empty email without audio gives the missing-audio error; otherwise one request, named after the upload or "recording.wav" |
| Transcription.NoticeFor | streamlit_app.py:73-101 | success text exactly on acceptance, with each path's own acknowledgment; the email error text; each path's own missing-audio text |
| Transcription.BlankEmailPasses | streamlit_app.py:73 | any non-empty email made only of blanks is accepted when audio is attached |
| Transcription.Transcriber.constructor | streamlit_app.py:54-67 | a new page has dispatched nothing |
| Transcription.Transcriber.SubmitAudio | streamlit_app.py:54-67 | one call appends exactly one request to the dispatch log |
| Transcription.Transcriber.Submit | streamlit_app.py:69-101 | the verdict is `Decide`'s; exactly one request is dispatched when accepted and none otherwise |

## Left out

- Page navigation (`option_menu`), and the Home, Parsing, Spell Checking, Forced Alignment and About pages: they only render fixed content.
- The HTTP client and `st.secrets`: the result of the lookup and the request is the `Outcome` parameter of `Process`. A failed `TTS_URL` lookup is the `NoEndpoint` case, which carries the exception's type name and text. That type is `KeyError` when a secrets store is loaded but has no `TTS_URL` key, and `FileNotFoundError` when there is no secrets file; newer Streamlit releases raise their own error type there. In every such case nothing is posted, and the message is the catch-all one for that type. The ASR endpoint's URL is not modelled.
- The decision `response.ok` is made inside the HTTP library. A status of 400 to 599 is not ok, and any other status is. `Outcome` is already split into `Ok` and `HttpError`.
- A `ConnectTimeout` is both a connection error and a timeout in the HTTP library, and the code's first `except` catches it as a connection error. `Outcome` treats the two kinds as disjoint, so the model has that case under `ConnError`.
- The detached dispatch thread and the exceptions it swallows: a dispatch is one entry in a ghost log, and its outcome is never observed, as in the code.
- How `st.rerun()` schedules passes: the click and the processing pass are two explicit steps.
- Audio playback, the download button (`output.wav`, `audio/wav`) and reading uploaded bytes: display and I/O only. Only the decision of which result panel is shown is modelled.
- Streamlit's clean-up of widget state for widgets that a pass did not render: old widget values stay in the map. Entries under earlier counters are never read again, because the counter only grows. The entry under the current counter can be dropped by Streamlit, for example when the user leaves the page and comes back. Streamlit then re-creates that widget from `value=user_text`, while the model keeps the entry. The two agree because `SessionState.Valid()` keeps that entry equal to `userText` between callbacks.
