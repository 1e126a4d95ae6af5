/**
 * One browser session's `st.session_state` for the voice-generation page,
 * as an object whose methods are the page's callbacks and script passes.
 */
module Session {
  import opened Common
  import opened TtsMessages
  import opened TtsJob
  import opened TextBuffer

  /** The session-state keys the script initialises. */
  datatype Key = ProcessingKey | AudioBytesKey | ErrorMessageKey | UserTextKey | InputCounterKey

  const AllKeys: set<Key> := {ProcessingKey, AudioBytesKey, ErrorMessageKey, UserTextKey, InputCounterKey}

  /** The JSON body `{"text": ...}` posted to the synthesis endpoint, with its timeout in seconds. */
  datatype TtsRequest = TtsRequest(text: string, timeout: nat)

  const TtsTimeout: nat := 60

  class SessionState {
    /** Which of the keys above the session already holds. */
    var present: set<Key>
    var processing: bool
    var audioBytes: Option<Bytes>
    var errorMessage: Option<string>
    var userText: string
    /** The counter whose value names the current text input, `text_input_<inputKey>`. */
    var inputKey: nat
    /** The stored value of each text input widget, under the counter that names it. */
    var widgets: map<nat, string>

    function JobView(): Job
      reads this
    {
      Job(processing, audioBytes, errorMessage)
    }

    predicate Initialised()
      reads this
    {
      present == AllKeys
    }

    /**
     * The result slots are coherent, no widget is named by a counter value
     * not yet reached, and there are no widgets before the text and the
     * counter exist.
     */
    ghost predicate Consistent()
      reads this
    {
      Coherent(JobView())
      && (forall n :: n in widgets ==> n <= inputKey)
      && (InputCounterKey !in present || UserTextKey !in present ==> widgets == map[])
    }

    /**
     * Between callbacks the current text input, when it exists, holds exactly
     * `userText`.  So a text input that Streamlit re-creates from
     * `value=user_text` shows the same text as the one it replaces.
     */
    ghost predicate Valid()
      reads this
    {
      Consistent()
      && (inputKey in widgets ==> widgets[inputKey] == userText)
    }

    /** A session that no script pass has touched yet. */
    constructor ()
      ensures Valid()
      ensures present == {} && widgets == map[]
    {
      present := {};
      processing := false;
      audioBytes := None;
      errorMessage := None;
      userText := "";
      inputKey := 0;
      widgets := map[];
    }

    /**
     * The initialisation at the top of every script pass: each key is given
     * its default only when the session does not hold it yet.
     */
    method Init()
      requires Valid()
      modifies this`present, this`processing, this`audioBytes, this`errorMessage, this`userText, this`inputKey
      ensures Valid() && Initialised()
      ensures processing == if ProcessingKey in old(present) then old(processing) else false
      ensures audioBytes == if AudioBytesKey in old(present) then old(audioBytes) else None
      ensures errorMessage == if ErrorMessageKey in old(present) then old(errorMessage) else None
      ensures userText == if UserTextKey in old(present) then old(userText) else Greeting
      ensures inputKey == if InputCounterKey in old(present) then old(inputKey) else 0
      ensures old(Initialised()) ==> JobView() == old(JobView()) && userText == old(userText) && inputKey == old(inputKey)
    {
      if ProcessingKey !in present {
        processing := false;
      }
      if AudioBytesKey !in present {
        audioBytes := None;
      }
      if ErrorMessageKey !in present {
        errorMessage := None;
      }
      if UserTextKey !in present {
        userText := Greeting;
      }
      if InputCounterKey !in present {
        inputKey := 0;
      }
      present := AllKeys;
    }

    /**
     * The callback of a glyph button: append the glyph and bump the counter,
     * so that the next pass renders a text input under a key no widget has
     * used, which therefore shows the new text.
     */
    method AddChar(c: char)
      requires Valid() && Initialised()
      modifies this`userText, this`inputKey
      ensures Valid()
      ensures userText == old(userText) + [c]
      ensures old(userText) <= userText
      ensures inputKey == old(inputKey) + 1
      ensures inputKey !in widgets
    {
      userText := userText + [c];
      inputKey := inputKey + 1;
    }

    /**
     * The text input of a pass: a widget under a new key starts out holding
     * `userText`, one under a known key keeps the value it holds.
     */
    method RenderTextInput() returns (shown: string)
      requires Valid() && Initialised()
      modifies this`widgets
      ensures Valid()
      ensures widgets == if inputKey in old(widgets) then old(widgets) else old(widgets)[inputKey := userText]
      ensures inputKey in widgets && shown == widgets[inputKey]
      ensures shown == userText
    {
      if inputKey !in widgets {
        widgets := widgets[inputKey := userText];
      }
      shown := widgets[inputKey];
    }

    /**
     * The `on_change` callback: copy the value of the current text input into
     * `userText`.  When the session holds no value under the current key the
     * lookup raises and nothing changes.
     */
    method OnTextChange() returns (raised: bool)
      requires Consistent() && Initialised()
      modifies this`userText
      ensures Valid()
      ensures raised <==> inputKey !in widgets
      ensures userText == if raised then old(userText) else widgets[inputKey]
    {
      if inputKey in widgets {
        userText := widgets[inputKey];
        raised := false;
      } else {
        raised := true;
      }
    }

    /**
     * The user edits the text input on screen: the widget stores the new
     * value under its key and then its `on_change` callback runs.
     */
    method EditText(v: string)
      requires Valid() && Initialised()
      requires inputKey in widgets
      modifies this`widgets, this`userText
      ensures Valid()
      ensures widgets == old(widgets)[inputKey := v]
      ensures userText == v
    {
      widgets := widgets[inputKey := v];
      var raised := OnTextChange();
    }

    /**
     * A click on the generate button.  While a request is pending the button
     * is disabled and reports no click; otherwise both result slots are
     * cleared and the job is marked busy.  The text is kept.
     */
    method Click() returns (clicked: bool)
      requires Valid() && Initialised()
      modifies this`processing, this`audioBytes, this`errorMessage
      ensures Valid()
      ensures clicked == !old(processing)
      ensures JobView() == Pressed(old(JobView()))
    {
      clicked := !processing;
      if clicked {
        audioBytes := None;
        errorMessage := None;
        processing := true;
      }
    }

    /**
     * The processing pass.  When a request is pending it looks up the
     * endpoint and posts the current text once, unless the lookup itself
     * raised; it stores the outcome `o` in exactly one slot and always clears
     * the busy flag.  With no request pending it posts nothing and changes
     * nothing.
     */
    method Process(o: Outcome) returns (sent: Option<TtsRequest>)
      requires Valid() && Initialised()
      modifies this`processing, this`audioBytes, this`errorMessage
      ensures Valid()
      ensures sent == if old(processing) && Posted(o) then Some(TtsRequest(userText, TtsTimeout)) else None
      ensures JobView() == Responded(old(JobView()), o)
    {
      sent := None;
      if processing {
        if Posted(o) {
          sent := Some(TtsRequest(userText, TtsTimeout));
        }
        if o.Ok? {
          audioBytes := Some(o.content);
        } else {
          errorMessage := Some(FailureMessage(o));
        }
        processing := false;
      }
    }
  }

  /** A new session gets the defaults, and a second initialisation keeps them. */
  method InitScenario() {
    var s := new SessionState();
    s.Init();
    assert s.userText == Greeting && s.inputKey == 0 && !s.processing;
    assert s.audioBytes.None? && s.errorMessage.None?;
    s.Init();
    assert s.userText == Greeting && s.inputKey == 0;
  }

  /** Typed text, then a glyph appended after it: both survive, and the new widget shows them. */
  method TextScenario() {
    var s := new SessionState();
    s.Init();
    var shown := s.RenderTextInput();
    s.EditText("Kia");
    s.AddChar('ā');
    assert s.userText == "Kia" + ['ā'];
    shown := s.RenderTextInput();
    assert shown == "Kiaā";
  }

  /** An HTTP 500, a second click while busy, a timeout, a success, then a missing endpoint. */
  method GenerateScenario(b: Bytes) {
    var s := new SessionState();
    s.Init();
    var clicked := s.Click();
    assert clicked && GenerateLabel(s.JobView()) == BusyLabel;
    clicked := s.Click();
    assert !clicked;
    var sent := s.Process(HttpError(500, "Internal Server Error", "model unavailable"));
    assert sent == Some(TtsRequest(Greeting, TtsTimeout));
    assert !s.processing && s.audioBytes.None? && s.errorMessage.Some?;

    clicked := s.Click();
    sent := s.Process(Timeout("read timed out"));
    assert !s.processing && s.errorMessage.Some? && TimeoutPrefix <= s.errorMessage.value;

    clicked := s.Click();
    sent := s.Process(Ok(b));
    assert s.audioBytes == Some(b) && s.errorMessage.None?;
    sent := s.Process(Ok([]));
    assert sent.None? && s.audioBytes == Some(b);

    // No endpoint configured: nothing is posted, and the error is shown.
    clicked := s.Click();
    sent := s.Process(NoEndpoint(NoSecretsFileName, "No secrets files found."));
    assert sent.None? && !s.processing && s.audioBytes.None? && s.errorMessage.Some?;
  }
}
