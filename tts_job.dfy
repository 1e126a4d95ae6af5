/**
 * The voice-generation job as a value: the busy flag and the two result
 * slots.  A press of the generate button and the processing pass that the
 * forced rerun triggers are two separate steps; `Run` applies any sequence
 * of them, and the lemmas below state what holds after every such run.
 */
module TtsJob {
  import opened Common
  import opened TtsMessages

  datatype Job = Job(processing: bool, audio: Option<Bytes>, error: Option<string>)

  /** One event of the generation cycle. */
  datatype Event = Press | Respond(outcome: Outcome)

  /** A new session: idle, nothing generated, no error. */
  const Fresh: Job := Job(false, None, None)

  const IdleLabel: string := "Generate audio"
  const BusyLabel: string := "Please wait..."

  /** The generate button's caption: the busy caption exactly while a request is pending. */
  function GenerateLabel(j: Job): (caption: string)
    ensures caption == BusyLabel <==> j.processing
    ensures caption == IdleLabel <==> !j.processing
  {
    if j.processing then BusyLabel else IdleLabel
  }

  /**
   * The generate button accepts clicks exactly when no request is pending,
   * which is exactly when it carries the idle caption.
   */
  predicate GenerateEnabled(j: Job)
    ensures GenerateEnabled(j) <==> GenerateLabel(j) == IdleLabel
  {
    !j.processing
  }

  /** The two result slots are never both filled, and both are empty while a request is pending. */
  predicate Coherent(j: Job) {
    !(j.audio.Some? && j.error.Some?)
    && (j.processing ==> j.audio.None? && j.error.None?)
  }

  /**
   * A press of the generate button.  A disabled button reports no click, so
   * a press while busy changes nothing; from idle it clears both result slots
   * and marks the job busy.
   */
  function Pressed(j: Job): (r: Job)
    ensures !GenerateEnabled(j) ==> r == j
    ensures GenerateEnabled(j) ==> r.processing && r.audio.None? && r.error.None?
  {
    if j.processing then j else Job(true, None, None)
  }

  /**
   * The processing pass.  When a request is pending its outcome goes into
   * exactly one slot (the bytes unchanged on success, the failure's message
   * otherwise) and the job is idle afterwards; when none is pending the pass
   * does nothing.
   */
  function Responded(j: Job, o: Outcome): (r: Job)
    requires Coherent(j)
    ensures !r.processing
    ensures !j.processing ==> r == j
    ensures j.processing && o.Ok? ==> r.audio == Some(o.content) && r.error.None?
    ensures j.processing && !o.Ok? ==> r.audio.None? && r.error == Some(FailureMessage(o))
  {
    if !j.processing then j
    else if o.Ok? then Job(false, Some(o.content), j.error)
    else Job(false, j.audio, Some(FailureMessage(o)))
  }

  function Step(j: Job, e: Event): (r: Job)
    requires Coherent(j)
    ensures Coherent(r)
  {
    match e
    case Press => Pressed(j)
    case Respond(o) => Responded(j, o)
  }

  /** The job after the events in order. */
  function Run(j: Job, events: seq<Event>): (r: Job)
    requires Coherent(j)
    ensures Coherent(r)
    decreases |events|
  {
    if events == [] then j else Run(Step(j, events[0]), events[1..])
  }

  /** How many of the events were processing passes that handled a pending request. */
  function Cycles(j: Job, events: seq<Event>): nat
    requires Coherent(j)
    decreases |events|
  {
    if events == [] then 0
    else (if events[0].Respond? && j.processing then 1 else 0) + Cycles(Step(j, events[0]), events[1..])
  }

  /**
   * What the result slots say about the history: both empty until a cycle
   * has completed; after one has, exactly one is full whenever the job is idle.
   */
  predicate Settled(j: Job, cycles: nat) {
    Coherent(j)
    && (cycles == 0 ==> j.audio.None? && j.error.None?)
    && (cycles > 0 && !j.processing ==> j.audio.Some? != j.error.Some?)
  }

  lemma {:induction false} RunSettles(j: Job, n: nat, events: seq<Event>)
    requires Settled(j, n)
    ensures Settled(Run(j, events), n + Cycles(j, events))
    decreases |events|
  {
    if events != [] {
      var k := Step(j, events[0]);
      var c := if events[0].Respond? && j.processing then 1 else 0;
      assert Settled(k, n + c);
      RunSettles(k, n + c, events[1..]);
    }
  }

  /**
   * From a new session, after any sequence of presses and processing passes,
   * the slots are never both set, both stay empty until the first cycle has
   * completed, and after that exactly one is set whenever the job is idle.
   */
  lemma FreshRunSettled(events: seq<Event>)
    ensures var r := Run(Fresh, events);
            var n := Cycles(Fresh, events);
            !(r.audio.Some? && r.error.Some?)
            && (n == 0 ==> r.audio.None? && r.error.None?)
            && (n > 0 && !r.processing ==> r.audio.Some? != r.error.Some?)
  {
    RunSettles(Fresh, 0, events);
  }

  /** A press followed by its processing pass always ends idle, with the outcome in exactly one slot. */
  lemma PressThenRespond(j: Job, o: Outcome)
    requires Coherent(j) && GenerateEnabled(j)
    ensures var r := Responded(Pressed(j), o);
            GenerateEnabled(r)
            && (o.Ok? <==> r.audio.Some?)
            && (!o.Ok? <==> r.error.Some?)
            && (o.Ok? ==> r.audio == Some(o.content))
  {
  }

  /**
   * Whether the page shows the audio player: `audio_bytes` is tested for
   * truthiness, so neither `None` nor empty bytes show it.
   */
  function ShowsAudio(j: Job): (shown: bool)
    ensures shown ==> j.audio.Some?
    ensures j.audio == Some([]) ==> !shown
  {
    j.audio.Some? && |j.audio.value| > 0
  }

  /**
   * Whether the page shows the error box: `error_message` is tested for
   * truthiness, so neither `None` nor an empty message shows it.
   */
  function ShowsError(j: Job): (shown: bool)
    ensures shown ==> j.error.Some?
    ensures j.error == Some("") ==> !shown
  {
    j.error.Some? && |j.error.value| > 0
  }

  /** Every failed request ends with its error box on screen and no player. */
  lemma FailureIsShown(j: Job, o: Outcome)
    requires Coherent(j) && j.processing && !o.Ok?
    ensures ShowsError(Responded(j, o)) && !ShowsAudio(Responded(j, o))
  {
  }

  /** A successful request shows the player exactly when the body is not empty, and never an error. */
  lemma SuccessIsShown(j: Job, b: Bytes)
    requires Coherent(j) && j.processing
    ensures ShowsAudio(Responded(j, Ok(b))) <==> |b| > 0
    ensures !ShowsError(Responded(j, Ok(b)))
  {
  }

  /** The audio player and the error box are never shown together. */
  lemma NeverBothShown(j: Job)
    requires Coherent(j)
    ensures !(ShowsAudio(j) && ShowsError(j))
  {
  }
}
