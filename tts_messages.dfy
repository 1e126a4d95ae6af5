/**
 * The outcome of a processing pass's attempt to call the synthesis endpoint,
 * and the error text the page stores for each kind of failure.  The HTTP
 * client and the secrets store are not modelled: their result arrives as an
 * `Outcome` value.
 */
module TtsMessages {
  import opened Common
  import Decimal

  /**
   * What the attempt produced: either the lookup of the `TTS_URL` secret
   * raised before any request was made, or `requests.post` produced a
   * response or raised.
   */
  datatype Outcome =
    | NoEndpoint(kind: string, msg: string)             // `st.secrets["TTS_URL"]` raised: its type name and text
    | Ok(content: Bytes)                                // `response.ok`: the body bytes
    | HttpError(code: int, reason: string, body: string) // a response that is not ok
    | ConnError(msg: string)                            // `requests.exceptions.ConnectionError`
    | Timeout(msg: string)                              // `requests.exceptions.Timeout`
    | Other(kind: string, msg: string)                  // any other exception: its type name and text

  /** The failure categories the page tells apart. */
  datatype Category = HttpCategory | ConnectionCategory | TimeoutCategory | UnexpectedCategory

  const HttpPrefix: string := "HTTP Error "
  const BodyLabel: string := "\nResponse body: "
  const ConnectionPrefix: string := "Connection error: "
  const TimeoutPrefix: string := "Request timed out: "
  const UnexpectedPrefix: string := "Unexpected error: "

  function CategoryOf(o: Outcome): Category
    requires !o.Ok?
  {
    match o
    case HttpError(_, _, _) => HttpCategory
    case ConnError(_) => ConnectionCategory
    case Timeout(_) => TimeoutCategory
    case Other(_, _) => UnexpectedCategory
    case NoEndpoint(_, _) => UnexpectedCategory
  }

  /** Whether the attempt reached `requests.post`, that is, whether a request went out. */
  predicate Posted(o: Outcome) {
    !o.NoEndpoint?
  }

  /** The type names the secrets lookup raises: no `TTS_URL` key in a loaded store, or no secrets file at all. */
  const KeyErrorName: string := "KeyError"
  const NoSecretsFileName: string := "FileNotFoundError"

  /**
   * The text stored in `error_message` for a failed request.  Every message
   * opens with its category's phrase and closes with the text the failure
   * carried (the response body, or the exception's text).
   */
  function FailureMessage(o: Outcome): (m: string)
    requires !o.Ok?
    ensures o.HttpError? ==> HttpPrefix <= m && EndsWith(m, o.body)
    ensures o.ConnError? ==> ConnectionPrefix <= m && EndsWith(m, o.msg)
    ensures o.Timeout? ==> TimeoutPrefix <= m && EndsWith(m, o.msg)
    ensures o.Other? ==> UnexpectedPrefix <= m && EndsWith(m, o.msg)
    ensures o.NoEndpoint? ==> UnexpectedPrefix <= m && EndsWith(m, o.msg)
  {
    match o
    case HttpError(code, reason, body) =>
      HttpPrefix + Decimal.IntToString(code) + ": " + reason + BodyLabel + body
    case ConnError(msg) => ConnectionPrefix + msg
    case Timeout(msg) => TimeoutPrefix + msg
    case Other(kind, msg) => UnexpectedPrefix + kind + ": " + msg
    case NoEndpoint(kind, msg) => UnexpectedPrefix + kind + ": " + msg
  }

  /** `s` closes with `t`. */
  predicate EndsWith(s: string, t: string) {
    |t| <= |s| && s[|s| - |t|..] == t
  }

  /** `t` occurs in `s` starting at position `i`. */
  predicate OccursAt(t: string, s: string, i: nat) {
    i + |t| <= |s| && s[i..i + |t|] == t
  }

  /**
   * An HTTP failure message holds the status code as Python renders it, then
   * ": ", the reason phrase, "\nResponse body: " and the body text, each at a
   * position fixed by the lengths of the pieces before it.  With the prefix
   * clause of `FailureMessage` this determines the whole message.
   */
  lemma HttpMessageParts(code: int, reason: string, body: string)
    ensures var m := FailureMessage(HttpError(code, reason, body));
            var c := Decimal.IntToString(code);
            OccursAt(c, m, |HttpPrefix|)
            && OccursAt(": ", m, |HttpPrefix| + |c|)
            && OccursAt(reason, m, |HttpPrefix| + |c| + 2)
            && OccursAt(body, m, |m| - |body|)
            && m[|HttpPrefix| + |c| + 2 + |reason|..|m| - |body|] == BodyLabel
  {
    var m := FailureMessage(HttpError(code, reason, body));
    var c := Decimal.IntToString(code);
    var a := HttpPrefix + c;
    var b := a + ": " + reason;
    assert m == b + BodyLabel + body;
    assert m[|HttpPrefix|..|HttpPrefix| + |c|] == a[|HttpPrefix|..] == c;
    assert m[|a|..|a| + 2] == ": ";
    assert m[|a| + 2..|a| + 2 + |reason|] == b[|a| + 2..] == reason;
  }

  /** An unexpected-error message names the exception type right after its prefix. */
  lemma UnexpectedMessageParts(kind: string, msg: string)
    ensures var m := FailureMessage(Other(kind, msg));
            OccursAt(kind, m, |UnexpectedPrefix|)
            && OccursAt(": ", m, |UnexpectedPrefix| + |kind|)
            && OccursAt(msg, m, |UnexpectedPrefix| + |kind| + 2)
  {
    var m := FailureMessage(Other(kind, msg));
    var a := UnexpectedPrefix + kind;
    assert m == a + ": " + msg;
    assert m[|UnexpectedPrefix|..|a|] == kind;
  }

  /** Reads the failure category back from a message by its opening phrase. */
  function Classify(m: string): Option<Category> {
    if HttpPrefix <= m then Some(HttpCategory)
    else if ConnectionPrefix <= m then Some(ConnectionCategory)
    else if TimeoutPrefix <= m then Some(TimeoutCategory)
    else if UnexpectedPrefix <= m then Some(UnexpectedCategory)
    else None
  }

  /** The four kinds of failure give four distinguishable messages. */
  lemma ClassifyFailureMessage(o: Outcome)
    requires !o.Ok?
    ensures Classify(FailureMessage(o)) == Some(CategoryOf(o))
  {
    var m := FailureMessage(o);
    // The four phrases already differ in their first letters.
    assert HttpPrefix[0] == 'H' && ConnectionPrefix[0] == 'C';
    assert TimeoutPrefix[0] == 'R' && UnexpectedPrefix[0] == 'U';
    assert m[0] == (match o
                    case HttpError(_, _, _) => 'H'
                    case ConnError(_) => 'C'
                    case Timeout(_) => 'R'
                    case Other(_, _) => 'U'
                    case NoEndpoint(_, _) => 'U');
  }

  /** A 500 response with body "model unavailable": the message shows both. */
  lemma ServerErrorMessage()
    ensures var m := FailureMessage(HttpError(500, "Internal Server Error", "model unavailable"));
            OccursAt("500", m, |HttpPrefix|) && EndsWith(m, "model unavailable")
  {
    assert Decimal.NatToDecimal(5) == "5";
    assert Decimal.NatToDecimal(50) == Decimal.NatToDecimal(5) + "0" == "50";
    assert Decimal.NatToDecimal(500) == Decimal.NatToDecimal(50) + "0" == "500";
    HttpMessageParts(500, "Internal Server Error", "model unavailable");
  }

  /**
   * A failed `TTS_URL` lookup is reported through the catch-all handler,
   * exactly as any other exception of the same type would be, with the type
   * name right after the prefix.
   */
  lemma NoEndpointMessage(kind: string, msg: string)
    ensures FailureMessage(NoEndpoint(kind, msg)) == FailureMessage(Other(kind, msg))
    ensures OccursAt(kind, FailureMessage(NoEndpoint(kind, msg)), |UnexpectedPrefix|)
  {
    UnexpectedMessageParts(kind, msg);
  }

  /** A store without the key and a missing secrets file give different messages. */
  lemma NoEndpointKindsDiffer(msg: string, msg': string)
    ensures FailureMessage(NoEndpoint(KeyErrorName, msg)) != FailureMessage(NoEndpoint(NoSecretsFileName, msg'))
  {
    var m := FailureMessage(NoEndpoint(KeyErrorName, msg));
    var m' := FailureMessage(NoEndpoint(NoSecretsFileName, msg'));
    assert m[|UnexpectedPrefix|] == 'K' && m'[|UnexpectedPrefix|] == 'F';
  }
}
