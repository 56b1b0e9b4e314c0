/**
 * What the payslip parser does with the language model's reply: find the
 * JSON object in it, parse that, and turn every failure into an error
 * object with an empty payslip list instead of raising.
 *
 * The JSON decoder and the chat call are outside the model; both are
 * parameters (oracles). A failed decoder call carries the decoder's message;
 * a failed chat call carries the kind and the message of the exception it
 * raised.
 */
module LlmResponse {
  import opened Wrappers

  /** The search pattern \{.*\} with DOTALL matches `s` from index `i` to index `k`, both included. */
  ghost predicate BraceSpan(s: string, i: int, k: int) {
    0 <= i < k < |s| && s[i] == '{' && s[k] == '}'
  }

  /**
   * The span a regular-expression search for \{.*\} with DOTALL reports:
   * the leftmost start at which the pattern matches and, the star being
   * greedy, the longest match from that start.
   */
  ghost predicate SearchFinds(s: string, i: int, k: int) {
    && BraceSpan(s, i, k)
    && (forall i', k' :: BraceSpan(s, i', k') ==> i <= i')
    && (forall k' :: BraceSpan(s, i, k') ==> k' <= k)
  }

  /** The index of the first `c` in `s`, if any. */
  function FirstIndexOf(s: string, c: char): (r: Option<nat>)
    ensures r.Some? ==> r.value < |s| && s[r.value] == c
    ensures r.Some? ==> forall j :: 0 <= j < r.value ==> s[j] != c
    ensures r.None? ==> forall j :: 0 <= j < |s| ==> s[j] != c
  {
    if |s| == 0 then None
    else if s[0] == c then Some(0)
    else match FirstIndexOf(s[1..], c)
      case None => None
      case Some(i) => Some(i + 1)
  }

  /** The index of the last `c` in `s`, if any. */
  function LastIndexOf(s: string, c: char): (r: Option<nat>)
    ensures r.Some? ==> r.value < |s| && s[r.value] == c
    ensures r.Some? ==> forall j :: r.value < j < |s| ==> s[j] != c
    ensures r.None? ==> forall j :: 0 <= j < |s| ==> s[j] != c
  {
    if |s| == 0 then None
    else if s[|s| - 1] == c then Some(|s| - 1)
    else LastIndexOf(s[..|s| - 1], c)
  }

  /**
   * The JSON candidate cut out of the model's reply: from the first `{` to
   * the last `}`, both included, when that `}` comes after that `{`;
   * otherwise there is no candidate. This is what the search reports.
   */
  function ExtractJsonCandidate(s: string): (r: Option<string>)
    ensures r.None? <==> forall i, k :: !BraceSpan(s, i, k)
    ensures r.Some? ==> exists i, k :: SearchFinds(s, i, k) && r.value == s[i..k + 1]
    ensures r.Some? ==> |r.value| >= 2 && r.value[0] == '{' && r.value[|r.value| - 1] == '}'
  {
    match FirstIndexOf(s, '{')
    case None => None
    case Some(i) =>
      match LastIndexOf(s, '}')
      case None => None
      case Some(k) =>
        if i < k then
          assert SearchFinds(s, i, k);
          Some(s[i..k + 1])
        else
          None
  }

  /** The search reports at most one span. */
  lemma SearchFindsUnique(s: string, i1: int, k1: int, i2: int, k2: int)
    requires SearchFinds(s, i1, k1) && SearchFinds(s, i2, k2)
    ensures i1 == i2 && k1 == k2
  {
    assert i1 <= i2 && i2 <= i1;
  }

  /** Whenever the search reports a span, the candidate is exactly that span of the reply. */
  lemma CandidateIsSearchResult(s: string, i: int, k: int)
    requires SearchFinds(s, i, k)
    ensures ExtractJsonCandidate(s) == Some(s[i..k + 1])
  {
    var r := ExtractJsonCandidate(s);
    assert r.Some?;
    var i', k' :| SearchFinds(s, i', k') && r.value == s[i'..k' + 1];
    SearchFindsUnique(s, i, k, i', k');
  }

  /**
   * When the reply has a `{` with a `}` somewhere after it, the candidate
   * runs from the first `{` to the last `}`, both included.
   */
  lemma CandidateFromFirstOpenToLastClose(s: string, i: int, k: int)
    requires 0 <= i < k < |s| && s[i] == '{' && s[k] == '}'
    requires forall j :: 0 <= j < i ==> s[j] != '{'
    requires forall j :: k < j < |s| ==> s[j] != '}'
    ensures ExtractJsonCandidate(s) == Some(s[i..k + 1])
  {
    assert SearchFinds(s, i, k);
    CandidateIsSearchResult(s, i, k);
  }

  /** What the parser returns: the parsed JSON, or an error object with an empty payslip list. */
  datatype LlmResult<J> = Parsed(json: J) | Failed(payslips: seq<J>, error: string)

  /**
   * An exception raised by the chat call: a JSON decode error (the client
   * decodes the HTTP body as JSON) or any other exception, with its message.
   */
  datatype CallError = JsonDecodeError(message: string) | OtherError(message: string)

  /** The error message when the reply holds no `{` followed somewhere by a `}`. */
  const NoJsonMessage: string := "No valid JSON object found in LLM response."
  /** What a decoder error message is prefixed with. */
  const DecodeErrorPrefix: string := "JSON Decode Error: "

  /**
   * What the parser makes of the text of a reply: the decoder's value for the
   * searched candidate, or an error object when there is no candidate or the
   * decoder rejects it. `parse` is the JSON decoder (a failure carries the
   * decoder's message).
   */
  function ProcessReplyText<J>(output: string, parse: string -> Result<J, string>): (r: LlmResult<J>)
    ensures r.Failed? ==> r.payslips == []
    ensures (forall i, k :: !BraceSpan(output, i, k)) ==> r == Failed([], NoJsonMessage)
    ensures r.Parsed? ==> exists i, k :: SearchFinds(output, i, k) && parse(output[i..k + 1]) == Success(r.json)
    ensures forall i, k :: SearchFinds(output, i, k) && parse(output[i..k + 1]).Success? ==>
      r == Parsed(parse(output[i..k + 1]).value)
    ensures forall i, k :: SearchFinds(output, i, k) && parse(output[i..k + 1]).Failure? ==>
      r == Failed([], DecodeErrorPrefix + parse(output[i..k + 1]).error)
  {
    match ExtractJsonCandidate(output)
    case None => Failed([], NoJsonMessage)
    case Some(candidate) =>
      CandidateIsEverySearchResult(output);
      match parse(candidate)
      case Success(json) => Parsed(json)
      case Failure(message) => Failed([], DecodeErrorPrefix + message)
  }

  /** Every span the search reports is the candidate. */
  lemma CandidateIsEverySearchResult(s: string)
    ensures forall i, k :: SearchFinds(s, i, k) ==> ExtractJsonCandidate(s) == Some(s[i..k + 1])
  {
    forall i, k | SearchFinds(s, i, k)
      ensures ExtractJsonCandidate(s) == Some(s[i..k + 1])
    {
      CandidateIsSearchResult(s, i, k);
    }
  }

  /**
   * The post-processing of the model's reply. `reply` is the chat call's
   * outcome (a failure carries the exception the call raised). A JSON decode
   * error gets the decode-error prefix wherever it was raised; any other
   * exception gives its own message.
   */
  function ProcessLlmOutput<J>(reply: Result<string, CallError>, parse: string -> Result<J, string>): (r: LlmResult<J>)
    ensures r.Failed? ==> r.payslips == []
    ensures reply.Failure? && reply.error.JsonDecodeError? ==> r == Failed([], DecodeErrorPrefix + reply.error.message)
    ensures reply.Failure? && reply.error.OtherError? ==> r == Failed([], reply.error.message)
    ensures reply.Success? && (forall i, k :: !BraceSpan(reply.value, i, k)) ==> r == Failed([], NoJsonMessage)
    ensures r.Parsed? ==>
      reply.Success? && exists i, k :: SearchFinds(reply.value, i, k) && parse(reply.value[i..k + 1]) == Success(r.json)
    ensures forall i, k :: reply.Success? && SearchFinds(reply.value, i, k) && parse(reply.value[i..k + 1]).Success? ==>
      r == Parsed(parse(reply.value[i..k + 1]).value)
    ensures forall i, k :: reply.Success? && SearchFinds(reply.value, i, k) && parse(reply.value[i..k + 1]).Failure? ==>
      r == Failed([], DecodeErrorPrefix + parse(reply.value[i..k + 1]).error)
  {
    match reply
    case Failure(JsonDecodeError(message)) => Failed([], DecodeErrorPrefix + message)
    case Failure(OtherError(message)) => Failed([], message)
    case Success(output) => ProcessReplyText(output, parse)
  }
}
