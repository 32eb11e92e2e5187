/** The backend liaison of the chat page: the process probe (is_ollama_running), the
    API probe (check_ollama_api) and the generation client (get_ai_response).
    Process enumeration and HTTP are not performed here: the process list is an input
    sequence and the HTTP library is a transport function handed in by the caller,
    from (url, payload, timeout in seconds) to what the request came back with. */
module Liaison {
  import opened Text
  import MentalHealth

  datatype Option<T> = None | Some(value: T)

  // ---------------------------------------------------------------------------
  // Process probe
  // ---------------------------------------------------------------------------

  /** What reading one process's name did: produced the name, or raised. */
  datatype ProcError =
    | NoSuchProcess
    | AccessDenied
    | ZombieProcess
      /** Any other exception, e.g. the AttributeError of calling lower() on a
          missing (None) name; it is not caught by the scan. */
    | Uncaught(message: string)

  datatype ProcEntry = Named(name: string) | Raises(error: ProcError)

  /** The scan either answers or lets an uncaught exception escape. */
  datatype ScanResult = Scanned(running: bool) | Escaped(message: string)

  const BackendName := "ollama"

  /** The three errors the scan tolerates. */
  predicate Skippable(e: ProcError) {
    e.NoSuchProcess? || e.AccessDenied? || e.ZombieProcess?
  }

  predicate Matches(p: ProcEntry) {
    p.Named? && Contains(Lower(p.name), BackendName)
  }

  predicate Aborts(p: ProcEntry) {
    p.Raises? && !Skippable(p.error)
  }

  /** No entry before position `k` ends the scan: none matches and none raises an
      error the scan does not tolerate. */
  predicate Undecided(procs: seq<ProcEntry>, k: int)
    requires 0 <= k <= |procs|
  {
    forall j :: 0 <= j < k ==> !Matches(procs[j]) && !Aborts(procs[j])
  }

  /** Scans the processes in order and stops at the first whose lower-cased name
      contains "ollama"; entries raising NoSuchProcess, AccessDenied or ZombieProcess
      are skipped, any other exception escapes. */
  method IsOllamaRunning(procs: seq<ProcEntry>) returns (r: ScanResult)
    ensures r == Scanned(true) <==>
      exists i :: 0 <= i < |procs| && Undecided(procs, i) && Matches(procs[i])
    ensures r == Scanned(false) <==> Undecided(procs, |procs|)
    ensures r.Escaped? ==>
      exists i :: 0 <= i < |procs| && Undecided(procs, i) && procs[i] == Raises(Uncaught(r.message))
  {
    var k := 0;
    while k < |procs|
      invariant 0 <= k <= |procs|
      invariant Undecided(procs, k)
    {
      match procs[k] {
        case Named(name) =>
          if Contains(Lower(name), BackendName) {
            assert !Undecided(procs, |procs|) by { assert Matches(procs[k]); }
            return Scanned(true);
          }
        case Raises(e) =>
          if !Skippable(e) {
            assert !Undecided(procs, |procs|) by { assert Aborts(procs[k]); }
            forall i | k < i < |procs|
              ensures !Undecided(procs, i)
            {
              assert Aborts(procs[k]);
            }
            return Escaped(e.message);
          }
      }
      k := k + 1;
    }
    return Scanned(false);
  }

  // ---------------------------------------------------------------------------
  // HTTP outcomes
  // ---------------------------------------------------------------------------

  /** A response body as response.json() sees it: it fails to decode (with the
      decoder's message) or decodes to an object. */
  datatype Body = Unparseable(reason: string) | Obj(fields: map<string, string>)

  /** An exception raised by the HTTP library, described by whether it is a Timeout,
      whether it is a ConnectionError (a connect timeout is both), and its message. */
  datatype Exc = Exc(timeout: bool, connection: bool, message: string)

  datatype HttpOutcome =
    | Failed(exc: Exc)
    | Responded(status: nat, text: string, body: Body)

  predicate ParsedOk(o: HttpOutcome) {
    o.Responded? && o.status == 200 && o.body.Obj?
  }

  // ---------------------------------------------------------------------------
  // API probe
  // ---------------------------------------------------------------------------

  const TagsUrl := "http://localhost:11434/api/tags"
  const TagsTimeout := 5
  const CannotConnect := "Cannot connect to Ollama API"

  /** The detail beside the probe's verdict: the decoded body or a text. */
  datatype Detail = ParsedBody(fields: map<string, string>) | RawText(text: string)

  /** Turns the outcome of the GET into (reachable, detail). */
  function ApiStatus(o: HttpOutcome): (r: (bool, Detail))
    ensures r.0 <==> ParsedOk(o)
    ensures r.0 ==> r.1 == ParsedBody(o.body.fields)
    ensures !r.0 <==> r.1.RawText?
    ensures o.Responded? && o.status != 200 ==> r.1 == RawText(o.text)
    ensures o.Responded? && o.status == 200 && o.body.Unparseable? ==> r.1 == RawText(o.body.reason)
    ensures o.Failed? && o.exc.connection ==> r.1 == RawText(CannotConnect)
    ensures o.Failed? && !o.exc.connection ==> r.1 == RawText(o.exc.message)
  {
    match o
    case Responded(status, text, body) =>
      if status != 200 then (false, RawText(text))
      else (
        match body
        case Obj(fields) => (true, ParsedBody(fields))
        // response.json() raised: caught by the generic handler as str(e)
        case Unparseable(reason) => (false, RawText(reason))
      )
    case Failed(exc) =>
      if exc.connection then (false, RawText(CannotConnect)) else (false, RawText(exc.message))
  }

  /** check_ollama_api: one GET to the tags endpoint with a 5-second timeout. */
  function CheckOllamaApi(get: (string, nat) -> HttpOutcome): (r: (bool, Detail))
    ensures r.0 <==> ParsedOk(get(TagsUrl, TagsTimeout))
    ensures r == ApiStatus(get(TagsUrl, TagsTimeout))
  {
    ApiStatus(get(TagsUrl, TagsTimeout))
  }

  // ---------------------------------------------------------------------------
  // Generation client
  // ---------------------------------------------------------------------------

  datatype Role = User | Assistant

  datatype Turn = Turn(role: Role, content: string)

  /** The sampling options. The reals stand for the Python floats 0.7, 0.9 and 1.1;
      their binary rounding is not modelled. */
  datatype Options = Options(temperature: real, numPredict: nat, topK: nat, topP: real, repeatPenalty: real)

  datatype Payload = Payload(model: string, prompt: string, stream: bool, options: Options)

  const GenerateUrl := "http://localhost:11434/api/generate"
  const GenerateTimeout := 15
  const ModelId := "llama3.1:8b"
  const FixedOptions := Options(0.7, 500, 40, 0.9, 1.1)

  /** The request body. The history is accepted and not used. */
  function BuildPayload(userInput: string, history: seq<Turn>): (p: Payload)
    ensures p.model == ModelId && p.prompt == userInput && !p.stream
    ensures p.options == FixedOptions && p.options.numPredict == 500 && p.options.topK == 40
  {
    Payload(ModelId, userInput, false, FixedOptions)
  }

  /** The prompt is the user's text as typed: no history is folded in and the
      mental-health prompt template is not applied. */
  lemma PayloadPromptIsVerbatim(userInput: string, h1: seq<Turn>, h2: seq<Turn>)
    ensures BuildPayload(userInput, h1).prompt == userInput
    ensures BuildPayload(userInput, h1) == BuildPayload(userInput, h2)
    ensures BuildPayload(userInput, h1).prompt != MentalHealth.GenerateMentalHealthPrompt(userInput)
  {
  }

  /** The (text, error) pair get_ai_response returns. */
  datatype AiReply = AiReply(response: Option<string>, error: Option<string>)

  const InvalidFormat := "Invalid response format from Ollama"
  const ParseFailure := "Error parsing AI response"
  const ApiFailedLabel := "API request failed: "
  const TookTooLong := "The response took too long. Please try again with a shorter message."
  const CouldNotConnect := "Could not connect to Ollama API. Please make sure Ollama is running."
  const ErrorLabel := "Error: "

  function ApiFailed(status: nat): string {
    ApiFailedLabel + NatToString(status)
  }

  /** The status-code message names the status, and only the status: it reads back
      as the status it was made from. */
  lemma ApiFailedNamesStatus(status: nat)
    ensures ApiFailedLabel <= ApiFailed(status)
    ensures ParseNat(ApiFailed(status)[|ApiFailedLabel|..]) == status
  {
    assert ApiFailed(status)[|ApiFailedLabel|..] == NatToString(status);
    ParseNatToString(status);
  }

  /** Python's truth value of the error slot: None and "" are false. */
  predicate Truthy(error: Option<string>) {
    error.Some? && error.value != ""
  }

  /** Maps what the POST came back with to the reply, testing the handlers in the
      source's order: Timeout before ConnectionError before any other exception. */
  function ClassifyGeneration(o: HttpOutcome): (r: AiReply)
    ensures r.response.Some? <==> ParsedOk(o) && "response" in o.body.fields
    ensures r.response.Some? ==> r.error == None && r.response.value == o.body.fields["response"]
    ensures r.response.None? ==> Truthy(r.error)
    ensures ParsedOk(o) && "response" !in o.body.fields ==> r.error == Some(InvalidFormat)
    ensures o.Responded? && o.status == 200 && o.body.Unparseable? ==> r.error == Some(ParseFailure)
    ensures o.Responded? && o.status != 200 ==> r.error == Some(ApiFailed(o.status))
    ensures o.Failed? && o.exc.timeout ==> r.error == Some(TookTooLong)
    ensures o.Failed? && !o.exc.timeout && o.exc.connection ==> r.error == Some(CouldNotConnect)
    ensures o.Failed? && !o.exc.timeout && !o.exc.connection ==> r.error == Some(ErrorLabel + o.exc.message)
  {
    match o
    case Responded(status, _, body) =>
      if status == 200 then
        match body
        case Obj(fields) =>
          if "response" in fields then AiReply(Some(fields["response"]), None)
          else AiReply(None, Some(InvalidFormat))
        case Unparseable(_) => AiReply(None, Some(ParseFailure))
      else AiReply(None, Some(ApiFailed(status)))
    case Failed(exc) =>
      if exc.timeout then AiReply(None, Some(TookTooLong))
      else if exc.connection then AiReply(None, Some(CouldNotConnect))
      else AiReply(None, Some(ErrorLabel + exc.message))
  }

  /** A failing status gives a message that depends on the status alone: the body
      is logged, not returned, and different statuses give different messages. */
  lemma StatusFailureIgnoresBody(s1: nat, t1: string, b1: Body, s2: nat, t2: string, b2: Body)
    requires s1 != 200 && s2 != 200
    ensures ClassifyGeneration(Responded(s1, t1, b1)) == ClassifyGeneration(Responded(s2, t2, b2)) <==> s1 == s2
  {
    if ClassifyGeneration(Responded(s1, t1, b1)) == ClassifyGeneration(Responded(s2, t2, b2)) {
      assert ApiFailed(s1) == ApiFailed(s2);
      assert NatToString(s1) == ApiFailed(s1)[|ApiFailedLabel|..];
      assert NatToString(s2) == ApiFailed(s2)[|ApiFailedLabel|..];
      NatToStringInjective(s1, s2);
    }
  }

  /** get_ai_response: one POST of the fixed payload to the generate endpoint with a
      15-second timeout, classified. */
  function GetAiResponse(userInput: string, history: seq<Turn>,
                         post: (string, Payload, nat) -> HttpOutcome): (r: AiReply)
    ensures r == ClassifyGeneration(post(GenerateUrl, BuildPayload(userInput, history), GenerateTimeout))
    ensures r.response.Some? != r.error.Some?
    ensures r.error.Some? ==> |r.error.value| > 0
  {
    ClassifyGeneration(post(GenerateUrl, BuildPayload(userInput, history), GenerateTimeout))
  }

  /** The history argument never changes the reply. */
  lemma ReplyIgnoresHistory(userInput: string, h1: seq<Turn>, h2: seq<Turn>,
                            post: (string, Payload, nat) -> HttpOutcome)
    ensures GetAiResponse(userInput, h1, post) == GetAiResponse(userInput, h2, post)
  {
  }
}
