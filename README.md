# CalmConnect liaison and content model

A Dafny model of the core of CalmConnect, a Streamlit chat page that forwards a
user's message to a local Ollama server and shows static wellness content.

- **Liaison** (`liaison.dfy`) covers the three functions that talk to the backend.
  - `is_ollama_running` is a method with a loop over an input list of process entries. Each entry is either a name or the exception raised while reading it.
  - `check_ollama_api` and `get_ai_response` are functions over what the HTTP call came back with: an exception or a response. The exception is described by whether it is a `Timeout`, whether it is a `ConnectionError`, and its message. The response has a status, a raw text and a body that either fails to decode or decodes to an object.
  - The HTTP library is a transport function passed in as a parameter. Because of that, the URLs, the timeouts (5 s and 15 s) and the fixed request payload all appear in the contracts.
- **Session** (`session.dfy`) models `st.session_state` as a class whose field is a map from key to value, in which a key may be absent. Its methods are:
  - `InitDefaults`: initialise the missing keys.
  - `SubmitMessage`: ask the model and record the exchange.
  - `LogMood`: append a mood sample.
  - `TryMindfulnessExercise`: count one more mindfulness session.
- **MentalHealth** (`mental_health.dfy`) holds the constant tables, the coping-strategy lookup, the prompt builder and the three random pickers.
- **Text** (`text.dfy`) holds the string operations the source takes from Python:
  - ASCII lower-casing;
  - substring containment, defined as a left-to-right scan and proved equal to the positional definition;
  - decimal rendering of a status code, proved to read back as the same number.

Points where the code's behaviour is worth noting:
- A non-200 generation reply carries the status only, not the body (the body is only logged).
- A body that fails to decode and a body without `response` give two different messages.
- A mood value is appended without any range check; 1..10 is a property of the slider widget only.
- The generation request sends the user's text verbatim. It does not use the conversation history or the mental-health prompt template.

## Model

| member | source | states |
|---|---|---|
| Liaison.IsOllamaRunning | calmconnect/calmconnect.py:47-55 | The result is true iff some entry has a lower-cased name containing "ollama" and no earlier entry matched or raised an untolerated error. It is false iff no entry matches and every raising entry raised NoSuchProcess, AccessDenied or ZombieProcess; an empty list gives false. Any other exception escapes with its own message, raised by an entry that nothing before it decided. |
| Text.ContainsAt | calmconnect/calmconnect.py:51 | The substring scan used for Python's `in` holds iff the pattern occurs at some position of the string. |
| Liaison.ApiStatus | calmconnect/calmconnect.py:59-65 | The flag is true exactly when the status is 200 and the body decodes, and the detail is then the decoded body. The detail is raw text exactly when the flag is false: the response text for a non-200 status, the decoder's message for an undecodable 200, "Cannot connect to Ollama API" for any ConnectionError, and the exception's message for every other exception (a Timeout included). |
| Liaison.CheckOllamaApi | calmconnect/calmconnect.py:57-65 | Classifies the outcome of one GET to http://localhost:11434/api/tags with a 5-second timeout; reachable iff that outcome is a 200 with a decodable body. |
| Liaison.BuildPayload | calmconnect/calmconnect.py:72-83 | The request always names model "llama3.1:8b", turns streaming off and asks for at most 500 tokens. |
| Liaison.PayloadPromptIsVerbatim | calmconnect/calmconnect.py:67-83 | The prompt is the user's text as typed; the payload does not depend on the conversation history, and it differs from the mental-health prompt template. |
| Liaison.ClassifyGeneration | calmconnect/calmconnect.py:91-116 | Text comes back iff the status is 200, the body decodes and has a `response` key, and it is that value with no error. Otherwise there is no text and the error is a non-empty string. The error is "Invalid response format from Ollama" for a missing key and "Error parsing AI response" for an undecodable body. A non-200 status gives "API request failed: " followed by the status. A Timeout gives the shorter-message text, even when it is also a ConnectionError. Any other ConnectionError gives the make-sure-Ollama-is-running text, and every other exception gives "Error: " followed by its message. |
| Liaison.ApiFailedNamesStatus | calmconnect/calmconnect.py:104-106 | The status-failure message starts with "API request failed: " and the rest reads back as the status code. |
| Liaison.StatusFailureIgnoresBody | calmconnect/calmconnect.py:104-106 | For two non-200 responses the replies are equal iff their statuses are equal, whatever their texts and bodies. |
| Liaison.GetAiResponse | calmconnect/calmconnect.py:67-116 | One POST of the fixed payload to http://localhost:11434/api/generate with a 15-second timeout, classified. Exactly one of text and error is present, and an error is never empty. |
| Liaison.ReplyIgnoresHistory | calmconnect/calmconnect.py:67-89 | The reply is the same whatever conversation history is passed. |
| Text.NatToString | calmconnect/calmconnect.py:106 | The rendered status is a non-empty string of decimal digits without a leading zero. |
| Text.ParseNatToString | calmconnect/calmconnect.py:106 | The rendered status reads back as the same number, so no information about it is lost. |
| Text.NatToStringInjective | calmconnect/calmconnect.py:106 | Different statuses render as different strings. |
| Session.WithDefaults | calmconnect/calmconnect.py:130-141 | After initialisation the keys are the old keys plus the six page keys. Present keys keep their values and missing keys get their defaults. |
| Session.SetDefault | calmconnect/calmconnect.py:130-131 | One set-if-missing step: afterwards the key is present, holding its old value if it had one and the default otherwise, and every other key keeps its value. |
| Session.InitialisationSteps | calmconnect/calmconnect.py:130-141 | The six set-if-missing steps, in the page's order, amount to adding the defaults under the existing values. |
| Session.WithDefaultsIdempotent | calmconnect/calmconnect.py:130-141 | Running initialisation a second time changes nothing. |
| Session.WithDefaultsReady | calmconnect/calmconnect.py:130-141 | After initialisation every page key is present with its kind of value. |
| Session.SessionState.InitDefaults | calmconnect/calmconnect.py:130-141 | The new state is the old state with only the missing keys filled in, and it is ready for the page. |
| Session.HistoryAfterReply | calmconnect/calmconnect.py:200-211 | With a truthy error the conversation is unchanged. Otherwise it grows by exactly two turns, the user's message and then the model's text, and the earlier turns are kept. |
| Session.OnlySuccessChangesHistory | calmconnect/calmconnect.py:198-211 | The conversation changes iff the reply carries text. Then it grows by exactly two turns, the user's message and then the model's text, and the earlier turns are unchanged. |
| Session.SessionState.SubmitMessage | calmconnect/calmconnect.py:194-212 | An empty message leaves the state alone and asks nothing. Otherwise the reply is the model's reply for the message. Only the conversation key is rewritten, to the history after that reply. |
| Session.MoodsOf | calmconnect/ui_components.py:133 | The list `setdefault` finds: the stored mood list when the key is present, and an empty list when it is missing. |
| Session.SessionState.LogMood | calmconnect/ui_components.py:131-133 | The mood list, created empty if missing, gains the value at its end whatever the value is; nothing else changes. |
| Session.SessionState.TryMindfulnessExercise | calmconnect/calmconnect.py:233-239 | The exercise shown is one of the three exercises, and the session counter goes up by exactly one; nothing else changes. |
| MentalHealth.CrisisResourcesWellFormed | calmconnect/mental_health_utils.py:4-10 | The crisis table lists five services, no service twice, each with a non-empty contact. |
| MentalHealth.GetCopingStrategies | calmconnect/mental_health_utils.py:78-79 | The result is always one of the three five-item lists. It is the anxiety or depression list when the lower-cased mood is that key, and the stress list for "stress" and for every other mood. |
| MentalHealth.CopingStrategiesIgnoreCase | calmconnect/mental_health_utils.py:79 | A mood and its lower-case form get the same strategies. |
| MentalHealth.RandomAffirmation | calmconnect/mental_health_utils.py:75-76 | The affirmation is an element of the daily affirmations table. |
| MentalHealth.RandomMoodBooster | calmconnect/mental_health_utils.py:81-82 | The booster is an element of the mood boosters table. |
| MentalHealth.MindfulnessExercise | calmconnect/mental_health_utils.py:84-85 | The exercise is an element of the mindfulness exercises table. |
| MentalHealth.GenerateMentalHealthPrompt | calmconnect/mental_health_utils.py:87-104 | The prompt starts with the fixed base prompt followed by the two-newline "User message: " label, and after that comes exactly the user's text; together these fix the prompt. |
| MentalHealth.PromptDetermined | calmconnect/mental_health_utils.py:104 | A string that starts with the base prompt and label and continues with the user's text is exactly the generated prompt. |
| MentalHealth.PromptRoundTrip | calmconnect/mental_health_utils.py:104 | Taking the user's text back out of a built prompt gives the text that went in, so distinct messages give distinct prompts. |

## Left out

- Process enumeration (`psutil.process_iter`) and HTTP (`requests.get`, `requests.post`) are not performed. The process list is an input sequence and the transport is a function parameter. Which real failures the libraries report as Timeout, ConnectionError or a JSON decode error is their behaviour and is not modelled.
- A process whose name psutil reports as None makes `.lower()` raise AttributeError. The model covers this only as an entry that raises an uncaught error, which then escapes the scan.
- Response bodies that decode to something other than an object are not modelled, and neither are object values that are not strings. A `"response": null` value would give the pair (None, None), and the page would then record a turn whose content is None.
- Session.HistoryAfterReply: requires a reply that has either a truthy error or a text, which every reply of the model satisfies; the (None, None) pair above is therefore not covered.
- Session.SessionState.SubmitMessage: the two in-place `.append` calls on the stored list are modelled as replacing the map entry with the extended list. Aliasing of that list object is not modelled. The `except` at calmconnect.py:213-215 is not modelled because the classified call never raises.
- Logging, page rendering, `st.spinner`, `st.stop`, `st.rerun` and the order of widgets are left out. So are the `OLLAMA_PATH` and `OLLAMA_ENV` deployment constants, which are unused.
- The sampling options 0.7, 0.9 and 1.1 are recorded as Dafny reals. Their binary floating-point rounding is not modelled.
- `random.choice` is modelled as an index taken modulo the table size. Only membership of the result is stated, not uniformity.
- `str.lower` is modelled on ASCII letters only. Full Unicode case mapping is not modelled.
- `journal_entries` is initialised but never written by the page. Its elements are modelled as strings.
- `ui_components.py` is left out except for the mood append: CSS and HTML markup, the sidebar widgets, and the `time.sleep` breathing loop.
