# MikGPT-V4 chat relay — a Dafny model

The backend has one route, `chat()`. It reads a JSON body and takes its `message`. It refuses a missing or empty message. It scores the message's sentiment and picks one of three fixed system prompts from the compound score. It sends the prompt and the message to a chat-completion API with a fixed model. It then relays the first choice's content as `{status: success, reply}`. Every exception along the way becomes `{status: error, message}` with HTTP 500.

The model states this as one pure function, `Handler.Handle(body, scoring, upstream)`:

- `body` is what `request.get_json()` produced. It either raised, or yielded a decoded JSON value (`Json.Value`). Objects are dicts, so a later duplicate key wins.
- `scoring` is what the sentiment analyser produced for the message. It is a compound score (a `real`) or an exception.
- `upstream` is what the HTTP client produced. It is a transport failure, or a status code with a body that did or did not decode as JSON.
- The result `Outcome` holds the envelope, the HTTP status, whether the analyser was consulted, and the completion request sent (`None` when no call was made).

Modules:

- `Wrappers`: `Option` and `Result`.
- `Json`: decoded JSON values, Python truthiness (`if not x`), and the subscripts `v[key]` and `v[0]` with Python's semantics.
- `Prompt`: the three prompt constants, the handler's if-chain `SelectPrompt`, and an interval classification `ToneOf` it is proved against.
- `Completion`: the fixed `MODEL`, the outbound request and its JSON wire form with a decoder and a round-trip proof, the reading of `choices[0].message.content`, and the status check.
- `Handler`: validation, the upstream relay, the envelope, the whole call, and `Serve`, a sequence of calls that shows no state is kept between them.

Where the code and a plain reading of the design differ, the model follows the code:

- Only statuses 400–599 are rejected, because `raise_for_status` raises for nothing else. A non-200 status outside that range (1xx, 201, 204, 3xx, 600 and above) is only logged. The handler then goes on to decode the body and read the reply.
- The reply content is relayed whatever JSON value it is. This includes the empty string, `null` and numbers. An empty content is a success, not an error.
- Truthiness, not string emptiness, decides "empty message". `null`, `0`, `false`, `[]` and `{}` are refused with the same "Empty message received." error as `""`. A truthy non-string message goes on to the analyser.
- A body that is JSON but not an object (`null`, a list, a string) fails in `data.get` with an AttributeError. It is therefore an error envelope with HTTP 500, not the validation error.

## Model

| member | source | states |
|---|---|---|
| Prompt.SelectPrompt | app.py:43-48 | the supportive prompt is chosen exactly when compound < -0.5, the enthusiastic one exactly when compound > 0.5, and the friendly one exactly on the closed interval [-0.5, 0.5]; so exactly one of the three constants is chosen |
| Prompt.PromptsDistinct | app.py:43-48 | the three prompt texts are pairwise different, so the chosen text identifies the branch |
| Prompt.SelectPromptMatchesTone | app.py:43-48 | for every score and tone, the if-chain's prompt is that tone's prompt iff the tone is the interval classification of the score |
| Prompt.ToneMonotone | app.py:43-48 | a higher score never selects a more negative tone |
| Prompt.ThresholdsAreNeutral | app.py:43-48 | -0.5 and 0.5 give the friendly prompt; 0.50001 gives the enthusiastic one and -0.50001 the supportive one |
| Completion.EncodeMessages | app.py:55-61 | the wire form of the messages list has one JSON object per message, in the same order |
| Completion.DecodeMessages | app.py:55-61 | a decoded messages list has one message per entry, and decoding succeeds iff every entry is a well-formed message |
| Completion.MessagesRoundTrip | app.py:55-61 | decoding the encoded messages gives back the same messages |
| Completion.RequestRoundTrip | app.py:55-63 | the JSON payload posted decodes back to exactly the request built |
| Completion.BuiltRequestOnTheWire | app.py:55-63 | the posted payload carries the fixed model and exactly two messages: system with the prompt, then user with the unmodified message |
| Completion.ExtractReply | app.py:69-70 | reading `choices[0].message.content` succeeds iff the answer has that shape, and the value read is that content |
| Completion.ExtractReplyExact | app.py:70 | for every answer and value c, the read gives c iff c is the answer's first-choice content |
| Completion.ExtractReplyOfAnswer | app.py:70 | a minimal well-formed answer carrying c yields c unchanged |
| Completion.StatusRejected | app.py:65-67 | a status is rejected iff it lies in 400-599; 200 is never rejected |
| Handler.ReadMessage | app.py:33-37 | the message is accepted iff the body is a dict whose `message` is present and truthy, and then it is that value; the "Empty message received." error arises iff the body is a dict whose `message` is missing or falsy |
| Handler.Relay | app.py:63-70 | the upstream yields c iff its status is outside 400-599, its body decodes and its first-choice content is c; a transport failure is a connection error and a 400-599 status is an HTTP error carrying that status |
| Handler.Handle | app.py:31-76 | HTTP 200 goes with a success envelope and 500 with an error one; the analyser runs iff the message is present and truthy; a request is sent iff also the analyser returned a score, and then it holds MODEL, the prompt selected from that score and the message unmodified; the empty-message error arises iff the message is missing or falsy; the envelope is a success with c iff the message is valid, scored, and the upstream answers c |
| Handler.EmptyMessageShortCircuits | app.py:33-37 | on a missing or empty message the outcome is the empty-message error with HTTP 500, with no scoring and no request, whatever the analyser and the upstream would have done |
| Handler.UpstreamFailuresAreErrors | app.py:63-76 | a transport failure, a 400-599 status, an undecodable body and a missing reply field each give an error envelope naming that failure, with HTTP 500 |
| Handler.NegativeMessageScenario | app.py:43-72 | "I hate everything today" scored below -0.5 and answered "I'm sorry to hear that." is sent with the supportive prompt and relayed verbatim |
| Handler.Serve | app.py:30-76 | serving a sequence of calls gives one outcome per call, each equal to handling that call alone |
| Handler.HistoryIrrelevant | app.py:31-76 | the outcomes of later calls do not depend on the calls served before them |
| Handler.RepeatedCallsAgree | app.py:31-76 | identical calls in one session get identical outcomes |

## Left out

- Flask app creation, CORS setup, route registration and port binding: framework and deployment plumbing.
- Loading `.env`, reading the API key, the debug print and the `Authorization` header: credentials and environment, with no effect on the outcome.
- The lexicon download and the sentiment analyser's scoring. The analyser's result is an input (`Scoring`). Whether it accepts a non-string message is up to the library.
- The HTTP client's network call and the JSON decoding of bodies. Only their outcomes are inputs (`Body`, `Upstream`, `Answer`).
- The logging of upstream errors and the traceback print: side effects only.
- The text of exceptions raised by libraries or the Python runtime (`str(e)`). An error envelope records which exception ended the call (`Fault`). Only the handler's own validation text, "Empty message received.", is modelled literally.
- JSON numbers are reals. NaN and the infinities, which Python's decoder also accepts, are not modelled.
- Determinism needs no separate statement, because `Handle` is a Dafny function. Independence from earlier calls is stated by `Serve` and its lemmas.
