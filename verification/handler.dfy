/** The `chat()` route: validate the inbound body, pick a prompt from the
    sentiment score, ask the completion API, and wrap the answer or the failure
    in a response envelope. Sentiment analysis and the network are abstracted as
    inputs describing what they produced. */
module Handler {
  import opened Wrappers
  import opened Json
  import opened Prompt
  import opened Completion

  /** The text of the handler's own validation error. */
  const EMPTY_MESSAGE: string := "Empty message received."

  /** The inbound body as `request.get_json()` sees it: either it raised (no
      JSON content type, or text that does not parse) or it yielded a value. */
  datatype Body = Unreadable | Parsed(data: Value)

  /** What the sentiment analyser did with the message: its compound score, or
      an exception. */
  datatype Scoring = Compound(score: real) | AnalyserRaised

  /** What `response.json()` did with the answer's body. */
  datatype Answer = NotJson | Decoded(value: Value)

  /** What `requests.post` did: raised (connection refused, DNS, timeout), or
      returned a response with a status code and a body. */
  datatype Upstream = TransportFailure | Responded(status: int, answer: Answer)

  /** The exception that ended the handler's `try` block. Only the handler's own
      ValueError has a text defined by the handler; the text of the others is
      whatever the library or runtime puts in them. */
  datatype Fault =
    | ValueError(text: string)    // raised by the handler on an empty message
    | BadRequest                  // request.get_json() raised
    | NoGet                       // data.get(...) on a decoded value that is not a dict
    | AnalyserError               // the sentiment analyser raised
    | ConnectionError             // requests.post raised
    | HttpError(status: int)      // raise_for_status raised
    | ReplyNotJson                // response.json() raised
    | ReplyLookup(step: Step)     // one of the reply subscripts raised

  /** The JSON envelope returned to the caller:
      `{status: success, reply}` or `{status: error, message: str(e)}`. */
  datatype Envelope = Ok(reply: Value) | Error(raised: Fault)

  /** Everything one call produces: the envelope, the HTTP status, whether the
      analyser was consulted, and the request sent upstream, if any. */
  datatype Outcome = Outcome(envelope: Envelope, httpStatus: int, scored: bool, sent: Option<CompletionRequest>)

  /** The body is a dict whose `message` is present and truthy. */
  predicate HasMessage(body: Body) {
    body.Parsed? && body.data.Object? && "message" in body.data.fields && Truthy(body.data.fields["message"])
  }

  /** The body is a dict whose `message` is missing or falsy ("", null, 0, ...). */
  predicate LacksMessage(body: Body) {
    body.Parsed? && body.data.Object? && ("message" !in body.data.fields || !Truthy(body.data.fields["message"]))
  }

  /** `data = request.get_json(); user_message = data.get('message', '')`,
      followed by the emptiness test. */
  function ReadMessage(body: Body): (r: Result<Value, Fault>)
    ensures r.Success? <==> HasMessage(body)
    ensures r.Success? ==> r.value == body.data.fields["message"]
    ensures r == Failure(ValueError(EMPTY_MESSAGE)) <==> LacksMessage(body)
  {
    match body
    case Unreadable => Failure(BadRequest)
    case Parsed(data) =>
      match data
      case Object(fields) =>
        var message := if "message" in fields then fields["message"] else Str("");
        if !Truthy(message) then Failure(ValueError(EMPTY_MESSAGE)) else Success(message)
      case _ => Failure(NoGet)
  }

  /** The upstream answered with a status that passes the check, a decodable
      body, and content `c` in its first choice. */
  predicate Answers(upstream: Upstream, c: Value) {
    && upstream.Responded?
    && !(400 <= upstream.status <= 599)
    && upstream.answer.Decoded?
    && IsCompletion(upstream.answer.value, c)
  }

  /** The status check, `response.json()` and the reply subscripts. */
  function Relay(upstream: Upstream): (r: Result<Value, Fault>)
    ensures r.Success? ==> Answers(upstream, r.value)
    ensures forall c :: Answers(upstream, c) ==> r == Success(c)
    ensures upstream.TransportFailure? ==> r == Failure(ConnectionError)
    ensures upstream.Responded? && 400 <= upstream.status <= 599 ==> r == Failure(HttpError(upstream.status))
  {
    match upstream
    case TransportFailure => Failure(ConnectionError)
    case Responded(status, answer) =>
      if StatusRejected(status) then Failure(HttpError(status))
      else
        match answer
        case NotJson => Failure(ReplyNotJson)
        case Decoded(v) =>
          match ExtractReply(v)
          case Success(c) => Success(c)
          case Failure(step) => Failure(ReplyLookup(step))
  }

  /** Every exception is caught and answered with HTTP 500. */
  function Fail(f: Fault, scored: bool, sent: Option<CompletionRequest>): Outcome {
    Outcome(Error(f), 500, scored, sent)
  }

  /** One call of the route. */
  function Handle(body: Body, scoring: Scoring, upstream: Upstream): (o: Outcome)
    ensures o.httpStatus == (if o.envelope.Ok? then 200 else 500)
    ensures o.scored <==> HasMessage(body)
    ensures o.sent.Some? <==> HasMessage(body) && scoring.Compound?
    ensures o.sent.Some? ==>
      && o.sent.value.model == MODEL
      && o.sent.value.messages == [ChatMessage(System, Str(SelectPrompt(scoring.score))),
                                   ChatMessage(User, body.data.fields["message"])]
    ensures o.envelope == Error(ValueError(EMPTY_MESSAGE)) <==> LacksMessage(body)
    ensures forall c :: o.envelope == Ok(c) <==> HasMessage(body) && scoring.Compound? && Answers(upstream, c)
  {
    match ReadMessage(body)
    case Failure(f) => Fail(f, false, None)
    case Success(message) =>
      match scoring
      case AnalyserRaised => Fail(AnalyserError, true, None)
      case Compound(score) =>
        var request := BuildRequest(SelectPrompt(score), message);
        match Relay(upstream)
        case Failure(f) => Fail(f, true, Some(request))
        case Success(reply) => Outcome(Ok(reply), 200, true, Some(request))
  }

  /** A missing or empty message is refused before the analyser or the upstream
      is consulted, so neither of them can change the outcome. */
  lemma EmptyMessageShortCircuits(body: Body, s1: Scoring, u1: Upstream, s2: Scoring, u2: Upstream)
    requires LacksMessage(body)
    ensures Handle(body, s1, u1) == Handle(body, s2, u2)
                                 == Outcome(Error(ValueError(EMPTY_MESSAGE)), 500, false, None)
  {
  }

  /** Each way the upstream can fail ends in an error envelope with HTTP 500
      naming that failure, after the request was sent. */
  lemma UpstreamFailuresAreErrors(body: Body, score: real, upstream: Upstream)
    requires HasMessage(body)
    ensures upstream.TransportFailure? ==>
      Handle(body, Compound(score), upstream).envelope == Error(ConnectionError)
    ensures upstream.Responded? && 400 <= upstream.status <= 599 ==>
      Handle(body, Compound(score), upstream).envelope == Error(HttpError(upstream.status))
    ensures upstream.Responded? && !(400 <= upstream.status <= 599) && upstream.answer.NotJson? ==>
      Handle(body, Compound(score), upstream).envelope == Error(ReplyNotJson)
    ensures upstream.Responded? && !(400 <= upstream.status <= 599) && upstream.answer.Decoded?
            && ExtractReply(upstream.answer.value).Failure? ==>
      Handle(body, Compound(score), upstream).envelope == Error(ReplyLookup(ExtractReply(upstream.answer.value).error))
    ensures Handle(body, Compound(score), upstream).envelope.Error? ==>
      Handle(body, Compound(score), upstream).httpStatus == 500
  {
  }

  /** A message the analyser scores clearly negative, answered by a well-formed
      completion, is relayed with the supportive prompt and the reply verbatim. */
  lemma NegativeMessageScenario(score: real)
    requires score < -0.5
    ensures var body := Parsed(Object(map["message" := Str("I hate everything today")]));
            var reply := Str("I'm sorry to hear that.");
            Handle(body, Compound(score), Responded(200, Decoded(CompletionAnswer(reply))))
              == Outcome(Ok(reply), 200, true,
                         Some(CompletionRequest(MODEL, [ChatMessage(System, Str(SUPPORTIVE_PROMPT)),
                                                        ChatMessage(User, Str("I hate everything today"))])))
  {
  }

  // ---------------------------------------------------------------------------
  // A sequence of calls: the handler keeps no state between them
  // ---------------------------------------------------------------------------

  datatype Call = Call(body: Body, scoring: Scoring, upstream: Upstream)

  function HandleCall(c: Call): Outcome {
    Handle(c.body, c.scoring, c.upstream)
  }

  /** Serves the calls in arrival order. Each outcome depends on its own call
      alone. */
  function Serve(calls: seq<Call>): (rs: seq<Outcome>)
    ensures |rs| == |calls|
    ensures forall i :: 0 <= i < |calls| ==> rs[i] == HandleCall(calls[i])
  {
    if |calls| == 0 then []
    else Serve(calls[..|calls| - 1]) + [HandleCall(calls[|calls| - 1])]
  }

  /** Earlier calls leave no trace: the outcomes of later calls are what they
      would be on a fresh process. */
  lemma HistoryIrrelevant(earlier: seq<Call>, later: seq<Call>)
    ensures Serve(earlier + later)[|earlier|..] == Serve(later)
  {
  }

  /** Two identical calls in one session get identical outcomes. */
  lemma RepeatedCallsAgree(calls: seq<Call>, i: nat, j: nat)
    requires i < |calls| && j < |calls| && calls[i] == calls[j]
    ensures Serve(calls)[i] == Serve(calls)[j]
  {
  }
}
