/** The outbound completion request, its JSON wire form, and the reading of the
    completion API's answer. */
module Completion {
  import opened Wrappers
  import opened Json

  /** The fixed model identifier sent with every request. */
  const MODEL: string := "llama3-8b-8192"

  datatype Role = System | User

  /** One entry of the request's `messages` list. The user's content is whatever
      JSON value the caller sent, forwarded as is. */
  datatype ChatMessage = ChatMessage(role: Role, content: Value)

  datatype CompletionRequest = CompletionRequest(model: string, messages: seq<ChatMessage>)

  /** The request the handler sends: the fixed model, then the system prompt,
      then the user's message. */
  function BuildRequest(prompt: string, message: Value): CompletionRequest {
    CompletionRequest(MODEL, [ChatMessage(System, Str(prompt)), ChatMessage(User, message)])
  }

  // ---------------------------------------------------------------------------
  // JSON wire form of the request body (`requests.post(..., json=payload)`)
  // ---------------------------------------------------------------------------

  function RoleName(r: Role): string {
    match r
    case System => "system"
    case User => "user"
  }

  function EncodeMessage(m: ChatMessage): Value {
    Object(map["role" := Str(RoleName(m.role)), "content" := m.content])
  }

  /** Encodes the messages one by one, keeping their order. */
  function EncodeMessages(ms: seq<ChatMessage>): (vs: seq<Value>)
    ensures |vs| == |ms|
    ensures forall i :: 0 <= i < |ms| ==> vs[i] == EncodeMessage(ms[i])
  {
    if |ms| == 0 then [] else [EncodeMessage(ms[0])] + EncodeMessages(ms[1..])
  }

  function EncodeRequest(req: CompletionRequest): Value {
    Object(map["model" := Str(req.model), "messages" := Array(EncodeMessages(req.messages))])
  }

  /** How the receiving side reads a role name; any other text is refused. */
  function DecodeRole(s: string): Option<Role> {
    if s == "system" then Some(System)
    else if s == "user" then Some(User)
    else None
  }

  function DecodeMessage(v: Value): Option<ChatMessage> {
    match Member(v, "role")
    case Some(Str(name)) =>
      (match (DecodeRole(name), Member(v, "content"))
       case (Some(role), Some(content)) => Some(ChatMessage(role, content))
       case _ => None)
    case _ => None
  }

  /** Decodes every message, or refuses the list when one entry is malformed. */
  function DecodeMessages(vs: seq<Value>): (r: Option<seq<ChatMessage>>)
    ensures r.Some? ==> |r.value| == |vs|
    ensures r.Some? <==> forall i :: 0 <= i < |vs| ==> DecodeMessage(vs[i]).Some?
  {
    if |vs| == 0 then Some([])
    else
      var head := DecodeMessage(vs[0]);
      var rest := DecodeMessages(vs[1..]);
      if head.Some? && rest.Some? then Some([head.value] + rest.value) else None
  }

  function DecodeRequest(v: Value): Option<CompletionRequest> {
    match (Member(v, "model"), Member(v, "messages"))
    case (Some(Str(model)), Some(Array(items))) =>
      (match DecodeMessages(items)
       case Some(ms) => Some(CompletionRequest(model, ms))
       case None => None)
    case _ => None
  }

  lemma {:induction false} MessagesRoundTrip(ms: seq<ChatMessage>)
    ensures DecodeMessages(EncodeMessages(ms)) == Some(ms)
  {
    if |ms| > 0 {
      MessagesRoundTrip(ms[1..]);
      assert EncodeMessages(ms)[1..] == EncodeMessages(ms[1..]);
      assert [ms[0]] + ms[1..] == ms;
    }
  }

  /** What the completion API receives decodes back to exactly the request built. */
  lemma RequestRoundTrip(req: CompletionRequest)
    ensures DecodeRequest(EncodeRequest(req)) == Some(req)
  {
    MessagesRoundTrip(req.messages);
  }

  /** The wire form of the handler's request: the fixed model and a two-entry
      list whose first entry is the system prompt and whose second is the user's
      message, unmodified. */
  lemma BuiltRequestOnTheWire(prompt: string, message: Value)
    ensures DecodeRequest(EncodeRequest(BuildRequest(prompt, message)))
         == Some(CompletionRequest(MODEL, [ChatMessage(System, Str(prompt)), ChatMessage(User, message)]))
    ensures Member(EncodeRequest(BuildRequest(prompt, message)), "model") == Some(Str(MODEL))
  {
    RequestRoundTrip(BuildRequest(prompt, message));
  }

  // ---------------------------------------------------------------------------
  // The completion API's answer
  // ---------------------------------------------------------------------------

  /** The subscript of `result['choices'][0]['message']['content']` that raised. */
  datatype Step = Choices | FirstChoice | MessageField | ContentField

  /** `v` has the completion shape and its first choice's content is `c`. */
  predicate IsCompletion(v: Value, c: Value) {
    && v.Object? && "choices" in v.fields
    && v.fields["choices"].Array? && |v.fields["choices"].items| > 0
    && v.fields["choices"].items[0].Object? && "message" in v.fields["choices"].items[0].fields
    && v.fields["choices"].items[0].fields["message"].Object?
    && "content" in v.fields["choices"].items[0].fields["message"].fields
    && v.fields["choices"].items[0].fields["message"].fields["content"] == c
  }

  /** `result['choices'][0]['message']['content']`, applying each subscript with
      Python's semantics and reporting the first one that raises. */
  function ExtractReply(result: Value): (r: Result<Value, Step>)
    ensures r.Success? ==> IsCompletion(result, r.value)
    ensures forall c :: IsCompletion(result, c) ==> r == Success(c)
  {
    match Member(result, "choices")
    case None => Failure(Choices)
    case Some(choices) =>
      match First(choices)
      case None => Failure(FirstChoice)
      case Some(choice) =>
        match Member(choice, "message")
        case None => Failure(MessageField)
        case Some(message) =>
          match Member(message, "content")
          case None => Failure(ContentField)
          case Some(content) => Success(content)
  }

  /** The reply is read exactly when the answer has the completion shape, and it
      is then that content with no transformation. */
  lemma ExtractReplyExact(result: Value, c: Value)
    ensures ExtractReply(result) == Success(c) <==> IsCompletion(result, c)
  {
  }

  /** The smallest answer of the completion shape carrying `c`. */
  function CompletionAnswer(c: Value): Value {
    Object(map["choices" := Array([Object(map["message" := Object(map["content" := c])])])])
  }

  lemma ExtractReplyOfAnswer(c: Value)
    ensures ExtractReply(CompletionAnswer(c)) == Success(c)
  {
  }

  // ---------------------------------------------------------------------------
  // HTTP status of the answer
  // ---------------------------------------------------------------------------

  /** `raise_for_status` raises for client errors (400-499) and server errors
      (500-599) and for nothing else. */
  predicate RaisesForStatus(status: int) {
    400 <= status < 500 || 500 <= status < 600
  }

  /** The handler calls `raise_for_status` only when the status is not 200. The
      status is rejected exactly when it lies in 400-599; every other status,
      including redirects, 1xx, other 2xx and codes from 600 on, falls through
      to reading the body. */
  function StatusRejected(status: int): (rejected: bool)
    ensures rejected <==> 400 <= status <= 599
    ensures status == 200 ==> !rejected
  {
    status != 200 && RaisesForStatus(status)
  }
}
