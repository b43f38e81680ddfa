/** The chat proxy: validation of the conversation, injection of the system
    primer, the cut of the last message to 400 characters, and the choice and
    shape of the mock, fallback and success responses. The HTTP call to the
    provider is replaced by a value that says what the provider did. */
module Chat {
  import opened Wrappers
  import opened Text

  // ---------------------------------------------------------------- shapes

  datatype Role = User | Assistant | System

  function RoleName(r: Role): string {
    match r
    case User => "user"
    case Assistant => "assistant"
    case System => "system"
  }

  /** The schema pattern ^(user|assistant|system)$: a role is accepted exactly
      when it is one of the three names. */
  function ParseRole(s: string): (r: Option<Role>)
    ensures r.Some? ==> RoleName(r.value) == s
    ensures r.None? ==> forall role: Role :: RoleName(role) != s
  {
    if s == "user" then Some(User)
    else if s == "assistant" then Some(Assistant)
    else if s == "system" then Some(System)
    else None
  }

  datatype ChatMessage = ChatMessage(role: Role, content: string)

  datatype ChatRequest = ChatRequest(messages: seq<ChatMessage>, maxTokens: int)

  datatype ChatResponse = ChatResponse(reply: string, usageTokens: Option<int>, model: Option<string>)

  /** A message as it arrives in the request body, before its role is checked. */
  datatype IncomingMessage = IncomingMessage(role: string, content: string)

  const DefaultMaxTokens: int := 256

  /** The messages of a request body, each role checked against the pattern. */
  function ParseMessages(ms: seq<IncomingMessage>): (r: Option<seq<ChatMessage>>)
    ensures r.Some? <==> forall i :: 0 <= i < |ms| ==> ParseRole(ms[i].role).Some?
    ensures r.Some? ==> |r.value| == |ms|
    ensures r.Some? ==> forall i :: 0 <= i < |ms| ==>
      RoleName(r.value[i].role) == ms[i].role && r.value[i].content == ms[i].content
  {
    if ms == [] then Some([])
    else
      match (ParseRole(ms[0].role), ParseMessages(ms[1..]))
      case (Some(role), Some(rest)) => Some([ChatMessage(role, ms[0].content)] + rest)
      case _ => None
  }

  /** The ChatRequest schema: a request whose roles all match is accepted with
      its messages in order, max_tokens taking 256 when it is not given; any
      other is refused before the handler runs. */
  function ParseRequest(ms: seq<IncomingMessage>, maxTokens: Option<int>): (r: Result<ChatRequest>)
    ensures r.Ok? <==> forall i :: 0 <= i < |ms| ==> ParseRole(ms[i].role).Some?
    ensures r.Err? ==> r.error == SchemaRejected
    ensures r.Ok? ==> r.value.maxTokens == (if maxTokens.Some? then maxTokens.value else DefaultMaxTokens)
    ensures r.Ok? ==> |r.value.messages| == |ms| && forall i :: 0 <= i < |ms| ==>
      RoleName(r.value.messages[i].role) == ms[i].role && r.value.messages[i].content == ms[i].content
  {
    match ParseMessages(ms)
    case None => Err(SchemaRejected)
    case Some(messages) =>
      Ok(ChatRequest(messages, if maxTokens.Some? then maxTokens.value else DefaultMaxTokens))
  }

  // ---------------------------------------------------------------- constants

  const AiModel: string := "gpt-4o-mini"

  const SystemPrimer: string :=
    "You are the helpful PlyCraft assistant. Provide concise, accurate answers "
    + "about products, materials, sizing, care, and brand information. If unsure, "
    + "say you don't have that data. Never invent product specs."

  const PrimerMessage: ChatMessage := ChatMessage(System, SystemPrimer)

  /** The sampling temperature 0.7, carried in tenths: it is only ever sent on. */
  const TemperatureTenths: int := 7

  const LastUserLimit: nat := 400

  /** The reply prefixes "(Mock) You said: " and "(Fallback) You said: ". */
  const YouSaid: string := " You said: "
  const MockPrefix: string := "(Mock)" + YouSaid
  const FallbackPrefix: string := "(Fallback)" + YouSaid
  const Apology: string := "I'm sorry, " + "I couldn't generate a response just now."

  const EmptyMessages: Error := HttpError(400, "messages cannot be empty")

  // ---------------------------------------------------------------- request side

  /** any(m.role == "system" for m in messages) */
  function AnySystem(messages: seq<ChatMessage>): (b: bool)
    ensures b <==> exists i :: 0 <= i < |messages| && messages[i].role == System
  {
    if messages == [] then false
    else if messages[0].role == System then true
    else
      var b := AnySystem(messages[1..]);
      assert b ==> exists i :: 1 <= i < |messages| && messages[i].role == System by {
        if b {
          var j :| 0 <= j < |messages[1..]| && messages[1..][j].role == System;
          assert messages[j + 1].role == System;
        }
      }
      b
  }

  /** The list forwarded to the provider: the input in its order, preceded by
      the primer exactly when the input has no system message; so it always
      holds a system message. */
  function ProviderMessages(messages: seq<ChatMessage>): (r: seq<ChatMessage>)
    ensures |r| == |messages| + (if AnySystem(messages) then 0 else 1)
    ensures r[|r| - |messages|..] == messages
    ensures !AnySystem(messages) ==> r[0] == PrimerMessage
    ensures AnySystem(r)
  {
    if AnySystem(messages) then messages
    else
      var r := [PrimerMessage] + messages;
      assert r[0].role == System;
      r
  }

  /** messages[-1].content[:400]: the start of the content of the final
      message, whatever its role, at most 400 characters long. */
  function LastUser(messages: seq<ChatMessage>): (r: string)
    requires messages != []
    ensures r <= messages[|messages| - 1].content
    ensures |r| == if |messages[|messages| - 1].content| < LastUserLimit
                   then |messages[|messages| - 1].content| else LastUserLimit
  {
    Prefix(messages[|messages| - 1].content, LastUserLimit)
  }

  /** `if not OPENAI_API_KEY`: a key that is unset or empty counts as absent. */
  predicate HasKey(apiKey: Option<string>) {
    apiKey.Some? && apiKey.value != ""
  }

  /** The JSON body posted to the chat-completion endpoint. */
  datatype ProviderRequest = ProviderRequest(
    model: string, messages: seq<ChatMessage>, maxTokens: int, temperatureTenths: int)

  // ---------------------------------------------------------------- provider side

  /** The message of a choice. content is None when it is missing, null or
      any other falsy JSON value (0, false, [], {}): the `or` at the end of
      the chain replaces all of them by the apology. */
  datatype ReplyMessage = ReplyMessage(content: Option<string>)

  /** A completion choice. message is None when it is missing, null or any
      other falsy JSON value, all of which `or {}` turns into {}. */
  datatype Choice = Choice(message: Option<ReplyMessage>)

  /** A decoded provider body. choices is [] when it is missing, null or
      empty; totalTokens is usage.total_tokens as the int ChatResponse
      coerces it to ("12", 12.0 and true give 12, 12 and 1), None when either
      is missing or null. */
  datatype Completion = Completion(choices: seq<Choice>, totalTokens: Option<int>)

  /** What the provider call did: raised (network error, timeout), or answered
      with a status and a body that is None when reading it raises. That
      covers a body that is not JSON or not an object, a null usage, a truthy
      message or content of the wrong type, and a total_tokens that
      ChatResponse refuses as an int. */
  datatype Upstream =
    | Raised
    | Responded(status: int, body: Option<Completion>)

  /** (data.get("choices") or [{}])[0] and its message content, None when the
      chain finds nothing. */
  function FirstContent(c: Completion): Option<string> {
    if c.choices == [] || c.choices[0].message.None? then None
    else c.choices[0].message.value.content
  }

  // ---------------------------------------------------------------- responses

  /** A locally made reply: prefix + last_user, counted with split(). */
  function Canned(prefix: string, lastUser: string, modelLabel: string): ChatResponse {
    var reply := prefix + lastUser;
    ChatResponse(reply, Some(|Words(reply)|), Some(modelLabel))
  }

  function MockResponse(lastUser: string): ChatResponse {
    Canned(MockPrefix, lastUser, "mock")
  }

  function FallbackResponse(lastUser: string): ChatResponse {
    Canned(FallbackPrefix, lastUser, "fallback-mock")
  }

  /** The reply of a successful call: the first choice's content, the apology
      when that is missing or empty, with surrounding whitespace stripped. */
  function SuccessReply(c: Completion): (r: string)
    ensures Trimmed(r)
  {
    var content := FirstContent(c);
    Strip(if content.None? || content.value == "" then Apology else content.value)
  }

  /** What the handler does before the network: refuse an empty conversation,
      answer with the mock when there is no key, or forward the conversation. */
  datatype Plan =
    | Answer(response: ChatResponse)
    | Forward(request: ProviderRequest, lastUser: string)

  function Decide(req: ChatRequest, apiKey: Option<string>): (r: Result<Plan>)
    ensures r.Err? <==> req.messages == []
    ensures r.Err? ==> r.error == EmptyMessages
    ensures r.Ok? && !HasKey(apiKey) ==> r.value.Answer?
    ensures r.Ok? && HasKey(apiKey) ==> r.value.Forward?
    ensures r.Ok? && r.value.Forward? ==> r.value.request.messages == ProviderMessages(req.messages)
  {
    if req.messages == [] then Err(EmptyMessages)
    else
      var lastUser := LastUser(req.messages);
      if !HasKey(apiKey) then Ok(Answer(MockResponse(lastUser)))
      else
        Ok(Forward(ProviderRequest(AiModel, ProviderMessages(req.messages), req.maxTokens, TemperatureTenths),
                   lastUser))
  }

  /** The response after the call: the fallback for an HTTP error status and
      for anything raised, the shaped reply otherwise. */
  function HandleUpstream(lastUser: string, upstream: Upstream): ChatResponse {
    match upstream
    case Raised => FallbackResponse(lastUser)
    case Responded(status, body) =>
      if status >= 400 then FallbackResponse(lastUser)
      else if body.None? then FallbackResponse(lastUser)
      else ChatResponse(SuccessReply(body.value), body.value.totalTokens, Some(AiModel))
  }

  /** chat_endpoint: only the empty conversation is an error; every other
      request gets a ChatResponse, whatever the provider does. */
  function ChatEndpoint(req: ChatRequest, apiKey: Option<string>, upstream: Upstream): (r: Result<ChatResponse>)
    ensures r.Err? <==> req.messages == []
    ensures r.Err? ==> r.error == EmptyMessages
  {
    match Decide(req, apiKey)
    case Err(e) => Err(e)
    case Ok(Answer(response)) => Ok(response)
    case Ok(Forward(_, lastUser)) => Ok(HandleUpstream(lastUser, upstream))
  }

  // ---------------------------------------------------------------- properties

  /** " You said: " contributes the two words "You" and "said:". */
  lemma YouSaidWords(x: string)
    ensures Words(YouSaid + x) == ["You", "said:"] + Words(x)
  {
    YouSaidSplit(x);
    assert NoSpace("You") && NoSpace("said:");
    SpacedWords("You", "said:", x);
  }

  /** " You said: " is a space, "You", a space, "said:" and a space. */
  lemma YouSaidSplit(x: string)
    ensures YouSaid + x == " " + ("You" + " " + ("said:" + " " + x))
  {
    assert YouSaid == " " + "You" + " " + "said:" + " ";
  }

  /** A reply made of a one-word label, " You said: " and x has three words
      more than x. */
  lemma CannedWords(first: string, x: string)
    requires first != [] && NoSpace(first)
    ensures |Words(first + YouSaid + x)| == 3 + |Words(x)|
  {
    YouSaidWords(x);
    var w := YouSaid + x;
    assert YouSaid[0] == ' ';
    assert first + YouSaid + x == first + " " + w[1..];
    WordThenSpace(first, w[1..]);
    assert w == " " + w[1..];
    assert Words(w) == Words(w[1..]);
  }

  /** With no key every non-empty conversation gets the mock: the reply is
      "(Mock) You said: " and the cut last message, its usage is the reply's
      word count (three more than the cut message's), and the provider's
      behaviour does not matter. */
  lemma MockWithoutKey(req: ChatRequest, apiKey: Option<string>, upstream: Upstream, other: Upstream)
    requires req.messages != [] && !HasKey(apiKey)
    ensures var last := Prefix(req.messages[|req.messages| - 1].content, 400);
      && ChatEndpoint(req, apiKey, upstream) == Ok(ChatResponse(MockPrefix + last, Some(3 + |Words(last)|), Some("mock")))
      && ChatEndpoint(req, apiKey, other) == ChatEndpoint(req, apiKey, upstream)
  {
    var last := LastUser(req.messages);
    CannedWords("(Mock)", last);
    assert Decide(req, apiKey) == Ok(Answer(MockResponse(last)));
  }

  /** An HTTP error status and a raised exception yield the same fallback:
      "(Fallback) You said: " and the cut last message, its word count, and
      the label "fallback-mock". */
  lemma FallbackOnFailure(req: ChatRequest, apiKey: Option<string>, status: int, body: Option<Completion>)
    requires req.messages != [] && HasKey(apiKey) && status >= 400
    ensures var last := Prefix(req.messages[|req.messages| - 1].content, 400);
      && ChatEndpoint(req, apiKey, Responded(status, body)) == ChatEndpoint(req, apiKey, Raised)
      && ChatEndpoint(req, apiKey, Raised) == Ok(ChatResponse(FallbackPrefix + last, Some(3 + |Words(last)|), Some("fallback-mock")))
  {
    var last := LastUser(req.messages);
    FallbackCount(last);
    EndpointForwards(req, apiKey, Raised);
    EndpointForwards(req, apiKey, Responded(status, body));
    assert HandleUpstream(last, Responded(status, body)) == FallbackResponse(last);
  }

  /** The fallback reply and its word count. */
  lemma FallbackCount(last: string)
    ensures FallbackResponse(last) == ChatResponse(FallbackPrefix + last, Some(3 + |Words(last)|), Some("fallback-mock"))
  {
    CannedWords("(Fallback)", last);
  }

  /** With a key, the answer is what the call's outcome makes of the cut last
      message. */
  lemma EndpointForwards(req: ChatRequest, apiKey: Option<string>, upstream: Upstream)
    requires req.messages != [] && HasKey(apiKey)
    ensures ChatEndpoint(req, apiKey, upstream) == Ok(HandleUpstream(LastUser(req.messages), upstream))
  {
    ForwardedRequest(req, apiKey);
  }

  /** A body that cannot be read degrades like a failed call. */
  lemma UnreadableBodyFallsBack(req: ChatRequest, apiKey: Option<string>, status: int)
    requires req.messages != [] && HasKey(apiKey)
    ensures ChatEndpoint(req, apiKey, Responded(status, None)) == ChatEndpoint(req, apiKey, Raised)
  {
  }

  /** On success the label is the model id, the usage is the provider's
      total_tokens as given, and the reply is the first choice's content with
      its whitespace stripped when that content is non-empty. */
  lemma SuccessShape(req: ChatRequest, apiKey: Option<string>, status: int, c: Completion)
    requires req.messages != [] && HasKey(apiKey) && status < 400
    requires FirstContent(c).Some? && FirstContent(c).value != ""
    ensures var r := ChatEndpoint(req, apiKey, Responded(status, Some(c)));
      && r == Ok(ChatResponse(Strip(FirstContent(c).value), c.totalTokens, Some(AiModel)))
  {
    EndpointForwards(req, apiKey, Responded(status, Some(c)));
    assert SuccessReply(c) == Strip(FirstContent(c).value);
  }

  /** When the first choice has no content, or an empty one, or there are no
      choices, the reply is the apology, unchanged by strip(). */
  lemma SuccessApology(req: ChatRequest, apiKey: Option<string>, status: int, c: Completion)
    requires req.messages != [] && HasKey(apiKey) && status < 400
    requires FirstContent(c).None? || FirstContent(c).value == ""
    ensures ChatEndpoint(req, apiKey, Responded(status, Some(c)))
         == Ok(ChatResponse(Apology, c.totalTokens, Some(AiModel)))
  {
    ApologyIsStripped();
  }

  /** The apology has no surrounding whitespace, so strip() keeps it. */
  lemma ApologyIsStripped()
    ensures Strip(Apology) == Apology
  {
    assert Apology[0] == 'I' && Apology[|Apology| - 1] == '.';
    assert Surrounds(Apology, 0, Apology);
    StripUnique(Apology, 0, Apology);
  }

  /** A content made only of whitespace is not replaced by the apology: it
      strips to the empty reply. */
  lemma WhitespaceContentIsEmpty(req: ChatRequest, apiKey: Option<string>, status: int, c: Completion)
    requires req.messages != [] && HasKey(apiKey) && status < 400
    requires FirstContent(c).Some? && FirstContent(c).value != "" && AllSpace(FirstContent(c).value)
    ensures ChatEndpoint(req, apiKey, Responded(status, Some(c)))
         == Ok(ChatResponse("", c.totalTokens, Some(AiModel)))
  {
  }

  /** The request sent to the provider carries the forwarded list, the model
      id, the caller's max_tokens and the fixed temperature, and the cut last
      message is taken from the input before the primer is added. */
  lemma ForwardedRequest(req: ChatRequest, apiKey: Option<string>)
    requires req.messages != [] && HasKey(apiKey)
    ensures Decide(req, apiKey) == Ok(Forward(
      ProviderRequest(AiModel, ProviderMessages(req.messages), req.maxTokens, TemperatureTenths),
      Prefix(req.messages[|req.messages| - 1].content, 400)))
  {
  }

  /** Every response names the path that made it. */
  lemma ResponseLabels(req: ChatRequest, apiKey: Option<string>, upstream: Upstream)
    requires req.messages != []
    ensures var r := ChatEndpoint(req, apiKey, upstream);
      r.Ok? && r.value.model.Some? && r.value.model.value in {"mock", "fallback-mock", AiModel}
      && (r.value.model.value == "mock" <==> !HasKey(apiKey))
  {
  }

  /** Forwarding a forwarded list changes nothing more: it already holds a
      system message. */
  lemma ProviderMessagesIdempotent(messages: seq<ChatMessage>)
    ensures ProviderMessages(ProviderMessages(messages)) == ProviderMessages(messages)
  {
  }
}
