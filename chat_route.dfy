/** `POST /api/chat`: the conversation so far, behind a system prompt fixed
    by the session's settings, sent through the OpenRouter client's
    fallback list. The client's requests are modelled by its responder. */
module ChatRoute {
  import opened Common
  import opened OpenRouter

  /** One element of the `messages` array: its `type` and `content`. */
  datatype ChatItem = ChatItem(kind: Option<string>, content: string)

  /** The `messages` property: falsy, truthy but not an array, or an array. */
  datatype MessagesField = Absent | NotArray | Items(items: seq<ChatItem>)

  /** The request: a body that cannot be destructured, or its properties. */
  datatype ChatRequest =
    | ChatUnreadable
    | ChatBody(messages: MessagesField, language: Option<string>, personality: Option<string>,
               topic: Option<string>, level: Option<string>)

  /** The system prompt, each setting interpolated as given. */
  function SystemPrompt(language: string, personality: string, topic: string, level: string): string {
    "\n      ### IDENTITY ###\n      You are the specialized "
      + personality
      + " "
      + language
      + " tutor. You are NOT a general AI assistant.\n      \n      ### SESSION CONTEXT (IMPERATIVE) ###\n      - Target Language: "
      + language
      + "\n      - Your Personality: "
      + personality
      + "\n      - Current Topic: "
      + topic
      + "\n      - User Level: "
      + level
      + "\n\n      ### MANDATORY CONSTRAINTS ###\n      1. NEVER ask \"What language would you like to practice?\" or \"What is your level?\". These are ALREADY SET to "
      + language
      + " and "
      + level
      + ".\n      2. If the user provides a short response (e.g., \"Yes\", \"Hi\", \"Ok\"), DO NOT pivot to generic help. Instead, dive deeper into "
      + topic
      + " in "
      + language
      + ".\n      3. Speak 95% in "
      + language
      + ". Use the user's native language only for brief translations in brackets.\n      4. Embody the "
      + personality
      + " personality in every sentence.\n      \n      ### EXAMPLE TRANSITION ###\n      User: \"Yes.\" or \"Hi!\"\n      Assistant: \"\U{00A1}Genial! Empecemos con nuestro tema: "
      + topic
      + ". [Great! Let's start with our topic: "
      + topic
      + ".]\" (Assuming Spanish/Energetic)\n    "
  }

  /** `m.type === 'user' ? 'user' : 'assistant'`. */
  function RoleOf(kind: Option<string>): Role {
    if kind == Some("user") then User else Assistant
  }

  /** The chat messages in OpenRouter's format, in order. */
  function ToMessages(items: seq<ChatItem>): (r: seq<Message>)
    ensures |r| == |items|
    ensures forall i :: 0 <= i < |items| ==>
      r[i].content == items[i].content && (r[i].role == User <==> items[i].kind == Some("user"))
    ensures forall i :: 0 <= i < |items| ==> r[i].role != System
  {
    if items == [] then [] else [Message(RoleOf(items[0].kind), items[0].content)] + ToMessages(items[1..])
  }

  /** The system prompt for the request's settings, an absent one printing as "undefined". */
  function PromptFor(req: ChatRequest): string
    requires req.ChatBody?
  {
    SystemPrompt(Interp(req.language), Interp(req.personality), Interp(req.topic), Interp(req.level))
  }

  /** What is sent: the system prompt, then the chat messages. */
  function Dialogue(system: string, items: seq<ChatItem>): seq<Message> {
    [Message(System, system)] + ToMessages(items)
  }

  function Conversation(req: ChatRequest): seq<Message>
    requires req.ChatBody? && req.messages.Items?
  {
    Dialogue(PromptFor(req), req.messages.items)
  }

  function ServerError(): Response {
    Response(500, ErrorBody("Internal Server Error"))
  }

  /** The reply for the client's result: a missing text throws and is caught as a 500. */
  function Replied(text: Option<string>): Response {
    if Truthy(text) then Response(200, JObj([("content", JStr(text.value))])) else ServerError()
  }

  /** The answer without a model call. */
  function Refused(req: ChatRequest): Response {
    if req.ChatUnreadable? then ServerError() else Response(400, ErrorBody("Messages are required"))
  }

  /** `POST(request)`, with the OpenRouter key and responder. */
  function Post(req: ChatRequest, apiKey: Option<string>, respond: Responder): Response {
    if req.ChatBody? && req.messages.Items? then Replied(Generate(apiKey, Conversation(req), respond))
    else Refused(req)
  }

  /** Without a messages array the answer is a 400, whatever the models would say. */
  lemma {:induction false} MessagesRequired(req: ChatRequest, apiKey: Option<string>, respond: Responder, other: Responder)
    requires req.ChatBody? && !req.messages.Items?
    ensures Post(req, apiKey, respond) == Post(req, apiKey, other) == Response(400, ErrorBody("Messages are required"))
  {
  }

  /** The system prompt comes first and no other message is a system message;
      each chat message keeps its content and is the user's exactly when its
      type is 'user'. */
  lemma DialogueShape(system: string, items: seq<ChatItem>)
    ensures var c := Dialogue(system, items);
      && |c| == |items| + 1
      && c[0] == Message(System, system)
      && forall i :: 0 <= i < |items| ==>
           c[i + 1].content == items[i].content && c[i + 1].role != System
           && (c[i + 1].role == User <==> items[i].kind == Some("user"))
  {
    var c := Dialogue(system, items);
    assert c[1..] == ToMessages(items);
  }

  /** A request with a messages array is answered from the client's result. */
  lemma {:induction false} PostReplies(req: ChatRequest, apiKey: Option<string>, respond: Responder)
    requires req.ChatBody? && req.messages.Items?
    ensures Post(req, apiKey, respond) == Replied(Generate(apiKey, Conversation(req), respond))
  {
  }

  /** The reply is a 200 carrying the client's text exactly when some model
      in the list answered; otherwise a 500. */
  lemma {:induction false} ReplyIsFirstSuccess(apiKey: Option<string>, msgs: seq<Message>, respond: Responder)
    ensures Generate(apiKey, msgs, respond).Some? ==>
      Replied(Generate(apiKey, msgs, respond)) == Response(200, JObj([("content", JStr(Generate(apiKey, msgs, respond).value))]))
    ensures Generate(apiKey, msgs, respond).None? ==> Replied(Generate(apiKey, msgs, respond)) == ServerError()
  {
    RepliedText(Generate(apiKey, msgs, respond), apiKey, msgs, respond);
  }

  /** The client never yields an empty text, so its result decides the status alone. */
  lemma {:induction false} RepliedText(text: Option<string>, apiKey: Option<string>, msgs: seq<Message>, respond: Responder)
    requires text == Generate(apiKey, msgs, respond)
    ensures text.Some? ==> Replied(text) == Response(200, JObj([("content", JStr(text.value))]))
    ensures text.None? ==> Replied(text) == ServerError()
  {
    if text.Some? {
      GeneratedNonEmpty(apiKey, msgs, respond);
    }
  }

  /** When every model fails, or no key is set, the answer is a 500. */
  lemma {:induction false} AllFailIsServerError(apiKey: Option<string>, msgs: seq<Message>, respond: Responder)
    requires !Truthy(apiKey) || forall j :: 0 <= j < |ModelsToTry| ==> !Succeeds(respond(ModelsToTry[j], msgs))
    ensures Replied(Generate(apiKey, msgs, respond)) == ServerError()
  {
    AllFailIsNull(ModelsToTry, msgs, respond);
    ReplyIsFirstSuccess(apiKey, msgs, respond);
  }
}
