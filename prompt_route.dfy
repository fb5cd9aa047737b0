/** `POST /api/prompt`: builds the system prompt and first message of the
    voice tutor by asking Gemini; the request body, the SDK call (None when
    `generateContent` or `text()` throws) and JSON.parse (None when it
    throws) are inputs. */
module PromptRoute {
  import opened Common

  /** The request: a body that cannot be read as an object (`request.json()`
      throws, or yields null so that reading a property throws), or the
      string properties it has. */
  datatype PromptRequest =
    | Unreadable
    | Body(language: Option<string>, nativeLanguage: Option<string>, personality: Option<string>,
           topic: Option<string>, level: Option<string>)

  /** The prompt sent to the model. */
  function TutorPrompt(language: string, nativeLanguage: string, personality: string, topic: string, level: string): string {
    "\n      Create a detailed system prompt for an AI language tutor with the following traits:\n      - Target Language: "
      + language
      + "\n      - User's Native Language: "
      + nativeLanguage
      + "\n      - Personality: "
      + personality
      + "\n      - Current Topic: "
      + topic
      + "\n      - User Level: "
      + level
      + "\n\n      The system prompt should be designed for an ElevenLabs Conversational Agent.\n      It must instruct the AI to:\n      1. Behave consistently as the specified personality.\n      2. Speak primarily in "
      + language
      + ", adapting complexity to "
      + level
      + ".\n      3. Provide brief translations or explanations in "
      + nativeLanguage
      + " ONLY when necessary or asked.\n      4. Correct mistakes gently and encouragingly.\n      5. Keep responses concise (1-3 sentences) to maintain conversational flow.\n      6. Engage the user with relevant questions about the topic.\n\n      Also generate a welcoming \"first message\" to start the conversation.\n\n      Output JSON format:\n      {\n        \"systemPrompt\": \"The detailed instruction for the AI...\",\n        \"firstMessage\": \"The opening greeting in the target language...\"\n      }\n    "
  }

  /** `text.replace(/```json\n|\n```/g, '').trim()`. */
  function Clean(text: string): string {
    Trim(RemoveEither(text, "```json\n", "\n```"))
  }

  function Payload(systemPrompt: string, firstMessage: string): Json {
    JObj([("systemPrompt", JStr(systemPrompt)), ("firstMessage", JStr(firstMessage))])
  }

  /** The payload when the answer does not parse, with the properties as given. */
  function ParseFallback(personality: Option<string>, language: string, topic: Option<string>): Json {
    Payload("You are a " + Interp(personality) + " " + language + " tutor. Teach " + Interp(topic) + ".",
            "Hello! Let's learn " + language + ".")
  }

  /** The payload when anything else throws, with defaults for falsy properties. */
  function ErrorFallback(personality: Option<string>, language: Option<string>, topic: Option<string>): Json {
    Payload("You are a " + OrElse(personality, "friendly") + " " + OrElse(language, "language")
              + " tutor. Teach " + OrElse(topic, "conversation") + ".",
            "Hello! Let's learn " + OrElse(language, "a new language") + ".")
  }

  /** What the route makes of the model's answer for a request with a language. */
  function Answer(answer: Option<string>, language: string, personality: Option<string>, topic: Option<string>,
                  parse: string -> Option<Json>): Response {
    match answer
    case None => Response(200, ErrorFallback(personality, Some(language), topic))
    case Some(text) =>
      match parse(Clean(text))
      case Some(data) => Response(200, data)
      case None => Response(200, ParseFallback(personality, language, topic))
  }

  /** `POST(request)`. */
  function Post(req: PromptRequest, generate: string -> Option<string>, parse: string -> Option<Json>): Response {
    if req.Body? && Truthy(req.language) then Answer(generate(PromptFor(req)), req.language.value, req.personality, req.topic, parse)
    else Rejected(req)
  }

  /** The answer without a model call: the static fallback for an unreadable
      body, a 400 for a missing or empty language. */
  function Rejected(req: PromptRequest): Response {
    if req.Unreadable? then Response(200, ErrorFallback(None, None, None))
    else Response(400, ErrorBody("Language is required"))
  }

  /** The prompt for a request with a language, an absent property printing as "undefined". */
  function PromptFor(req: PromptRequest): string
    requires req.Body? && Truthy(req.language)
  {
    TutorPrompt(req.language.value, OrElse(req.nativeLanguage, "English"), Interp(req.personality), Interp(req.topic), Interp(req.level))
  }

  /** A missing or empty language is a 400, whatever the model would have said. */
  lemma {:induction false} NoLanguageNoCall(req: PromptRequest, generate: string -> Option<string>, other: string -> Option<string>,
                         parse: string -> Option<Json>)
    requires req.Body? && !Truthy(req.language)
    ensures Post(req, generate, parse) == Post(req, other, parse) == Response(400, ErrorBody("Language is required"))
  {
  }

  /** An unreadable body gets the static payload with every default. */
  lemma {:induction false} UnreadableBody(generate: string -> Option<string>, parse: string -> Option<Json>)
    ensures Post(Unreadable, generate, parse) ==
      Response(200, Payload("You are a friendly language tutor. Teach conversation.", "Hello! Let's learn a new language."))
  {
    FallbackDefaults();
  }

  lemma FallbackDefaults()
    ensures ErrorFallback(None, None, None) ==
      Payload("You are a friendly language tutor. Teach conversation.", "Hello! Let's learn a new language.")
  {
    DefaultTutor();
    assert "Hello! Let's learn " + "a new language" + "." == "Hello! Let's learn a new language.";
  }

  lemma DefaultTutor()
    ensures "You are a " + "friendly" + " " + "language" + " tutor. Teach " + "conversation" + "."
         == "You are a friendly language tutor. Teach conversation."
  {
    DefaultTutorStart();
    assert "You are a friendly language" + " tutor. Teach " == "You are a friendly language tutor. Teach ";
    assert "You are a friendly language tutor. Teach " + "conversation" == "You are a friendly language tutor. Teach conversation";
  }

  lemma DefaultTutorStart()
    ensures "You are a " + "friendly" + " " + "language" == "You are a friendly language"
  {
    assert "You are a " + "friendly" == "You are a friendly";
    assert "You are a friendly" + " " == "You are a friendly ";
  }

  /** An absent or empty native language is English. */
  lemma {:induction false} NativeLanguageDefault(req: PromptRequest, generate: string -> Option<string>, parse: string -> Option<Json>)
    requires req.Body? && !Truthy(req.nativeLanguage)
    ensures Post(req, generate, parse) == Post(req.(nativeLanguage := Some("English")), generate, parse)
  {
    var english := req.(nativeLanguage := Some("English"));
    SameNativeLanguage(req, english, generate, parse);
  }

  /** Requests that differ only in a native language with the same meaning get the same answer. */
  lemma {:induction false} SameNativeLanguage(req: PromptRequest, other: PromptRequest, generate: string -> Option<string>, parse: string -> Option<Json>)
    requires req.Body? && other.Body? && other == req.(nativeLanguage := other.nativeLanguage)
    requires OrElse(req.nativeLanguage, "English") == OrElse(other.nativeLanguage, "English")
    ensures Post(req, generate, parse) == Post(other, generate, parse)
  {
    if Truthy(req.language) {
      assert PromptFor(req) == PromptFor(other);
    }
  }

  /** An answer that parses after cleaning is returned as parsed. */
  lemma {:induction false} ParsedAnswer(req: PromptRequest, generate: string -> Option<string>, parse: string -> Option<Json>, text: string, data: Json)
    requires req.Body? && Truthy(req.language)
    requires parse(Clean(text)) == Some(data)
    requires generate(PromptFor(req)) == Some(text)
    ensures Post(req, generate, parse) == Response(200, data)
  {
    var answer := generate(PromptFor(req));
    ParsedCase(answer, text, data, req.language.value, req.personality, req.topic, parse);
  }

  /** An answer that does not parse gives the fallback built from the
      properties as given, "undefined" standing in for an absent one. */
  lemma {:induction false} UnparsedAnswer(req: PromptRequest, generate: string -> Option<string>, parse: string -> Option<Json>, text: string)
    requires req.Body? && Truthy(req.language)
    requires parse(Clean(text)) == None
    requires generate(PromptFor(req)) == Some(text)
    ensures Post(req, generate, parse) == Response(200, ParseFallback(req.personality, req.language.value, req.topic))
  {
    var answer := generate(PromptFor(req));
    UnparsedCase(answer, text, req.language.value, req.personality, req.topic, parse);
  }

  /** A failed model call gives the fallback with defaults for a falsy personality or topic. */
  lemma {:induction false} FailedCall(req: PromptRequest, generate: string -> Option<string>, parse: string -> Option<Json>)
    requires req.Body? && Truthy(req.language)
    requires generate(PromptFor(req)) == None
    ensures Post(req, generate, parse) == Response(200, ErrorFallback(req.personality, req.language, req.topic))
  {
    var answer := generate(PromptFor(req));
    FailedCase(answer, req.language.value, req.personality, req.topic, parse);
  }

  lemma {:induction false} ParsedCase(answer: Option<string>, text: string, data: Json, language: string, personality: Option<string>,
                   topic: Option<string>, parse: string -> Option<Json>)
    requires answer == Some(text) && parse(Clean(text)) == Some(data)
    ensures Answer(answer, language, personality, topic, parse) == Response(200, data)
  {
  }

  lemma {:induction false} UnparsedCase(answer: Option<string>, text: string, language: string, personality: Option<string>,
                     topic: Option<string>, parse: string -> Option<Json>)
    requires answer == Some(text) && parse(Clean(text)) == None
    ensures Answer(answer, language, personality, topic, parse) == Response(200, ParseFallback(personality, language, topic))
  {
  }

  lemma {:induction false} FailedCase(answer: Option<string>, language: string, personality: Option<string>,
                   topic: Option<string>, parse: string -> Option<Json>)
    requires answer == None
    ensures Answer(answer, language, personality, topic, parse) == Response(200, ErrorFallback(personality, Some(language), topic))
  {
  }

  /** Text without a backquote passes through the removal of two patterns
      that each need a backquote at their first or second position. */
  lemma {:induction false} RemoveEitherSkips(s: string, t: string, p: string, q: string)
    requires '`' !in s
    requires t == [] || t[0] != '`'
    requires p != [] && p[0] == '`' && |q| >= 2 && q[1] == '`'
    ensures RemoveEither(s + t, p, q) == s + RemoveEither(t, p, q)
  {
    if s == [] {
      assert s + t == t;
    } else {
      var st := s + t;
      assert st[0] == s[0] && st[1..] == s[1..] + t;
      assert st[0] != p[0];
      if |st| >= 2 {
        assert st[1] != '`' by {
          if |s| > 1 {
            assert st[1] == s[1];
          } else {
            assert st[1] == t[0];
          }
        }
      }
      assert |st| < 2 || st[1] != q[1];
      RemoveEitherSkips(s[1..], t, p, q);
      assert [s[0]] + (s[1..] + RemoveEither(t, p, q)) == s + RemoveEither(t, p, q);
    }
  }

  /** An answer wrapped in a json code fence, with no backquote inside, is
      unwrapped and trimmed; one without a backquote is only trimmed. */
  lemma {:induction false} CleanUnwrapsFence(body: string)
    requires '`' !in body
    ensures Clean("```json\n" + body + "\n```") == Trim(body)
    ensures Clean(body) == Trim(body)
  {
    var text := "```json\n" + body + "\n```";
    assert "```json\n" <= text;
    assert text[8..] == body + "\n```";
    RemoveEitherSkips(body, "\n```", "```json\n", "\n```");
    assert RemoveEither("\n```", "```json\n", "\n```") == [];
    RemoveEitherSkips(body, [], "```json\n", "\n```");
    assert body + [] == body;
  }
}
