/** `POST /api/translate`: one text translated through the OpenRouter
    client's `generateContentSafe`, whose requests are modelled by its
    responder. */
module TranslateRoute {
  import opened Common
  import opened OpenRouter

  /** The request: a body that cannot be destructured, or its properties. */
  datatype TranslateRequest = TrUnreadable | TrBody(text: Option<string>, targetLanguage: Option<string>)

  /** The prompt, sent as the single user message. */
  function TranslatePrompt(targetLanguage: string, text: string): string {
    "\n      Translate the following text into "
      + targetLanguage
      + ". \n      Ensure the translation is natural and accurate for a language learner.\n      Return ONLY the translated text. Do not include any explanations or markdown.\n\n      Text to translate:\n      \""
      + text
      + "\"\n    "
  }

  /** A text and a target language other than 'Detect'. */
  predicate Accepted(req: TranslateRequest) {
    req.TrBody? && Truthy(req.text) && Truthy(req.targetLanguage) && req.targetLanguage.value != "Detect"
  }

  function Failed(): Response {
    Response(500, ErrorBody("Failed to translate"))
  }

  /** The answer without a model call; the text is checked before the language. */
  function Refused(req: TranslateRequest): Response {
    if req.TrUnreadable? then Failed()
    else if !Truthy(req.text) then Response(400, ErrorBody("Text is required"))
    else Response(400, ErrorBody("Target language is required for translation"))
  }

  /** The reply for the client's result: a missing text throws and is caught as a 500. */
  function Translation(result: Option<string>): Response {
    if Truthy(result) then Response(200, JObj([("translation", JStr(result.value))])) else Failed()
  }

  /** The messages sent for an accepted request. */
  function Sent(req: TranslateRequest): seq<Message>
    requires Accepted(req)
  {
    [Message(User, TranslatePrompt(req.targetLanguage.value, req.text.value))]
  }

  /** `POST(request)`, with the OpenRouter key and responder. */
  function Post(req: TranslateRequest, apiKey: Option<string>, respond: Responder): Response {
    if Accepted(req) then Translation(Generate(apiKey, Sent(req), respond)) else Refused(req)
  }

  /** A missing or empty text is reported first, whatever the language. */
  lemma {:induction false} TextRequired(req: TranslateRequest, apiKey: Option<string>, respond: Responder)
    requires req.TrBody? && !Truthy(req.text)
    ensures Post(req, apiKey, respond) == Response(400, ErrorBody("Text is required"))
  {
  }

  /** With a text, a missing, empty or 'Detect' language is a 400. */
  lemma {:induction false} TargetRequired(req: TranslateRequest, apiKey: Option<string>, respond: Responder)
    requires req.TrBody? && Truthy(req.text)
    requires !Truthy(req.targetLanguage) || req.targetLanguage == Some("Detect")
    ensures Post(req, apiKey, respond) == Response(400, ErrorBody("Target language is required for translation"))
  {
  }

  /** An unreadable body is a 500. */
  lemma {:induction false} UnreadableFails(apiKey: Option<string>, respond: Responder)
    ensures Post(TrUnreadable, apiKey, respond) == Failed()
  {
  }

  /** An accepted request is answered from the client's result for its prompt. */
  lemma {:induction false} PostTranslates(req: TranslateRequest, apiKey: Option<string>, respond: Responder)
    requires Accepted(req)
    ensures Post(req, apiKey, respond) == Translation(Generate(apiKey, Sent(req), respond))
  {
  }

  /** The reply is a 200 carrying the client's text exactly when some model
      answered; otherwise a 500. */
  lemma {:induction false} TranslationIsFirstSuccess(apiKey: Option<string>, msgs: seq<Message>, respond: Responder)
    ensures Generate(apiKey, msgs, respond).Some? ==>
      Translation(Generate(apiKey, msgs, respond)) == Response(200, JObj([("translation", JStr(Generate(apiKey, msgs, respond).value))]))
    ensures Generate(apiKey, msgs, respond).None? ==> Translation(Generate(apiKey, msgs, respond)) == Failed()
  {
    GeneratedNonEmpty(apiKey, msgs, respond);
  }
}
