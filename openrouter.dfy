/** The OpenRouter client: a fixed preference list of hosted models tried one
    after another until one returns non-empty content. Each request's outcome
    is supplied by a responder function of the model id and the messages
    sent, so the loops below are deterministic. */
module OpenRouter {
  import opened Common
  import JsonSpan

  datatype Role = User | Assistant | System

  /** One chat message as sent to OpenRouter. */
  datatype Message = Message(role: Role, content: string)

  /** What one request to one model comes to: a non-2xx status (429
      included), an exception (network, `response.json()`, a missing
      `choices`), or a 2xx answer whose first choice carries `content`
      ("" when that is missing or empty). */
  datatype ModelOutcome = NotOk(status: int) | Threw | Ok(content: string)

  type Responder = (string, seq<Message>) -> ModelOutcome

  /** `modelsToTry`, in order of preference. */
  const ModelsToTry: seq<string> := [
    "google/gemini-2.0-flash-exp:free",
    "openai/gpt-4o-mini",
    "meta-llama/llama-3.1-8b-instruct:free",
    "anthropic/claude-3.5-sonnet",
    "google/gemini-flash-1.5-8b"
  ]

  /** An answer the loops accept: status ok and truthy content. */
  predicate Succeeds(o: ModelOutcome) {
    o.Ok? && o.content != ""
  }

  /** The content chosen from `models`: that of the first model that succeeds. */
  function Fallback(models: seq<string>, msgs: seq<Message>, respond: Responder): Option<string>
    decreases |models|
  {
    if models == [] then None
    else if Succeeds(respond(models[0], msgs)) then Some(respond(models[0], msgs).content)
    else Fallback(models[1..], msgs, respond)
  }

  /** The models requested, in order: up to and including the first success. */
  function Attempts(models: seq<string>, msgs: seq<Message>, respond: Responder): seq<string>
    decreases |models|
  {
    if models == [] then []
    else if Succeeds(respond(models[0], msgs)) then [models[0]]
    else [models[0]] + Attempts(models[1..], msgs, respond)
  }

  /** What either generator returns for an API key (absent or "" means unset). */
  function Generate(apiKey: Option<string>, msgs: seq<Message>, respond: Responder): Option<string> {
    if !Truthy(apiKey) then None else Fallback(ModelsToTry, msgs, respond)
  }

  /** The models either generator requests. */
  function Requested(apiKey: Option<string>, msgs: seq<Message>, respond: Responder): seq<string> {
    if !Truthy(apiKey) then [] else Attempts(ModelsToTry, msgs, respond)
  }

  /** `generateContentSafe(prompt)`: the prompt goes out as the single user
      message; `tried` lists the models requested, in order. */
  method GenerateContentSafe(apiKey: Option<string>, prompt: string, respond: Responder)
    returns (r: Option<string>, tried: seq<string>)
    ensures r == Generate(apiKey, [Message(User, prompt)], respond)
    ensures tried == Requested(apiKey, [Message(User, prompt)], respond)
  {
    var msgs := [Message(User, prompt)];
    if !Truthy(apiKey) {
      return None, [];
    }
    var models := ModelsToTry;
    tried := [];
    for i := 0 to |models|
      invariant Fallback(models[i..], msgs, respond) == Fallback(models, msgs, respond)
      invariant tried + Attempts(models[i..], msgs, respond) == Attempts(models, msgs, respond)
    {
      var modelName := models[i];
      tried := tried + [modelName];
      var outcome := respond(modelName, msgs);
      if !outcome.Ok? {
        FailedStep(models, i, msgs, respond);
        continue;
      }
      if outcome.content != "" {
        SucceededStep(models, i, msgs, respond);
        return Some(outcome.content), tried;
      }
      FailedStep(models, i, msgs, respond);
    }
    return None, tried;
  }

  /** `generateWithMessagesSafe(messages)`: the same loop over the caller's messages. */
  method GenerateWithMessagesSafe(apiKey: Option<string>, messages: seq<Message>, respond: Responder)
    returns (r: Option<string>, tried: seq<string>)
    ensures r == Generate(apiKey, messages, respond)
    ensures tried == Requested(apiKey, messages, respond)
  {
    if !Truthy(apiKey) {
      return None, [];
    }
    var models := ModelsToTry;
    tried := [];
    for i := 0 to |models|
      invariant Fallback(models[i..], messages, respond) == Fallback(models, messages, respond)
      invariant tried + Attempts(models[i..], messages, respond) == Attempts(models, messages, respond)
    {
      var modelName := models[i];
      tried := tried + [modelName];
      var outcome := respond(modelName, messages);
      if outcome.Ok? && outcome.content != "" {
        SucceededStep(models, i, messages, respond);
        return Some(outcome.content), tried;
      }
      FailedStep(models, i, messages, respond);
    }
    return None, tried;
  }

  /** Both generators select the same model's answer for a prompt sent as a
      single user message, and request the same models. */
  method SameSelection(apiKey: Option<string>, prompt: string, respond: Responder)
    returns (viaPrompt: Option<string>, viaMessages: Option<string>)
    ensures viaPrompt == viaMessages
  {
    var triedA, triedB;
    viaPrompt, triedA := GenerateContentSafe(apiKey, prompt, respond);
    viaMessages, triedB := GenerateWithMessagesSafe(apiKey, [Message(User, prompt)], respond);
    assert triedA == triedB;
  }

  /** `generateSessionSummary` of this client: the summary prompt through the
      fallback loop, then the answer read by `SummaryOf`. */
  method GenerateSessionSummary(apiKey: Option<string>, transcript: string, respond: Responder,
                                parse: string -> Option<Json>)
    returns (r: Option<Json>)
    ensures r == SummaryOf(Generate(apiKey, [Message(User, JsonSpan.SummaryPrompt(transcript))], respond), parse)
  {
    var prompt := JsonSpan.SummaryPrompt(transcript);
    var text, _ := GenerateContentSafe(apiKey, prompt, respond);
    r := SummaryOf(text, parse);
  }

  /** `if (!text) return null`, then the JSON span of the text, parsed, with a
      throwing parse caught as null: a summary exists only when there was
      text, it holds a span from a '{' to a later '}', and that span parses. */
  function SummaryOf(text: Option<string>, parse: string -> Option<Json>): (r: Option<Json>)
    ensures !Truthy(text) ==> r == None
    ensures Truthy(text) && JsonSpan.MatchJsonSpan(text.value).None? ==> r == None
    ensures Truthy(text) && JsonSpan.MatchJsonSpan(text.value).Some? ==>
      r == parse(JsonSpan.MatchJsonSpan(text.value).value)
  {
    if !Truthy(text) then None else JsonSpan.ParseSummary(text.value, parse)
  }

  /** A model that succeeds ends the search. */
  lemma SucceededStep(models: seq<string>, i: nat, msgs: seq<Message>, respond: Responder)
    requires i < |models| && Succeeds(respond(models[i], msgs))
    ensures Fallback(models[i..], msgs, respond) == Some(respond(models[i], msgs).content)
    ensures Attempts(models[i..], msgs, respond) == [models[i]]
  {
  }

  /** A model that fails hands over to the next one. */
  lemma FailedStep(models: seq<string>, i: nat, msgs: seq<Message>, respond: Responder)
    requires i < |models| && !Succeeds(respond(models[i], msgs))
    ensures Fallback(models[i..], msgs, respond) == Fallback(models[i + 1..], msgs, respond)
    ensures Attempts(models[i..], msgs, respond) == [models[i]] + Attempts(models[i + 1..], msgs, respond)
  {
    assert models[i..][1..] == models[i + 1..];
  }

  /** The first model that succeeds decides the result, and no model after it
      is requested. */
  lemma {:induction false} FirstSuccessWins(models: seq<string>, msgs: seq<Message>, respond: Responder, i: nat)
    requires i < |models| && Succeeds(respond(models[i], msgs))
    requires forall j :: 0 <= j < i ==> !Succeeds(respond(models[j], msgs))
    ensures Fallback(models, msgs, respond) == Some(respond(models[i], msgs).content)
    ensures Attempts(models, msgs, respond) == models[..i + 1]
  {
    if i > 0 {
      assert !Succeeds(respond(models[0], msgs));
      FirstSuccessWins(models[1..], msgs, respond, i - 1);
      assert models[1..][..i] == models[1..i + 1];
    }
  }

  /** The result is null exactly when every model fails, and then every model
      has been requested once. */
  lemma {:induction false} AllFailIsNull(models: seq<string>, msgs: seq<Message>, respond: Responder)
    ensures Fallback(models, msgs, respond).None? <==> forall j :: 0 <= j < |models| ==> !Succeeds(respond(models[j], msgs))
    ensures Fallback(models, msgs, respond).None? ==> Attempts(models, msgs, respond) == models
  {
    if models != [] {
      AllFailIsNull(models[1..], msgs, respond);
      if !Succeeds(respond(models[0], msgs)) {
        assert forall j :: 1 <= j < |models| ==> models[j] == models[1..][j - 1];
      }
    }
  }

  /** A chosen content is non-empty and is the answer of a model that was requested last. */
  lemma {:induction false} ChosenIsLastRequested(models: seq<string>, msgs: seq<Message>, respond: Responder)
    ensures Attempts(models, msgs, respond) <= models
    ensures Fallback(models, msgs, respond).Some? ==>
      Attempts(models, msgs, respond) != [] &&
      var last := Attempts(models, msgs, respond)[|Attempts(models, msgs, respond)| - 1];
      Succeeds(respond(last, msgs)) && Fallback(models, msgs, respond) == Some(respond(last, msgs).content)
  {
    if models != [] && !Succeeds(respond(models[0], msgs)) {
      ChosenIsLastRequested(models[1..], msgs, respond);
    }
  }

  /** At most five requests, never the same model twice. */
  lemma NoModelRetried(apiKey: Option<string>, msgs: seq<Message>, respond: Responder)
    ensures |Requested(apiKey, msgs, respond)| <= 5
    ensures forall i, j :: 0 <= i < j < |Requested(apiKey, msgs, respond)| ==>
      Requested(apiKey, msgs, respond)[i] != Requested(apiKey, msgs, respond)[j]
  {
    ChosenIsLastRequested(ModelsToTry, msgs, respond);
  }

  /** Without an API key nothing is requested and the result is null. */
  lemma NoKeyNoRequest(apiKey: Option<string>, msgs: seq<Message>, respond: Responder)
    requires !Truthy(apiKey)
    ensures Generate(apiKey, msgs, respond) == None && Requested(apiKey, msgs, respond) == []
  {
  }

  /** A text from the client is never empty. */
  lemma GeneratedNonEmpty(apiKey: Option<string>, msgs: seq<Message>, respond: Responder)
    ensures Generate(apiKey, msgs, respond).Some? ==> Generate(apiKey, msgs, respond).value != ""
  {
    if Truthy(apiKey) {
      FallbackNonEmpty(ModelsToTry, msgs, respond);
    }
  }

  lemma {:induction false} FallbackNonEmpty(models: seq<string>, msgs: seq<Message>, respond: Responder)
    ensures Fallback(models, msgs, respond).Some? ==> Fallback(models, msgs, respond).value != ""
    decreases |models|
  {
    if models != [] && !Succeeds(respond(models[0], msgs)) {
      FallbackNonEmpty(models[1..], msgs, respond);
    }
  }
}
