/** The Gemini client's `generateSessionSummary`: one SDK request with the
    summary prompt, the JSON span of the answer, parsed, and null whenever
    anything on the way throws. The SDK request and `response.text()` are
    a parameter that yields None when either throws. */
module Gemini {
  import opened Common
  import JsonSpan

  /** `model.generateContent(prompt)` followed by `response.text()`. */
  type Sdk = string -> Option<string>

  /** `generateSessionSummary(transcript)`: the SDK's answer to the summary
      prompt, read by `ReadAnswer`. */
  function GenerateSessionSummary(transcript: string, generate: Sdk, parse: string -> Option<Json>): Option<Json> {
    ReadAnswer(generate(JsonSpan.SummaryPrompt(transcript)), parse)
  }

  /** The `try` block after the request: a thrown SDK call is caught as null;
      otherwise the JSON span of the text is parsed, a throwing parse being
      caught as null. */
  function ReadAnswer(answer: Option<string>, parse: string -> Option<Json>): Option<Json> {
    match answer
    case None => None
    case Some(text) => JsonSpan.ParseSummary(text, parse)
  }

  /** A failed SDK call is caught and gives null. */
  lemma SdkFailureIsNull(transcript: string, generate: Sdk, parse: string -> Option<Json>)
    requires generate(JsonSpan.SummaryPrompt(transcript)) == None
    ensures GenerateSessionSummary(transcript, generate, parse) == None
  {
    FailedAnswer(generate(JsonSpan.SummaryPrompt(transcript)), parse);
  }

  /** An answer without a '{' followed later by a '}' gives null. */
  lemma NoSpanIsNull(transcript: string, generate: Sdk, parse: string -> Option<Json>, text: string)
    requires JsonSpan.NoBracePair(text)
    requires generate(JsonSpan.SummaryPrompt(transcript)) == Some(text)
    ensures GenerateSessionSummary(transcript, generate, parse) == None
  {
    SpanlessAnswer(generate(JsonSpan.SummaryPrompt(transcript)), parse, text);
  }

  /** With its first '{' at `p` and its last '}' at a later `q`, the answer's
      span `text[p..q + 1]` is what gets parsed, and a parse that throws
      gives null. */
  lemma SpanIsParsed(transcript: string, generate: Sdk, parse: string -> Option<Json>, text: string, p: nat, q: nat)
    requires p < q < |text| && text[p] == '{' && text[q] == '}'
    requires '{' !in text[..p] && '}' !in text[q + 1..]
    requires generate(JsonSpan.SummaryPrompt(transcript)) == Some(text)
    ensures GenerateSessionSummary(transcript, generate, parse) == parse(text[p..q + 1])
  {
    SpannedAnswer(generate(JsonSpan.SummaryPrompt(transcript)), parse, text, p, q);
  }

  lemma FailedAnswer(answer: Option<string>, parse: string -> Option<Json>)
    requires answer == None
    ensures ReadAnswer(answer, parse) == None
  {
  }

  lemma SpanlessAnswer(answer: Option<string>, parse: string -> Option<Json>, text: string)
    requires JsonSpan.NoBracePair(text)
    requires answer == Some(text)
    ensures ReadAnswer(answer, parse) == None
  {
    JsonSpan.NoBracesNoSummary(text, parse);
  }

  lemma SpannedAnswer(answer: Option<string>, parse: string -> Option<Json>, text: string, p: nat, q: nat)
    requires p < q < |text| && text[p] == '{' && text[q] == '}'
    requires '{' !in text[..p] && '}' !in text[q + 1..]
    requires answer == Some(text)
    ensures ReadAnswer(answer, parse) == parse(text[p..q + 1])
  {
    JsonSpan.FirstLastSpan(text, p, q);
  }
}
