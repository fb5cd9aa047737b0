/** `POST /api/translate-ui`: the interface strings in the requested
    language, asked of Gemini, with the English table as the answer whenever
    no translation is needed or anything on the way throws. The SDK call and
    JSON.parse are parameters that yield None when they throw. */
module TranslateUiRoute {
  import opened Common

  /** The request: a body that cannot be destructured, or its `targetLanguage`. */
  datatype UiRequest = UiUnreadable | UiBody(targetLanguage: Option<string>)

  /** `uiKeys`, in declaration order, as the object the route returns. */
  const UiKeys: Json := JObj([
    ("practice", JStr("Conversation Practice")),
    ("topic", JStr("Topic")),
    ("online", JStr("AI ONLINE")),
    ("roadmap", JStr("Your Roadmap")),
    ("complete", JStr("Complete")),
    ("completed", JStr("COMPLETED")),
    ("in_progress", JStr("IN PROGRESS")),
    ("locked", JStr("LOCKED")),
    ("listen", JStr("Listen")),
    ("translate", JStr("Translate")),
    ("connected", JStr("Connected")),
    ("join", JStr("Join Call")),
    ("leave", JStr("Leave")),
    ("placeholder", JStr("Talk to MisSpoke !!"))
  ])

  /** The prompt sent to the model, with `JSON.stringify(uiKeys, null, 2)` written out. */
  function UiPrompt(targetLanguage: string): string {
    "\n      Translate the following UI strings to "
      + targetLanguage
      + ".\n      Return ONLY a valid JSON object where the keys are the same as the input keys, and the values are the translations.\n      Do not include any markdown formatting or explanations.\n\n      Input JSON:\n      "
      + "{\n  \"practice\": \"Conversation Practice\",\n  \"topic\": \"Topic\",\n  \"online\": \"AI ONLINE\",\n  \"roadmap\": \"Your Roadmap\",\n  \"complete\": \"Complete\",\n  \"completed\": \"COMPLETED\",\n  \"in_progress\": \"IN PROGRESS\",\n  \"locked\": \"LOCKED\",\n  \"listen\": \"Listen\",\n  \"translate\": \"Translate\",\n  \"connected\": \"Connected\",\n  \"join\": \"Join Call\",\n  \"leave\": \"Leave\",\n  \"placeholder\": \"Talk to MisSpoke !!\"\n}"
      + "\n    "
  }

  /** `text.replace(/```json/g, '').replace(/```/g, '').trim()`. */
  function Clean(text: string): string {
    Trim(RemoveAll(RemoveAll(text, "```json"), "```"))
  }

  /** The English table, as returned. */
  function English(): Response {
    Response(200, UiKeys)
  }

  /** Whether the request asks for a language other than English. */
  predicate WantsTranslation(req: UiRequest) {
    req.UiBody? && Truthy(req.targetLanguage) && req.targetLanguage.value != "English"
  }

  /** What the route makes of the model's answer: the parsed translations, or
      the English table when the call or the parse throws. */
  function Translated(answer: Option<string>, parse: string -> Option<Json>): Response {
    match answer
    case None => English()
    case Some(text) =>
      match parse(Clean(text))
      case Some(data) => Response(200, data)
      case None => English()
  }

  /** `POST(request)`. */
  function Post(req: UiRequest, generate: string -> Option<string>, parse: string -> Option<Json>): Response {
    if WantsTranslation(req) then Translated(generate(UiPrompt(req.targetLanguage.value)), parse)
    else English()
  }

  /** The English table is returned for English, for no language and for an
      unreadable body, whatever the model would have said. */
  lemma {:induction false} NoTranslationNeeded(req: UiRequest, generate: string -> Option<string>, other: string -> Option<string>,
                                               parse: string -> Option<Json>)
    requires !WantsTranslation(req)
    ensures Post(req, generate, parse) == Post(req, other, parse) == English()
  {
  }

  /** A request for another language is answered from the model's answer to the prompt. */
  lemma {:induction false} PostTranslates(req: UiRequest, generate: string -> Option<string>, parse: string -> Option<Json>)
    requires WantsTranslation(req)
    ensures Post(req, generate, parse) == Translated(generate(UiPrompt(req.targetLanguage.value)), parse)
  {
  }
  /** A parseable answer is returned as parsed. */
  lemma {:induction false} ParsedTranslations(req: UiRequest, generate: string -> Option<string>, parse: string -> Option<Json>,
                                              text: string, data: Json)
    requires WantsTranslation(req)
    requires generate(UiPrompt(req.targetLanguage.value)) == Some(text) && parse(Clean(text)) == Some(data)
    ensures Post(req, generate, parse) == Response(200, data)
  {
    PostTranslates(req, generate, parse);
    ParsedCase(generate(UiPrompt(req.targetLanguage.value)), parse, text, data);
  }

  /** A failed call falls back to English. */
  lemma {:induction false} CallFailureIsEnglish(req: UiRequest, generate: string -> Option<string>, parse: string -> Option<Json>)
    requires WantsTranslation(req)
    requires generate(UiPrompt(req.targetLanguage.value)) == None
    ensures Post(req, generate, parse) == English()
  {
    PostTranslates(req, generate, parse);
    FailedCase(generate(UiPrompt(req.targetLanguage.value)), parse);
  }

  /** An answer that does not parse after cleaning falls back to English. */
  lemma {:induction false} UnparsedIsEnglish(req: UiRequest, generate: string -> Option<string>, parse: string -> Option<Json>,
                                             text: string)
    requires WantsTranslation(req)
    requires generate(UiPrompt(req.targetLanguage.value)) == Some(text) && parse(Clean(text)) == None
    ensures Post(req, generate, parse) == English()
  {
    PostTranslates(req, generate, parse);
    UnparsedCase(generate(UiPrompt(req.targetLanguage.value)), parse, text);
  }

  lemma {:induction false} ParsedCase(answer: Option<string>, parse: string -> Option<Json>, text: string, data: Json)
    requires answer == Some(text) && parse(Clean(text)) == Some(data)
    ensures Translated(answer, parse) == Response(200, data)
  {
  }

  lemma {:induction false} UnparsedCase(answer: Option<string>, parse: string -> Option<Json>, text: string)
    requires answer == Some(text) && parse(Clean(text)) == None
    ensures Translated(answer, parse) == English()
  {
  }

  lemma {:induction false} FailedCase(answer: Option<string>, parse: string -> Option<Json>)
    requires answer == None
    ensures Translated(answer, parse) == English()
  {
  }

  /** The English table has fourteen distinct keys, each with a non-empty string. */
  lemma EnglishTable()
    ensures English().body.JObj? && |English().body.fields| == 14
    ensures forall i :: 0 <= i < 14 ==> English().body.fields[i].1.JStr? && English().body.fields[i].1.s != ""
    ensures forall i, j :: 0 <= i < j < 14 ==> English().body.fields[i].0 != English().body.fields[j].0
  {
  }

  /** Removing a pattern that starts with a backquote leaves text without one untouched. */
  lemma {:induction false} RemoveAllSkips(s: string, t: string, p: string)
    requires '`' !in s
    requires p != [] && p[0] == '`'
    ensures RemoveAll(s + t, p) == s + RemoveAll(t, p)
  {
    if s == [] {
      assert s + t == t;
    } else {
      var st := s + t;
      assert st[0] == s[0] && st[1..] == s[1..] + t;
      assert st[0] != p[0];
      RemoveAllSkips(s[1..], t, p);
      assert [s[0]] + (s[1..] + RemoveAll(t, p)) == s + RemoveAll(t, p);
    }
  }

  /** An answer wrapped in a json code fence, with no backquote inside, is
      unwrapped and trimmed; one without a backquote is only trimmed. */
  lemma CleanUnwrapsFence(body: string)
    requires '`' !in body
    ensures Clean("```json" + body + "```") == Trim(body)
    ensures Clean(body) == Trim(body)
  {
    var text := "```json" + body + "```";
    assert "```json" <= text;
    assert text[7..] == body + "```";
    RemoveAllSkips(body, "```", "```json");
    assert RemoveAll("```", "```json") == "```";
    RemoveAllSkips(body, "```", "```");
    assert RemoveAll("```", "```") == [];
    RemoveAllSkips(body, [], "```json");
    RemoveAllSkips(body, [], "```");
    assert body + [] == body;
  }

  /** Three backquotes start at position `i` of `s`. */
  predicate FenceAt(s: string, i: int) {
    0 <= i && i + 2 < |s| && s[i] == '`' && s[i + 1] == '`' && s[i + 2] == '`'
  }

  predicate NoFence(s: string) {
    forall i :: 0 <= i < |s| ==> !FenceAt(s, i)
  }

  /** Whatever the model answers, the cleaned text holds no three
      backquotes in a row. */
  lemma {:induction false} CleanHasNoFence(text: string)
    ensures NoFence(Clean(text))
  {
    var x := RemoveAll(RemoveAll(text, "```json"), "```");
    NoFenceAfterRemoval(RemoveAll(text, "```json"));
    var i, j :| 0 <= i <= j <= |x| && Trim(x) == x[i..j];
    SliceNoFence(x, i, j);
  }

  /** A slice of text without a fence has none either. */
  lemma SliceNoFence(s: string, i: int, j: int)
    requires 0 <= i <= j <= |s| && NoFence(s)
    ensures NoFence(s[i..j])
  {
    forall k | FenceAt(s[i..j], k) ensures false {
      assert FenceAt(s, i + k);
    }
  }

  /** The first character of text that does not start with a backquote survives removing "```". */
  lemma HeadKept(t: string)
    requires t != [] && t[0] != '`'
    ensures RemoveAll(t, "```") != [] && RemoveAll(t, "```")[0] == t[0]
  {
    assert !("```" <= t);
  }

  /** Removing "```" left to right leaves no "```" behind: a backquote is
      kept only where fewer than three start, and the character after such a
      short run is kept as well. */
  lemma {:induction false} NoFenceAfterRemoval(s: string)
    ensures NoFence(RemoveAll(s, "```"))
    decreases |s|
  {
    if s == [] {
    } else if "```" <= s {
      NoFenceAfterRemoval(s[3..]);
    } else {
      var t := RemoveAll(s[1..], "```");
      var r := RemoveAll(s, "```");
      NoFenceAfterRemoval(s[1..]);
      assert r == [s[0]] + t;
      forall k | FenceAt(r, k) ensures false {
        if k > 0 {
          assert FenceAt(t, k - 1);
        } else {
          ShortRunBreaks(s);
        }
      }
    }
  }

  /** Text that starts with a backquote but not with three keeps a
      non-backquote among its first three kept characters. */
  lemma ShortRunBreaks(s: string)
    requires s != [] && s[0] == '`' && !("```" <= s)
    ensures var r := RemoveAll(s, "```"); !FenceAt(r, 0)
  {
    var r := RemoveAll(s, "```");
    assert r == [s[0]] + RemoveAll(s[1..], "```");
    if |s| >= 2 {
      if s[1] != '`' {
        HeadKept(s[1..]);
      } else {
        var u := s[1..];
        assert !("```" <= u);
        assert RemoveAll(u, "```") == [u[0]] + RemoveAll(u[1..], "```");
        if |s| >= 3 {
          HeadKept(s[2..]);
          assert u[1..] == s[2..];
        }
      }
    }
  }
}
