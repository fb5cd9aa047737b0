/** The session-summary request both LLM clients make, and the way they read
    its answer: `text.match(/\{[\s\S]*\}/)` picks the JSON object out of the
    surrounding prose, and JSON.parse (a parameter; None means it threw) reads
    it. */
module JsonSpan {
  import opened Common

  /** The prompt `generateSessionSummary` sends, with the transcript in it. */
  function SummaryPrompt(transcript: string): string {
    "\n    Analyze the following language learning session transcript.\n    Identify:\n    1. Key topics discussed\n    2. Main grammatical mistakes made by the user\n    3. New vocabulary used correctly\n    4. The user's emotional state (confident, hesitant, frustrated, etc.)\n\n    Transcript:\n    "
    + transcript
    + "\n\n    Output JSON format:\n    {\n      \"summary\": \"Brief 1-sentence summary\",\n      \"mistakes\": [\"mistake 1\", \"mistake 2\"],\n      \"vocabulary\": [\"word 1\", \"word 2\"],\n      \"emotions\": [\"emotion 1\", \"emotion 2\"]\n    }\n  "
  }

  /** The position of the last `c` in `s`. */
  function LastIndexOf(s: string, c: char): (k: nat)
    requires c in s
    ensures k < |s| && s[k] == c && c !in s[k + 1..]
  {
    if s[|s| - 1] == c then |s| - 1
    else
      assert c in s[..|s| - 1];
      LastIndexOf(s[..|s| - 1], c)
  }

  /** `text.match(/\{[\s\S]*\}/)?.[0]`, computed as the span from the first
      '{' to the last '}'. */
  function MatchJsonSpan(text: string): Option<string> {
    if '{' in text && '}' in text && IndexOf(text, '{') < LastIndexOf(text, '}') then
      Some(text[IndexOf(text, '{')..LastIndexOf(text, '}') + 1])
    else
      None
  }

  /** The pattern `\{[\s\S]*\}` matches `text[p..q]`. */
  predicate MatchAt(text: string, p: int, q: int) {
    0 <= p && p + 2 <= q <= |text| && text[p] == '{' && text[q - 1] == '}'
  }

  /** What the regular-expression engine returns: no match when the pattern
      matches nowhere; otherwise the match at the leftmost start position, and
      among those the longest, as the greedy `[\s\S]*` backtracks only as far
      as the last '}'. */
  lemma MatchIsLeftmostLongest(text: string)
    ensures MatchJsonSpan(text).None? <==> forall p, q :: !MatchAt(text, p, q)
    ensures MatchJsonSpan(text).Some? ==>
      exists p, q :: MatchAt(text, p, q) && MatchJsonSpan(text).value == text[p..q]
        && forall p', q' :: MatchAt(text, p', q') ==> p <= p' && (p' == p ==> q' <= q)
  {
    if MatchJsonSpan(text).Some? {
      var p := IndexOf(text, '{');
      var q := LastIndexOf(text, '}') + 1;
      assert MatchAt(text, p, q);
      forall p', q' | MatchAt(text, p', q') ensures p <= p' && q' <= q {
        assert text[p'] == '{' && text[q' - 1] == '}';
      }
    }
  }

  /** The span found runs from the first '{' to the last '}'. */
  lemma FirstLastSpan(text: string, p: nat, q: nat)
    requires p < q < |text| && text[p] == '{' && text[q] == '}'
    requires '{' !in text[..p] && '}' !in text[q + 1..]
    ensures MatchJsonSpan(text) == Some(text[p..q + 1])
  {
    var i := IndexOf(text, '{');
    var j := LastIndexOf(text, '}');
  }

  /** `jsonMatch ? JSON.parse(jsonMatch[0]) : null`, with a throwing parse
      caught as null. */
  function ParseSummary(text: string, parse: string -> Option<Json>): Option<Json>
  {
    match MatchJsonSpan(text)
    case None => None
    case Some(span) => parse(span)
  }

  /** No '{' in `text` is followed later by a '}'. */
  predicate NoBracePair(text: string) {
    forall i, j :: 0 <= i < j < |text| ==> text[i] != '{' || text[j] != '}'
  }

  /** Text without a '{' followed later by a '}' yields null whatever the parser. */
  lemma NoBracesNoSummary(text: string, parse: string -> Option<Json>)
    requires NoBracePair(text)
    ensures ParseSummary(text, parse) == None
  {
    MatchIsLeftmostLongest(text);
  }
}
