/** The learning page: which curriculum the `lang` query parameter selects,
    the roadmap's progress percentage, and the chat list the page keeps,
    with the rules for the user's typed messages, the voice agent's
    messages and the reset on a change of language. Message ids and
    timestamps (`Date.now()`, `new Date()`) are parameters, and so is
    whether the connected agent accepts text. */
module LearnPage {
  import opened Common
  import opened Curricula
  import opened VoiceMemory

  /** `searchParams.get('lang') || 'spanish'`. */
  function SelectedLanguage(param: Option<string>): (r: string)
    ensures Truthy(param) ==> r == param.value
    ensures !Truthy(param) ==> r == "spanish"
  {
    OrElse(param, "spanish")
  }

  /** `searchParams.get('personality') || 'cheerful'`. */
  function SelectedPersonality(param: Option<string>): (r: string)
    ensures Truthy(param) ==> r == param.value
    ensures !Truthy(param) ==> r == "cheerful"
  {
    OrElse(param, "cheerful")
  }

  /** The property names every plain object answers through
      `Object.prototype`, all of them truthy (functions, or the prototype
      itself for `__proto__`). Lower-casing can produce only the two without
      capitals, `constructor` and `__proto__`; the others are listed so that
      the set is the prototype's, not the part of it the page reaches. */
  function InheritedNames(): set<string> {
    {"constructor", "__proto__", "toString", "toLocaleString", "valueOf", "hasOwnProperty",
     "isPrototypeOf", "propertyIsEnumerable", "__defineGetter__", "__defineSetter__",
     "__lookupGetter__", "__lookupSetter__"}
  }

  /** What `curriculums[name] || curriculums.default` evaluates to: an own
      entry (the default one included), or an inherited member that is not a
      curriculum. */
  datatype Lookup = Own(key: Key) | Inherited

  /** The lookup as the page writes it, on the lower-cased language. */
  function LookupAsWritten(lang: string): Lookup {
    var name := ToLower(lang);
    if KeyOf(name).Some? then Own(KeyOf(name).value)
    else if name in InheritedNames() then Inherited
    else Own(DefaultKey)
  }

  /** The progress computed on what the lookup gave: None when `items` is
      undefined and `items.filter` throws, which aborts the page's render. */
  function ProgressAsWritten(found: Lookup): Option<Option<int>> {
    if found.Inherited? then None else Some(ProgressPercentage(CurriculumAt(found.key).items))
  }

  /** A language naming a member of `Object.prototype` reaches that
      member, whose `items` is undefined, so the page throws while
      computing the progress. */
  lemma {:induction false} InheritedCrashes(lang: string)
    requires ToLower(lang) in InheritedNames()
    ensures LookupAsWritten(lang) == Inherited
    ensures ProgressAsWritten(LookupAsWritten(lang)) == None
  {
  }

  /** `?lang=constructor` is such a language. */
  lemma {:induction false} ConstructorCrashes(lang: string)
    requires lang == "constructor"
    ensures LookupAsWritten(lang) == Inherited
    ensures ProgressAsWritten(LookupAsWritten(lang)) == None
  {
    LowerCaseKept(lang);
    InheritedCrashes(lang);
  }

  /** Lower-casing leaves text without capitals unchanged. */
  lemma LowerCaseKept(s: string)
    requires forall i :: 0 <= i < |s| ==> !('A' <= s[i] <= 'Z')
    ensures ToLower(s) == s
  {
  }

  /** The key of the curriculum shown for `lang`: its own entry in the
      table, any other name falling back to `default`. */
  function KeyFor(lang: string): (key: Key)
    ensures KeyOf(ToLower(lang)).Some? ==> key == KeyOf(ToLower(lang)).value
    ensures KeyOf(ToLower(lang)).None? ==> key == DefaultKey
  {
    var key := KeyOf(ToLower(lang));
    if key.Some? then key.value else DefaultKey
  }

  /** The corrected lookup: `curriculums` read through its own entries
      only. The rest of the model uses this one. */
  function CurriculumFor(lang: string): Curriculum {
    CurriculumAt(KeyFor(lang))
  }

  /** The corrected lookup agrees with the page's wherever the page's does
      not reach an inherited member, and it always yields a curriculum that
      follows the shared roadmap. */
  lemma {:induction false} LookupAgrees(lang: string)
    ensures LookupAsWritten(lang).Own? ==> LookupAsWritten(lang).key == KeyFor(lang)
    ensures Follows(CurriculumFor(lang).items)
  {
    AllFollow(KeyFor(lang));
  }

  /** `Math.round(completed / items.length * 100)`, on exact numbers with
      halves rounded up; None for an empty roadmap, where the quotient is NaN. */
  function ProgressPercentage(items: seq<RoadmapItem>): (r: Option<int>)
    ensures r.Some? <==> |items| > 0
    ensures r.Some? ==> 0 <= r.value <= 100
    ensures r.Some? ==>
      var completed := Count(StatusesOf(items), Completed);
      2 * |items| * r.value <= 200 * completed + |items| < 2 * |items| * (r.value + 1)
  {
    if |items| == 0 then None
    else
      var completed := Count(StatusesOf(items), Completed);
      CountBound(StatusesOf(items), Completed);
      RoundBounds(completed, |items|);
      Some((200 * completed + |items|) / (2 * |items|))
  }

  lemma CountBound(statuses: seq<Status>, s: Status)
    ensures Count(statuses, s) <= |statuses|
  {
    assert multiset(statuses)[s] <= |multiset(statuses)|;
  }

  /** The nearest integer to `100 * c / n`, halves up, lies between 0 and 100. */
  lemma RoundBounds(c: nat, n: nat)
    requires 0 < n && c <= n
    ensures var q := (200 * c + n) / (2 * n);
      0 <= q <= 100 && 2 * n * q <= 200 * c + n < 2 * n * (q + 1)
  {
    var d := 2 * n;
    var x := 200 * c + n;
    var q := x / d;
    assert x == d * q + x % d && 0 <= x % d < d;
    assert d * (q + 1) == d * q + d;
    if q > 100 {
      MulMono(d, 101, q);
    }
  }

  lemma MulMono(d: nat, a: nat, b: nat)
    requires a <= b
    ensures d * a <= d * b
  {
  }

  /** Units that follow the roadmap show 25% progress: two of eight. */
  lemma {:induction false} RoadmapProgress(items: seq<RoadmapItem>)
    requires Follows(items)
    ensures ProgressPercentage(items) == Some(25)
  {
    StatusCounts(items);
    RoadmapLength();
    assert (200 * 2 + 8) / (2 * 8) == 25;
  }

  /** Every language, shipped or not, shows 25% progress. */
  lemma {:induction false} ProgressIsQuarter(lang: string)
    ensures ProgressPercentage(CurriculumFor(lang).items) == Some(25)
  {
    LookupAgrees(lang);
    RoadmapProgress(CurriculumFor(lang).items);
  }

  /** The list's first entry: the curriculum's opening line, from the AI,
      with id '1' and the page's fixed timestamp. */
  function Greeting(c: Curriculum, stamp: int): (m: ChatMessage)
    ensures m.kind == AiType && m.content == c.initialMessage && m.id == "1"
  {
    ChatMessage("1", AiType, c.initialMessage, stamp, None)
  }

  /** The message `handleSendMessage` appends for `input`: none for input
      that trims to nothing, otherwise a user message with the input as
      typed, spaces included. */
  function Outgoing(input: string, id: string, now: int): (r: Option<ChatMessage>)
    ensures r.None? <==> Trim(input) == ""
    ensures r.Some? ==> r.value.kind == UserType && r.value.content == input
  {
    if Trim(input) == "" then None else Some(ChatMessage(id, UserType, input, now, None))
  }

  /** Input trims to nothing exactly when every character is white space. */
  lemma {:induction false} BlankIffSpaces(input: string)
    ensures Trim(input) == "" <==> forall i :: 0 <= i < |input| ==> IsJsSpace(input[i])
  {
    var a := TrimStart(input);
    if Trim(input) == "" {
      assert TrimEnd(a) == [];
    } else {
      assert a != [];
      assert !IsJsSpace(a[0]);
      assert a[0] == input[|input| - |a|];
    }
  }

  /** The message `onMessage` appends for an agent event: none when the
      event has no text, otherwise one whose type is 'user' exactly when
      the event's source is 'user'. */
  function Incoming(message: Option<string>, source: Option<string>, id: string, now: int): (r: Option<ChatMessage>)
    ensures r.None? <==> !Truthy(message)
    ensures r.Some? ==> r.value.content == message.value
    ensures r.Some? ==> (r.value.kind == UserType <==> source == Some("user"))
  {
    if Truthy(message) then Some(ChatMessage(id, if source == Some("user") then UserType else AiType, message.value, now, None))
    else None
  }

  /** The page's chat state. */
  class LearnChat {
    var messages: seq<ChatMessage>
    var inputValue: string

    /** The initial state on the page's `currentCurriculum`: its greeting
        alone, and an empty input. */
    constructor (current: Curriculum, stamp: int)
      ensures messages == [Greeting(current, stamp)]
      ensures inputValue == ""
    {
      messages := [Greeting(current, stamp)];
      inputValue := "";
    }

    /** `setInputValue(value)`. */
    method SetInput(value: string)
      modifies this
      ensures inputValue == value && messages == old(messages)
    {
      inputValue := value;
    }

    /** The effect on a change of `lang`: the list becomes the new
        curriculum's greeting alone. */
    method ResetForLanguage(lang: Option<string>, stamp: int)
      modifies this
      ensures messages == [Greeting(CurriculumFor(SelectedLanguage(lang)), stamp)]
      ensures inputValue == old(inputValue)
    {
      messages := [Greeting(CurriculumFor(SelectedLanguage(lang)), stamp)];
    }

    /** `handleSendMessage()`: blank input changes nothing; otherwise the
        user message is appended, the input is cleared, and the input as
        typed is returned as sent when the agent accepts text. */
    method HandleSendMessage(id: string, now: int, canSend: bool) returns (sent: Option<string>)
      modifies this
      ensures Trim(old(inputValue)) == "" ==>
        messages == old(messages) && inputValue == old(inputValue) && sent == None
      ensures Trim(old(inputValue)) != "" ==>
        && messages == old(messages) + [ChatMessage(id, UserType, old(inputValue), now, None)]
        && inputValue == ""
        && sent == (if canSend then Some(old(inputValue)) else None)
    {
      var outgoing := Outgoing(inputValue, id, now);
      if outgoing.None? {
        return None;
      }
      messages := messages + [outgoing.value];
      var typed := inputValue;
      inputValue := "";
      sent := if canSend then Some(typed) else None;
    }

    /** `onMessage(message)`: a message with text is appended, typed by its
        source; one without text changes nothing. */
    method OnMessage(message: Option<string>, source: Option<string>, id: string, now: int)
      modifies this
      ensures Truthy(message) ==>
        messages == old(messages) + [ChatMessage(id, if source == Some("user") then UserType else AiType, message.value, now, None)]
      ensures !Truthy(message) ==> messages == old(messages)
      ensures inputValue == old(inputValue)
    {
      var incoming := Incoming(message, source, id, now);
      if incoming.Some? {
        messages := messages + [incoming.value];
      }
    }
  }

  /** A typed message and an agent reply on a fresh page: the list holds
      the greeting, then the typed text as the user's, then the reply as
      the AI's. */
  method Exchange(current: Curriculum, stamp: int, typed: string, reply: string, now: int)
    returns (shown: seq<ChatMessage>)
    requires typed != "" && !IsJsSpace(typed[0]) && reply != ""
    ensures |shown| == 3
    ensures shown[0] == Greeting(current, stamp)
    ensures shown[1].kind == UserType && shown[1].content == typed
    ensures shown[2].kind == AiType && shown[2].content == reply
  {
    BlankIffSpaces(typed);
    var chat := new LearnChat(current, stamp);
    chat.SetInput(typed);
    var sent := chat.HandleSendMessage("2", now, true);
    chat.OnMessage(Some(reply), Some("ai"), "3", now);
    shown := chat.messages;
  }
}
