/** `useVoiceMemory`'s `endSession`: the transcript sent for a summary, the
    session record stored, and the profile update with the day-streak rule.
    The session id, the clock and its conversion to a local calendar date
    are parameters, and so is the summary call: the Gemini client's
    `generateSessionSummary`, which `Gemini.GenerateSessionSummary` models
    with its SDK and parser fixed. */
module VoiceMemory {
  import opened Common
  import SessionStore

  /** `type: 'user' | 'ai'` of a chat message. */
  datatype MessageType = UserType | AiType

  /** `ChatMessage`, its `timestamp` as milliseconds since the epoch. */
  datatype ChatMessage = ChatMessage(id: string, kind: MessageType, content: string, timestamp: int, correction: Option<string>)

  /** `m.type.toUpperCase()`. */
  function TypeLabel(t: MessageType): string {
    match t
    case UserType => "USER"
    case AiType => "AI"
  }

  /** `${m.type.toUpperCase()}: ${m.content}`. */
  function Line(m: ChatMessage): string {
    TypeLabel(m.kind) + ": " + m.content
  }

  function Lines(ms: seq<ChatMessage>): (r: seq<string>)
    ensures |r| == |ms| && forall i :: 0 <= i < |ms| ==> r[i] == Line(ms[i])
  {
    if ms == [] then [] else [Line(ms[0])] + Lines(ms[1..])
  }

  /** The transcript: one line per message, in order, joined by '\n'. */
  function Transcript(ms: seq<ChatMessage>): string {
    Join(Lines(ms), "\n")
  }

  /** The transcript of a conversation in two parts is the two transcripts on
      either side of one '\n'. */
  lemma TranscriptAppend(a: seq<ChatMessage>, b: seq<ChatMessage>)
    requires a != [] && b != []
    ensures Transcript(a + b) == Transcript(a) + "\n" + Transcript(b)
  {
    assert Lines(a + b) == Lines(a) + Lines(b);
    JoinAppend(Lines(a), Lines(b), "\n");
  }

  /** When no message contains a line break, the transcript's lines are
      exactly the messages' renderings, in order. */
  lemma TranscriptLines(ms: seq<ChatMessage>)
    requires ms != []
    requires forall i :: 0 <= i < |ms| ==> '\n' !in ms[i].content
    ensures Split(Transcript(ms), '\n') == Lines(ms)
  {
    var ls := Lines(ms);
    forall i | 0 <= i < |ls| ensures '\n' !in ls[i] {
      LineWithoutBreak(ms[i]);
    }
    SplitJoin(ls, '\n');
  }

  /** A message without a line break renders as a line without one. */
  lemma LineWithoutBreak(m: ChatMessage)
    requires '\n' !in m.content
    ensures '\n' !in Line(m)
  {
    var prefix := TypeLabel(m.kind) + ": ";
    assert Line(m) == prefix + m.content;
    assert forall i :: 0 <= i < |prefix| ==> prefix[i] != '\n';
  }

  function RoleOf(t: MessageType): SessionStore.Speaker {
    match t
    case UserType => SessionStore.UserSpeaker
    case AiType => SessionStore.AiSpeaker
  }

  /** `messages.map(m => ({ role: m.type, content, timestamp: getTime(), correction }))`. */
  function StoredMessages(ms: seq<ChatMessage>): (r: seq<SessionStore.StoredMessage>)
    ensures |r| == |ms|
    ensures forall i :: 0 <= i < |ms| ==>
      r[i] == SessionStore.StoredMessage(RoleOf(ms[i].kind), ms[i].content, ms[i].timestamp, ms[i].correction)
  {
    if ms == [] then []
    else
      var m := ms[0];
      [SessionStore.StoredMessage(RoleOf(m.kind), m.content, m.timestamp, m.correction)] + StoredMessages(ms[1..])
  }

  /** JavaScript truthiness of a JSON value. */
  predicate JsonTruthy(v: Json) {
    match v
    case JNull => false
    case JBool(b) => b
    case JNum(n) => n != 0
    case JStr(s) => s != ""
    case JArr(_) => true
    case JObj(_) => true
  }

  /** `analysis?.[key]`: a property of a parsed object; undefined on null,
      on no analysis, and on values that are not objects. */
  function Prop(analysis: Option<Json>, key: string): Option<Json> {
    if analysis.Some? && analysis.value.JObj? then Field(analysis.value.fields, key) else None
  }

  /** `analysis?.[key] || []`. */
  function ListOr(analysis: Option<Json>, key: string): (r: Json)
    ensures Prop(analysis, key).None? ==> r == JArr([])
    ensures r == JArr([]) || (Prop(analysis, key).Some? && r == Prop(analysis, key).value && JsonTruthy(r))
  {
    var p := Prop(analysis, key);
    if p.Some? && JsonTruthy(p.value) then p.value else JArr([])
  }

  /** The record `endSession` saves. */
  function SessionRecord(id: string, ms: seq<ChatMessage>, language: string, personalityId: string,
                         endTime: int, analysis: Option<Json>): SessionStore.SessionMemory
    requires ms != []
  {
    SessionStore.SessionMemory(
      id, ms[0].timestamp, Some(endTime), language, personalityId, StoredMessages(ms),
      Prop(analysis, "summary"),
      ListOr(analysis, "mistakes"), ListOr(analysis, "vocabulary"), ListOr(analysis, "emotions"))
  }

  /** The stored record starts at the first message, keeps every message in
      order, and without an analysis has no summary and empty lists. */
  lemma SessionRecordFields(id: string, ms: seq<ChatMessage>, language: string, personalityId: string,
                            endTime: int, analysis: Option<Json>)
    requires ms != []
    ensures var s := SessionRecord(id, ms, language, personalityId, endTime, analysis);
      && s.id == id && s.startTime == ms[0].timestamp && s.endTime == Some(endTime)
      && s.language == language && s.personalityId == personalityId
      && |s.messages| == |ms|
      && (forall i :: 0 <= i < |ms| ==>
            && s.messages[i].content == ms[i].content
            && s.messages[i].timestamp == ms[i].timestamp && s.messages[i].correction == ms[i].correction
            && (s.messages[i].role == SessionStore.UserSpeaker <==> ms[i].kind == UserType))
      && (analysis.None? ==>
            s.summary == None && s.mistakes == JArr([]) && s.vocabulary == JArr([]) && s.emotions == JArr([]))
  {
  }

  /** A local calendar date: what `getFullYear`, `getMonth` and `getDate` read. */
  datatype CalendarDate = CalendarDate(year: int, month: int, day: int)

  predicate IsSameDay(today: CalendarDate, last: CalendarDate) {
    today.day == last.day && today.month == last.month && today.year == last.year
  }

  /** The next day of the same month: no wrap into a new month or year. */
  predicate IsConsecutiveDay(today: CalendarDate, last: CalendarDate) {
    today.day == last.day + 1 && today.month == last.month && today.year == last.year
  }

  /** `isSameDay ? streak : isConsecutiveDay ? streak + 1 : 1`. */
  function NextStreak(streak: int, today: CalendarDate, last: CalendarDate): (r: int)
    ensures IsSameDay(today, last) ==> r == streak
    ensures IsConsecutiveDay(today, last) ==> r == streak + 1
    ensures !IsSameDay(today, last) && !IsConsecutiveDay(today, last) ==> r == 1
  {
    if IsSameDay(today, last) then streak
    else if IsConsecutiveDay(today, last) then streak + 1
    else 1
  }

  /** The two tests never both hold. */
  lemma SameDayNotConsecutive(today: CalendarDate, last: CalendarDate)
    ensures !(IsSameDay(today, last) && IsConsecutiveDay(today, last))
  {
  }

  /** Practising on the first of a month after the last day of the previous
      month, or in another year, starts the streak again at 1. */
  lemma NewMonthResets(streak: int, today: CalendarDate, last: CalendarDate)
    requires today.month != last.month || today.year != last.year
    ensures NextStreak(streak, today, last) == 1
  {
  }

  /** The profile `updateUserProfile` receives after a session, given the
      stored profile (if any), the clock and its calendar conversion. */
  function ProfileUpdateAfter(profile: Option<SessionStore.UserProfile>, now: int, calendar: int -> CalendarDate): SessionStore.ProfileUpdate {
    var total := if profile.Some? then profile.value.totalSessions else 0;
    var streak := if profile.Some? then profile.value.streakDays else 0;
    var lastPractice := if profile.Some? then profile.value.lastPracticeDate else 0;
    SessionStore.ProfileUpdate(
      None, None, Some(total + 1), Some(NextStreak(streak, calendar(now), calendar(lastPractice))),
      Some(now), None, None)
  }

  /** The profile stored after the session: one more session, practised now,
      the streak by the rule, and the level, confidence, patterns and id as
      they were (or the defaults for a first session). */
  lemma ProfileAfterSession(profile: Option<SessionStore.UserProfile>, now: int, calendar: int -> CalendarDate)
    ensures var base := if profile.Some? then profile.value else SessionStore.DefaultProfile(now);
      var m := SessionStore.MergeProfile(base, ProfileUpdateAfter(profile, now, calendar));
      var last := if profile.Some? then profile.value.lastPracticeDate else 0;
      && m.totalSessions == base.totalSessions + 1
      && m.lastPracticeDate == now
      && m.streakDays == NextStreak(base.streakDays, calendar(now), calendar(last))
      && m.id == base.id && m.currentLevel == base.currentLevel
      && m.avgConfidenceScore == base.avgConfidenceScore && m.learnedPatterns == base.learnedPatterns
  {
  }

  /** The hook's state. */
  class VoiceMemory {
    var isSaving: bool

    constructor ()
      ensures !isSaving
    {
      isSaving := false;
    }

    /** `endSession(messages, language, personalityId)`: nothing for an
        empty conversation; otherwise the session is saved under
        `sessionId`, the profile is updated, saving is over, and the id is
        returned. */
    method EndSession(store: SessionStore.Store, messages: seq<ChatMessage>, language: string, personalityId: string,
                      sessionId: string, now: int, calendar: int -> CalendarDate, summarize: string -> Option<Json>)
      returns (r: Option<string>)
      requires store.Valid()
      modifies this, store
      ensures store.Valid()
      ensures messages == [] ==>
        r == None && isSaving == old(isSaving) && store.sessions == old(store.sessions) && store.userProfile == old(store.userProfile)
      ensures messages != [] ==>
        && r == Some(sessionId) && !isSaving
        && store.sessions == old(store.sessions)[sessionId :=
             SessionRecord(sessionId, messages, language, personalityId, now, summarize(Transcript(messages)))]
        && var stored := if "default" in old(store.userProfile) then Some(old(store.userProfile)["default"]) else None;
           var base := if stored.Some? then stored.value else SessionStore.DefaultProfile(now);
           var m := SessionStore.MergeProfile(base, ProfileUpdateAfter(stored, now, calendar));
           store.userProfile == old(store.userProfile)[m.id := m]
      ensures store.users == old(store.users) && store.curriculumProgress == old(store.curriculumProgress)
      ensures store.currentUser == old(store.currentUser)
    {
      if messages == [] {
        return None;
      }
      isSaving := true;
      var transcript := Transcript(messages);
      var analysis := summarize(transcript);
      store.SaveSession(SessionRecord(sessionId, messages, language, personalityId, now, analysis));
      var profile := store.GetUserProfile();
      store.UpdateUserProfile(ProfileUpdateAfter(profile, now, calendar), now);
      isSaving := false;
      r := Some(sessionId);
    }
  }
}
