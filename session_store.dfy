/** The browser-side store: four IndexedDB object stores, each keyed by a field
    of its records (sessions by `id`, the user profile by `id`, users by
    `email`, curriculum progress by `lang`), the `by-date` index of the
    sessions on `startTime`, and the `currentUser` entry of localStorage.
    `put` replaces whatever record has the same key. The clock, the random
    salt and the key derivation are parameters. */
module SessionStore {
  import opened Common
  import Security

  /** The `role` of a stored message: `'user' | 'ai'`. */
  datatype Speaker = UserSpeaker | AiSpeaker

  datatype StoredMessage = StoredMessage(role: Speaker, content: string, timestamp: int, correction: Option<string>)

  /** `SessionMemory`. The summary and the three lists hold whatever the
      summary's JSON held. */
  datatype SessionMemory = SessionMemory(
    id: string,
    startTime: int,
    endTime: Option<int>,
    language: string,
    personalityId: string,
    messages: seq<StoredMessage>,
    summary: Option<Json>,
    mistakes: Json,
    vocabulary: Json,
    emotions: Json)

  datatype LearnedPatterns = LearnedPatterns(strengths: seq<string>, weaknesses: seq<string>)

  datatype UserProfile = UserProfile(
    id: string,
    currentLevel: string,
    totalSessions: int,
    streakDays: int,
    lastPracticeDate: int,
    avgConfidenceScore: int,
    learnedPatterns: LearnedPatterns)

  /** `Partial<UserProfile>`: None is a property the update does not have. */
  datatype ProfileUpdate = ProfileUpdate(
    id: Option<string>,
    currentLevel: Option<string>,
    totalSessions: Option<int>,
    streakDays: Option<int>,
    lastPracticeDate: Option<int>,
    avgConfidenceScore: Option<int>,
    learnedPatterns: Option<LearnedPatterns>)

  datatype User = User(
    email: string,
    password: Option<string>,
    name: string,
    nativeLanguage: Option<string>,
    learningLanguage: Option<string>,
    createdAt: int)

  /** `Partial<User>`. */
  datatype UserUpdate = UserUpdate(
    email: Option<string>,
    password: Option<string>,
    name: Option<string>,
    nativeLanguage: Option<string>,
    learningLanguage: Option<string>,
    createdAt: Option<int>)

  datatype ProgressItem = ProgressItem(id: string, status: Status)

  datatype ProgressRecord = ProgressRecord(lang: string, items: seq<ProgressItem>, lastUpdated: int)

  /** A property of `updates` wins over the current one in `{ ...current, ...updates }`. */
  function Over<T>(update: Option<T>, current: T): T {
    if update.Some? then update.value else current
  }

  /** `{ ...current, ...updates }` for a profile. */
  function MergeProfile(current: UserProfile, u: ProfileUpdate): UserProfile {
    UserProfile(
      Over(u.id, current.id),
      Over(u.currentLevel, current.currentLevel),
      Over(u.totalSessions, current.totalSessions),
      Over(u.streakDays, current.streakDays),
      Over(u.lastPracticeDate, current.lastPracticeDate),
      Over(u.avgConfidenceScore, current.avgConfidenceScore),
      Over(u.learnedPatterns, current.learnedPatterns))
  }

  /** `{ ...user, ...updates }` for a user. */
  function MergeUser(current: User, u: UserUpdate): User {
    User(
      Over(u.email, current.email),
      if u.password.Some? then u.password else current.password,
      Over(u.name, current.name),
      if u.nativeLanguage.Some? then u.nativeLanguage else current.nativeLanguage,
      if u.learningLanguage.Some? then u.learningLanguage else current.learningLanguage,
      Over(u.createdAt, current.createdAt))
  }

  /** The profile `updateUserProfile` starts from when none is stored yet. */
  function DefaultProfile(now: int): UserProfile {
    UserProfile("default", "Beginner", 0, 0, now, 0, LearnedPatterns([], []))
  }

  /** The profile `updateUserProfile` merges onto: the one stored under
      'default', or the defaults at `now` when there is none. */
  function CurrentProfile(profiles: map<string, UserProfile>, now: int): UserProfile {
    if "default" in profiles then profiles["default"] else DefaultProfile(now)
  }

  /** The record `registerUser` writes: the password replaced by its hash
      (absent when no password was given) and `createdAt` by the clock. */
  function Registered(user: User, now: int, salt: Security.Salt, kdf: Security.Kdf): User {
    var hashed := if Truthy(user.password) then Some(Security.HashPassword(user.password.value, salt, kdf)) else None;
    user.(password := hashed, createdAt := now)
  }

  // ---------------------------------------------------------------------
  // The `by-date` index: entries (startTime, id), ordered by the index key
  // and then by the primary key, as IndexedDB orders an index.

  type IndexEntry = (int, string)

  /** The ordering of IndexedDB keys on strings: lexicographic by character. */
  predicate StrLess(a: string, b: string) {
    if a == [] then b != []
    else b != [] && (a[0] < b[0] || (a[0] == b[0] && StrLess(a[1..], b[1..])))
  }

  predicate EntryLess(a: IndexEntry, b: IndexEntry) {
    a.0 < b.0 || (a.0 == b.0 && StrLess(a.1, b.1))
  }

  /** Strictly ascending; in particular no id occurs twice. */
  predicate Sorted(idx: seq<IndexEntry>) {
    forall i, j :: 0 <= i < j < |idx| ==> EntryLess(idx[i], idx[j])
  }

  /** The index without the entry of `id`. */
  function Unindex(idx: seq<IndexEntry>, id: string): (r: seq<IndexEntry>)
    ensures forall e :: e in r <==> e in idx && e.1 != id
  {
    if idx == [] then []
    else if idx[0].1 == id then Unindex(idx[1..], id)
    else [idx[0]] + Unindex(idx[1..], id)
  }

  /** The index with `e` put at its place. */
  function Reindex(idx: seq<IndexEntry>, e: IndexEntry): (r: seq<IndexEntry>)
    ensures forall x :: x in r <==> x in idx || x == e
  {
    if idx == [] then [e]
    else if EntryLess(e, idx[0]) then [e] + idx
    else [idx[0]] + Reindex(idx[1..], e)
  }

  lemma {:induction false} StrLessIrreflexive(a: string)
    ensures !StrLess(a, a)
  {
    if a != [] {
      StrLessIrreflexive(a[1..]);
    }
  }

  lemma {:induction false} StrLessTransitive(a: string, b: string, c: string)
    requires StrLess(a, b) && StrLess(b, c)
    ensures StrLess(a, c)
  {
    if a != [] && a[0] == b[0] && b[0] == c[0] {
      StrLessTransitive(a[1..], b[1..], c[1..]);
    }
  }

  lemma {:induction false} StrLessTotal(a: string, b: string)
    requires a != b
    ensures StrLess(a, b) || StrLess(b, a)
  {
    if a != [] && b != [] && a[0] == b[0] {
      assert a == [a[0]] + a[1..] && b == [b[0]] + b[1..];
      StrLessTotal(a[1..], b[1..]);
    }
  }

  /** The index order is a strict total order. */
  lemma EntryOrder()
    ensures forall a: IndexEntry :: !EntryLess(a, a)
    ensures forall a: IndexEntry, b: IndexEntry, c: IndexEntry :: EntryLess(a, b) && EntryLess(b, c) ==> EntryLess(a, c)
    ensures forall a: IndexEntry, b: IndexEntry :: a != b ==> EntryLess(a, b) || EntryLess(b, a)
  {
    forall a: IndexEntry {
      StrLessIrreflexive(a.1);
    }
    forall a: IndexEntry, b: IndexEntry, c: IndexEntry | EntryLess(a, b) && EntryLess(b, c)
      ensures EntryLess(a, c)
    {
      if a.0 == b.0 == c.0 {
        StrLessTransitive(a.1, b.1, c.1);
      }
    }
    forall a: IndexEntry, b: IndexEntry | a != b
      ensures EntryLess(a, b) || EntryLess(b, a)
    {
      if a.0 == b.0 {
        StrLessTotal(a.1, b.1);
      }
    }
  }

  /** A sorted sequence is its head before a sorted tail that follows it. */
  lemma SortedCons(h: IndexEntry, t: seq<IndexEntry>)
    requires Sorted(t) && forall x :: x in t ==> EntryLess(h, x)
    ensures Sorted([h] + t)
  {
    var s := [h] + t;
    forall i, j | 0 <= i < j < |s| ensures EntryLess(s[i], s[j]) {
      if i > 0 {
        assert s[i] == t[i - 1] && s[j] == t[j - 1];
      } else {
        assert s[j] == t[j - 1];
      }
    }
  }

  lemma {:induction false} UnindexSorted(idx: seq<IndexEntry>, id: string)
    requires Sorted(idx)
    ensures Sorted(Unindex(idx, id))
  {
    if idx != [] {
      assert Sorted(idx[1..]);
      UnindexSorted(idx[1..], id);
      if idx[0].1 != id {
        forall x | x in Unindex(idx[1..], id) ensures EntryLess(idx[0], x) {
          var k :| 0 <= k < |idx[1..]| && idx[1..][k] == x;
          assert idx[k + 1] == x;
        }
        SortedCons(idx[0], Unindex(idx[1..], id));
      }
    }
  }

  lemma {:induction false} ReindexSorted(idx: seq<IndexEntry>, e: IndexEntry)
    requires Sorted(idx) && e !in idx
    ensures Sorted(Reindex(idx, e))
  {
    EntryOrder();
    if idx == [] {
    } else if EntryLess(e, idx[0]) {
      forall x | x in idx ensures EntryLess(e, x) {
        var k :| 0 <= k < |idx| && idx[k] == x;
        if k > 0 {
          assert EntryLess(idx[0], idx[k]);
        }
      }
      SortedCons(e, idx);
    } else {
      assert Sorted(idx[1..]);
      ReindexSorted(idx[1..], e);
      assert EntryLess(idx[0], e);
      forall x | x in Reindex(idx[1..], e) ensures EntryLess(idx[0], x) {
        if x != e {
          var k :| 0 <= k < |idx[1..]| && idx[1..][k] == x;
          assert idx[k + 1] == x;
        }
      }
      SortedCons(idx[0], Reindex(idx[1..], e));
    }
  }

  /** `idx` is the `by-date` index of `sessions`: one entry per session,
      carrying its start time, in ascending order. */
  predicate Indexes(idx: seq<IndexEntry>, sessions: map<string, SessionMemory>) {
    && (forall id :: id in sessions ==> (sessions[id].startTime, id) in idx)
    && (forall e :: e in idx ==> e.1 in sessions && sessions[e.1].startTime == e.0)
    && Sorted(idx)
  }

  /** Putting a session moves its entry to the place its start time calls for. */
  lemma PutIndexes(idx: seq<IndexEntry>, sessions: map<string, SessionMemory>, s: SessionMemory)
    requires Indexes(idx, sessions)
    ensures Indexes(Reindex(Unindex(idx, s.id), (s.startTime, s.id)), sessions[s.id := s])
  {
    UnindexSorted(idx, s.id);
    ReindexSorted(Unindex(idx, s.id), (s.startTime, s.id));
  }

  /** The records an index lists, in index order. */
  function Listed(idx: seq<IndexEntry>, sessions: map<string, SessionMemory>): (r: seq<SessionMemory>)
    requires forall e :: e in idx ==> e.1 in sessions
    ensures |r| == |idx| && forall i :: 0 <= i < |idx| ==> r[i] == sessions[idx[i].1]
  {
    if idx == [] then [] else [sessions[idx[0].1]] + Listed(idx[1..], sessions)
  }

  /** What the index lists is every session once, in index order. */
  lemma ListedInOrder(idx: seq<IndexEntry>, sessions: map<string, SessionMemory>)
    requires Indexes(idx, sessions)
    requires forall id :: id in sessions ==> sessions[id].id == id
    ensures var r := Listed(idx, sessions);
      && (forall i :: 0 <= i < |r| ==> r[i].id in sessions && sessions[r[i].id] == r[i])
      && (forall id :: id in sessions ==> sessions[id] in r)
      && (forall i, j :: 0 <= i < j < |r| ==> EntryLess((r[i].startTime, r[i].id), (r[j].startTime, r[j].id)))
  {
    var r := Listed(idx, sessions);
    forall i | 0 <= i < |r| ensures (r[i].startTime, r[i].id) == idx[i] {
      assert idx[i] in idx;
    }
    forall id | id in sessions ensures sessions[id] in r {
      var k :| 0 <= k < |idx| && idx[k] == (sessions[id].startTime, id);
      assert r[k] == sessions[id];
    }
  }

  /** `.reverse().find(s => s.language === lang)`: the last session of the
      language, if any. */
  function LastOfLanguage(list: seq<SessionMemory>, lang: string): (r: Option<SessionMemory>)
    ensures r.None? <==> forall i :: 0 <= i < |list| ==> list[i].language != lang
    ensures r.Some? ==> exists k :: (0 <= k < |list| && list[k] == r.value && list[k].language == lang
      && forall i :: k < i < |list| ==> list[i].language != lang)
  {
    if list == [] then None
    else if list[|list| - 1].language == lang then Some(list[|list| - 1])
    else LastOfLanguage(list[..|list| - 1], lang)
  }

  /** The object stores and the logged-in user. */
  class Store {
    var sessions: map<string, SessionMemory>
    var byDate: seq<IndexEntry>
    var userProfile: map<string, UserProfile>
    var users: map<string, User>
    var curriculumProgress: map<string, ProgressRecord>
    var currentUser: Option<string>

    /** Every record sits under its own key, and `byDate` indexes exactly the sessions. */
    predicate Valid()
      reads this
    {
      && (forall id :: id in sessions ==> sessions[id].id == id)
      && Indexes(byDate, sessions)
      && (forall id :: id in userProfile ==> userProfile[id].id == id)
      && (forall email :: email in users ==> users[email].email == email)
      && (forall lang :: lang in curriculumProgress ==> curriculumProgress[lang].lang == lang)
    }

    /** A fresh database and an empty localStorage. */
    constructor ()
      ensures Valid()
      ensures sessions == map[] && byDate == [] && userProfile == map[] && users == map[]
      ensures curriculumProgress == map[] && currentUser == None
    {
      sessions, byDate := map[], [];
      userProfile, users, curriculumProgress := map[], map[], map[];
      currentUser := None;
    }

    /** `saveSession`: `put` into sessions, which also moves the record's index entry. */
    method SaveSession(session: SessionMemory)
      requires Valid()
      modifies this
      ensures Valid()
      ensures sessions == old(sessions)[session.id := session]
      ensures userProfile == old(userProfile) && users == old(users)
      ensures curriculumProgress == old(curriculumProgress) && currentUser == old(currentUser)
    {
      PutIndexes(byDate, sessions, session);
      byDate := Reindex(Unindex(byDate, session.id), (session.startTime, session.id));
      sessions := sessions[session.id := session];
    }

    /** `getSession(id)`. */
    method GetSession(id: string) returns (r: Option<SessionMemory>)
      requires Valid()
      ensures r.Some? <==> id in sessions
      ensures r.Some? ==> r.value == sessions[id] && r.value.id == id
    {
      r := if id in sessions then Some(sessions[id]) else None;
    }

    /** `getAllSessions()`: every stored session once, ascending by
        `startTime`, sessions that started together ascending by id. */
    method GetAllSessions() returns (r: seq<SessionMemory>)
      requires Valid()
      ensures forall i :: 0 <= i < |r| ==> r[i].id in sessions && sessions[r[i].id] == r[i]
      ensures forall id :: id in sessions ==> sessions[id] in r
      ensures forall i, j :: 0 <= i < j < |r| ==> EntryLess((r[i].startTime, r[i].id), (r[j].startTime, r[j].id))
    {
      r := Listed(byDate, sessions);
      ListedInOrder(byDate, sessions);
    }

    /** `getLatestSession(lang)`: among the sessions of the language, the one
        that comes last in the index, that is, the one that started last. */
    method GetLatestSession(lang: string) returns (r: Option<SessionMemory>)
      requires Valid()
      ensures r.None? <==> forall id :: id in sessions ==> sessions[id].language != lang
      ensures r.Some? ==> r.value.id in sessions && sessions[r.value.id] == r.value && r.value.language == lang
      ensures r.Some? ==> forall id :: id in sessions && sessions[id].language == lang ==>
        id == r.value.id || EntryLess((sessions[id].startTime, id), (r.value.startTime, r.value.id))
    {
      var all := GetAllSessions();
      r := LastOfLanguage(all, lang);
      if r.Some? {
        var k :| 0 <= k < |all| && all[k] == r.value && all[k].language == lang
          && forall i :: k < i < |all| ==> all[i].language != lang;
        forall id | id in sessions && sessions[id].language == lang
          ensures id == r.value.id || EntryLess((sessions[id].startTime, id), (r.value.startTime, r.value.id))
        {
          var m :| 0 <= m < |all| && all[m] == sessions[id];
          if m < k {
          } else if m == k {
          }
        }
      }
    }

    /** `updateUserProfile(updates)`: the stored default profile, or the
        defaults dated `now`, overlaid with `updates`, put under its id. */
    method UpdateUserProfile(updates: ProfileUpdate, now: int)
      requires Valid()
      modifies this
      ensures Valid()
      ensures var current := CurrentProfile(old(userProfile), now);
        userProfile == old(userProfile)[MergeProfile(current, updates).id := MergeProfile(current, updates)]
      ensures sessions == old(sessions) && byDate == old(byDate) && users == old(users)
      ensures curriculumProgress == old(curriculumProgress) && currentUser == old(currentUser)
    {
      var current := CurrentProfile(userProfile, now);
      var merged := MergeProfile(current, updates);
      userProfile := userProfile[merged.id := merged];
    }

    /** `getUserProfile()`: the profile stored under "default". */
    method GetUserProfile() returns (r: Option<UserProfile>)
      requires Valid()
      ensures r.Some? <==> "default" in userProfile
      ensures r.Some? ==> r.value == userProfile["default"] && r.value.id == "default"
    {
      r := if "default" in userProfile then Some(userProfile["default"]) else None;
    }

    /** `saveCurriculumProgress(lang, items)`, dated `now`. */
    method SaveCurriculumProgress(lang: string, items: seq<ProgressItem>, now: int)
      requires Valid()
      modifies this
      ensures Valid()
      ensures curriculumProgress == old(curriculumProgress)[lang := ProgressRecord(lang, items, now)]
      ensures sessions == old(sessions) && byDate == old(byDate) && userProfile == old(userProfile)
      ensures users == old(users) && currentUser == old(currentUser)
    {
      curriculumProgress := curriculumProgress[lang := ProgressRecord(lang, items, now)];
    }

    /** `getCurriculumProgress(lang)`. */
    method GetCurriculumProgress(lang: string) returns (r: Option<ProgressRecord>)
      requires Valid()
      ensures r.Some? <==> lang in curriculumProgress
      ensures r.Some? ==> r.value == curriculumProgress[lang] && r.value.lang == lang
    {
      r := if lang in curriculumProgress then Some(curriculumProgress[lang]) else None;
    }

    /** `registerUser(user)`: put under the email, replacing any user with
        that email, with the salt `hashPassword` would draw. */
    method RegisterUser(user: User, now: int, salt: Security.Salt, kdf: Security.Kdf)
      requires Valid()
      modifies this
      ensures Valid()
      ensures users == old(users)[user.email := Registered(user, now, salt, kdf)]
      ensures sessions == old(sessions) && byDate == old(byDate) && userProfile == old(userProfile)
      ensures curriculumProgress == old(curriculumProgress) && currentUser == old(currentUser)
    {
      var record := Registered(user, now, salt, kdf);
      users := users[record.email := record];
    }

    /** `getUser(email)`. */
    method GetUser(email: string) returns (r: Option<User>)
      requires Valid()
      ensures r.Some? <==> email in users
      ensures r.Some? ==> r.value == users[email] && r.value.email == email
    {
      r := if email in users then Some(users[email]) else None;
    }

    /** `updateUser(email, updates)`: nothing without a user of that email;
        otherwise the merged record is put under its own (possibly updated) email. */
    method UpdateUser(email: string, updates: UserUpdate)
      requires Valid()
      modifies this
      ensures Valid()
      ensures email !in old(users) ==> users == old(users)
      ensures email in old(users) ==>
        users == old(users)[MergeUser(old(users)[email], updates).email := MergeUser(old(users)[email], updates)]
      ensures sessions == old(sessions) && byDate == old(byDate) && userProfile == old(userProfile)
      ensures curriculumProgress == old(curriculumProgress) && currentUser == old(currentUser)
    {
      if email in users {
        var merged := MergeUser(users[email], updates);
        users := users[merged.email := merged];
      }
    }

    /** `setLoggedInUser(email)`. */
    method SetLoggedInUser(email: string)
      requires Valid()
      modifies this
      ensures Valid()
      ensures currentUser == Some(email)
      ensures sessions == old(sessions) && byDate == old(byDate) && userProfile == old(userProfile)
      ensures users == old(users) && curriculumProgress == old(curriculumProgress)
    {
      currentUser := Some(email);
    }

    /** `getLoggedInUser()`: null when nobody is logged in. */
    method GetLoggedInUser() returns (r: Option<string>)
      ensures r == currentUser
    {
      r := currentUser;
    }

    /** `logout()`. */
    method Logout()
      requires Valid()
      modifies this
      ensures Valid()
      ensures currentUser == None
      ensures sessions == old(sessions) && byDate == old(byDate) && userProfile == old(userProfile)
      ensures users == old(users) && curriculumProgress == old(curriculumProgress)
    {
      currentUser := None;
    }
  }

  /** After logging in `email` the store reports `email`; after logging out, nobody. */
  method LoginLogout(store: Store, email: string) returns (during: Option<string>, after: Option<string>)
    requires store.Valid()
    modifies store
    ensures during == Some(email) && after == None
  {
    store.SetLoggedInUser(email);
    during := store.GetLoggedInUser();
    store.Logout();
    after := store.GetLoggedInUser();
  }

  /** A property the update names takes the update's value; every other
      property keeps the current value. */
  lemma MergeProfileFields(current: UserProfile, u: ProfileUpdate)
    ensures var m := MergeProfile(current, u);
      && (u.id.None? ==> m.id == current.id) && (u.id.Some? ==> m.id == u.id.value)
      && (u.currentLevel.None? ==> m.currentLevel == current.currentLevel)
      && (u.currentLevel.Some? ==> m.currentLevel == u.currentLevel.value)
      && (u.totalSessions.None? ==> m.totalSessions == current.totalSessions)
      && (u.totalSessions.Some? ==> m.totalSessions == u.totalSessions.value)
      && (u.streakDays.None? ==> m.streakDays == current.streakDays)
      && (u.streakDays.Some? ==> m.streakDays == u.streakDays.value)
      && (u.lastPracticeDate.None? ==> m.lastPracticeDate == current.lastPracticeDate)
      && (u.lastPracticeDate.Some? ==> m.lastPracticeDate == u.lastPracticeDate.value)
      && (u.avgConfidenceScore.None? ==> m.avgConfidenceScore == current.avgConfidenceScore)
      && (u.avgConfidenceScore.Some? ==> m.avgConfidenceScore == u.avgConfidenceScore.value)
      && (u.learnedPatterns.None? ==> m.learnedPatterns == current.learnedPatterns)
      && (u.learnedPatterns.Some? ==> m.learnedPatterns == u.learnedPatterns.value)
  {
  }

  /** An update without properties changes nothing, and applying the same
      update twice is applying it once. */
  lemma MergeProfileIdempotent(current: UserProfile, u: ProfileUpdate)
    ensures MergeProfile(current, ProfileUpdate(None, None, None, None, None, None, None)) == current
    ensures MergeProfile(MergeProfile(current, u), u) == MergeProfile(current, u)
  {
  }

  /** When no 'default' profile is stored, `updateUserProfile` stores the
      defaults at `now` overlaid with the update. */
  lemma FirstProfileUpdate(profiles: map<string, UserProfile>, u: ProfileUpdate, now: int)
    requires "default" !in profiles
    ensures var m := MergeProfile(CurrentProfile(profiles, now), u);
      && m.id == Over(u.id, "default")
      && m.currentLevel == Over(u.currentLevel, "Beginner")
      && m.totalSessions == Over(u.totalSessions, 0)
      && m.streakDays == Over(u.streakDays, 0)
      && m.lastPracticeDate == Over(u.lastPracticeDate, now)
      && m.avgConfidenceScore == Over(u.avgConfidenceScore, 0)
      && m.learnedPatterns == Over(u.learnedPatterns, LearnedPatterns([], []))
  {
  }

  /** The same for users, where the optional properties can be set but not removed. */
  lemma MergeUserFields(current: User, u: UserUpdate)
    ensures var m := MergeUser(current, u);
      && (u.email.None? ==> m.email == current.email) && (u.email.Some? ==> m.email == u.email.value)
      && (u.password.None? ==> m.password == current.password) && (u.password.Some? ==> m.password == u.password)
      && (u.name.None? ==> m.name == current.name) && (u.name.Some? ==> m.name == u.name.value)
      && (u.nativeLanguage.None? ==> m.nativeLanguage == current.nativeLanguage)
      && (u.nativeLanguage.Some? ==> m.nativeLanguage == u.nativeLanguage)
      && (u.learningLanguage.None? ==> m.learningLanguage == current.learningLanguage)
      && (u.learningLanguage.Some? ==> m.learningLanguage == u.learningLanguage)
      && (u.createdAt.None? ==> m.createdAt == current.createdAt) && (u.createdAt.Some? ==> m.createdAt == u.createdAt.value)
  {
  }

  /** The registered record keeps the user's email, name and languages; its
      password is the salted hash exactly when a non-empty password was
      given, and it verifies against that password. */
  lemma RegisteredRecord(user: User, now: int, salt: Security.Salt, kdf: Security.Kdf)
    ensures var r := Registered(user, now, salt, kdf);
      && r.email == user.email && r.name == user.name
      && r.nativeLanguage == user.nativeLanguage && r.learningLanguage == user.learningLanguage
      && r.createdAt == now
      && (r.password.Some? <==> Truthy(user.password))
      && (r.password.Some? ==>
            Security.VerifyPassword(user.password.value, r.password.value, kdf) == Security.Verdict(true))
  {
    if Truthy(user.password) {
      Security.HashThenVerify(user.password.value, salt, kdf);
    }
  }
}
