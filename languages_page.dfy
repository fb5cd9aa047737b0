/** The language picker: the table of languages on offer, the difficulty
    filter, the flag-code lookup and the badge colour of a difficulty. */
module LanguagesPage {
  import opened Common

  /** `difficulty: 'Beginner Friendly' | 'Intermediate' | 'Advanced'`. */
  datatype Difficulty = BeginnerFriendly | Intermediate | Advanced

  /** The text a difficulty is written as. */
  function DifficultyName(d: Difficulty): string {
    match d
    case BeginnerFriendly => "Beginner Friendly"
    case Intermediate => "Intermediate"
    case Advanced => "Advanced"
  }

  /** `Language`: `hours` and `popularity` are whole numbers in the table. */
  datatype Language = Language(id: string, name: string, nativeName: string, flag: string, difficulty: Difficulty,
                               hours: nat, learners: string, popularity: nat, features: seq<string>)

  /** `languages`. */
  function Languages(): seq<Language> {
    [
      Language("spanish", "Spanish", "Espa\U{00F1}ol", "\U{1F1EA}\U{1F1F8}", BeginnerFriendly, 600, "1.2M+", 98, ["Real-world convo focus", "AI Pronunciation"]),
      Language("french", "French", "Fran\U{00E7}ais", "\U{1F1EB}\U{1F1F7}", Intermediate, 750, "850k+", 85, ["Culture & Literature", "Accent Training"]),
      Language("japanese", "Japanese", "\U{65E5}\U{672C}\U{8A9E}", "\U{1F1EF}\U{1F1F5}", Advanced, 2200, "920k+", 90, ["Kanji Writer", "Anime Context AI"]),
      Language("german", "German", "Deutsch", "\U{1F1E9}\U{1F1EA}", Intermediate, 750, "600k+", 70, ["Technical Vocab", "Dialogue Simulator"]),
      Language("mandarin", "Mandarin", "\U{666E}\U{901A}\U{8BDD}", "\U{1F1E8}\U{1F1F3}", Advanced, 2200, "1.1M+", 88, ["Tone Analyzer", "Character Practice"]),
      Language("italian", "Italian", "Italiano", "\U{1F1EE}\U{1F1F9}", BeginnerFriendly, 600, "400k+", 55, ["Culinary Focus", "Art History"]),
      Language("korean", "Korean", "\U{D55C}\U{AD6D}\U{C5B4}", "\U{1F1F0}\U{1F1F7}", Advanced, 2200, "1.5M+", 92, ["K-Pop Lyrics", "Honorifics Drill"]),
      Language("tamil", "Tamil", "\U{0BA4}\U{0BAE}\U{0BBF}\U{0BB4}\U{0BCD}", "\U{1F1EE}\U{1F1F3}", Advanced, 1100, "80M+", 75, ["Classical Literature", "Dravidian Roots"]),
      Language("telugu", "Telugu", "\U{0C24}\U{0C46}\U{0C32}\U{0C41}\U{0C17}\U{0C41}", "\U{1F1EE}\U{1F1F3}", Intermediate, 1000, "85M+", 72, ["Vowel Harmony", "Poetic Tradition"]),
      Language("malayalam", "Malayalam", "\U{0D2E}\U{0D32}\U{0D2F}\U{0D3E}\U{0D33}\U{0D02}", "\U{1F1EE}\U{1F1F3}", Advanced, 1100, "35M+", 68, ["Agglutinative Grammar", "Sanskrit Influence"]),
      Language("hindi", "Hindi", "\U{0939}\U{093F}\U{0928}\U{094D}\U{0926}\U{0940}", "\U{1F1EE}\U{1F1F3}", Intermediate, 1000, "120M+", 95, ["Devanagari Script", "Common in Movies"]),
      Language("kannada", "Kannada", "\U{0C95}\U{0CA8}\U{0CCD}\U{0CA8}\U{0CA1}", "\U{1F1EE}\U{1F1F3}", Advanced, 1100, "45M+", 62, ["Dravidian Roots", "Complex Grammar"])
    ]
  }

  /** The ids of `ls`, in order. */
  function IdsOf(ls: seq<Language>): (r: seq<string>)
    ensures |r| == |ls| && forall i :: 0 <= i < |ls| ==> r[i] == ls[i].id
  {
    seq(|ls|, i requires 0 <= i < |ls| => ls[i].id)
  }

  /** The difficulties of `ls`, in order. */
  function DifficultiesOf(ls: seq<Language>): (r: seq<Difficulty>)
    ensures |r| == |ls| && forall i :: 0 <= i < |ls| ==> r[i] == ls[i].difficulty
  {
    seq(|ls|, i requires 0 <= i < |ls| => ls[i].difficulty)
  }

  /** The language ids offered, in table order. */
  function TableIds(): seq<string> {
    ["spanish", "french", "japanese", "german", "mandarin", "italian", "korean", "tamil", "telugu",
     "malayalam", "hindi", "kannada"]
  }

  /** The table's difficulties, in table order. */
  function TableDifficulties(): seq<Difficulty> {
    [BeginnerFriendly, Intermediate, Advanced, Intermediate, Advanced, BeginnerFriendly, Advanced, Advanced,
     Intermediate, Advanced, Intermediate, Advanced]
  }

  /** The table's ids and difficulties, entry by entry. */
  lemma {:induction false} TableShape()
    ensures IdsOf(Languages()) == TableIds()
    ensures DifficultiesOf(Languages()) == TableDifficulties()
  {
  }

  /** `type FilterType = 'All' | 'Beginner' | 'Intermediate' | 'Advanced'`. */
  datatype FilterType = All | Beginner | IntermediateOnly | AdvancedOnly

  /** The predicate `filteredLanguages` applies. The final `return true`
      is unreachable: the four tests cover every filter value. */
  predicate Keeps(filter: FilterType, lang: Language) {
    if filter == All then true
    else if filter == Beginner then DifficultyName(lang.difficulty) == "Beginner Friendly"
    else if filter == IntermediateOnly then DifficultyName(lang.difficulty) == "Intermediate"
    else DifficultyName(lang.difficulty) == "Advanced"
  }

  /** The difficulty a filter other than 'All' selects. */
  function Selected(filter: FilterType): Difficulty
    requires filter != All
  {
    match filter
    case Beginner => BeginnerFriendly
    case IntermediateOnly => Intermediate
    case AdvancedOnly => Advanced
  }

  /** 'All' keeps every language; any other filter keeps exactly the
      languages of its difficulty, 'Beginner' the 'Beginner Friendly' ones. */
  lemma {:induction false} KeepsMeaning(filter: FilterType, lang: Language)
    ensures filter == All ==> Keeps(filter, lang)
    ensures filter != All ==> (Keeps(filter, lang) <==> lang.difficulty == Selected(filter))
  {
    match lang.difficulty
    case BeginnerFriendly =>
      assert "Beginner Friendly" != "Intermediate" && "Beginner Friendly" != "Advanced";
    case Intermediate =>
      assert "Intermediate" != "Beginner Friendly" && "Intermediate" != "Advanced";
    case Advanced =>
      assert "Advanced" != "Beginner Friendly" && "Advanced" != "Intermediate";
  }

  /** `languages.filter(...)`. */
  function Filter(ls: seq<Language>, filter: FilterType): (r: seq<Language>)
    ensures |r| <= |ls|
    ensures forall x :: x in r <==> x in ls && Keeps(filter, x)
  {
    if ls == [] then []
    else if Keeps(filter, ls[0]) then [ls[0]] + Filter(ls[1..], filter)
    else Filter(ls[1..], filter)
  }

  /** Filtering works part by part: the kept entries of a table in two
      parts are those of the first part followed by those of the second,
      so filtering keeps the table's order. */
  lemma {:induction false} FilterAppend(a: seq<Language>, b: seq<Language>, filter: FilterType)
    ensures Filter(a + b, filter) == Filter(a, filter) + Filter(b, filter)
    decreases |a|
  {
    if a == [] {
      assert a + b == b;
    } else {
      assert (a + b)[0] == a[0] && (a + b)[1..] == a[1..] + b;
      FilterAppend(a[1..], b, filter);
    }
  }

  /** 'All' keeps the table as it is. */
  lemma {:induction false} FilterAll(ls: seq<Language>)
    ensures Filter(ls, All) == ls
    decreases |ls|
  {
    if ls != [] {
      FilterAll(ls[1..]);
      assert ls == [ls[0]] + ls[1..];
    }
  }

  /** A filter other than 'All' keeps as many entries as there are of its
      difficulty. */
  lemma {:induction false} FilterCount(ls: seq<Language>, filter: FilterType)
    requires filter != All
    ensures |Filter(ls, filter)| == multiset(DifficultiesOf(ls))[Selected(filter)]
    decreases |ls|
  {
    if ls != [] {
      KeepsMeaning(filter, ls[0]);
      FilterCount(ls[1..], filter);
      assert DifficultiesOf(ls) == [ls[0].difficulty] + DifficultiesOf(ls[1..]);
    }
  }

  /** The three filters other than 'All' split any table between them:
      each entry is kept by exactly one, and together they keep every entry
      once. */
  lemma {:induction false} FiltersPartition(ls: seq<Language>)
    ensures multiset(Filter(ls, Beginner)) + multiset(Filter(ls, IntermediateOnly)) + multiset(Filter(ls, AdvancedOnly))
         == multiset(ls)
    decreases |ls|
  {
    if ls != [] {
      KeepsMeaning(Beginner, ls[0]);
      KeepsMeaning(IntermediateOnly, ls[0]);
      KeepsMeaning(AdvancedOnly, ls[0]);
      FiltersPartition(ls[1..]);
      assert ls == [ls[0]] + ls[1..];
    }
  }

  /** On the table, 'Beginner' shows two languages, 'Intermediate' four and
      'Advanced' six, twelve in all. */
  lemma {:induction false} TableFilterCounts()
    ensures |Filter(Languages(), Beginner)| == 2
    ensures |Filter(Languages(), IntermediateOnly)| == 4
    ensures |Filter(Languages(), AdvancedOnly)| == 6
    ensures |Filter(Languages(), All)| == |Languages()| == 12
  {
    TableShape();
    DifficultyCounts(Languages());
  }

  /** A table with the shipped difficulties, in order, splits 2, 4 and 6. */
  lemma {:induction false} DifficultyCounts(ls: seq<Language>)
    requires DifficultiesOf(ls) == TableDifficulties()
    ensures |Filter(ls, Beginner)| == 2
    ensures |Filter(ls, IntermediateOnly)| == 4
    ensures |Filter(ls, AdvancedOnly)| == 6
    ensures |Filter(ls, All)| == |ls| == 12
  {
    TableDifficultyCounts();
    FilterCount(ls, Beginner);
    FilterCount(ls, IntermediateOnly);
    FilterCount(ls, AdvancedOnly);
    FilterAll(ls);
  }

  lemma TableDifficultyCounts()
    ensures multiset(TableDifficulties())[BeginnerFriendly] == 2
    ensures multiset(TableDifficulties())[Intermediate] == 4
    ensures multiset(TableDifficulties())[Advanced] == 6
    ensures |TableDifficulties()| == 12
  {
  }

  /** The flag codes of `getIsoCode`. */
  function IsoCodes(): map<string, string> {
    map["spanish" := "ES", "french" := "FR", "japanese" := "JP", "german" := "DE",
        "mandarin" := "CN", "italian" := "IT", "korean" := "KR", "hindi" := "IN",
        "tamil" := "TA", "kannada" := "KN", "telugu" := "TE", "malayalam" := "ML"]
  }

  /** `getIsoCode(id)`: the mapped code, else the first two characters
      upper-cased. */
  function IsoCode(id: string): (r: string)
    ensures id in IsoCodes() ==> r == IsoCodes()[id]
    ensures id !in IsoCodes() ==> r == ToUpper(id[..if |id| < 2 then |id| else 2])
  {
    if id in IsoCodes() && IsoCodes()[id] != "" then IsoCodes()[id]
    else ToUpper(id[..if |id| < 2 then |id| else 2])
  }

  /** Every language in the table has a mapped code. */
  lemma {:induction false} TableIdsMapped()
    ensures forall i :: 0 <= i < |Languages()| ==> Languages()[i].id in IsoCodes()
  {
    TableShape();
    assert forall id :: id in TableIds() ==> id in IsoCodes();
  }

  /** `getLevelColor(level)`: green, yellow, and red for anything else. */
  function LevelColor(level: string): (r: string)
    ensures level == "Beginner Friendly" ==> r == "bg-green-500/20 text-green-400 border-green-500/30"
    ensures level == "Intermediate" ==> r == "bg-yellow-500/20 text-yellow-400 border-yellow-500/30"
    ensures level != "Beginner Friendly" && level != "Intermediate" ==> r == "bg-red-500/20 text-red-400 border-red-500/30"
  {
    if level == "Beginner Friendly" then "bg-green-500/20 text-green-400 border-green-500/30"
    else if level == "Intermediate" then "bg-yellow-500/20 text-yellow-400 border-yellow-500/30"
    else "bg-red-500/20 text-red-400 border-red-500/30"
  }
}
