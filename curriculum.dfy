/** `curriculums`: the roadmap and opening line of the learning page for each
    shipped language, and a `default` one for every other language. */
module Curricula {
  import opened Common

  /** `RoadmapItem`, its status one of 'completed', 'in-progress', 'locked'. */
  datatype RoadmapItem = RoadmapItem(id: string, title: string, status: Status)

  datatype Curriculum = Curriculum(level: string, topic: string, initialMessage: string, items: seq<RoadmapItem>)

  function Spanish(): Curriculum {
    Curriculum("Level 1: Spanish Basics", "Ordering Coffee in Spanish", "Hola! \U{00BF}C\U{00F3}mo est\U{00E1}s hoy? Let's practice ordering coffee.", SpanishItems())
  }

  function SpanishItems(): seq<RoadmapItem> {
    [
      RoadmapItem("greetings", "Greetings", Completed),
      RoadmapItem("introductions", "Introductions", Completed),
      RoadmapItem("basic-phrases", "Basic Phrases", InProgress),
      RoadmapItem("numbers", "Numbers", Locked),
      RoadmapItem("colors-objects", "Colors & Objects", Locked),
      RoadmapItem("food-drinks", "Food & Drinks", Locked),
      RoadmapItem("daily-routine", "Daily Routine", Locked),
      RoadmapItem("travel", "Travel", Locked)
    ]
  }

  function French(): Curriculum {
    Curriculum("Level 1: French Basics", "Ordering Coffee in French", "Bonjour! Comment allez-vous? Let's practice ordering coffee.", FrenchItems())
  }

  function FrenchItems(): seq<RoadmapItem> {
    [
      RoadmapItem("greetings", "Salutations", Completed),
      RoadmapItem("introductions", "Pr\U{00E9}sentations", Completed),
      RoadmapItem("basic-phrases", "Phrases de base", InProgress),
      RoadmapItem("numbers", "Nombres", Locked),
      RoadmapItem("colors-objects", "Couleurs et Objets", Locked),
      RoadmapItem("food-drinks", "Nourriture et Boissons", Locked),
      RoadmapItem("daily-routine", "Routine Quotidienne", Locked),
      RoadmapItem("travel", "Voyage", Locked)
    ]
  }

  function German(): Curriculum {
    Curriculum("Level 1: German Basics", "Ordering Coffee in German", "Hallo! Wie geht es Ihnen? Let's practice ordering coffee.", GermanItems())
  }

  function GermanItems(): seq<RoadmapItem> {
    [
      RoadmapItem("greetings", "Begr\U{00FC}\U{00DF}ungen", Completed),
      RoadmapItem("introductions", "Vorstellungen", Completed),
      RoadmapItem("basic-phrases", "Grundlegende S\U{00E4}tze", InProgress),
      RoadmapItem("numbers", "Zahlen", Locked),
      RoadmapItem("colors-objects", "Farben & Objekte", Locked),
      RoadmapItem("food-drinks", "Essen & Trinken", Locked),
      RoadmapItem("daily-routine", "Tagesablauf", Locked),
      RoadmapItem("travel", "Reisen", Locked)
    ]
  }

  function Italian(): Curriculum {
    Curriculum("Level 1: Italian Basics", "Ordering Coffee in Italian", "Ciao! Come stai? Let's practice ordering coffee.", ItalianItems())
  }

  function ItalianItems(): seq<RoadmapItem> {
    [
      RoadmapItem("greetings", "Saluti", Completed),
      RoadmapItem("introductions", "Presentazioni", Completed),
      RoadmapItem("basic-phrases", "Frasi Base", InProgress),
      RoadmapItem("numbers", "Numeri", Locked),
      RoadmapItem("colors-objects", "Colori e Oggetti", Locked),
      RoadmapItem("food-drinks", "Cibo e Bevande", Locked),
      RoadmapItem("daily-routine", "Routine Quotidiana", Locked),
      RoadmapItem("travel", "Viaggi", Locked)
    ]
  }

  function Japanese(): Curriculum {
    Curriculum("Level 1: Japanese Basics", "Ordering Coffee in Japanese", "Konnichiwa! Genki desu ka? Let's practice ordering coffee.", JapaneseItems())
  }

  function JapaneseItems(): seq<RoadmapItem> {
    [
      RoadmapItem("greetings", "Aisatsu (Greetings)", Completed),
      RoadmapItem("introductions", "Jikoshoukai (Intros)", Completed),
      RoadmapItem("basic-phrases", "Kihon (Basics)", InProgress),
      RoadmapItem("numbers", "Suuji (Numbers)", Locked),
      RoadmapItem("colors-objects", "Iro to Mono", Locked),
      RoadmapItem("food-drinks", "Tabemono", Locked),
      RoadmapItem("daily-routine", "Nichijou", Locked),
      RoadmapItem("travel", "Ryokou", Locked)
    ]
  }

  function Default(): Curriculum {
    Curriculum("Level 1: Language Basics", "Ordering Coffee", "Hello! Ready to learn? Let's practice ordering coffee.", DefaultItems())
  }

  function DefaultItems(): seq<RoadmapItem> {
    [
      RoadmapItem("greetings", "Greetings", Completed),
      RoadmapItem("introductions", "Introductions", Completed),
      RoadmapItem("basic-phrases", "Basic Phrases", InProgress),
      RoadmapItem("numbers", "Numbers", Locked),
      RoadmapItem("colors-objects", "Colors & Objects", Locked),
      RoadmapItem("food-drinks", "Food & Drinks", Locked),
      RoadmapItem("daily-routine", "Daily Routine", Locked),
      RoadmapItem("travel", "Travel", Locked)
    ]
  }

  /** The keys of `curriculums`. */
  datatype Key = SpanishKey | FrenchKey | GermanKey | ItalianKey | JapaneseKey | DefaultKey

  /** The key a property name denotes, if it is an own key of `curriculums`. */
  function KeyOf(name: string): Option<Key> {
    if name == "spanish" then Some(SpanishKey)
    else if name == "french" then Some(FrenchKey)
    else if name == "german" then Some(GermanKey)
    else if name == "italian" then Some(ItalianKey)
    else if name == "japanese" then Some(JapaneseKey)
    else if name == "default" then Some(DefaultKey)
    else None
  }

  /** `curriculums[key]`. */
  function CurriculumAt(key: Key): Curriculum {
    match key
    case SpanishKey => Spanish()
    case FrenchKey => French()
    case GermanKey => German()
    case ItalianKey => Italian()
    case JapaneseKey => Japanese()
    case DefaultKey => Default()
  }

  /** The unit ids every curriculum follows, in order. */
  function RoadmapIds(): seq<string> {
    ["greetings", "introductions", "basic-phrases", "numbers", "colors-objects", "food-drinks", "daily-routine", "travel"]
  }

  /** Two finished units, the one in progress, and five still locked. */
  function RoadmapStatuses(): seq<Status> {
    [Completed, Completed, InProgress, Locked, Locked, Locked, Locked, Locked]
  }

  /** The units' statuses, in order. */
  function StatusesOf(items: seq<RoadmapItem>): (r: seq<Status>)
    ensures |r| == |items| && forall i :: 0 <= i < |items| ==> r[i] == items[i].status
  {
    seq(|items|, i requires 0 <= i < |items| => items[i].status)
  }

  /** How many of `statuses` are `s`: `items.filter(i => i.status === s).length`. */
  function Count(statuses: seq<Status>, s: Status): nat {
    multiset(statuses)[s]
  }

  /** The units follow the shared roadmap: its ids and statuses, unit by unit. */
  predicate Follows(items: seq<RoadmapItem>) {
    |items| == |RoadmapIds()|
    && forall i :: 0 <= i < |items| ==> items[i].id == RoadmapIds()[i] && items[i].status == RoadmapStatuses()[i]
  }

  /** The `default` entry exists, so a lookup that falls back to it always
      yields a curriculum. */
  lemma DefaultPresent()
    ensures KeyOf("default") == Some(DefaultKey)
  {
  }

  /** Every curriculum, the default included, follows the shared roadmap. */
  lemma {:induction false} AllFollow(key: Key)
    ensures Follows(CurriculumAt(key).items)
  {
    SpanishFollows();
    FrenchFollows();
    GermanFollows();
    ItalianFollows();
    JapaneseFollows();
    DefaultFollows();
  }

  /** Every curriculum has exactly eight units. */
  lemma {:induction false} EightUnits(key: Key)
    ensures |CurriculumAt(key).items| == 8
  {
    AllFollow(key);
    RoadmapLength();
  }

  lemma RoadmapLength() ensures |RoadmapIds()| == |RoadmapStatuses()| == 8 { }

  lemma SpanishFollows() ensures Follows(CurriculumAt(SpanishKey).items) { assert CurriculumAt(SpanishKey).items == SpanishItems(); }
  lemma FrenchFollows() ensures Follows(CurriculumAt(FrenchKey).items) { assert CurriculumAt(FrenchKey).items == FrenchItems(); }
  lemma GermanFollows() ensures Follows(CurriculumAt(GermanKey).items) { assert CurriculumAt(GermanKey).items == GermanItems(); }
  lemma ItalianFollows() ensures Follows(CurriculumAt(ItalianKey).items) { assert CurriculumAt(ItalianKey).items == ItalianItems(); }
  lemma JapaneseFollows() ensures Follows(CurriculumAt(JapaneseKey).items) { assert CurriculumAt(JapaneseKey).items == JapaneseItems(); }
  lemma DefaultFollows() ensures Follows(CurriculumAt(DefaultKey).items) { assert CurriculumAt(DefaultKey).items == DefaultItems(); }

  /** Units that follow the roadmap have unique ids. */
  lemma {:induction false} IdsUnique(items: seq<RoadmapItem>)
    requires Follows(items)
    ensures forall i, j :: 0 <= i < j < |items| ==> items[i].id != items[j].id
  {
    var ids := RoadmapIds();
    assert forall i, j :: 0 <= i < j < |ids| ==> ids[i] != ids[j];
  }

  /** Units that follow the roadmap are two completed, one in progress and
      five locked. */
  lemma {:induction false} StatusCounts(items: seq<RoadmapItem>)
    requires Follows(items)
    ensures Count(StatusesOf(items), Completed) == 2
    ensures Count(StatusesOf(items), InProgress) == 1
    ensures Count(StatusesOf(items), Locked) == 5
  {
    assert StatusesOf(items) == RoadmapStatuses();
    RoadmapCounts();
  }

  lemma RoadmapCounts()
    ensures Count(RoadmapStatuses(), Completed) == 2
    ensures Count(RoadmapStatuses(), InProgress) == 1
    ensures Count(RoadmapStatuses(), Locked) == 5
  {
  }

  /** In units that follow the roadmap the completed ones come first, then
      the one in progress, and the locked ones last. */
  lemma {:induction false} StatusOrder(items: seq<RoadmapItem>)
    requires Follows(items)
    ensures forall i :: 0 <= i < |items| ==>
      (items[i].status == Completed <==> i < 2) && (items[i].status == InProgress <==> i == 2)
      && (items[i].status == Locked <==> i > 2)
  {
  }
}
