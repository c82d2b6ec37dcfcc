/** Relationship health scoring, reconnection suggestions, keyword-based
    emotion detection and per-emotion suggested actions.

    Floating-point arithmetic is modelled on `real` (no rounding). */
module Intelligence {

  datatype EmotionType = Joy | Gratitude | Nostalgia | Love | Comfort

  datatype SuggestionType = Call | Message | Memory

  datatype Urgency = Low | Medium | High

  datatype RelationshipMetrics = RelationshipMetrics(
    lastInteractionDays: int,
    connectionStrength: real,
    totalMemories: int,
    reconnectionUrgency: Urgency)

  /** A person, reduced to the fields the service reads. */
  datatype Person = Person(
    name: string,
    lastMemory: string,
    memoryDate: string,
    emotion: EmotionType,
    relationshipMetrics: RelationshipMetrics)

  datatype AIReconnectionSuggestion = AIReconnectionSuggestion(
    personName: string,
    suggestionType: SuggestionType,
    content: string,
    reasoning: string,
    urgency: Urgency,
    estimatedImpact: real)

  datatype HealthLevel = Excellent | Good | Fair | NeedsAttention

  datatype RelationshipHealthScore = RelationshipHealthScore(
    overall: real,
    communication: real,
    emotional: real,
    memory: real,
    recommendations: seq<string>)

  // ---------------------------------------------------------------------------
  // Suggested actions
  // ---------------------------------------------------------------------------

  /** Three suggested actions for the person's emotional context. */
  function GenerateSuggestedActions(person: Person): (actions: seq<string>)
    ensures |actions| == 3
    ensures forall i, j :: 0 <= i < j < |actions| ==> actions[i] != actions[j]
  {
    match person.emotion
    case Joy => ["Plan a fun activity together", "Share a funny memory", "Suggest a new adventure"]
    case Gratitude => ["Express appreciation", "Write a heartfelt message", "Acknowledge their support"]
    case Nostalgia => ["Share old photos", "Reminisce about good times", "Visit a meaningful place"]
    case Love => ["Tell them you love them", "Spend quality time together", "Create new memories"]
    case Comfort => ["Have a deep conversation", "Offer emotional support", "Simply be present"]
  }

  /** The actions depend on the emotion alone, and two different emotions
      never share an action. */
  lemma SuggestedActionsPerEmotion(p: Person, q: Person)
    ensures p.emotion == q.emotion ==> GenerateSuggestedActions(p) == GenerateSuggestedActions(q)
    ensures p.emotion != q.emotion ==>
              forall a :: a in GenerateSuggestedActions(p) ==> a !in GenerateSuggestedActions(q)
  {
  }

  // ---------------------------------------------------------------------------
  // Text primitives: lower-casing and substring search
  // ---------------------------------------------------------------------------

  /** Lower-case of one character (ASCII letters only). */
  function LowerChar(c: char): char
  {
    if 'A' <= c <= 'Z' then (c as int + 32) as char else c
  }

  predicate IsUpper(c: char)
  {
    'A' <= c <= 'Z'
  }

  /** The text with every upper-case letter replaced by its lower-case one. */
  function Lowercased(s: string): (r: string)
    ensures |r| == |s|
    ensures forall i :: 0 <= i < |r| ==> !IsUpper(r[i])
    ensures forall i :: 0 <= i < |s| && !IsUpper(s[i]) ==> r[i] == s[i]
    ensures forall i :: 0 <= i < |s| && IsUpper(s[i]) ==> r[i] == (s[i] as int + 32) as char
  {
    seq(|s|, i requires 0 <= i < |s| => LowerChar(s[i]))
  }

  /** Lower-casing twice is lower-casing once. */
  lemma LowercasedIdempotent(s: string)
    ensures Lowercased(Lowercased(s)) == Lowercased(s)
  {
  }

  /** `pattern` occurs in `text` starting at position `i`. */
  ghost predicate OccursAt(text: string, pattern: string, i: int)
  {
    0 <= i && i + |pattern| <= |text| && text[i..i + |pattern|] == pattern
  }

  /** Whether `pattern` is a substring of `text`. */
  function Contains(text: string, pattern: string): (b: bool)
    ensures b <==> exists i :: OccursAt(text, pattern, i)
    decreases |text|
  {
    if pattern <= text then
      assert OccursAt(text, pattern, 0);
      true
    else if text == [] then
      false
    else
      var r := Contains(text[1..], pattern);
      assert forall i :: OccursAt(text[1..], pattern, i) ==> OccursAt(text, pattern, i + 1);
      assert forall i :: OccursAt(text, pattern, i) && i > 0 ==> OccursAt(text[1..], pattern, i - 1);
      assert !OccursAt(text, pattern, 0);
      r
  }

  // ---------------------------------------------------------------------------
  // Emotion detection
  // ---------------------------------------------------------------------------

  /** The keyword table, one entry per emotion. */
  function Keywords(e: EmotionType): seq<string>
  {
    match e
    case Joy => ["happy", "laugh", "fun", "excited", "celebration"]
    case Gratitude => ["thank", "grateful", "appreciate", "blessed", "support"]
    case Nostalgia => ["remember", "miss", "old times", "memories", "past"]
    case Love => ["love", "care", "heart", "cherish", "adore"]
    case Comfort => ["comfort", "peace", "safe", "understanding", "calm"]
  }

  /** Some keyword of `e` occurs in the (already lower-cased) text. */
  predicate Matches(text: string, e: EmotionType)
  {
    exists k :: k in Keywords(e) && Contains(text, k)
  }

  /** The table's iteration order: every emotion exactly once, in an order
      the dictionary does not specify. */
  predicate IsIterationOrder(order: seq<EmotionType>)
  {
    (forall e: EmotionType :: e in order) &&
    (forall i, j :: 0 <= i < j < |order| ==> order[i] != order[j])
  }

  /** Some emotion of `order` has a matching keyword. */
  ghost predicate AnyMatch(order: seq<EmotionType>, text: string)
  {
    exists i :: 0 <= i < |order| && Matches(text, order[i])
  }

  /** `order[i]` is the first emotion of `order` with a matching keyword. */
  ghost predicate FirstMatchAt(order: seq<EmotionType>, text: string, i: int)
  {
    0 <= i < |order| && Matches(text, order[i]) && forall j :: 0 <= j < i ==> !Matches(text, order[j])
  }

  /** The loop over the table: the first emotion in `order` with a matching
      keyword, or the default comfort once the table is exhausted. */
  function FirstMatch(order: seq<EmotionType>, text: string): (e: EmotionType)
    ensures !AnyMatch(order, text) ==> e == Comfort
    ensures AnyMatch(order, text) ==> exists i :: FirstMatchAt(order, text, i) && order[i] == e
  {
    if order == [] then Comfort
    else if Matches(text, order[0]) then
      assert FirstMatchAt(order, text, 0);
      order[0]
    else
      var e := FirstMatch(order[1..], text);
      FirstMatchSkip(order, text, e);
      e
  }

  /** When the head of `order` does not match, the first match of `order` is
      the first match of its tail, one position further on. */
  lemma FirstMatchSkip(order: seq<EmotionType>, text: string, e: EmotionType)
    requires order != [] && !Matches(text, order[0])
    requires !AnyMatch(order[1..], text) ==> e == Comfort
    requires AnyMatch(order[1..], text) ==> exists i :: FirstMatchAt(order[1..], text, i) && order[1..][i] == e
    ensures !AnyMatch(order, text) ==> e == Comfort
    ensures AnyMatch(order, text) ==> exists i :: FirstMatchAt(order, text, i) && order[i] == e
  {
    if AnyMatch(order, text) {
      var i :| 0 <= i < |order| && Matches(text, order[i]);
      assert order[1..][i - 1] == order[i];
      assert AnyMatch(order[1..], text);
      var k :| FirstMatchAt(order[1..], text, k) && order[1..][k] == e;
      forall j | 0 <= j < k + 1 ensures !Matches(text, order[j]) {
        if j > 0 { assert order[1..][j - 1] == order[j]; }
      }
      assert FirstMatchAt(order, text, k + 1);
    } else {
      forall i | 0 <= i < |order[1..]| ensures !Matches(text, order[1..][i]) {
        assert order[1..][i] == order[i + 1];
      }
    }
  }

  /** Emotion conveyed by a text, matched case-insensitively. */
  function DetectEmotion(text: string, order: seq<EmotionType>): (e: EmotionType)
    requires IsIterationOrder(order)
    ensures (forall x: EmotionType :: !Matches(Lowercased(text), x)) ==> e == Comfort
    ensures (exists x: EmotionType :: Matches(Lowercased(text), x)) ==> Matches(Lowercased(text), e)
  {
    var lower := Lowercased(text);
    assert (exists x: EmotionType :: Matches(lower, x)) ==> AnyMatch(order, lower) by {
      forall x: EmotionType | Matches(lower, x) ensures AnyMatch(order, lower) {
        assert x in order;
      }
    }
    FirstMatch(order, lower)
  }

  /** Detection ignores case: a text and its lower-cased form give the same emotion. */
  lemma DetectEmotionIgnoresCase(text: string, order: seq<EmotionType>)
    requires IsIterationOrder(order)
    ensures DetectEmotion(Lowercased(text), order) == DetectEmotion(text, order)
  {
    LowercasedIdempotent(text);
  }

  /** When exactly one emotion has a matching keyword, the table order does
      not matter. */
  lemma DetectEmotionUniqueMatch(text: string, order1: seq<EmotionType>, order2: seq<EmotionType>, e: EmotionType)
    requires IsIterationOrder(order1) && IsIterationOrder(order2)
    requires Matches(Lowercased(text), e)
    requires forall x: EmotionType :: x != e ==> !Matches(Lowercased(text), x)
    ensures DetectEmotion(text, order1) == e == DetectEmotion(text, order2)
  {
  }

  /** A text with keywords of two emotions gets a different answer under
      two table orders. */
  lemma DetectEmotionDependsOnOrder()
    ensures IsIterationOrder([Joy, Gratitude, Nostalgia, Love, Comfort])
    ensures IsIterationOrder([Gratitude, Joy, Nostalgia, Love, Comfort])
    ensures DetectEmotion("Happy, thanks", [Joy, Gratitude, Nostalgia, Love, Comfort]) == Joy
    ensures DetectEmotion("Happy, thanks", [Gratitude, Joy, Nostalgia, Love, Comfort]) == Gratitude
  {
    SampleOrders();
    SampleMatches();
  }

  /** Two of the table's possible iteration orders. */
  lemma SampleOrders()
    ensures IsIterationOrder([Joy, Gratitude, Nostalgia, Love, Comfort])
    ensures IsIterationOrder([Gratitude, Joy, Nostalgia, Love, Comfort])
  {
    var o1, o2 := [Joy, Gratitude, Nostalgia, Love, Comfort], [Gratitude, Joy, Nostalgia, Love, Comfort];
    forall e: EmotionType ensures e in o1 && e in o2 {
      match e
      case Joy => assert o1[0] == e && o2[1] == e;
      case Gratitude => assert o1[1] == e && o2[0] == e;
      case Nostalgia => assert o1[2] == e && o2[2] == e;
      case Love => assert o1[3] == e && o2[3] == e;
      case Comfort => assert o1[4] == e && o2[4] == e;
    }
  }

  /** Lower-casing "Happy, thanks" changes only its first letter. */
  lemma SampleLowercased()
    ensures Lowercased("Happy, thanks") == "happy, thanks"
  {
  }

  /** "Happy, thanks" holds a joy keyword and a gratitude keyword. */
  lemma SampleMatches()
    ensures Lowercased("Happy, thanks") == "happy, thanks"
    ensures Matches("happy, thanks", Joy) && Matches("happy, thanks", Gratitude)
  {
    SampleLowercased();
    var lower := "happy, thanks";
    assert OccursAt(lower, "happy", 0);
    assert OccursAt(lower, "thank", 7);
    assert "happy" in Keywords(Joy) && Contains(lower, "happy");
    assert "thank" in Keywords(Gratitude) && Contains(lower, "thank");
  }

  // ---------------------------------------------------------------------------
  // Reconnection suggestions
  // ---------------------------------------------------------------------------

  /** The three candidates, in the order the source lists them. */
  function Candidates(person: Person): seq<AIReconnectionSuggestion>
  {
    [ AIReconnectionSuggestion(
        person.name, Call,
        "Give " + person.name + " a call to catch up",
        "It's been a while since your last conversation",
        person.relationshipMetrics.reconnectionUrgency, 0.8),
      AIReconnectionSuggestion(
        person.name, Message,
        "Send a thoughtful message about " + person.lastMemory,
        "Referencing shared memories strengthens connections",
        Medium, 0.7),
      AIReconnectionSuggestion(
        person.name, Memory,
        "Share a photo from " + person.memoryDate,
        "Visual memories create emotional resonance",
        Low, 0.9) ]
  }

  /** Non-increasing by estimated impact. */
  ghost predicate SortedByImpact(s: seq<AIReconnectionSuggestion>)
  {
    forall i, j :: 0 <= i < j < |s| ==> s[i].estimatedImpact >= s[j].estimatedImpact
  }

  /** Inserts `x` into a list sorted by impact, before every suggestion of
      equal or lower impact. */
  function InsertByImpact(x: AIReconnectionSuggestion, s: seq<AIReconnectionSuggestion>): (r: seq<AIReconnectionSuggestion>)
    requires SortedByImpact(s)
    ensures SortedByImpact(r)
    ensures multiset(r) == multiset(s) + multiset{x}
    ensures |r| == |s| + 1
    ensures r[0] == x || (s != [] && r[0] == s[0])
  {
    if s == [] || x.estimatedImpact >= s[0].estimatedImpact then
      [x] + s
    else
      var t := InsertByImpact(x, s[1..]);
      assert s == [s[0]] + s[1..];
      assert s[0].estimatedImpact >= t[0].estimatedImpact;
      [s[0]] + t
  }

  /** Sorts by impact, highest first; suggestions of equal impact keep their
      relative order. */
  function SortByImpact(s: seq<AIReconnectionSuggestion>): (r: seq<AIReconnectionSuggestion>)
    ensures SortedByImpact(r)
    ensures multiset(r) == multiset(s)
  {
    if s == [] then []
    else
      assert s == [s[0]] + s[1..];
      InsertByImpact(s[0], SortByImpact(s[1..]))
  }

  /** The candidates, best first. */
  function GenerateReconnectionSuggestions(person: Person): (r: seq<AIReconnectionSuggestion>)
    ensures |r| == 3
    ensures SortedByImpact(r)
    ensures multiset(r) == multiset(Candidates(person))
  {
    SortByImpact(Candidates(person))
  }

  /** The suggestions come out as memory, call, message, one of each type,
      with the fields they were built with; only the order changes. */
  lemma ReconnectionSuggestionsOrder(person: Person)
    ensures var r := GenerateReconnectionSuggestions(person);
            var c := Candidates(person);
            r == [c[2], c[0], c[1]] &&
            r[0].suggestionType == Memory && r[0].estimatedImpact == 0.9 && r[0].urgency == Low &&
            r[1].suggestionType == Call && r[1].estimatedImpact == 0.8 &&
            r[1].urgency == person.relationshipMetrics.reconnectionUrgency &&
            r[2].suggestionType == Message && r[2].estimatedImpact == 0.7 && r[2].urgency == Medium
  {
  }

  // ---------------------------------------------------------------------------
  // Relationship health
  // ---------------------------------------------------------------------------

  /** Recency score: 1 on the day of contact, falling by 1/30 a day and
      floored at 0. */
  function CommunicationScore(days: int): (c: real)
    ensures c >= 0.0
    ensures days >= 30 ==> c == 0.0
    ensures days <= 30 ==> c == 1.0 - days as real / 30.0
    ensures days >= 0 ==> c <= 1.0
  {
    var linear := 1.0 - days as real / 30.0;
    if linear >= 0.0 then linear else 0.0
  }

  /** Volume score: 1/50 per memory, capped at 1. */
  function MemoryScore(total: int): (m: real)
    ensures m <= 1.0
    ensures total >= 50 ==> m == 1.0
    ensures total <= 50 ==> m == total as real / 50.0
    ensures total >= 0 ==> m >= 0.0
  {
    var linear := total as real / 50.0;
    if 1.0 <= linear then 1.0 else linear
  }

  /** Tier of a score; the top band is closed at 1.0, and anything above it
      falls through to needs-attention together with scores below 0.4. */
  function HealthLevelOf(score: RelationshipHealthScore): (l: HealthLevel)
    ensures l == Excellent <==> 0.8 <= score.overall <= 1.0
    ensures l == Good <==> 0.6 <= score.overall < 0.8
    ensures l == Fair <==> 0.4 <= score.overall < 0.6
    ensures l == NeedsAttention <==> score.overall < 0.4 || 1.0 < score.overall
  {
    var x := score.overall;
    if 0.8 <= x <= 1.0 then Excellent
    else if 0.6 <= x < 0.8 then Good
    else if 0.4 <= x < 0.6 then Fair
    else NeedsAttention
  }

  /** Position of a tier from best to worst. */
  function LevelRank(l: HealthLevel): nat
  {
    match l
    case Excellent => 0
    case Good => 1
    case Fair => 2
    case NeedsAttention => 3
  }

  /** On [0, 1] the tier is a step function that never gets worse as the
      score grows. */
  lemma HealthLevelMonotone(s: RelationshipHealthScore, t: RelationshipHealthScore)
    requires 0.0 <= s.overall <= t.overall <= 1.0
    ensures LevelRank(HealthLevelOf(t)) <= LevelRank(HealthLevelOf(s))
  {
  }

  /** Two pieces of advice for the tier of the score. */
  function GenerateHealthRecommendations(score: real): (r: seq<string>)
    ensures |r| == 2 && r[0] != r[1]
  {
    if 0.8 <= score <= 1.0 then
      ["Maintain regular contact", "Continue sharing experiences"]
    else if 0.6 <= score < 0.8 then
      ["Increase communication frequency", "Plan quality time together"]
    else if 0.4 <= score < 0.6 then
      ["Reach out soon", "Address any relationship concerns"]
    else
      ["Prioritize reconnection", "Consider having an honest conversation"]
  }

  /** The recommendations select the same band as the tier: two scores get
      the same advice exactly when they are in the same tier. */
  lemma RecommendationsFollowHealthLevel(s: RelationshipHealthScore, t: RelationshipHealthScore)
    ensures (HealthLevelOf(s) == HealthLevelOf(t))
              <==> (GenerateHealthRecommendations(s.overall) == GenerateHealthRecommendations(t.overall))
  {
  }

  /** The three sub-scores, their mean, and the advice for that mean. */
  function AnalyzeRelationshipHealth(person: Person): (h: RelationshipHealthScore)
    ensures var m := person.relationshipMetrics;
            h.communication == CommunicationScore(m.lastInteractionDays) &&
            h.emotional == m.connectionStrength &&
            h.memory == MemoryScore(m.totalMemories)
    ensures 3.0 * h.overall == h.communication + h.emotional + h.memory
    ensures h.recommendations == GenerateHealthRecommendations(h.overall)
    ensures |h.recommendations| == 2
  {
    var metrics := person.relationshipMetrics;
    var communicationScore := CommunicationScore(metrics.lastInteractionDays);
    var emotionalScore := metrics.connectionStrength;
    var memoryScore := MemoryScore(metrics.totalMemories);
    var overallScore := (communicationScore + emotionalScore + memoryScore) / 3.0;
    RelationshipHealthScore(overallScore, communicationScore, emotionalScore, memoryScore,
      GenerateHealthRecommendations(overallScore))
  }

  /** For metrics in their intended ranges every score lies in [0, 1], so
      the tier is needs-attention only for an overall score below 0.4. */
  lemma HealthScoresInRange(person: Person)
    requires person.relationshipMetrics.lastInteractionDays >= 0
    requires 0.0 <= person.relationshipMetrics.connectionStrength <= 1.0
    requires person.relationshipMetrics.totalMemories >= 0
    ensures var h := AnalyzeRelationshipHealth(person);
            0.0 <= h.communication <= 1.0 && 0.0 <= h.emotional <= 1.0 && 0.0 <= h.memory <= 1.0 &&
            0.0 <= h.overall <= 1.0 &&
            (HealthLevelOf(h) == NeedsAttention <==> h.overall < 0.4)
  {
  }

  /** A week since the last contact, strength 0.9 and four memories give a
      fair relationship. */
  lemma WeekOldFourMemoriesIsFair(person: Person)
    requires person.relationshipMetrics.lastInteractionDays == 7
    requires person.relationshipMetrics.connectionStrength == 0.9
    requires person.relationshipMetrics.totalMemories == 4
    ensures var h := AnalyzeRelationshipHealth(person);
            h.communication == 23.0 / 30.0 && h.memory == 0.08 &&
            HealthLevelOf(h) == Fair &&
            h.recommendations == ["Reach out soon", "Address any relationship concerns"]
  {
  }
}
