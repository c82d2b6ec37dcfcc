/** Journal pattern analysis: the interaction cadence, the emotional trend and
    the per-person pattern report built from a list of journal entries.

    Dates are whole day numbers; the current day is a parameter instead of
    being read from the clock. */
module Journal {

  /** A journal entry, reduced to the two fields the analysis reads. */
  datatype JournalEntry = JournalEntry(date: int, mood: string)

  /** A report date: a day number, or the distant-past sentinel. */
  datatype Date = Day(day: int) | DistantPast

  datatype InteractionFrequency = Frequent | Regular | Occasional | Rare

  datatype EmotionalTrend = Improving | Stable | Declining

  datatype MemoryPatternAnalysis = MemoryPatternAnalysis(
    personName: string,
    totalEntries: nat,
    dominantEmotion: string,
    interactionFrequency: InteractionFrequency,
    emotionalTrend: EmotionalTrend,
    lastInteraction: Date,
    privacyCompliant: bool)

  // ---------------------------------------------------------------------------
  // Interaction frequency
  // ---------------------------------------------------------------------------

  /** The cadence band of a whole number of days; every band is closed at
      both ends and everything outside the three bands, negative day counts
      included, is rare. */
  function FrequencyForDays(days: int): (f: InteractionFrequency)
    ensures f == Frequent <==> 0 <= days <= 7
    ensures f == Regular <==> 8 <= days <= 14
    ensures f == Occasional <==> 15 <= days <= 30
    ensures f == Rare <==> days < 0 || 30 < days
  {
    if 0 <= days <= 7 then Frequent
    else if 8 <= days <= 14 then Regular
    else if 15 <= days <= 30 then Occasional
    else Rare
  }

  /** How often the user and the person interact, judged from the days elapsed
      between the FIRST entry of the list (not the newest one) and today. */
  function CalculateInteractionFrequency(entries: seq<JournalEntry>, today: int): (f: InteractionFrequency)
    ensures entries == [] ==> f == Rare
    ensures entries != [] ==> f == FrequencyForDays(today - entries[0].date)
  {
    if entries == [] then Rare
    else FrequencyForDays(today - entries[0].date)
  }

  /** Position of a cadence from most to least frequent. */
  function FrequencyRank(f: InteractionFrequency): nat
  {
    match f
    case Frequent => 0
    case Regular => 1
    case Occasional => 2
    case Rare => 3
  }

  /** Over non-negative day counts the cadence only gets rarer as days pass. */
  lemma FrequencyMonotone(d1: int, d2: int)
    requires 0 <= d1 <= d2
    ensures FrequencyRank(FrequencyForDays(d1)) <= FrequencyRank(FrequencyForDays(d2))
  {
  }

  /** Only the date of the first entry matters: two non-empty lists that agree
      on it get the same cadence, whatever else they hold. */
  lemma FrequencyDependsOnFirstDateOnly(a: seq<JournalEntry>, b: seq<JournalEntry>, today: int)
    requires a != [] && b != [] && a[0].date == b[0].date
    ensures CalculateInteractionFrequency(a, today) == CalculateInteractionFrequency(b, today)
  {
  }

  // ---------------------------------------------------------------------------
  // Emotional trend
  // ---------------------------------------------------------------------------

  /** The moods that count as positive for the trend. */
  const PositiveMoods: set<string> := {"Happy", "Grateful", "Excited"}

  predicate IsPositive(e: JournalEntry)
  {
    e.mood in PositiveMoods
  }

  /** Number of entries with a positive mood. */
  function PositiveCount(s: seq<JournalEntry>): (c: nat)
    ensures c <= |s|
    ensures c == 0 <==> forall i :: 0 <= i < |s| ==> !IsPositive(s[i])
  {
    if s == [] then 0
    else (if IsPositive(s[0]) then 1 else 0) + PositiveCount(s[1..])
  }

  /** The first |s|/2 entries (the list's prefix of that length). */
  function RecentEntries(s: seq<JournalEntry>): seq<JournalEntry>
  {
    s[..|s| / 2]
  }

  /** The last |s|/2 entries (the list's suffix of that length). */
  function OlderEntries(s: seq<JournalEntry>): seq<JournalEntry>
  {
    s[|s| - |s| / 2..]
  }

  /** The two halves have the same length, never overlap, and together with
      the middle entry of an odd-length list make up the whole list. */
  lemma HalvesPartition(s: seq<JournalEntry>)
    ensures |RecentEntries(s)| == |OlderEntries(s)| == |s| / 2
    ensures |s| / 2 <= |s| - |s| / 2
    ensures |s| % 2 == 0 ==> RecentEntries(s) + OlderEntries(s) == s
    ensures |s| % 2 == 1 ==> RecentEntries(s) + [s[|s| / 2]] + OlderEntries(s) == s
  {
  }

  /** Compares positive moods in the recent half against the older half. */
  function CalculateEmotionalTrend(entries: seq<JournalEntry>): (t: EmotionalTrend)
    ensures t == Improving <==> PositiveCount(RecentEntries(entries)) > PositiveCount(OlderEntries(entries))
    ensures t == Declining <==> PositiveCount(RecentEntries(entries)) < PositiveCount(OlderEntries(entries))
    ensures t == Stable <==> PositiveCount(RecentEntries(entries)) == PositiveCount(OlderEntries(entries))
    ensures |entries| < 2 ==> t == Stable
  {
    var recentPositive := PositiveCount(RecentEntries(entries));
    var olderPositive := PositiveCount(OlderEntries(entries));
    if recentPositive > olderPositive then Improving
    else if recentPositive < olderPositive then Declining
    else Stable
  }

  /** The list in the opposite order. */
  function Reverse(s: seq<JournalEntry>): (r: seq<JournalEntry>)
    ensures |r| == |s|
  {
    seq(|s|, i requires 0 <= i < |s| => s[|s| - 1 - i])
  }

  /** Counting positives distributes over concatenation. */
  lemma {:induction false} PositiveCountAppend(a: seq<JournalEntry>, b: seq<JournalEntry>)
    ensures PositiveCount(a + b) == PositiveCount(a) + PositiveCount(b)
  {
    if a == [] {
      assert a + b == b;
    } else {
      assert (a + b)[1..] == a[1..] + b;
      PositiveCountAppend(a[1..], b);
    }
  }

  /** Reversing a list does not change how many positive entries it has. */
  lemma {:induction false} PositiveCountReverse(s: seq<JournalEntry>)
    ensures PositiveCount(Reverse(s)) == PositiveCount(s)
  {
    if s != [] {
      assert Reverse(s) == Reverse(s[1..]) + [s[0]];
      PositiveCountAppend(Reverse(s[1..]), [s[0]]);
      PositiveCountReverse(s[1..]);
    }
  }

  /** The trend obtained by swapping the roles of the two halves. */
  function Flip(t: EmotionalTrend): EmotionalTrend
  {
    match t
    case Improving => Declining
    case Declining => Improving
    case Stable => Stable
  }

  /** Reversing the entry list swaps improving and declining and keeps stable:
      the halves trade places, each one reversed. */
  lemma TrendOfReverse(entries: seq<JournalEntry>)
    ensures CalculateEmotionalTrend(Reverse(entries)) == Flip(CalculateEmotionalTrend(entries))
  {
    assert RecentEntries(Reverse(entries)) == Reverse(OlderEntries(entries));
    assert OlderEntries(Reverse(entries)) == Reverse(RecentEntries(entries));
    PositiveCountReverse(OlderEntries(entries));
    PositiveCountReverse(RecentEntries(entries));
  }

  // ---------------------------------------------------------------------------
  // Dominant emotion and the pattern report
  // ---------------------------------------------------------------------------

  /** Number of entries whose mood is `mood`. */
  function Occurrences(entries: seq<JournalEntry>, mood: string): (c: nat)
    ensures c <= |entries|
    ensures c > 0 <==> exists i :: 0 <= i < |entries| && entries[i].mood == mood
  {
    if entries == [] then 0
    else (if entries[0].mood == mood then 1 else 0) + Occurrences(entries[1..], mood)
  }

  /** The moods that occur in the list. */
  function Moods(entries: seq<JournalEntry>): set<string>
  {
    set e | e in entries :: e.mood
  }

  /** The entries grouped by mood, each group replaced by its size. */
  function MoodCounts(entries: seq<JournalEntry>): (counts: map<string, nat>)
    ensures counts.Keys == Moods(entries)
    ensures forall m :: m in counts ==> counts[m] == Occurrences(entries, m)
    ensures forall m :: m in counts ==> 1 <= counts[m] <= |entries|
    ensures counts == map[] <==> entries == []
  {
    assert entries != [] ==> entries[0].mood in Moods(entries);
    map m | m in Moods(entries) :: Occurrences(entries, m)
  }

  /** `k` is a key whose count no other key's count exceeds. */
  ghost predicate IsMaxKey(counts: map<string, nat>, k: string)
  {
    k in counts && forall j :: j in counts ==> counts[j] <= counts[k]
  }

  /** Every non-empty count map has a key of maximal count. */
  lemma {:induction false} MaxKeyExists(counts: map<string, nat>)
    requires counts != map[]
    ensures exists k :: IsMaxKey(counts, k)
    decreases |counts.Keys|
  {
    var k :| k in counts;
    if forall j :: j in counts ==> counts[j] <= counts[k] {
      assert IsMaxKey(counts, k);
    } else {
      var j :| j in counts && counts[j] > counts[k];
      var rest := counts - {k};
      assert rest.Keys == counts.Keys - {k};
      assert j in rest;
      MaxKeyExists(rest);
      var best :| IsMaxKey(rest, best);
      forall i | i in counts ensures counts[i] <= counts[best] {
        if i != k {
          assert i in rest && rest[i] == counts[i];
        }
      }
      assert IsMaxKey(counts, best);
    }
  }

  /** A dominant mood: "Neutral" for an empty list, otherwise a mood of the
      list that no other mood outnumbers. */
  ghost predicate IsDominantMood(entries: seq<JournalEntry>, d: string)
  {
    if entries == [] then d == "Neutral"
    else d in Moods(entries) && forall m :: m in Moods(entries) ==> Occurrences(entries, m) <= Occurrences(entries, d)
  }

  /** The mood of largest count. A dictionary's iteration order is unspecified,
      so among tied moods this is SOME one of them, not a particular one. */
  ghost function DominantEmotion(entries: seq<JournalEntry>): (d: string)
    ensures IsDominantMood(entries, d)
  {
    var counts := MoodCounts(entries);
    if counts == map[] then "Neutral"
    else
      MaxKeyExists(counts);
      var k :| IsMaxKey(counts, k);
      k
  }

  /** When no entry is literally tagged "Neutral", the default is returned
      exactly when there are no entries. */
  lemma NeutralOnlyWhenEmpty(entries: seq<JournalEntry>)
    requires "Neutral" !in Moods(entries)
    ensures DominantEmotion(entries) == "Neutral" <==> entries == []
  {
  }

  /** A mood that strictly outnumbers every other one is the dominant one,
      whatever the dictionary order. */
  lemma DominantIsUniqueMax(entries: seq<JournalEntry>, d: string)
    requires d in Moods(entries)
    requires forall m :: m in Moods(entries) && m != d ==> Occurrences(entries, m) < Occurrences(entries, d)
    ensures DominantEmotion(entries) == d
  {
  }

  /** The first entry's date, or the distant past for an empty list. */
  function FirstDate(entries: seq<JournalEntry>): (d: Date)
    ensures d.DistantPast? <==> entries == []
    ensures entries != [] ==> d == Day(entries[0].date)
  {
    if entries == [] then DistantPast else Day(entries[0].date)
  }

  /** The per-person report assembled from the entry list. */
  ghost function AnalyzeMemoryPatterns(person: string, entries: seq<JournalEntry>, today: int): (r: MemoryPatternAnalysis)
    ensures r.personName == person
    ensures r.totalEntries == |entries|
    ensures IsDominantMood(entries, r.dominantEmotion)
    ensures r.interactionFrequency == CalculateInteractionFrequency(entries, today)
    ensures r.emotionalTrend == CalculateEmotionalTrend(entries)
    ensures r.lastInteraction == FirstDate(entries)
    ensures r.privacyCompliant
  {
    MemoryPatternAnalysis(
      personName := person,
      totalEntries := |entries|,
      dominantEmotion := DominantEmotion(entries),
      interactionFrequency := CalculateInteractionFrequency(entries, today),
      emotionalTrend := CalculateEmotionalTrend(entries),
      lastInteraction := FirstDate(entries),
      privacyCompliant := true)
  }

  /** The report for a person with no entries. */
  lemma EmptyReport(person: string, today: int)
    ensures AnalyzeMemoryPatterns(person, [], today) == MemoryPatternAnalysis(person, 0, "Neutral", Rare, Stable, DistantPast, true)
  {
  }

  /** The count of a mood in a four-entry list, entry by entry. */
  lemma OccurrencesOfFour(entries: seq<JournalEntry>, mood: string)
    requires |entries| == 4
    ensures Occurrences(entries, mood)
              == (if entries[0].mood == mood then 1 else 0) + (if entries[1].mood == mood then 1 else 0)
               + (if entries[2].mood == mood then 1 else 0) + (if entries[3].mood == mood then 1 else 0)
  {
    assert entries[3..][1..] == [];
    assert Occurrences(entries[3..], mood) == (if entries[3].mood == mood then 1 else 0);
    assert entries[2..][1..] == entries[3..];
    assert Occurrences(entries[2..], mood) == (if entries[2].mood == mood then 1 else 0) + Occurrences(entries[3..], mood);
    assert entries[1..][1..] == entries[2..];
    assert Occurrences(entries[1..], mood) == (if entries[1].mood == mood then 1 else 0) + Occurrences(entries[2..], mood);
  }

  /** Four entries, the first one a week old, with moods Happy, Grateful,
      Happy, Nostalgic: Happy dominates, contact is frequent and the recent
      half has more positive moods than the older half. */
  lemma FourEntryReport(person: string, today: int, entries: seq<JournalEntry>)
    requires |entries| == 4 && entries[0].date == today - 7
    requires entries[0].mood == "Happy" && entries[1].mood == "Grateful"
    requires entries[2].mood == "Happy" && entries[3].mood == "Nostalgic"
    ensures AnalyzeMemoryPatterns(person, entries, today)
              == MemoryPatternAnalysis(person, 4, "Happy", Frequent, Improving, Day(today - 7), true)
  {
    OccurrencesOfFour(entries, "Happy");
    forall m | m in Moods(entries) && m != "Happy"
      ensures Occurrences(entries, m) < Occurrences(entries, "Happy")
    {
      OccurrencesOfFour(entries, m);
    }
    assert entries[0] in entries;
    DominantIsUniqueMax(entries, "Happy");
    assert RecentEntries(entries)[1..][1..] == [];
    assert OlderEntries(entries)[1..][1..] == [];
    assert PositiveCount(RecentEntries(entries)) == 2;
    assert PositiveCount(OlderEntries(entries)) == 1;
  }
}
