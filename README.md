# Relationship-memory analytics, modelled in Dafny

This project models the two computing services of the LOOP app, a
relationship-memory journal:

- **Journal pattern analysis** (`Journal`, in `journal_api_service.dfy`).
  It classifies how recently the user was in touch with a person (a
  four-way cadence over day counts). It compares positive moods in the two
  halves of the entry list to get an emotional trend. It picks the dominant
  mood and assembles the per-person `MemoryPatternAnalysis` report.
- **Relationship health and suggestions** (`Intelligence`, in
  `apple_intelligence_service.dfy`). It computes three normalised sub-scores
  and their mean, banded into four health levels with two recommendations
  each. It ranks three reconnection suggestions by estimated impact. It
  detects an emotion from text by case-insensitive keyword search and looks
  up three suggested actions per emotion.

Both services are pure computations, so the model is functions and lemmas
only.

Modelling choices:

- Dates are whole day numbers. Today's day number is a parameter, so the
  day count the calendar would give is `today - entries[0].date`.
  `Date.distantPast` is the datatype case `DistantPast`.
- `Double` is modelled as `real`, without rounding.
- Swift dictionaries have no specified iteration order, and the model does
  not pick one:
  - the dominant mood is a ghost function that chooses *some* mood of
    maximal count (`:|`). Its contract says which moods qualify;
  - emotion detection takes the dictionary's iteration order as a parameter
    `order`. Any permutation of the five emotions is allowed. The loop with
    early return is the recursive `FirstMatch`.
- `sorted(by:)` is modelled as a stable insertion sort. The three impacts
  differ, so stability does not change the result.
- The types `JournalEntry`, `Person`, `EmotionType`, `RelationshipMetrics`,
  `AIReconnectionSuggestion`, the urgency and the suggestion-type enums are
  used by the services but are not part of this model's source files. They
  are defined here with only the fields the services read. `JournalEntry`
  keeps just `date` and `mood`.

Behaviour of the code that the model keeps:

- The cadence uses the date of the FIRST entry in the list, not the newest.
- The trend splits by position into a prefix of `n/2` and a suffix of `n/2`
  entries. There is no sort by date, and the middle entry of an odd-length
  list is in neither half. The positive set is the strings `Happy`,
  `Grateful` and `Excited`. Reversing the list swaps improving and declining
  (`TrendOfReverse`). It does not keep the trend unchanged.
- The dominant mood has no declared-order tie-break: any tied mood may come
  out.
- The health level's default branch catches scores above 1.0 as well as
  scores below 0.4. Inputs are not clamped. `HealthScoresInRange` shows that
  in-range metrics never reach the upper case.
- Call urgency is the person's `reconnectionUrgency`. Message urgency is
  always medium and memory urgency always low. They are not derived from the
  cadence.
- The default dominant mood `"Neutral"` means "no entries" only when no entry
  is itself tagged `"Neutral"` (`NeutralOnlyWhenEmpty` has that hypothesis).
- Emotion detection depends on the dictionary's order when a text holds
  keywords of two emotions (`DetectEmotionDependsOnOrder`). For such texts
  the result is not determined by the input alone.

## Model

| member | source | states |
|---|---|---|
| `Journal.FrequencyForDays` | Services/JournalAPIService.swift:129-134 | closed bands: 0–7 frequent, 8–14 regular, 15–30 occasional; negative or above 30 is rare (each band as an if-and-only-if) |
| `Journal.CalculateInteractionFrequency` | Services/JournalAPIService.swift:124-135 | an empty list is rare; otherwise the band of the days between the first entry's date and today |
| `Journal.FrequencyMonotone` | Services/JournalAPIService.swift:129-134 | over non-negative day counts, more days never give a more frequent cadence |
| `Journal.FrequencyDependsOnFirstDateOnly` | Services/JournalAPIService.swift:127 | two non-empty lists whose first entries share a date get the same cadence, whatever the other entries are |
| `Journal.PositiveCount` | Services/JournalAPIService.swift:142-143 | the count is at most the list length, and zero exactly when no entry has a positive mood |
| `Journal.HalvesPartition` | Services/JournalAPIService.swift:139-140 | both halves have n/2 entries and do not overlap; with the middle entry of an odd list they rebuild the list |
| `Journal.CalculateEmotionalTrend` | Services/JournalAPIService.swift:137-152 | improving / declining / stable exactly when recent positives are greater / smaller / equal; fewer than two entries is stable |
| `Journal.PositiveCountAppend` | Services/JournalAPIService.swift:142-143 | the positive count of a concatenation is the sum of the counts |
| `Journal.PositiveCountReverse` | Services/JournalAPIService.swift:142-143 | reversing a list keeps its positive count |
| `Journal.TrendOfReverse` | Services/JournalAPIService.swift:139-151 | the trend of the reversed list is the original trend with improving and declining swapped |
| `Journal.Occurrences` | Services/JournalAPIService.swift:105-106 | a mood's count is at most the list length, and positive exactly when some entry has that mood |
| `Journal.MoodCounts` | Services/JournalAPIService.swift:105-106 | the grouping's keys are exactly the moods present, each value is the number of entries with that mood, between 1 and the list length, and the map is empty exactly for an empty list |
| `Journal.MaxKeyExists` | Services/JournalAPIService.swift:108 | a non-empty count map always has a key of maximal count, so the `max` cannot fail |
| `Journal.DominantEmotion` | Services/JournalAPIService.swift:105-108 | "Neutral" for an empty list; otherwise some mood present in the list that no other mood outnumbers |
| `Journal.NeutralOnlyWhenEmpty` | Services/JournalAPIService.swift:108 | if no entry is tagged "Neutral", the result is "Neutral" exactly when the list is empty |
| `Journal.DominantIsUniqueMax` | Services/JournalAPIService.swift:105-108 | a mood that strictly outnumbers all others is the result, whatever the dictionary order |
| `Journal.FirstDate` | Services/JournalAPIService.swift:119 | the first entry's date, and the distant-past sentinel exactly when the list is empty |
| `Journal.AnalyzeMemoryPatterns` | Services/JournalAPIService.swift:102-122 | the report carries the person, the entry count, a dominant mood, the cadence, the trend, the first entry's date (or the sentinel) and the privacy flag set |
| `Journal.EmptyReport` | Services/JournalAPIService.swift:113-121 | with no entries: count 0, "Neutral", rare, stable, distant past |
| `Journal.FourEntryReport` | Services/JournalAPIService.swift:102-152 | moods Happy, Grateful, Happy, Nostalgic with the first entry one week old give Happy, frequent and improving |
| `Intelligence.GenerateSuggestedActions` | Services/AppleIntelligenceService.swift:76-109 | exactly three distinct actions for every emotion |
| `Intelligence.SuggestedActionsPerEmotion` | Services/AppleIntelligenceService.swift:76-109 | the actions depend only on the emotion, and two different emotions share no action |
| `Intelligence.Lowercased` | Services/AppleIntelligenceService.swift:125 | same length; each ASCII upper-case letter becomes its own lower-case letter, so none is left; other characters unchanged |
| `Intelligence.LowercasedIdempotent` | Services/AppleIntelligenceService.swift:125 | lower-casing twice equals lower-casing once |
| `Intelligence.Contains` | Services/AppleIntelligenceService.swift:128 | true exactly when the keyword occurs at some position of the text |
| `Intelligence.FirstMatch` | Services/AppleIntelligenceService.swift:127-133 | comfort when no emotion in the order matches; otherwise the first emotion in the order with a matching keyword |
| `Intelligence.DetectEmotion` | Services/AppleIntelligenceService.swift:113-134 | for every iteration order: comfort when no keyword of any emotion occurs in the lower-cased text, otherwise an emotion one of whose keywords occurs |
| `Intelligence.DetectEmotionIgnoresCase` | Services/AppleIntelligenceService.swift:125-131 | a text and its lower-cased form give the same emotion |
| `Intelligence.DetectEmotionUniqueMatch` | Services/AppleIntelligenceService.swift:117-131 | when only one emotion matches, every iteration order returns it |
| `Intelligence.DetectEmotionDependsOnOrder` | Services/AppleIntelligenceService.swift:117-131 | "Happy, thanks" gives joy under one iteration order and gratitude under another |
| `Intelligence.InsertByImpact` | Services/AppleIntelligenceService.swift:166 | inserting into a list sorted by impact keeps it sorted and adds exactly that element |
| `Intelligence.SortByImpact` | Services/AppleIntelligenceService.swift:166 | the result is sorted non-increasing by impact and is a permutation of the input |
| `Intelligence.GenerateReconnectionSuggestions` | Services/AppleIntelligenceService.swift:138-167 | three suggestions, sorted non-increasing by impact, a permutation of the three candidates |
| `Intelligence.ReconnectionSuggestionsOrder` | Services/AppleIntelligenceService.swift:138-166 | the order is memory (0.9, low), call (0.8, the person's urgency), message (0.7, medium), each the unchanged candidate |
| `Intelligence.CommunicationScore` | Services/AppleIntelligenceService.swift:174 | never negative; 0 from 30 days on; 1 - days/30 up to 30 days; at most 1 for non-negative days |
| `Intelligence.MemoryScore` | Services/AppleIntelligenceService.swift:176 | never above 1; 1 from 50 memories on; total/50 up to 50; non-negative for non-negative totals |
| `Intelligence.HealthLevelOf` | Services/AppleIntelligenceService.swift:212-219 | excellent on [0.8, 1.0], good on [0.6, 0.8), fair on [0.4, 0.6), needs attention below 0.4 or above 1.0 (each as an if-and-only-if) |
| `Intelligence.HealthLevelMonotone` | Services/AppleIntelligenceService.swift:212-219 | on [0, 1] a higher score never gives a worse level |
| `Intelligence.GenerateHealthRecommendations` | Services/AppleIntelligenceService.swift:189-200 | exactly two different recommendations for every score |
| `Intelligence.RecommendationsFollowHealthLevel` | Services/AppleIntelligenceService.swift:189-200 | two scores get the same recommendations exactly when they have the same health level (lines 212-219) |
| `Intelligence.AnalyzeRelationshipHealth` | Services/AppleIntelligenceService.swift:171-187 | the emotional score is the connection strength unchanged; overall is the exact mean of the three sub-scores; the recommendations are those for overall |
| `Intelligence.HealthScoresInRange` | Services/AppleIntelligenceService.swift:172-178 | for in-range metrics every score lies in [0, 1], and the level is needs attention exactly below 0.4 |
| `Intelligence.WeekOldFourMemoriesIsFair` | Services/AppleIntelligenceService.swift:171-187 | 7 days, strength 0.9, 4 memories give communication 23/30, memory 0.08 and the fair level |

## Left out

- Fetching entries (`fetchMemories`), the privacy-consent flow and the `@Published` loading, entry and processing flags: asynchronous, timed and UI-state plumbing. The report function takes the entry list as input instead.
- `analyzeMemories` and `generateKeyThemes`: they use random numbers and shuffling, and carry no computation beyond the suggested-action lookup that is modelled.
- The mock entry generator and the mock service classes in `LoopApp.swift`: constant demo data.
- Privacy-settings structures, `print` calls, and the `description`, `color` and `icon` properties of the enums: presentation only.
- Intelligence.Contains: compares Unicode scalars, not Swift Characters (grapheme clusters) under canonical equivalence. So "care" followed by a combining accent still contains "care" here, while Swift sees "é" as the fourth Character and finds no match.
- Journal.MoodCounts: mood strings are grouped as scalar sequences. Two canonically equivalent spellings (precomposed "é" and "e" plus a combining accent) form one group in Swift and two keys here. The same holds for `Journal.IsPositive` and `Journal.Occurrences`.
- Intelligence.Lowercased: only ASCII letters are lower-cased. Swift's Unicode case mapping of other scripts is not modelled.
- Journal.CalculateInteractionFrequency: the calendar's day count is modelled as the difference of whole day numbers. Time of day, time zones and daylight-saving shifts are not modelled.
- Intelligence.AnalyzeRelationshipHealth: `Double` is modelled as exact `real`, so IEEE rounding near the band boundaries is not captured.
- SwiftUI views, layout and animation.
