# Jubiland store and mood screen, in Dafny

Jubiland is a journaling app for moods and "celebrations". Its only logic
that is not presentation is a small in-memory store, `DataManager`, and the
two record types it holds:

- `MoodEntry`: a 1..5 rating and a note for one day.
- `Celebration`: a titled, dated, categorised event that can be starred.

This project models that store. It also models the save and load rules of
the daily mood screen, which are written against the store.

- `common.dfy` (module `Common`): an abstract identifier type `Id`,
  timestamps as `Date = int`, and `Option`.
- `sequences.dfy` (module `Sequences`): the array operations the store is
  built from. These are `filter`, `removeAll(where:)` (a filter on the negated
  predicate) and `firstIndex(where:)`, with lemmas on order and on the head of
  a filtered sequence.
- `mood_entry.dfy` (module `MoodEntries`): the record, the clamping
  initializer, the default arguments, and the `emoji` and `moodDescription`
  properties.
- `celebration.dfy` (module `Celebrations`): the record, its initializer and
  defaults, and the six-case `Category` with its raw labels, decoding and
  icons.
- `data_manager.dfy` (module `DataStore`): class `DataManager` with the two
  collections as `seq` fields. Each mutating method states the collection it
  changes as a function of the old one, and says that the other collection
  is unchanged. Update, delete, same-day query and the window filters are
  generic functions that serve both record types. Star toggling works on
  celebrations only. The sum, average and distribution work on mood entries
  only. Lemmas state their properties.
- `daily_mood_view.dfy` (module `DailyMood`): class `DailyMoodView` with the
  screen's state fields and `saveMood` and `loadMoodForSelectedDate`. It also
  holds the functions those methods are specified by, the screen's
  emoji and description, and the affirmation choice.

The calendar is abstracted. Callers pass in:

- `sameDay(a, b)`: the calendar's same-day test. "Today" is `sameDay(d, now)`.
- `now`: the current date.
- `dateByAdding(component, value)`: the calendar's date arithmetic on `now`.
  It may fail. The week, month and year windows ask it for (-7 days),
  (-1 month) and (-1 year).

Identifiers for new records are passed in too (`freshId`). The app makes a
new UUID for each one.

## Model

| member | source | states |
|---|---|---|
| `Sequences.Filter` | Jubiland/DataManager.swift:46 | `filter` keeps exactly the elements satisfying the predicate and never grows the sequence |
| `Sequences.FilterMultiset` | Jubiland/DataManager.swift:46 | every satisfying element survives as often as it occurred, and no other element survives |
| `Sequences.FilterAppend` | Jubiland/DataManager.swift:46 | filtering a concatenation is the concatenation of the filtered parts, so survivors keep their relative order |
| `Sequences.FirstIndex` | Jubiland/DataManager.swift:33 | `firstIndex(where:)` returns an index that satisfies the predicate with none before it, and returns nothing exactly when no element satisfies it |
| `Sequences.FilterHead` | Jubiland/DataManager.swift:46 | a filtered sequence is non-empty exactly when a first matching index exists, and its head is the element at that index |
| `MoodEntries.Clamp` | Jubiland/MoodEntry.swift:44 | the clamp always lands in 1..5, leaves 1..5 unchanged, and sends values below to 1 and values above to 5 |
| `MoodEntries.ClampIdempotent` | Jubiland/MoodEntry.swift:44 | clamping twice is clamping once |
| `MoodEntries.NewMoodEntry` | Jubiland/MoodEntry.swift:42-46 | the initializer keeps date and note, and stores the clamped rating, which is always on the scale and is the given rating when that is on the scale |
| `MoodEntries.DefaultMoodEntry` | Jubiland/MoodEntry.swift:42 | the default arguments give rating 3, an empty note and the current date |
| `MoodEntries.Emoji` | Jubiland/MoodEntry.swift:18-27 | every off-scale rating shows the neutral face, and every face is one character |
| `MoodEntries.EmojiInjectiveOnScale` | Jubiland/MoodEntry.swift:18-27 | the five ratings of the scale show five different faces |
| `MoodEntries.EmojiOffScaleIsNeutral` | Jubiland/MoodEntry.swift:25 | an off-scale rating shows the same face as rating 3 |
| `MoodEntries.MoodDescription` | Jubiland/MoodEntry.swift:30-39 | 1, 2, 4 and 5 map to Sad, Down, Good and Great, and only they do; 3 and every off-scale rating, and only those, map to Neutral |
| `MoodEntries.MoodDescriptionInjectiveOnScale` | Jubiland/MoodEntry.swift:30-39 | the five ratings of the scale have five different descriptions |
| `Celebrations.RawValue` | Jubiland/Celebration.swift:20-26 | every category has a non-empty raw label |
| `Celebrations.FromRawValue` | Jubiland/Celebration.swift:20-26 | decoding a label yields only a category whose label it is |
| `Celebrations.RawValueRoundTrip` | Jubiland/Celebration.swift:20-26 | decoding a category's label gives back that category |
| `Celebrations.FromRawValueComplete` | Jubiland/Celebration.swift:20-26 | a string fails to decode exactly when it is no category's label |
| `Celebrations.RawValueInjective` | Jubiland/Celebration.swift:20-26 | the six labels are pairwise distinct |
| `Celebrations.AllCasesListsEachOnce` | Jubiland/Celebration.swift:20-26 | the case list has six entries, contains every category, and lists none twice |
| `Celebrations.Icon` | Jubiland/Celebration.swift:28-37 | every category has a non-empty icon name |
| `Celebrations.IconInjective` | Jubiland/Celebration.swift:28-37 | different categories have different icons |
| `Celebrations.NewCelebration` | Jubiland/Celebration.swift:52-59 | the initializer stores title, description, date, category, media URLs and star flag as given |
| `Celebrations.DefaultCelebration` | Jubiland/Celebration.swift:52 | the defaults are empty title and description, category Personal, no media, not starred, and the current date |
| `DataStore.FirstWithId` | Jubiland/DataManager.swift:33 | the lookup by identifier returns the first position with that identifier, or nothing exactly when no record has it |
| `DataStore.FirstWithIdOfUnique` | Jubiland/DataManager.swift:33 | with unique identifiers, looking up a record's identifier finds that record's position |
| `DataStore.ReplaceFirst` | Jubiland/DataManager.swift:32-37 | update keeps the length; it is a no-op for an absent identifier; otherwise only the first position with the identifier changes, to the new record |
| `DataStore.ReplaceFirstUnique` | Jubiland/DataManager.swift:32-37 | with unique identifiers, update replaces the one record with that identifier and identifiers stay unique |
| `DataStore.RemoveAll` | Jubiland/DataManager.swift:39-42 | after delete, a record is present exactly when it was present before and has a different identifier; the collection never grows |
| `DataStore.RemoveAllMultiset` | Jubiland/DataManager.swift:39-42 | delete removes every copy of a record with the identifier and keeps every other record as often as it occurred |
| `DataStore.RemoveAllKeepsOrder` | Jubiland/DataManager.swift:39-42 | delete keeps the remaining records in their original relative order |
| `DataStore.RemoveAllAbsent` | Jubiland/DataManager.swift:39-42 | deleting an absent identifier leaves the collection unchanged |
| `DataStore.ToggleStar` | Jubiland/DataManager.swift:73-78 | toggling negates the star of only the first celebration with the identifier; its other fields and all other records are unchanged; an absent identifier is a no-op |
| `DataStore.ToggleStarTwice` | Jubiland/DataManager.swift:73-78 | toggling twice restores the original collection |
| `DataStore.AddThenToggle` | Jubiland/DataManager.swift:51-54 | adding a celebration with a new identifier and toggling it flips that celebration's star and nothing else |
| `DataStore.OnDay` | Jubiland/DataManager.swift:44-47 | the same-day query returns exactly the records on the queried day and is no longer than the collection |
| `DataStore.FirstOnDay` | Jubiland/DataManager.swift:44-47 | the first position on the queried day, or nothing exactly when no record is on that day |
| `DataStore.FirstOnDayUnique` | Jubiland/DataManager.swift:44-47 | any position that is first on the queried day is the one found |
| `DataStore.OnDayHead` | Jubiland/DataManager.swift:44-47 | the query is non-empty exactly when some record is on the day, and its first result is the first such record |
| `DataStore.AddThenQuery` | Jubiland/DataManager.swift:27-30 | after adding a record, a query for its day returns the earlier results followed by that record |
| `DataStore.WindowStart` | Jubiland/DataManager.swift:160-168 | the week, month and year windows start at the calendar's date 7 days, 1 month and 1 year before now; when the calendar cannot compute that date there is no start |
| `DataStore.WindowFilter` | Jubiland/DataManager.swift:153-193 | `.all` returns the collection; `.day` keeps exactly today's records; week, month and year keep exactly the records in [start, now], or none when the start cannot be computed; every result comes from the collection |
| `DataStore.WindowFilterSubMultiset` | Jubiland/DataManager.swift:153-193 | a window holds each record at most as often as the collection does |
| `DataStore.WindowFilterKeepsOrder` | Jubiland/DataManager.swift:153-193 | window filters keep collection order |
| `DataStore.RatingSum` | Jubiland/DataManager.swift:133 | the `reduce` sum is 0 for no entries, and with all ratings on the scale it lies between the count and five times the count |
| `DataStore.RatingSumAppend` | Jubiland/DataManager.swift:133 | the sum of a concatenation is the sum of the parts, so the fold's grouping does not matter |
| `DataStore.AverageMood` | Jubiland/DataManager.swift:129-135 | the average is 0 for no entries, and otherwise times the count equals the sum of ratings |
| `DataStore.AverageOnScale` | Jubiland/DataManager.swift:129-135 | with all ratings on the scale, a non-empty average lies in [1, 5] |
| `DataStore.AverageExample` | Jubiland/DataManager.swift:129-135 | ratings 2, 4, 4 average to 10/3 |
| `DataStore.RatingCount` | Jubiland/DataManager.swift:141-143 | the number of entries with a given rating never exceeds the number of entries |
| `DataStore.RatingCountAppend` | Jubiland/DataManager.swift:141-143 | the count over a concatenation is the sum of the counts of the parts |
| `DataStore.RatingCountZero` | Jubiland/DataManager.swift:141-143 | a rating is counted zero times exactly when no entry has it |
| `DataStore.RatingsAreCounted` | Jubiland/DataManager.swift:141-143 | a rating occurs exactly when its count is positive |
| `DataStore.Distribution` | Jubiland/DataManager.swift:137-146 | the keys 1 to 5 of the starting dictionary are always present |
| `DataStore.DistributionCounts` | Jubiland/DataManager.swift:137-146 | every rating that occurs is a key, every value is the number of entries with its key, and a key outside 1 to 5 counts at least one entry |
| `DataStore.RatingCountsTotal` | Jubiland/DataManager.swift:137-146 | with all ratings on the scale, the counts of 1..5 add up to the number of entries |
| `DataStore.DistributionOnScale` | Jubiland/DataManager.swift:137-146 | with all ratings on the scale, the keys are exactly 1..5 and the values sum to the number of entries |
| `DataStore.DistributionOffScaleKey` | Jubiland/DataManager.swift:142 | an off-scale rating adds a sixth key |
| `DataStore.DistributionExample` | Jubiland/DataManager.swift:137-146 | ratings 1, 1, 3 give {1: 2, 2: 0, 3: 1, 4: 0, 5: 0} |
| `DataStore.DistributionEmpty` | Jubiland/DataManager.swift:139 | the starting dictionary is keys 1..5 with zero counts |
| `DataStore.DistributionSnoc` | Jubiland/DataManager.swift:141-143 | one more entry increments its rating's count, adding the key with count 1 if it is new |
| `DataStore.Tally` | Jubiland/DataManager.swift:139-145 | the counting loop produces exactly the distribution of its input |
| `DataStore.FilteredAverageOnScale` | Jubiland/DataManager.swift:129-135 | any non-empty selection of entries from a collection whose ratings are all on the scale averages to a value in [1, 5] |
| `DataStore.DataManager.constructor` | Jubiland/DataManager.swift:82-125 | each collection is the decoded file contents, or empty when the file is missing or does not decode |
| `DataStore.DataManager.AddMoodEntry` | Jubiland/DataManager.swift:27-30 | appends the entry at the end, with no duplicate check; celebrations unchanged |
| `DataStore.DataManager.UpdateMoodEntry` | Jubiland/DataManager.swift:32-37 | the new entries are `ReplaceFirst` of the old; celebrations unchanged |
| `DataStore.DataManager.DeleteMoodEntry` | Jubiland/DataManager.swift:39-42 | the new entries are `RemoveAll` of the old; celebrations unchanged |
| `DataStore.DataManager.GetMoodEntries` | Jubiland/DataManager.swift:44-47 | returns exactly the stored entries on the queried day |
| `DataStore.DataManager.AddCelebration` | Jubiland/DataManager.swift:51-54 | appends the celebration at the end; mood entries unchanged |
| `DataStore.DataManager.UpdateCelebration` | Jubiland/DataManager.swift:56-61 | the new celebrations are `ReplaceFirst` of the old; mood entries unchanged |
| `DataStore.DataManager.DeleteCelebration` | Jubiland/DataManager.swift:63-66 | the new celebrations are `RemoveAll` of the old; mood entries unchanged |
| `DataStore.DataManager.GetCelebrations` | Jubiland/DataManager.swift:68-71 | returns exactly the stored celebrations on the queried day |
| `DataStore.DataManager.ToggleStarCelebration` | Jubiland/DataManager.swift:73-78 | the new celebrations are `ToggleStar` of the old; mood entries unchanged |
| `DataStore.DataManager.GetAverageMood` | Jubiland/DataManager.swift:129-135 | 0 when the window holds no entries; in [1, 5] when all stored ratings are on the scale and the window is non-empty |
| `DataStore.DataManager.GetMoodDistribution` | Jubiland/DataManager.swift:137-146 | returns the distribution of the window's entries |
| `DataStore.DataManager.GetCelebrationCount` | Jubiland/DataManager.swift:148-150 | the count is at most the number of celebrations, and equals it for `.all` |
| `DailyMood.SavedMoods` | Jubiland/DailyMoodView.swift:197-217 | with an entry on the day, saving keeps the length; without one, it appends exactly one entry with the fresh identifier, the day, the clamped rating and the note, and keeps the rest |
| `DailyMood.SaveUpdatesFirstOnDay` | Jubiland/DailyMoodView.swift:206-213 | with unique identifiers, the first entry of the day gets the unclamped rating and the note, keeps its identifier and date, and nothing else changes |
| `DailyMood.SaveKeepsUniqueIds` | Jubiland/DailyMoodView.swift:197-217 | saving with a fresh identifier keeps identifiers unique |
| `DailyMood.SaveWithSharedId` | Jubiland/DailyMoodView.swift:208-213 | when two entries share an identifier, saving on the later one's day overwrites the earlier entry of another day |
| `DailyMood.LoadedMood` | Jubiland/DailyMoodView.swift:223-234 | loading gives the first same-day entry's rating and note, or 3 and "" when the day has no entry |
| `DailyMood.SaveThenLoad` | Jubiland/DailyMoodView.swift:197-234 | with unique identifiers and a slider rating in 1..5, loading after saving gives back the saved rating and note |
| `DailyMood.DailyMoodView.constructor` | Jubiland/DailyMoodView.swift:14-17 | the screen starts at rating 3, an empty note, no confirmation, and today |
| `DailyMood.DailyMoodView.SaveMood` | Jubiland/DailyMoodView.swift:197-221 | the entries become `SavedMoods` of the old ones; celebrations and the screen's rating, note and date unchanged; the confirmation is shown |
| `DailyMood.DailyMoodView.LoadMoodForSelectedDate` | Jubiland/DailyMoodView.swift:223-234 | the rating and note become `LoadedMood` of the store; date and confirmation unchanged |
| `DailyMood.MoodEmoji` | Jubiland/DailyMoodView.swift:156-165 | the screen's face for a value is the record's face for that rating, off-scale values included |
| `DailyMood.MoodDescription` | Jubiland/DailyMoodView.swift:167-176 | the screen's description for a value is the record's description for that rating, off-scale values included |
| `DailyMood.TruncatingRemainder` | Jubiland/DailyMoodView.swift:257 | the remainder lies strictly between -n and n, has the dividend's sign, and agrees with the mathematical remainder for non-negative dividends; for a negative dividend it is the negated remainder of the dividend's magnitude |
| `DailyMood.AffirmationIndex` | Jubiland/DailyMoodView.swift:256-257 | a non-negative mood gives an index within the ten affirmations |
| `DailyMood.AffirmationIndexOnScale` | Jubiland/DailyMoodView.swift:256-257 | moods 1 to 5 give indices 2, 4, 6, 8 and 0 |
| `DailyMood.AffirmationIndexNegative` | Jubiland/DailyMoodView.swift:256-259 | a negative mood whose double is not a multiple of ten gives a negative index |
| `DailyMood.GenerateAffirmation` | Jubiland/DailyMoodView.swift:236-260 | an affirmation is produced exactly when the selected date is today, and it is one of the ten |

## Left out

- JSON persistence: `saveMoodEntries`, `saveCelebrations`, the encoders and the file URLs. This is file I/O through libraries that are not part of this model. Writes are not modelled, so a failed write that is logged and ignored has no counterpart. Loading is modelled only by its outcome: the constructor takes, for each file, "missing", "does not decode" or the decoded records.
- The JSON round trip (decoding an encoded collection gives it back) depends on the synthesized `Codable` conformances, which are not part of this model.
- Calendar semantics: `Calendar.current`, time zones, month and year lengths, and `Date()`. The same-day test, the current date and `date(byAdding:)` are parameters. The model assumes nothing about them beyond what each lemma states (for example `sameDay(day, day)` in `SaveThenLoad`).
- UUID generation: identifiers are an abstract type supplied by callers. Nothing in the app checks that they are unique, so lemmas that need uniqueness say so in their `requires`.
- Floating point: `getAverageMood` divides `Double`s; the model divides reals. The slider's `Double` value is modelled as the integer it holds, since the slider steps by 1 over 1...5. The truncation in `Int(currentMood)` is not modelled.
- Integer width: Swift's `Int` traps on overflow in the rating sum and in `moodIndex * 2`. The model's integers are unbounded.
- `DailyMood.GenerateAffirmation`: a negative index, which only a negative mood can produce, makes the array subscript trap. This is a precondition here instead of a modelled crash.
- `MoodEntry.color`, `Category.color`, `moodColor`, `formattedDate`, `TimeRange.description`, the SwiftUI layout, alerts and change notification are presentation only.
- `DataStore.Distribution`: its own contract states only that keys 1 to 5 are present. Which other keys occur, and the counts, are stated by `DataStore.DistributionCounts`. They are kept out of the function's contract because every proof that mentions a distribution would then have to carry them.
- `DataStore.RatingCount`: its own contract states only the bound. `DataStore.RatingCountZero` and `DataStore.RatingCountAppend` state the rest, for the same reason.
- Default arguments: `getAverageMood` defaults to `.week`, and `getMoodDistribution` and `getCelebrationCount` default to `.month`. The model's callers always pass the range.
- `DataStore.DataManager.GetCelebrationCount` states only the bound and the `.all` case. Which celebrations are counted is stated by `DataStore.WindowFilter`.
- ContentView.swift, CelebrationsView.swift, InsightsView.swift and SettingsView.swift hold only UI, with no logic.
