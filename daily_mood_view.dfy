/** The daily mood screen's logic: saving the mood for the selected day
    (update that day's entry, or add one), loading it back, the face and
    description shown for the slider value, and the daily affirmation. */
module DailyMood {
  import opened Common
  import opened Sequences
  import M = MoodEntries
  import DS = DataStore

  /** The collection after `saveMood`: when the selected day already has an
      entry, the first one gets the slider's rating and the note, written back
      through `updateMoodEntry` (which replaces the first entry with that
      entry's identifier); otherwise a new entry is appended, built by the
      initializer with identifier `freshId`. */
  function SavedMoods(s: seq<M.MoodEntry>, sameDay: (Date, Date) -> bool, day: Date,
                      mood: int, note: string, freshId: Id): (r: seq<M.MoodEntry>)
    ensures |DS.OnDay(s, M.DateOf, sameDay, day)| > 0 ==> |r| == |s|
    ensures |DS.OnDay(s, M.DateOf, sameDay, day)| == 0 ==>
      |r| == |s| + 1 && r[..|s|] == s &&
      r[|s|].id == freshId && r[|s|].date == day && r[|s|].rating == M.Clamp(mood) && r[|s|].note == note
  {
    var existing := DS.OnDay(s, M.DateOf, sameDay, day);
    if |existing| > 0 then
      DS.ReplaceFirst(s, M.IdOf, existing[0].(rating := mood, note := note))
    else
      s + [M.NewMoodEntry(freshId, day, mood, note)]
  }

  /** With unique identifiers, saving over an existing day changes only the
      first entry of that day: its rating and note are replaced, unclamped,
      and its identifier and date are kept. */
  lemma SaveUpdatesFirstOnDay(s: seq<M.MoodEntry>, sameDay: (Date, Date) -> bool, day: Date,
                              mood: int, note: string, freshId: Id, k: int)
    requires DS.UniqueIds(s, M.IdOf) && DS.IsFirstOnDay(s, M.DateOf, sameDay, day, k)
    ensures SavedMoods(s, sameDay, day, mood, note, freshId) == s[k := s[k].(rating := mood, note := note)]
  {
    DS.OnDayHead(s, M.DateOf, sameDay, day);
    DS.ReplaceFirstUnique(s, M.IdOf, s[k].(rating := mood, note := note), k);
  }

  /** Saving keeps identifiers unique when the new entry's identifier is fresh. */
  lemma SaveKeepsUniqueIds(s: seq<M.MoodEntry>, sameDay: (Date, Date) -> bool, day: Date,
                           mood: int, note: string, freshId: Id)
    requires DS.UniqueIds(s, M.IdOf)
    requires forall j :: 0 <= j < |s| ==> s[j].id != freshId
    ensures DS.UniqueIds(SavedMoods(s, sameDay, day, mood, note, freshId), M.IdOf)
  {
    DS.OnDayHead(s, M.DateOf, sameDay, day);
    match DS.FirstOnDay(s, M.DateOf, sameDay, day)
    case None =>
      var r := SavedMoods(s, sameDay, day, mood, note, freshId);
      assert forall j :: 0 <= j < |s| ==> r[j] == s[j];
    case Some(k) =>
      SaveUpdatesFirstOnDay(s, sameDay, day, mood, note, freshId, k);
      DS.ReplaceFirstUnique(s, M.IdOf, s[k].(rating := mood, note := note), k);
  }

  /** Without unique identifiers, the update can land on an earlier entry of a
      different day: with two entries sharing one identifier, saving on the
      second one's day overwrites the first entry and leaves the second as it was. */
  lemma SaveWithSharedId(id: Id, freshId: Id)
    ensures var sameDay := (a: Date, b: Date) => a == b;
            var s := [M.MoodEntry(id, 0, 2, "a"), M.MoodEntry(id, 1, 4, "b")];
            SavedMoods(s, sameDay, 1, 5, "c", freshId) == [M.MoodEntry(id, 1, 5, "c"), M.MoodEntry(id, 1, 4, "b")]
  {
    var sameDay := (a: Date, b: Date) => a == b;
    var s := [M.MoodEntry(id, 0, 2, "a"), M.MoodEntry(id, 1, 4, "b")];
    DS.OnDayHead(s, M.DateOf, sameDay, 1);
    assert DS.IsFirstOnDay(s, M.DateOf, sameDay, 1, 1);
    assert DS.IsFirstWithId(s, M.IdOf, id, 0);
  }

  /** `loadMoodForSelectedDate` on the collection: the rating and note of the
      first entry on `day`, or the defaults 3 and "" when there is none. */
  function LoadedMood(s: seq<M.MoodEntry>, sameDay: (Date, Date) -> bool, day: Date): (r: (int, string))
    ensures (forall j :: 0 <= j < |s| ==> !sameDay(s[j].date, day)) ==> r == (M.DefaultRating, "")
    ensures forall k :: DS.IsFirstOnDay(s, M.DateOf, sameDay, day, k) ==> r == (s[k].rating, s[k].note)
  {
    var entries := DS.OnDay(s, M.DateOf, sameDay, day);
    DS.OnDayHead(s, M.DateOf, sameDay, day);
    if |entries| > 0 then
      (entries[0].rating, entries[0].note)
    else
      (M.DefaultRating, "")
  }

  /** Loading after saving gives back what was saved, when identifiers are
      unique and the rating is one the slider can produce. */
  lemma SaveThenLoad(s: seq<M.MoodEntry>, sameDay: (Date, Date) -> bool, day: Date,
                     mood: int, note: string, freshId: Id)
    requires DS.UniqueIds(s, M.IdOf) && sameDay(day, day) && M.OnScale(mood)
    ensures LoadedMood(SavedMoods(s, sameDay, day, mood, note, freshId), sameDay, day) == (mood, note)
  {
    var r := SavedMoods(s, sameDay, day, mood, note, freshId);
    DS.OnDayHead(s, M.DateOf, sameDay, day);
    match DS.FirstOnDay(s, M.DateOf, sameDay, day)
    case None =>
      assert DS.IsFirstOnDay(r, M.DateOf, sameDay, day, |s|);
    case Some(k) =>
      SaveUpdatesFirstOnDay(s, sameDay, day, mood, note, freshId, k);
      assert DS.IsFirstOnDay(r, M.DateOf, sameDay, day, k);
  }

  class DailyMoodView {
    const dataManager: DS.DataManager
    var currentMood: int
    var moodNote: string
    var showingConfirmation: bool
    var selectedDate: Date

    /** The screen's initial state: the middle of the scale, no note, today. */
    constructor(dataManager: DS.DataManager, today: Date)
      ensures this.dataManager == dataManager
      ensures currentMood == M.DefaultRating && moodNote == "" && !showingConfirmation
      ensures selectedDate == today
    {
      this.dataManager := dataManager;
      currentMood := M.DefaultRating;
      moodNote := "";
      showingConfirmation := false;
      selectedDate := today;
    }

    /** `saveMood`; `freshId` is the identifier the app would generate for a new entry. */
    method SaveMood(freshId: Id, sameDay: (Date, Date) -> bool)
      modifies this, dataManager
      ensures dataManager.moodEntries ==
        SavedMoods(old(dataManager.moodEntries), sameDay, selectedDate, currentMood, moodNote, freshId)
      ensures dataManager.celebrations == old(dataManager.celebrations)
      ensures showingConfirmation
      ensures currentMood == old(currentMood) && moodNote == old(moodNote) && selectedDate == old(selectedDate)
    {
      var entry := M.NewMoodEntry(freshId, selectedDate, currentMood, moodNote);
      var existingEntries := dataManager.GetMoodEntries(selectedDate, sameDay);
      if |existingEntries| > 0 {
        var updatedEntry := existingEntries[0].(rating := currentMood, note := moodNote);
        dataManager.UpdateMoodEntry(updatedEntry);
      } else {
        dataManager.AddMoodEntry(entry);
      }
      showingConfirmation := true;
    }

    /** `loadMoodForSelectedDate`. */
    method LoadMoodForSelectedDate(sameDay: (Date, Date) -> bool)
      modifies this
      ensures (currentMood, moodNote) == LoadedMood(dataManager.moodEntries, sameDay, selectedDate)
      ensures selectedDate == old(selectedDate) && showingConfirmation == old(showingConfirmation)
    {
      ghost var loaded := LoadedMood(dataManager.moodEntries, sameDay, selectedDate);
      var entries := dataManager.GetMoodEntries(selectedDate, sameDay);
      assert entries == DS.OnDay(dataManager.moodEntries, M.DateOf, sameDay, selectedDate);
      if |entries| > 0 {
        assert loaded == (entries[0].rating, entries[0].note);
        currentMood := entries[0].rating;
        moodNote := entries[0].note;
      } else {
        assert loaded == (M.DefaultRating, "");
        currentMood := M.DefaultRating;
        moodNote := "";
      }
    }
  }

  /** The `moodEmoji` computed property, as a function of the slider value. */
  function MoodEmoji(mood: int): (r: string)
    ensures r == M.Emoji(mood)
  {
    match mood
    case 1 => M.SadFace
    case 2 => M.ConfusedFace
    case 3 => M.NeutralFace
    case 4 => M.SlightlySmilingFace
    case 5 => M.SmilingFace
    case _ => M.NeutralFace
  }

  /** The `moodDescription` computed property, as a function of the slider value. */
  function MoodDescription(mood: int): (r: string)
    ensures r == M.MoodDescription(mood)
  {
    match mood
    case 1 => "Sad"
    case 2 => "Down"
    case 3 => "Neutral"
    case 4 => "Good"
    case 5 => "Great"
    case _ => "Neutral"
  }

  /** The remainder operator of the app's language, which truncates toward
      zero: the result has the sign of the dividend. */
  function TruncatingRemainder(a: int, n: int): (r: int)
    requires n > 0
    ensures -n < r < n
    ensures a >= 0 ==> r >= 0
    ensures a <= 0 ==> r <= 0
    ensures a >= 0 ==> r == a % n
    ensures a < 0 ==> -r == (-a) % n
  {
    if a >= 0 then a % n else -((-a) % n)
  }

  const Affirmations: seq<string> := [
    "You're doing amazing! Keep celebrating the small wins.",
    "Every step forward is progress, no matter how small.",
    "Your feelings are valid, and you're handling them well.",
    "Today is a new opportunity to be kind to yourself.",
    "Remember to celebrate your strengths and achievements.",
    "You have the power to make today a good day.",
    "Small moments of joy add up to a happy life.",
    "You're stronger than you think and braver than you believe.",
    "Take a moment to appreciate how far you've come.",
    "Your best is enough, and you're doing great."
  ]

  /** The affirmation chosen for a mood: index `(mood * 2) % 10`. */
  function AffirmationIndex(mood: int): (i: int)
    ensures mood >= 0 ==> 0 <= i < |Affirmations|
  {
    TruncatingRemainder(mood * 2, |Affirmations|)
  }

  /** Moods 1 to 5 pick affirmations 2, 4, 6, 8 and 0. */
  lemma AffirmationIndexOnScale()
    ensures AffirmationIndex(1) == 2 && AffirmationIndex(2) == 4 && AffirmationIndex(3) == 6
    ensures AffirmationIndex(4) == 8 && AffirmationIndex(5) == 0
  {
  }

  /** A negative mood whose double is not a multiple of ten gives a negative
      index, which the subscript rejects. */
  lemma AffirmationIndexNegative(mood: int)
    requires mood < 0 && (mood * 2) % 10 != 0
    ensures AffirmationIndex(mood) < 0
  {
  }

  /** `generateAffirmation`: nothing unless the selected date is today, else
      the affirmation at the mood's index. The subscript traps on a negative
      index, which only a negative mood can produce. */
  function GenerateAffirmation(mood: int, selectedDate: Date, now: Date, sameDay: (Date, Date) -> bool): (r: Option<string>)
    requires sameDay(selectedDate, now) ==> AffirmationIndex(mood) >= 0
    ensures r.Some? <==> sameDay(selectedDate, now)
    ensures r.Some? ==> r.value in Affirmations
  {
    if !sameDay(selectedDate, now) then None
    else Some(Affirmations[AffirmationIndex(mood)])
  }
}
