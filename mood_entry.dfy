/** A mood entry: one rating on the 1..5 scale, with a note, for one day. */
module MoodEntries {
  import opened Common

  /** `rating` is stored as given: only `NewMoodEntry` clamps it, and code that
      assigns the field directly (the mood screen's update path does) can leave
      it outside 1..5. */
  datatype MoodEntry = MoodEntry(id: Id, date: Date, rating: int, note: string)

  /** Key functions, so that the store's generic operations can be applied. */
  function IdOf(e: MoodEntry): Id { e.id }
  function DateOf(e: MoodEntry): Date { e.date }

  const MinRating := 1
  const MaxRating := 5
  const DefaultRating := 3

  predicate OnScale(rating: int) { MinRating <= rating <= MaxRating }

  /** `max(1, min(5, rating))`. */
  function Clamp(rating: int): (c: int)
    ensures OnScale(c)
    ensures OnScale(rating) ==> c == rating
    ensures rating < MinRating ==> c == MinRating
    ensures rating > MaxRating ==> c == MaxRating
  {
    if rating < MinRating then MinRating
    else if rating > MaxRating then MaxRating
    else rating
  }

  lemma ClampIdempotent(rating: int)
    ensures Clamp(Clamp(rating)) == Clamp(rating)
  {
  }

  /** The initializer: the identifier is a fresh UUID in the app and is supplied
      by the caller here; date and note are stored as given, the rating clamped. */
  function NewMoodEntry(id: Id, date: Date, rating: int, note: string): (e: MoodEntry)
    ensures e.id == id && e.date == date && e.note == note
    ensures OnScale(e.rating)
    ensures OnScale(rating) ==> e.rating == rating
    ensures e.rating == Clamp(rating)
  {
    MoodEntry(id, date, Clamp(rating), note)
  }

  /** The initializer with its default arguments: rating 3 and an empty note;
      `now` is the current date the app passes by default. */
  function DefaultMoodEntry(id: Id, now: Date): (e: MoodEntry)
    ensures e.id == id && e.date == now && e.rating == 3 && e.note == ""
  {
    NewMoodEntry(id, now, DefaultRating, "")
  }

  const SadFace := "\U{1F614}"
  const ConfusedFace := "\U{1F615}"
  const NeutralFace := "\U{1F610}"
  const SlightlySmilingFace := "\U{1F642}"
  const SmilingFace := "\U{1F60A}"

  /** The `emoji` computed property, as a function of the entry's rating. */
  function Emoji(rating: int): (r: string)
    ensures !OnScale(rating) ==> r == NeutralFace
    ensures |r| == 1
  {
    match rating
    case 1 => SadFace
    case 2 => ConfusedFace
    case 3 => NeutralFace
    case 4 => SlightlySmilingFace
    case 5 => SmilingFace
    case _ => NeutralFace
  }

  /** Ratings on the scale have five different faces. */
  lemma EmojiInjectiveOnScale(a: int, b: int)
    requires OnScale(a) && OnScale(b) && a != b
    ensures Emoji(a) != Emoji(b)
  {
    assert Emoji(a)[0] != Emoji(b)[0];
  }

  /** An off-scale rating shows the same face as the middle of the scale. */
  lemma EmojiOffScaleIsNeutral(rating: int)
    requires !OnScale(rating)
    ensures Emoji(rating) == Emoji(DefaultRating)
  {
  }

  /** The `moodDescription` computed property, as a function of the rating. */
  function MoodDescription(rating: int): (r: string)
    ensures !OnScale(rating) ==> r == "Neutral"
    ensures rating == 1 <==> r == "Sad"
    ensures rating == 2 <==> r == "Down"
    ensures rating == 4 <==> r == "Good"
    ensures rating == 5 <==> r == "Great"
    ensures rating == 3 || !OnScale(rating) <==> r == "Neutral"
  {
    match rating
    case 1 => "Sad"
    case 2 => "Down"
    case 3 => "Neutral"
    case 4 => "Good"
    case 5 => "Great"
    case _ => "Neutral"
  }

  /** Ratings on the scale have five different descriptions. */
  lemma MoodDescriptionInjectiveOnScale(a: int, b: int)
    requires OnScale(a) && OnScale(b) && a != b
    ensures MoodDescription(a) != MoodDescription(b)
  {
  }
}
