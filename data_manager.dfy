/** The store: two ordered collections, one of mood entries and one of
    celebrations, with add, update, delete and same-day queries on each,
    star toggling on celebrations, time-window filters and the statistics
    built on them. */
module DataStore {
  import opened Common
  import opened Sequences
  import M = MoodEntries
  import C = Celebrations

  // ---------------------------------------------------------------------------
  // Looking records up by identifier (either record type)
  // ---------------------------------------------------------------------------

  /** `i` is the first position of `s` whose record has identifier `id`. */
  predicate IsFirstWithId<T>(s: seq<T>, idOf: T -> Id, id: Id, i: int)
  {
    0 <= i < |s| && idOf(s[i]) == id && forall j :: 0 <= j < i ==> idOf(s[j]) != id
  }

  /** `firstIndex(where: { $0.id == id })`. */
  function FirstWithId<T>(s: seq<T>, idOf: T -> Id, id: Id): (r: Option<nat>)
    ensures r.Some? ==> IsFirstWithId(s, idOf, id, r.value)
    ensures r.None? <==> forall j :: 0 <= j < |s| ==> idOf(s[j]) != id
  {
    FirstIndex(s, x => idOf(x) == id)
  }

  /** No two records of `s` share an identifier. The store does not enforce this. */
  ghost predicate UniqueIds<T>(s: seq<T>, idOf: T -> Id)
  {
    forall i, j :: 0 <= i < j < |s| ==> idOf(s[i]) != idOf(s[j])
  }

  /** With unique identifiers, the first record with a record's identifier is that record. */
  lemma FirstWithIdOfUnique<T>(s: seq<T>, idOf: T -> Id, k: int)
    requires UniqueIds(s, idOf) && 0 <= k < |s|
    ensures FirstWithId(s, idOf, idOf(s[k])) == Some(k)
  {
    var r := FirstWithId(s, idOf, idOf(s[k]));
    assert r.Some?;
    assert !(k < r.value);
    assert !(r.value < k);
  }

  // ---------------------------------------------------------------------------
  // update*, delete*, toggleStarCelebration, get*(for:), as functions of the collection
  // ---------------------------------------------------------------------------

  /** `update*`: the first record with the same identifier as `x` is replaced
      by `x`; with no such record nothing changes. */
  function ReplaceFirst<T>(s: seq<T>, idOf: T -> Id, x: T): (r: seq<T>)
    ensures |r| == |s|
    ensures (forall j :: 0 <= j < |s| ==> idOf(s[j]) != idOf(x)) ==> r == s
    ensures forall i :: IsFirstWithId(s, idOf, idOf(x), i) ==>
      r[i] == x && forall j :: 0 <= j < |s| && j != i ==> r[j] == s[j]
  {
    match FirstWithId(s, idOf, idOf(x))
    case None => s
    case Some(i) => s[i := x]
  }

  /** With unique identifiers, updating replaces the one record with that
      identifier, and the identifiers stay unique. */
  lemma ReplaceFirstUnique<T>(s: seq<T>, idOf: T -> Id, x: T, k: int)
    requires UniqueIds(s, idOf) && 0 <= k < |s| && idOf(s[k]) == idOf(x)
    ensures ReplaceFirst(s, idOf, x) == s[k := x]
    ensures UniqueIds(ReplaceFirst(s, idOf, x), idOf)
  {
    FirstWithIdOfUnique(s, idOf, k);
  }

  /** `delete*`: every record with identifier `id` is removed. */
  function RemoveAll<T(==,!new)>(s: seq<T>, idOf: T -> Id, id: Id): (r: seq<T>)
    ensures |r| <= |s|
    ensures forall x :: x in r <==> x in s && idOf(x) != id
  {
    Filter(s, x => idOf(x) != id)
  }

  /** Deleting removes every copy of a record with identifier `id` and keeps
      every other record as often as it occurred. */
  lemma RemoveAllMultiset<T(!new)>(s: seq<T>, idOf: T -> Id, id: Id)
    ensures forall x :: multiset(RemoveAll(s, idOf, id))[x] == if idOf(x) == id then 0 else multiset(s)[x]
  {
    FilterMultiset(s, x => idOf(x) != id);
  }

  /** Deleting keeps the remaining records in their original relative order. */
  lemma RemoveAllKeepsOrder<T(!new)>(a: seq<T>, b: seq<T>, idOf: T -> Id, id: Id)
    ensures RemoveAll(a + b, idOf, id) == RemoveAll(a, idOf, id) + RemoveAll(b, idOf, id)
  {
    FilterAppend(a, b, x => idOf(x) != id);
  }

  /** Deleting an identifier that is not present changes nothing. */
  lemma RemoveAllAbsent<T(!new)>(s: seq<T>, idOf: T -> Id, id: Id)
    requires forall j :: 0 <= j < |s| ==> idOf(s[j]) != id
    ensures RemoveAll(s, idOf, id) == s
  {
    FilterKeepsAll(s, x => idOf(x) != id);
  }

  /** `toggleStarCelebration`: the first celebration with identifier `id` has
      its star flipped and keeps every other field; nothing else changes. */
  function ToggleStar(s: seq<C.Celebration>, id: Id): (r: seq<C.Celebration>)
    ensures |r| == |s|
    ensures (forall j :: 0 <= j < |s| ==> s[j].id != id) ==> r == s
    ensures forall i :: IsFirstWithId(s, C.IdOf, id, i) ==>
      r[i].isStarred == !s[i].isStarred && r[i].(isStarred := s[i].isStarred) == s[i] &&
      forall j :: 0 <= j < |s| && j != i ==> r[j] == s[j]
  {
    match FirstWithId(s, C.IdOf, id)
    case None => s
    case Some(i) => s[i := s[i].(isStarred := !s[i].isStarred)]
  }

  /** Toggling the star twice restores the collection. */
  lemma ToggleStarTwice(s: seq<C.Celebration>, id: Id)
    ensures ToggleStar(ToggleStar(s, id), id) == s
  {
    var t := ToggleStar(s, id);
    match FirstWithId(s, C.IdOf, id)
    case None =>
    case Some(i) =>
      assert forall j :: 0 <= j < |s| ==> t[j].id == s[j].id;
      assert IsFirstWithId(t, C.IdOf, id, i);
      assert FirstWithId(t, C.IdOf, id) == Some(i);
  }

  /** Adding a celebration whose identifier is new and then toggling it stars
      (or unstars) exactly that celebration. */
  lemma AddThenToggle(s: seq<C.Celebration>, c: C.Celebration)
    requires forall j :: 0 <= j < |s| ==> s[j].id != c.id
    ensures ToggleStar(s + [c], c.id) == s + [c.(isStarred := !c.isStarred)]
  {
    assert IsFirstWithId(s + [c], C.IdOf, c.id, |s|);
  }

  /** `get*(for:)`: the records on the same calendar day as `day`, in collection order. */
  function OnDay<T(==,!new)>(s: seq<T>, dateOf: T -> Date, sameDay: (Date, Date) -> bool, day: Date): (r: seq<T>)
    ensures |r| <= |s|
    ensures forall x :: x in r <==> x in s && sameDay(dateOf(x), day)
  {
    Filter(s, x => sameDay(dateOf(x), day))
  }

  /** `k` is the position of the first record of `s` on the same day as `day`. */
  predicate IsFirstOnDay<T>(s: seq<T>, dateOf: T -> Date, sameDay: (Date, Date) -> bool, day: Date, k: int)
  {
    0 <= k < |s| && sameDay(dateOf(s[k]), day) && forall j :: 0 <= j < k ==> !sameDay(dateOf(s[j]), day)
  }

  /** The position of the first record of `s` on the same day as `day`, if any. */
  function FirstOnDay<T>(s: seq<T>, dateOf: T -> Date, sameDay: (Date, Date) -> bool, day: Date): (r: Option<nat>)
    ensures r.Some? ==> IsFirstOnDay(s, dateOf, sameDay, day, r.value)
    ensures r.None? <==> forall j :: 0 <= j < |s| ==> !sameDay(dateOf(s[j]), day)
  {
    FirstIndex(s, x => sameDay(dateOf(x), day))
  }

  lemma FirstOnDayUnique<T>(s: seq<T>, dateOf: T -> Date, sameDay: (Date, Date) -> bool, day: Date, k: int)
    requires IsFirstOnDay(s, dateOf, sameDay, day, k)
    ensures FirstOnDay(s, dateOf, sameDay, day) == Some(k)
  {
    var r := FirstOnDay(s, dateOf, sameDay, day);
    assert r.Some?;
    assert !(k < r.value);
    assert !(r.value < k);
  }

  /** The first record a same-day query returns is the first record of that day. */
  lemma OnDayHead<T(!new)>(s: seq<T>, dateOf: T -> Date, sameDay: (Date, Date) -> bool, day: Date)
    ensures |OnDay(s, dateOf, sameDay, day)| > 0 <==> FirstOnDay(s, dateOf, sameDay, day).Some?
    ensures forall k :: IsFirstOnDay(s, dateOf, sameDay, day, k) ==>
      FirstOnDay(s, dateOf, sameDay, day) == Some(k) && OnDay(s, dateOf, sameDay, day)[0] == s[k]
  {
    FilterHead(s, x => sameDay(dateOf(x), day));
    forall k | IsFirstOnDay(s, dateOf, sameDay, day, k)
      ensures FirstOnDay(s, dateOf, sameDay, day) == Some(k)
    {
      FirstOnDayUnique(s, dateOf, sameDay, day, k);
    }
  }

  /** A record added on a queried day is returned last by the query. */
  lemma AddThenQuery<T(!new)>(s: seq<T>, x: T, dateOf: T -> Date, sameDay: (Date, Date) -> bool, day: Date)
    requires sameDay(dateOf(x), day)
    ensures OnDay(s + [x], dateOf, sameDay, day) == OnDay(s, dateOf, sameDay, day) + [x]
  {
    FilterAppend(s, [x], y => sameDay(dateOf(y), day));
  }

  // ---------------------------------------------------------------------------
  // Time windows
  // ---------------------------------------------------------------------------

  datatype TimeRange = Day | Week | Month | Year | All

  /** The calendar components the window starts are computed in. */
  datatype Component = Days | Months | Years

  /** The start of a week, month or year window: `now` moved back seven days,
      one month or one year by the calendar's `dateByAdding`, which may fail. */
  function WindowStart(range: TimeRange, dateByAdding: (Component, int) -> Option<Date>): (r: Option<Date>)
    requires range.Week? || range.Month? || range.Year?
    ensures range.Week? ==> r == dateByAdding(Days, -7)
    ensures range.Month? ==> r == dateByAdding(Months, -1)
    ensures range.Year? ==> r == dateByAdding(Years, -1)
  {
    match range
    case Week => dateByAdding(Days, -7)
    case Month => dateByAdding(Months, -1)
    case Year => dateByAdding(Years, -1)
  }

  /** `filterMoodEntries(by:)` and `filterCelebrations(by:)`. `now` is the
      current date, `sameDay` the calendar's same-day test and `dateByAdding`
      the calendar's date arithmetic applied to `now`. */
  function WindowFilter<T(==,!new)>(s: seq<T>, dateOf: T -> Date, range: TimeRange, now: Date,
                                    sameDay: (Date, Date) -> bool,
                                    dateByAdding: (Component, int) -> Option<Date>): (r: seq<T>)
    ensures |r| <= |s|
    ensures forall x :: x in r ==> x in s
    ensures range.All? ==> r == s
    ensures range.Day? ==> forall x :: x in r <==> x in s && sameDay(dateOf(x), now)
    ensures (range.Week? || range.Month? || range.Year?) ==>
      match WindowStart(range, dateByAdding)
      case None => r == []
      case Some(start) => forall x :: x in r <==> x in s && start <= dateOf(x) <= now
  {
    match range
    case Day => Filter(s, x => sameDay(dateOf(x), now))
    case All => s
    case _ =>
      match WindowStart(range, dateByAdding)
      case None => []
      case Some(start) => Filter(s, x => start <= dateOf(x) <= now)
  }

  /** A window holds each record at most as often as the collection does. */
  lemma WindowFilterSubMultiset<T(!new)>(s: seq<T>, dateOf: T -> Date, range: TimeRange, now: Date,
                                         sameDay: (Date, Date) -> bool,
                                         dateByAdding: (Component, int) -> Option<Date>)
    ensures forall x :: multiset(WindowFilter(s, dateOf, range, now, sameDay, dateByAdding))[x] <= multiset(s)[x]
  {
    match range
    case Day => FilterMultiset(s, x => sameDay(dateOf(x), now));
    case All =>
    case _ =>
      match WindowStart(range, dateByAdding)
      case None =>
      case Some(start) => FilterMultiset(s, x => start <= dateOf(x) <= now);
  }

  /** Window filters keep collection order. */
  lemma WindowFilterKeepsOrder<T(!new)>(a: seq<T>, b: seq<T>, dateOf: T -> Date, range: TimeRange, now: Date,
                                        sameDay: (Date, Date) -> bool,
                                        dateByAdding: (Component, int) -> Option<Date>)
    ensures WindowFilter(a + b, dateOf, range, now, sameDay, dateByAdding)
         == WindowFilter(a, dateOf, range, now, sameDay, dateByAdding)
          + WindowFilter(b, dateOf, range, now, sameDay, dateByAdding)
  {
    match range
    case Day => FilterAppend(a, b, x => sameDay(dateOf(x), now));
    case All =>
    case _ =>
      match WindowStart(range, dateByAdding)
      case None =>
      case Some(start) => FilterAppend(a, b, x => start <= dateOf(x) <= now);
  }

  // ---------------------------------------------------------------------------
  // Statistics over a filtered collection
  // ---------------------------------------------------------------------------

  ghost predicate AllOnScale(s: seq<M.MoodEntry>)
  {
    forall i :: 0 <= i < |s| ==> M.OnScale(s[i].rating)
  }

  /** The sum of the ratings, folded from the left as `reduce` does. With
      every rating on the scale it lies between one and five per entry. */
  function RatingSum(s: seq<M.MoodEntry>): (sum: int)
    ensures |s| == 0 ==> sum == 0
    ensures AllOnScale(s) ==> |s| * M.MinRating <= sum <= |s| * M.MaxRating
  {
    if |s| == 0 then 0 else RatingSum(s[..|s| - 1]) + s[|s| - 1].rating
  }

  /** The sum of a concatenation is the sum of the parts: the fold's grouping
      does not matter. */
  lemma {:induction false} RatingSumAppend(a: seq<M.MoodEntry>, b: seq<M.MoodEntry>)
    ensures RatingSum(a + b) == RatingSum(a) + RatingSum(b)
  {
    if |b| > 0 {
      var ab := a + b;
      assert ab[..|ab| - 1] == a + b[..|b| - 1];
      assert ab[|ab| - 1] == b[|b| - 1];
      RatingSumAppend(a, b[..|b| - 1]);
    } else {
      assert a + b == a;
    }
  }

  /** `getAverageMood` on the filtered entries: zero when there are none,
      otherwise the sum of the ratings divided by their number. */
  function AverageMood(s: seq<M.MoodEntry>): (avg: real)
    ensures |s| == 0 ==> avg == 0.0
    ensures |s| > 0 ==> avg * (|s| as real) == RatingSum(s) as real
  {
    if |s| == 0 then 0.0 else RatingSum(s) as real / |s| as real
  }

  /** When every rating is on the scale, so is a non-empty average. */
  lemma AverageOnScale(s: seq<M.MoodEntry>)
    requires AllOnScale(s) && |s| > 0
    ensures M.MinRating as real <= AverageMood(s) <= M.MaxRating as real
  {
    QuotientBounds(RatingSum(s) as real, |s| as real);
  }

  lemma QuotientBounds(x: real, n: real)
    requires n > 0.0 && n <= x <= 5.0 * n
    ensures 1.0 <= x / n <= 5.0
  {
    var q := x / n;
    assert q * n == x;
    assert (q - 1.0) * n == x - n;
    assert (5.0 - q) * n == 5.0 * n - x;
  }

  /** Ratings 2, 4 and 4 average to 10/3. */
  lemma AverageExample(a: Id, b: Id, c: Id, d: Date)
    ensures AverageMood([M.MoodEntry(a, d, 2, ""), M.MoodEntry(b, d, 4, ""), M.MoodEntry(c, d, 4, "")]) == 10.0 / 3.0
  {
    var e1, e2, e3 := M.MoodEntry(a, d, 2, ""), M.MoodEntry(b, d, 4, ""), M.MoodEntry(c, d, 4, "");
    assert [e1, e2, e3][..2] == [e1, e2];
    assert [e1, e2][..1] == [e1];
    assert [e1][..0] == [];
    assert RatingSum([e1]) == 2;
    assert RatingSum([e1, e2]) == 6;
    assert RatingSum([e1, e2, e3]) == 10;
  }

  /** The number of entries with rating `k`. */
  function RatingCount(s: seq<M.MoodEntry>, k: int): (n: nat)
    ensures n <= |s|
  {
    if |s| == 0 then 0 else RatingCount(s[..|s| - 1], k) + (if s[|s| - 1].rating == k then 1 else 0)
  }

  /** Counting over a concatenation adds the counts of the parts. */
  lemma {:induction false} RatingCountAppend(a: seq<M.MoodEntry>, b: seq<M.MoodEntry>, k: int)
    ensures RatingCount(a + b, k) == RatingCount(a, k) + RatingCount(b, k)
  {
    if |b| > 0 {
      var ab := a + b;
      assert ab[..|ab| - 1] == a + b[..|b| - 1];
      assert ab[|ab| - 1] == b[|b| - 1];
      RatingCountAppend(a, b[..|b| - 1], k);
    } else {
      assert a + b == a;
    }
  }

  /** A rating is counted zero times exactly when no entry has it. */
  lemma {:induction false} RatingCountZero(s: seq<M.MoodEntry>, k: int)
    ensures RatingCount(s, k) == 0 <==> forall i :: 0 <= i < |s| ==> s[i].rating != k
  {
    if |s| > 0 {
      RatingCountZero(s[..|s| - 1], k);
      assert forall i :: 0 <= i < |s| - 1 ==> s[..|s| - 1][i] == s[i];
    }
  }

  /** The ratings that occur in `s`. */
  function Ratings(s: seq<M.MoodEntry>): set<int>
  {
    if |s| == 0 then {} else Ratings(s[..|s| - 1]) + {s[|s| - 1].rating}
  }

  lemma {:induction false} RatingsAreCounted(s: seq<M.MoodEntry>, k: int)
    ensures k in Ratings(s) <==> RatingCount(s, k) > 0
  {
    if |s| > 0 {
      RatingsAreCounted(s[..|s| - 1], k);
    }
  }

  const ScaleKeys: set<int> := {1, 2, 3, 4, 5}

  /** `getMoodDistribution` on the filtered entries: the keys 1 to 5, with any
      other rating that occurs, each mapped to the number of entries with it. */
  function Distribution(s: seq<M.MoodEntry>): (d: map<int, int>)
    ensures ScaleKeys <= d.Keys
  {
    map k | k in ScaleKeys + Ratings(s) :: RatingCount(s, k)
  }

  /** Every rating that occurs is a key, every value is the number of entries
      with its key, and a key outside 1 to 5 is there only because some entry
      has it. */
  lemma DistributionCounts(s: seq<M.MoodEntry>)
    ensures forall i :: 0 <= i < |s| ==> s[i].rating in Distribution(s)
    ensures forall k :: k in Distribution(s) ==> Distribution(s)[k] == RatingCount(s, k)
    ensures forall k :: k in Distribution(s) && k !in ScaleKeys ==> Distribution(s)[k] > 0
  {
    RatingsOfEntries(s);
  }

  lemma {:induction false} RatingCountsTotal(s: seq<M.MoodEntry>)
    requires AllOnScale(s)
    ensures RatingCount(s, 1) + RatingCount(s, 2) + RatingCount(s, 3) + RatingCount(s, 4) + RatingCount(s, 5) == |s|
    ensures Ratings(s) <= ScaleKeys
  {
    if |s| > 0 {
      RatingCountsTotal(s[..|s| - 1]);
    }
  }

  /** With every rating on the scale, the distribution has exactly the keys
      1 to 5 and its counts add up to the number of entries. */
  lemma DistributionOnScale(s: seq<M.MoodEntry>)
    requires AllOnScale(s)
    ensures Distribution(s).Keys == ScaleKeys
    ensures Distribution(s)[1] + Distribution(s)[2] + Distribution(s)[3] + Distribution(s)[4] + Distribution(s)[5] == |s|
  {
    RatingCountsTotal(s);
  }

  /** A rating off the scale adds a sixth key. */
  lemma DistributionOffScaleKey(s: seq<M.MoodEntry>, i: int)
    requires 0 <= i < |s| && !M.OnScale(s[i].rating)
    ensures s[i].rating in Distribution(s) && s[i].rating !in ScaleKeys
    ensures |Distribution(s).Keys| > 5
  {
    RatingsMember(s, i);
    var keys := Distribution(s).Keys;
    assert keys == ScaleKeys + Ratings(s);
    assert ScaleKeys + {s[i].rating} <= keys;
    assert |ScaleKeys + {s[i].rating}| == 6;
    SubsetCardinality(ScaleKeys + {s[i].rating}, keys);
  }

  /** The ratings that occur are exactly those with a positive count. */
  lemma RatingsOfEntries(s: seq<M.MoodEntry>)
    ensures forall i :: 0 <= i < |s| ==> s[i].rating in Ratings(s)
    ensures forall k :: k in Ratings(s) ==> RatingCount(s, k) > 0
  {
    forall i | 0 <= i < |s| ensures s[i].rating in Ratings(s) {
      RatingsMember(s, i);
    }
    forall k | k in Ratings(s) ensures RatingCount(s, k) > 0 {
      RatingsAreCounted(s, k);
    }
  }

  lemma {:induction false} RatingsMember(s: seq<M.MoodEntry>, i: int)
    requires 0 <= i < |s|
    ensures s[i].rating in Ratings(s)
  {
    if i < |s| - 1 {
      RatingsMember(s[..|s| - 1], i);
    }
  }

  lemma SubsetCardinality(a: set<int>, b: set<int>)
    requires a <= b
    ensures |a| <= |b|
  {
    assert b == a + (b - a);
  }

  /** Ratings 1, 1 and 3 give {1: 2, 2: 0, 3: 1, 4: 0, 5: 0}. */
  lemma DistributionExample(a: Id, b: Id, c: Id, d: Date)
    ensures Distribution([M.MoodEntry(a, d, 1, ""), M.MoodEntry(b, d, 1, ""), M.MoodEntry(c, d, 3, "")])
         == map[1 := 2, 2 := 0, 3 := 1, 4 := 0, 5 := 0]
  {
    var e1, e2, e3 := M.MoodEntry(a, d, 1, ""), M.MoodEntry(b, d, 1, ""), M.MoodEntry(c, d, 3, "");
    DistributionEmpty();
    DistributionSnoc([], e1);
    assert [] + [e1] == [e1];
    assert Distribution([e1]) == map[1 := 1, 2 := 0, 3 := 0, 4 := 0, 5 := 0];
    DistributionSnoc([e1], e2);
    assert [e1] + [e2] == [e1, e2];
    assert Distribution([e1, e2]) == map[1 := 2, 2 := 0, 3 := 0, 4 := 0, 5 := 0];
    DistributionSnoc([e1, e2], e3);
    assert [e1, e2] + [e3] == [e1, e2, e3];
  }

  /** Counting one more entry increments the count of its rating, adding the key if needed. */
  lemma DistributionSnoc(s: seq<M.MoodEntry>, e: M.MoodEntry)
    ensures Distribution(s + [e]) ==
      Distribution(s)[e.rating := (if e.rating in Distribution(s) then Distribution(s)[e.rating] else 0) + 1]
  {
    var t := s + [e];
    assert t[..|t| - 1] == s;
    RatingsAreCounted(s, e.rating);
  }

  method Tally(entries: seq<M.MoodEntry>) returns (d: map<int, int>)
    ensures d == Distribution(entries)
  {
    d := map[1 := 0, 2 := 0, 3 := 0, 4 := 0, 5 := 0];
    DistributionEmpty();
    assert entries[..0] == [];
    for i := 0 to |entries|
      invariant d == Distribution(entries[..i])
    {
      var rating := entries[i].rating;
      DistributionSnoc(entries[..i], entries[i]);
      assert entries[..i + 1] == entries[..i] + [entries[i]];
      d := d[rating := (if rating in d then d[rating] else 0) + 1];
    }
    assert entries[..|entries|] == entries;
  }

  /** The distribution of no entries: the five keys, all zero. */
  lemma DistributionEmpty()
    ensures Distribution([]) == map[1 := 0, 2 := 0, 3 := 0, 4 := 0, 5 := 0]
  {
  }

  // ---------------------------------------------------------------------------
  // The store object
  // ---------------------------------------------------------------------------

  /** What reading a backing file at start-up gives: no readable file, a file
      that does not decode, or the decoded records. */
  datatype Stored<T> = Missing | Corrupt | Decoded(records: seq<T>)

  /** The ranges the statistics use when the caller gives none. */

  class DataManager {
    var moodEntries: seq<M.MoodEntry>
    var celebrations: seq<C.Celebration>

    /** Loads both collections; a missing or undecodable file gives an empty one. */
    constructor(moodFile: Stored<M.MoodEntry>, celebrationFile: Stored<C.Celebration>)
      ensures moodEntries == if moodFile.Decoded? then moodFile.records else []
      ensures celebrations == if celebrationFile.Decoded? then celebrationFile.records else []
    {
      moodEntries := if moodFile.Decoded? then moodFile.records else [];
      celebrations := if celebrationFile.Decoded? then celebrationFile.records else [];
    }

    method AddMoodEntry(entry: M.MoodEntry)
      modifies this
      ensures moodEntries == old(moodEntries) + [entry]
      ensures celebrations == old(celebrations)
    {
      moodEntries := moodEntries + [entry];
    }

    method UpdateMoodEntry(entry: M.MoodEntry)
      modifies this
      ensures moodEntries == ReplaceFirst(old(moodEntries), M.IdOf, entry)
      ensures celebrations == old(celebrations)
    {
      var index := FirstWithId(moodEntries, M.IdOf, entry.id);
      if index.Some? {
        moodEntries := moodEntries[index.value := entry];
      }
    }

    method DeleteMoodEntry(entry: M.MoodEntry)
      modifies this
      ensures moodEntries == RemoveAll(old(moodEntries), M.IdOf, entry.id)
      ensures celebrations == old(celebrations)
    {
      moodEntries := RemoveAll(moodEntries, M.IdOf, entry.id);
    }

    function GetMoodEntries(date: Date, sameDay: (Date, Date) -> bool): (r: seq<M.MoodEntry>)
      reads this
      ensures forall e :: e in r <==> e in moodEntries && sameDay(e.date, date)
    {
      OnDay(moodEntries, M.DateOf, sameDay, date)
    }

    method AddCelebration(celebration: C.Celebration)
      modifies this
      ensures celebrations == old(celebrations) + [celebration]
      ensures moodEntries == old(moodEntries)
    {
      celebrations := celebrations + [celebration];
    }

    method UpdateCelebration(celebration: C.Celebration)
      modifies this
      ensures celebrations == ReplaceFirst(old(celebrations), C.IdOf, celebration)
      ensures moodEntries == old(moodEntries)
    {
      var index := FirstWithId(celebrations, C.IdOf, celebration.id);
      if index.Some? {
        celebrations := celebrations[index.value := celebration];
      }
    }

    method DeleteCelebration(celebration: C.Celebration)
      modifies this
      ensures celebrations == RemoveAll(old(celebrations), C.IdOf, celebration.id)
      ensures moodEntries == old(moodEntries)
    {
      celebrations := RemoveAll(celebrations, C.IdOf, celebration.id);
    }

    function GetCelebrations(date: Date, sameDay: (Date, Date) -> bool): (r: seq<C.Celebration>)
      reads this
      ensures forall c :: c in r <==> c in celebrations && sameDay(c.date, date)
    {
      OnDay(celebrations, C.DateOf, sameDay, date)
    }

    method ToggleStarCelebration(celebration: C.Celebration)
      modifies this
      ensures celebrations == ToggleStar(old(celebrations), celebration.id)
      ensures moodEntries == old(moodEntries)
    {
      var index := FirstWithId(celebrations, C.IdOf, celebration.id);
      if index.Some? {
        var i := index.value;
        celebrations := celebrations[i := celebrations[i].(isStarred := !celebrations[i].isStarred)];
      }
    }

    function GetAverageMood(range: TimeRange, now: Date, sameDay: (Date, Date) -> bool,
                            dateByAdding: (Component, int) -> Option<Date>): (avg: real)
      reads this
      ensures |WindowFilter(moodEntries, M.DateOf, range, now, sameDay, dateByAdding)| == 0 ==> avg == 0.0
      ensures AllOnScale(moodEntries) && |WindowFilter(moodEntries, M.DateOf, range, now, sameDay, dateByAdding)| > 0
              ==> 1.0 <= avg <= 5.0
    {
      var filtered := WindowFilter(moodEntries, M.DateOf, range, now, sameDay, dateByAdding);
      FilteredAverageOnScale(moodEntries, filtered);
      AverageMood(filtered)
    }

    method GetMoodDistribution(range: TimeRange, now: Date, sameDay: (Date, Date) -> bool,
                               dateByAdding: (Component, int) -> Option<Date>) returns (d: map<int, int>)
      ensures d == Distribution(WindowFilter(moodEntries, M.DateOf, range, now, sameDay, dateByAdding))
    {
      var filtered := WindowFilter(moodEntries, M.DateOf, range, now, sameDay, dateByAdding);
      d := Tally(filtered);
    }

    function GetCelebrationCount(range: TimeRange, now: Date, sameDay: (Date, Date) -> bool,
                                 dateByAdding: (Component, int) -> Option<Date>): (n: nat)
      reads this
      ensures n <= |celebrations|
      ensures range.All? ==> n == |celebrations|
    {
      |WindowFilter(celebrations, C.DateOf, range, now, sameDay, dateByAdding)|
    }
  }

  /** Entries drawn from a collection whose ratings are all on the scale
      average to a value on the scale. */
  lemma FilteredAverageOnScale(s: seq<M.MoodEntry>, r: seq<M.MoodEntry>)
    requires forall x :: x in r ==> x in s
    ensures AllOnScale(s) && |r| > 0 ==> 1.0 <= AverageMood(r) <= 5.0
  {
    if AllOnScale(s) && |r| > 0 {
      forall i | 0 <= i < |r| ensures M.OnScale(r[i].rating) {
        assert r[i] in s;
      }
      AverageOnScale(r);
    }
  }
}
