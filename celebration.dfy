/** A celebration: a titled, dated, categorised event that can be starred. */
module Celebrations {
  import opened Common

  /** The six categories; each is stored by its raw string label. */
  datatype Category = Personal | Work | Health | Relationship | Learning | Other

  /** The raw value each category is encoded as. */
  function RawValue(c: Category): (s: string)
    ensures |s| > 0
  {
    match c
    case Personal => "Personal"
    case Work => "Work"
    case Health => "Health"
    case Relationship => "Relationship"
    case Learning => "Learning"
    case Other => "Other"
  }

  /** Decoding a raw value: the category whose label it is, if there is one. */
  function FromRawValue(s: string): (r: Option<Category>)
    ensures r.Some? ==> RawValue(r.value) == s
  {
    if s == "Personal" then Some(Personal)
    else if s == "Work" then Some(Work)
    else if s == "Health" then Some(Health)
    else if s == "Relationship" then Some(Relationship)
    else if s == "Learning" then Some(Learning)
    else if s == "Other" then Some(Other)
    else None
  }

  /** Decoding inverts encoding. */
  lemma RawValueRoundTrip(c: Category)
    ensures FromRawValue(RawValue(c)) == Some(c)
  {
  }

  /** A string decodes exactly when it is some category's label. */
  lemma FromRawValueComplete(s: string)
    ensures FromRawValue(s).None? <==> forall c: Category :: RawValue(c) != s
  {
    if FromRawValue(s).None? {
      forall c: Category ensures RawValue(c) != s {
        RawValueRoundTrip(c);
      }
    }
  }

  /** Distinct categories have distinct labels. */
  lemma RawValueInjective(a: Category, b: Category)
    requires RawValue(a) == RawValue(b)
    ensures a == b
  {
    RawValueRoundTrip(a);
    RawValueRoundTrip(b);
  }

  /** Every category, in declaration order. */
  const AllCases: seq<Category> := [Personal, Work, Health, Relationship, Learning, Other]

  lemma AllCasesListsEachOnce()
    ensures |AllCases| == 6
    ensures forall c: Category :: c in AllCases
    ensures forall i, j :: 0 <= i < j < |AllCases| ==> AllCases[i] != AllCases[j]
  {
    forall c: Category ensures c in AllCases {
      match c
      case Personal => assert AllCases[0] == c;
      case Work => assert AllCases[1] == c;
      case Health => assert AllCases[2] == c;
      case Relationship => assert AllCases[3] == c;
      case Learning => assert AllCases[4] == c;
      case Other => assert AllCases[5] == c;
    }
  }

  /** The symbol name shown for each category. */
  function Icon(c: Category): (s: string)
    ensures |s| > 0
  {
    match c
    case Personal => "person.fill"
    case Work => "briefcase.fill"
    case Health => "heart.fill"
    case Relationship => "person.2.fill"
    case Learning => "book.fill"
    case Other => "star.fill"
  }

  /** Distinct categories have distinct icons. */
  lemma IconInjective(a: Category, b: Category)
    requires a != b
    ensures Icon(a) != Icon(b)
  {
    assert |Icon(a)| != |Icon(b)| || Icon(a)[0] != Icon(b)[0];
  }

  datatype Celebration = Celebration(
    id: Id,
    title: string,
    description: string,
    date: Date,
    category: Category,
    mediaURLs: seq<Url>,
    isStarred: bool)

  /** Key functions, so that the store's generic operations can be applied. */
  function IdOf(c: Celebration): Id { c.id }
  function DateOf(c: Celebration): Date { c.date }

  /** The initializer: every field is stored as given; the identifier is a fresh
      UUID in the app and is supplied by the caller here. */
  function NewCelebration(id: Id, title: string, description: string, date: Date,
                          category: Category, mediaURLs: seq<Url>, isStarred: bool): (c: Celebration)
    ensures c.id == id && c.title == title && c.description == description && c.date == date
    ensures c.category == category && c.mediaURLs == mediaURLs && c.isStarred == isStarred
  {
    Celebration(id, title, description, date, category, mediaURLs, isStarred)
  }

  /** The initializer with all its default arguments; `now` is the current date
      the app passes by default. */
  function DefaultCelebration(id: Id, now: Date): (c: Celebration)
    ensures c.id == id && c.title == "" && c.description == "" && c.date == now
    ensures c.category == Personal && c.mediaURLs == [] && !c.isStarred
  {
    NewCelebration(id, "", "", now, Personal, [], false)
  }
}
