/** Bucket-list items: a shared wish-list entry whose completion flag and
    completion date move together, and the eight categories with their raw
    values, icons and colours. */
module BucketItems {
  import opened Common
  import opened Uuids

  datatype BucketCategory = Travel | Adventure | Food | Learning | Creative | Fitness | Relationship | Other

  /** The `String` raw value of each category (the one stored remotely). */
  function RawValue(c: BucketCategory): string
  {
    match c
    case Travel => "Travel"
    case Adventure => "Adventure"
    case Food => "Food"
    case Learning => "Learning"
    case Creative => "Creative"
    case Fitness => "Fitness"
    case Relationship => "Together"
    case Other => "Other"
  }

  /** `BucketCategory(rawValue:)`. */
  function ParseCategory(raw: string): (r: Option<BucketCategory>)
    ensures r.Some? ==> RawValue(r.value) == raw
  {
    if raw == "Travel" then Some(Travel)
    else if raw == "Adventure" then Some(Adventure)
    else if raw == "Food" then Some(Food)
    else if raw == "Learning" then Some(Learning)
    else if raw == "Creative" then Some(Creative)
    else if raw == "Fitness" then Some(Fitness)
    else if raw == "Together" then Some(Relationship)
    else if raw == "Other" then Some(Other)
    else None
  }

  /** Parsing a raw value gives back its case; with the ensures of
      `ParseCategory` this makes the eight raw values pairwise distinct. */
  lemma ParseRawValue(c: BucketCategory)
    ensures ParseCategory(RawValue(c)) == Some(c)
  {
  }

  lemma RawValueInjective(a: BucketCategory, b: BucketCategory)
    requires RawValue(a) == RawValue(b)
    ensures a == b
  {
    ParseRawValue(a);
    ParseRawValue(b);
  }

  /** The SF Symbol name shown for a category. */
  function Icon(c: BucketCategory): string
  {
    match c
    case Travel => "airplane"
    case Adventure => "mountain.2"
    case Food => "fork.knife"
    case Learning => "book"
    case Creative => "paintbrush"
    case Fitness => "figure.run"
    case Relationship => "heart.circle"
    case Other => "star"
  }

  datatype Rgb = Rgb(red: real, green: real, blue: real)

  /** The colour of a category. */
  function Color(c: BucketCategory): Rgb
  {
    match c
    case Travel => Rgb(0.3, 0.5, 0.9)
    case Adventure => Rgb(0.9, 0.5, 0.3)
    case Food => Rgb(0.9, 0.3, 0.5)
    case Learning => Rgb(0.6, 0.4, 0.9)
    case Creative => Rgb(0.9, 0.6, 0.3)
    case Fitness => Rgb(0.3, 0.8, 0.5)
    case Relationship => Rgb(0.95, 0.4, 0.5)
    case Other => Rgb(0.5, 0.5, 0.5)
  }

  /** No two categories share an icon or a colour, so both identify the
      category on screen. */
  lemma IconAndColorIdentifyCategory(a: BucketCategory, b: BucketCategory)
    requires Icon(a) == Icon(b) || Color(a) == Color(b)
    ensures a == b
  {
  }

  /** The persisted fields of a bucket item. */
  datatype BucketItemData = BucketItemData(
    id: Uuid,
    createdAt: Time,
    title: string,
    description: Option<string>,
    isCompleted: bool,
    completedAt: Option<Time>,
    addedBy: string,
    category: BucketCategory,
    priority: int)

  /** The completion flag and the completion date agree. */
  predicate CompletionConsistent(d: BucketItemData) {
    d.isCompleted <==> d.completedAt.Some?
  }

  /** Everything but the completion state is the same. */
  predicate SameDetails(a: BucketItemData, b: BucketItemData) {
    a.id == b.id && a.createdAt == b.createdAt && a.title == b.title
    && a.description == b.description && a.addedBy == b.addedBy
    && a.category == b.category && a.priority == b.priority
  }

  /** `BucketItem.init`: a new item starts open, with no completion date. */
  function NewItem(id: Uuid, now: Time, title: string, description: Option<string>, addedBy: string,
                   category: BucketCategory, priority: int): (d: BucketItemData)
    ensures !d.isCompleted && d.completedAt == None && CompletionConsistent(d)
    ensures d.id == id && d.createdAt == now && d.title == title && d.description == description
    ensures d.addedBy == addedBy && d.category == category && d.priority == priority
  {
    BucketItemData(id, now, title, description, false, None, addedBy, category, priority)
  }

  /** The effect of `complete()` at time `now`. */
  function Completed(d: BucketItemData, now: Time): (r: BucketItemData)
    ensures r.isCompleted && r.completedAt == Some(now)
    ensures CompletionConsistent(r) && SameDetails(r, d)
  {
    d.(isCompleted := true, completedAt := Some(now))
  }

  /** The effect of `uncomplete()`. */
  function Uncompleted(d: BucketItemData): (r: BucketItemData)
    ensures !r.isCompleted && r.completedAt == None
    ensures CompletionConsistent(r) && SameDetails(r, d)
  {
    d.(isCompleted := false, completedAt := None)
  }

  /** Uncompleting twice is uncompleting once. */
  lemma UncompleteIdempotent(d: BucketItemData)
    ensures Uncompleted(Uncompleted(d)) == Uncompleted(d)
  {
  }

  /** Completing and then uncompleting a new item gives the new item back. */
  lemma CompleteThenUncompleteRestoresNew(id: Uuid, now: Time, later: Time, title: string,
                                          description: Option<string>, addedBy: string,
                                          category: BucketCategory, priority: int)
    ensures var d := NewItem(id, now, title, description, addedBy, category, priority);
            Uncompleted(Completed(d, later)) == d
  {
  }

  class BucketItem {
    var id: Uuid
    var createdAt: Time
    var title: string
    var description: Option<string>
    var isCompleted: bool
    var completedAt: Option<Time>
    var addedBy: string
    var category: BucketCategory
    var priority: int

    function Data(): BucketItemData
      reads this
    {
      BucketItemData(id, createdAt, title, description, isCompleted, completedAt, addedBy, category, priority)
    }

    /** `init(title:description:addedBy:category:priority:)`; the generated id
        and the current time are parameters. */
    constructor (id: Uuid, now: Time, title: string, description: Option<string> := None, addedBy: string,
                 category: BucketCategory, priority: int := 2)
      ensures Data() == NewItem(id, now, title, description, addedBy, category, priority)
    {
      this.id := id;
      this.createdAt := now;
      this.title := title;
      this.description := description;
      this.isCompleted := false;
      this.completedAt := None;
      this.addedBy := addedBy;
      this.category := category;
      this.priority := priority;
    }

    method Complete(now: Time)
      modifies this
      ensures Data() == Completed(old(Data()), now)
    {
      isCompleted := true;
      completedAt := Some(now);
    }

    method Uncomplete()
      modifies this
      ensures Data() == Uncompleted(old(Data()))
    {
      isCompleted := false;
      completedAt := None;
    }
  }
}
