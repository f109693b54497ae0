/** The bucket-list screens: the list, whose rows toggle an item's
    completion, and the two "add item" sheets (the simplified one the list
    opens, and the full one with a priority picker). Both sheets accept a
    title of 1 to 60 characters and a description of at most 200. */
module BucketList {
  import opened Common
  import opened Uuids
  import opened BucketItems
  import opened SyncFields
  import opened FirebaseSync

  const MaxTitleChars := 60
  const MaxDescChars := 200

  // ---------------------------------------------------------------------
  // Toggling an item
  // ---------------------------------------------------------------------

  /** The effect of `toggleItem` at time `now`: a completed item is
      uncompleted, an open one completed. */
  function Toggled(d: BucketItemData, now: Time): (r: BucketItemData)
    ensures r.isCompleted == !d.isCompleted
    ensures CompletionConsistent(r) && SameDetails(r, d)
    ensures r.completedAt == if d.isCompleted then None else Some(now)
  {
    if d.isCompleted then Uncompleted(d) else Completed(d, now)
  }

  /** Toggling twice gives back the completion flag and whether there is a
      completion date; an open item comes back exactly as it was. */
  lemma ToggleTwice(d: BucketItemData, t1: Time, t2: Time)
    requires CompletionConsistent(d)
    ensures Toggled(Toggled(d, t1), t2).isCompleted == d.isCompleted
    ensures Toggled(Toggled(d, t1), t2).completedAt.Some? == d.completedAt.Some?
    ensures SameDetails(Toggled(Toggled(d, t1), t2), d)
    ensures !d.isCompleted ==> Toggled(Toggled(d, t1), t2) == d
  {
    var once := Toggled(d, t1);
    assert once.isCompleted == !d.isCompleted;
  }

  /** `toggleItem(_:)`: the item goes through `complete()` or `uncomplete()`
      and is then written to its remote document. */
  method ToggleItem(item: BucketItem, now: Time, manager: FirebaseManager)
    modifies item, manager
    ensures item.Data() == Toggled(old(item.Data()), now)
    ensures manager.remote == SetData(old(manager.remote), "bucketItems", UuidString(item.id),
                                      BucketItemFields(item.Data()))
    ensures manager.currentUserName == old(manager.currentUserName) && manager.fcmToken == old(manager.fcmToken)
  {
    if item.isCompleted {
      item.Uncomplete();
    } else {
      item.Complete(now);
    }
    manager.SyncBucketItem(item);
  }

  // ---------------------------------------------------------------------
  // The "add item" sheets
  // ---------------------------------------------------------------------

  /** `canSave` of both sheets. */
  function CanSave(title: string, description: string): bool
  {
    title != "" && |title| <= MaxTitleChars && |description| <= MaxDescChars
  }

  /** The item a sheet inserts: an empty description is stored as nil, and
      the item is added by the current user. */
  function SavedItem(id: Uuid, now: Time, myName: string, title: string, description: string,
                     category: BucketCategory, priority: int): (d: BucketItemData)
    ensures d.description.None? <==> description == ""
    ensures d.description.Some? ==> d.description.value == description
    ensures d.title == title && d.addedBy == myName && d.category == category && d.priority == priority
    ensures d.id == id && d.createdAt == now && !d.isCompleted && d.completedAt == None
  {
    NewItem(id, now, title, if description == "" then None else Some(description), myName, category, priority)
  }

  /** What a sheet allows to be saved has a title of 1 to 60 characters and
      either no description or one of 1 to 200 characters, and is open. */
  lemma SaveAllowedOnlyWithinLimits(id: Uuid, now: Time, myName: string, title: string, description: string,
                                    category: BucketCategory, priority: int)
    requires CanSave(title, description)
    ensures var d := SavedItem(id, now, myName, title, description, category, priority);
            && 0 < |d.title| <= MaxTitleChars
            && (d.description.Some? ==> 0 < |d.description.value| <= MaxDescChars)
            && CompletionConsistent(d) && !d.isCompleted
  {
  }

  /** The simplified sheet of the list screen. */
  class SimplifiedAddForm {
    const myName: string
    var title: string
    var description: string
    var selectedCategory: BucketCategory

    constructor (myName: string)
      ensures this.myName == myName && title == "" && description == "" && selectedCategory == Relationship
    {
      this.myName := myName;
      title, description, selectedCategory := "", "", Relationship;
    }

    function CanSaveNow(): bool
      reads this
    {
      CanSave(title, description)
    }

    /** `saveBucketItem()`: one open item with priority 2 is inserted and
        written to its remote document. */
    method SaveBucketItem(store: LocalStore, manager: FirebaseManager, id: Uuid, now: Time)
      returns (item: BucketItem)
      requires store.Valid()
      modifies store, manager
      ensures fresh(item) && store.Valid()
      ensures item.Data() == SavedItem(id, now, myName, title, description, selectedCategory, 2)
      ensures store.bucketItems == old(store.bucketItems) + [item]
      ensures store.BucketRecords() == old(store.BucketRecords()) + [item.Data()]
      ensures store.moments == old(store.moments) && store.signals == old(store.signals)
      ensures store.pings == old(store.pings) && store.settings == old(store.settings)
      ensures manager.remote == SetData(old(manager.remote), "bucketItems", UuidString(item.id),
                                        BucketItemFields(item.Data()))
      ensures manager.currentUserName == old(manager.currentUserName) && manager.fcmToken == old(manager.fcmToken)
    {
      item := new BucketItem(id, now, title, if description == "" then None else Some(description), myName,
                             selectedCategory, 2);
      store.AppendBucketItem(item);
      manager.SyncBucketItem(item);
    }
  }

  /** The full sheet, with the priority picker. */
  class AddForm {
    const myName: string
    var title: string
    var description: string
    var selectedCategory: BucketCategory
    var priority: int

    /** The three priority buttons are the only writers of `priority`. */
    ghost predicate Valid()
      reads this
    {
      1 <= priority <= 3
    }

    constructor (myName: string)
      ensures Valid() && priority == 2
      ensures this.myName == myName && title == "" && description == "" && selectedCategory == Relationship
    {
      this.myName := myName;
      title, description, selectedCategory, priority := "", "", Relationship, 2;
    }

    /** "Someday" (1), "Important" (2) or "Must Do!" (3). */
    method SelectPriority(p: int)
      requires Valid() && 1 <= p <= 3
      modifies this
      ensures Valid() && priority == p
      ensures title == old(title) && description == old(description) && selectedCategory == old(selectedCategory)
    {
      priority := p;
    }

    function CanSaveNow(): bool
      reads this
    {
      CanSave(title, description)
    }

    /** `saveBucketItem()`: one open item with the chosen priority is
        inserted; this sheet does not write to the cloud. */
    method SaveBucketItem(store: LocalStore, id: Uuid, now: Time) returns (item: BucketItem)
      requires store.Valid() && Valid()
      modifies store
      ensures fresh(item) && store.Valid()
      ensures item.Data() == SavedItem(id, now, myName, title, description, selectedCategory, priority)
      ensures 1 <= item.priority <= 3
      ensures store.bucketItems == old(store.bucketItems) + [item]
      ensures store.BucketRecords() == old(store.BucketRecords()) + [item.Data()]
      ensures store.moments == old(store.moments) && store.signals == old(store.signals)
      ensures store.pings == old(store.pings) && store.settings == old(store.settings)
    {
      item := new BucketItem(id, now, title, if description == "" then None else Some(description), myName,
                             selectedCategory, priority);
      store.AppendBucketItem(item);
    }
  }
}
