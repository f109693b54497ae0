/** The documents the cloud sync writes and reads: each record becomes a
    dictionary of field values (optional strings written as "", a missing
    completion date as null), and a fetched dictionary becomes a record again
    with the defaults the fetch applies to missing or mistyped fields. */
module SyncFields {
  import opened Common
  import opened Uuids
  import opened Moments
  import opened Signals
  import opened Pings
  import opened BucketItems
  import opened Settings

  /** The values the app stores in a document. In the model `as? T`
      succeeds only on the matching case; the bridging of numbers and
      booleans through one numeric type is not modelled. */
  datatype FieldValue = Str(s: string) | Flag(b: bool) | Int(n: int) | Stamp(t: Time) | Null

  type Fields = map<string, FieldValue>

  /** The remote database: collection name, then document key. */
  type Remote = map<string, map<string, Fields>>

  // ---------------------------------------------------------------------
  // Reading fields
  // ---------------------------------------------------------------------

  /** `data[key] as? String`. */
  function GetString(d: Fields, key: string): (r: Option<string>)
    ensures r.Some? <==> key in d && d[key].Str?
    ensures r.Some? ==> d[key] == Str(r.value)
  {
    if key in d && d[key].Str? then Some(d[key].s) else None
  }

  /** `data[key] as? Bool`. */
  function GetBool(d: Fields, key: string): (r: Option<bool>)
    ensures r.Some? <==> key in d && d[key].Flag?
    ensures r.Some? ==> d[key] == Flag(r.value)
  {
    if key in d && d[key].Flag? then Some(d[key].b) else None
  }

  /** `data[key] as? Int`. */
  function GetInt(d: Fields, key: string): (r: Option<int>)
    ensures r.Some? <==> key in d && d[key].Int?
    ensures r.Some? ==> d[key] == Int(r.value)
  {
    if key in d && d[key].Int? then Some(d[key].n) else None
  }

  /** `data[key] as? Timestamp`. */
  function GetStamp(d: Fields, key: string): (r: Option<Time>)
    ensures r.Some? <==> key in d && d[key].Stamp?
    ensures r.Some? ==> d[key] == Stamp(r.value)
  {
    if key in d && d[key].Stamp? then Some(d[key].t) else None
  }

  /** `(x as? String)?.isEmpty == false ? x : nil`: an empty string reads as
      nil. */
  function NonEmpty(s: Option<string>): (r: Option<string>)
    ensures r.Some? <==> s.Some? && s.value != ""
    ensures r.Some? ==> r == s
  {
    if s.Some? && s.value != "" then s else None
  }

  /** `x ?? ""`, the way optional strings are written. */
  function OrEmpty(s: Option<string>): string
  {
    s.GetOr("")
  }

  /** Writing an optional string and reading it back gives it back, except
      that an empty string comes back as nil. */
  lemma NonEmptyOrEmpty(s: Option<string>)
    ensures NonEmpty(Some(OrEmpty(s))) == NonEmpty(s)
    ensures NonEmpty(s) == s <==> s != Some("")
    ensures NonEmpty(NonEmpty(s)) == NonEmpty(s)
  {
  }

  /** The record id a fetch accepts: a string field "id" that parses as a
      UUID. */
  function DocId(d: Fields): (r: Option<Uuid>)
    ensures r.Some? ==> GetString(d, "id").Some? && ParseUuid(GetString(d, "id").value) == r
  {
    match GetString(d, "id")
    case None => None
    case Some(s) => ParseUuid(s)
  }

  // ---------------------------------------------------------------------
  // Writing documents
  // ---------------------------------------------------------------------

  /** `setData(fields, merge: true)` on one document: the written keys take
      the new values, the other keys of an existing document stay. */
  function MergeFields(doc: Option<Fields>, fields: Fields): (r: Fields)
    ensures forall k :: k in fields ==> k in r && r[k] == fields[k]
    ensures forall k :: k in r && k !in fields ==> doc.Some? && k in doc.value && r[k] == doc.value[k]
    ensures doc.Some? ==> r.Keys == doc.value.Keys + fields.Keys
    ensures doc.None? ==> r == fields
  {
    match doc
    case None => fields
    case Some(existing) => existing + fields
  }

  /** Writing the same fields twice is writing them once. */
  lemma MergeFieldsIdempotent(doc: Option<Fields>, fields: Fields)
    ensures MergeFields(Some(MergeFields(doc, fields)), fields) == MergeFields(doc, fields)
  {
    var once := MergeFields(doc, fields);
    var twice := MergeFields(Some(once), fields);
    assert twice.Keys == once.Keys;
  }

  function Document(remote: Remote, collection: string, key: string): Option<Fields>
  {
    if collection in remote && key in remote[collection] then Some(remote[collection][key]) else None
  }

  /** `db.collection(collection).document(key).setData(fields, merge: true)`. */
  function SetData(remote: Remote, collection: string, key: string, fields: Fields): (r: Remote)
    ensures Document(r, collection, key) == Some(MergeFields(Document(remote, collection, key), fields))
    ensures forall c, k :: (c != collection || k != key) ==> Document(r, c, k) == Document(remote, c, k)
  {
    var docs := if collection in remote then remote[collection] else map[];
    remote[collection := docs[key := MergeFields(Document(remote, collection, key), fields)]]
  }

  /** The moment document; the two storage URLs are the results of the media
      uploads, nil when an upload failed or there was nothing to upload. */
  function MomentFields(m: Moment, audioStorageURL: Option<string>, photoStorageURL: Option<string>): Fields
  {
    map[
      "id" := Str(UuidString(m.id)),
      "createdAt" := Stamp(m.createdAt),
      "author" := Str(m.author),
      "kind" := Str(KindRawValue(m.kind)),
      "title" := Str(OrEmpty(m.title)),
      "text" := Str(OrEmpty(m.text)),
      "audioPath" := Str(OrEmpty(m.audioPath)),
      "photoPath" := Str(OrEmpty(m.photoPath)),
      "audioStorageURL" := Str(OrEmpty(audioStorageURL)),
      "photoStorageURL" := Str(OrEmpty(photoStorageURL)),
      "isShared" := Flag(m.isShared)
    ]
  }

  /** The signal document; only the sentiment survives of the mood data. */
  function SignalFields(s: Signal): Fields
  {
    map[
      "id" := Str(UuidString(s.id)),
      "createdAt" := Stamp(s.createdAt),
      "author" := Str(s.author),
      "sentiment" := (if s.sentiment.Some? then Str(s.sentiment.value) else Null),
      "isShared" := Flag(s.isShared)
    ]
  }

  function PingFields(p: PingData): Fields
  {
    map[
      "id" := Str(UuidString(p.id)),
      "createdAt" := Stamp(p.createdAt),
      "author" := Str(p.author),
      "message" := Str(p.message),
      "isRead" := Flag(p.isRead)
    ]
  }

  function BucketItemFields(b: BucketItemData): Fields
  {
    map[
      "id" := Str(UuidString(b.id)),
      "createdAt" := Stamp(b.createdAt),
      "title" := Str(b.title),
      "description" := Str(OrEmpty(b.description)),
      "isCompleted" := Flag(b.isCompleted),
      "completedAt" := (if b.completedAt.Some? then Stamp(b.completedAt.value) else Null),
      "addedBy" := Str(b.addedBy),
      "category" := Str(RawValue(b.category)),
      "priority" := Int(b.priority)
    ]
  }

  /** The settings document, which is keyed by the user name, not the id. */
  function SettingsFields(s: SettingsData): Fields
  {
    map[
      "id" := Str(UuidString(s.id)),
      "userName" := Str(s.userName),
      "nickname" := Str(OrEmpty(s.nickname)),
      "currentPoseIndex" := Int(s.currentPoseIndex),
      "updatedAt" := Stamp(s.updatedAt)
    ]
  }

  /** The token document of `registerFCMToken`; the server timestamp is the
      clock value `now`. */
  function TokenFields(userName: string, token: string, now: Time): Fields
  {
    map[
      "userName" := Str(userName),
      "token" := Str(token),
      "updatedAt" := Stamp(now),
      "platform" := Str("ios")
    ]
  }

  // ---------------------------------------------------------------------
  // Reading documents back
  // ---------------------------------------------------------------------

  /** The moment built for an accepted document with id `id`; `now` is the
      creation time kept when the document has no timestamp. */
  function ParseMoment(d: Fields, id: Uuid, now: Time): (m: Moment)
    ensures m.id == id
    ensures m.createdAt == GetStamp(d, "createdAt").GetOr(now)
    ensures m.author == GetString(d, "author").GetOr("")
    ensures GetString(d, "kind").None? || ParseKind(GetString(d, "kind").value).None? ==> m.kind == Text
    ensures GetString(d, "kind").Some? ==> ParseKind(GetString(d, "kind").value).GetOr(Text) == m.kind
    ensures m.title == NonEmpty(GetString(d, "title"))
    ensures m.text == NonEmpty(GetString(d, "text"))
    ensures m.audioPath == NonEmpty(GetString(d, "audioPath"))
    ensures m.photoPath == NonEmpty(GetString(d, "photoPath"))
    ensures m.isShared <==> GetBool(d, "isShared") == Some(true)
  {
    NewMoment(id, GetStamp(d, "createdAt").GetOr(now), GetString(d, "author").GetOr(""),
              ParseKind(GetString(d, "kind").GetOr("text")).GetOr(Text),
              NonEmpty(GetString(d, "title")), NonEmpty(GetString(d, "text")),
              NonEmpty(GetString(d, "audioPath")), NonEmpty(GetString(d, "photoPath")),
              GetBool(d, "isShared").GetOr(false))
  }

  /** A moment with its empty optional strings read as nil. */
  function NormalizedMoment(m: Moment): Moment
  {
    m.(title := NonEmpty(m.title), text := NonEmpty(m.text),
       audioPath := NonEmpty(m.audioPath), photoPath := NonEmpty(m.photoPath))
  }

  /** A synced moment read back on the other device: the same id and the same
      record, up to empty strings becoming nil; exactly the same record when
      no optional string is empty. */
  lemma MomentRoundTrip(m: Moment, audioStorageURL: Option<string>, photoStorageURL: Option<string>, now: Time)
    ensures DocId(MomentFields(m, audioStorageURL, photoStorageURL)) == Some(m.id)
    ensures ParseMoment(MomentFields(m, audioStorageURL, photoStorageURL), m.id, now) == NormalizedMoment(m)
    ensures m.title != Some("") && m.text != Some("") && m.audioPath != Some("") && m.photoPath != Some("")
            ==> NormalizedMoment(m) == m
  {
    var d := MomentFields(m, audioStorageURL, photoStorageURL);
    MomentFieldsRead(m, audioStorageURL, photoStorageURL);
    ParseUuidString(m.id);
    ParseKindRawValue(m.kind);
    NonEmptyOrEmpty(m.title);
    NonEmptyOrEmpty(m.text);
    NonEmptyOrEmpty(m.audioPath);
    NonEmptyOrEmpty(m.photoPath);
  }

  /** What each field of a moment document reads as. */
  lemma MomentFieldsRead(m: Moment, audioStorageURL: Option<string>, photoStorageURL: Option<string>)
    ensures var d := MomentFields(m, audioStorageURL, photoStorageURL);
            && GetString(d, "id") == Some(UuidString(m.id))
            && GetStamp(d, "createdAt") == Some(m.createdAt)
            && GetString(d, "author") == Some(m.author)
            && GetString(d, "kind") == Some(KindRawValue(m.kind))
            && GetString(d, "title") == Some(OrEmpty(m.title))
            && GetString(d, "text") == Some(OrEmpty(m.text))
            && GetString(d, "audioPath") == Some(OrEmpty(m.audioPath))
            && GetString(d, "photoPath") == Some(OrEmpty(m.photoPath))
            && GetBool(d, "isShared") == Some(m.isShared)
  {
    MomentHeaderRead(m, audioStorageURL, photoStorageURL);
    MomentContentRead(m, audioStorageURL, photoStorageURL);
  }

  lemma MomentHeaderRead(m: Moment, audioStorageURL: Option<string>, photoStorageURL: Option<string>)
    ensures var d := MomentFields(m, audioStorageURL, photoStorageURL);
            && GetString(d, "id") == Some(UuidString(m.id))
            && GetStamp(d, "createdAt") == Some(m.createdAt)
            && GetString(d, "author") == Some(m.author)
            && GetString(d, "kind") == Some(KindRawValue(m.kind))
            && GetBool(d, "isShared") == Some(m.isShared)
  {
    var d := MomentFields(m, audioStorageURL, photoStorageURL);
    assert d["id"] == Str(UuidString(m.id));
    assert d["createdAt"] == Stamp(m.createdAt);
    assert d["author"] == Str(m.author);
    assert d["kind"] == Str(KindRawValue(m.kind));
    assert d["isShared"] == Flag(m.isShared);
  }

  lemma MomentContentRead(m: Moment, audioStorageURL: Option<string>, photoStorageURL: Option<string>)
    ensures var d := MomentFields(m, audioStorageURL, photoStorageURL);
            && GetString(d, "title") == Some(OrEmpty(m.title))
            && GetString(d, "text") == Some(OrEmpty(m.text))
            && GetString(d, "audioPath") == Some(OrEmpty(m.audioPath))
            && GetString(d, "photoPath") == Some(OrEmpty(m.photoPath))
  {
    var d := MomentFields(m, audioStorageURL, photoStorageURL);
    assert d["title"] == Str(OrEmpty(m.title));
    assert d["text"] == Str(OrEmpty(m.text));
    assert d["audioPath"] == Str(OrEmpty(m.audioPath));
    assert d["photoPath"] == Str(OrEmpty(m.photoPath));
  }

  /** A media file the fetch asks to download into the local file name. */
  datatype Download = Download(url: string, filename: string)

  /** The downloads started for an accepted moment document: the photo, then
      the audio, each only with a non-empty storage URL and a non-empty local
      path. */
  function MediaDownloads(d: Fields): (r: seq<Download>)
    ensures |r| <= 2
    ensures forall x :: x in r ==> x.url != "" && x.filename != ""
    ensures var photo := NonEmpty(GetString(d, "photoStorageURL")).Some? && NonEmpty(GetString(d, "photoPath")).Some?;
            var audio := NonEmpty(GetString(d, "audioStorageURL")).Some? && NonEmpty(GetString(d, "audioPath")).Some?;
            && |r| == (if photo then 1 else 0) + (if audio then 1 else 0)
            && (photo ==> r[0] == Download(d["photoStorageURL"].s, d["photoPath"].s))
            && (audio ==> r[|r| - 1] == Download(d["audioStorageURL"].s, d["audioPath"].s))
  {
    var photoURL := NonEmpty(GetString(d, "photoStorageURL"));
    var photoPath := NonEmpty(GetString(d, "photoPath"));
    var audioURL := NonEmpty(GetString(d, "audioStorageURL"));
    var audioPath := NonEmpty(GetString(d, "audioPath"));
    (if photoURL.Some? && photoPath.Some? then [Download(photoURL.value, photoPath.value)] else [])
    + (if audioURL.Some? && audioPath.Some? then [Download(audioURL.value, audioPath.value)] else [])
  }

  /** A synced moment asks for its photo exactly when it has a photo path and
      the upload gave a URL, and likewise for its audio. */
  lemma SyncedMomentDownloads(m: Moment, audioStorageURL: Option<string>, photoStorageURL: Option<string>)
    requires m.photoPath != Some("") && m.audioPath != Some("")
    ensures var r := MediaDownloads(MomentFields(m, audioStorageURL, photoStorageURL));
            var photo := m.photoPath.Some? && NonEmpty(photoStorageURL).Some?;
            var audio := m.audioPath.Some? && NonEmpty(audioStorageURL).Some?;
            && |r| == (if photo then 1 else 0) + (if audio then 1 else 0)
            && (photo ==> r[0] == Download(photoStorageURL.value, m.photoPath.value))
            && (audio ==> r[|r| - 1] == Download(audioStorageURL.value, m.audioPath.value))
  {
    var d := MomentFields(m, audioStorageURL, photoStorageURL);
    assert d["audioPath"] == Str(OrEmpty(m.audioPath));
    assert d["photoPath"] == Str(OrEmpty(m.photoPath));
    assert d["audioStorageURL"] == Str(OrEmpty(audioStorageURL));
    assert d["photoStorageURL"] == Str(OrEmpty(photoStorageURL));
  }

  /** The signal built for an accepted document: an unknown or missing
      sentiment reads as "okay"; `sentiments` are the raw values the
      sentiment type accepts. */
  function ParseSignal(d: Fields, id: Uuid, now: Time, sentiments: set<string>): (s: Signal)
    ensures s.id == id && s.levels.None? && s.sentiment.Some?
    ensures s.createdAt == GetStamp(d, "createdAt").GetOr(now)
    ensures s.author == GetString(d, "author").GetOr("")
    ensures s.sentiment.value == (if GetString(d, "sentiment").Some? && GetString(d, "sentiment").value in sentiments
                                  then GetString(d, "sentiment").value else "okay")
    ensures s.isShared <==> GetBool(d, "isShared") == Some(true)
  {
    var raw := GetString(d, "sentiment").GetOr("okay");
    NewSentimentSignal(id, GetStamp(d, "createdAt").GetOr(now), GetString(d, "author").GetOr(""),
                       if raw in sentiments then raw else "okay", GetBool(d, "isShared").GetOr(false))
  }

  /** A synced signal read back keeps id, time, author, sharing and a known
      sentiment; the mood levels are not synced. */
  lemma SignalRoundTrip(s: Signal, now: Time, sentiments: set<string>)
    requires s.sentiment.Some? ==> s.sentiment.value in sentiments
    ensures DocId(SignalFields(s)) == Some(s.id)
    ensures ParseSignal(SignalFields(s), s.id, now, sentiments)
            == s.(levels := None, sentiment := Some(s.sentiment.GetOr("okay")))
  {
    ParseUuidString(s.id);
    SignalFieldsRead(s);
  }

  /** What each field of a signal document reads as. */
  lemma SignalFieldsRead(s: Signal)
    ensures var d := SignalFields(s);
            && GetString(d, "id") == Some(UuidString(s.id))
            && GetStamp(d, "createdAt") == Some(s.createdAt)
            && GetString(d, "author") == Some(s.author)
            && GetString(d, "sentiment") == s.sentiment
            && GetBool(d, "isShared") == Some(s.isShared)
  {
    var d := SignalFields(s);
    assert d["id"] == Str(UuidString(s.id));
    assert d["createdAt"] == Stamp(s.createdAt);
    assert d["author"] == Str(s.author);
    assert d["sentiment"] == if s.sentiment.Some? then Str(s.sentiment.value) else Null;
    assert d["isShared"] == Flag(s.isShared);
  }

  /** The ping built for an accepted document. */
  function ParsePing(d: Fields, id: Uuid, now: Time): (p: PingData)
    ensures p.id == id
    ensures p.createdAt == GetStamp(d, "createdAt").GetOr(now)
    ensures p.author == GetString(d, "author").GetOr("") && p.message == GetString(d, "message").GetOr("")
    ensures p.isRead <==> GetBool(d, "isRead") == Some(true)
  {
    var p := NewPing(id, GetStamp(d, "createdAt").GetOr(now), GetString(d, "author").GetOr(""),
                     GetString(d, "message").GetOr(""));
    p.(isRead := GetBool(d, "isRead").GetOr(false))
  }

  /** A synced ping reads back as exactly the same ping. */
  lemma PingRoundTrip(p: PingData, now: Time)
    ensures DocId(PingFields(p)) == Some(p.id)
    ensures ParsePing(PingFields(p), p.id, now) == p
  {
    ParseUuidString(p.id);
  }

  /** The bucket item built for an accepted document: category `other` and
      priority 2 by default; the completion date only from a timestamp. */
  function ParseBucketItem(d: Fields, id: Uuid, now: Time): (b: BucketItemData)
    ensures b.id == id
    ensures b.createdAt == GetStamp(d, "createdAt").GetOr(now)
    ensures b.title == GetString(d, "title").GetOr("") && b.addedBy == GetString(d, "addedBy").GetOr("")
    ensures b.description == NonEmpty(GetString(d, "description"))
    ensures b.isCompleted <==> GetBool(d, "isCompleted") == Some(true)
    ensures b.completedAt == GetStamp(d, "completedAt")
    ensures GetString(d, "category").None? || ParseCategory(GetString(d, "category").value).None? ==> b.category == Other
    ensures GetString(d, "category").Some? && ParseCategory(GetString(d, "category").value).Some?
            ==> RawValue(b.category) == GetString(d, "category").value
    ensures b.priority == GetInt(d, "priority").GetOr(2)
  {
    var b := NewItem(id, GetStamp(d, "createdAt").GetOr(now), GetString(d, "title").GetOr(""),
                     NonEmpty(GetString(d, "description")), GetString(d, "addedBy").GetOr(""),
                     ParseCategory(GetString(d, "category").GetOr("other")).GetOr(Other),
                     GetInt(d, "priority").GetOr(2));
    b.(isCompleted := GetBool(d, "isCompleted").GetOr(false), completedAt := GetStamp(d, "completedAt"))
  }

  /** A synced bucket item reads back as the same item (an empty description
      as nil): the completion date is written as null exactly when absent and
      restored only from a timestamp. */
  lemma BucketItemRoundTrip(b: BucketItemData, now: Time)
    ensures DocId(BucketItemFields(b)) == Some(b.id)
    ensures ParseBucketItem(BucketItemFields(b), b.id, now) == b.(description := NonEmpty(b.description))
    ensures GetStamp(BucketItemFields(b), "completedAt") == b.completedAt
  {
    var d := BucketItemFields(b);
    BucketItemFieldsRead(b);
    ParseUuidString(b.id);
    NonEmptyOrEmpty(b.description);
    ParseRawValue(b.category);
    var r := ParseBucketItem(d, b.id, now);
    assert r.category == b.category;
    assert r.description == NonEmpty(b.description);
    assert r.isCompleted == b.isCompleted && r.completedAt == b.completedAt;
  }

  /** What each field of a bucket-item document reads as. */
  lemma BucketItemFieldsRead(b: BucketItemData)
    ensures var d := BucketItemFields(b);
            && GetString(d, "id") == Some(UuidString(b.id))
            && GetStamp(d, "createdAt") == Some(b.createdAt)
            && GetString(d, "title") == Some(b.title)
            && GetString(d, "description") == Some(OrEmpty(b.description))
            && GetBool(d, "isCompleted") == Some(b.isCompleted)
            && GetStamp(d, "completedAt") == b.completedAt
            && GetString(d, "addedBy") == Some(b.addedBy)
            && GetString(d, "category") == Some(RawValue(b.category))
            && GetInt(d, "priority") == Some(b.priority)
  {
    BucketItemHeaderRead(b);
    BucketItemStateRead(b);
  }

  lemma BucketItemHeaderRead(b: BucketItemData)
    ensures var d := BucketItemFields(b);
            && GetString(d, "id") == Some(UuidString(b.id))
            && GetStamp(d, "createdAt") == Some(b.createdAt)
            && GetString(d, "title") == Some(b.title)
            && GetString(d, "description") == Some(OrEmpty(b.description))
            && GetString(d, "addedBy") == Some(b.addedBy)
  {
    var d := BucketItemFields(b);
    assert d["id"] == Str(UuidString(b.id));
    assert d["createdAt"] == Stamp(b.createdAt);
    assert d["title"] == Str(b.title);
    assert d["description"] == Str(OrEmpty(b.description));
    assert d["addedBy"] == Str(b.addedBy);
  }

  lemma BucketItemStateRead(b: BucketItemData)
    ensures var d := BucketItemFields(b);
            && GetBool(d, "isCompleted") == Some(b.isCompleted)
            && GetStamp(d, "completedAt") == b.completedAt
            && GetString(d, "category") == Some(RawValue(b.category))
            && GetInt(d, "priority") == Some(b.priority)
  {
    var d := BucketItemFields(b);
    assert d["isCompleted"] == Flag(b.isCompleted);
    assert d["completedAt"] == if b.completedAt.Some? then Stamp(b.completedAt.value) else Null;
    assert d["category"] == Str(RawValue(b.category));
    assert d["priority"] == Int(b.priority);
  }

  /** The fields a settings document overwrites on the existing record of the
      same user: nickname and pose always, the time only from a timestamp. */
  function ApplySettingsDoc(s: SettingsData, d: Fields): (r: SettingsData)
    ensures r.id == s.id && r.userName == s.userName && r.pronouns == s.pronouns
    ensures r.nickname == NonEmpty(GetString(d, "nickname"))
    ensures r.currentPoseIndex == GetInt(d, "currentPoseIndex").GetOr(0)
    ensures r.updatedAt == GetStamp(d, "updatedAt").GetOr(s.updatedAt)
  {
    s.(nickname := NonEmpty(GetString(d, "nickname")),
       currentPoseIndex := GetInt(d, "currentPoseIndex").GetOr(0),
       updatedAt := GetStamp(d, "updatedAt").GetOr(s.updatedAt))
  }

  /** The settings record created for a user with no local record: the id of
      the document when it parses (else `freshId`), the pronouns chosen from
      the user name. */
  function SettingsFromDoc(d: Fields, freshId: Uuid, now: Time): (r: SettingsData)
    ensures r.userName == GetString(d, "userName").GetOr("")
    ensures r.id == DocId(d).GetOr(freshId)
    ensures r.pronouns == PronounsFor(r.userName)
    ensures r.nickname == NonEmpty(GetString(d, "nickname"))
    ensures r.currentPoseIndex == GetInt(d, "currentPoseIndex").GetOr(0)
    ensures r.updatedAt == GetStamp(d, "updatedAt").GetOr(now)
  {
    var s := NewSettings(freshId, GetString(d, "userName").GetOr(""), NonEmpty(GetString(d, "nickname")),
                         GetInt(d, "currentPoseIndex").GetOr(0), now);
    s.(id := DocId(d).GetOr(freshId), updatedAt := GetStamp(d, "updatedAt").GetOr(now))
  }

  /** Synced settings read back on a device without them are the same
      settings (an empty nickname as nil); on a device with a record for the
      user, that record takes over nickname, pose and time. */
  lemma SettingsRoundTrip(s: SettingsData, local: SettingsData, freshId: Uuid, now: Time)
    requires s.pronouns == PronounsFor(s.userName)
    ensures SettingsFromDoc(SettingsFields(s), freshId, now) == s.(nickname := NonEmpty(s.nickname))
    ensures var r := ApplySettingsDoc(local, SettingsFields(s));
            r.nickname == NonEmpty(s.nickname) && r.currentPoseIndex == s.currentPoseIndex && r.updatedAt == s.updatedAt
  {
    ParseUuidString(s.id);
    NonEmptyOrEmpty(s.nickname);
  }
}
