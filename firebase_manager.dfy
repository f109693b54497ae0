/** The cloud sync manager: it writes each record to its remote document,
    registers the messaging token under the current user name, fetches the
    remote collections into the local store, and downloads media files with
    a bounded number of attempts. */
module FirebaseSync {
  import opened Common
  import opened Uuids
  import opened Moments
  import opened Signals
  import opened Pings
  import opened BucketItems
  import opened Settings
  import opened SyncFields
  import opened SyncMerge

  // ---------------------------------------------------------------------
  // How each collection is keyed and parsed
  // ---------------------------------------------------------------------

  function MomentId(m: Moment): Uuid { m.id }
  function SignalId(s: Signal): Uuid { s.id }
  function PingId(p: PingData): Uuid { p.id }
  function BucketItemId(b: BucketItemData): Uuid { b.id }

  function MomentParser(now: Time): (Uuid, Fields) -> Moment
  {
    (id: Uuid, d: Fields) => ParseMoment(d, id, now)
  }

  function SignalParser(now: Time, sentiments: set<string>): (Uuid, Fields) -> Signal
  {
    (id: Uuid, d: Fields) => ParseSignal(d, id, now, sentiments)
  }

  function PingParser(now: Time): (Uuid, Fields) -> PingData
  {
    (id: Uuid, d: Fields) => ParsePing(d, id, now)
  }

  function BucketItemParser(now: Time): (Uuid, Fields) -> BucketItemData
  {
    (id: Uuid, d: Fields) => ParseBucketItem(d, id, now)
  }

  /** Every record built from a document carries the document's id, so the
      merge lemmas apply to the four collections. */
  lemma ParsersKeepIds(now: Time, sentiments: set<string>)
    ensures KeepsId(MomentId, MomentParser(now))
    ensures KeepsId(SignalId, SignalParser(now, sentiments))
    ensures KeepsId(PingId, PingParser(now))
    ensures KeepsId(BucketItemId, BucketItemParser(now))
  {
  }

  /** The media downloads started by the accepted moment documents, in
      order. */
  function DownloadsOf(acc: seq<(Uuid, Fields)>): seq<Download>
  {
    if acc == [] then [] else MediaDownloads(acc[0].1) + DownloadsOf(acc[1..])
  }

  /** The downloads one document of the moment pass starts. */
  function StepDownloads(moments: seq<Moment>, d: Fields): seq<Download>
  {
    match DocId(d)
    case None => []
    case Some(id) => if id in IdSet(moments, MomentId) then [] else MediaDownloads(d)
  }

  /** One document of the moment pass: the store and the downloads it
      starts agree with the whole pass. */
  lemma MomentPassStep(moments: seq<Moment>, docs: seq<Fields>, i: nat, now: Time)
    requires i < |docs|
    ensures var next := MergeOne(moments, docs[i], MomentId, MomentParser(now));
            && Merged(moments, docs[i..], MomentId, MomentParser(now))
               == Merged(next, docs[i + 1..], MomentId, MomentParser(now))
            && DownloadsOf(Accepted(IdSet(moments, MomentId), docs[i..]))
               == StepDownloads(moments, docs[i]) + DownloadsOf(Accepted(IdSet(next, MomentId), docs[i + 1..]))
  {
    var ds := docs[i..];
    assert ds[0] == docs[i] && ds[1..] == docs[i + 1..];
    ParsersKeepIds(now, {});
    MergedStep(moments, ds, MomentId, MomentParser(now));
    var known := IdSet(moments, MomentId);
    if DocId(ds[0]).Some? && DocId(ds[0]).value !in known {
      var id := DocId(ds[0]).value;
      var m := ParseMoment(ds[0], id, now);
      IdSetAppend(moments, m, MomentId);
      var rest := Accepted(known + {id}, ds[1..]);
      assert Accepted(known, ds) == [(id, ds[0])] + rest;
      assert ([(id, ds[0])] + rest)[1..] == rest;
    } else {
      assert Accepted(known, ds) == Accepted(known, ds[1..]);
    }
  }

  // ---------------------------------------------------------------------
  // The local store and the fetch passes
  // ---------------------------------------------------------------------

  class LocalStore {
    var moments: seq<Moment>
    var signals: seq<Signal>
    var pings: seq<Ping>
    var bucketItems: seq<BucketItem>
    var settings: seq<UserSettings>

    /** No object is listed twice. */
    ghost predicate Valid()
      reads this
    {
      && (forall i, j :: 0 <= i < j < |pings| ==> pings[i] != pings[j])
      && (forall i, j :: 0 <= i < j < |bucketItems| ==> bucketItems[i] != bucketItems[j])
      && (forall i, j :: 0 <= i < j < |settings| ==> settings[i] != settings[j])
    }

    function PingRecords(): (r: seq<PingData>)
      reads this, pings
      ensures |r| == |pings|
      ensures forall i :: 0 <= i < |pings| ==> r[i] == pings[i].Data()
    {
      seq(|pings|, i reads this, pings requires 0 <= i < |pings| => pings[i].Data())
    }

    function BucketRecords(): (r: seq<BucketItemData>)
      reads this, bucketItems
      ensures |r| == |bucketItems|
      ensures forall i :: 0 <= i < |bucketItems| ==> r[i] == bucketItems[i].Data()
    {
      seq(|bucketItems|, i reads this, bucketItems requires 0 <= i < |bucketItems| => bucketItems[i].Data())
    }

    function SettingsRecords(): (r: seq<SettingsData>)
      reads this, settings
      ensures |r| == |settings|
      ensures forall i :: 0 <= i < |settings| ==> r[i] == settings[i].Data()
    {
      seq(|settings|, i reads this, settings requires 0 <= i < |settings| => settings[i].Data())
    }

    constructor ()
      ensures Valid()
      ensures moments == [] && signals == [] && pings == [] && bucketItems == [] && settings == []
    {
      moments, signals, pings, bucketItems, settings := [], [], [], [], [];
    }

    /** `fetchAndSyncMoments`: returns the media downloads it starts. */
    method FetchAndSyncMoments(docs: seq<Fields>, now: Time) returns (downloads: seq<Download>)
      modifies this
      ensures moments == Merged(old(moments), docs, MomentId, MomentParser(now))
      ensures downloads == DownloadsOf(Accepted(IdSet(old(moments), MomentId), docs))
      ensures signals == old(signals) && pings == old(pings) && bucketItems == old(bucketItems)
      ensures settings == old(settings)
    {
      ghost var target := Merged(moments, docs, MomentId, MomentParser(now));
      ghost var targetDownloads := DownloadsOf(Accepted(IdSet(moments, MomentId), docs));
      downloads := [];
      var i := 0;
      while i < |docs|
        invariant 0 <= i <= |docs|
        invariant target == Merged(moments, docs[i..], MomentId, MomentParser(now))
        invariant targetDownloads == downloads + DownloadsOf(Accepted(IdSet(moments, MomentId), docs[i..]))
        invariant signals == old(signals) && pings == old(pings) && bucketItems == old(bucketItems)
        invariant settings == old(settings)
      {
        MomentPassStep(moments, docs, i, now);
        ghost var later := DownloadsOf(Accepted(IdSet(MergeOne(moments, docs[i], MomentId, MomentParser(now)), MomentId),
                                                docs[i + 1..]));
        var started := SyncMomentDoc(docs[i], now);
        AppendAssoc(downloads, started, later);
        downloads := downloads + started;
        i := i + 1;
      }
      assert docs[i..] == [];
      assert downloads + [] == downloads;
    }

    /** The body of the moment pass for one document: a moment whose id
        parses and is new is inserted and its media downloads start. */
    method SyncMomentDoc(d: Fields, now: Time) returns (started: seq<Download>)
      modifies this
      ensures moments == MergeOne(old(moments), d, MomentId, MomentParser(now))
      ensures started == StepDownloads(old(moments), d)
      ensures signals == old(signals) && pings == old(pings) && bucketItems == old(bucketItems)
      ensures settings == old(settings)
    {
      started := [];
      match DocId(d) {
        case None =>
        case Some(id) =>
          if id !in IdSet(moments, MomentId) {
            started := MediaDownloads(d);
            moments := moments + [ParseMoment(d, id, now)];
          }
      }
    }

    /** `fetchAndSyncSignals`; `sentiments` are the raw values the sentiment
        type accepts. */
    method FetchAndSyncSignals(docs: seq<Fields>, now: Time, sentiments: set<string>)
      modifies this
      ensures signals == Merged(old(signals), docs, SignalId, SignalParser(now, sentiments))
      ensures moments == old(moments) && pings == old(pings) && bucketItems == old(bucketItems)
      ensures settings == old(settings)
    {
      ParsersKeepIds(now, sentiments);
      var i := 0;
      while i < |docs|
        invariant 0 <= i <= |docs|
        invariant Merged(old(signals), docs, SignalId, SignalParser(now, sentiments))
                  == Merged(signals, docs[i..], SignalId, SignalParser(now, sentiments))
        invariant moments == old(moments) && pings == old(pings) && bucketItems == old(bucketItems)
        invariant settings == old(settings)
      {
        var d := docs[i];
        assert docs[i..][0] == d && docs[i..][1..] == docs[i + 1..];
        MergedStep(signals, docs[i..], SignalId, SignalParser(now, sentiments));
        match DocId(d) {
          case None =>
          case Some(id) =>
            if id !in IdSet(signals, SignalId) {
              signals := signals + [ParseSignal(d, id, now, sentiments)];
            }
        }
        i := i + 1;
      }
    }

    /** `fetchAndSyncPings`: each accepted document becomes a new ping object. */
    method FetchAndSyncPings(docs: seq<Fields>, now: Time)
      requires Valid()
      modifies this
      ensures Valid()
      ensures PingRecords() == Merged(old(PingRecords()), docs, PingId, PingParser(now))
      ensures moments == old(moments) && signals == old(signals) && bucketItems == old(bucketItems)
      ensures settings == old(settings)
    {
      ParsersKeepIds(now, {});
      ghost var target := Merged(PingRecords(), docs, PingId, PingParser(now));
      var i := 0;
      while i < |docs|
        invariant 0 <= i <= |docs|
        invariant Valid()
        invariant target == Merged(PingRecords(), docs[i..], PingId, PingParser(now))
        invariant moments == old(moments) && signals == old(signals) && bucketItems == old(bucketItems)
        invariant settings == old(settings)
      {
        var d := docs[i];
        var records := PingRecords();
        MergedStep(records, docs[i..], PingId, PingParser(now));
        assert docs[i..][0] == d && docs[i..][1..] == docs[i + 1..];
        match DocId(d) {
          case None =>
          case Some(id) =>
            if id !in IdSet(records, PingId) {
              InsertPing(d, id, now);
            }
        }
        assert PingRecords() == MergeOne(records, d, PingId, PingParser(now));
        i := i + 1;
      }
      assert docs[i..] == [];
    }

    /** `fetchAndSyncBucketItems`: each accepted document becomes a new item
        object. */
    method FetchAndSyncBucketItems(docs: seq<Fields>, now: Time)
      requires Valid()
      modifies this
      ensures Valid()
      ensures BucketRecords() == Merged(old(BucketRecords()), docs, BucketItemId, BucketItemParser(now))
      ensures moments == old(moments) && signals == old(signals) && pings == old(pings)
      ensures settings == old(settings)
    {
      ParsersKeepIds(now, {});
      ghost var target := Merged(BucketRecords(), docs, BucketItemId, BucketItemParser(now));
      var i := 0;
      while i < |docs|
        invariant 0 <= i <= |docs|
        invariant Valid()
        invariant target == Merged(BucketRecords(), docs[i..], BucketItemId, BucketItemParser(now))
        invariant moments == old(moments) && signals == old(signals) && pings == old(pings)
        invariant settings == old(settings)
      {
        var d := docs[i];
        var records := BucketRecords();
        MergedStep(records, docs[i..], BucketItemId, BucketItemParser(now));
        assert docs[i..][0] == d && docs[i..][1..] == docs[i + 1..];
        match DocId(d) {
          case None =>
          case Some(id) =>
            if id !in IdSet(records, BucketItemId) {
              InsertBucketItem(d, id, now);
            }
        }
        assert BucketRecords() == MergeOne(records, d, BucketItemId, BucketItemParser(now));
        i := i + 1;
      }
      assert docs[i..] == [];
    }

    /** The body of the ping loop for an accepted document: a new ping,
        given the document's id, read flag and time. */
    method InsertPing(d: Fields, id: Uuid, now: Time)
      requires Valid()
      modifies this
      ensures Valid()
      ensures PingRecords() == old(PingRecords()) + [ParsePing(d, id, now)]
      ensures moments == old(moments) && signals == old(signals) && bucketItems == old(bucketItems)
      ensures settings == old(settings)
    {
      var p := new Ping(id, GetStamp(d, "createdAt").GetOr(now), GetString(d, "author").GetOr(""),
                        GetString(d, "message").GetOr(""));
      p.isRead := GetBool(d, "isRead").GetOr(false);
      AppendPing(p);
    }

    /** Inserts a new ping object. */
    method AppendPing(p: Ping)
      requires Valid() && p !in pings
      modifies this
      ensures Valid()
      ensures pings == old(pings) + [p]
      ensures PingRecords() == old(PingRecords()) + [p.Data()]
      ensures moments == old(moments) && signals == old(signals) && bucketItems == old(bucketItems)
      ensures settings == old(settings)
    {
      ghost var records := PingRecords();
      pings := pings + [p];
      assert forall j :: 0 <= j < |records| ==> pings[j].Data() == records[j];
    }

    /** The body of the bucket-item loop for an accepted document. */
    method InsertBucketItem(d: Fields, id: Uuid, now: Time)
      requires Valid()
      modifies this
      ensures Valid()
      ensures BucketRecords() == old(BucketRecords()) + [ParseBucketItem(d, id, now)]
      ensures moments == old(moments) && signals == old(signals) && pings == old(pings)
      ensures settings == old(settings)
    {
      var item := new BucketItem(id, GetStamp(d, "createdAt").GetOr(now), GetString(d, "title").GetOr(""),
                                 NonEmpty(GetString(d, "description")), GetString(d, "addedBy").GetOr(""),
                                 ParseCategory(GetString(d, "category").GetOr("other")).GetOr(Other),
                                 GetInt(d, "priority").GetOr(2));
      item.isCompleted := GetBool(d, "isCompleted").GetOr(false);
      match GetStamp(d, "completedAt") {
        case Some(t) => item.completedAt := Some(t);
        case None =>
      }
      AppendBucketItem(item);
    }

    /** Inserts a new bucket item object. */
    method AppendBucketItem(item: BucketItem)
      requires Valid() && item !in bucketItems
      modifies this
      ensures Valid()
      ensures bucketItems == old(bucketItems) + [item]
      ensures BucketRecords() == old(BucketRecords()) + [item.Data()]
      ensures moments == old(moments) && signals == old(signals) && pings == old(pings)
      ensures settings == old(settings)
    {
      ghost var records := BucketRecords();
      bucketItems := bucketItems + [item];
      assert forall j :: 0 <= j < |records| ==> bucketItems[j].Data() == records[j];
    }

    /** `fetchAndSyncUserSettings`: an upsert keyed by user name;
        `freshIds` are the ids generated for records that get created. */
    method FetchAndSyncUserSettings(docs: seq<Fields>, freshIds: seq<Uuid>, now: Time)
      requires Valid()
      requires |freshIds| == |docs|
      modifies this, settings
      ensures Valid()
      ensures SettingsRecords() == UpsertAll(old(SettingsRecords()), docs, freshIds, now)
      ensures moments == old(moments) && signals == old(signals) && pings == old(pings)
      ensures bucketItems == old(bucketItems)
    {
      ghost var target := UpsertAll(SettingsRecords(), docs, freshIds, now);
      var i := 0;
      while i < |docs|
        invariant 0 <= i <= |docs|
        invariant Valid()
        invariant forall j :: 0 <= j < |settings| ==> settings[j] in old(settings) || fresh(settings[j])
        invariant target == UpsertAll(SettingsRecords(), docs[i..], freshIds[i..], now)
        invariant moments == old(moments) && signals == old(signals) && pings == old(pings)
        invariant bucketItems == old(bucketItems)
      {
        ghost var before := SettingsRecords();
        assert docs[i..][0] == docs[i] && docs[i..][1..] == docs[i + 1..];
        assert freshIds[i..][0] == freshIds[i] && freshIds[i..][1..] == freshIds[i + 1..];
        assert UpsertAll(before, docs[i..], freshIds[i..], now)
               == UpsertAll(UpsertSettings(before, docs[i], freshIds[i], now), docs[i + 1..], freshIds[i + 1..], now);
        UpsertOneSettings(docs[i], freshIds[i], now);
        i := i + 1;
      }
    }

    /** The body of the settings loop for one document. */
    method UpsertOneSettings(d: Fields, freshId: Uuid, now: Time)
      requires Valid()
      modifies this, settings
      ensures Valid()
      ensures forall j :: 0 <= j < |settings| ==> settings[j] in old(settings) || fresh(settings[j])
      ensures SettingsRecords() == UpsertSettings(old(SettingsRecords()), d, freshId, now)
      ensures moments == old(moments) && signals == old(signals) && pings == old(pings)
      ensures bucketItems == old(bucketItems)
    {
      var records := SettingsRecords();
      var userName := GetString(d, "userName").GetOr("");
      var k := FirstSettingsFor(records, userName);
      if k < |settings| {
        UpdateSettingsAt(k, d);
      } else {
        var _ := InsertSettings(d, freshId, now);
      }
    }

    /** An existing record takes the document's nickname, pose and time. */
    method UpdateSettingsAt(k: nat, d: Fields)
      requires Valid() && k < |settings|
      modifies settings[k]
      ensures SettingsRecords() == old(SettingsRecords())[k := ApplySettingsDoc(old(SettingsRecords())[k], d)]
    {
      var s := settings[k];
      s.nickname := NonEmpty(GetString(d, "nickname"));
      s.currentPoseIndex := GetInt(d, "currentPoseIndex").GetOr(0);
      match GetStamp(d, "updatedAt") {
        case Some(t) => s.updatedAt := t;
        case None =>
      }
    }

    /** A user without a local record gets a new one. */
    method InsertSettings(d: Fields, freshId: Uuid, now: Time) returns (s: UserSettings)
      requires Valid()
      modifies this
      ensures Valid()
      ensures fresh(s) && settings == old(settings) + [s]
      ensures SettingsRecords() == old(SettingsRecords()) + [SettingsFromDoc(d, freshId, now)]
      ensures moments == old(moments) && signals == old(signals) && pings == old(pings)
      ensures bucketItems == old(bucketItems)
    {
      ghost var records := SettingsRecords();
      s := SettingsObjectFromDoc(d, freshId, now);
      assert SettingsRecords() == records;
      settings := settings + [s];
      assert forall j :: 0 <= j < |records| ==> settings[j].Data() == records[j];
    }
  }

  /** The record `fetchAndSyncUserSettings` creates from a document. */
  method SettingsObjectFromDoc(d: Fields, freshId: Uuid, now: Time) returns (s: UserSettings)
    ensures fresh(s) && s.Data() == SettingsFromDoc(d, freshId, now)
  {
    s := new UserSettings(freshId, GetString(d, "userName").GetOr(""), NonEmpty(GetString(d, "nickname")),
                          GetInt(d, "currentPoseIndex").GetOr(0), now);
    var docId := DocId(d);
    if docId.Some? {
      s.id := docId.value;
    }
    var stamp := GetStamp(d, "updatedAt");
    if stamp.Some? {
      s.updatedAt := stamp.value;
    }
  }

  // ---------------------------------------------------------------------
  // Media download with retry
  // ---------------------------------------------------------------------

  const MaxAttempts := 3

  datatype DownloadResult = AlreadyPresent | Downloaded | Failed

  /** Whether write attempt `k` (counting from 0) succeeds. */
  predicate Succeeds(outcomes: seq<bool>, k: nat) {
    k < |outcomes| && outcomes[k]
  }

  /** `downloadFile(storageURL:localFilename:)`: nothing is attempted when the
      file exists; otherwise up to three writes, stopping at the first that
      succeeds, and failure (the error rethrown) after the third.
      `outcomes` says which attempts succeed; `writes` counts the attempts. */
  method DownloadFile(fileExists: bool, outcomes: seq<bool>) returns (result: DownloadResult, writes: nat)
    ensures fileExists <==> result == AlreadyPresent
    ensures fileExists ==> writes == 0
    ensures !fileExists ==> 1 <= writes <= MaxAttempts
    ensures forall k :: 0 <= k < writes - 1 ==> !Succeeds(outcomes, k)
    ensures result == Downloaded <==> !fileExists && exists k :: 0 <= k < MaxAttempts && Succeeds(outcomes, k)
    ensures result == Downloaded ==> Succeeds(outcomes, writes - 1)
    ensures result == Failed ==> writes == MaxAttempts && !Succeeds(outcomes, writes - 1)
  {
    if fileExists {
      return AlreadyPresent, 0;
    }
    var attempts := 0;
    writes := 0;
    result := Failed;
    while attempts < MaxAttempts
      invariant 0 <= attempts < MaxAttempts
      invariant writes == attempts
      invariant forall k :: 0 <= k < attempts ==> !Succeeds(outcomes, k)
      decreases MaxAttempts - attempts
    {
      writes := writes + 1;
      if Succeeds(outcomes, attempts) {
        return Downloaded, writes;
      }
      attempts := attempts + 1;
      if attempts >= MaxAttempts {
        return Failed, writes;
      }
    }
  }

  // ---------------------------------------------------------------------
  // Writing to the cloud
  // ---------------------------------------------------------------------

  class FirebaseManager {
    var currentUserName: Option<string>
    var fcmToken: Option<string>
    var remote: Remote

    constructor ()
      ensures currentUserName == None && fcmToken == None && remote == map[]
    {
      currentUserName, fcmToken, remote := None, None, map[];
    }

    /** The user name recorded by `authenticateUser(userName:)` (the
        sign-in itself is not modelled). */
    method SetUser(userName: string)
      modifies this
      ensures currentUserName == Some(userName)
      ensures fcmToken == old(fcmToken) && remote == old(remote)
    {
      currentUserName := Some(userName);
    }

    /** `registerFCMToken`: without a user name nothing changes; otherwise the
        token is kept and merged into the user's token document. */
    method RegisterFCMToken(token: string, now: Time)
      modifies this
      ensures currentUserName == old(currentUserName)
      ensures old(currentUserName).None? ==> fcmToken == old(fcmToken) && remote == old(remote)
      ensures old(currentUserName).Some? ==>
                fcmToken == Some(token)
                && remote == SetData(old(remote), "fcmTokens", old(currentUserName).value,
                                     TokenFields(old(currentUserName).value, token, now))
    {
      match currentUserName
      case None =>
      case Some(userName) =>
        fcmToken := Some(token);
        remote := SetData(remote, "fcmTokens", userName, TokenFields(userName, token, now));
    }

    /** `syncMoment`; the storage URLs are the results of the uploads. */
    method SyncMoment(m: Moment, audioStorageURL: Option<string>, photoStorageURL: Option<string>)
      modifies this
      ensures remote == SetData(old(remote), "moments", UuidString(m.id), MomentFields(m, audioStorageURL, photoStorageURL))
      ensures currentUserName == old(currentUserName) && fcmToken == old(fcmToken)
    {
      remote := SetData(remote, "moments", UuidString(m.id), MomentFields(m, audioStorageURL, photoStorageURL));
    }

    method SyncSignal(s: Signal)
      modifies this
      ensures remote == SetData(old(remote), "signals", UuidString(s.id), SignalFields(s))
      ensures currentUserName == old(currentUserName) && fcmToken == old(fcmToken)
    {
      remote := SetData(remote, "signals", UuidString(s.id), SignalFields(s));
    }

    method SyncPing(p: Ping)
      modifies this
      ensures remote == SetData(old(remote), "pings", UuidString(p.id), PingFields(p.Data()))
      ensures currentUserName == old(currentUserName) && fcmToken == old(fcmToken)
    {
      remote := SetData(remote, "pings", UuidString(p.id), PingFields(p.Data()));
    }

    method SyncBucketItem(item: BucketItem)
      modifies this
      ensures remote == SetData(old(remote), "bucketItems", UuidString(item.id), BucketItemFields(item.Data()))
      ensures currentUserName == old(currentUserName) && fcmToken == old(fcmToken)
    {
      remote := SetData(remote, "bucketItems", UuidString(item.id), BucketItemFields(item.Data()));
    }

    /** `syncUserSettings`: the document is keyed by the user name. */
    method SyncUserSettings(s: UserSettings)
      modifies this
      ensures remote == SetData(old(remote), "userSettings", s.userName, SettingsFields(s.Data()))
      ensures currentUserName == old(currentUserName) && fcmToken == old(fcmToken)
    {
      remote := SetData(remote, "userSettings", s.userName, SettingsFields(s.Data()));
    }
  }

  /** A ping written over any earlier version of its document reads back as
      exactly that ping: the write replaces every field the fetch reads. */
  lemma SyncedPingReadsBack(remote: Remote, p: PingData, now: Time)
    ensures var doc := Document(SetData(remote, "pings", UuidString(p.id), PingFields(p)), "pings", UuidString(p.id));
            doc.Some? && DocId(doc.value) == Some(p.id) && ParsePing(doc.value, p.id, now) == p
  {
    var f := PingFields(p);
    var doc := MergeFields(Document(remote, "pings", UuidString(p.id)), f);
    assert f["id"] == Str(UuidString(p.id)) && f["createdAt"] == Stamp(p.createdAt);
    assert f["author"] == Str(p.author) && f["message"] == Str(p.message) && f["isRead"] == Flag(p.isRead);
    assert doc["id"] == f["id"] && doc["createdAt"] == f["createdAt"] && doc["author"] == f["author"];
    assert doc["message"] == f["message"] && doc["isRead"] == f["isRead"];
    ParseUuidString(p.id);
  }

  /** A bucket item written over any earlier version of its document reads
      back as the same item (an empty description as nil). */
  lemma SyncedBucketItemReadsBack(remote: Remote, b: BucketItemData, now: Time)
    ensures var doc := Document(SetData(remote, "bucketItems", UuidString(b.id), BucketItemFields(b)), "bucketItems", UuidString(b.id));
            doc.Some? && DocId(doc.value) == Some(b.id)
            && ParseBucketItem(doc.value, b.id, now) == b.(description := NonEmpty(b.description))
  {
    var f := BucketItemFields(b);
    var doc := MergeFields(Document(remote, "bucketItems", UuidString(b.id)), f);
    BucketItemRoundTrip(b, now);
    BucketItemFieldsRead(b);
    assert "id" in f && "createdAt" in f && "title" in f && "description" in f && "isCompleted" in f;
    assert "completedAt" in f && "addedBy" in f && "category" in f && "priority" in f;
    assert GetString(doc, "id") == GetString(f, "id");
    assert GetStamp(doc, "createdAt") == GetStamp(f, "createdAt");
    assert GetString(doc, "title") == GetString(f, "title");
    assert GetString(doc, "description") == GetString(f, "description");
    assert GetBool(doc, "isCompleted") == GetBool(f, "isCompleted");
    assert GetStamp(doc, "completedAt") == GetStamp(f, "completedAt");
    assert GetString(doc, "addedBy") == GetString(f, "addedBy");
    assert GetString(doc, "category") == GetString(f, "category");
    assert GetInt(doc, "priority") == GetInt(f, "priority");
  }
}
