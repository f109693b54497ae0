/** What one fetch pass does to the local store, as functions on values: the
    moments, signals, pings and bucket items of the remote collection are
    inserted only when their id parses and no local record has it, and the
    settings documents are upserted by user name. */
module SyncMerge {
  import opened Common
  import opened Uuids
  import opened Settings
  import opened SyncFields
  import opened Lists

  // ---------------------------------------------------------------------
  // Insert-if-absent
  // ---------------------------------------------------------------------

  /** The documents of one pass that get inserted, with their ids, in
      document order; `known` holds the ids already in the store, and grows
      with each insertion. */
  function Accepted(known: set<Uuid>, docs: seq<Fields>): (r: seq<(Uuid, Fields)>)
    ensures |r| <= |docs|
    ensures forall k :: 0 <= k < |r| ==> r[k].1 in docs && DocId(r[k].1) == Some(r[k].0) && r[k].0 !in known
    ensures forall j, k :: 0 <= j < k < |r| ==> r[j].0 != r[k].0
    decreases |docs|
  {
    if docs == [] then []
    else
      match DocId(docs[0])
      case None => Accepted(known, docs[1..])
      case Some(id) =>
        if id in known then Accepted(known, docs[1..])
        else
          var rest := Accepted(known + {id}, docs[1..]);
          assert forall k :: 0 <= k < |rest| ==> rest[k].0 != id;
          [(id, docs[0])] + rest
  }

  function AcceptedIds(acc: seq<(Uuid, Fields)>): set<Uuid>
  {
    set k | 0 <= k < |acc| :: acc[k].0
  }

  /** Every document whose id parses ends up known: already there, or
      accepted. */
  lemma {:induction false} AcceptedCoversDocs(known: set<Uuid>, docs: seq<Fields>)
    ensures forall d :: d in docs && DocId(d).Some? ==> DocId(d).value in known + AcceptedIds(Accepted(known, docs))
    decreases |docs|
  {
    if docs != [] {
      var acc := Accepted(known, docs);
      match DocId(docs[0])
      case None =>
        AcceptedCoversDocs(known, docs[1..]);
      case Some(id) =>
        if id in known {
          AcceptedCoversDocs(known, docs[1..]);
        } else {
          var rest := Accepted(known + {id}, docs[1..]);
          AcceptedCoversDocs(known + {id}, docs[1..]);
          assert acc == [(id, docs[0])] + rest;
          assert acc[0].0 == id;
          assert forall k :: 0 <= k < |rest| ==> rest[k] == acc[k + 1];
          assert AcceptedIds(acc) == {id} + AcceptedIds(rest);
        }
    }
  }

  /** A pass over documents whose ids are all known inserts nothing. */
  lemma {:induction false} AcceptedNoneWhenKnown(known: set<Uuid>, docs: seq<Fields>)
    requires forall d :: d in docs && DocId(d).Some? ==> DocId(d).value in known
    ensures Accepted(known, docs) == []
    decreases |docs|
  {
    if docs != [] {
      assert docs[0] in docs;
      assert forall d :: d in docs[1..] ==> d in docs;
      AcceptedNoneWhenKnown(known, docs[1..]);
    }
  }

  function IdSet<T>(xs: seq<T>, idOf: T -> Uuid): set<Uuid>
  {
    set k | 0 <= k < |xs| :: idOf(xs[k])
  }

  /** No two records share an id. */
  ghost predicate UniqueIds<T>(xs: seq<T>, idOf: T -> Uuid)
  {
    forall i, j :: 0 <= i < j < |xs| ==> idOf(xs[i]) != idOf(xs[j])
  }

  /** The record built for a document keeps the id it was built with. */
  ghost predicate KeepsId<T>(idOf: T -> Uuid, parse: (Uuid, Fields) -> T)
  {
    forall id, d :: idOf(parse(id, d)) == id
  }

  function Parsed<T>(acc: seq<(Uuid, Fields)>, parse: (Uuid, Fields) -> T): (r: seq<T>)
    ensures |r| == |acc|
    ensures forall k :: 0 <= k < |acc| ==> r[k] == parse(acc[k].0, acc[k].1)
  {
    seq(|acc|, k requires 0 <= k < |acc| => parse(acc[k].0, acc[k].1))
  }

  /** The store after one `fetchAndSync` pass over `docs`. */
  function Merged<T>(local: seq<T>, docs: seq<Fields>, idOf: T -> Uuid, parse: (Uuid, Fields) -> T): (r: seq<T>)
    ensures local <= r
    ensures |r| == |local| + |Accepted(IdSet(local, idOf), docs)|
  {
    local + Parsed(Accepted(IdSet(local, idOf), docs), parse)
  }

  /** The effect of one document of the loop, on the store as it stands. */
  function MergeOne<T>(local: seq<T>, d: Fields, idOf: T -> Uuid, parse: (Uuid, Fields) -> T): seq<T>
  {
    match DocId(d)
    case None => local
    case Some(id) => if id in IdSet(local, idOf) then local else local + [parse(id, d)]
  }

  /** A pass is its first document followed by a pass over the rest: this is
      how the loop of each fetch computes the merge. */
  lemma MergedStep<T>(local: seq<T>, docs: seq<Fields>, idOf: T -> Uuid, parse: (Uuid, Fields) -> T)
    requires KeepsId(idOf, parse)
    requires docs != []
    ensures Merged(local, docs, idOf, parse) == Merged(MergeOne(local, docs[0], idOf, parse), docs[1..], idOf, parse)
  {
    var known := IdSet(local, idOf);
    if DocId(docs[0]).Some? && DocId(docs[0]).value !in known {
      MergedStepInsert(local, docs, idOf, parse);
    } else {
      assert MergeOne(local, docs[0], idOf, parse) == local;
      assert Accepted(known, docs) == Accepted(known, docs[1..]);
    }
  }

  lemma MergedStepInsert<T>(local: seq<T>, docs: seq<Fields>, idOf: T -> Uuid, parse: (Uuid, Fields) -> T)
    requires KeepsId(idOf, parse)
    requires docs != [] && DocId(docs[0]).Some? && DocId(docs[0]).value !in IdSet(local, idOf)
    ensures Merged(local, docs, idOf, parse) == Merged(MergeOne(local, docs[0], idOf, parse), docs[1..], idOf, parse)
  {
    var known := IdSet(local, idOf);
    var id := DocId(docs[0]).value;
    var p := parse(id, docs[0]);
    var local' := local + [p];
    IdSetAppend(local, p, idOf);
    var rest := Accepted(known + {id}, docs[1..]);
    AcceptedHead(known, docs);
    ParsedCons((id, docs[0]), rest, parse);
    AppendAssoc(local, [p], Parsed(rest, parse));
  }

  /** The first document of a pass, when its id is new, is accepted first. */
  lemma AcceptedHead(known: set<Uuid>, docs: seq<Fields>)
    requires docs != [] && DocId(docs[0]).Some? && DocId(docs[0]).value !in known
    ensures Accepted(known, docs)
            == [(DocId(docs[0]).value, docs[0])] + Accepted(known + {DocId(docs[0]).value}, docs[1..])
  {
  }

  lemma IdSetAppend<T>(xs: seq<T>, x: T, idOf: T -> Uuid)
    ensures IdSet(xs + [x], idOf) == IdSet(xs, idOf) + {idOf(x)}
  {
    var ys := xs + [x];
    assert idOf(ys[|xs|]) == idOf(x);
    forall k | 0 <= k < |xs|
      ensures idOf(ys[k]) == idOf(xs[k])
    {
      assert ys[k] == xs[k];
    }
  }

  lemma ParsedCons<T>(a: (Uuid, Fields), rest: seq<(Uuid, Fields)>, parse: (Uuid, Fields) -> T)
    ensures Parsed([a] + rest, parse) == [parse(a.0, a.1)] + Parsed(rest, parse)
  {
    var l := Parsed([a] + rest, parse);
    var r := [parse(a.0, a.1)] + Parsed(rest, parse);
    assert forall k :: 1 <= k < |l| ==> ([a] + rest)[k] == rest[k - 1];
    assert forall k :: 0 <= k < |l| ==> l[k] == r[k];
  }

  /** The ids after a pass are the ids before and the accepted ones. */
  lemma MergedIds<T>(local: seq<T>, docs: seq<Fields>, idOf: T -> Uuid, parse: (Uuid, Fields) -> T)
    requires KeepsId(idOf, parse)
    ensures IdSet(Merged(local, docs, idOf, parse), idOf)
            == IdSet(local, idOf) + AcceptedIds(Accepted(IdSet(local, idOf), docs))
  {
    var acc := Accepted(IdSet(local, idOf), docs);
    var r := Merged(local, docs, idOf, parse);
    forall i | 0 <= i < |r|
      ensures idOf(r[i]) in IdSet(local, idOf) + AcceptedIds(acc)
    {
      if i >= |local| {
        assert idOf(r[i]) == acc[i - |local|].0;
      } else {
        assert r[i] == local[i];
      }
    }
    forall k | 0 <= k < |acc|
      ensures acc[k].0 in IdSet(r, idOf)
    {
      assert r[|local| + k] == parse(acc[k].0, acc[k].1);
    }
    forall k | 0 <= k < |local|
      ensures idOf(local[k]) in IdSet(r, idOf)
    {
      assert r[k] == local[k];
    }
  }

  /** Re-running a pass over the same documents inserts nothing. */
  lemma MergedIdempotent<T>(local: seq<T>, docs: seq<Fields>, idOf: T -> Uuid, parse: (Uuid, Fields) -> T)
    requires KeepsId(idOf, parse)
    ensures Merged(Merged(local, docs, idOf, parse), docs, idOf, parse) == Merged(local, docs, idOf, parse)
  {
    var m := Merged(local, docs, idOf, parse);
    MergedIds(local, docs, idOf, parse);
    AcceptedCoversDocs(IdSet(local, idOf), docs);
    AcceptedNoneWhenKnown(IdSet(m, idOf), docs);
  }

  /** After a pass every document whose id parses has a local record. */
  lemma MergedCoversDocs<T>(local: seq<T>, docs: seq<Fields>, idOf: T -> Uuid, parse: (Uuid, Fields) -> T)
    requires KeepsId(idOf, parse)
    ensures forall d :: d in docs && DocId(d).Some? ==> DocId(d).value in IdSet(Merged(local, docs, idOf, parse), idOf)
  {
    MergedIds(local, docs, idOf, parse);
    AcceptedCoversDocs(IdSet(local, idOf), docs);
  }

  /** A pass never creates a duplicate: ids unique before stay unique. */
  lemma MergedKeepsIdsUnique<T>(local: seq<T>, docs: seq<Fields>, idOf: T -> Uuid, parse: (Uuid, Fields) -> T)
    requires KeepsId(idOf, parse)
    requires UniqueIds(local, idOf)
    ensures UniqueIds(Merged(local, docs, idOf, parse), idOf)
  {
    var acc := Accepted(IdSet(local, idOf), docs);
    var r := Merged(local, docs, idOf, parse);
    forall i, j | 0 <= i < j < |r|
      ensures idOf(r[i]) != idOf(r[j])
    {
      if j >= |local| {
        assert idOf(r[j]) == acc[j - |local|].0;
        if i >= |local| {
          assert idOf(r[i]) == acc[i - |local|].0;
        } else {
          assert r[i] == local[i];
        }
      }
    }
  }

  /** Every inserted record is the parse of a document of the pass whose id
      no earlier record had. */
  lemma MergedAddsOnlyParsedDocs<T>(local: seq<T>, docs: seq<Fields>, idOf: T -> Uuid, parse: (Uuid, Fields) -> T)
    ensures var r := Merged(local, docs, idOf, parse);
            forall k :: |local| <= k < |r| ==>
              exists d :: d in docs && DocId(d).Some? && DocId(d).value !in IdSet(local, idOf) && r[k] == parse(DocId(d).value, d)
  {
    var acc := Accepted(IdSet(local, idOf), docs);
    var r := Merged(local, docs, idOf, parse);
    forall k | |local| <= k < |r|
      ensures exists d :: d in docs && DocId(d).Some? && DocId(d).value !in IdSet(local, idOf) && r[k] == parse(DocId(d).value, d)
    {
      var d := acc[k - |local|].1;
      assert r[k] == parse(DocId(d).value, d);
    }
  }

  // ---------------------------------------------------------------------
  // Settings: upsert by user name
  // ---------------------------------------------------------------------

  /** The first local settings record of `userName` (the `first` of a fetch
      filtered on the user name), or `|records|`. */
  function FirstSettingsFor(records: seq<SettingsData>, userName: string): (i: nat)
    ensures i <= |records|
    ensures i < |records| ==> records[i].userName == userName
    ensures forall j :: 0 <= j < i ==> records[j].userName != userName
  {
    FirstWhere(records, (r: SettingsData) => r.userName == userName)
  }

  /** One settings document: the user's existing record takes the document's
      nickname, pose and time; with no record, one is created. */
  function UpsertSettings(records: seq<SettingsData>, d: Fields, freshId: Uuid, now: Time): seq<SettingsData>
  {
    var i := FirstSettingsFor(records, GetString(d, "userName").GetOr(""));
    if i < |records| then records[i := ApplySettingsDoc(records[i], d)]
    else records + [SettingsFromDoc(d, freshId, now)]
  }

  /** A pass over the settings documents; `freshIds` are the ids generated
      for the records that may be created, one per document. */
  function UpsertAll(records: seq<SettingsData>, docs: seq<Fields>, freshIds: seq<Uuid>, now: Time): seq<SettingsData>
    requires |freshIds| == |docs|
    decreases |docs|
  {
    if docs == [] then records
    else UpsertAll(UpsertSettings(records, docs[0], freshIds[0], now), docs[1..], freshIds[1..], now)
  }

  /** At most one settings record per user name. */
  ghost predicate OneSettingsPerUser(records: seq<SettingsData>)
  {
    forall i, j :: 0 <= i < j < |records| ==> records[i].userName != records[j].userName
  }

  /** An upsert updates in place when the user has a record and otherwise
      adds exactly one; records of other users are left as they were. */
  lemma UpsertSettingsEffect(records: seq<SettingsData>, d: Fields, freshId: Uuid, now: Time)
    ensures var u := GetString(d, "userName").GetOr("");
            var r := UpsertSettings(records, d, freshId, now);
            var i := FirstSettingsFor(r, u);
            && i < |r|
            && (|r| == |records| <==> exists j :: 0 <= j < |records| && records[j].userName == u)
            && (|r| == |records| + 1 <==> forall j :: 0 <= j < |records| ==> records[j].userName != u)
            && r[i].nickname == NonEmpty(GetString(d, "nickname"))
            && r[i].currentPoseIndex == GetInt(d, "currentPoseIndex").GetOr(0)
            && (forall j :: 0 <= j < |records| && records[j].userName != u ==> r[j] == records[j])
  {
    var u := GetString(d, "userName").GetOr("");
    var r := UpsertSettings(records, d, freshId, now);
    var i := FirstSettingsFor(records, u);
    assert forall j :: 0 <= j < |records| ==> r[j].userName == records[j].userName;
    FirstSettingsIs(r, u, i);
  }

  lemma FirstSettingsIs(records: seq<SettingsData>, userName: string, i: nat)
    requires i < |records| && records[i].userName == userName
    requires forall j :: 0 <= j < i ==> records[j].userName != userName
    ensures FirstSettingsFor(records, userName) == i
  {
    var k := FirstSettingsFor(records, userName);
    assert k < |records| ==> records[k].userName == userName;
  }

  /** Fetching the same settings document again changes nothing. */
  lemma UpsertSettingsIdempotent(records: seq<SettingsData>, d: Fields, freshId: Uuid, freshId2: Uuid, now: Time, now2: Time)
    ensures UpsertSettings(UpsertSettings(records, d, freshId, now), d, freshId2, now2)
            == UpsertSettings(records, d, freshId, now)
  {
    var u := GetString(d, "userName").GetOr("");
    var r := UpsertSettings(records, d, freshId, now);
    var i := FirstSettingsFor(records, u);
    assert forall j :: 0 <= j < |records| ==> r[j].userName == records[j].userName;
    FirstSettingsIs(r, u, i);
  }

  /** The upsert pass never creates a second record for a user. */
  lemma {:induction false} UpsertAllKeepsOnePerUser(records: seq<SettingsData>, docs: seq<Fields>,
                                                    freshIds: seq<Uuid>, now: Time)
    requires |freshIds| == |docs|
    requires OneSettingsPerUser(records)
    ensures OneSettingsPerUser(UpsertAll(records, docs, freshIds, now))
    decreases |docs|
  {
    if docs != [] {
      var r := UpsertSettings(records, docs[0], freshIds[0], now);
      assert forall j :: 0 <= j < |records| ==> r[j].userName == records[j].userName;
      assert OneSettingsPerUser(r);
      UpsertAllKeepsOnePerUser(r, docs[1..], freshIds[1..], now);
    }
  }
}
