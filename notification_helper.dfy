/** The notification helper: it keeps one device-token record per user name
    (updating the record in place or inserting one), looks up a partner's
    token, and composes the title and body pushed for a shared moment, a
    shared signal and a ping. */
module Notifications {
  import opened Common
  import opened Uuids
  import opened DeviceTokens
  import opened Moments
  import opened Lists

  // ---------------------------------------------------------------------
  // The token records, as values
  // ---------------------------------------------------------------------

  /** The position of the first record for `userName` (the `first` of a fetch
      filtered on the user name), or `|records|` when there is none. */
  function FirstIndexFor(records: seq<DeviceTokenData>, userName: string): (i: nat)
    ensures i <= |records|
    ensures i < |records| ==> records[i].userName == userName
    ensures forall j :: 0 <= j < i ==> records[j].userName != userName
  {
    FirstWhere(records, (r: DeviceTokenData) => r.userName == userName)
  }

  /** `getDeviceToken(for:)`: the token of the first matching record, or nil. */
  function TokenFor(records: seq<DeviceTokenData>, userName: string): (r: Option<string>)
    ensures r.None? <==> forall j :: 0 <= j < |records| ==> records[j].userName != userName
    ensures r.Some? ==> exists j :: 0 <= j < |records| && records[j].userName == userName && records[j].token == r.value
    ensures r.Some? ==> FirstIndexFor(records, userName) < |records| &&
                        r.value == records[FirstIndexFor(records, userName)].token
  {
    var i := FirstIndexFor(records, userName);
    if i < |records| then Some(records[i].token) else None
  }

  /** The records after `registerDeviceToken(token, forUser: userName)`: the
      first record of that user gets the new token, or one new record is
      appended. */
  function Registered(records: seq<DeviceTokenData>, token: string, userName: string, newId: Uuid,
                      now: Time): seq<DeviceTokenData>
  {
    var i := FirstIndexFor(records, userName);
    if i < |records| then records[i := WithToken(records[i], token, now)]
    else records + [NewDeviceToken(newId, userName, token, now)]
  }

  /** At most one record per user name. */
  ghost predicate OnePerUser(records: seq<DeviceTokenData>) {
    forall i, j :: 0 <= i < j < |records| ==> records[i].userName != records[j].userName
  }

  /** After registering, the lookup for that user gives the new token. */
  lemma RegisterThenLookup(records: seq<DeviceTokenData>, token: string, userName: string, newId: Uuid, now: Time)
    ensures TokenFor(Registered(records, token, userName, newId, now), userName) == Some(token)
  {
    var i := FirstIndexFor(records, userName);
    var r := Registered(records, token, userName, newId, now);
    if i < |records| {
      assert forall j :: 0 <= j < i ==> r[j] == records[j];
      FirstIndexIs(r, userName, i);
    } else {
      assert forall j :: 0 <= j < |records| ==> r[j] == records[j];
      FirstIndexIs(r, userName, |records|);
    }
  }

  lemma FirstIndexIs(records: seq<DeviceTokenData>, userName: string, i: nat)
    requires i < |records| && records[i].userName == userName
    requires forall j :: 0 <= j < i ==> records[j].userName != userName
    ensures FirstIndexFor(records, userName) == i
  {
    var k := FirstIndexFor(records, userName);
    assert k < |records| ==> records[k].userName == userName;
  }

  /** Registering updates in place when the user has a record (no record is
      added), otherwise adds exactly one; records of other users are left as
      they were, and so are the lookups of other users. */
  lemma RegisterChangesOnlyThatUser(records: seq<DeviceTokenData>, token: string, userName: string,
                                    newId: Uuid, now: Time, other: string)
    requires other != userName
    ensures var r := Registered(records, token, userName, newId, now);
            && (TokenFor(records, userName).Some? ==> |r| == |records|)
            && (TokenFor(records, userName).None? ==> |r| == |records| + 1 && r[|records|].userName == userName)
            && (forall j :: 0 <= j < |records| && records[j].userName != userName ==> r[j] == records[j])
            && TokenFor(r, other) == TokenFor(records, other)
  {
    var r := Registered(records, token, userName, newId, now);
    var i := FirstIndexFor(records, userName);
    var k := FirstIndexFor(records, other);
    assert forall j :: 0 <= j < |records| ==> r[j].userName == records[j].userName;
    assert forall j :: 0 <= j < |records| && records[j].userName == other ==> r[j] == records[j];
    if k < |records| {
      FirstIndexIs(r, other, k);
    } else {
      assert forall j :: 0 <= j < |r| ==> r[j].userName != other;
    }
  }

  /** Registration never creates a second record for a user. */
  lemma RegisterKeepsOnePerUser(records: seq<DeviceTokenData>, token: string, userName: string,
                                newId: Uuid, now: Time)
    requires OnePerUser(records)
    ensures OnePerUser(Registered(records, token, userName, newId, now))
  {
    var r := Registered(records, token, userName, newId, now);
    assert forall j :: 0 <= j < |records| ==> r[j].userName == records[j].userName;
  }

  // ---------------------------------------------------------------------
  // The token store, as the objects the app updates
  // ---------------------------------------------------------------------

  class TokenStore {
    var tokens: seq<DeviceToken>

    /** No object is listed twice, so updating one record touches no other. */
    ghost predicate Valid()
      reads this
    {
      forall i, j :: 0 <= i < j < |tokens| ==> tokens[i] != tokens[j]
    }

    function Records(): (r: seq<DeviceTokenData>)
      reads this, tokens
      ensures |r| == |tokens|
      ensures forall i :: 0 <= i < |tokens| ==> r[i] == tokens[i].Data()
    {
      seq(|tokens|, i reads this, tokens requires 0 <= i < |tokens| => tokens[i].Data())
    }

    constructor ()
      ensures Valid() && tokens == []
    {
      tokens := [];
    }

    /** `registerDeviceToken(_:forUser:modelContext:)`; the id of a new record
        and the current time are parameters. */
    method RegisterDeviceToken(token: string, userName: string, newId: Uuid, now: Time)
      requires Valid()
      modifies this, tokens
      ensures Valid()
      ensures Records() == Registered(old(Records()), token, userName, newId, now)
      ensures forall t :: t in tokens ==> t in old(tokens) || fresh(t)
    {
      var records := Records();
      var i := FirstIndexFor(records, userName);
      if i < |tokens| {
        tokens[i].UpdateToken(token, now);
        assert forall j :: 0 <= j < |tokens| && j != i ==> tokens[j].Data() == records[j];
      } else {
        var t := new DeviceToken(newId, userName, token, now);
        tokens := tokens + [t];
      }
    }

    /** `getDeviceToken(for:)` (also the debug panel's lookup). */
    method GetDeviceToken(userName: string) returns (r: Option<string>)
      ensures r == TokenFor(Records(), userName)
    {
      var records := Records();
      var i := FirstIndexFor(records, userName);
      r := if i < |tokens| then Some(tokens[i].token) else None;
    }
  }

  // ---------------------------------------------------------------------
  // Notification payloads
  // ---------------------------------------------------------------------

  /** The JSON body posted to the push relay. */
  datatype Notification = Notification(deviceToken: string, title: string, body: string, sound: string)

  /** The emoji and verb phrase of a moment notification title. */
  function MomentHeading(kind: MomentKind): (string, string)
  {
    match kind
    case Text => ("💭 ", " shared a moment")
    case Photo => ("📸 ", " shared a photo")
    case Voice => ("🎤 ", " shared a voice note")
  }

  function MomentDefaultBody(kind: MomentKind): string
  {
    match kind
    case Text => "New text moment"
    case Photo => "Check out this moment"
    case Voice => "Listen to this moment"
  }

  /** Title and body of `notifySharedMoment`: the title names the sender and
      the kind only; the body is the moment's title when it has one,
      otherwise a default for the kind. */
  function MomentTitleAndBody(fromUser: string, kind: MomentKind, title: Option<string>): (r: (string, string))
    ensures OccursAt(r.0, fromUser, 2)
    ensures r.1 == if title.Some? then title.value else MomentDefaultBody(kind)
  {
    var (emoji, phrase) := MomentHeading(kind);
    var t := emoji + fromUser + phrase;
    assert t[2..2 + |fromUser|] == fromUser;
    (t, if title.Some? then title.value else MomentDefaultBody(kind))
  }

  /** The moment title does not depend on the moment's own title, and
      different kinds give different titles. */
  lemma MomentTitleDependsOnKindAndSender(fromUser: string, k1: MomentKind, k2: MomentKind,
                                          t1: Option<string>, t2: Option<string>)
    ensures MomentTitleAndBody(fromUser, k1, t1).0 == MomentTitleAndBody(fromUser, k2, t2).0 <==> k1 == k2
  {
    if k1 != k2 {
      var a := MomentTitleAndBody(fromUser, k1, t1).0;
      var b := MomentTitleAndBody(fromUser, k2, t2).0;
      assert a[0] == MomentHeading(k1).0[0];
      assert b[0] == MomentHeading(k2).0[0];
    }
  }

  /** The emoji of `notifySharedSignal`: above 20, above 0, above -20, else. */
  function SignalEmoji(mood: real): string
  {
    if mood > 20.0 then "😄"
    else if mood > 0.0 then "😊"
    else if mood > -20.0 then "😐"
    else "💙"
  }

  /** Each mood falls in exactly one band and the bands go up with the mood. */
  lemma SignalEmojiBands(mood: real)
    ensures SignalEmoji(mood) == "😄" <==> mood > 20.0
    ensures SignalEmoji(mood) == "😊" <==> 0.0 < mood <= 20.0
    ensures SignalEmoji(mood) == "😐" <==> -20.0 < mood <= 0.0
    ensures SignalEmoji(mood) == "💙" <==> mood <= -20.0
  {
  }

  function SignalTitle(fromUser: string, mood: real): string
  {
    SignalEmoji(mood) + " " + fromUser + " shared their signal"
  }

  function PingTitle(fromUser: string): (t: string)
    ensures OccursAt(t, fromUser, 2)
  {
    var t := "💬 " + fromUser + " sent a ping!";
    assert t[2..2 + |fromUser|] == fromUser;
    t
  }

  /** `notifySharedMoment`: nothing is sent when the recipient has no token. */
  function NotifySharedMoment(records: seq<DeviceTokenData>, fromUser: string, toUser: string,
                              kind: MomentKind, title: Option<string>): (n: Option<Notification>)
    ensures n.None? <==> TokenFor(records, toUser).None?
    ensures n.Some? ==> n.value.deviceToken == TokenFor(records, toUser).value
                        && (n.value.title, n.value.body) == MomentTitleAndBody(fromUser, kind, title)
                        && n.value.sound == "default"
  {
    match TokenFor(records, toUser)
    case None => None
    case Some(token) =>
      var (t, b) := MomentTitleAndBody(fromUser, kind, title);
      Some(Notification(token, t, b, "default"))
  }

  /** `notifySharedSignal`. */
  function NotifySharedSignal(records: seq<DeviceTokenData>, fromUser: string, toUser: string,
                              mood: real): (n: Option<Notification>)
    ensures n.None? <==> TokenFor(records, toUser).None?
    ensures n.Some? ==> n.value.deviceToken == TokenFor(records, toUser).value
                        && n.value.title == SignalTitle(fromUser, mood)
                        && n.value.body == "See how they're feeling right now"
  {
    match TokenFor(records, toUser)
    case None => None
    case Some(token) => Some(Notification(token, SignalTitle(fromUser, mood), "See how they're feeling right now", "default"))
  }

  /** `notifyPing`: the body is the message verbatim and the title embeds the
      sender. */
  function NotifyPing(records: seq<DeviceTokenData>, fromUser: string, toUser: string,
                      message: string): (n: Option<Notification>)
    ensures n.None? <==> TokenFor(records, toUser).None?
    ensures n.Some? ==> n.value.deviceToken == TokenFor(records, toUser).value
                        && n.value.body == message && OccursAt(n.value.title, fromUser, 2)
  {
    match TokenFor(records, toUser)
    case None => None
    case Some(token) => Some(Notification(token, PingTitle(fromUser), message, "default"))
  }
}
