/** The debug panel's derived values: the user's name with its fallback,
    the partner's name, the lookup of a user's device token, and the
    per-author moment counts. */
module DebugPanel {
  import opened Common
  import opened DeviceTokens
  import opened Moments
  import opened Lists
  import opened Notifications

  /** `myName`: the stored name, or "Unknown" when none is stored. */
  function MyName(stored: Option<string>): (name: string)
    ensures stored.Some? ==> name == stored.value
    ensures stored.None? ==> name == "Unknown"
  {
    stored.GetOr("Unknown")
  }

  /** `herName`: "Maya" for Malik, "Malik" for anyone else. */
  function HerName(myName: string): (her: string)
    ensures her != myName
    ensures her == "Maya" <==> myName == "Malik"
    ensures her == "Malik" <==> myName != "Malik"
  {
    if myName == "Malik" then "Maya" else "Malik"
  }

  /** For either of the two users, the partner's partner is the user. */
  lemma PartnerOfPartner(myName: string)
    requires myName == "Malik" || myName == "Maya"
    ensures HerName(HerName(myName)) == myName
  {
  }

  /** `getDeviceToken(for:)`: the token of the first record for the user,
      and nothing when no record is for that user. */
  lemma DeviceTokenIsFirstMatch(records: seq<DeviceTokenData>, userName: string, i: nat)
    requires i < |records| && records[i].userName == userName
    requires forall j :: 0 <= j < i ==> records[j].userName != userName
    ensures TokenFor(records, userName) == Some(records[i].token)
  {
    FirstIndexIs(records, userName, i);
  }

  function AuthoredBy(name: string): Moment -> bool
  {
    (m: Moment) => m.author == name
  }

  /** The two counts of the panel: the user's moments and the partner's. */
  function MomentCounts(moments: seq<Moment>, myName: string): (counts: (nat, nat))
    ensures counts.0 == CountWhere(moments, AuthoredBy(myName))
    ensures counts.1 == CountWhere(moments, AuthoredBy(HerName(myName)))
    ensures counts.0 + counts.1 <= |moments|
    ensures forall i :: 0 <= i < |moments| && moments[i].author == myName ==> counts.0 > 0
    ensures forall i :: 0 <= i < |moments| && moments[i].author == HerName(myName) ==> counts.1 > 0
  {
    var mine := Filter(moments, AuthoredBy(myName));
    var hers := Filter(moments, AuthoredBy(HerName(myName)));
    DisjointFiltersCount(moments, AuthoredBy(myName), AuthoredBy(HerName(myName)));
    FilterLengthIsCount(moments, AuthoredBy(myName));
    FilterLengthIsCount(moments, AuthoredBy(HerName(myName)));
    (|mine|, |hers|)
  }
}
