/** The character profile screen: one user's moments (searchable), their
    latest signal, the pose carousel over the character's images and the
    nickname editor. */
module CharacterProfile {
  import opened Common
  import opened Moments
  import opened Signals
  import opened Lists
  import opened MomentSearch
  import opened CharacterPoses
  import opened Settings
  import opened SyncFields
  import opened FirebaseSync

  // ---------------------------------------------------------------------
  // Moments and the latest signal of the character
  // ---------------------------------------------------------------------

  function ByAuthor(name: string): Moment -> bool
  {
    (m: Moment) => m.author == name
  }

  /** `characterMoments`: the moments written by `characterName`, in the
      order of the query. */
  function CharacterMoments(moments: seq<Moment>, characterName: string): (r: seq<Moment>)
    ensures forall i :: 0 <= i < |r| ==> r[i].author == characterName && r[i] in moments
    ensures forall i :: 0 <= i < |moments| && moments[i].author == characterName ==> moments[i] in r
  {
    Filter(moments, ByAuthor(characterName))
  }

  /** `filteredCharacterMoments`: the character's moments, narrowed by the
      search text when there is one. */
  function FilteredCharacterMoments(moments: seq<Moment>, characterName: string, searchText: string): seq<Moment>
  {
    Searched(CharacterMoments(moments, characterName), searchText)
  }

  function ByAuthorMatching(name: string, searchText: string): Moment -> bool
  {
    (m: Moment) => m.author == name && MatchesSearch(m, searchText)
  }

  /** With no search text the profile lists every moment of the character;
      with one, exactly the character's moments that match it, in the
      order of the query. */
  lemma FilteredCharacterMomentsAre(moments: seq<Moment>, characterName: string, searchText: string)
    ensures searchText == "" ==> FilteredCharacterMoments(moments, characterName, searchText)
                                 == CharacterMoments(moments, characterName)
    ensures searchText != "" ==> FilteredCharacterMoments(moments, characterName, searchText)
                                 == Filter(moments, ByAuthorMatching(characterName, searchText))
    ensures IsSubsequence(FilteredCharacterMoments(moments, characterName, searchText), moments)
  {
    var p := ByAuthor(characterName);
    var q := SearchPredicate(searchText);
    var both := ByAuthorMatching(characterName, searchText);
    FilterFilter(moments, p, q);
    FilterSameCondition(moments, x => p(x) && q(x), both);
    if searchText == "" {
      FilterIsSubsequence(moments, p);
    } else {
      FilterIsSubsequence(moments, both);
    }
  }

  /** `latestSignal`: the first signal of the character in the query's
      order, or none. */
  function LatestSignal(signals: seq<Signal>, characterName: string): (r: Option<Signal>)
    ensures r.None? <==> forall i :: 0 <= i < |signals| ==> signals[i].author != characterName
    ensures r.Some? ==> r.value.author == characterName && r.value in signals
    ensures r.Some? ==> exists k :: 0 <= k < |signals| && signals[k] == r.value &&
                          forall j :: 0 <= j < k ==> signals[j].author != characterName
  {
    var mine := Filter(signals, (s: Signal) => s.author == characterName);
    if mine == [] then None
    else
      FilterHeadIsFirst(signals, (s: Signal) => s.author == characterName);
      Some(mine[0])
  }

  /** The query sorts signals newest first, so the latest signal is the
      character's newest one. */
  lemma LatestSignalIsNewest(signals: seq<Signal>, characterName: string)
    requires SortedDesc(signals, SignalTime)
    requires LatestSignal(signals, characterName).Some?
    ensures forall i :: 0 <= i < |signals| && signals[i].author == characterName ==>
              signals[i].createdAt <= LatestSignal(signals, characterName).value.createdAt
  {
    var k := FilterFirst(signals, (s: Signal) => s.author == characterName);
    assert forall i :: k <= i < |signals| ==> SignalTime(signals[i]) <= SignalTime(signals[k]);
  }

  // ---------------------------------------------------------------------
  // Poses
  // ---------------------------------------------------------------------

  /** Swift's `/` on `Int`: the quotient is truncated toward zero. */
  function SwiftDiv(a: int, n: int): int
    requires n > 0
  {
    if a >= 0 then a / n else -((-a) / n)
  }

  /** Swift's `%` on `Int`: the remainder of the truncated division, so it
      takes the sign of the dividend. */
  function SwiftRem(a: int, n: int): (r: int)
    requires n > 0
    ensures a == SwiftDiv(a, n) * n + r
    ensures -n < r < n
    ensures a >= 0 ==> r >= 0
    ensures a <= 0 ==> r <= 0
  {
    if a >= 0 then a % n else -((-a) % n)
  }

  /** Euclidean division has one remainder in [0, n). */
  lemma ModUnique(x: int, n: int, q: int, r: int)
    requires n > 0 && 0 <= r < n && x == q * n + r
    ensures x % n == r
  {
    var d := q - x / n;
    assert d * n == x % n - r;
    assert d >= 1 ==> d * n >= n;
    assert d <= -1 ==> d * n <= -n;
  }

  /** `currentPoseImage`: with no poses the character's own image, else the
      pose at the index modulo the number of poses. */
  function CurrentPoseImage(poses: seq<string>, currentPoseIndex: int, isMe: bool,
                            myCharacterImage: Option<string>, herCharacterImage: Option<string>): (r: Option<string>)
    requires poses == [] || currentPoseIndex >= 0
    ensures poses == [] ==> r == if isMe then myCharacterImage else herCharacterImage
    ensures poses != [] ==> r.Some? && r.value in poses
    ensures 0 <= currentPoseIndex < |poses| ==> r == Some(poses[currentPoseIndex])
    ensures poses != [] && currentPoseIndex >= 0 ==> r == Some(poses[currentPoseIndex % |poses|])
  {
    if poses == [] then (if isMe then myCharacterImage else herCharacterImage)
    else Some(poses[SwiftRem(currentPoseIndex, |poses|)])
  }

  /** The left chevron. */
  function PreviousPose(i: int, n: int): (r: int)
    requires n > 0
    ensures i >= 0 ==> 0 <= r < n
  {
    SwiftRem(i - 1 + n, n)
  }

  /** The right chevron. */
  function NextPose(i: int, n: int): (r: int)
    requires n > 0
    ensures i >= 0 ==> 0 <= r < n
  {
    SwiftRem(i + 1, n)
  }

  /** On an index in range the two chevrons undo each other. */
  lemma PreviousNextInverse(i: int, n: int)
    requires 0 <= i < n
    ensures PreviousPose(NextPose(i, n), n) == i
    ensures NextPose(PreviousPose(i, n), n) == i
  {
    var next := if i + 1 == n then 0 else i + 1;
    ModUnique(i + 1, n, if i + 1 == n then 1 else 0, next);
    ModUnique(next - 1 + n, n, if next == 0 then 0 else 1, i);
    var prev := if i == 0 then n - 1 else i - 1;
    ModUnique(i - 1 + n, n, if i == 0 then 0 else 1, prev);
    ModUnique(prev + 1, n, if prev + 1 == n then 1 else 0, i);
  }

  /** The index after pressing the right chevron `k` times. */
  function NextPoseTimes(i: int, n: int, k: nat): (r: int)
    requires n > 0
  {
    if k == 0 then i else NextPose(NextPoseTimes(i, n, k - 1), n)
  }

  /** `k` presses of the right chevron advance the index by `k` modulo the
      number of poses, so `n` presses come back to the start. */
  lemma {:induction false} NextPoseTimesIs(i: int, n: int, k: nat)
    requires n > 0 && 0 <= i < n
    ensures NextPoseTimes(i, n, k) == (i + k) % n
    ensures k == n ==> NextPoseTimes(i, n, k) == i
  {
    if k > 0 {
      NextPoseTimesIs(i, n, k - 1);
      NextPoseOfRemainder(i + k - 1, n);
    } else {
      ModUnique(i, n, 0, i);
    }
    if k == n {
      ModUnique(i + n, n, 1, i);
    }
  }

  /** One press of the right chevron adds one modulo the number of poses. */
  lemma NextPoseOfRemainder(x: int, n: int)
    requires n > 0 && x >= 0
    ensures NextPose(x % n, n) == (x + 1) % n
  {
    var q := x / n;
    var r := x % n;
    assert x == q * n + r;
    if r + 1 == n {
      ModUnique(r + 1, n, 1, 0);
      assert x + 1 == (q + 1) * n + 0;
      ModUnique(x + 1, n, q + 1, 0);
    } else {
      ModUnique(r + 1, n, 0, r + 1);
      ModUnique(x + 1, n, q, r + 1);
    }
  }

  // ---------------------------------------------------------------------
  // Nickname trimming
  // ---------------------------------------------------------------------

  /** `CharacterSet.whitespacesAndNewlines`: the Unicode separators (Zs, Zl,
      Zp), the control characters U+0009 to U+000D and U+0085. */
  predicate IsWhitespace(c: char)
  {
    c == ' ' || '\t' <= c <= '\r' || c == '\U{0085}' || c == '\U{00A0}' || c == '\U{1680}'
    || '\U{2000}' <= c <= '\U{200A}' || c == '\U{2028}' || c == '\U{2029}' || c == '\U{202F}'
    || c == '\U{205F}' || c == '\U{3000}'
  }

  /** The number of whitespace characters `s` starts with. */
  function LeadingWhitespace(s: string): (n: nat)
    ensures n <= |s|
    ensures forall k :: 0 <= k < n ==> IsWhitespace(s[k])
    ensures n < |s| ==> !IsWhitespace(s[n])
  {
    if s == [] || !IsWhitespace(s[0]) then 0 else 1 + LeadingWhitespace(s[1..])
  }

  /** The number of whitespace characters `s` ends with. */
  function TrailingWhitespace(s: string): (n: nat)
    ensures n <= |s|
    ensures forall k :: |s| - n <= k < |s| ==> IsWhitespace(s[k])
    ensures n < |s| ==> !IsWhitespace(s[|s| - n - 1])
  {
    if s == [] || !IsWhitespace(s[|s| - 1]) then 0 else 1 + TrailingWhitespace(s[..|s| - 1])
  }

  /** `trimmingCharacters(in: .whitespacesAndNewlines)`. */
  function Trimmed(s: string): (r: string)
    ensures exists a, b :: 0 <= a <= b <= |s| && r == s[a..b]
                           && (forall k :: 0 <= k < a ==> IsWhitespace(s[k]))
                           && (forall k :: b <= k < |s| ==> IsWhitespace(s[k]))
    ensures r != [] ==> !IsWhitespace(r[0]) && !IsWhitespace(r[|r| - 1])
  {
    var a := LeadingWhitespace(s);
    var rest := s[a..];
    var b := a + |rest| - TrailingWhitespace(rest);
    assert forall k :: b <= k < |s| ==> s[k] == rest[k - a];
    s[a..b]
  }

  /** The nickname `updateNickname` stores: the trimmed text, or nil when
      nothing but whitespace was typed. */
  function NicknameToStore(typed: string): (r: Option<string>)
    ensures r.None? <==> forall k :: 0 <= k < |typed| ==> IsWhitespace(typed[k])
    ensures r.Some? ==> r.value != "" && r.value == Trimmed(typed)
  {
    var t := Trimmed(typed);
    if t == "" then None else Some(t)
  }

  /** Trimming is idempotent, so saving a stored nickname again keeps it. */
  lemma TrimmedIdempotent(s: string)
    ensures Trimmed(Trimmed(s)) == Trimmed(s)
  {
    var t := Trimmed(s);
    if t != [] {
      assert LeadingWhitespace(t) == 0;
      assert TrailingWhitespace(t[0..]) == 0 by {
        assert t[0..] == t;
      }
      assert t[0..|t|] == t;
    }
  }

  // ---------------------------------------------------------------------
  // The screen's state
  // ---------------------------------------------------------------------

  class ProfileScreen {
    const characterName: string
    const userSettings: UserSettings?
    const firebaseManager: FirebaseManager
    var currentPoseIndex: int

    /** `availablePoses`. */
    function AvailablePoses(): seq<string>
    {
      PosesFor(characterName)
    }

    constructor (characterName: string, userSettings: UserSettings?, firebaseManager: FirebaseManager)
      ensures this.characterName == characterName && this.userSettings == userSettings
      ensures this.firebaseManager == firebaseManager && currentPoseIndex == 0
    {
      this.characterName := characterName;
      this.userSettings := userSettings;
      this.firebaseManager := firebaseManager;
      currentPoseIndex := 0;
    }

    /** `onAppear`: the carousel starts at the stored pose. */
    method OnAppear()
      modifies this
      ensures currentPoseIndex == if userSettings == null then 0 else userSettings.currentPoseIndex
    {
      currentPoseIndex := if userSettings == null then 0 else userSettings.currentPoseIndex;
    }

    /** `updatePersistentPoseIndex`: the settings take the pose and are
        synced. */
    method PersistPose(now: Time)
      modifies userSettings, firebaseManager
      ensures userSettings != null ==>
                userSettings.Data() == WithPose(old(userSettings.Data()), currentPoseIndex, now)
                && firebaseManager.remote == SetData(old(firebaseManager.remote), "userSettings",
                                                     userSettings.userName, SettingsFields(userSettings.Data()))
      ensures userSettings == null ==> firebaseManager.remote == old(firebaseManager.remote)
      ensures firebaseManager.currentUserName == old(firebaseManager.currentUserName)
      ensures firebaseManager.fcmToken == old(firebaseManager.fcmToken)
    {
      if userSettings != null {
        userSettings.UpdatePose(currentPoseIndex, now);
        firebaseManager.SyncUserSettings(userSettings);
      }
    }

    /** The left chevron, shown when there are at least two poses. */
    method ShowPreviousPose(now: Time)
      requires |AvailablePoses()| > 1
      modifies this, userSettings, firebaseManager
      ensures currentPoseIndex == PreviousPose(old(currentPoseIndex), |AvailablePoses()|)
      ensures userSettings != null ==>
                userSettings.Data() == WithPose(old(userSettings.Data()), currentPoseIndex, now)
                && firebaseManager.remote == SetData(old(firebaseManager.remote), "userSettings",
                                                     userSettings.userName, SettingsFields(userSettings.Data()))
      ensures userSettings == null ==> firebaseManager.remote == old(firebaseManager.remote)
      ensures firebaseManager.currentUserName == old(firebaseManager.currentUserName)
      ensures firebaseManager.fcmToken == old(firebaseManager.fcmToken)
    {
      currentPoseIndex := PreviousPose(currentPoseIndex, |AvailablePoses()|);
      PersistPose(now);
    }

    /** The right chevron. */
    method ShowNextPose(now: Time)
      requires |AvailablePoses()| > 1
      modifies this, userSettings, firebaseManager
      ensures currentPoseIndex == NextPose(old(currentPoseIndex), |AvailablePoses()|)
      ensures userSettings != null ==>
                userSettings.Data() == WithPose(old(userSettings.Data()), currentPoseIndex, now)
                && firebaseManager.remote == SetData(old(firebaseManager.remote), "userSettings",
                                                     userSettings.userName, SettingsFields(userSettings.Data()))
      ensures userSettings == null ==> firebaseManager.remote == old(firebaseManager.remote)
      ensures firebaseManager.currentUserName == old(firebaseManager.currentUserName)
      ensures firebaseManager.fcmToken == old(firebaseManager.fcmToken)
    {
      currentPoseIndex := NextPose(currentPoseIndex, |AvailablePoses()|);
      PersistPose(now);
    }

    /** "Random Pose": `choice` is the value `Int.random(in: 0..<count)` drew. */
    method ShowRandomPose(choice: int, now: Time)
      requires |AvailablePoses()| > 1
      requires 0 <= choice < |AvailablePoses()|
      modifies this, userSettings, firebaseManager
      ensures 0 <= currentPoseIndex < |AvailablePoses()| && currentPoseIndex == choice
      ensures userSettings != null ==>
                userSettings.Data() == WithPose(old(userSettings.Data()), currentPoseIndex, now)
                && firebaseManager.remote == SetData(old(firebaseManager.remote), "userSettings",
                                                     userSettings.userName, SettingsFields(userSettings.Data()))
      ensures userSettings == null ==> firebaseManager.remote == old(firebaseManager.remote)
      ensures firebaseManager.currentUserName == old(firebaseManager.currentUserName)
      ensures firebaseManager.fcmToken == old(firebaseManager.fcmToken)
    {
      currentPoseIndex := choice;
      PersistPose(now);
    }

    /** `updateNickname`: the trimmed text, blank as nil, stored and synced. */
    method UpdateNickname(typed: string, now: Time)
      modifies userSettings, firebaseManager
      ensures userSettings != null ==>
                userSettings.Data() == WithNickname(old(userSettings.Data()), NicknameToStore(typed), now)
                && firebaseManager.remote == SetData(old(firebaseManager.remote), "userSettings",
                                                     userSettings.userName, SettingsFields(userSettings.Data()))
      ensures userSettings == null ==> firebaseManager.remote == old(firebaseManager.remote)
      ensures firebaseManager.currentUserName == old(firebaseManager.currentUserName)
      ensures firebaseManager.fcmToken == old(firebaseManager.fcmToken)
    {
      if userSettings != null {
        userSettings.UpdateNickname(NicknameToStore(typed), now);
        firebaseManager.SyncUserSettings(userSettings);
      }
    }
  }
}
