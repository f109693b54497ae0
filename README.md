# parallel — a verified model of the app's core

"parallel" is a two-user iOS app for a couple. Each partner records
*moments* (a text note, a photo or a voice clip, private or shared), mood
*signals* (energy, mood and closeness levels), short *pings* and entries
of a shared *bucket list*. Both devices keep a local store and mirror it
through a cloud document database: each record is written as a dictionary
of fields, and a fetch pass inserts every remote record whose id is not
yet known locally. Push notifications are addressed through a per-user
device-token registry. The views add form validators, filters, search, a
day-grouped signal timeline, mood bands, a character-pose carousel and a
voice recorder with a 20-second cap.

This Dafny project models that core and proves what it promises:

- **Records** (`BucketItems`, `Moments`, `Pings`, `DeviceTokens`,
  `Settings`, `Signals`, `CharacterPoses`). Records the app mutates in
  place are classes. Each class has a `Data()` snapshot, and each mutating
  method is specified by a pure function on that snapshot. Lemmas then
  prove that the completion flag and date move together, that updates
  are idempotent or last-write-wins, that raw values round-trip, and how
  pronouns and poses are chosen.
- **Cloud sync** (`SyncFields`, `SyncMerge`, `FirebaseSync`).
  - Every record maps to a field dictionary and parses back with the
    fetch's defaults. Round trips are proved per record kind.
  - `setData(merge: true)` is a right-biased merge of one document.
  - The `fetchAndSync*` loops are methods on a `LocalStore` class, proved
    against the pure "insert if the id is absent" merge. The merge is
    proved idempotent, complete and, while every local fetch succeeds,
    free of duplicates.
  - The settings fetch is an upsert keyed by user name.
  - The download retry loop is capped at three attempts.
  - Token registration is skipped while no user name is set.
- **Notifications** (`NotificationManagement`, `Notifications`).
  - The APNs token is hex-encoded in lower case, as in section 8 of
    RFC 4648. The encoding is proved decodable, injective and
    compositional.
  - The permission-status reactions are modelled.
  - The token registry is an upsert per user name, and the lookup returns
    the first matching record.
  - The notification title, body and emoji are selected by kind and mood.
- **Views** (`AddMoment`, `AddPing`, `BucketList`, `MomentTimeline`,
  `MomentSearch`, `CharacterProfile`, `SignalTimeline`, `SignalPanel`,
  `DebugPanel`).
  - Validators and the records that the save buttons create.
  - The author, shared and search filters.
  - Signal day grouping. The result is proved to be a permutation of the
    filtered list, in strictly descending days, with each day's signals
    newest first.
  - Mood bands, the slider clamp and the circular pose arithmetic (Swift's
    truncating `%` is written out).
  - Nickname trimming, the recorder state machine and the partner mapping.

Dates are whole seconds on an integer clock. Identifiers are 16-byte
UUIDs with their exact 36-character upper-case text form. Strings are
sequences of characters.

## Model

| member | source | states |
|---|---|---|
| BucketItems.ParseCategory | parallel/BucketItem.swift:39-47 | a parsed category has the raw value that was parsed |
| BucketItems.RawValue | parallel/BucketItem.swift:39-47 | the category's raw string; `ParseRawValue` and `RawValueInjective` prove it parses back and tells the categories apart |
| BucketItems.ParseRawValue | parallel/BucketItem.swift:39-47 | parsing the raw value of any category gives that category back |
| BucketItems.RawValueInjective | parallel/BucketItem.swift:39-47 | the eight raw values are pairwise distinct |
| BucketItems.IconAndColorIdentifyCategory | parallel/BucketItem.swift:49-73 | no two categories share an icon or a colour, so each has exactly one of each |
| BucketItems.Icon | parallel/BucketItem.swift:49-60 | the category's icon; `IconAndColorIdentifyCategory` proves no two categories share one |
| BucketItems.Color | parallel/BucketItem.swift:62-73 | the category's colour; `IconAndColorIdentifyCategory` proves no two categories share one |
| BucketItems.NewItem | parallel/BucketItem.swift:16-26 | a new item stores its arguments, is not completed and has no completion date |
| BucketItems.Completed | parallel/BucketItem.swift:28-31 | `complete()` sets the flag and the date to now, keeps the details, and keeps flag and date consistent |
| BucketItems.Uncompleted | parallel/BucketItem.swift:33-36 | `uncomplete()` clears the flag and the date, keeps the details, and keeps flag and date consistent |
| BucketItems.UncompleteIdempotent | parallel/BucketItem.swift:33-36 | uncompleting twice equals uncompleting once |
| BucketItems.CompleteThenUncompleteRestoresNew | parallel/BucketItem.swift:16-36 | completing and then uncompleting a new item gives back the new item |
| BucketItems.BucketItem.constructor | parallel/BucketItem.swift:16-26 | the object's snapshot is `NewItem` of the arguments |
| BucketItems.BucketItem.Complete | parallel/BucketItem.swift:28-31 | the object's new snapshot is `Completed` of the old one |
| BucketItems.BucketItem.Uncomplete | parallel/BucketItem.swift:33-36 | the object's new snapshot is `Uncompleted` of the old one |
| Moments.ParseKind | parallel/Moment.swift:29-33 | a parsed kind has the parsed raw value; any string other than "text", "voice" or "photo" parses to nothing |
| Moments.ParseKindRawValue | parallel/Moment.swift:29-33 | parsing the raw value of a kind gives that kind back |
| Moments.NewMomentFields | parallel/Moment.swift:16-26 | the initializer stores every argument as given, and omitted content fields are nil |
| Moments.NewMoment | parallel/Moment.swift:16-26 | the moment `init` builds; `NewMomentFields` states what each field holds |
| Pings.NewPing | parallel/Ping.swift:12-18 | a new ping is unread and keeps author and message verbatim |
| Pings.MarkedRead | parallel/Ping.swift:20-22 | `markAsRead` sets `isRead` and changes no other field |
| Pings.MarkAsReadIdempotent | parallel/Ping.swift:20-22 | marking read twice equals marking once; a read ping is unchanged |
| Pings.Ping.constructor | parallel/Ping.swift:12-18 | the object's snapshot is `NewPing` of the arguments |
| Pings.Ping.MarkAsRead | parallel/Ping.swift:20-22 | the object's new snapshot is `MarkedRead` of the old one |
| DeviceTokens.NewDeviceToken | parallel/DeviceToken.swift:11-16 | a new record stores the user name and token, stamped now |
| DeviceTokens.WithToken | parallel/DeviceToken.swift:18-21 | an update replaces the token, advances `updatedAt` and keeps id and user name |
| DeviceTokens.LastUpdateWins | parallel/DeviceToken.swift:18-21 | two successive updates leave the second |
| DeviceTokens.DeviceToken.constructor | parallel/DeviceToken.swift:11-16 | the object's snapshot is `NewDeviceToken` of the arguments |
| DeviceTokens.DeviceToken.UpdateToken | parallel/DeviceToken.swift:18-21 | the object's new snapshot is `WithToken` of the old one |
| Settings.PronounsFor | parallel/UserSettings.swift:24-39 | "malik" in the lower-cased name gives he/him; otherwise "maya" gives she/her; otherwise they/them. Each case is stated in both directions |
| Settings.PronounsIgnoreCase | parallel/UserSettings.swift:24-39 | a name and its lower-cased form get the same pronouns |
| Settings.PronounsOfTheTwoUsers | parallel/UserSettings.swift:24-33 | "Malik" is he/him and "Maya" is she/her |
| Settings.NewSettings | parallel/UserSettings.swift:16-40 | `init` stores user name, nickname and pose, and takes its pronouns from the name |
| Settings.WithPose | parallel/UserSettings.swift:42-45 | `updatePose` sets the pose and `updatedAt` and keeps id, user name, nickname and pronouns |
| Settings.WithNickname | parallel/UserSettings.swift:47-50 | `updateNickname` sets the nickname (nil included) and `updatedAt` and keeps the pose |
| Settings.UserSettings.constructor | parallel/UserSettings.swift:16-40 | the object's snapshot is `NewSettings` of the arguments |
| Settings.UserSettings.UpdatePose | parallel/UserSettings.swift:42-45 | the object's new snapshot is `WithPose` of the old one |
| Settings.UserSettings.UpdateNickname | parallel/UserSettings.swift:47-50 | the object's new snapshot is `WithNickname` of the old one |
| CharacterPoses.PosesFor | parallel/ImageCharacter.swift:43-53 | malik poses if and only if the name contains "malik"; maya poses if and only if it contains "maya" or "sarah" but not "malik"; otherwise none. Each result is empty or has 3 poses |
| CharacterPoses.PosesAgreeWithPronouns | parallel/ImageCharacter.swift:46-53 | the pose list and the default pronouns come from the same name test |
| Uuids.UuidString | parallel/FirebaseManager.swift:218 | `uuidString` has 36 characters, hyphens exactly at 8, 13, 18 and 23, and upper-case hex digits elsewhere |
| Uuids.ParseUuid | parallel/FirebaseManager.swift:314 | `UUID(uuidString:)` accepts only the 8-4-4-4-12 layout |
| Uuids.ParseUuidString | parallel/FirebaseManager.swift:314 | parsing the string of a UUID gives the UUID back, so the ids written by sync survive the fetch |
| Uuids.UuidStringInjective | parallel/FirebaseManager.swift:231 | distinct ids give distinct document keys |
| NotificationManagement.TokenString | parallel/NotificationManager.swift:61 | two lower-case hex digits per byte, high nibble first |
| NotificationManagement.TokenStringDecodes | parallel/NotificationManager.swift:61 | decoding the token string gives back the bytes |
| NotificationManagement.TokenStringInjective | parallel/NotificationManager.swift:61 | different tokens give different strings |
| NotificationManagement.TokenStringAppend | parallel/NotificationManager.swift:61 | encoding a concatenation concatenates the encodings |
| NotificationManagement.NotificationManager.constructor | parallel/NotificationManager.swift:7-12 | no token and no permission at start |
| NotificationManagement.NotificationManager.SetDeviceToken | parallel/NotificationManager.swift:60-65 | `deviceToken` becomes the encoded string |
| NotificationManagement.NotificationManager.HandleAuthorizationStatus | parallel/NotificationManager.swift:41-55 | not determined asks for permission; authorized or provisional grants and registers; denied revokes; an unknown status changes nothing |
| NotificationManagement.NotificationManager.PermissionAnswered | parallel/NotificationManager.swift:14-33 | the answer becomes the permission flag, and the app registers exactly when permission was granted |
| Notifications.FirstIndexFor | parallel/NotificationHelper.swift:14-21 | the position of the first record of the user, or the length when there is none |
| Notifications.TokenFor | parallel/NotificationHelper.swift:144-168 | the lookup returns nil exactly when no record is for the user, and otherwise the token of the user's first record |
| Notifications.RegisterThenLookup | parallel/NotificationHelper.swift:14-28 | after registering a token for a user, the lookup for that user returns it |
| Notifications.Registered | parallel/NotificationHelper.swift:14-28 | the records after registering; `RegisterThenLookup`, `RegisterChangesOnlyThatUser` and `RegisterKeepsOnePerUser` state its effect |
| Notifications.RegisterChangesOnlyThatUser | parallel/NotificationHelper.swift:14-28 | an existing record is updated in place with no record added; otherwise exactly one record is appended; other records are unchanged |
| Notifications.RegisterKeepsOnePerUser | parallel/NotificationHelper.swift:14-28 | registration never creates a second record for a user |
| Notifications.TokenStore.RegisterDeviceToken | parallel/NotificationHelper.swift:10-40 | the store's records after the call are `Registered` of the records before |
| Notifications.TokenStore.GetDeviceToken | parallel/NotificationHelper.swift:138-174 | returns `TokenFor` of the records |
| Notifications.MomentTitleAndBody | parallel/NotificationHelper.swift:58-68 | the title embeds the sender; the body is the moment's title, or the default for the kind |
| Notifications.MomentTitleDependsOnKindAndSender | parallel/NotificationHelper.swift:58-68 | two titles for one sender are equal if and only if the kinds are equal, whatever the moments' titles |
| Notifications.SignalEmojiBands | parallel/NotificationHelper.swift:93-102 | the four emoji bands (above 20, above 0, above -20, the rest) are exclusive and exhaustive |
| Notifications.PingTitle | parallel/NotificationHelper.swift:130 | the ping title embeds the sender |
| Notifications.NotifySharedMoment | parallel/NotificationHelper.swift:43-78 | nothing is sent if and only if the recipient has no token; otherwise the message goes to that token with the selected title and body |
| Notifications.NotifySharedSignal | parallel/NotificationHelper.swift:81-112 | nothing is sent if and only if the recipient has no token; otherwise the title carries the mood emoji |
| Notifications.NotifyPing | parallel/NotificationHelper.swift:115-135 | nothing is sent if and only if the recipient has no token; otherwise the body is the message verbatim and the title embeds the sender |
| SyncFields.NonEmpty | parallel/FirebaseManager.swift:320-321 | an empty or missing string reads as nil, and a non-empty one as itself |
| SyncFields.NonEmptyOrEmpty | parallel/FirebaseManager.swift:222-225 | writing an optional string as `?? ""` and reading it back loses only an empty string |
| SyncFields.DocId | parallel/FirebaseManager.swift:314 | an accepted id is the "id" string field parsed as a UUID |
| SyncFields.MergeFields | parallel/FirebaseManager.swift:231 | `merge: true` writes the given keys and keeps every other key of the document |
| SyncFields.MergeFieldsIdempotent | parallel/FirebaseManager.swift:231 | writing the same fields twice equals writing them once |
| SyncFields.SetData | parallel/FirebaseManager.swift:231 | only the addressed document changes, and it becomes the merge |
| SyncFields.TokenFields | parallel/FirebaseManager.swift:97-102 | the token document: user name, token, time and platform "ios"; `RegisterFCMToken` writes it |
| SyncFields.MomentFields | parallel/FirebaseManager.swift:217-229 | the moment document; `MomentFieldsRead` and `MomentRoundTrip` state what reads back |
| SyncFields.SignalFields | parallel/FirebaseManager.swift:240-247 | the signal document; `SignalFieldsRead` and `SignalRoundTrip` state what reads back |
| SyncFields.PingFields | parallel/FirebaseManager.swift:258-265 | the ping document; `PingRoundTrip` proves it reads back as the same ping |
| SyncFields.BucketItemFields | parallel/FirebaseManager.swift:270-281 | the item document; `BucketItemFieldsRead` and `BucketItemRoundTrip` state what reads back |
| SyncFields.SettingsFields | parallel/FirebaseManager.swift:286-293 | the settings document; `SettingsRoundTrip` proves it reads back |
| SyncFields.ParseMoment | parallel/FirebaseManager.swift:337-349 | the fetched moment has the document's id, author and time (now if missing), kind (text if unknown), and shared only if the flag is true; each optional string (title, text, audio and photo path) is kept exactly when the document holds it non-empty and is nil otherwise |
| SyncFields.MomentRoundTrip | parallel/FirebaseManager.swift:217-229 | a synced moment parses back with the same id and fields, except that empty optional strings become nil |
| SyncFields.MomentFieldsRead | parallel/FirebaseManager.swift:217-229 | what each field of the moment document reads as |
| SyncFields.MediaDownloads | parallel/FirebaseManager.swift:320-335 | a download is started for the photo (then the audio) exactly when both its URL and its path are non-empty |
| SyncFields.SyncedMomentDownloads | parallel/FirebaseManager.swift:217-229 | a synced moment asks for its photo exactly when it has a photo path and an uploaded URL, and likewise for audio |
| SyncFields.ParseSignal | parallel/FirebaseManager.swift:367-384 | a fetched signal has the document's id, author and time; an unknown or missing sentiment becomes "okay" |
| SyncFields.SignalRoundTrip | parallel/FirebaseManager.swift:240-247 | a synced signal parses back with the same id, time, author, sharing and known sentiment |
| SyncFields.SignalFieldsRead | parallel/FirebaseManager.swift:240-247 | what each field of the signal document reads as |
| SyncFields.ParsePing | parallel/FirebaseManager.swift:407-415 | a fetched ping has the document's id, author, message and time; it is read only if the flag is true |
| SyncFields.PingRoundTrip | parallel/FirebaseManager.swift:258-265 | a synced ping parses back as exactly the same ping |
| SyncFields.ParseBucketItem | parallel/FirebaseManager.swift:438-452 | a fetched item defaults to category other and priority 2; the description is kept exactly when the document holds it non-empty; `completedAt` is restored only from a timestamp |
| SyncFields.BucketItemRoundTrip | parallel/FirebaseManager.swift:270-281 | a synced item parses back as the same item, with an empty description read as nil, and a nil completion date is written as null |
| SyncFields.BucketItemFieldsRead | parallel/FirebaseManager.swift:270-281 | what each field of the item document reads as |
| SyncFields.ApplySettingsDoc | parallel/FirebaseManager.swift:474-479 | an existing record takes the nickname, the pose (0 if missing) and the time from the document, and keeps id, user name and pronouns |
| SyncFields.SettingsFromDoc | parallel/FirebaseManager.swift:481-494 | a new record takes the document's id if it parses (else a fresh one), its user name with the matching pronouns, its nickname, pose and time |
| SyncFields.SettingsRoundTrip | parallel/FirebaseManager.swift:286-293 | synced settings read back on another device give the same record, with an empty nickname read as nil |
| SyncMerge.Accepted | parallel/FirebaseManager.swift:312-318 | the documents inserted by a pass are the ones whose id parses, is not known and is not repeated earlier in the pass |
| SyncMerge.AcceptedCoversDocs | parallel/FirebaseManager.swift:312-318 | after a pass, every document whose id parses is known |
| SyncMerge.AcceptedNoneWhenKnown | parallel/FirebaseManager.swift:316-318 | a pass over documents whose ids are all known inserts nothing |
| SyncMerge.Parsed | parallel/FirebaseManager.swift:337-351 | each accepted document becomes its parsed record, in order |
| SyncMerge.Merged | parallel/FirebaseManager.swift:306-357 | the store after a pass extends the store before by one record per accepted document |
| SyncMerge.MergedStep | parallel/FirebaseManager.swift:312-318 | a pass is its first document followed by a pass over the rest |
| SyncMerge.MergedIds | parallel/FirebaseManager.swift:312-318 | the ids after a pass are the ids before plus the accepted ones |
| SyncMerge.MergedIdempotent | parallel/FirebaseManager.swift:316-318 | a second pass over the same documents inserts nothing |
| SyncMerge.MergedCoversDocs | parallel/FirebaseManager.swift:312-318 | after a pass, every document whose id parses has a local record |
| SyncMerge.MergedKeepsIdsUnique | parallel/FirebaseManager.swift:314-318 | a pass never duplicates an id |
| SyncMerge.MergedAddsOnlyParsedDocs | parallel/FirebaseManager.swift:314-351 | every inserted record is the parse of a pass document whose id was unknown |
| SyncMerge.FirstSettingsFor | parallel/FirebaseManager.swift:471-474 | the first local settings record of the user, or the length when there is none |
| SyncMerge.UpsertSettings | parallel/FirebaseManager.swift:467-494 | one settings document applied; `UpsertSettingsEffect` and `UpsertSettingsIdempotent` state its effect |
| SyncMerge.UpsertAll | parallel/FirebaseManager.swift:467-494 | the settings pass over all documents; `UpsertAllKeepsOnePerUser` proves it keeps one record per user |
| SyncMerge.UpsertSettingsEffect | parallel/FirebaseManager.swift:471-494 | an existing record of the user is updated in place with nothing added; otherwise exactly one record is appended |
| SyncMerge.UpsertSettingsIdempotent | parallel/FirebaseManager.swift:471-494 | fetching the same settings document twice equals fetching it once |
| SyncMerge.UpsertAllKeepsOnePerUser | parallel/FirebaseManager.swift:461-499 | the settings pass never creates a second record for a user |
| FirebaseSync.ParsersKeepIds | parallel/FirebaseManager.swift:346 | each record built from a document carries the document's id |
| FirebaseSync.LocalStore.constructor | parallel/FirebaseManager.swift:43-46 | the local store (the `modelContext` declared at line 19 and handed in by `setModelContext`) starts with no records |
| FirebaseSync.LocalStore.FetchAndSyncMoments | parallel/FirebaseManager.swift:306-357 | the loop leaves the moments as `Merged` of the old moments, returns the downloads of the accepted documents, and changes nothing else |
| FirebaseSync.LocalStore.SyncMomentDoc | parallel/FirebaseManager.swift:313-351 | one document of the moment loop |
| FirebaseSync.LocalStore.FetchAndSyncSignals | parallel/FirebaseManager.swift:359-391 | the loop leaves the signals as `Merged` of the old signals and changes nothing else |
| FirebaseSync.LocalStore.FetchAndSyncPings | parallel/FirebaseManager.swift:393-422 | the loop inserts one new ping object per accepted document, so the ping records become `Merged` of the old records |
| FirebaseSync.LocalStore.FetchAndSyncBucketItems | parallel/FirebaseManager.swift:424-459 | the loop inserts one new item object per accepted document, so the item records become `Merged` of the old records |
| FirebaseSync.LocalStore.InsertPing | parallel/FirebaseManager.swift:407-417 | one fetched ping is appended |
| FirebaseSync.LocalStore.InsertBucketItem | parallel/FirebaseManager.swift:438-454 | one fetched item is appended |
| FirebaseSync.LocalStore.FetchAndSyncUserSettings | parallel/FirebaseManager.swift:461-499 | the loop leaves the settings records as `UpsertAll` of the old records |
| FirebaseSync.LocalStore.UpsertOneSettings | parallel/FirebaseManager.swift:467-494 | one settings document: the records become `UpsertSettings` of the old records |
| FirebaseSync.LocalStore.UpdateSettingsAt | parallel/FirebaseManager.swift:474-479 | the existing record at position k takes the document's fields and no other record changes |
| FirebaseSync.LocalStore.InsertSettings | parallel/FirebaseManager.swift:481-493 | one new settings object built from the document is appended |
| FirebaseSync.SettingsObjectFromDoc | parallel/FirebaseManager.swift:482-492 | the new object's snapshot is `SettingsFromDoc` |
| FirebaseSync.DownloadFile | parallel/FirebaseManager.swift:159-191 | no attempt if the file exists; otherwise 1 to 3 attempts, stopping at the first success. The result is a download if and only if one of the first three attempts succeeds, and a failure after three failed attempts |
| FirebaseSync.FirebaseManager.constructor | parallel/FirebaseManager.swift:13-29 | no user name, no token and no remote documents at start |
| FirebaseSync.FirebaseManager.SetUser | parallel/FirebaseManager.swift:49-50 | `authenticateUser` stores the user name and changes neither the token nor the remote documents |
| FirebaseSync.FirebaseManager.RegisterFCMToken | parallel/FirebaseManager.swift:88-111 | with no user name nothing changes; otherwise the token is kept and written to the user's token document |
| FirebaseSync.FirebaseManager.SyncMoment | parallel/FirebaseManager.swift:195-238 | the moment's document (keyed by its id string) is merged with its field map |
| FirebaseSync.FirebaseManager.SyncSignal | parallel/FirebaseManager.swift:240-256 | the signal's document is merged with its field map |
| FirebaseSync.FirebaseManager.SyncPing | parallel/FirebaseManager.swift:258-268 | the ping's document is merged with its field map |
| FirebaseSync.FirebaseManager.SyncBucketItem | parallel/FirebaseManager.swift:270-284 | the item's document is merged with its field map |
| FirebaseSync.FirebaseManager.SyncUserSettings | parallel/FirebaseManager.swift:286-302 | the settings document, keyed by user name, is merged with its field map |
| FirebaseSync.SyncedPingReadsBack | parallel/FirebaseManager.swift:258-267 | a ping written over any earlier version of its document reads back as the same ping |
| FirebaseSync.SyncedBucketItemReadsBack | parallel/FirebaseManager.swift:270-283 | an item written over any earlier version of its document reads back as the same item |
| Lists.Filter | parallel/SignaltimelineView.swift:24 | `filter` keeps exactly the elements that satisfy the condition |
| Lists.FilterIsSubsequence | parallel/SignaltimelineView.swift:24-26 | a filter result keeps the input's order |
| Lists.FilterLengthIsCount | parallel/DebugView.swift:147-149 | `filter { p }.count` equals the number of elements that satisfy `p`, counted independently |
| Lists.DisjointFiltersCount | parallel/DebugView.swift:147-149 | two filters whose conditions never hold together keep at most the whole list between them |
| Lists.SortDesc | parallel/SignaltimelineView.swift:37 | `sorted { $0.createdAt > $1.createdAt }` is a permutation, newest first |
| MomentSearch.Searched | parallel/MomentTimelineView.swift:20-30 | an empty search returns the list; otherwise exactly the moments whose title or text contains the search text ignoring case |
| MomentSearch.NoContentNeverMatches | parallel/MomentTimelineView.swift:25-27 | a moment with no title and no text never matches a non-empty search |
| MomentSearch.SearchedIsSubsequence | parallel/MomentTimelineView.swift:20-30 | search results keep their order |
| MomentSearch.SearchBar.constructor | parallel/MomentTimelineView.swift:13-14 | search starts closed and empty |
| MomentSearch.SearchBar.ToggleSearch | parallel/MomentTimelineView.swift:66-71 | the button flips `isSearching`, and closing clears the text |
| MomentSearch.SearchBar.ClearSearch | parallel/MomentTimelineView.swift:101-104 | the clear button empties the text |
| MomentSearch.SearchBar.EditSearch | parallel/MomentTimelineView.swift:83-90 | typing sets the text while the field is shown |
| MomentSearch.ClosedSearchShowsAll | parallel/MomentTimelineView.swift:66-71 | with search closed, every moment is shown |
| MomentTimeline.SharedMoments | parallel/MomentTimelineView.swift:16-18 | exactly the shared moments, so private moments never appear |
| MomentTimeline.FilteredMoments | parallel/MomentTimelineView.swift:20-30 | `filteredMoments`; `FilteredMomentsAre` states both cases |
| MomentTimeline.FilteredMomentsAre | parallel/MomentTimelineView.swift:20-30 | an empty search shows all shared moments; otherwise the shared moments that match, in order |
| CharacterProfile.CharacterMoments | parallel/CharacterProfileView.swift:27-29 | exactly the moments whose author is the character |
| CharacterProfile.FilteredCharacterMoments | parallel/CharacterProfileView.swift:31-41 | the character's moments that match the search |
| CharacterProfile.FilteredCharacterMomentsAre | parallel/CharacterProfileView.swift:31-41 | an empty search gives the character's moments; otherwise those that match; always a subsequence |
| CharacterProfile.LatestSignal | parallel/CharacterProfileView.swift:43-49 | none exactly when the character has no signal; otherwise the character's signal that comes first in the query's order |
| CharacterProfile.LatestSignalIsNewest | parallel/CharacterProfileView.swift:43-49 | on the newest-first query result, it is the character's newest signal |
| CharacterProfile.SwiftRem | parallel/CharacterProfileView.swift:68 | Swift's `%` truncates toward zero: the remainder takes the dividend's sign and is below the divisor in magnitude |
| CharacterProfile.CurrentPoseImage | parallel/CharacterProfileView.swift:64-69 | with no poses, the character's own image; otherwise the pose at the index modulo the number of poses (`poses[i]` for an index in range) |
| CharacterProfile.PreviousPose | parallel/CharacterProfileView.swift:214 | the left chevron stays within [0, n) |
| CharacterProfile.NextPose | parallel/CharacterProfileView.swift:255 | the right chevron stays within [0, n) |
| CharacterProfile.PreviousNextInverse | parallel/CharacterProfileView.swift:214-255 | on an index in range, the two chevrons undo each other |
| CharacterProfile.NextPoseTimesIs | parallel/CharacterProfileView.swift:255 | k presses advance by k modulo n, so n presses return to the start |
| CharacterProfile.LeadingWhitespace | parallel/CharacterProfileView.swift:407 | the length of the leading whitespace run |
| CharacterProfile.TrailingWhitespace | parallel/CharacterProfileView.swift:407 | the length of the trailing whitespace run |
| CharacterProfile.Trimmed | parallel/CharacterProfileView.swift:407 | a slice of the input that neither starts nor ends with whitespace |
| CharacterProfile.TrimmedIdempotent | parallel/CharacterProfileView.swift:407 | trimming twice equals trimming once |
| CharacterProfile.NicknameToStore | parallel/CharacterProfileView.swift:406-408 | nil exactly when the typed text is all whitespace; otherwise the non-empty trimmed text |
| CharacterProfile.ProfileScreen.constructor | parallel/CharacterProfileView.swift:11-23 | the carousel starts at pose 0 |
| CharacterProfile.ProfileScreen.OnAppear | parallel/CharacterProfileView.swift:393-395 | the carousel starts at the stored pose, or 0 without settings |
| CharacterProfile.ProfileScreen.PersistPose | parallel/CharacterProfileView.swift:398-404 | the settings take the pose and are synced; without settings nothing is written |
| CharacterProfile.ProfileScreen.ShowPreviousPose | parallel/CharacterProfileView.swift:212-216 | the index becomes `PreviousPose`, then it is persisted and synced; the signed-in user name and the push token are kept |
| CharacterProfile.ProfileScreen.ShowNextPose | parallel/CharacterProfileView.swift:253-257 | the index becomes `NextPose`, then it is persisted and synced; the signed-in user name and the push token are kept |
| CharacterProfile.ProfileScreen.ShowRandomPose | parallel/CharacterProfileView.swift:230-234 | the drawn index lies in [0, n) and is persisted and synced; the signed-in user name and the push token are kept |
| CharacterProfile.ProfileScreen.UpdateNickname | parallel/CharacterProfileView.swift:406-413 | the settings take `NicknameToStore` of the typed text and are synced; the signed-in user name and the push token are kept |
| AddMoment.CanSave | parallel/AddMomentView.swift:491-502 | text: 1 to 280 characters; photo: a picked photo; voice: a finished recording. All three need a title of at most 40 characters. Each case is stated in both directions |
| AddMoment.SavedMoment | parallel/AddMomentView.swift:504-530 | the saved moment carries only its kind's content field, and an empty title is stored as nil |
| AddMoment.SaveAllowedOnlyWithContent | parallel/AddMomentView.swift:491-530 | whatever can be saved carries its kind's content and a title within the limit |
| AddMoment.MomentComposer.constructor | parallel/AddMomentView.swift:20-26 | the sheet starts on text, empty, with no recording |
| AddMoment.MomentComposer.StartRecording | parallel/AddMomentView.swift:540-580 | on success: recording, time 0, the new file name and no held recording; on failure nothing changes |
| AddMoment.MomentComposer.Tick | parallel/AddMomentView.swift:565-572 | one 0.1 s tick; the 200th tick (20 s) stops the recording |
| AddMoment.MomentComposer.StopRecording | parallel/AddMomentView.swift:582-591 | not recording, and a recording is held |
| AddMoment.MomentComposer.DeleteRecording | parallel/AddMomentView.swift:593-603 | no recording held, time 0, no file name |
| AddMoment.MomentComposer.SaveMoment | parallel/AddMomentView.swift:504-538 | exactly one moment, `SavedMoment` of the sheet, is inserted |
| AddPing.SendAllowedOnlyWithinLimit | parallel/AddPingView.swift:14-20 | a sendable message gives an unread ping by the sender with 1 to 50 characters |
| AddPing.CanSend | parallel/AddPingView.swift:18-20 | `canSend`; `SendAllowedOnlyWithinLimit` and `TooLongStaysTooLong` state what it allows |
| AddPing.AppendAll | parallel/AddPingView.swift:115 | appending emojis keeps the typed text as a prefix |
| AddPing.TooLongStaysTooLong | parallel/AddPingView.swift:14-20 | once over 50 characters, further taps never make the message sendable |
| AddPing.PingComposer.constructor | parallel/AddPingView.swift:9-11 | the message starts empty |
| AddPing.PingComposer.AppendEmoji | parallel/AddPingView.swift:115 | the emoji is appended at the end and the prefix is kept |
| AddPing.PingComposer.SendPing | parallel/AddPingView.swift:183-194 | exactly one ping with the sender and the message verbatim is inserted, and that same ping object is synced; the signed-in user name and the push token are kept |
| BucketList.Toggled | parallel/BucketListView.swift:121-128 | toggling flips the flag through `complete` or `uncomplete` and keeps the details |
| BucketList.ToggleTwice | parallel/BucketListView.swift:121-128 | toggling twice restores the flag and whether there is a date; an open item comes back exactly |
| BucketList.ToggleItem | parallel/BucketListView.swift:121-135 | the item becomes `Toggled` and is synced |
| BucketList.SavedItem | parallel/BucketListView.swift:390-397 | the saved item stores an empty description as nil, is added by the current user, and is open |
| BucketList.SaveAllowedOnlyWithinLimits | parallel/BucketListView.swift:225-230 | whatever can be saved has a title of 1 to 60 characters and a description of at most 200 |
| BucketList.CanSave | parallel/BucketListView.swift:228-230 | `canSave` of both add forms; `SaveAllowedOnlyWithinLimits` states what it allows |
| BucketList.SimplifiedAddForm.constructor | parallel/BucketListView.swift:219-223 | the sheet starts empty on the relationship category |
| BucketList.SimplifiedAddForm.SaveBucketItem | parallel/BucketListView.swift:390-408 | exactly one open item with priority 2 is inserted and synced; the signed-in user name and the push token are kept |
| BucketList.AddForm.constructor | parallel/AddBucketItemView.swift:8-13 | priority starts at 2 |
| BucketList.AddForm.SelectPriority | parallel/AddBucketItemView.swift:158-185 | the priority stays 1, 2 or 3 |
| BucketList.AddForm.SaveBucketItem | parallel/AddBucketItemView.swift:235-250 | exactly one open item with the chosen priority is inserted, with no sync |
| SignalTimeline.FilteredSignals | parallel/SignaltimelineView.swift:19-28 | all returns every signal; mine and theirs return exactly the signals of that author |
| SignalTimeline.FilteredIsSubsequence | parallel/SignaltimelineView.swift:19-28 | each filter result keeps the input order |
| SignalTimeline.MineAndTheirsDisjoint | parallel/SignaltimelineView.swift:19-28 | with two different names, no signal is both mine and theirs |
| SignalTimeline.DayOfMonotone | parallel/SignaltimelineView.swift:31-33 | a later time never has an earlier day |
| SignalTimeline.DayOf | parallel/SignaltimelineView.swift:32 | `startOfDay` as a day number; `DayOfMonotone` proves later times never fall on an earlier day |
| SignalTimeline.GroupRuns | parallel/SignaltimelineView.swift:30-38 | non-empty groups, each of one day, whose concatenation is the input |
| SignalTimeline.GroupRunsDaysStrictlyDescending | parallel/SignaltimelineView.swift:35-36 | on a newest-first list the group days strictly descend |
| SignalTimeline.GroupRunsSorted | parallel/SignaltimelineView.swift:37 | each group is newest first |
| SignalTimeline.ExactlyOneGroup | parallel/SignaltimelineView.swift:31-33 | every filtered signal is in exactly one group |
| SignalTimeline.GroupRunsOfSorted | parallel/SignaltimelineView.swift:30-38 | grouping a newest-first list gives a day grouping of it |
| SignalTimeline.GroupedSignalsAre | parallel/SignaltimelineView.swift:30-38 | `groupedSignals` is a permutation of the filtered signals in non-empty one-day groups, days strictly descending, each group newest first |
| SignalTimeline.GroupedSignals | parallel/SignaltimelineView.swift:30-38 | `groupedSignals`; `GroupedSignalsAre` states the permutation and the day grouping |
| SignalTimeline.CardMoodLabel | parallel/SignaltimelineView.swift:258-270 | the card label is the panel's band name |
| SignalTimeline.MoodEmoji | parallel/SignaltimelineView.swift:173-185 | the five emoji bands (above 30, above 10, above -10, above -30, the rest) are stated in both directions |
| SignalTimeline.CardEmojiMatchesLabelOffBoundaries | parallel/SignaltimelineView.swift:173-185 | card emoji and label agree except at -30, -10, 10 and 30, where they differ |
| SignalPanel.BandOf | parallel/SignalPanelView.swift:157-169 | the five label bands (below -30, below -10, below 10, below 30, the rest), each stated in both directions |
| SignalPanel.BandMonotone | parallel/SignalPanelView.swift:157-169 | a higher mood never gets a lower band |
| SignalPanel.MoodLabel | parallel/SignalPanelView.swift:157-169 | the label is the band's emoji and name |
| SignalPanel.MoodLabelIdentifiesBand | parallel/SignalPanelView.swift:157-169 | equal labels mean equal bands |
| SignalPanel.MoodColor | parallel/SignalPanelView.swift:171-181 | the four colour bands (below -20, below 0, below 20, the rest), each stated in both directions; the timeline card uses the same bands |
| SignalPanel.SliderValue | parallel/SignalPanelView.swift:229-230 | the clamped value stays within [lower, upper]; it is lower left of the track, upper right of it, and linear on the track |
| SignalPanel.SliderMonotone | parallel/SignalPanelView.swift:229-230 | dragging further right never lowers the value |
| SignalPanel.SignalPanelState.constructor | parallel/SignalPanelView.swift:10-12 | levels start at 50, 0 and 50 |
| SignalPanel.SignalPanelState.DragEnergy | parallel/SignalPanelView.swift:57 | the energy becomes the slider value on 0 to 100, and the other levels are kept |
| SignalPanel.SignalPanelState.DragMood | parallel/SignalPanelView.swift:77 | the mood becomes the slider value on -50 to 50, and the other levels are kept |
| SignalPanel.SignalPanelState.DragCloseness | parallel/SignalPanelView.swift:97 | the closeness becomes the slider value on 0 to 100, and the other levels are kept |
| SignalPanel.SignalPanelState.SaveSignal | parallel/SignalPanelView.swift:183-198 | exactly one signal by the user, with the current levels and the chosen sharing, is inserted |
| DebugPanel.MyName | parallel/DebugView.swift:19-21 | the stored name, or "Unknown" |
| DebugPanel.HerName | parallel/DebugView.swift:23-29 | "Maya" exactly for "Malik", "Malik" for anyone else, and never the user's own name |
| DebugPanel.PartnerOfPartner | parallel/DebugView.swift:23-29 | for either user, the partner's partner is the user |
| DebugPanel.DeviceTokenIsFirstMatch | parallel/DebugView.swift:286-297 | the lookup returns the token of the first record of the user |
| DebugPanel.MomentCounts | parallel/DebugView.swift:147-149 | each count is the number of moments by that author (the user, then the partner), so together they never exceed the number of moments |

## Left out

- Network and SDK calls are not modelled: Firestore reads and listeners, Storage uploads, Auth sign-in, the POST to the push relay, and the notification centre. A pass takes its documents as a parameter. The remote database is a map of documents. The upload results are parameters of `SyncMoment`. A download attempt's outcome is an input sequence.
- Concurrency and timing are not modelled: `Task`, `DispatchQueue`, `Task.sleep` between download retries, and the overlap of listener re-fetches. Each operation is modelled sequentially. The recording timer is one `Tick` per 0.1 s.
- Audio, photo and file I/O are not modelled. File existence is a boolean input of `DownloadFile`. The photo write of `saveMoment` becomes a file name given as a parameter.
- Locale-aware case folding is modelled on ASCII only: `lowercased()` and `localizedCaseInsensitiveContains` fold A-Z and nothing else. Whitespace for trimming is the fixed Unicode set of separators and control characters.
- `count` counts characters, not grapheme clusters, in every length limit.
- `Calendar.current.startOfDay` is the UTC day `t / 86400`. The `DateFormatter` labels of the day groups are not modelled, so each group carries its integer day.
- Levels and thresholds are `real`. Floating-point rounding, `formatTime` and colour rendering are not modelled.
- Signals.swift declares energy, mood and closeness, but the sync code reads and writes `sentiment` and `isShared`. The model's `Signal` has the union of the fields. `SignalFields` stores the sentiment as its raw string, where `syncSignal` hands the enum value itself to `setData`. The `Sentiment` enum is not part of this model: `ParseSignal` takes its known raw values as a parameter and assumes that the raw value of `.okay` is "okay". `Signals.NewLevelsSignal`, `Signals.NewSentimentSignal` and `Signals.SignalTime` are plain constructors and a key, with no contract of their own.
- SignalTimeline.GroupedSignalsAre: Swift's `sorted` is not stable. The model fixes one order for signals with equal `createdAt`, and the contract states only the permutation and the ordering, which hold for every order.
- SignalTimeline.GroupedSignals: the view groups with a dictionary and then sorts. The model groups runs of the query's newest-first list. `GroupedSignalsAre` proves that the result has the same properties.
- SignalPanel.SliderValue: requires a track wider than zero. Swift would divide by zero there.
- CharacterProfile.CurrentPoseImage: requires a non-negative index when there are poses. Swift's `%` keeps the sign, so a negative index would trap.
- Field reads (`as? String`, `as? Bool`, `as? Int`) succeed only on a value of the matching kind. The bridging of stored numbers and booleans through one numeric type, which lets 0 or 1 read as a boolean and a boolean read as an integer, is not modelled; only documents this app did not write would show it.
- CharacterProfile.PreviousPose: the range guarantee covers non-negative indices, the only ones the app stores.
- FirebaseSync.FirebaseManager.RegisterFCMToken: the server timestamp is modelled as the clock value passed in.
- FirebaseSync.LocalStore.FetchAndSyncUserSettings: the fresh ids of new records are a parameter, one per document.
- FirebaseSync.LocalStore.constructor: the model's store starts empty, whereas the app uses whatever the `modelContext` handed to `setModelContext` already holds. The fetch passes are proved for any starting store.
- SyncMerge.Merged, SyncMerge.UpsertAll: a failed local fetch (`try? context.fetch`) is not modelled. The model always finds a stored id or user. When that fetch throws, the app inserts the document anyway, so `MergedKeepsIdsUnique`, `UpsertAllKeepsOnePerUser` and `MergedIdempotent` hold only while every local fetch succeeds.
- The sign-in part of `authenticateUser` (only setting the user name is modelled), `startListening`/`stopListening`, `retryTokenRegistration`, the CloudKit container and the debug panel's send and force-sync buttons are not modelled. They only start network or SDK work.
- Firebasesyncextensions.swift (`insertAndSync`) is not part of this model. It is a type-dispatch wrapper over the sync calls above.
- Rendering-only views and records are not part of this model: content, onboarding, pixel art, speech bubbles, the moment detail player, the device-token test view, and `Item`.
- The card emoji bands (above 30, above 10, and so on) and the label bands (below -30, below -10, and so on) disagree exactly at -30, -10, 10 and 30. At mood 30, for example, the card shows "😄" next to "Great". `CardEmojiMatchesLabelOffBoundaries` states this as written. It is not corrected, because either reading could be the intended one.
