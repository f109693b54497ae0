/** The "send a ping" sheet: a message of 1 to 50 characters, typed or
    built from quick emojis, inserted as one ping and written to the cloud. */
module AddPing {
  import opened Common
  import opened Uuids
  import opened Pings
  import opened SyncFields
  import opened FirebaseSync

  const MaxChars := 50

  /** `canSend`. */
  function CanSend(message: string): bool
  {
    message != "" && |message| <= MaxChars
  }

  /** A sendable message gives a ping whose message has 1 to 50 characters,
      unread, by the sender. */
  lemma SendAllowedOnlyWithinLimit(id: Uuid, now: Time, myName: string, message: string)
    requires CanSend(message)
    ensures var p := NewPing(id, now, myName, message);
            0 < |p.message| <= MaxChars && !p.isRead && p.author == myName
  {
  }

  /** Appending emojis keeps what was typed: the message before a tap is a
      prefix of the message after any number of taps. */
  function AppendAll(message: string, emojis: seq<string>): (r: string)
    ensures message <= r
    ensures |r| >= |message|
    decreases |emojis|
  {
    if emojis == [] then message else AppendAll(message + emojis[0], emojis[1..])
  }

  /** Once a tap makes the message too long, later taps never make it
      sendable again. */
  lemma {:induction false} TooLongStaysTooLong(message: string, emojis: seq<string>)
    requires |message| > MaxChars
    ensures !CanSend(AppendAll(message, emojis))
  {
  }

  class PingComposer {
    const myName: string
    var message: string

    constructor (myName: string)
      ensures this.myName == myName && message == ""
    {
      this.myName := myName;
      message := "";
    }

    /** A quick-emoji button: the emoji goes at the end of the message. */
    method AppendEmoji(emoji: string)
      modifies this
      ensures message == old(message) + emoji
      ensures old(message) <= message && message[|old(message)|..] == emoji
    {
      message := message + emoji;
    }

    function CanSendNow(): bool
      reads this
    {
      CanSend(message)
    }

    /** `sendPing()`: one ping by the sender with the message verbatim is
        inserted, and that same ping object is written to its remote
        document. */
    method SendPing(store: LocalStore, manager: FirebaseManager, id: Uuid, now: Time) returns (ping: Ping)
      requires store.Valid()
      modifies store, manager
      ensures fresh(ping) && store.Valid()
      ensures ping.Data() == NewPing(id, now, myName, message)
      ensures store.pings == old(store.pings) + [ping]
      ensures store.PingRecords() == old(store.PingRecords()) + [ping.Data()]
      ensures store.moments == old(store.moments) && store.signals == old(store.signals)
      ensures store.bucketItems == old(store.bucketItems) && store.settings == old(store.settings)
      ensures manager.remote == SetData(old(manager.remote), "pings", UuidString(ping.id), PingFields(ping.Data()))
      ensures manager.currentUserName == old(manager.currentUserName) && manager.fcmToken == old(manager.fcmToken)
    {
      ping := new Ping(id, now, myName, message);
      store.AppendPing(ping);
      manager.SyncPing(ping);
    }
  }
}
