/** Pings: a short message shown to the partner as a speech bubble, marked as
    read when dismissed. */
module Pings {
  import opened Common
  import opened Uuids

  datatype PingData = PingData(id: Uuid, createdAt: Time, author: string, message: string, isRead: bool)

  /** `Ping.init`: a new ping is unread and keeps author and message verbatim. */
  function NewPing(id: Uuid, now: Time, author: string, message: string): (p: PingData)
    ensures !p.isRead
    ensures p.id == id && p.createdAt == now && p.author == author && p.message == message
  {
    PingData(id, now, author, message, false)
  }

  /** The effect of `markAsRead()`: the ping is read and nothing else moves. */
  function MarkedRead(p: PingData): (r: PingData)
    ensures r.isRead
    ensures r.id == p.id && r.createdAt == p.createdAt && r.author == p.author && r.message == p.message
  {
    p.(isRead := true)
  }

  /** Marking a ping read twice is marking it once; a read ping stays read. */
  lemma MarkAsReadIdempotent(p: PingData)
    ensures MarkedRead(MarkedRead(p)) == MarkedRead(p)
    ensures p.isRead ==> MarkedRead(p) == p
  {
  }

  class Ping {
    var id: Uuid
    var createdAt: Time
    var author: string
    var message: string
    var isRead: bool

    function Data(): PingData
      reads this
    {
      PingData(id, createdAt, author, message, isRead)
    }

    constructor (id: Uuid, now: Time, author: string, message: string)
      ensures Data() == NewPing(id, now, author, message)
    {
      this.id := id;
      this.createdAt := now;
      this.author := author;
      this.message := message;
      this.isRead := false;
    }

    method MarkAsRead()
      modifies this
      ensures Data() == MarkedRead(old(Data()))
    {
      isRead := true;
    }
  }
}
