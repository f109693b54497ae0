/** Signals: one user's mood check-in. The record changed shape across the
    repository's history; the model keeps the union of the fields its callers
    use: the energy/mood/closeness triad set by the signal panel, and the
    sentiment raw value and sharing flag used by the cloud sync. */
module Signals {
  import opened Common
  import opened Uuids

  /** Energy 0 to 100, mood -50 to +50, closeness 0 to 100. */
  datatype Levels = Levels(energy: real, mood: real, closeness: real)

  datatype Signal = Signal(
    id: Uuid,
    createdAt: Time,
    author: string,
    levels: Option<Levels>,
    sentiment: Option<string>,
    isShared: bool)

  /** The initializer the signal panel calls: author and the three levels. */
  function NewLevelsSignal(id: Uuid, now: Time, author: string, energy: real, mood: real,
                           closeness: real, isShared: bool): Signal
  {
    Signal(id, now, author, Some(Levels(energy, mood, closeness)), None, isShared)
  }

  /** The initializer the cloud sync calls: author and a sentiment raw value. */
  function NewSentimentSignal(id: Uuid, now: Time, author: string, sentiment: string, isShared: bool): Signal
  {
    Signal(id, now, author, None, Some(sentiment), isShared)
  }

  /** The sort key of the signal queries (`createdAt`). */
  function SignalTime(s: Signal): int
  {
    s.createdAt
  }
}
