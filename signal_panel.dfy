/** The signal panel: three sliders (energy 0 to 100, mood -50 to +50,
    closeness 0 to 100), the mood's label and colour, and the two save
    buttons ("share" and the private one). */
module SignalPanel {
  import opened Common
  import opened Uuids
  import opened Signals
  import opened FirebaseSync

  // ---------------------------------------------------------------------
  // Mood bands
  // ---------------------------------------------------------------------

  /** The five mood bands of the labels, lowest first. */
  datatype MoodBand = Low | Meh | Okay | Good | Great

  function Rank(b: MoodBand): nat
  {
    match b
    case Low => 0
    case Meh => 1
    case Okay => 2
    case Good => 3
    case Great => 4
  }

  /** The band of `moodLabel`: below -30, below -10, below 10, below 30, and
      the rest. */
  function BandOf(mood: real): (b: MoodBand)
    ensures b == Low <==> mood < -30.0
    ensures b == Meh <==> -30.0 <= mood < -10.0
    ensures b == Okay <==> -10.0 <= mood < 10.0
    ensures b == Good <==> 10.0 <= mood < 30.0
    ensures b == Great <==> 30.0 <= mood
  {
    if mood < -30.0 then Low
    else if mood < -10.0 then Meh
    else if mood < 10.0 then Okay
    else if mood < 30.0 then Good
    else Great
  }

  /** A higher mood never gets a lower band. */
  lemma BandMonotone(a: real, b: real)
    requires a <= b
    ensures Rank(BandOf(a)) <= Rank(BandOf(b))
  {
  }

  function BandName(b: MoodBand): string
  {
    match b
    case Low => "Low"
    case Meh => "Meh"
    case Okay => "Okay"
    case Good => "Good"
    case Great => "Great"
  }

  function BandEmoji(b: MoodBand): string
  {
    match b
    case Low => "😔"
    case Meh => "😐"
    case Okay => "😊"
    case Good => "😄"
    case Great => "🤩"
  }

  /** The panel's `moodLabel`: the band's emoji, a space and its name. */
  function MoodLabel(mood: real): (r: string)
    ensures r == BandEmoji(BandOf(mood)) + " " + BandName(BandOf(mood))
  {
    if mood < -30.0 then "😔 Low"
    else if mood < -10.0 then "😐 Meh"
    else if mood < 10.0 then "😊 Okay"
    else if mood < 30.0 then "😄 Good"
    else "🤩 Great"
  }

  /** Different bands have different labels, so the label tells the band. */
  lemma MoodLabelIdentifiesBand(a: real, b: real)
    requires MoodLabel(a) == MoodLabel(b)
    ensures BandOf(a) == BandOf(b)
  {
    var la, lb := MoodLabel(a), MoodLabel(b);
    assert la[|la| - 1] == lb[|lb| - 1] && la[2] == lb[2];
  }

  datatype Rgb = Rgb(red: real, green: real, blue: real)

  const Blue := Rgb(0.4, 0.6, 0.9)
  const Teal := Rgb(0.5, 0.7, 0.85)
  const Green := Rgb(0.5, 0.8, 0.6)
  const Purple := Rgb(0.7, 0.5, 0.9)

  /** `moodColor` (the same in the panel and on the timeline cards): four
      bands split at -20, 0 and 20. */
  function MoodColor(mood: real): (c: Rgb)
    ensures c == Blue <==> mood < -20.0
    ensures c == Teal <==> -20.0 <= mood < 0.0
    ensures c == Green <==> 0.0 <= mood < 20.0
    ensures c == Purple <==> 20.0 <= mood
  {
    if mood < -20.0 then Blue
    else if mood < 0.0 then Teal
    else if mood < 20.0 then Green
    else Purple
  }

  // ---------------------------------------------------------------------
  // The slider
  // ---------------------------------------------------------------------

  /** The drag handler of `CustomSlider`: the touch position `x` on a track
      `width` wide, as a fraction clamped to [0, 1], placed in the range. */
  function SliderValue(lower: real, upper: real, x: real, width: real): (v: real)
    requires width > 0.0 && lower <= upper
    ensures lower <= v <= upper
    ensures x <= 0.0 ==> v == lower
    ensures x >= width ==> v == upper
    ensures 0.0 <= x <= width ==> v == lower + (upper - lower) * (x / width)
  {
    var fraction := x / width;
    assert x >= width ==> fraction >= 1.0;
    assert x <= 0.0 ==> fraction <= 0.0;
    lower + (upper - lower) * Clamp01(fraction)
  }

  /** `min(max(0, f), 1)`. */
  function Clamp01(f: real): (c: real)
    ensures 0.0 <= c <= 1.0
    ensures 0.0 <= f <= 1.0 ==> c == f
  {
    if f < 0.0 then 0.0 else if f > 1.0 then 1.0 else f
  }

  /** Dragging further right never lowers the value. */
  lemma SliderMonotone(lower: real, upper: real, x: real, y: real, width: real)
    requires width > 0.0 && lower <= upper && x <= y
    ensures SliderValue(lower, upper, x, width) <= SliderValue(lower, upper, y, width)
  {
    var cx, cy := Clamp01(x / width), Clamp01(y / width);
    assert x / width <= y / width;
    assert cx <= cy;
    ProductNonNegative(upper - lower, cy - cx);
    assert (upper - lower) * cy == (upper - lower) * cx + (upper - lower) * (cy - cx);
  }

  lemma ProductNonNegative(a: real, b: real)
    requires a >= 0.0 && b >= 0.0
    ensures a * b >= 0.0
  {
  }

  // ---------------------------------------------------------------------
  // The panel's state
  // ---------------------------------------------------------------------

  class SignalPanelState {
    const myName: string
    var energy: real
    var mood: real
    var closeness: real

    /** The sliders keep each level within its range. */
    ghost predicate Valid()
      reads this
    {
      0.0 <= energy <= 100.0 && -50.0 <= mood <= 50.0 && 0.0 <= closeness <= 100.0
    }

    constructor (myName: string)
      ensures Valid() && this.myName == myName
      ensures energy == 50.0 && mood == 0.0 && closeness == 50.0
    {
      this.myName := myName;
      energy, mood, closeness := 50.0, 0.0, 50.0;
    }

    method DragEnergy(x: real, width: real)
      requires Valid() && width > 0.0
      modifies this
      ensures Valid()
      ensures energy == SliderValue(0.0, 100.0, x, width)
      ensures mood == old(mood) && closeness == old(closeness)
    {
      energy := SliderValue(0.0, 100.0, x, width);
    }

    method DragMood(x: real, width: real)
      requires Valid() && width > 0.0
      modifies this
      ensures Valid()
      ensures mood == SliderValue(-50.0, 50.0, x, width)
      ensures energy == old(energy) && closeness == old(closeness)
    {
      mood := SliderValue(-50.0, 50.0, x, width);
    }

    method DragCloseness(x: real, width: real)
      requires Valid() && width > 0.0
      modifies this
      ensures Valid()
      ensures closeness == SliderValue(0.0, 100.0, x, width)
      ensures energy == old(energy) && mood == old(mood)
    {
      closeness := SliderValue(0.0, 100.0, x, width);
    }

    /** `saveSignal(isShared:)`: one signal by the user with the three
        current levels is inserted; the panel does not write to the cloud. */
    method SaveSignal(store: LocalStore, id: Uuid, now: Time, isShared: bool) returns (signal: Signal)
      requires Valid()
      modifies store
      ensures signal == NewLevelsSignal(id, now, myName, energy, mood, closeness, isShared)
      ensures signal.author == myName && signal.isShared == isShared
      ensures signal.levels == Some(Levels(energy, mood, closeness))
      ensures store.signals == old(store.signals) + [signal]
      ensures store.moments == old(store.moments) && store.pings == old(store.pings)
      ensures store.bucketItems == old(store.bucketItems) && store.settings == old(store.settings)
    {
      signal := NewLevelsSignal(id, now, myName, energy, mood, closeness, isShared);
      store.signals := store.signals + [signal];
    }
  }
}
