/** The signal timeline: the signals of everyone, of the user or of the
    partner, grouped by calendar day (newest day first, newest signal first
    within a day), and the mood emoji and label of each card. */
module SignalTimeline {
  import opened Common
  import opened Signals
  import opened Lists
  import SignalPanel

  // ---------------------------------------------------------------------
  // Filters
  // ---------------------------------------------------------------------

  datatype SignalFilter = All | Mine | Theirs

  function ByAuthor(name: string): Signal -> bool
  {
    (s: Signal) => s.author == name
  }

  /** `filteredSignals`: every signal, the user's, or the partner's, in the
      query's order. */
  function FilteredSignals(signals: seq<Signal>, filter: SignalFilter, myName: string, herName: string)
    : (r: seq<Signal>)
    ensures filter == All ==> r == signals
    ensures filter == Mine ==> forall i :: 0 <= i < |r| ==> r[i].author == myName
    ensures filter == Theirs ==> forall i :: 0 <= i < |r| ==> r[i].author == herName
    ensures filter == Mine ==> forall i :: 0 <= i < |signals| && signals[i].author == myName ==> signals[i] in r
    ensures filter == Theirs ==> forall i :: 0 <= i < |signals| && signals[i].author == herName ==> signals[i] in r
  {
    match filter
    case All => signals
    case Mine => Filter(signals, ByAuthor(myName))
    case Theirs => Filter(signals, ByAuthor(herName))
  }

  /** Each filter keeps a subsequence of the signals. */
  lemma FilteredIsSubsequence(signals: seq<Signal>, filter: SignalFilter, myName: string, herName: string)
    ensures IsSubsequence(FilteredSignals(signals, filter, myName, herName), signals)
  {
    match filter
    case All => SubsequenceOfItself(signals);
    case Mine => FilterIsSubsequence(signals, ByAuthor(myName));
    case Theirs => FilterIsSubsequence(signals, ByAuthor(herName));
  }

  /** With two different names, "Mine" and "Theirs" share no signal, and
      together they hold at most all of them. */
  lemma MineAndTheirsDisjoint(signals: seq<Signal>, myName: string, herName: string)
    requires myName != herName
    ensures var mine := FilteredSignals(signals, Mine, myName, herName);
            var theirs := FilteredSignals(signals, Theirs, myName, herName);
            && (forall s :: s in mine ==> s !in theirs)
            && |mine| + |theirs| <= |signals|
  {
    DisjointFiltersCount(signals, ByAuthor(myName), ByAuthor(herName));
  }

  // ---------------------------------------------------------------------
  // Day groups
  // ---------------------------------------------------------------------

  const SecondsPerDay := 86400

  /** `Calendar.current.startOfDay(for:)`, as the number of the day. */
  function DayOf(t: Time): int
  {
    t / SecondsPerDay
  }

  /** A later time is never on an earlier day. */
  lemma DayOfMonotone(a: Time, b: Time)
    requires a <= b
    ensures DayOf(a) <= DayOf(b)
  {
    var qa, qb := a / SecondsPerDay, b / SecondsPerDay;
    assert a == qa * SecondsPerDay + a % SecondsPerDay;
    assert b == qb * SecondsPerDay + b % SecondsPerDay;
  }

  datatype DayGroup = DayGroup(day: int, signals: seq<Signal>)

  /** The signals of the groups, one group after the other. */
  function Flatten(groups: seq<DayGroup>): seq<Signal>
  {
    if groups == [] then [] else groups[0].signals + Flatten(groups[1..])
  }

  /** Every signal of a group is a signal of the flattened groups. */
  lemma {:induction false} InGroupInFlatten(groups: seq<DayGroup>, i: nat, s: Signal)
    requires i < |groups| && s in groups[i].signals
    ensures s in Flatten(groups)
  {
    if i > 0 {
      InGroupInFlatten(groups[1..], i - 1, s);
    }
  }

  /** Every signal of the flattened groups is in some group. */
  lemma {:induction false} InFlattenInGroup(groups: seq<DayGroup>, s: Signal) returns (i: nat)
    requires s in Flatten(groups)
    ensures i < |groups| && s in groups[i].signals
  {
    if s in groups[0].signals {
      i := 0;
    } else {
      var j := InFlattenInGroup(groups[1..], s);
      i := j + 1;
    }
  }

  /** Splits a list into runs of consecutive signals on the same day. */
  function GroupRuns(xs: seq<Signal>): (groups: seq<DayGroup>)
    ensures (xs == []) == (groups == [])
    ensures groups != [] ==> groups[0].day == DayOf(xs[0].createdAt)
    ensures forall i :: 0 <= i < |groups| ==> groups[i].signals != []
    ensures forall i, s :: 0 <= i < |groups| && s in groups[i].signals ==> DayOf(s.createdAt) == groups[i].day
    ensures Flatten(groups) == xs
    decreases |xs|
  {
    if xs == [] then []
    else
      var x := xs[0];
      var rest := GroupRuns(xs[1..]);
      assert xs == [x] + xs[1..];
      if rest != [] && rest[0].day == DayOf(x.createdAt) then
        var merged := [DayGroup(rest[0].day, [x] + rest[0].signals)] + rest[1..];
        assert merged[1..] == rest[1..];
        assert Flatten(rest) == rest[0].signals + Flatten(rest[1..]);
        assert forall i :: 1 <= i < |merged| ==> merged[i] == rest[i];
        merged
      else
        var single := [DayGroup(DayOf(x.createdAt), [x])] + rest;
        assert single[1..] == rest;
        assert forall i :: 1 <= i < |single| ==> single[i] == rest[i - 1];
        single
  }

  /** The days of a list go down (or stay) from one signal to the next. */
  ghost predicate DaysDescending(xs: seq<Signal>)
  {
    forall i, j :: 0 <= i < j < |xs| ==> DayOf(xs[i].createdAt) >= DayOf(xs[j].createdAt)
  }

  /** How the first signal of a list joins the groups of the rest: into
      the first group when it is on that group's day, as a group of its own
      otherwise. */
  lemma GroupRunsCons(xs: seq<Signal>)
    requires xs != []
    ensures var rest := GroupRuns(xs[1..]);
            var day := DayOf(xs[0].createdAt);
            && (rest != [] && rest[0].day == day ==>
                  GroupRuns(xs) == [DayGroup(day, [xs[0]] + rest[0].signals)] + rest[1..])
            && (rest == [] || rest[0].day != day ==>
                  GroupRuns(xs) == [DayGroup(day, [xs[0]])] + rest)
  {
  }

  /** The days of the groups strictly decrease. */
  ghost predicate DaysStrictlyDescending(groups: seq<DayGroup>)
  {
    forall i, j :: 0 <= i < j < |groups| ==> groups[i].day > groups[j].day
  }

  /** A group on a later day than the first of strictly decreasing groups
      keeps them strictly decreasing when put in front. */
  lemma ConsGroupDescending(g: DayGroup, groups: seq<DayGroup>)
    requires DaysStrictlyDescending(groups)
    requires groups == [] || g.day > groups[0].day
    ensures DaysStrictlyDescending([g] + groups)
  {
    var r := [g] + groups;
    forall i, j | 0 <= i < j < |r|
      ensures r[i].day > r[j].day
    {
      assert r[j] == groups[j - 1];
      if i == 0 {
        assert j == 1 || groups[0].day > groups[j - 1].day;
      } else {
        assert r[i] == groups[i - 1];
      }
    }
  }

  /** Replacing the signals of the first group keeps the days. */
  lemma SameDaysDescending(groups: seq<DayGroup>, g: DayGroup)
    requires DaysStrictlyDescending(groups) && groups != [] && g.day == groups[0].day
    ensures DaysStrictlyDescending([g] + groups[1..])
  {
    var r := [g] + groups[1..];
    assert forall i :: 0 <= i < |r| ==> r[i].day == groups[i].day;
  }

  /** On a list whose days go down, the groups are on strictly decreasing
      days, so no day has two groups. */
  lemma {:induction false} GroupRunsDaysStrictlyDescending(xs: seq<Signal>)
    requires DaysDescending(xs)
    ensures DaysStrictlyDescending(GroupRuns(xs))
    decreases |xs|
  {
    if xs != [] {
      var x := xs[0];
      var tail := xs[1..];
      assert DaysDescending(tail) by {
        assert forall i :: 0 <= i < |tail| ==> tail[i] == xs[i + 1];
      }
      GroupRunsDaysStrictlyDescending(tail);
      GroupRunsCons(xs);
      var rest := GroupRuns(tail);
      var day := DayOf(x.createdAt);
      if rest != [] {
        assert rest[0].day == DayOf(tail[0].createdAt) == DayOf(xs[1].createdAt) <= day;
      }
      if rest != [] && rest[0].day == day {
        SameDaysDescending(rest, DayGroup(day, [x] + rest[0].signals));
      } else {
        ConsGroupDescending(DayGroup(day, [x]), rest);
      }
    }
  }

  /** The signals of the first group of a sorted list are no newer than
      the signal in front of the list. */
  lemma FirstGroupNotNewer(x: Signal, tail: seq<Signal>)
    requires SortedDesc([x] + tail, SignalTime) && tail != []
    ensures var first := GroupRuns(tail)[0].signals;
            forall k :: 0 <= k < |first| ==> SignalTime(x) >= SignalTime(first[k])
  {
    var rest := GroupRuns(tail);
    var first := rest[0].signals;
    assert Flatten(rest) == first + Flatten(rest[1..]);
    forall k | 0 <= k < |first|
      ensures SignalTime(x) >= SignalTime(first[k])
    {
      assert first[k] == tail[k] == ([x] + tail)[k + 1];
      assert ([x] + tail)[0] == x;
    }
  }

  /** On a list sorted newest first, each group is sorted newest first. */
  lemma {:induction false} GroupRunsSorted(xs: seq<Signal>)
    requires SortedDesc(xs, SignalTime)
    ensures var groups := GroupRuns(xs);
            forall i :: 0 <= i < |groups| ==> SortedDesc(groups[i].signals, SignalTime)
    decreases |xs|
  {
    if xs != [] {
      var x := xs[0];
      var tail := xs[1..];
      assert xs == [x] + tail;
      assert SortedDesc(tail, SignalTime) by {
        assert forall i :: 0 <= i < |tail| ==> tail[i] == xs[i + 1];
      }
      GroupRunsSorted(tail);
      GroupRunsCons(xs);
      var rest := GroupRuns(tail);
      var groups := GroupRuns(xs);
      if rest != [] && rest[0].day == DayOf(x.createdAt) {
        FirstGroupNotNewer(x, tail);
        ConsSortedDesc(x, rest[0].signals, SignalTime);
        forall i | 0 <= i < |groups|
          ensures SortedDesc(groups[i].signals, SignalTime)
        {
          if i > 0 {
            assert groups[i] == rest[i];
          }
        }
      } else {
        forall i | 0 <= i < |groups|
          ensures SortedDesc(groups[i].signals, SignalTime)
        {
          if i > 0 {
            assert groups[i] == rest[i - 1];
          }
        }
      }
    }
  }

  /** A list sorted newest first has its days going down. */
  lemma SortedHasDaysDescending(xs: seq<Signal>)
    requires SortedDesc(xs, SignalTime)
    ensures DaysDescending(xs)
  {
    forall i, j | 0 <= i < j < |xs|
      ensures DayOf(xs[i].createdAt) >= DayOf(xs[j].createdAt)
    {
      DayOfMonotone(xs[j].createdAt, xs[i].createdAt);
    }
  }

  /** `groups` splits `xs` by day: the same signals, as many times each;
      no empty group; each signal in a group of its own day; the days
      strictly decreasing; each group newest first. */
  ghost predicate IsDayGrouping(groups: seq<DayGroup>, xs: seq<Signal>)
  {
    && multiset(Flatten(groups)) == multiset(xs)
    && (forall i :: 0 <= i < |groups| ==> groups[i].signals != [])
    && (forall i, s :: 0 <= i < |groups| && s in groups[i].signals ==> DayOf(s.createdAt) == groups[i].day)
    && DaysStrictlyDescending(groups)
    && (forall i :: 0 <= i < |groups| ==> SortedDesc(groups[i].signals, SignalTime))
  }

  /** In a day grouping every signal of the list is in exactly one group. */
  lemma ExactlyOneGroup(groups: seq<DayGroup>, xs: seq<Signal>, s: Signal) returns (i: nat)
    requires IsDayGrouping(groups, xs) && s in xs
    ensures i < |groups| && s in groups[i].signals
    ensures forall j :: 0 <= j < |groups| && s in groups[j].signals ==> j == i
  {
    assert s in multiset(xs);
    assert s in Flatten(groups);
    i := InFlattenInGroup(groups, s);
    forall j | 0 <= j < |groups| && s in groups[j].signals
      ensures j == i
    {
      assert groups[i].day == DayOf(s.createdAt) == groups[j].day;
    }
  }

  /** Grouping the runs of a list sorted newest first is a day grouping of
      it. */
  lemma GroupRunsOfSorted(xs: seq<Signal>)
    requires SortedDesc(xs, SignalTime)
    ensures IsDayGrouping(GroupRuns(xs), xs)
  {
    SortedHasDaysDescending(xs);
    GroupRunsDaysStrictlyDescending(xs);
    GroupRunsSorted(xs);
  }

  /** `groupedSignals`: the filtered signals sorted newest first, split by
      day. */
  function GroupedSignals(signals: seq<Signal>, filter: SignalFilter, myName: string, herName: string)
    : seq<DayGroup>
  {
    GroupRuns(SortDesc(FilteredSignals(signals, filter, myName, herName), SignalTime))
  }

  /** The timeline's groups are a day grouping of the filtered signals, so
      every filtered signal is shown in exactly one group. */
  lemma GroupedSignalsAre(signals: seq<Signal>, filter: SignalFilter, myName: string, herName: string)
    ensures IsDayGrouping(GroupedSignals(signals, filter, myName, herName),
                          FilteredSignals(signals, filter, myName, herName))
  {
    var f := FilteredSignals(signals, filter, myName, herName);
    var sorted := SortDesc(f, SignalTime);
    GroupRunsOfSorted(sorted);
  }

  // ---------------------------------------------------------------------
  // The cards
  // ---------------------------------------------------------------------

  /** `SignalCard.moodLabel`: the panel's bands, without the emoji. */
  function CardMoodLabel(mood: real): (r: string)
    ensures r == SignalPanel.BandName(SignalPanel.BandOf(mood))
  {
    if mood < -30.0 then "Low"
    else if mood < -10.0 then "Meh"
    else if mood < 10.0 then "Okay"
    else if mood < 30.0 then "Good"
    else "Great"
  }

  /** `SignalCard.moodEmoji`: above 30, above 10, above -10, above -30, and
      the rest. */
  function MoodEmoji(mood: real): (e: string)
    ensures e == "🤩" <==> mood > 30.0
    ensures e == "😄" <==> 10.0 < mood <= 30.0
    ensures e == "😊" <==> -10.0 < mood <= 10.0
    ensures e == "😐" <==> -30.0 < mood <= -10.0
    ensures e == "😔" <==> mood <= -30.0
  {
    if mood > 30.0 then "🤩"
    else if mood > 10.0 then "😄"
    else if mood > -10.0 then "😊"
    else if mood > -30.0 then "😐"
    else "😔"
  }

  /** The card's emoji is the emoji the panel gives the same band, except
      exactly at -30, -10, 10 and 30: the emoji bands are open below where
      the label bands are open above, so on those four moods the card shows
      the emoji of the band beneath its label. */
  lemma CardEmojiMatchesLabelOffBoundaries(mood: real)
    ensures mood != -30.0 && mood != -10.0 && mood != 10.0 && mood != 30.0
            ==> MoodEmoji(mood) == SignalPanel.BandEmoji(SignalPanel.BandOf(mood))
    ensures mood == 30.0 ==> SignalPanel.BandOf(mood) == SignalPanel.Great && MoodEmoji(mood) == "😄"
    ensures mood == -30.0 ==> SignalPanel.BandOf(mood) == SignalPanel.Meh && MoodEmoji(mood) == "😔"
  {
  }
}
