/** The shared moment timeline ("Our Moments"): only shared moments, newest
    first, narrowed by the search bar. */
module MomentTimeline {
  import opened Moments
  import opened Lists
  import opened MomentSearch

  function IsSharedMoment(m: Moment): bool
  {
    m.isShared
  }

  /** `sharedMoments`: the moments marked shared, in the query's order; a
      private moment never appears. */
  function SharedMoments(moments: seq<Moment>): (r: seq<Moment>)
    ensures forall i :: 0 <= i < |r| ==> r[i].isShared && r[i] in moments
    ensures forall i :: 0 <= i < |moments| && moments[i].isShared ==> moments[i] in r
  {
    Filter(moments, IsSharedMoment)
  }

  /** `filteredMoments`. */
  function FilteredMoments(moments: seq<Moment>, searchText: string): seq<Moment>
  {
    Searched(SharedMoments(moments), searchText)
  }

  function SharedAndMatching(searchText: string): Moment -> bool
  {
    (m: Moment) => m.isShared && MatchesSearch(m, searchText)
  }

  /** With no search text the timeline shows every shared moment; with one,
      exactly the shared moments that match it; either way in the query's
      order and never a private moment. */
  lemma FilteredMomentsAre(moments: seq<Moment>, searchText: string)
    ensures searchText == "" ==> FilteredMoments(moments, searchText) == SharedMoments(moments)
    ensures searchText != "" ==> FilteredMoments(moments, searchText)
                                 == Filter(moments, SharedAndMatching(searchText))
    ensures IsSubsequence(FilteredMoments(moments, searchText), moments)
    ensures forall i :: 0 <= i < |FilteredMoments(moments, searchText)| ==>
              FilteredMoments(moments, searchText)[i].isShared
  {
    var q := SearchPredicate(searchText);
    var both := SharedAndMatching(searchText);
    FilterFilter(moments, IsSharedMoment, q);
    FilterSameCondition(moments, x => IsSharedMoment(x) && q(x), both);
    if searchText == "" {
      FilterIsSubsequence(moments, IsSharedMoment);
    } else {
      FilterIsSubsequence(moments, both);
    }
  }
}
