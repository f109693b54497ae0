/** The moment search shared by the moment timeline and the character
    profile: a search bar that can be opened and closed, and the rule that
    a moment matches when its title or its text contains the search text,
    ignoring case. */
module MomentSearch {
  import opened Common
  import opened Moments
  import opened Lists

  /** `title?.localizedCaseInsensitiveContains(q) ?? false` or the same on
      the text. */
  predicate MatchesSearch(m: Moment, query: string)
  {
    (m.title.Some? && ContainsIgnoringCase(m.title.value, query))
    || (m.text.Some? && ContainsIgnoringCase(m.text.value, query))
  }

  function SearchPredicate(query: string): Moment -> bool
  {
    m => MatchesSearch(m, query)
  }

  /** The list a view shows for `searchText`: everything while it is empty,
      otherwise the moments that match. */
  function Searched(moments: seq<Moment>, searchText: string): (r: seq<Moment>)
    ensures |r| <= |moments|
    ensures forall i :: 0 <= i < |r| ==> r[i] in moments
    ensures searchText == "" ==> r == moments
    ensures searchText != "" ==>
              (forall i :: 0 <= i < |r| ==> MatchesSearch(r[i], searchText))
              && (forall i :: 0 <= i < |moments| && MatchesSearch(moments[i], searchText) ==> moments[i] in r)
  {
    if searchText == "" then moments else Filter(moments, SearchPredicate(searchText))
  }

  /** A moment with neither title nor text is never found by a search. */
  lemma NoContentNeverMatches(moments: seq<Moment>, searchText: string, m: Moment)
    requires searchText != ""
    requires m.title == None && m.text == None
    ensures m !in Searched(moments, searchText)
  {
    var r := Searched(moments, searchText);
    assert forall i :: 0 <= i < |r| ==> r[i] != m;
  }

  /** The search result keeps the order of the list it searches. */
  lemma SearchedIsSubsequence(moments: seq<Moment>, searchText: string)
    ensures IsSubsequence(Searched(moments, searchText), moments)
  {
    if searchText == "" {
      SubsequenceOfItself(moments);
    } else {
      FilterIsSubsequence(moments, SearchPredicate(searchText));
    }
  }

  /** The search bar of a moment list: the magnifier opens it, the same
      button closes it and clears the text, the clear button empties the
      text, and the text field edits the text. */
  class SearchBar {
    var isSearching: bool
    var searchText: string

    /** A closed search bar holds no text, so a closed bar never hides a
        moment. */
    ghost predicate Valid()
      reads this
    {
      !isSearching ==> searchText == ""
    }

    constructor ()
      ensures Valid() && !isSearching && searchText == ""
    {
      isSearching := false;
      searchText := "";
    }

    method ToggleSearch()
      requires Valid()
      modifies this
      ensures Valid()
      ensures isSearching == !old(isSearching)
      ensures searchText == if isSearching then old(searchText) else ""
    {
      isSearching := !isSearching;
      if !isSearching {
        searchText := "";
      }
    }

    method ClearSearch()
      requires Valid()
      modifies this
      ensures Valid()
      ensures searchText == "" && isSearching == old(isSearching)
    {
      searchText := "";
    }

    /** The text field, which is only on screen while searching. */
    method EditSearch(text: string)
      requires Valid() && isSearching
      modifies this
      ensures Valid()
      ensures searchText == text && isSearching
    {
      searchText := text;
    }
  }

  /** While the bar is closed the list shows every moment it searches. */
  lemma ClosedSearchShowsAll(bar: SearchBar, moments: seq<Moment>)
    requires bar.Valid() && !bar.isSearching
    ensures Searched(moments, bar.searchText) == moments
  {
  }
}
