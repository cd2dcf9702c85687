/**
 * The renderer's search store: the query, whether a search is active, the
 * bounded most-recent-first search history, and the computed search results
 * over the bookmark and tag stores' lists.
 */
module SearchStore {
  import opened Text
  import opened Seqs
  import opened Entities

  /** The number of history entries kept. */
  const HistoryLimit: nat := 10

  /** `tagStore.tags.filter(tag => bookmark.tags.includes(tag.id))` */
  function TagsOf(b: Bookmark, tags: seq<Tag>): seq<Tag> {
    Filter(tags, (t: Tag) => t.id in b.tags)
  }

  /** The search predicate for one bookmark and an already lower-cased query. */
  predicate MatchesQuery(b: Bookmark, tags: seq<Tag>, lowerQuery: string) {
    || Contains(Lower(b.title), lowerQuery)
    || Contains(Lower(b.url), lowerQuery)
    || Contains(Lower(b.description), lowerQuery)
    || exists t :: t in TagsOf(b, tags) && Contains(Lower(t.name), lowerQuery)
  }

  function Matcher(tags: seq<Tag>, lowerQuery: string): Bookmark -> bool {
    (b: Bookmark) => MatchesQuery(b, tags, lowerQuery)
  }

  /**
   * The `searchResults` computed value. The blank test trims the query, but
   * the match uses the lower-cased query untrimmed.
   */
  function SearchResults(query: string, bookmarks: seq<Bookmark>, tags: seq<Tag>): seq<Bookmark> {
    if Trim(query) == "" then [] else Filter(bookmarks, Matcher(tags, Lower(query)))
  }

  /** A whitespace-only query finds nothing. */
  lemma BlankQueryFindsNothing(query: string, bookmarks: seq<Bookmark>, tags: seq<Tag>)
    requires IsBlank(query)
    ensures SearchResults(query, bookmarks, tags) == []
  {
  }

  /** The results keep the bookmarks' order and multiplicities of what they keep. */
  lemma SearchResultsAreSubsequence(query: string, bookmarks: seq<Bookmark>, tags: seq<Tag>)
    ensures IsSubsequence(SearchResults(query, bookmarks, tags), bookmarks)
  {
    if Trim(query) != "" {
      FilterIsSubsequence(bookmarks, Matcher(tags, Lower(query)));
    }
  }

  /**
   * For a non-blank query, a bookmark is found exactly when it is stored and
   * its lower-cased title, url or description, or the name of one of its tags,
   * contains the lower-cased query.
   */
  lemma SearchResultMembership(query: string, bookmarks: seq<Bookmark>, tags: seq<Tag>, b: Bookmark)
    requires !IsBlank(query)
    ensures var q := Lower(query);
      b in SearchResults(query, bookmarks, tags) <==>
        && b in bookmarks
        && (|| Contains(Lower(b.title), q) || Contains(Lower(b.url), q) || Contains(Lower(b.description), q)
            || exists t :: t in tags && t.id in b.tags && Contains(Lower(t.name), q))
  {
    var q := Lower(query);
    FilterMember(bookmarks, Matcher(tags, q), b);
    forall t ensures t in TagsOf(b, tags) <==> t in tags && t.id in b.tags {
      FilterMember(tags, (t: Tag) => t.id in b.tags, t);
    }
  }

  /** The front of the history after `splice` of `t`'s old entry, `unshift(t)` and the cut to ten. */
  function MoveToFront<T(==)>(history: seq<T>, t: T): seq<T> {
    var moved := [t] + RemoveFirst(history, t);
    if |moved| > HistoryLimit then moved[..HistoryLimit] else moved
  }

  /**
   * `addToHistory(q)` on the history list: the trimmed query moves to (or is
   * inserted at) the front and the list is cut to its first ten entries; a
   * blank query changes nothing.
   */
  function AddedToHistory(history: seq<string>, q: string): seq<string> {
    if Trim(q) == "" then history else MoveToFront(history, Trim(q))
  }

  /** `removeFromHistory(q)` on the history list. */
  function RemovedFromHistory(history: seq<string>, q: string): seq<string> {
    RemoveFirst(history, q)
  }

  /** A blank query leaves the history as it was. */
  lemma BlankQueryKeepsHistory(history: seq<string>, q: string)
    requires IsBlank(q)
    ensures AddedToHistory(history, q) == history
  {
  }

  /**
   * After moving `t` to the front it is the first entry, there are at most ten
   * entries, and the other entries keep their order.
   */
  lemma MoveToFrontShape<T>(history: seq<T>, t: T)
    ensures var h := MoveToFront(history, t);
      && |h| >= 1 && h[0] == t
      && |h| <= HistoryLimit
      && h[1..] == RemoveFirst(history, t)[..|h| - 1]
  {
    var moved := [t] + RemoveFirst(history, t);
    assert moved[1..] == RemoveFirst(history, t);
  }

  /** After adding a non-blank query, its trimmed form is the first of at most ten entries. */
  lemma AddedQueryComesFirst(history: seq<string>, q: string)
    requires !IsBlank(q)
    ensures var h := AddedToHistory(history, q);
      && |h| >= 1 && h[0] == Trim(q)
      && |h| <= HistoryLimit
      && h[1..] == RemoveFirst(history, Trim(q))[..|h| - 1]
  {
    MoveToFrontShape(history, Trim(q));
  }

  /** Removing an element from a duplicate-free sequence keeps it duplicate-free and removes it. */
  lemma RemoveFirstKeepsDistinct<T>(s: seq<T>, x: T)
    requires NoDuplicates(s)
    ensures NoDuplicates(RemoveFirst(s, x))
    ensures x !in RemoveFirst(s, x)
  {
    NoDuplicatesMultiplicity(s, x);
    var r := RemoveFirst(s, x);
    if x in s {
      var i := IndexOf(s, x);
      assert forall k :: 0 <= k < |r| ==> r[k] == if k < i then s[k] else s[k + 1];
      assert multiset(r)[x] == 0;
    }
  }

  /** In a duplicate-free history, the moved entry occurs exactly once and no entry repeats. */
  lemma MoveToFrontOnce<T>(history: seq<T>, t: T)
    requires NoDuplicates(history)
    ensures var h := MoveToFront(history, t);
      multiset(h)[t] == 1 && NoDuplicates(h)
  {
    var rest := RemoveFirst(history, t);
    RemoveFirstKeepsDistinct(history, t);
    var moved := [t] + rest;
    assert NoDuplicates(moved);
    var h := MoveToFront(history, t);
    assert h == moved[..|h|];
    assert h[0] == t;
    assert NoDuplicates(h);
    NoDuplicatesMultiplicity(h, t);
  }

  /** Moving an entry to the front keeps a history duplicate-free and within ten entries. */
  lemma MoveToFrontKeepsDistinct<T>(history: seq<T>, t: T)
    requires NoDuplicates(history)
    ensures NoDuplicates(MoveToFront(history, t)) && |MoveToFront(history, t)| <= HistoryLimit
  {
    MoveToFrontOnce(history, t);
  }

  /** In a duplicate-free history, the added query occurs exactly once and no entry repeats. */
  lemma AddedQueryOccursOnce(history: seq<string>, q: string)
    requires !IsBlank(q) && NoDuplicates(history)
    ensures var h := AddedToHistory(history, q);
      multiset(h)[Trim(q)] == 1 && NoDuplicates(h)
  {
    MoveToFrontOnce(history, Trim(q));
  }

  /**
   * `removeFromHistory` removes only the first occurrence of the entry, and
   * does nothing when the entry is absent; in a duplicate-free history the
   * entry is then gone.
   */
  lemma RemoveFromHistoryRemovesFirst(history: seq<string>, q: string)
    ensures q !in history ==> RemovedFromHistory(history, q) == history
    ensures q in history ==>
      var i := IndexOf(history, q);
      RemovedFromHistory(history, q) == history[..i] + history[i + 1..]
    ensures NoDuplicates(history) ==> q !in RemovedFromHistory(history, q) && NoDuplicates(RemovedFromHistory(history, q))
  {
    if NoDuplicates(history) {
      RemoveFirstKeepsDistinct(history, q);
    }
  }

  class SearchState {
    var query: string
    var isSearching: bool
    var searchHistory: seq<string>

    /** The history never repeats an entry and never holds more than ten. */
    ghost predicate Valid()
      reads this
    {
      NoDuplicates(searchHistory) && |searchHistory| <= HistoryLimit
    }

    constructor ()
      ensures query == "" && !isSearching && searchHistory == []
      ensures Valid()
    {
      query, isSearching, searchHistory := "", false, [];
    }

    /** The `searchResults` computed value over the other stores' lists. */
    function Results(bookmarks: seq<Bookmark>, tags: seq<Tag>): seq<Bookmark>
      reads this
    {
      SearchResults(query, bookmarks, tags)
    }

    method AddToHistory(q: string)
      requires Valid()
      modifies this`searchHistory
      ensures searchHistory == AddedToHistory(old(searchHistory), q)
      ensures Valid()
    {
      var trimmed := Trim(q);
      if trimmed == "" {
        return;
      }
      ghost var before := searchHistory;
      var existingIndex := IndexOf(searchHistory, trimmed);
      if existingIndex > -1 {
        searchHistory := RemoveAt(searchHistory, existingIndex);
      }
      assert searchHistory == RemoveFirst(before, trimmed);
      searchHistory := [trimmed] + searchHistory;
      if |searchHistory| > HistoryLimit {
        searchHistory := searchHistory[..HistoryLimit];
      }
      assert searchHistory == MoveToFront(before, trimmed);
      MoveToFrontKeepsDistinct(before, trimmed);
    }

    method PerformSearch(searchQuery: string)
      requires Valid()
      modifies this
      ensures query == searchQuery
      ensures isSearching <==> !IsBlank(searchQuery)
      ensures searchHistory == AddedToHistory(old(searchHistory), searchQuery)
      ensures Valid()
    {
      query := searchQuery;
      isSearching := |Trim(searchQuery)| > 0;
      if Trim(searchQuery) != "" {
        AddToHistory(searchQuery);
      }
    }

    method ClearSearch()
      modifies this`query, this`isSearching
      ensures query == "" && !isSearching
    {
      query := "";
      isSearching := false;
    }

    method ClearHistory()
      modifies this`searchHistory
      ensures searchHistory == []
      ensures Valid()
    {
      searchHistory := [];
    }

    method RemoveFromHistory(searchQuery: string)
      requires Valid()
      modifies this`searchHistory
      ensures searchHistory == RemovedFromHistory(old(searchHistory), searchQuery)
      ensures Valid()
    {
      var index := IndexOf(searchHistory, searchQuery);
      if index > -1 {
        searchHistory := RemoveAt(searchHistory, index);
      }
      RemoveFromHistoryRemovesFirst(old(searchHistory), searchQuery);
    }
  }
}
