/**
 * The renderer's bookmark store: the bookmark list mirrored from the main
 * process, the payloads the store sends for an add and an update, the local
 * replace and remove that follow a reply, and the keyword filter
 * `searchBookmarks`.
 *
 * As in the other stores, each action that calls the main process takes the
 * call's reply, or the main process as a function of the payload it sends.
 * `incrementVisitCount` and `clearAllBookmarks` first test that the bridge
 * offers the call: their reply is `None` when it does not.
 */
module BookmarkStore {
  import opened Wrappers
  import opened Text
  import opened Seqs
  import opened Entities
  import opened BookmarkHandlers
  import SearchStore

  /**
   * The payload `addBookmark` sends: every text key with `''` (the colour with
   * `#3B82F6`) as its fallback, and a copy of the tags or `[]`.
   */
  function AddPayload(bookmark: BookmarkFields): (p: BookmarkFields)
    ensures p.id.None? && p.visitCount.None? && p.lastVisited.None?
    ensures p.createdAt.None? && p.updatedAt.None?
    ensures p.url == Some(Or(bookmark.url, ""))
    ensures p.title == Some(Or(bookmark.title, ""))
    ensures p.description == Some(Or(bookmark.description, ""))
    ensures p.favicon == Some(Or(bookmark.favicon, ""))
    ensures p.color == Some(Or(bookmark.color, DefaultColor))
    ensures p.folderId == Some(Or(bookmark.folderId, ""))
    ensures p.tags == Some(bookmark.tags.GetOr([]))
  {
    BookmarkFields(
      None, Some(Or(bookmark.url, "")), Some(Or(bookmark.title, "")),
      Some(Or(bookmark.description, "")), Some(Or(bookmark.favicon, "")),
      Some(Or(bookmark.color, DefaultColor)), Some(Or(bookmark.folderId, "")),
      Some(bookmark.tags.GetOr([])), None, None, None, None)
  }

  /**
   * A bookmark added through the store without a title is stored with the
   * empty title: the payload's explicit `''` is spread over `add-bookmark`'s
   * title-from-url default. Its id and timestamps are the main process's,
   * and its visits start at zero.
   */
  lemma StoreAddKeepsEmptyTitle(bookmark: BookmarkFields, freshId: string, now: string)
    ensures var b := NewBookmark(AddPayload(bookmark), freshId, now);
      && b.id == freshId && b.createdAt == now && b.updatedAt == now
      && b.url == Or(bookmark.url, "")
      && b.title == Or(bookmark.title, "")
      && b.color == Or(bookmark.color, DefaultColor)
      && b.folderId == Or(bookmark.folderId, "")
      && b.tags == bookmark.tags.GetOr([])
      && b.visitCount == 0 && b.lastVisited == None
  {
  }

  /**
   * The payload `updateBookmark` sends: exactly the defined ones of title,
   * description, folderId, tags, colour and favicon.
   */
  function UpdatePayload(updates: BookmarkFields): (p: BookmarkFields)
    ensures p.id.None? && p.url.None? && p.visitCount.None? && p.lastVisited.None?
    ensures p.createdAt.None? && p.updatedAt.None?
    ensures p.title == updates.title && p.description == updates.description
    ensures p.folderId == updates.folderId && p.tags == updates.tags
    ensures p.color == updates.color && p.favicon == updates.favicon
  {
    var updateData := NoBookmarkFields;
    var updateData := if updates.title.Some? then updateData.(title := updates.title) else updateData;
    var updateData := if updates.description.Some? then updateData.(description := updates.description) else updateData;
    var updateData := if updates.folderId.Some? then updateData.(folderId := updates.folderId) else updateData;
    var updateData := if updates.tags.Some? then updateData.(tags := updates.tags) else updateData;
    var updateData := if updates.color.Some? then updateData.(color := updates.color) else updateData;
    if updates.favicon.Some? then updateData.(favicon := updates.favicon) else updateData
  }

  /**
   * An update sent through the store never changes a bookmark's id, url,
   * visits or creation time, whatever keys the caller passes; the forwarded
   * keys take the caller's values.
   */
  lemma StoreUpdateKeepsIdentity(b: Bookmark, updates: BookmarkFields, now: string)
    ensures var r := Touched(b, UpdatePayload(updates), now);
      && r.id == b.id && r.url == b.url
      && r.visitCount == b.visitCount && r.lastVisited == b.lastVisited
      && r.createdAt == b.createdAt && r.updatedAt == now
      && r.title == Override(updates.title, b.title)
      && r.tags == Override(updates.tags, b.tags)
      && r.folderId == Override(updates.folderId, b.folderId)
  {
  }

  /** The filter of `searchBookmarks` for an already lower-cased keyword. */
  predicate MatchesKeyword(b: Bookmark, lowerKeyword: string) {
    || Contains(Lower(b.title), lowerKeyword)
    || Contains(Lower(b.url), lowerKeyword)
    || Contains(Lower(b.description), lowerKeyword)
  }

  function KeywordMatcher(lowerKeyword: string): Bookmark -> bool {
    (b: Bookmark) => MatchesKeyword(b, lowerKeyword)
  }

  /** `searchBookmarks(keyword)` over a bookmark list. */
  function KeywordResults(keyword: string, bs: seq<Bookmark>): seq<Bookmark> {
    if Trim(keyword) == "" then bs else Filter(bs, KeywordMatcher(Lower(keyword)))
  }

  /** A blank keyword returns every bookmark. */
  lemma BlankKeywordFindsAll(keyword: string, bs: seq<Bookmark>)
    requires IsBlank(keyword)
    ensures KeywordResults(keyword, bs) == bs
  {
  }

  /**
   * For a non-blank keyword the results keep the bookmarks' order, and a
   * bookmark is found exactly when it is listed and its lower-cased title,
   * url or description contains the lower-cased keyword.
   */
  lemma KeywordResultMembership(keyword: string, bs: seq<Bookmark>, b: Bookmark)
    requires !IsBlank(keyword)
    ensures IsSubsequence(KeywordResults(keyword, bs), bs)
    ensures var k := Lower(keyword);
      b in KeywordResults(keyword, bs) <==>
        && b in bs
        && (Contains(Lower(b.title), k) || Contains(Lower(b.url), k) || Contains(Lower(b.description), k))
  {
    FilterMember(bs, KeywordMatcher(Lower(keyword)), b);
    FilterIsSubsequence(bs, KeywordMatcher(Lower(keyword)));
  }

  /**
   * Tags are not searched here: every bookmark `searchBookmarks` finds for a
   * non-blank keyword is also among the search store's results for the same
   * query, whatever the tags, and the two agree when no tag is listed.
   */
  lemma KeywordResultsWithinSearchResults(keyword: string, bs: seq<Bookmark>, tags: seq<Tag>, b: Bookmark)
    requires !IsBlank(keyword)
    ensures b in KeywordResults(keyword, bs) ==> b in SearchStore.SearchResults(keyword, bs, tags)
    ensures b in SearchStore.SearchResults(keyword, bs, []) <==> b in KeywordResults(keyword, bs)
  {
    KeywordResultMembership(keyword, bs, b);
    SearchStore.SearchResultMembership(keyword, bs, tags, b);
    SearchStore.SearchResultMembership(keyword, bs, [], b);
  }

  class BookmarkState {
    var bookmarks: seq<Bookmark>

    constructor ()
      ensures bookmarks == []
    {
      bookmarks := [];
    }

    /** `fetchBookmarks`: a rejection is reported and swallowed. */
    method FetchBookmarks(reply: Result<seq<Bookmark>>)
      modifies this
      ensures reply.Ok? ==> bookmarks == reply.value
      ensures reply.Err? ==> bookmarks == old(bookmarks)
    {
      if reply.Ok? {
        bookmarks := reply.value;
      }
    }

    /** `addBookmark`: the reply to the payload is appended to the list. */
    method AddBookmark(bookmark: BookmarkFields, addBookmark: BookmarkFields -> Result<Bookmark>)
      returns (r: Result<Bookmark>)
      modifies this
      ensures r == addBookmark(AddPayload(bookmark))
      ensures r.Ok? ==> bookmarks == old(bookmarks) + [r.value]
      ensures r.Err? ==> bookmarks == old(bookmarks)
    {
      var bookmarkData := AddPayload(bookmark);
      r := addBookmark(bookmarkData);
      if r.Ok? {
        bookmarks := bookmarks + [r.value];
      }
    }

    /** `updateBookmark`: the reply to the payload replaces the first bookmark with the id, if any. */
    method UpdateBookmark(id: string, updates: BookmarkFields, updateBookmark: (string, BookmarkFields) -> Result<Bookmark>)
      returns (r: Result<Bookmark>)
      modifies this
      ensures r == updateBookmark(id, UpdatePayload(updates))
      ensures r.Ok? ==> bookmarks == ReplaceFirstWhere(old(bookmarks), BookmarkHasId(id), r.value)
      ensures r.Err? ==> bookmarks == old(bookmarks)
    {
      var updateData := NoBookmarkFields;
      if updates.title.Some? {
        updateData := updateData.(title := updates.title);
      }
      if updates.description.Some? {
        updateData := updateData.(description := updates.description);
      }
      if updates.folderId.Some? {
        updateData := updateData.(folderId := updates.folderId);
      }
      if updates.tags.Some? {
        updateData := updateData.(tags := updates.tags);
      }
      if updates.color.Some? {
        updateData := updateData.(color := updates.color);
      }
      if updates.favicon.Some? {
        updateData := updateData.(favicon := updates.favicon);
      }
      assert updateData == UpdatePayload(updates);
      r := updateBookmark(id, updateData);
      if r.Ok? {
        var index := FindIndex(bookmarks, BookmarkHasId(id));
        if index > -1 {
          bookmarks := bookmarks[index := r.value];
        }
      }
    }

    /** `deleteBookmark`: once the main process succeeds, every bookmark with the id is dropped. */
    method DeleteBookmark(id: string, reply: Result<()>) returns (r: Result<()>)
      modifies this
      ensures r == reply
      ensures reply.Ok? ==> bookmarks == Filter(old(bookmarks), BookmarkLacksId(id))
      ensures reply.Err? ==> bookmarks == old(bookmarks)
    {
      r := reply;
      if reply.Ok? {
        bookmarks := Filter(bookmarks, BookmarkLacksId(id));
      }
    }

    /** `incrementVisitCount`: a rejection is swallowed silently. */
    method IncrementVisitCount(id: string, reply: Option<Result<Bookmark>>)
      modifies this
      ensures reply.Some? && reply.value.Ok? ==>
        bookmarks == ReplaceFirstWhere(old(bookmarks), BookmarkHasId(id), reply.value.value)
      ensures reply.None? || reply.value.Err? ==> bookmarks == old(bookmarks)
    {
      if reply.Some? && reply.value.Ok? {
        var index := FindIndex(bookmarks, BookmarkHasId(id));
        if index > -1 {
          bookmarks := bookmarks[index := reply.value.value];
        }
      }
    }

    /** `clearAllBookmarks`: empties the list once the main process succeeds. */
    method ClearAllBookmarks(reply: Option<Result<()>>) returns (r: Result<()>)
      modifies this
      ensures reply.None? ==> r == Ok(()) && bookmarks == old(bookmarks)
      ensures reply.Some? ==> r == reply.value
      ensures reply.Some? && reply.value.Ok? ==> bookmarks == []
      ensures reply.Some? && reply.value.Err? ==> bookmarks == old(bookmarks)
    {
      r := Ok(());
      if reply.Some? {
        r := reply.value;
        if r.Ok? {
          bookmarks := [];
        }
      }
    }

    function SearchBookmarks(keyword: string): seq<Bookmark>
      reads this
    {
      KeywordResults(keyword, bookmarks)
    }
  }
}
