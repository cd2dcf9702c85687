/**
 * The bookmark handlers of the main process (`add-bookmark`,
 * `update-bookmark`, `delete-bookmark`, `increment-visit-count`,
 * `clearAllBookmarks`): each reads `bookmarks.json`, changes one thing and
 * writes the whole collection back.
 *
 * The change itself is a function over the sequence of bookmarks; the handler
 * is a method over the store that performs it in place.
 */
module BookmarkHandlers {
  import opened Wrappers
  import opened Entities
  import opened Seqs
  import opened Storage

  const BookmarkNotFound: string := "Bookmark not found"

  /**
   * The record `add-bookmark` builds: the defaults, then every key of `data`
   * spread over them, so a key the caller sends wins even when it is `id` or
   * an empty title.
   */
  function NewBookmark(data: BookmarkFields, freshId: string, now: string): (b: Bookmark)
    ensures BookmarkAgrees(b, data)
    ensures data.id.None? ==> b.id == freshId
    ensures data.url.None? ==> b.url == ""
    ensures data.title.None? ==> b.title == Or(data.url, "")
    ensures data.description.None? ==> b.description == ""
    ensures data.favicon.None? ==> b.favicon == ""
    ensures data.color.None? ==> b.color == DefaultColor
    ensures data.folderId.None? ==> b.folderId == ""
    ensures data.tags.None? ==> b.tags == []
    ensures data.visitCount.None? ==> b.visitCount == 0
    ensures data.lastVisited.None? ==> b.lastVisited == None
    ensures data.createdAt.None? ==> b.createdAt == now
    ensures data.updatedAt.None? ==> b.updatedAt == now
  {
    var defaults := Bookmark(
      freshId, Or(data.url, ""), Or(data.title, Or(data.url, "")),
      Or(data.description, ""), Or(data.favicon, ""), Or(data.color, DefaultColor),
      Or(data.folderId, ""), data.tags.GetOr([]), 0, None, now, now);
    ApplyToBookmark(defaults, data)
  }

  /** Adding a bookmark with only a URL fills in the title from the URL and the stated defaults. */
  lemma AddWithOnlyUrl(url: string, freshId: string, now: string)
    requires url != ""
    ensures var b := NewBookmark(NoBookmarkFields.(url := Some(url)), freshId, now);
      && b.id == freshId && b.url == url && b.title == url
      && b.color == DefaultColor && b.visitCount == 0 && b.lastVisited == None
      && b.folderId == "" && b.tags == []
  {
  }

  /** A caller's explicit empty title is kept, even when a URL is given. */
  lemma ExplicitEmptyTitleWins(data: BookmarkFields, freshId: string, now: string)
    requires data.title == Some("")
    ensures NewBookmark(data, freshId, now).title == ""
  {
  }

  /** `{ ...b, ...updates, updatedAt: now }` */
  function Touched(b: Bookmark, updates: BookmarkFields, now: string): Bookmark {
    ApplyToBookmark(b, updates).(updatedAt := now)
  }

  /** `update-bookmark` on the collection: merge into the first bookmark with `id`. */
  function UpdateIn(bs: seq<Bookmark>, id: string, updates: BookmarkFields, now: string)
    : (r: Result<seq<Bookmark>>)
    ensures r.Err? <==> forall k :: 0 <= k < |bs| ==> bs[k].id != id
    ensures r.Err? ==> r.message == BookmarkNotFound
    ensures r.Ok? ==> |r.value| == |bs|
    ensures r.Ok? ==>
      var i := IndexWhere(bs, BookmarkHasId(id));
      && bs[i].id == id
      && (forall k :: 0 <= k < i ==> bs[k].id != id)
      && r.value[i].updatedAt == now
      && BookmarkAgrees(r.value[i], updates.(updatedAt := Some(now)))
      && BookmarkKeepsAbsent(bs[i], updates.(updatedAt := Some(now)), r.value[i])
      && (forall k :: 0 <= k < |bs| && k != i ==> r.value[k] == bs[k])
  {
    var i := IndexWhere(bs, BookmarkHasId(id));
    if i == -1 then Err(BookmarkNotFound)
    else Ok(bs[i := Touched(bs[i], updates, now)])
  }

  /** `increment-visit-count` on the collection. */
  function IncrementIn(bs: seq<Bookmark>, id: string, now: string): (r: Result<seq<Bookmark>>)
    ensures r.Err? <==> forall k :: 0 <= k < |bs| ==> bs[k].id != id
    ensures r.Err? ==> r.message == BookmarkNotFound
    ensures r.Ok? ==> |r.value| == |bs|
    ensures r.Ok? ==>
      var i := IndexWhere(bs, BookmarkHasId(id));
      && bs[i].id == id
      && r.value[i].visitCount == bs[i].visitCount + 1
      && r.value[i].lastVisited == Some(now)
      && r.value[i].updatedAt == now
      && r.value[i].(visitCount := bs[i].visitCount, lastVisited := bs[i].lastVisited,
                     updatedAt := bs[i].updatedAt) == bs[i]
      && (forall k :: 0 <= k < |bs| && k != i ==> r.value[k] == bs[k])
  {
    var i := IndexWhere(bs, BookmarkHasId(id));
    if i == -1 then Err(BookmarkNotFound)
    else Ok(bs[i := bs[i].(visitCount := bs[i].visitCount + 1, lastVisited := Some(now),
                           updatedAt := now)])
  }

  /** `delete-bookmark` on the collection: drop every bookmark with `id`. */
  function DeleteFrom(bs: seq<Bookmark>, id: string): (r: Result<seq<Bookmark>>)
    ensures r.Err? <==> forall k :: 0 <= k < |bs| ==> bs[k].id != id
    ensures r.Err? ==> r.message == BookmarkNotFound
    ensures r.Ok? ==> r.value == Filter(bs, BookmarkLacksId(id))
    ensures r.Ok? ==> forall k :: 0 <= k < |r.value| ==> r.value[k].id != id
  {
    var filtered := Filter(bs, BookmarkLacksId(id));
    FilterKeepsAll(bs, BookmarkLacksId(id));
    if |filtered| == |bs| then Err(BookmarkNotFound) else Ok(filtered)
  }

  /**
   * A successful delete keeps every other bookmark, with its multiplicity and
   * in its original order.
   */
  lemma DeleteKeepsOthers(bs: seq<Bookmark>, id: string, b: Bookmark)
    requires DeleteFrom(bs, id).Ok?
    ensures var rest := DeleteFrom(bs, id).value;
      && IsSubsequence(rest, bs)
      && multiset(rest)[b] == if b.id == id then 0 else multiset(bs)[b]
  {
    FilterIsSubsequence(bs, BookmarkLacksId(id));
    FilterMultiplicity(bs, BookmarkLacksId(id), b);
  }

  method AddBookmark(store: DataStore, data: BookmarkFields, freshId: string, now: string)
    returns (r: Result<Bookmark>)
    modifies store`bookmarksFile
    ensures var b := NewBookmark(data, freshId, now);
      if store.writable then
        r == Ok(b) && store.bookmarksFile == Some(old(store.Bookmarks()) + [b])
      else
        r == Err("Failed to save bookmark") && store.bookmarksFile == old(store.bookmarksFile)
  {
    var bookmarks := store.Bookmarks();
    var b := NewBookmark(data, freshId, now);
    bookmarks := bookmarks + [b];
    var ok := store.SaveBookmarks(bookmarks);
    if ok {
      r := Ok(b);
    } else {
      r := Err("Failed to save bookmark");
    }
  }

  method UpdateBookmark(store: DataStore, id: string, updates: BookmarkFields, now: string)
    returns (r: Result<Bookmark>)
    modifies store`bookmarksFile
    ensures var u := UpdateIn(old(store.Bookmarks()), id, updates, now);
      if u.Err? then
        r == Err(u.message) && store.bookmarksFile == old(store.bookmarksFile)
      else if store.writable then
        && store.bookmarksFile == Some(u.value)
        && r == Ok(u.value[IndexWhere(old(store.Bookmarks()), BookmarkHasId(id))])
      else
        r == Err("Failed to update bookmark") && store.bookmarksFile == old(store.bookmarksFile)
  {
    var bookmarks := store.Bookmarks();
    var index := FindIndex(bookmarks, BookmarkHasId(id));
    if index == -1 {
      return Err(BookmarkNotFound);
    }
    bookmarks := bookmarks[index := Touched(bookmarks[index], updates, now)];
    var ok := store.SaveBookmarks(bookmarks);
    if ok {
      r := Ok(bookmarks[index]);
    } else {
      r := Err("Failed to update bookmark");
    }
  }

  method DeleteBookmark(store: DataStore, id: string) returns (r: Result<()>)
    modifies store`bookmarksFile
    ensures var d := DeleteFrom(old(store.Bookmarks()), id);
      if d.Err? then
        r == Err(d.message) && store.bookmarksFile == old(store.bookmarksFile)
      else if store.writable then
        r == Ok(()) && store.bookmarksFile == Some(d.value)
      else
        r == Err("Failed to delete bookmark") && store.bookmarksFile == old(store.bookmarksFile)
  {
    var bookmarks := store.Bookmarks();
    var filtered := Filter(bookmarks, BookmarkLacksId(id));
    if |filtered| == |bookmarks| {
      return Err(BookmarkNotFound);
    }
    var ok := store.SaveBookmarks(filtered);
    if ok {
      r := Ok(());
    } else {
      r := Err("Failed to delete bookmark");
    }
  }

  method IncrementVisitCount(store: DataStore, id: string, now: string) returns (r: Result<Bookmark>)
    modifies store`bookmarksFile
    ensures var u := IncrementIn(old(store.Bookmarks()), id, now);
      if u.Err? then
        r == Err(u.message) && store.bookmarksFile == old(store.bookmarksFile)
      else if store.writable then
        && store.bookmarksFile == Some(u.value)
        && r == Ok(u.value[IndexWhere(old(store.Bookmarks()), BookmarkHasId(id))])
      else
        r == Err("Failed to update visit count") && store.bookmarksFile == old(store.bookmarksFile)
  {
    var bookmarks := store.Bookmarks();
    var index := FindIndex(bookmarks, BookmarkHasId(id));
    if index == -1 {
      return Err(BookmarkNotFound);
    }
    var b := bookmarks[index];
    bookmarks := bookmarks[index := b.(visitCount := b.visitCount + 1, lastVisited := Some(now),
                                       updatedAt := now)];
    var ok := store.SaveBookmarks(bookmarks);
    if ok {
      r := Ok(bookmarks[index]);
    } else {
      r := Err("Failed to update visit count");
    }
  }

  method ClearAllBookmarks(store: DataStore) returns (r: Result<bool>)
    modifies store`bookmarksFile
    ensures if store.writable then r == Ok(true) && store.bookmarksFile == Some([])
            else r == Err("Failed to clear bookmarks") && store.bookmarksFile == old(store.bookmarksFile)
  {
    var ok := store.SaveBookmarks([]);
    if ok {
      r := Ok(true);
    } else {
      r := Err("Failed to clear bookmarks");
    }
  }
}
