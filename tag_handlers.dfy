/**
 * The tag handlers of the main process (`add-tag`, `delete-tag`,
 * `update-tag`, `clearAllTags`). Deleting or clearing tags also rewrites
 * `bookmarks.json`, removing the tag ids from every bookmark.
 */
module TagHandlers {
  import opened Wrappers
  import opened Entities
  import opened Seqs
  import opened Storage

  const TagNotFound: string := "Tag not found"

  /**
   * The record `add-tag` builds: the defaults, then every key of `data`
   * spread over them, so a key the caller sends wins, `id` included.
   */
  function NewTag(data: TagFields, freshId: string, now: string): (t: Tag)
    ensures data.id.Some? ==> t.id == data.id.value
    ensures data.id.None? ==> t.id == freshId
    ensures data.name.Some? ==> t.name == data.name.value
    ensures data.name.None? ==> t.name == "New Tag"
    ensures data.color.Some? ==> t.color == data.color.value
    ensures data.color.None? ==> t.color == DefaultColor
    ensures data.createdAt.Some? ==> t.createdAt == data.createdAt.value
    ensures data.createdAt.None? ==> t.createdAt == now
  {
    ApplyToTag(Tag(freshId, Or(data.name, "New Tag"), Or(data.color, DefaultColor), now), data)
  }

  /** `delete-tag` on the tag collection. */
  function DeleteTagFrom(ts: seq<Tag>, id: string): (r: Result<seq<Tag>>)
    ensures r.Err? <==> forall k :: 0 <= k < |ts| ==> ts[k].id != id
    ensures r.Err? ==> r.message == TagNotFound
    ensures r.Ok? ==> r.value == Filter(ts, TagLacksId(id))
    ensures r.Ok? ==> forall k :: 0 <= k < |r.value| ==> r.value[k].id != id
  {
    var filtered := Filter(ts, TagLacksId(id));
    FilterKeepsAll(ts, TagLacksId(id));
    if |filtered| == |ts| then Err(TagNotFound) else Ok(filtered)
  }

  /** `tagId => tagId !== id` */
  function IsNot(id: string): string -> bool {
    (t: string) => t != id
  }

  /** The cascade of `delete-tag` over the bookmarks: strip `id` from every tag list. */
  function StripTag(bs: seq<Bookmark>, id: string): (r: seq<Bookmark>)
    ensures |r| == |bs|
    ensures forall k :: 0 <= k < |bs| ==> r[k] == bs[k].(tags := Filter(bs[k].tags, IsNot(id)))
  {
    seq(|bs|, k requires 0 <= k < |bs| => bs[k].(tags := Filter(bs[k].tags, IsNot(id))))
  }

  /**
   * After the cascade the deleted id occurs in no bookmark's tags; every other
   * tag id keeps its multiplicity and relative order, and nothing else changes.
   */
  lemma StripTagRemovesOnlyId(bs: seq<Bookmark>, id: string, k: nat, other: string)
    requires k < |bs|
    ensures var b := StripTag(bs, id)[k];
      && id !in b.tags
      && multiset(b.tags)[other] == (if other == id then 0 else multiset(bs[k].tags)[other])
      && IsSubsequence(b.tags, bs[k].tags)
      && b.(tags := bs[k].tags) == bs[k]
  {
    var b := StripTag(bs, id)[k];
    FilterMultiplicity(bs[k].tags, IsNot(id), other);
    FilterMultiplicity(bs[k].tags, IsNot(id), id);
    FilterIsSubsequence(bs[k].tags, IsNot(id));
  }

  /** `update-tag` on the collection: merge into the first tag with `id`. */
  function UpdateTagIn(ts: seq<Tag>, id: string, updates: TagFields): (r: Result<seq<Tag>>)
    ensures r.Err? <==> forall k :: 0 <= k < |ts| ==> ts[k].id != id
    ensures r.Err? ==> r.message == TagNotFound
    ensures r.Ok? ==> |r.value| == |ts|
    ensures r.Ok? ==>
      var i := IndexWhere(ts, TagHasId(id));
      && ts[i].id == id
      && (forall k :: 0 <= k < i ==> ts[k].id != id)
      && TagMerged(ts[i], updates, r.value[i])
      && (forall k :: 0 <= k < |ts| && k != i ==> r.value[k] == ts[k])
  {
    var i := IndexWhere(ts, TagHasId(id));
    if i == -1 then Err(TagNotFound) else Ok(ts[i := ApplyToTag(ts[i], updates)])
  }

  /** The cascade of `clearAllTags` over the bookmarks. */
  function UntagAll(bs: seq<Bookmark>): (r: seq<Bookmark>)
    ensures |r| == |bs|
    ensures forall k :: 0 <= k < |bs| ==> r[k] == bs[k].(tags := [])
  {
    seq(|bs|, k requires 0 <= k < |bs| => bs[k].(tags := []))
  }

  method AddTag(store: DataStore, data: TagFields, freshId: string, now: string) returns (r: Result<Tag>)
    modifies store`tagsFile
    ensures var t := NewTag(data, freshId, now);
      if store.writable then
        r == Ok(t) && store.tagsFile == Some(old(store.Tags()) + [t])
      else
        r == Err("Failed to save tag") && store.tagsFile == old(store.tagsFile)
  {
    var tags := store.Tags();
    var t := NewTag(data, freshId, now);
    tags := tags + [t];
    var ok := store.SaveTags(tags);
    if ok {
      r := Ok(t);
    } else {
      r := Err("Failed to save tag");
    }
  }

  method DeleteTag(store: DataStore, id: string) returns (r: Result<()>)
    modifies store`tagsFile, store`bookmarksFile
    ensures var d := DeleteTagFrom(old(store.Tags()), id);
      if d.Err? then
        && r == Err(d.message)
        && store.tagsFile == old(store.tagsFile)
        && store.bookmarksFile == old(store.bookmarksFile)
      else if store.writable then
        && r == Ok(())
        && store.tagsFile == Some(d.value)
        && store.bookmarksFile == Some(StripTag(old(store.Bookmarks()), id))
      else
        && r == Err("Failed to delete tag")
        && store.tagsFile == old(store.tagsFile)
        && store.bookmarksFile == old(store.bookmarksFile)
  {
    var tags := store.Tags();
    var filtered := Filter(tags, TagLacksId(id));
    if |filtered| == |tags| {
      return Err(TagNotFound);
    }
    var ok := store.SaveTags(filtered);
    if !ok {
      return Err("Failed to delete tag");
    }
    var bookmarks := store.Bookmarks();
    ok := store.SaveBookmarks(StripTag(bookmarks, id));
    if !ok {
      return Err("Failed to update bookmarks");
    }
    r := Ok(());
  }

  method UpdateTag(store: DataStore, id: string, updates: TagFields) returns (r: Result<Tag>)
    modifies store`tagsFile
    ensures var u := UpdateTagIn(old(store.Tags()), id, updates);
      if u.Err? then
        r == Err(u.message) && store.tagsFile == old(store.tagsFile)
      else if store.writable then
        && store.tagsFile == Some(u.value)
        && r == Ok(u.value[IndexWhere(old(store.Tags()), TagHasId(id))])
      else
        r == Err("Failed to update tag") && store.tagsFile == old(store.tagsFile)
  {
    var tags := store.Tags();
    var index := FindIndex(tags, TagHasId(id));
    if index == -1 {
      return Err(TagNotFound);
    }
    var updatedTag := ApplyToTag(tags[index], updates);
    tags := tags[index := updatedTag];
    var ok := store.SaveTags(tags);
    if !ok {
      return Err("Failed to update tag");
    }
    r := Ok(updatedTag);
  }

  method ClearAllTags(store: DataStore) returns (r: Result<bool>)
    modifies store`tagsFile, store`bookmarksFile
    ensures if store.writable then
        && r == Ok(true)
        && store.tagsFile == Some([])
        && store.bookmarksFile == Some(UntagAll(old(store.Bookmarks())))
      else
        && r == Err("Failed to clear tags")
        && store.tagsFile == old(store.tagsFile)
        && store.bookmarksFile == old(store.bookmarksFile)
  {
    var ok := store.SaveTags([]);
    if !ok {
      return Err("Failed to clear tags");
    }
    var bookmarks := store.Bookmarks();
    ok := store.SaveBookmarks(UntagAll(bookmarks));
    if !ok {
      return Err("Failed to update bookmarks");
    }
    r := Ok(true);
  }
}
