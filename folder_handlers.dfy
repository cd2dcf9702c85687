/**
 * The folder handlers of the main process (`add-folder`, `delete-folder`,
 * `update-folder`, `clearAllFolders`). Deleting or clearing folders also
 * rewrites `bookmarks.json`, resetting the folder reference of the bookmarks
 * that pointed at a removed folder.
 */
module FolderHandlers {
  import opened Wrappers
  import opened Entities
  import opened Seqs
  import opened Storage

  const FolderNotFound: string := "Folder not found"

  /** `Math.max(...folders.map(f => f.order))` */
  function MaxOrder(fs: seq<Folder>): (m: int)
    requires |fs| > 0
    ensures forall k :: 0 <= k < |fs| ==> fs[k].order <= m
    ensures exists k :: 0 <= k < |fs| && fs[k].order == m
  {
    if |fs| == 1 then fs[0].order
    else
      var rest := MaxOrder(fs[1..]);
      assert forall k :: 1 <= k < |fs| ==> fs[k] == fs[1..][k - 1];
      if fs[0].order > rest then fs[0].order else rest
  }

  /** The order a new folder gets: one past the largest order, or 1 when there are no folders. */
  function NextOrder(fs: seq<Folder>): (n: int)
    ensures fs == [] ==> n == 1
    ensures forall k :: 0 <= k < |fs| ==> fs[k].order < n
    ensures fs != [] ==> exists k :: 0 <= k < |fs| && fs[k].order == n - 1
  {
    (if |fs| > 0 then MaxOrder(fs) else 0) + 1
  }

  /**
   * The record `add-folder` builds. No key of `folderData` is spread over it,
   * so its id is always the fresh one.
   */
  function NewFolder(data: FolderFields, fs: seq<Folder>, freshId: string, now: string): (f: Folder)
    ensures f.id == freshId && f.createdAt == now
    ensures f.name != "" && f.color != ""
    ensures data.name.None? ==> f.name == "New Folder"
    ensures data.color.None? ==> f.color == DefaultColor
    ensures f.name == Or(data.name, "New Folder") && f.color == Or(data.color, DefaultColor)
    ensures f.icon.Some? <==> data.icon.Some? && data.icon.value.Some? && data.icon.value.value != ""
    ensures f.icon.Some? ==> data.icon == Some(f.icon)
    ensures forall k :: 0 <= k < |fs| ==> fs[k].order < f.order
    ensures f.order == NextOrder(fs)
  {
    Folder(
      freshId,
      Or(data.name, "New Folder"),
      if data.icon.Some? && data.icon.value.Some? && data.icon.value.value != "" then data.icon.value else None,
      Or(data.color, DefaultColor),
      now,
      NextOrder(fs))
  }

  /** `delete-folder` on the folder collection. */
  function DeleteFolderFrom(fs: seq<Folder>, id: string): (r: Result<seq<Folder>>)
    ensures r.Err? <==> forall k :: 0 <= k < |fs| ==> fs[k].id != id
    ensures r.Err? ==> r.message == FolderNotFound
    ensures r.Ok? ==> r.value == Filter(fs, FolderLacksId(id))
    ensures r.Ok? ==> forall k :: 0 <= k < |r.value| ==> r.value[k].id != id
  {
    var filtered := Filter(fs, FolderLacksId(id));
    FilterKeepsAll(fs, FolderLacksId(id));
    if |filtered| == |fs| then Err(FolderNotFound) else Ok(filtered)
  }

  /** A successful folder delete keeps every other folder, with its multiplicity and in order. */
  lemma DeleteFolderKeepsOthers(fs: seq<Folder>, id: string, f: Folder)
    requires DeleteFolderFrom(fs, id).Ok?
    ensures var rest := DeleteFolderFrom(fs, id).value;
      && IsSubsequence(rest, fs)
      && multiset(rest)[f] == if f.id == id then 0 else multiset(fs)[f]
  {
    FilterIsSubsequence(fs, FolderLacksId(id));
    FilterMultiplicity(fs, FolderLacksId(id), f);
  }

  /**
   * The cascade of `delete-folder` over the bookmarks: those filed in `id`
   * become uncategorized; no bookmark is removed, reordered or otherwise changed.
   */
  function DetachFolder(bs: seq<Bookmark>, id: string): (r: seq<Bookmark>)
    ensures |r| == |bs|
    ensures forall k :: 0 <= k < |bs| && bs[k].folderId == id ==> r[k] == bs[k].(folderId := "")
    ensures forall k :: 0 <= k < |bs| && bs[k].folderId != id ==> r[k] == bs[k]
  {
    seq(|bs|, k requires 0 <= k < |bs| =>
      if bs[k].folderId == id then bs[k].(folderId := "") else bs[k])
  }

  /** After the cascade no bookmark refers to the deleted folder. */
  lemma DetachFolderLeavesNoReference(bs: seq<Bookmark>, id: string)
    requires id != ""
    ensures forall k :: 0 <= k < |bs| ==> DetachFolder(bs, id)[k].folderId != id
  {
  }

  /** `update-folder` on the collection: merge into the first folder with `id`. */
  function UpdateFolderIn(fs: seq<Folder>, id: string, updates: FolderFields): (r: Result<seq<Folder>>)
    ensures r.Err? <==> forall k :: 0 <= k < |fs| ==> fs[k].id != id
    ensures r.Err? ==> r.message == FolderNotFound
    ensures r.Ok? ==> |r.value| == |fs|
    ensures r.Ok? ==>
      var i := IndexWhere(fs, FolderHasId(id));
      && fs[i].id == id
      && (forall k :: 0 <= k < i ==> fs[k].id != id)
      && FolderMerged(fs[i], updates, r.value[i])
      && (forall k :: 0 <= k < |fs| && k != i ==> r.value[k] == fs[k])
  {
    var i := IndexWhere(fs, FolderHasId(id));
    if i == -1 then Err(FolderNotFound) else Ok(fs[i := ApplyToFolder(fs[i], updates)])
  }

  /** The cascade of `clearAllFolders` over the bookmarks: every bookmark becomes uncategorized. */
  function UncategorizeAll(bs: seq<Bookmark>): (r: seq<Bookmark>)
    ensures |r| == |bs|
    ensures forall k :: 0 <= k < |bs| ==> r[k] == bs[k].(folderId := "")
  {
    seq(|bs|, k requires 0 <= k < |bs| => bs[k].(folderId := ""))
  }

  method AddFolder(store: DataStore, data: FolderFields, freshId: string, now: string)
    returns (r: Result<Folder>)
    modifies store`foldersFile
    ensures var f := NewFolder(data, old(store.Folders()), freshId, now);
      if store.writable then
        r == Ok(f) && store.foldersFile == Some(old(store.Folders()) + [f])
      else
        r == Err("Failed to save folder") && store.foldersFile == old(store.foldersFile)
  {
    var folders := store.Folders();
    var f := NewFolder(data, folders, freshId, now);
    folders := folders + [f];
    var ok := store.SaveFolders(folders);
    if ok {
      r := Ok(f);
    } else {
      r := Err("Failed to save folder");
    }
  }

  method DeleteFolder(store: DataStore, id: string) returns (r: Result<()>)
    modifies store`foldersFile, store`bookmarksFile
    ensures var d := DeleteFolderFrom(old(store.Folders()), id);
      if d.Err? then
        && r == Err(d.message)
        && store.foldersFile == old(store.foldersFile)
        && store.bookmarksFile == old(store.bookmarksFile)
      else if store.writable then
        && r == Ok(())
        && store.foldersFile == Some(d.value)
        && store.bookmarksFile == Some(DetachFolder(old(store.Bookmarks()), id))
      else
        && r == Err("Failed to delete folder")
        && store.foldersFile == old(store.foldersFile)
        && store.bookmarksFile == old(store.bookmarksFile)
  {
    var folders := store.Folders();
    var filtered := Filter(folders, FolderLacksId(id));
    if |filtered| == |folders| {
      return Err(FolderNotFound);
    }
    var ok := store.SaveFolders(filtered);
    if !ok {
      return Err("Failed to delete folder");
    }
    var bookmarks := store.Bookmarks();
    var updated := DetachFolder(bookmarks, id);
    ok := store.SaveBookmarks(updated);
    if !ok {
      return Err("Failed to update bookmarks");
    }
    r := Ok(());
  }

  method UpdateFolder(store: DataStore, id: string, updates: FolderFields) returns (r: Result<Folder>)
    modifies store`foldersFile
    ensures var u := UpdateFolderIn(old(store.Folders()), id, updates);
      if u.Err? then
        r == Err(u.message) && store.foldersFile == old(store.foldersFile)
      else if store.writable then
        && store.foldersFile == Some(u.value)
        && r == Ok(u.value[IndexWhere(old(store.Folders()), FolderHasId(id))])
      else
        r == Err("Failed to update folder") && store.foldersFile == old(store.foldersFile)
  {
    var folders := store.Folders();
    var index := FindIndex(folders, FolderHasId(id));
    if index == -1 {
      return Err(FolderNotFound);
    }
    var updatedFolder := ApplyToFolder(folders[index], updates);
    folders := folders[index := updatedFolder];
    var ok := store.SaveFolders(folders);
    if !ok {
      return Err("Failed to update folder");
    }
    r := Ok(updatedFolder);
  }

  method ClearAllFolders(store: DataStore) returns (r: Result<bool>)
    modifies store`foldersFile, store`bookmarksFile
    ensures if store.writable then
        && r == Ok(true)
        && store.foldersFile == Some([])
        && store.bookmarksFile == Some(UncategorizeAll(old(store.Bookmarks())))
      else
        && r == Err("Failed to clear folders")
        && store.foldersFile == old(store.foldersFile)
        && store.bookmarksFile == old(store.bookmarksFile)
  {
    var ok := store.SaveFolders([]);
    if !ok {
      return Err("Failed to clear folders");
    }
    var bookmarks := store.Bookmarks();
    ok := store.SaveBookmarks(UncategorizeAll(bookmarks));
    if !ok {
      return Err("Failed to update bookmarks");
    }
    r := Ok(true);
  }
}
