/**
 * The renderer's folder store: the folder list mirrored from the main
 * process and the id of the folder the interface shows (`""` when none).
 *
 * As in the tag store, each action that calls the main process takes the
 * call's reply, or the main process as a function of the payload it sends;
 * on a rejection the local state is left as it was and the error is passed on.
 */
module FolderStore {
  import opened Wrappers
  import opened Seqs
  import opened Entities
  import opened FolderHandlers

  /** `folder.icon || null`: a non-empty icon string, or `null`. */
  function IconOrNull(icon: Option<Option<string>>): (r: Option<string>)
    ensures r.Some? <==> icon.Some? && icon.value.Some? && icon.value.value != ""
    ensures r.Some? ==> icon == Some(r)
  {
    if icon.Some? && icon.value.Some? && icon.value.value != "" then icon.value else None
  }

  /** The payload `addFolder` sends: a name, an icon or `null`, and a colour, always. */
  function FolderPayload(folder: FolderFields): (p: FolderFields)
    ensures p.id.None? && p.createdAt.None? && p.order.None?
    ensures p.name == Some(Or(folder.name, ""))
    ensures p.icon == Some(IconOrNull(folder.icon))
    ensures p.color == Some(Or(folder.color, DefaultColor))
  {
    FolderFields(None, Some(Or(folder.name, "")), Some(IconOrNull(folder.icon)), Some(Or(folder.color, DefaultColor)), None, None)
  }

  /**
   * A folder added through the store gets `add-folder`'s `New Folder` name
   * when the caller gives none or an empty one (the empty payload name is
   * falsy there), and keeps the caller's icon and colour when non-empty.
   */
  lemma StoreAddFolderDefaults(folder: FolderFields, fs: seq<Folder>, freshId: string, now: string)
    ensures var f := NewFolder(FolderPayload(folder), fs, freshId, now);
      && f.id == freshId
      && f.name == Or(folder.name, "New Folder")
      && f.icon == IconOrNull(folder.icon)
      && f.color == Or(folder.color, DefaultColor)
      && f.order == NextOrder(fs)
  {
  }

  /** The selection after `fetchFolders` receives `fs`. */
  function SelectionAfterFetch(current: string, fs: seq<Folder>): string {
    if current == "" && |fs| > 0 then fs[0].id else current
  }

  /** The selection after `deleteFolder(id)` leaves `remaining`. */
  function SelectionAfterDelete(current: string, id: string, remaining: seq<Folder>): string {
    if current == id then (if |remaining| > 0 then remaining[0].id else "") else current
  }

  /** The `currentFolder` computed value: the first folder with the id, or `null`. */
  function FolderWithId(fs: seq<Folder>, id: string): (r: Option<Folder>)
    ensures r.None? <==> forall k :: 0 <= k < |fs| ==> fs[k].id != id
    ensures r.Some? ==>
      var i := IndexWhere(fs, FolderHasId(id));
      0 <= i && r.value == fs[i] && r.value.id == id && forall k :: 0 <= k < i ==> fs[k].id != id
  {
    var i := IndexWhere(fs, FolderHasId(id));
    if i == -1 then None else Some(fs[i])
  }

  /**
   * `fetchFolders` keeps a selection that was made and otherwise selects the
   * first folder, which then is the current folder.
   */
  lemma FetchSelectsFirstFolder(current: string, fs: seq<Folder>)
    ensures current != "" ==> SelectionAfterFetch(current, fs) == current
    ensures current == "" && |fs| > 0 && fs[0].id != "" ==>
      FolderWithId(fs, SelectionAfterFetch(current, fs)) == Some(fs[0])
    ensures current == "" && fs == [] ==> SelectionAfterFetch(current, fs) == ""
  {
    if current == "" && |fs| > 0 {
      assert IndexWhere(fs, FolderHasId(fs[0].id)) == 0;
    }
  }

  /**
   * Deleting the selected folder moves the selection to the first remaining
   * folder, which then is the current folder, or to `""` when none remains;
   * deleting another folder keeps the selection. The deleted id is never
   * selected afterwards unless it is `""`.
   */
  lemma DeleteReselects(fs: seq<Folder>, current: string, id: string)
    ensures var remaining := Filter(fs, FolderLacksId(id));
      var s := SelectionAfterDelete(current, id, remaining);
      && (current != id ==> s == current)
      && (current == id && remaining == [] ==> s == "")
      && (current == id && remaining != [] ==> FolderWithId(remaining, s) == Some(remaining[0]))
      && (id != "" ==> s != id)
  {
    var remaining := Filter(fs, FolderLacksId(id));
    if current == id && remaining != [] {
      assert remaining[0].id != id;
      assert IndexWhere(remaining, FolderHasId(remaining[0].id)) == 0;
    }
  }

  class FolderState {
    var folders: seq<Folder>
    var currentFolderId: string

    constructor ()
      ensures folders == [] && currentFolderId == ""
    {
      folders, currentFolderId := [], "";
    }

    /** `fetchFolders`: a rejection is reported and swallowed. */
    method FetchFolders(reply: Result<seq<Folder>>)
      modifies this
      ensures reply.Ok? ==> folders == reply.value
      ensures reply.Ok? ==> currentFolderId == SelectionAfterFetch(old(currentFolderId), reply.value)
      ensures reply.Err? ==> folders == old(folders) && currentFolderId == old(currentFolderId)
    {
      if reply.Ok? {
        folders := reply.value;
        if currentFolderId == "" && |folders| > 0 {
          currentFolderId := folders[0].id;
        }
      }
    }

    /** `addFolder`: the reply to the payload is appended to the list. */
    method AddFolder(folder: FolderFields, addFolder: FolderFields -> Result<Folder>) returns (r: Result<Folder>)
      modifies this`folders
      ensures r == addFolder(FolderPayload(folder))
      ensures r.Ok? ==> folders == old(folders) + [r.value]
      ensures r.Err? ==> folders == old(folders)
    {
      var folderData := FolderPayload(folder);
      r := addFolder(folderData);
      if r.Ok? {
        folders := folders + [r.value];
      }
    }

    /** `deleteFolder`: drop every folder with the id and move the selection off it. */
    method DeleteFolder(id: string, reply: Result<()>) returns (r: Result<()>)
      modifies this
      ensures r == reply
      ensures reply.Ok? ==> folders == Filter(old(folders), FolderLacksId(id))
      ensures reply.Ok? ==> currentFolderId == SelectionAfterDelete(old(currentFolderId), id, folders)
      ensures reply.Err? ==> folders == old(folders) && currentFolderId == old(currentFolderId)
    {
      r := reply;
      if reply.Ok? {
        folders := Filter(folders, FolderLacksId(id));
        if currentFolderId == id {
          currentFolderId := if |folders| > 0 then folders[0].id else "";
        }
      }
    }

    method SetCurrentFolder(id: string)
      modifies this`currentFolderId
      ensures currentFolderId == id
    {
      currentFolderId := id;
    }

    /** `updateFolder`: the reply replaces the first folder with the id, if any. */
    method UpdateFolder(id: string, reply: Result<Folder>) returns (r: Result<()>)
      modifies this`folders
      ensures reply.Ok? ==> r == Ok(()) && folders == ReplaceFirstWhere(old(folders), FolderHasId(id), reply.value)
      ensures reply.Err? ==> r == Err(reply.message) && folders == old(folders)
    {
      if reply.Err? {
        return Err(reply.message);
      }
      var index := FindIndex(folders, FolderHasId(id));
      if index > -1 {
        folders := folders[index := reply.value];
      }
      r := Ok(());
    }

    function CurrentFolder(): Option<Folder>
      reads this
    {
      FolderWithId(folders, currentFolderId)
    }

    /** `clearAllFolders`: no folders and no selection once the main process succeeds. */
    method ClearAllFolders(reply: Result<()>) returns (r: Result<()>)
      modifies this
      ensures r == reply
      ensures reply.Ok? ==> folders == [] && currentFolderId == ""
      ensures reply.Err? ==> folders == old(folders) && currentFolderId == old(currentFolderId)
    {
      r := reply;
      if reply.Ok? {
        folders, currentFolderId := [], "";
      }
    }
  }
}
