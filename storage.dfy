/**
 * The per-user data directory holding `bookmarks.json`, `folders.json`,
 * `tags.json` and `settings.json`, as an abstract store.
 *
 * A file is `None` when it is missing or does not parse; reading it then
 * yields the caller's default (`readJsonFile`). A write replaces the whole
 * file and reports success (`writeJsonFile`); whether the disk accepts writes
 * is the store's fixed `writable` flag.
 */
module Storage {
  import opened Wrappers
  import opened Entities

  class DataStore {
    var bookmarksFile: Option<seq<Bookmark>>
    var foldersFile: Option<seq<Folder>>
    var tagsFile: Option<seq<Tag>>
    var settingsFile: Option<Settings>
    const writable: bool

    constructor (bookmarks: Option<seq<Bookmark>>, folders: Option<seq<Folder>>,
                 tags: Option<seq<Tag>>, settings: Option<Settings>, writable: bool)
      ensures bookmarksFile == bookmarks && foldersFile == folders
      ensures tagsFile == tags && settingsFile == settings
      ensures this.writable == writable
    {
      bookmarksFile, foldersFile, tagsFile, settingsFile := bookmarks, folders, tags, settings;
      this.writable := writable;
    }

    /** `getBookmarks()`: the stored bookmarks, or `[]`. */
    function Bookmarks(): seq<Bookmark>
      reads this
    {
      bookmarksFile.GetOr([])
    }

    /** `getFolders()`: the stored folders, or `[]`. */
    function Folders(): seq<Folder>
      reads this
    {
      foldersFile.GetOr([])
    }

    /** `getTags()`: the stored tags, or `[]`. */
    function Tags(): seq<Tag>
      reads this
    {
      tagsFile.GetOr([])
    }

    /** `getSettings()`: the stored settings, or the defaults. */
    function CurrentSettings(): Settings
      reads this
    {
      settingsFile.GetOr(DefaultSettings)
    }

    method SaveBookmarks(bookmarks: seq<Bookmark>) returns (ok: bool)
      modifies this`bookmarksFile
      ensures ok == writable
      ensures bookmarksFile == if writable then Some(bookmarks) else old(bookmarksFile)
    {
      ok := writable;
      if ok {
        bookmarksFile := Some(bookmarks);
      }
    }

    method SaveFolders(folders: seq<Folder>) returns (ok: bool)
      modifies this`foldersFile
      ensures ok == writable
      ensures foldersFile == if writable then Some(folders) else old(foldersFile)
    {
      ok := writable;
      if ok {
        foldersFile := Some(folders);
      }
    }

    method SaveTags(tags: seq<Tag>) returns (ok: bool)
      modifies this`tagsFile
      ensures ok == writable
      ensures tagsFile == if writable then Some(tags) else old(tagsFile)
    {
      ok := writable;
      if ok {
        tagsFile := Some(tags);
      }
    }

    method SaveSettings(settings: Settings) returns (ok: bool)
      modifies this`settingsFile
      ensures ok == writable
      ensures settingsFile == if writable then Some(settings) else old(settingsFile)
    {
      ok := writable;
      if ok {
        settingsFile := Some(settings);
      }
    }
  }
}
