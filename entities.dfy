/**
 * The persisted records of the bookmark manager and the partial records
 * (`Partial<T>` in the source) that callers send to the handlers.
 *
 * A partial record has one `Option` per key: `None` is a key that is absent
 * from the object, `Some(v)` a key present with value `v`. Two JavaScript
 * idioms recur on them: `x || d` falls back to `d` when `x` is absent or the
 * empty string (`Or`), and an object spread `{ ...a, ...u }` lets every key
 * present in `u` win over `a` (`Override`, `ApplyToBookmark`, ...).
 */
module Entities {
  import opened Wrappers

  /** The colour every handler falls back to. */
  const DefaultColor: string := "#3B82F6"

  datatype Bookmark = Bookmark(
    id: string,
    url: string,
    title: string,
    description: string,
    favicon: string,
    color: string,
    folderId: string,          // "" is the uncategorized value
    tags: seq<string>,         // ids of tags
    visitCount: int,
    lastVisited: Option<string>,
    createdAt: string,
    updatedAt: string)

  datatype Folder = Folder(
    id: string,
    name: string,
    icon: Option<string>,
    color: string,
    createdAt: string,
    order: int)

  datatype Tag = Tag(id: string, name: string, color: string, createdAt: string)

  datatype Browser = Browser(name: string, path: string, icon: string)

  datatype ViewMode = Card | List

  datatype Theme = Light | Dark

  /**
   * The settings record. `language` is not among the keys of the stored
   * defaults; it appears once the interface sends it in an update.
   */
  datatype Settings = Settings(
    defaultBrowser: string,
    availableBrowsers: seq<Browser>,
    viewMode: ViewMode,
    sidebarCollapsed: bool,
    theme: Theme,
    autoFetchIcon: bool,
    language: Option<string>)

  /** `DEFAULT_SETTINGS`, the value a missing or unreadable settings file reads as. */
  const DefaultSettings: Settings :=
    Settings("", [], Card, false, Light, true, None)

  /** `Partial<Bookmark>`. */
  datatype BookmarkFields = BookmarkFields(
    id: Option<string>,
    url: Option<string>,
    title: Option<string>,
    description: Option<string>,
    favicon: Option<string>,
    color: Option<string>,
    folderId: Option<string>,
    tags: Option<seq<string>>,
    visitCount: Option<int>,
    lastVisited: Option<Option<string>>,
    createdAt: Option<string>,
    updatedAt: Option<string>)

  /** The empty object `{}`. */
  const NoBookmarkFields: BookmarkFields :=
    BookmarkFields(None, None, None, None, None, None, None, None, None, None, None, None)

  /** `Partial<Folder>`; `icon` is absent, `null` (`Some(None)`) or a string. */
  datatype FolderFields = FolderFields(
    id: Option<string>,
    name: Option<string>,
    icon: Option<Option<string>>,
    color: Option<string>,
    createdAt: Option<string>,
    order: Option<int>)

  /** `Partial<Tag>`. */
  datatype TagFields = TagFields(
    id: Option<string>,
    name: Option<string>,
    color: Option<string>,
    createdAt: Option<string>)

  /** `Partial<Settings>`. */
  datatype SettingsFields = SettingsFields(
    defaultBrowser: Option<string>,
    availableBrowsers: Option<seq<Browser>>,
    viewMode: Option<ViewMode>,
    sidebarCollapsed: Option<bool>,
    theme: Option<Theme>,
    autoFetchIcon: Option<bool>,
    language: Option<Option<string>>)

  /** `o || default` for a string-valued key: the empty string is falsy. */
  function Or(o: Option<string>, default: string): (r: string)
    ensures o.Some? && o.value != "" ==> r == o.value
    ensures o.None? || o.value == "" ==> r == default
  {
    if o.Some? && o.value != "" then o.value else default
  }

  /** One key of an object spread: a key present on the right wins. */
  function Override<T>(o: Option<T>, v: T): T {
    if o.Some? then o.value else v
  }

  /** `{ ...b, ...u }` for bookmarks. */
  function ApplyToBookmark(b: Bookmark, u: BookmarkFields): Bookmark {
    Bookmark(
      Override(u.id, b.id), Override(u.url, b.url), Override(u.title, b.title),
      Override(u.description, b.description), Override(u.favicon, b.favicon),
      Override(u.color, b.color), Override(u.folderId, b.folderId),
      Override(u.tags, b.tags), Override(u.visitCount, b.visitCount),
      Override(u.lastVisited, b.lastVisited), Override(u.createdAt, b.createdAt),
      Override(u.updatedAt, b.updatedAt))
  }

  /** `{ ...f, ...u }` for folders. */
  function ApplyToFolder(f: Folder, u: FolderFields): Folder {
    Folder(
      Override(u.id, f.id), Override(u.name, f.name), Override(u.icon, f.icon),
      Override(u.color, f.color), Override(u.createdAt, f.createdAt),
      Override(u.order, f.order))
  }

  /** `{ ...t, ...u }` for tags. */
  function ApplyToTag(t: Tag, u: TagFields): Tag {
    Tag(Override(u.id, t.id), Override(u.name, t.name), Override(u.color, t.color),
        Override(u.createdAt, t.createdAt))
  }

  /** Every key present in `u` carries its value in `b`. */
  predicate BookmarkAgrees(b: Bookmark, u: BookmarkFields) {
    && (u.id.Some? ==> b.id == u.id.value)
    && (u.url.Some? ==> b.url == u.url.value)
    && (u.title.Some? ==> b.title == u.title.value)
    && (u.description.Some? ==> b.description == u.description.value)
    && (u.favicon.Some? ==> b.favicon == u.favicon.value)
    && (u.color.Some? ==> b.color == u.color.value)
    && (u.folderId.Some? ==> b.folderId == u.folderId.value)
    && (u.tags.Some? ==> b.tags == u.tags.value)
    && (u.visitCount.Some? ==> b.visitCount == u.visitCount.value)
    && (u.lastVisited.Some? ==> b.lastVisited == u.lastVisited.value)
    && (u.createdAt.Some? ==> b.createdAt == u.createdAt.value)
    && (u.updatedAt.Some? ==> b.updatedAt == u.updatedAt.value)
  }

  /** Every key absent from `u` keeps its value from `b`. */
  predicate BookmarkKeepsAbsent(b: Bookmark, u: BookmarkFields, r: Bookmark) {
    && (u.id.None? ==> r.id == b.id)
    && (u.url.None? ==> r.url == b.url)
    && (u.title.None? ==> r.title == b.title)
    && (u.description.None? ==> r.description == b.description)
    && (u.favicon.None? ==> r.favicon == b.favicon)
    && (u.color.None? ==> r.color == b.color)
    && (u.folderId.None? ==> r.folderId == b.folderId)
    && (u.tags.None? ==> r.tags == b.tags)
    && (u.visitCount.None? ==> r.visitCount == b.visitCount)
    && (u.lastVisited.None? ==> r.lastVisited == b.lastVisited)
    && (u.createdAt.None? ==> r.createdAt == b.createdAt)
    && (u.updatedAt.None? ==> r.updatedAt == b.updatedAt)
  }

  /** The spread of a bookmark update: present keys win, absent keys are kept. */
  lemma ApplyToBookmarkMerges(b: Bookmark, u: BookmarkFields)
    ensures BookmarkAgrees(ApplyToBookmark(b, u), u)
    ensures BookmarkKeepsAbsent(b, u, ApplyToBookmark(b, u))
  {
  }

  /** Every key present in `u` carries its value in `f`, and every absent key keeps `before`'s. */
  predicate FolderMerged(before: Folder, u: FolderFields, f: Folder) {
    && (if u.id.Some? then f.id == u.id.value else f.id == before.id)
    && (if u.name.Some? then f.name == u.name.value else f.name == before.name)
    && (if u.icon.Some? then f.icon == u.icon.value else f.icon == before.icon)
    && (if u.color.Some? then f.color == u.color.value else f.color == before.color)
    && (if u.createdAt.Some? then f.createdAt == u.createdAt.value else f.createdAt == before.createdAt)
    && (if u.order.Some? then f.order == u.order.value else f.order == before.order)
  }

  /** Every key present in `u` carries its value in `t`, and every absent key keeps `before`'s. */
  predicate TagMerged(before: Tag, u: TagFields, t: Tag) {
    && (if u.id.Some? then t.id == u.id.value else t.id == before.id)
    && (if u.name.Some? then t.name == u.name.value else t.name == before.name)
    && (if u.color.Some? then t.color == u.color.value else t.color == before.color)
    && (if u.createdAt.Some? then t.createdAt == u.createdAt.value else t.createdAt == before.createdAt)
  }

  /** `b => b.id === id` */
  function BookmarkHasId(id: string): Bookmark -> bool {
    (b: Bookmark) => b.id == id
  }

  /** `b => b.id !== id` */
  function BookmarkLacksId(id: string): Bookmark -> bool {
    (b: Bookmark) => b.id != id
  }

  /** `f => f.id === id` */
  function FolderHasId(id: string): Folder -> bool {
    (f: Folder) => f.id == id
  }

  /** `f => f.id !== id` */
  function FolderLacksId(id: string): Folder -> bool {
    (f: Folder) => f.id != id
  }

  /** `t => t.id === id` */
  function TagHasId(id: string): Tag -> bool {
    (t: Tag) => t.id == id
  }

  /** `t => t.id !== id` */
  function TagLacksId(id: string): Tag -> bool {
    (t: Tag) => t.id != id
  }
}
