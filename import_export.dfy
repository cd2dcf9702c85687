/**
 * The `export-data` and `import-data` handlers: the versioned JSON bundle,
 * the Netscape HTML file, and the id remapping of a JSON import.
 *
 * The file dialogs become a parameter (`chosen`, the path picked or `None`
 * when the dialog was cancelled); the parsed JSON file is the input datatype
 * `JsonBundle`; the HTML file is its sequence of scanner matches. Fresh ids
 * come from `uuid`, called in the order the handler calls `uuidv4()`, and
 * every timestamp of one call is `now`.
 */
module ImportExport {
  import opened Wrappers
  import opened Text
  import opened Seqs
  import opened Entities
  import opened Storage
  import opened NetscapeFormat

  datatype Format = Json | Html

  datatype MergeMode = Replace | Merge

  /** An array-valued key of the parsed JSON file: absent or falsy, some other value, or an array. */
  datatype ArrayField<T> = Falsy | NotArray | Items(items: seq<T>)

  /** `x || []` followed by `.map`: the items of an array, none for a falsy value. */
  function ItemsOf<T>(a: ArrayField<T>): seq<T> {
    if a.Items? then a.items else []
  }

  /** A folder object of the file; every key may be absent. */
  datatype JsonFolder = JsonFolder(
    id: Option<string>, name: Option<string>, icon: Option<string>,
    color: Option<string>, createdAt: Option<string>, order: Option<int>)

  datatype JsonTag = JsonTag(id: Option<string>, name: Option<string>, color: Option<string>, createdAt: Option<string>)

  datatype JsonBookmark = JsonBookmark(
    url: Option<string>, title: Option<string>, description: Option<string>,
    favicon: Option<string>, color: Option<string>, folderId: Option<string>,
    tags: Option<seq<string>>, createdAt: Option<string>)

  /** The parsed import file. */
  datatype JsonBundle = JsonBundle(
    bookmarks: ArrayField<JsonBookmark>, folders: ArrayField<JsonFolder>, tags: ArrayField<JsonTag>)

  /** The `imported` counts an import reports. */
  datatype ImportCounts = ImportCounts(bookmarks: nat, folders: nat, tags: nat)

  const MissingBookmarks: string := "Invalid JSON format: missing bookmarks array"

  /** The `TypeError` raised by `.map` on a `folders` or `tags` value that is not an array. */
  const MapOfNonArray: string := "TypeError: .map is not a function"

  // ---------------------------------------------------------------------------
  // Id maps

  /**
   * `folderIdMap` / `tagIdMap` after `set(ids[k], uuid(base + k))` for every k
   * in order; a later key overwrites an earlier one.
   */
  function IdMap(ids: seq<Option<string>>, uuid: nat -> string, base: nat): map<Option<string>, string>
    decreases |ids|
  {
    if ids == [] then map[]
    else IdMap(ids[..|ids| - 1], uuid, base)[ids[|ids| - 1] := uuid(base + |ids| - 1)]
  }

  /** The keys of an id map are exactly the ids set. */
  lemma {:induction false} IdMapKeys(ids: seq<Option<string>>, uuid: nat -> string, base: nat, key: Option<string>)
    ensures key in IdMap(ids, uuid, base) <==> key in ids
  {
    if ids != [] {
      IdMapKeys(ids[..|ids| - 1], uuid, base, key);
      assert ids == ids[..|ids| - 1] + [ids[|ids| - 1]];
    }
  }

  /** `ids[j]` is `key`, and no later id is. */
  predicate LastAt(ids: seq<Option<string>>, j: int, key: Option<string>) {
    0 <= j < |ids| && ids[j] == key && forall k :: j < k < |ids| ==> ids[k] != key
  }

  /** A key maps to the fresh id of its last occurrence. */
  lemma {:induction false} IdMapLast(ids: seq<Option<string>>, uuid: nat -> string, base: nat, j: nat)
    requires j < |ids| && LastAt(ids, j, ids[j])
    ensures ids[j] in IdMap(ids, uuid, base) && IdMap(ids, uuid, base)[ids[j]] == uuid(base + j)
  {
    if j < |ids| - 1 {
      IdMapLast(ids[..|ids| - 1], uuid, base, j);
    }
  }

  lemma IdMapSnoc(ids: seq<Option<string>>, key: Option<string>, uuid: nat -> string, base: nat)
    ensures IdMap(ids + [key], uuid, base) == IdMap(ids, uuid, base)[key := uuid(base + |ids|)]
  {
    assert (ids + [key])[..|ids|] == ids;
  }

  function FolderKeys(fs: seq<JsonFolder>): seq<Option<string>> {
    seq(|fs|, k requires 0 <= k < |fs| => fs[k].id)
  }

  function TagKeys(ts: seq<JsonTag>): seq<Option<string>> {
    seq(|ts|, k requires 0 <= k < |ts| => ts[k].id)
  }

  /** `folderIdMap.get(key) || ''` */
  function FolderRef(m: map<Option<string>, string>, key: Option<string>): string {
    if key in m then m[key] else ""
  }

  /** `tagIdMap.get(t) || t` */
  function TagRef(m: map<Option<string>, string>, t: string): string {
    if Some(t) in m && m[Some(t)] != "" then m[Some(t)] else t
  }

  // ---------------------------------------------------------------------------
  // The records a JSON import creates

  function ImportedFolder(f: JsonFolder, newId: string, now: string): Folder {
    Folder(newId, f.name.GetOr(""), if f.icon.Some? && f.icon.value != "" then f.icon else None,
      Or(f.color, DefaultColor), Or(f.createdAt, now), f.order.GetOr(0))
  }

  function ImportedTag(t: JsonTag, newId: string, now: string): Tag {
    Tag(newId, t.name.GetOr(""), Or(t.color, DefaultColor), Or(t.createdAt, now))
  }

  function ImportedBookmark(b: JsonBookmark, newId: string, folderIds: map<Option<string>, string>,
                            tagIds: map<Option<string>, string>, now: string): Bookmark
  {
    var tags := b.tags.GetOr([]);
    Bookmark(newId, Or(b.url, ""), Or(b.title, Or(b.url, "")), Or(b.description, ""), Or(b.favicon, ""),
      Or(b.color, DefaultColor), FolderRef(folderIds, b.folderId),
      seq(|tags|, k requires 0 <= k < |tags| => TagRef(tagIds, tags[k])),
      0, None, Or(b.createdAt, now), now)
  }

  function ImportedFolders(fs: seq<JsonFolder>, uuid: nat -> string, now: string): seq<Folder> {
    seq(|fs|, k requires 0 <= k < |fs| => ImportedFolder(fs[k], uuid(k), now))
  }

  function ImportedTags(ts: seq<JsonTag>, uuid: nat -> string, base: nat, now: string): seq<Tag> {
    seq(|ts|, k requires 0 <= k < |ts| => ImportedTag(ts[k], uuid(base + k), now))
  }

  function ImportedBookmarks(bs: seq<JsonBookmark>, uuid: nat -> string, base: nat,
                             folderIds: map<Option<string>, string>, tagIds: map<Option<string>, string>,
                             now: string): seq<Bookmark>
  {
    seq(|bs|, k requires 0 <= k < |bs| => ImportedBookmark(bs[k], uuid(base + k), folderIds, tagIds, now))
  }

  /** The new records of a JSON import, before they are joined with the existing ones. */
  datatype JsonImport = JsonImport(folders: seq<Folder>, tags: seq<Tag>, bookmarks: seq<Bookmark>)

  /**
   * The new records a JSON import creates, or the error it throws. The
   * `uuidv4()` calls run over the folders, then the tags, then the bookmarks.
   */
  function PlanJsonImport(data: JsonBundle, uuid: nat -> string, now: string): (r: Result<JsonImport>)
    ensures r.Err? <==> !data.bookmarks.Items? || data.folders.NotArray? || data.tags.NotArray?
    ensures r.Err? ==> r.message == if !data.bookmarks.Items? then MissingBookmarks else MapOfNonArray
    ensures r.Ok? ==>
      && |r.value.bookmarks| == |data.bookmarks.items|
      && |r.value.folders| == |ItemsOf(data.folders)|
      && |r.value.tags| == |ItemsOf(data.tags)|
  {
    if !data.bookmarks.Items? then Err(MissingBookmarks)
    else if data.folders.NotArray? || data.tags.NotArray? then Err(MapOfNonArray)
    else
      var fs, ts := ItemsOf(data.folders), ItemsOf(data.tags);
      var folderIds := IdMap(FolderKeys(fs), uuid, 0);
      var tagIds := IdMap(TagKeys(ts), uuid, |fs|);
      Ok(JsonImport(
        ImportedFolders(fs, uuid, now),
        ImportedTags(ts, uuid, |fs|, now),
        ImportedBookmarks(data.bookmarks.items, uuid, |fs| + |ts|, folderIds, tagIds, now)))
  }

  /** Merge mode keeps the existing records in front; replace mode keeps none. */
  function Joined<T>(mode: MergeMode, existing: seq<T>, added: seq<T>): (r: seq<T>)
    ensures mode == Replace ==> r == added
    ensures mode == Merge ==> |r| == |existing| + |added| && r[..|existing|] == existing && r[|existing|..] == added
  {
    if mode == Merge then existing + added else added
  }

  lemma ImportedFoldersSnoc(fs: seq<JsonFolder>, uuid: nat -> string, now: string, k: nat)
    requires k < |fs|
    ensures ImportedFolders(fs[..k + 1], uuid, now) == ImportedFolders(fs[..k], uuid, now) + [ImportedFolder(fs[k], uuid(k), now)]
    ensures FolderKeys(fs[..k + 1]) == FolderKeys(fs[..k]) + [fs[k].id]
  {
  }

  lemma ImportedTagsSnoc(ts: seq<JsonTag>, uuid: nat -> string, base: nat, now: string, k: nat)
    requires k < |ts|
    ensures ImportedTags(ts[..k + 1], uuid, base, now) == ImportedTags(ts[..k], uuid, base, now) + [ImportedTag(ts[k], uuid(base + k), now)]
    ensures TagKeys(ts[..k + 1]) == TagKeys(ts[..k]) + [ts[k].id]
  {
  }

  /** The `folders` `.map` of the JSON branch, with its `folderIdMap.set` calls (lines 245-256). */
  method MapFolders(fs: seq<JsonFolder>, uuid: nat -> string, now: string)
    returns (newFolders: seq<Folder>, folderIdMap: map<Option<string>, string>)
    ensures newFolders == ImportedFolders(fs, uuid, now)
    ensures folderIdMap == IdMap(FolderKeys(fs), uuid, 0)
  {
    newFolders := [];
    folderIdMap := map[];
    var k := 0;
    while k < |fs|
      invariant 0 <= k <= |fs|
      invariant newFolders == ImportedFolders(fs[..k], uuid, now)
      invariant folderIdMap == IdMap(FolderKeys(fs[..k]), uuid, 0)
    {
      var newId := uuid(k);
      folderIdMap := folderIdMap[fs[k].id := newId];
      newFolders := newFolders + [ImportedFolder(fs[k], newId, now)];
      ImportedFoldersSnoc(fs, uuid, now, k);
      IdMapSnoc(FolderKeys(fs[..k]), fs[k].id, uuid, 0);
      k := k + 1;
    }
    assert fs[..|fs|] == fs;
  }

  /** The `tags` `.map` of the JSON branch, with its `tagIdMap.set` calls (lines 258-267). */
  method MapTags(ts: seq<JsonTag>, uuid: nat -> string, base: nat, now: string)
    returns (newTags: seq<Tag>, tagIdMap: map<Option<string>, string>)
    ensures newTags == ImportedTags(ts, uuid, base, now)
    ensures tagIdMap == IdMap(TagKeys(ts), uuid, base)
  {
    newTags := [];
    tagIdMap := map[];
    var k := 0;
    while k < |ts|
      invariant 0 <= k <= |ts|
      invariant newTags == ImportedTags(ts[..k], uuid, base, now)
      invariant tagIdMap == IdMap(TagKeys(ts[..k]), uuid, base)
    {
      var newId := uuid(base + k);
      tagIdMap := tagIdMap[ts[k].id := newId];
      newTags := newTags + [ImportedTag(ts[k], newId, now)];
      ImportedTagsSnoc(ts, uuid, base, now, k);
      IdMapSnoc(TagKeys(ts[..k]), ts[k].id, uuid, base);
      k := k + 1;
    }
    assert ts[..|ts|] == ts;
  }

  /**
   * The JSON branch of `import-data` (lines 231-299). The three save results
   * are not looked at: the import reports its counts whatever they were.
   */
  method ImportJson(store: DataStore, data: JsonBundle, mode: MergeMode, uuid: nat -> string, now: string)
    returns (r: Result<ImportCounts>)
    modifies store`foldersFile, store`tagsFile, store`bookmarksFile
    ensures var plan := PlanJsonImport(data, uuid, now);
      if plan.Err? then
        && r == Err(plan.message)
        && store.foldersFile == old(store.foldersFile) && store.tagsFile == old(store.tagsFile)
        && store.bookmarksFile == old(store.bookmarksFile)
      else
        && r == Ok(ImportCounts(|plan.value.bookmarks|, |plan.value.folders|, |plan.value.tags|))
        && store.foldersFile == (if store.writable then Some(Joined(mode, old(store.Folders()), plan.value.folders)) else old(store.foldersFile))
        && store.tagsFile == (if store.writable then Some(Joined(mode, old(store.Tags()), plan.value.tags)) else old(store.tagsFile))
        && store.bookmarksFile == (if store.writable then Some(Joined(mode, old(store.Bookmarks()), plan.value.bookmarks)) else old(store.bookmarksFile))
  {
    if !data.bookmarks.Items? {
      return Err(MissingBookmarks);
    }
    var existingBookmarks := if mode == Merge then store.Bookmarks() else [];
    var existingFolders := if mode == Merge then store.Folders() else [];
    var existingTags := if mode == Merge then store.Tags() else [];
    if data.folders.NotArray? {
      return Err(MapOfNonArray);
    }
    var newFolders, folderIdMap := MapFolders(ItemsOf(data.folders), uuid, now);
    if data.tags.NotArray? {
      return Err(MapOfNonArray);
    }
    var newTags, tagIdMap := MapTags(ItemsOf(data.tags), uuid, |newFolders|, now);
    var newBookmarks := ImportedBookmarks(data.bookmarks.items, uuid, |newFolders| + |newTags|, folderIdMap, tagIdMap, now);
    var allFolders := existingFolders + newFolders;
    var allTags := existingTags + newTags;
    var allBookmarks := existingBookmarks + newBookmarks;
    PlanParts(data, uuid, now);
    ghost var plan := PlanJsonImport(data, uuid, now).value;
    assert allFolders == Joined(mode, old(store.Folders()), plan.folders);
    assert allTags == Joined(mode, old(store.Tags()), plan.tags);
    assert allBookmarks == Joined(mode, old(store.Bookmarks()), plan.bookmarks);
    var _ := store.SaveFolders(allFolders);
    var _ := store.SaveTags(allTags);
    var _ := store.SaveBookmarks(allBookmarks);
    r := Ok(ImportCounts(|newBookmarks|, |newFolders|, |newTags|));
  }

  // ---------------------------------------------------------------------------
  // Id remapping, stated on the plan

  /** Without an error, the plan is the three mapped collections. */
  lemma PlanParts(data: JsonBundle, uuid: nat -> string, now: string)
    requires PlanJsonImport(data, uuid, now).Ok?
    ensures var fs, ts, bs := ItemsOf(data.folders), ItemsOf(data.tags), data.bookmarks.items;
      PlanJsonImport(data, uuid, now).value == JsonImport(
        ImportedFolders(fs, uuid, now), ImportedTags(ts, uuid, |fs|, now),
        ImportedBookmarks(bs, uuid, |fs| + |ts|, IdMap(FolderKeys(fs), uuid, 0), IdMap(TagKeys(ts), uuid, |fs|), now))
  {
  }

  /**
   * Every imported bookmark gets the fresh id drawn after all folder and tag
   * ids, a visit count of 0, no last visit and `now` as update time.
   */
  lemma ImportResetsVisits(data: JsonBundle, uuid: nat -> string, now: string, k: nat)
    requires PlanJsonImport(data, uuid, now).Ok? && k < |data.bookmarks.items|
    ensures var b := PlanJsonImport(data, uuid, now).value.bookmarks[k];
      && b.id == uuid(|ItemsOf(data.folders)| + |ItemsOf(data.tags)| + k)
      && b.visitCount == 0 && b.lastVisited == None && b.updatedAt == now
  {
    PlanParts(data, uuid, now);
  }

  /** A key maps to the fresh id of its last occurrence, and a key never set is not in the map. */
  lemma IdMapLookup(ids: seq<Option<string>>, uuid: nat -> string, base: nat, key: Option<string>)
    ensures key !in ids ==> key !in IdMap(ids, uuid, base)
    ensures forall j :: LastAt(ids, j, key) ==>
      key in IdMap(ids, uuid, base) && IdMap(ids, uuid, base)[key] == uuid(base + j)
  {
    IdMapKeys(ids, uuid, base, key);
    forall j | LastAt(ids, j, key)
      ensures key in IdMap(ids, uuid, base) && IdMap(ids, uuid, base)[key] == uuid(base + j)
    {
      IdMapLast(ids, uuid, base, j);
    }
  }

  /**
   * A bookmark's folder reference becomes the new id of the last folder that
   * had the referenced id, and `''` when no folder had it.
   */
  lemma FolderReferenceRemapped(fs: seq<JsonFolder>, b: JsonBookmark, newId: string,
                                tagIds: map<Option<string>, string>, uuid: nat -> string, now: string)
    ensures var r := ImportedBookmark(b, newId, IdMap(FolderKeys(fs), uuid, 0), tagIds, now);
      && (b.folderId !in FolderKeys(fs) ==> r.folderId == "")
      && (forall j :: LastAt(FolderKeys(fs), j, b.folderId) ==> r.folderId == ImportedFolders(fs, uuid, now)[j].id)
  {
    IdMapLookup(FolderKeys(fs), uuid, 0, b.folderId);
  }

  /**
   * Each tag of an imported bookmark is the new id of the last tag with that
   * id, or the id itself when no tag had it (or its new id is empty).
   */
  lemma TagReferencesRemapped(ts: seq<JsonTag>, b: JsonBookmark, newId: string, folderIds: map<Option<string>, string>,
                              uuid: nat -> string, base: nat, now: string, i: nat)
    requires i < |b.tags.GetOr([])|
    ensures var t, r := b.tags.GetOr([])[i], ImportedBookmark(b, newId, folderIds, IdMap(TagKeys(ts), uuid, base), now);
      var imported := ImportedTags(ts, uuid, base, now);
      && |r.tags| == |b.tags.GetOr([])|
      && (Some(t) !in TagKeys(ts) ==> r.tags[i] == t)
      && (forall j :: LastAt(TagKeys(ts), j, Some(t)) && imported[j].id != "" ==> r.tags[i] == imported[j].id)
  {
    IdMapLookup(TagKeys(ts), uuid, base, Some(b.tags.GetOr([])[i]));
    ImportedTagIds(ts, uuid, base, now);
  }

  /** The k-th imported tag gets the k-th fresh id after `base`. */
  lemma ImportedTagIds(ts: seq<JsonTag>, uuid: nat -> string, base: nat, now: string)
    ensures |ImportedTags(ts, uuid, base, now)| == |ts|
    ensures forall j :: 0 <= j < |ts| ==> ImportedTags(ts, uuid, base, now)[j].id == uuid(base + j)
  {
  }

  // ---------------------------------------------------------------------------
  // The HTML branch

  /** The folders the HTML branch creates from the scanner's `Map`, with `order` the push position. */
  function HtmlFolders(fs: seq<(string, string)>, now: string): seq<Folder> {
    seq(|fs|, k requires 0 <= k < |fs| => Folder(fs[k].0, fs[k].1, None, DefaultColor, now, k))
  }

  function HtmlBookmark(b: ParsedBookmark, newId: string, now: string): Bookmark {
    Bookmark(newId, b.url, b.title, "", "", DefaultColor, b.folderId, [], 0, None, now, now)
  }

  function HtmlBookmarks(bs: seq<ParsedBookmark>, uuid: nat -> string, now: string): seq<Bookmark> {
    seq(|bs|, k requires 0 <= k < |bs| => HtmlBookmark(bs[k], uuid(k), now))
  }

  /** The `folders.forEach` that pushes one folder per heading (lines 307-316). */
  method CollectHtmlFolders(fs: seq<(string, string)>, now: string) returns (newFolders: seq<Folder>)
    ensures newFolders == HtmlFolders(fs, now)
  {
    newFolders := [];
    var k := 0;
    while k < |fs|
      invariant 0 <= k <= |fs|
      invariant newFolders == HtmlFolders(fs[..k], now)
    {
      var (id, name) := fs[k];
      newFolders := newFolders + [Folder(id, name, None, DefaultColor, now, |newFolders|)];
      assert HtmlFolders(fs[..k + 1], now) == HtmlFolders(fs[..k], now) + [Folder(id, name, None, DefaultColor, now, k)];
      k := k + 1;
    }
    assert fs[..|fs|] == fs;
  }

  /** The HTML branch of `import-data` (lines 300-339); the tags file is not touched. */
  method ImportHtml(store: DataStore, ts: seq<Token>, mode: MergeMode, uuid: nat -> string, now: string)
    returns (counts: ImportCounts)
    modifies store`foldersFile, store`bookmarksFile
    ensures var p := ParseNetscape(ts);
      && counts == ImportCounts(|p.bookmarks|, |p.folders|, 0)
      && store.foldersFile == (if store.writable then Some(Joined(mode, old(store.Folders()), HtmlFolders(p.folders, now))) else old(store.foldersFile))
      && store.bookmarksFile == (if store.writable then Some(Joined(mode, old(store.Bookmarks()), HtmlBookmarks(p.bookmarks, uuid, now))) else old(store.bookmarksFile))
  {
    var parsed := ParseNetscapeHtml(ts);
    var existingBookmarks := if mode == Merge then store.Bookmarks() else [];
    var existingFolders := if mode == Merge then store.Folders() else [];
    var newFolders := CollectHtmlFolders(parsed.folders, now);
    var newBookmarks := HtmlBookmarks(parsed.bookmarks, uuid, now);
    var allFolders := existingFolders + newFolders;
    var allBookmarks := existingBookmarks + newBookmarks;
    assert allFolders == Joined(mode, old(store.Folders()), HtmlFolders(parsed.folders, now));
    assert allBookmarks == Joined(mode, old(store.Bookmarks()), HtmlBookmarks(parsed.bookmarks, uuid, now));
    var _ := store.SaveFolders(allFolders);
    assert store.foldersFile == (if store.writable then Some(allFolders) else old(store.foldersFile));
    var _ := store.SaveBookmarks(allBookmarks);
    assert store.foldersFile == (if store.writable then Some(allFolders) else old(store.foldersFile));
    counts := ImportCounts(|newBookmarks|, |newFolders|, 0);
  }

  /** The picked file, as the handler reads it for the requested format. */
  datatype ImportFile = JsonContent(data: JsonBundle) | HtmlContent(tokens: seq<Token>)

  datatype ImportOutcome = ImportCanceled | Imported(counts: ImportCounts)

  /**
   * `import-data`: nothing happens when the open dialog was cancelled or gave
   * no path; otherwise the picked file is imported in its format.
   */
  method Import(store: DataStore, chosen: Option<string>, file: ImportFile, mode: MergeMode,
                uuid: nat -> string, now: string)
    returns (r: Result<ImportOutcome>)
    modifies store`foldersFile, store`tagsFile, store`bookmarksFile
    ensures chosen.None? || chosen.value == "" ==>
      && r == Ok(ImportCanceled)
      && store.foldersFile == old(store.foldersFile) && store.tagsFile == old(store.tagsFile)
      && store.bookmarksFile == old(store.bookmarksFile)
    ensures chosen.Some? && chosen.value != "" && file.JsonContent? ==>
      var plan := PlanJsonImport(file.data, uuid, now);
      if plan.Err? then
        && r == Err(plan.message)
        && store.foldersFile == old(store.foldersFile) && store.tagsFile == old(store.tagsFile)
        && store.bookmarksFile == old(store.bookmarksFile)
      else
        && r == Ok(Imported(ImportCounts(|plan.value.bookmarks|, |plan.value.folders|, |plan.value.tags|)))
        && store.foldersFile == (if store.writable then Some(Joined(mode, old(store.Folders()), plan.value.folders)) else old(store.foldersFile))
        && store.tagsFile == (if store.writable then Some(Joined(mode, old(store.Tags()), plan.value.tags)) else old(store.tagsFile))
        && store.bookmarksFile == (if store.writable then Some(Joined(mode, old(store.Bookmarks()), plan.value.bookmarks)) else old(store.bookmarksFile))
    ensures chosen.Some? && chosen.value != "" && file.HtmlContent? ==>
      var p := ParseNetscape(file.tokens);
      && r == Ok(Imported(ImportCounts(|p.bookmarks|, |p.folders|, 0)))
      && store.foldersFile == (if store.writable then Some(Joined(mode, old(store.Folders()), HtmlFolders(p.folders, now))) else old(store.foldersFile))
      && store.tagsFile == old(store.tagsFile)
      && store.bookmarksFile == (if store.writable then Some(Joined(mode, old(store.Bookmarks()), HtmlBookmarks(p.bookmarks, uuid, now))) else old(store.bookmarksFile))
  {
    if chosen.None? || chosen.value == "" {
      return Ok(ImportCanceled);
    }
    match file
    case JsonContent(data) =>
      var counts := ImportJson(store, data, mode, uuid, now);
      if counts.Err? {
        r := Err(counts.message);
      } else {
        r := Ok(Imported(counts.value));
      }
    case HtmlContent(tokens) =>
      var counts := ImportHtml(store, tokens, mode, uuid, now);
      r := Ok(Imported(counts));
  }

  /**
   * The folders of an HTML import follow the headings: the k-th has id
   * `imported_(k+1)`, the trimmed k-th heading text as name and order k.
   */
  lemma HtmlFoldersFollowHeadings(ts: seq<Token>, now: string)
    ensures var fs := HtmlFolders(ParseNetscape(ts).folders, now);
      && |fs| == |Headings(ts)|
      && forall k :: 0 <= k < |fs| ==>
           fs[k].id == ImportedId(k + 1) && fs[k].name == Trim(Headings(ts)[k]) && fs[k].order == k
  {
    ScanFolders(ts);
  }

  /** Every bookmark of an HTML import is uncategorized or filed in one of the imported folders. */
  lemma HtmlBookmarksFiled(ts: seq<Token>, uuid: nat -> string, now: string)
    ensures var p := ParseNetscape(ts);
      var fs, bs := HtmlFolders(p.folders, now), HtmlBookmarks(p.bookmarks, uuid, now);
      forall k :: 0 <= k < |bs| ==>
        bs[k].folderId == "" || exists j :: 0 <= j < |fs| && fs[j].id == bs[k].folderId
  {
    ParsedBookmarksWellFormed(ts);
    var p := ParseNetscape(ts);
    var fs := HtmlFolders(p.folders, now);
    var bs := HtmlBookmarks(p.bookmarks, uuid, now);
    forall k | 0 <= k < |bs| && bs[k].folderId != ""
      ensures exists j :: 0 <= j < |fs| && fs[j].id == bs[k].folderId
    {
      assert bs[k] == HtmlBookmark(p.bookmarks[k], uuid(k), now);
      assert p.bookmarks[k] in p.bookmarks;
      var j :| 0 <= j < |p.folders| && p.folders[j].0 == p.bookmarks[k].folderId;
      assert fs[j].id == p.folders[j].0;
    }
  }

  /** The scan of one folder heading followed by one bookmark. */
  lemma ParseOneFolderOneBookmark(heading: string, href: string, text: string)
    requires heading != "" && AnchorUrl(href) != ""
    ensures ParseNetscape([Heading(heading), Anchor(href, text)]) ==
      Parsed([(ImportedId(1), Trim(heading))], [ParsedBookmark(AnchorTitle(href, text), AnchorUrl(href), ImportedId(1))])
  {
    var ts := [Heading(heading), Anchor(href, text)];
    ScanOneHeading(heading);
    assert ts[..1] == [Heading(heading)];
    var s1 := Scan(ts[..1]);
    assert Scan(ts) == Step(s1, ts[1]);
  }

  lemma ScanOneHeading(heading: string)
    requires heading != ""
    ensures Scan([Heading(heading)]) == ScanState([(ImportedId(1), Trim(heading))], [], ImportedId(1), 1)
  {
    assert [Heading(heading)][..0] == [];
  }

  /**
   * A file with one folder heading followed by one bookmark imports as exactly
   * one folder and one bookmark filed in it.
   */
  lemma HtmlImportOneFolderOneBookmark(heading: string, href: string, text: string, uuid: nat -> string, now: string)
    requires heading != "" && AnchorUrl(href) != ""
    ensures var p := ParseNetscape([Heading(heading), Anchor(href, text)]);
      var fs, bs := HtmlFolders(p.folders, now), HtmlBookmarks(p.bookmarks, uuid, now);
      && |fs| == 1 && |bs| == 1
      && bs[0].folderId == fs[0].id
      && fs[0].name == Trim(heading) && bs[0].url == AnchorUrl(href) && bs[0].title == AnchorTitle(href, text)
  {
    ParseOneFolderOneBookmark(heading, href, text);
  }

  // ---------------------------------------------------------------------------
  // Export

  const ExportVersion: string := "1.0.0"

  /** The JSON export bundle. */
  datatype ExportData = ExportData(version: string, exportedAt: string,
    bookmarks: seq<Bookmark>, folders: seq<Folder>, tags: seq<Tag>)

  datatype ExportFile = JsonFile(data: ExportData) | HtmlFile(html: string)

  datatype ExportOutcome = Canceled | Exported(filePath: string, file: ExportFile)

  /**
   * `export-data`: the bundle or the HTML document of the stored collections,
   * unless the save dialog was cancelled or gave no path.
   */
  method Export(store: DataStore, format: Format, chosen: Option<string>, now: string, stamp: nat)
    returns (outcome: ExportOutcome)
    ensures chosen.None? || chosen.value == "" ==> outcome == Canceled
    ensures chosen.Some? && chosen.value != "" ==>
      outcome == Exported(chosen.value,
        if format == Json then JsonFile(ExportData(ExportVersion, now, store.Bookmarks(), store.Folders(), store.Tags()))
        else HtmlFile(NetscapeHtml(store.Bookmarks(), store.Folders(), stamp)))
  {
    var bookmarks := store.Bookmarks();
    var folders := store.Folders();
    var tags := store.Tags();
    if chosen.None? || chosen.value == "" {
      return Canceled;
    }
    if format == Json {
      outcome := Exported(chosen.value, JsonFile(ExportData(ExportVersion, now, bookmarks, folders, tags)));
    } else {
      var html := GenerateNetscapeHtml(bookmarks, folders, stamp);
      outcome := Exported(chosen.value, HtmlFile(html));
    }
  }

  // ---------------------------------------------------------------------------
  // Export followed by import

  /** A stored folder as it reads back from the exported file. */
  function AsJsonFolder(f: Folder): JsonFolder {
    JsonFolder(Some(f.id), Some(f.name), f.icon, Some(f.color), Some(f.createdAt), Some(f.order))
  }

  function AsJsonTag(t: Tag): JsonTag {
    JsonTag(Some(t.id), Some(t.name), Some(t.color), Some(t.createdAt))
  }

  function AsJsonBookmark(b: Bookmark): JsonBookmark {
    JsonBookmark(Some(b.url), Some(b.title), Some(b.description), Some(b.favicon), Some(b.color),
      Some(b.folderId), Some(b.tags), Some(b.createdAt))
  }

  /** The exported bundle as the import reads it back. */
  function ExportedFolders(fs: seq<Folder>): seq<JsonFolder> {
    seq(|fs|, k requires 0 <= k < |fs| => AsJsonFolder(fs[k]))
  }

  function ExportedTags(ts: seq<Tag>): seq<JsonTag> {
    seq(|ts|, k requires 0 <= k < |ts| => AsJsonTag(ts[k]))
  }

  function ExportedBookmarks(bs: seq<Bookmark>): seq<JsonBookmark> {
    seq(|bs|, k requires 0 <= k < |bs| => AsJsonBookmark(bs[k]))
  }

  function BundleOf(d: ExportData): JsonBundle {
    JsonBundle(Items(ExportedBookmarks(d.bookmarks)), Items(ExportedFolders(d.folders)), Items(ExportedTags(d.tags)))
  }

  /**
   * Importing an exported file always succeeds, with as many records of each
   * kind as were exported.
   */
  lemma ExportImportSucceeds(d: ExportData, uuid: nat -> string, now: string)
    ensures var plan := PlanJsonImport(BundleOf(d), uuid, now);
      && plan.Ok?
      && |plan.value.bookmarks| == |d.bookmarks| && |plan.value.folders| == |d.folders| && |plan.value.tags| == |d.tags|
  {
  }

  /**
   * An exported folder reads back with a new id and its name, order and icon
   * (an empty icon becomes `null`); its colour and creation time are kept
   * unless they were empty.
   */
  lemma FolderRoundTrip(f: Folder, newId: string, now: string)
    ensures var f' := ImportedFolder(AsJsonFolder(f), newId, now);
      && f'.id == newId && f'.name == f.name && f'.order == f.order
      && f'.icon == (if f.icon == Some("") then None else f.icon)
      && (f.color != "" ==> f'.color == f.color)
      && (f.createdAt != "" ==> f'.createdAt == f.createdAt)
  {
  }

  /** An exported tag reads back with a new id and its name, colour and creation time (unless empty). */
  lemma TagRoundTrip(t: Tag, newId: string, now: string)
    ensures var t' := ImportedTag(AsJsonTag(t), newId, now);
      && t'.id == newId && t'.name == t.name
      && (t.color != "" ==> t'.color == t.color)
      && (t.createdAt != "" ==> t'.createdAt == t.createdAt)
  {
  }

  /**
   * An exported bookmark reads back with its url, description and favicon; an
   * empty title becomes the url; the visit count and last visit are reset and
   * the update time is the import's.
   */
  lemma BookmarkRoundTrip(b: Bookmark, newId: string, folderIds: map<Option<string>, string>,
                          tagIds: map<Option<string>, string>, now: string)
    ensures var b' := ImportedBookmark(AsJsonBookmark(b), newId, folderIds, tagIds, now);
      && b'.id == newId && b'.url == b.url && b'.description == b.description && b'.favicon == b.favicon
      && b'.title == (if b.title != "" then b.title else b.url)
      && (b.color != "" ==> b'.color == b.color)
      && (b.createdAt != "" ==> b'.createdAt == b.createdAt)
      && |b'.tags| == |b.tags|
      && b'.visitCount == 0 && b'.lastVisited == None && b'.updatedAt == now
  {
  }

  /** The plan of an exported bundle, one bookmark at a time. */
  lemma ExportedPlan(d: ExportData, uuid: nat -> string, now: string, k: nat)
    requires k < |d.bookmarks|
    ensures PlanJsonImport(BundleOf(d), uuid, now).Ok?
    ensures var nf, nt := |d.folders|, |d.tags|;
      var plan := PlanJsonImport(BundleOf(d), uuid, now).value;
      && plan.folders == ImportedFolders(ExportedFolders(d.folders), uuid, now)
      && plan.tags == ImportedTags(ExportedTags(d.tags), uuid, nf, now)
      && |plan.bookmarks| == |d.bookmarks|
      && plan.bookmarks[k] == ImportedBookmark(AsJsonBookmark(d.bookmarks[k]), uuid(nf + nt + k),
           IdMap(FolderKeys(ExportedFolders(d.folders)), uuid, 0), IdMap(TagKeys(ExportedTags(d.tags)), uuid, nf), now)
  {
    PlanParts(BundleOf(d), uuid, now);
  }

  /** With distinct folder ids, each exported folder is the last with its id. */
  lemma DistinctFolderKeys(fs: seq<Folder>, j: nat)
    requires forall a, c :: 0 <= a < c < |fs| ==> fs[a].id != fs[c].id
    requires j < |fs|
    ensures LastAt(FolderKeys(ExportedFolders(fs)), j, Some(fs[j].id))
  {
  }

  lemma AbsentFolderKey(fs: seq<Folder>, id: string)
    requires forall j :: 0 <= j < |fs| ==> fs[j].id != id
    ensures Some(id) !in FolderKeys(ExportedFolders(fs))
  {
    var keys := FolderKeys(ExportedFolders(fs));
    assert forall j :: 0 <= j < |keys| ==> keys[j] == Some(fs[j].id);
  }

  /** With distinct tag ids, each exported tag is the last with its id. */
  lemma DistinctTagKeys(ts: seq<Tag>, j: nat)
    requires forall a, c :: 0 <= a < c < |ts| ==> ts[a].id != ts[c].id
    requires j < |ts|
    ensures LastAt(TagKeys(ExportedTags(ts)), j, Some(ts[j].id))
  {
  }

  lemma AbsentTagKey(ts: seq<Tag>, id: string)
    requires forall j :: 0 <= j < |ts| ==> ts[j].id != id
    ensures Some(id) !in TagKeys(ExportedTags(ts))
  {
    var keys := TagKeys(ExportedTags(ts));
    assert forall j :: 0 <= j < |keys| ==> keys[j] == Some(ts[j].id);
  }

  /**
   * When the exported folder ids are distinct, every bookmark of the import is
   * filed in the imported copy of the folder it was filed in, and bookmarks that
   * named no exported folder are uncategorized.
   */
  lemma RoundTripKeepsFolderStructure(d: ExportData, uuid: nat -> string, now: string, k: nat)
    requires forall i, j :: 0 <= i < j < |d.folders| ==> d.folders[i].id != d.folders[j].id
    requires k < |d.bookmarks|
    ensures var plan := PlanJsonImport(BundleOf(d), uuid, now);
      && plan.Ok?
      && (forall j :: 0 <= j < |d.folders| && d.folders[j].id == d.bookmarks[k].folderId ==>
            plan.value.bookmarks[k].folderId == plan.value.folders[j].id)
      && ((forall j :: 0 <= j < |d.folders| ==> d.folders[j].id != d.bookmarks[k].folderId) ==>
            plan.value.bookmarks[k].folderId == "")
  {
    var id := d.bookmarks[k].folderId;
    ExportedPlan(d, uuid, now, k);
    FolderReferenceRemapped(ExportedFolders(d.folders), AsJsonBookmark(d.bookmarks[k]), uuid(|d.folders| + |d.tags| + k),
      IdMap(TagKeys(ExportedTags(d.tags)), uuid, |d.folders|), uuid, now);
    if forall j :: 0 <= j < |d.folders| ==> d.folders[j].id != id {
      AbsentFolderKey(d.folders, id);
    }
    forall j | 0 <= j < |d.folders| && d.folders[j].id == id
      ensures LastAt(FolderKeys(ExportedFolders(d.folders)), j, Some(id))
    {
      DistinctFolderKeys(d.folders, j);
    }
  }

  /**
   * When the exported tag ids are distinct and no new id is empty, every tag
   * of an imported bookmark is the new id of the imported copy of that tag, and
   * a tag id that named no exported tag is kept as it was.
   */
  lemma RoundTripKeepsTags(d: ExportData, uuid: nat -> string, now: string, k: nat, i: nat)
    requires forall a, c :: 0 <= a < c < |d.tags| ==> d.tags[a].id != d.tags[c].id
    requires forall n :: uuid(n) != ""
    requires k < |d.bookmarks| && i < |d.bookmarks[k].tags|
    ensures var plan := PlanJsonImport(BundleOf(d), uuid, now);
      var t := d.bookmarks[k].tags[i];
      && plan.Ok?
      && (forall j :: 0 <= j < |d.tags| && d.tags[j].id == t ==> plan.value.bookmarks[k].tags[i] == plan.value.tags[j].id)
      && ((forall j :: 0 <= j < |d.tags| ==> d.tags[j].id != t) ==> plan.value.bookmarks[k].tags[i] == t)
  {
    var t := d.bookmarks[k].tags[i];
    var imported := ImportedTags(ExportedTags(d.tags), uuid, |d.folders|, now);
    ExportedPlan(d, uuid, now, k);
    TagReferencesRemapped(ExportedTags(d.tags), AsJsonBookmark(d.bookmarks[k]), uuid(|d.folders| + |d.tags| + k),
      IdMap(FolderKeys(ExportedFolders(d.folders)), uuid, 0), uuid, |d.folders|, now, i);
    if forall j :: 0 <= j < |d.tags| ==> d.tags[j].id != t {
      AbsentTagKey(d.tags, t);
    }
    ImportedTagIds(ExportedTags(d.tags), uuid, |d.folders|, now);
    forall j | 0 <= j < |d.tags| && d.tags[j].id == t
      ensures LastAt(TagKeys(ExportedTags(d.tags)), j, Some(t)) && imported[j].id != ""
    {
      DistinctTagKeys(d.tags, j);
    }
  }
}
