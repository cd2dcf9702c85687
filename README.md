# LinkCollections core, modelled in Dafny

LinkCollections is a desktop bookmark manager. Its main process keeps
bookmarks, folders, tags and settings in four JSON files. It answers the
renderer's requests for add, update, delete and clear. It also imports and
exports the collections as a JSON bundle or as a Netscape bookmark file
(the HTML format browsers exchange). The renderer keeps its own copies of
the lists in stores. These stores also hold the tag selection, the current
folder and the search query and history. Small validators check form input,
and a highlighter escapes the search term for a regular expression.

The project models that logic:

- The main-process handlers live in `BookmarkHandlers`, `FolderHandlers`,
  `TagHandlers` and `SettingsHandlers`.
  - Each one is a method over `Storage.DataStore`, a class whose fields are
    the four files.
  - Each method is tied to a pure function over the sequence it rewrites,
    and lemmas state the function's properties.
  - A missing or unreadable file reads as the default. A write succeeds
    exactly when the store is writable.
- The JSON and HTML import and export are in `ImportExport` and in
  `NetscapeFormat`, which covers the escaping, the scanner and the document
  generator. The loops the source runs stay loops: the scan, the bucket
  filling, the `html +=` accumulation and the id-map `set` calls.
- The renderer stores are classes: `TagStore.TagState`,
  `FolderStore.FolderState`, `BookmarkStore.BookmarkState` and
  `SearchStore.SearchState`. Each main-process call is a parameter: the
  call's reply `Ok(value)` or `Err(message)`, or the main process as a
  function of the payload the store sends.
- `Validation` and `Highlight` hold the pure helpers.
- `Entities`, `Seqs`, `Text` and `Wrappers` hold:
  - the records, with `Partial<T>` as a datatype of `Option` fields;
  - the array methods the source uses;
  - ASCII `trim` and `toLowerCase`, and decimal rendering;
  - `Option` and `Result`.

Fresh ids are an oracle `uuid: nat -> string`, numbered in the order of the
`uuidv4()` calls, or a single `freshId` parameter. Timestamps are a `now`
parameter, and the export time in seconds is `stamp`. The HTML input is the
sequence of matches of the scanner's regular expression. Each match is a
`Heading(text)` or an `Anchor(href, text)`.

Where the design and the code differ, the model follows the code:

- It is not true that a JSON export imported back reproduces every field
  value. The import renews ids and resets `visitCount` and `lastVisited`. It
  replaces an empty title with the url, an empty icon with `null`, an empty
  colour with `#3B82F6` and an empty creation time with the import time. The
  round-trip lemmas (`ImportExport.FolderRoundTrip`, `TagRoundTrip`,
  `BookmarkRoundTrip`, `RoundTripKeepsFolderStructure`, `RoundTripKeepsTags`)
  state what does survive: names, urls, orders, and the folder and tag
  structure when the exported ids are distinct.
- The root-folder filter of the HTML export is modelled as written
  (electron/ipc/import-export.ts line 92). Every folder matches itself in
  `folders.some(...)`, so only a folder with an empty id is rendered at the
  top level. Bookmarks filed in real folders are bucketed but never written
  (`NetscapeFormat.RootFoldersHaveEmptyId`, `ExportWithoutRootFolders`).
  The same-name sub-folder test is kept as written as well.
- The scanner's `folderStack` is written but never read, so it has no part in
  the scan state.

## Model

| member | source | states |
|---|---|---|
| Entities.Or | electron/ipc/bookmarks.ts:40-45 | `x \|\| d` on a string key: a present non-empty value wins, an absent or empty one gives the default |
| Entities.ApplyToBookmarkMerges | electron/ipc/bookmarks.ts:70-74 | the object spread of an update: every key present in the update carries its value, every absent key keeps the old one |
| Storage.DataStore.SaveBookmarks | electron/utils/storage.ts:33-44 | a write reports success exactly when the disk accepts writes, and then replaces the whole file; otherwise the file is unchanged |
| Storage.DataStore.SaveFolders | electron/utils/storage.ts:33-44 | as for bookmarks, for `folders.json` |
| Storage.DataStore.SaveTags | electron/utils/storage.ts:33-44 | as for bookmarks, for `tags.json` |
| Storage.DataStore.SaveSettings | electron/utils/storage.ts:33-44 | as for bookmarks, for `settings.json` |
| BookmarkHandlers.NewBookmark | electron/ipc/bookmarks.ts:38-52 | every key the caller sends wins (id included); each absent key gets its default: fresh id, `''`, title from the url, `#3B82F6`, no tags, 0 visits, no last visit, `now` |
| BookmarkHandlers.AddWithOnlyUrl | electron/ipc/bookmarks.ts:38-52 | a bookmark added with only a url gets title = url, colour `#3B82F6`, 0 visits, no last visit, no folder and no tags |
| BookmarkHandlers.ExplicitEmptyTitleWins | electron/ipc/bookmarks.ts:41-51 | a caller's explicit empty title is kept even when a url is given |
| BookmarkHandlers.UpdateIn | electron/ipc/bookmarks.ts:62-74 | fails with `Bookmark not found` exactly when no bookmark has the id; otherwise only the first match changes, taking the update's keys and `updatedAt = now` and keeping every absent key; the length is kept |
| BookmarkHandlers.IncrementIn | electron/ipc/bookmarks.ts:96-109 | fails exactly when the id is absent; otherwise the first match gains exactly one visit and `lastVisited = updatedAt = now`, and nothing else changes |
| BookmarkHandlers.DeleteFrom | electron/ipc/bookmarks.ts:82-88 | fails exactly when the id is absent; otherwise it is the filter that drops every bookmark with the id |
| BookmarkHandlers.DeleteKeepsOthers | electron/ipc/bookmarks.ts:84-90 | a successful delete keeps every other bookmark with its multiplicity and in its original order |
| BookmarkHandlers.AddBookmark | electron/ipc/bookmarks.ts:35-60 | appends exactly the new record and returns it when the write succeeds; otherwise `Failed to save bookmark` and the file is unchanged |
| BookmarkHandlers.UpdateBookmark | electron/ipc/bookmarks.ts:62-80 | not found, or the updated collection written and its updated record returned, or `Failed to update bookmark` with the file unchanged |
| BookmarkHandlers.DeleteBookmark | electron/ipc/bookmarks.ts:82-94 | not found, or the filtered collection written, or `Failed to delete bookmark` with the file unchanged |
| BookmarkHandlers.IncrementVisitCount | electron/ipc/bookmarks.ts:96-115 | not found, or the incremented collection written and the record returned, or `Failed to update visit count` |
| BookmarkHandlers.ClearAllBookmarks | electron/ipc/bookmarks.ts:117-122 | writes the empty collection and returns `true`, or fails with the file unchanged |
| FolderHandlers.MaxOrder | electron/ipc/folders.ts:46 | `Math.max` of the orders: bounds every order and is attained by some folder |
| FolderHandlers.NextOrder | electron/ipc/folders.ts:46-54 | 1 with no folders; otherwise greater than every order and exactly one past the largest |
| FolderHandlers.NewFolder | electron/ipc/folders.ts:48-55 | always the fresh id and `now`, with no spread of caller keys; the name is the caller's when non-empty and `New Folder` otherwise, missing or `''` alike; the colour is the caller's when non-empty and `#3B82F6` otherwise; the icon is kept exactly when the caller gives a non-empty one, and is `null` otherwise; order `NextOrder` |
| FolderHandlers.DeleteFolderFrom | electron/ipc/folders.ts:64-70 | fails with `Folder not found` exactly when the id is absent; otherwise every folder with the id is dropped |
| FolderHandlers.DeleteFolderKeepsOthers | electron/ipc/folders.ts:66-72 | a successful delete keeps the other folders with their multiplicity and order |
| FolderHandlers.DetachFolder | electron/ipc/folders.ts:76-77 | the cascade: bookmarks filed in the folder get folder id `''`; every other bookmark and the count and order are unchanged |
| FolderHandlers.DetachFolderLeavesNoReference | electron/ipc/folders.ts:77 | after the cascade no bookmark refers to the deleted (non-empty) id |
| FolderHandlers.UpdateFolderIn | electron/ipc/folders.ts:86-99 | fails exactly when the id is absent; otherwise the first match is merged with the updates and all other folders are unchanged |
| FolderHandlers.UncategorizeAll | electron/ipc/folders.ts:113-114 | every bookmark becomes uncategorized and nothing else changes; the count is kept |
| FolderHandlers.AddFolder | electron/ipc/folders.ts:43-62 | appends exactly the new folder when the write succeeds, otherwise `Failed to save folder` |
| FolderHandlers.DeleteFolder | electron/ipc/folders.ts:64-84 | not found, or the filtered folders and the detached bookmarks written, or `Failed to delete folder` with both files unchanged |
| FolderHandlers.UpdateFolder | electron/ipc/folders.ts:86-106 | not found, or the merged folder written and returned, or `Failed to update folder` |
| FolderHandlers.ClearAllFolders | electron/ipc/folders.ts:108-121 | no folders and every bookmark uncategorized, returning `true`; or `Failed to clear folders` with both files unchanged |
| TagHandlers.NewTag | electron/ipc/tags.ts:45-51 | every key the caller sends wins (id included); absent keys get the fresh id, `New Tag`, `#3B82F6` and `now` |
| TagHandlers.DeleteTagFrom | electron/ipc/tags.ts:60-66 | fails with `Tag not found` exactly when the id is absent; otherwise every tag with the id is dropped |
| TagHandlers.StripTag | electron/ipc/tags.ts:72-76 | the cascade filters the id out of each bookmark's tags and keeps the bookmark count |
| TagHandlers.StripTagRemovesOnlyId | electron/ipc/tags.ts:73-76 | afterwards the id occurs in no bookmark's tags; every other tag id keeps its multiplicity and relative order; no other field changes |
| TagHandlers.UpdateTagIn | electron/ipc/tags.ts:85-98 | fails exactly when the id is absent; otherwise the first match only is merged with the updates |
| TagHandlers.UntagAll | electron/ipc/tags.ts:112-113 | every bookmark's tags become `[]` and nothing else changes |
| TagHandlers.AddTag | electron/ipc/tags.ts:41-58 | appends exactly the new tag when the write succeeds, otherwise `Failed to save tag` |
| TagHandlers.DeleteTag | electron/ipc/tags.ts:60-83 | not found, or the filtered tags and the stripped bookmarks written, or `Failed to delete tag` with both files unchanged |
| TagHandlers.UpdateTag | electron/ipc/tags.ts:85-105 | not found, or the merged tag written and returned, or `Failed to update tag` |
| TagHandlers.ClearAllTags | electron/ipc/tags.ts:107-120 | no tags and no bookmark tags, returning `true`; or `Failed to clear tags` with both files unchanged |
| SettingsHandlers.MergeSettings | electron/ipc/settings.ts:45 | each key present in the updates takes the new value; each absent key keeps the stored one |
| SettingsHandlers.DefaultSettingsValues | electron/ipc/settings.ts:21-28 | the defaults: no default browser, no browsers, card view, sidebar open, light theme, icons fetched automatically |
| SettingsHandlers.UpdateWithCurrentIsIdentity | electron/ipc/settings.ts:43-48 | updating with the current settings returns the same record |
| SettingsHandlers.MergeIdempotent | electron/ipc/settings.ts:45 | a second identical update changes nothing further |
| SettingsHandlers.MergeComposes | electron/ipc/settings.ts:45 | two updates in a row equal one update with their keys combined, the later winning |
| SettingsHandlers.UpdateSettings | electron/ipc/settings.ts:43-51 | the record returned is exactly the record saved; a refused write gives `Failed to save settings` and leaves the file |
| NetscapeFormat.EscapeHtmlIsSinglePass | electron/ipc/import-export.ts:129-133 | since `&` is replaced first, the five global replacements equal escaping each character once: no entity is escaped again |
| NetscapeFormat.EscapeHtmlLength | electron/ipc/import-export.ts:127-134 | the output is longer by 4 per `&`, 3 per `<` and `>`, 5 per `"` and 4 per `'` |
| NetscapeFormat.EscapeHtmlHasNoMarkup | electron/ipc/import-export.ts:127-134 | the output holds no raw `<`, `>`, `"` or `'` |
| NetscapeFormat.EscapeHtmlIdentity | electron/ipc/import-export.ts:127-134 | a string without `& < > " '` is returned unchanged |
| NetscapeFormat.EscapeHtmlIsInvertible | electron/ipc/import-export.ts:127-134 | decoding the five entities gives the input back |
| NetscapeFormat.ImportedIdsDiffer | electron/ipc/import-export.ts:152 | `imported_${a}` and `imported_${b}` differ for distinct numbers |
| NetscapeFormat.ParseNetscapeHtml | electron/ipc/import-export.ts:136-166 | the scan loop computes the reference parse of the matches |
| NetscapeFormat.ScanFolders | electron/ipc/import-export.ts:150-155 | the k-th non-empty heading opens folder `imported_k`, named by its trimmed text; the counter is the heading count and the current folder is the latest heading's |
| NetscapeFormat.ScanBookmarks | electron/ipc/import-export.ts:145-161 | the bookmarks are the anchors with a non-blank trimmed href, in order; each has the trimmed text or else the url as title and the latest preceding heading's id, or `''`, as folder |
| NetscapeFormat.LatestHeadingIsMostRecent | electron/ipc/import-export.ts:150-155 | after a heading followed by matches that open no folder, the current folder is the one that heading opened |
| NetscapeFormat.ParsedBookmarksWellFormed | electron/ipc/import-export.ts:156-161 | every parsed bookmark has a non-empty url and title, and is uncategorized or filed in a parsed folder |
| NetscapeFormat.ParsedFolderIds | electron/ipc/import-export.ts:152-153 | the k-th parsed folder (from 0) has id `imported_(k+1)` |
| NetscapeFormat.ParsedFolderIdsDistinct | electron/ipc/import-export.ts:152-153 | the parsed folder ids are pairwise distinct, so the `Map` keeps one entry per heading |
| NetscapeFormat.FolderCountIsHeadingCount | electron/ipc/import-export.ts:143-155 | when every heading match has text, as the expression requires, the folder count is the heading count |
| NetscapeFormat.BucketKeyOf | electron/ipc/import-export.ts:84-89 | a bookmark goes to its own folder's bucket exactly when its folder id is a key, and to `''` otherwise |
| NetscapeFormat.BucketMapLookup | electron/ipc/import-export.ts:79-90 | after the fill, `get(key) \|\| []` is exactly the bookmarks pushed to `key`, in order |
| NetscapeFormat.BucketOfNonKeyIsEmpty | electron/ipc/import-export.ts:83-90 | no bookmark lands in a bucket that is neither `''` nor a folder id |
| NetscapeFormat.EmptyBuckets | electron/ipc/import-export.ts:79-81 | one empty bucket for `''` and for each folder id, and no other key |
| NetscapeFormat.FillBuckets | electron/ipc/import-export.ts:79-90 | the `forEach` of pushes yields the bucket map |
| NetscapeFormat.AppendAnchors | electron/ipc/import-export.ts:111-113 | the `forEach` appends one escaped anchor line per bookmark, in order |
| NetscapeFormat.AppendSubFolders | electron/ipc/import-export.ts:100-108 | the `forEach` appends each sub-folder's heading, list, anchors and close |
| NetscapeFormat.GenerateNetscapeHtml | electron/ipc/import-export.ts:66-125 | the accumulated text is the document: header, root-folder sections, uncategorized anchors, footer |
| NetscapeFormat.RootFoldersHaveEmptyId | electron/ipc/import-export.ts:92 | the root filter as written keeps exactly the folders with an empty id |
| NetscapeFormat.NetscapeHtmlFraming | electron/ipc/import-export.ts:70-122 | the output always starts with the fixed header and ends with `</DL><p>\n` |
| NetscapeFormat.EmitAnchorsContains | electron/ipc/import-export.ts:117-120 | every listed bookmark's anchor line occurs in the text its list renders |
| NetscapeFormat.UnfiledBookmarkIsUncategorized | electron/ipc/import-export.ts:79-122 | a bookmark whose folder id names no folder is in the `''` bucket, and its line is in the uncategorized section, which follows every folder section and precedes the footer |
| NetscapeFormat.ExportWithoutRootFolders | electron/ipc/import-export.ts:92-122 | with no empty folder id, the document is the header, the anchors of the bookmarks filed in no folder, and the footer |
| ImportExport.IdMapKeys | electron/ipc/import-export.ts:242-247 | an id map's keys are exactly the ids set, an absent id included |
| ImportExport.IdMapLast | electron/ipc/import-export.ts:245-247 | a key maps to the fresh id drawn for its last occurrence |
| ImportExport.IdMapLookup | electron/ipc/import-export.ts:242-260 | a key never set is not in the map; a key maps to its last occurrence's fresh id |
| ImportExport.PlanJsonImport | electron/ipc/import-export.ts:231-282 | fails with `missing bookmarks array` when `bookmarks` is falsy or not an array, and with the `.map` TypeError for a non-array `folders` or `tags`; otherwise as many new records as input items |
| ImportExport.Joined | electron/ipc/import-export.ts:238-286 | replace mode yields exactly the new items; merge mode yields the existing items followed by the new ones |
| ImportExport.MapFolders | electron/ipc/import-export.ts:245-256 | the `.map` with its `folderIdMap.set` calls yields the imported folders and the id map of the folder ids |
| ImportExport.MapTags | electron/ipc/import-export.ts:258-267 | likewise for tags, with the fresh ids drawn after the folders' |
| ImportExport.ImportJson | electron/ipc/import-export.ts:231-299 | the error leaves every file; otherwise the three joined collections are written and the counts are the input array lengths |
| ImportExport.ImportResetsVisits | electron/ipc/import-export.ts:269-281 | each imported bookmark has the fresh id drawn after all folder and tag ids, 0 visits, no last visit, `updatedAt = now` |
| ImportExport.FolderReferenceRemapped | electron/ipc/import-export.ts:276 | a folder reference becomes the new id of the last folder with that id, or `''` when none had it |
| ImportExport.TagReferencesRemapped | electron/ipc/import-export.ts:277 | each tag becomes the new id of the last tag with that id, or is kept verbatim when unmapped; the tag count is kept |
| ImportExport.ImportedTagIds | electron/ipc/import-export.ts:258-260 | the k-th imported tag gets the k-th fresh id after the base |
| ImportExport.CollectHtmlFolders | electron/ipc/import-export.ts:306-316 | the `forEach` pushes one folder per map entry with `order` = its push position |
| ImportExport.ImportHtml | electron/ipc/import-export.ts:300-346 | the parsed folders and bookmarks are joined by the merge mode and written; the tags file is untouched; the tag count is 0 |
| ImportExport.Import | electron/ipc/import-export.ts:213-352 | a cancelled dialog or missing path changes nothing; otherwise the file is imported in its format |
| ImportExport.HtmlFoldersFollowHeadings | electron/ipc/import-export.ts:307-315 | the k-th HTML folder has id `imported_(k+1)`, the trimmed k-th heading as name and order k |
| ImportExport.HtmlBookmarksFiled | electron/ipc/import-export.ts:318-326 | every HTML-imported bookmark is uncategorized or filed in an imported folder |
| ImportExport.ParseOneFolderOneBookmark | electron/ipc/import-export.ts:149-161 | one heading then one anchor parse as one folder `imported_1` and one bookmark filed in it |
| ImportExport.HtmlImportOneFolderOneBookmark | electron/ipc/import-export.ts:300-331 | such a file imports as exactly one folder and one bookmark whose folder id is that folder's id |
| ImportExport.Export | electron/ipc/import-export.ts:169-211 | a cancelled dialog or empty path exports nothing; otherwise the bundle, version `1.0.0`, or the Netscape document of the stored collections |
| ImportExport.ExportImportSucceeds | electron/ipc/import-export.ts:192-299 | importing an exported bundle always succeeds, with as many records of each kind as were exported |
| ImportExport.FolderRoundTrip | electron/ipc/import-export.ts:245-256 | an exported folder reads back with a new id and its name, order and icon (empty becomes `null`); colour and creation time are kept unless empty |
| ImportExport.TagRoundTrip | electron/ipc/import-export.ts:258-267 | an exported tag reads back with a new id and its name; colour and creation time are kept unless empty |
| ImportExport.BookmarkRoundTrip | electron/ipc/import-export.ts:269-282 | an exported bookmark keeps url, description, favicon and tag count; an empty title becomes the url; visits are reset and `updatedAt = now` |
| ImportExport.DistinctFolderKeys | electron/ipc/import-export.ts:245-247 | with distinct folder ids, each exported folder is the last with its id |
| ImportExport.AbsentFolderKey | electron/ipc/import-export.ts:245-247 | an id no exported folder has is never set |
| ImportExport.DistinctTagKeys | electron/ipc/import-export.ts:258-260 | with distinct tag ids, each exported tag is the last with its id |
| ImportExport.AbsentTagKey | electron/ipc/import-export.ts:258-260 | an id no exported tag has is never set |
| ImportExport.RoundTripKeepsFolderStructure | electron/ipc/import-export.ts:242-276 | with distinct folder ids, each imported bookmark is filed in the imported copy of its folder, or uncategorized when it named none |
| ImportExport.RoundTripKeepsTags | electron/ipc/import-export.ts:242-277 | with distinct tag ids and non-empty fresh ids, each tag of an imported bookmark is the new id of the imported copy, or kept when unknown |
| SearchStore.BlankQueryFindsNothing | src/renderer/stores/search.ts:15-17 | a whitespace-only query yields no results |
| SearchStore.SearchResultsAreSubsequence | src/renderer/stores/search.ts:14-30 | the results are an order-preserving subsequence of the bookmarks |
| SearchStore.SearchResultMembership | src/renderer/stores/search.ts:19-28 | a bookmark is found exactly when it is listed and its lower-cased title, url or description, or the name of one of its listed tags, contains the lower-cased query |
| SearchStore.BlankQueryKeepsHistory | src/renderer/stores/search.ts:47-48 | adding a blank query leaves the history unchanged |
| SearchStore.MoveToFrontShape | src/renderer/stores/search.ts:50-59 | the moved entry comes first, at most ten entries remain, and the rest is the old history without its first copy, in order |
| SearchStore.AddedQueryComesFirst | src/renderer/stores/search.ts:46-60 | after a non-blank query its trimmed form is at index 0 of at most ten entries |
| SearchStore.RemoveFirstKeepsDistinct | src/renderer/stores/search.ts:50-53 | removing the one copy from a duplicate-free list leaves it duplicate-free and without the entry |
| SearchStore.MoveToFrontOnce | src/renderer/stores/search.ts:50-59 | in a duplicate-free history the moved entry occurs exactly once and no entry repeats |
| SearchStore.MoveToFrontKeepsDistinct | src/renderer/stores/search.ts:50-59 | a duplicate-free history stays duplicate-free and within ten entries |
| SearchStore.AddedQueryOccursOnce | src/renderer/stores/search.ts:46-60 | the added trimmed query occurs exactly once |
| SearchStore.RemoveFromHistoryRemovesFirst | src/renderer/stores/search.ts:66-71 | removes only the first occurrence, is a no-op when absent, and removes the entry from a duplicate-free history |
| SearchStore.SearchState.constructor | src/renderer/stores/search.ts:7-9 | empty query, not searching, empty history |
| SearchStore.SearchState.AddToHistory | src/renderer/stores/search.ts:46-60 | the `indexOf`/`splice`/`unshift`/`slice` sequence yields the moved-to-front history and keeps it duplicate-free and within ten |
| SearchStore.SearchState.PerformSearch | src/renderer/stores/search.ts:32-39 | sets the query, sets `isSearching` exactly when the trimmed query is non-empty, and records it in the history |
| SearchStore.SearchState.ClearSearch | src/renderer/stores/search.ts:41-44 | query `''` and not searching; the history is untouched |
| SearchStore.SearchState.ClearHistory | src/renderer/stores/search.ts:62-64 | the history is empty |
| SearchStore.SearchState.RemoveFromHistory | src/renderer/stores/search.ts:66-71 | the first matching entry is spliced out; the history stays duplicate-free |
| TagStore.TagPayload | src/renderer/stores/tag.ts:25-28 | the payload always carries a name (`''` when missing) and a colour (`#3B82F6` when missing), and nothing else |
| TagStore.StoreAddTagNames | src/renderer/stores/tag.ts:25-29 | a tag added through the store without a name is stored with the empty name, never `New Tag` |
| TagStore.ToggleAppendsOrRemovesFirst | src/renderer/stores/tag.ts:53-60 | an absent id is appended at the end; a present one loses its first occurrence only |
| TagStore.ToggleTwiceRestores | src/renderer/stores/tag.ts:54-59 | toggling an absent id twice restores the selection |
| TagStore.ToggleFlipsOnlyId | src/renderer/stores/tag.ts:54-59 | with a duplicate-free selection, toggling flips the id's membership, keeps every other id's and stays duplicate-free |
| TagStore.SelectedMembership | src/renderer/stores/tag.ts:81-83 | `selectedTags` is the order-preserving subsequence of listed tags whose ids are selected |
| TagStore.DeleteRemovesEverywhere | src/renderer/stores/tag.ts:43-44 | the local delete removes the id from both lists and keeps everything else |
| TagStore.TagState.constructor | src/renderer/stores/tag.ts:7-8 | no tags and no selection |
| TagStore.TagState.FetchTags | src/renderer/stores/tag.ts:11-21 | the list becomes the reply; a rejection is swallowed and the list kept |
| TagStore.TagState.AddTag | src/renderer/stores/tag.ts:23-38 | sends the payload and appends the returned tag; a rejection is passed on with the list unchanged |
| TagStore.TagState.DeleteTag | src/renderer/stores/tag.ts:40-51 | after the main process succeeds, the id is filtered out of the tags and the selection |
| TagStore.TagState.ToggleTag | src/renderer/stores/tag.ts:53-60 | `indexOf` then `splice` or `push` is `Toggled` |
| TagStore.TagState.ClearTags | src/renderer/stores/tag.ts:62-64 | empties the selection only |
| TagStore.TagState.UpdateTag | src/renderer/stores/tag.ts:66-79 | the reply replaces the first tag with the id, and nothing when there is none; a rejection is passed on |
| TagStore.TagState.ClearAllTags | src/renderer/stores/tag.ts:85-95 | empties both lists once the main process succeeds |
| FolderStore.IconOrNull | src/renderer/stores/folder.ts:30 | `folder.icon \|\| null`: a non-empty icon, or `null` |
| FolderStore.FolderPayload | src/renderer/stores/folder.ts:28-32 | the payload carries a name (`''` when missing), an icon or `null`, and a colour (`#3B82F6` when missing) |
| FolderStore.StoreAddFolderDefaults | src/renderer/stores/folder.ts:28-33 | a folder added through the store without a name still gets `New Folder`, because the empty name is falsy in `add-folder` |
| FolderStore.FolderWithId | src/renderer/stores/folder.ts:78-80 | `currentFolder`: the first folder with the selected id, or `null` exactly when none has it |
| FolderStore.FetchSelectsFirstFolder | src/renderer/stores/folder.ts:15-17 | with nothing selected and a non-empty list the first folder is selected and current; a selection made is kept |
| FolderStore.DeleteReselects | src/renderer/stores/folder.ts:47-50 | deleting the current folder selects the first remaining one, or `''`; deleting another keeps the selection; the deleted id is never selected |
| FolderStore.FolderState.constructor | src/renderer/stores/folder.ts:7-8 | no folders and no selection |
| FolderStore.FolderState.FetchFolders | src/renderer/stores/folder.ts:11-24 | the list becomes the reply and the selection follows `fetchFolders`; a rejection changes nothing |
| FolderStore.FolderState.AddFolder | src/renderer/stores/folder.ts:26-42 | sends the payload and appends the returned folder |
| FolderStore.FolderState.DeleteFolder | src/renderer/stores/folder.ts:44-57 | filters the id out and moves the selection off it once the main process succeeds |
| FolderStore.FolderState.SetCurrentFolder | src/renderer/stores/folder.ts:59-61 | the selection becomes the id |
| FolderStore.FolderState.UpdateFolder | src/renderer/stores/folder.ts:63-76 | the reply replaces the first folder with the id, if any |
| FolderStore.FolderState.ClearAllFolders | src/renderer/stores/folder.ts:82-92 | no folders and an empty selection once the main process succeeds |
| BookmarkStore.AddPayload | src/renderer/stores/bookmark.ts:24-32 | every text key with `''` as fallback, colour `#3B82F6`, folder `''`, and the tags or `[]`; no id, visits or timestamps |
| BookmarkStore.StoreAddKeepsEmptyTitle | src/renderer/stores/bookmark.ts:24-33 | a bookmark added through the store without a title is stored with the empty title, not the url |
| BookmarkStore.UpdatePayload | src/renderer/stores/bookmark.ts:46-65 | exactly the defined ones of title, description, folder, tags, colour and favicon; url and every other key are never forwarded |
| BookmarkStore.StoreUpdateKeepsIdentity | src/renderer/stores/bookmark.ts:46-67 | an update through the store never changes id, url, visits, last visit or creation time |
| BookmarkStore.BlankKeywordFindsAll | src/renderer/stores/bookmark.ts:125-127 | a blank keyword returns every bookmark |
| BookmarkStore.KeywordResultMembership | src/renderer/stores/bookmark.ts:129-135 | otherwise the order-preserving subsequence whose lower-cased title, url or description contains the lower-cased keyword |
| BookmarkStore.KeywordResultsWithinSearchResults | src/renderer/stores/bookmark.ts:124-135 | tags are not searched: every keyword result is a search-store result, and the two agree when no tag is listed |
| BookmarkStore.BookmarkState.constructor | src/renderer/stores/bookmark.ts:7 | no bookmarks |
| BookmarkStore.BookmarkState.FetchBookmarks | src/renderer/stores/bookmark.ts:10-20 | the list becomes the reply; a rejection is swallowed |
| BookmarkStore.BookmarkState.AddBookmark | src/renderer/stores/bookmark.ts:22-42 | sends `AddPayload` and appends the returned bookmark |
| BookmarkStore.BookmarkState.UpdateBookmark | src/renderer/stores/bookmark.ts:44-83 | the field-by-field payload equals `UpdatePayload`; the reply replaces the first match only |
| BookmarkStore.BookmarkState.DeleteBookmark | src/renderer/stores/bookmark.ts:85-95 | removes every bookmark with the id once the main process succeeds |
| BookmarkStore.BookmarkState.IncrementVisitCount | src/renderer/stores/bookmark.ts:97-108 | when the bridge offers the call and it succeeds, the reply replaces the first match; otherwise nothing changes and no error escapes |
| BookmarkStore.BookmarkState.ClearAllBookmarks | src/renderer/stores/bookmark.ts:110-122 | empties the list once the main process succeeds; does nothing when the bridge lacks the call |
| Validation.HexRunIff | src/renderer/utils/validation.ts:13 | `[A-Fa-f0-9]{n}` matches exactly the strings of n hex digits |
| Validation.ValidColorIff | src/renderer/utils/validation.ts:11-15 | `isValidColor` holds exactly for `#` followed by 3 or 6 hex digits of either case |
| Validation.ValidateRequired | src/renderer/utils/validation.ts:17-21 | fails with `<field> is required` exactly for `null`, `undefined` and `''` |
| Validation.RequiredAcceptsOtherFalsyValues | src/renderer/utils/validation.ts:18 | other falsy values and a blank string pass |
| Validation.BookmarkErrorsReportFailedChecks | src/renderer/utils/validation.ts:26-42 | each bookmark message is present exactly when its check fails; the colour is checked only when present; never both URL messages |
| Validation.BookmarkErrorsInOrder | src/renderer/utils/validation.ts:24-42 | the messages come in the order URL, Title, Folder, Color, each at most once |
| Validation.ValidateBookmarkData | src/renderer/utils/validation.ts:23-48 | the pushes build exactly that list, and `valid` holds exactly when it is empty |
| Validation.ValidateFolderData | src/renderer/utils/validation.ts:50-61 | one error exactly when the name is missing or blank; `valid` exactly when none |
| Validation.ValidateTagData | src/renderer/utils/validation.ts:63-78 | the name error exactly for a missing or blank name; the colour error for a missing or invalid colour (mandatory here); at most two, in that order |
| Highlight.EscapeLength | src/renderer/utils/highlight.ts:10-12 | the escaped string is longer by the number of metacharacters |
| Highlight.EscapeIdentity | src/renderer/utils/highlight.ts:10-12 | a string without metacharacters is its own escape |
| Highlight.EscapeConcat | src/renderer/utils/highlight.ts:10-12 | escaping works character by character over a concatenation |
| Highlight.EscapeChar | src/renderer/utils/highlight.ts:10-12 | exactly the metacharacters gain a backslash |
| Highlight.UnescapeEscape | src/renderer/utils/highlight.ts:10-12 | reading the escaped pattern back gives the query, so every character is matched literally |
| Highlight.HighlightText | src/renderer/utils/highlight.ts:1-8 | the text unchanged when the query is blank or the text empty; otherwise the marking of the escaped, grouped query |
| Seqs.IndexOf | src/renderer/stores/search.ts:50 | `indexOf`: -1 exactly when the value is absent, otherwise the index of its first occurrence |
| Seqs.RemoveFirst | src/renderer/stores/search.ts:66-70 | `indexOf` then `splice(i, 1)`: unchanged when absent, otherwise the list without its first occurrence, one copy fewer of it |
| Seqs.ReplaceFirstWhere | src/renderer/stores/bookmark.ts:68-71 | `findIndex` then assignment: the first element satisfying the test is replaced, every other is kept, and nothing changes when none satisfies it |
| Text.Trim | src/renderer/stores/search.ts:47 | the result is empty exactly when the input is blank, and otherwise starts and ends with non-whitespace |
| Text.TrimIsInnerSlice | src/renderer/stores/search.ts:47 | the trimmed string is the slice of the input between a blank prefix and a blank suffix, so `trim` removes whitespace and nothing else |
| Text.TrimIdempotent | src/renderer/stores/search.ts:47 | trimming twice is trimming once |
| Text.Lower | src/renderer/stores/search.ts:19 | the same length, each ASCII capital lowered and every other character kept |
| Text.NatToStringInjective | electron/ipc/import-export.ts:152 | distinct numbers render as distinct decimal strings |

## Left out

- File I/O and `JSON.parse`/`JSON.stringify` are modelled abstractly. A file is present with well-typed records or missing; a value of the wrong type inside a file is not modelled.
- Storage.DataStore.SaveBookmarks: a write succeeds or fails for the whole store (the constant `writable`). The second-write failures of `delete-folder`, `delete-tag`, `clearAllFolders` and `clearAllTags` (`Failed to update bookmarks`) therefore cannot arise in the model.
- The save and open dialogs, the default export path, `fs.writeFileSync` errors and `app.getPath` are left out. The dialog's answer is the parameter `chosen`.
- `uuidv4()` and `new Date()` are parameters: the oracle `uuid`, `freshId`, `now` and `stamp`.
- The regular-expression engines are left out. The scanner's input is the sequence of its matches. `isValidUrl` depends on the `URL` constructor and is the parameter `parses`. The marking in `highlightText` is the parameter `markAll`.
- `open-browser`, the `get-*` handlers (each only reads a file), `electron/main.ts`, `electron/preload.ts`, `src/renderer/stores/ui.ts`, `i18n` and `favicon.ts` are not part of this model.
- Async execution, the `ElMessage` toasts, `console.error`, the `loading` flags and the `showMessage` argument of the store's `updateBookmark` are left out.
- Text.Lower: ASCII letters only. Text.Trim removes ASCII whitespace only; Unicode case mapping and Unicode white space are not modelled.
- BookmarkHandlers.IncrementIn: `visitCount` is an unbounded integer. JavaScript numbers lose precision above 2^53.
- BookmarkStore.AddPayload: `tags` is typed as a list or absent, so the `Array.isArray` fallback for a non-array value is not modelled. The same holds for the tag copy in the store's `updateBookmark`.
- ImportExport.PlanJsonImport: a JSON key that is present but `null` is read as absent. A missing `name` of an imported folder or tag becomes `''`, whereas the source copies `undefined`, which the save then drops, and non-string field values are not modelled. The error message for a non-array `folders` or `tags` stands for the engine's `TypeError`, whose text is not specified.
- Validation.ValidateBookmarkData: its input is a bookmark record, so a non-string `title` (where `.trim()` would throw) is not modelled.
- The insertion order of the scanner's `Map` is the folder sequence. The parsed ids are proved distinct, so no `set` overwrites an earlier one.
- BookmarkHandlers.IncrementIn: each handler call takes all its timestamps as one instant `now`, so `lastVisited` and `updatedAt` are equal. The source calls `new Date()` separately for each of them (electron/ipc/bookmarks.ts lines 107-108), and for each imported record's `createdAt` and `updatedAt` (electron/ipc/import-export.ts lines 252, 263 and 280-281), so those may differ by a few milliseconds.
