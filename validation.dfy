/**
 * The renderer's form validators: the hex-colour test, the required-value
 * check and the three error-list builders for bookmarks, folders and tags.
 *
 * The forms' values are partial records: `None` is a key that is absent (or
 * `undefined`), and `!x` on a string key is `Falsy(x)`. Whether a URL parses
 * is decided by the `URL` constructor, which is not modelled: it is the
 * parameter `parses`.
 */
module Validation {
  import opened Wrappers
  import opened Text
  import opened Entities

  const UrlRequired: string := "URL is required"
  const InvalidUrlFormat: string := "Invalid URL format"
  const TitleRequired: string := "Title is required"
  const FolderRequired: string := "Folder is required"
  const InvalidColorFormat: string := "Invalid color format"
  const FolderNameRequired: string := "Folder name is required"
  const TagNameRequired: string := "Tag name is required"
  const ValidColorRequired: string := "Valid color is required"

  /** `!x` for a string-valued key: absent or empty. */
  predicate Falsy(x: Option<string>) {
    x.None? || x.value == ""
  }

  /** The character class `[A-Fa-f0-9]`. */
  predicate IsHexDigit(c: char) {
    '0' <= c <= '9' || 'a' <= c <= 'f' || 'A' <= c <= 'F'
  }

  /** `[A-Fa-f0-9]{n}` matching the whole of `s`. */
  predicate HexRun(s: string, n: nat)
    decreases n
  {
    if n == 0 then s == [] else s != [] && IsHexDigit(s[0]) && HexRun(s[1..], n - 1)
  }

  /** `isValidColor`: a non-empty string matching `^#([A-Fa-f0-9]{6}|[A-Fa-f0-9]{3})$`. */
  predicate IsValidColor(color: string) {
    color != "" && color[0] == '#' && (HexRun(color[1..], 6) || HexRun(color[1..], 3))
  }

  /** `s` matches `[A-Fa-f0-9]{n}` exactly when it is `n` hex digits. */
  lemma {:induction false} HexRunIff(s: string, n: nat)
    ensures HexRun(s, n) <==> |s| == n && forall i :: 0 <= i < |s| ==> IsHexDigit(s[i])
    decreases n
  {
    if n > 0 && s != [] {
      HexRunIff(s[1..], n - 1);
      assert forall i :: 1 <= i < |s| ==> s[i] == s[1..][i - 1];
    }
  }

  /**
   * A colour is valid exactly when it is `#` followed by exactly three or
   * exactly six hex digits of either case.
   */
  lemma ValidColorIff(color: string)
    ensures IsValidColor(color) <==>
      && (|color| == 4 || |color| == 7)
      && color[0] == '#'
      && forall i :: 1 <= i < |color| ==> IsHexDigit(color[i])
  {
    if color != "" {
      var rest := color[1..];
      HexRunIff(rest, 6);
      HexRunIff(rest, 3);
      assert forall i :: 1 <= i < |color| ==> color[i] == rest[i - 1];
    }
  }

  /** `isValidUrl`: the empty string never parses; any other string as the `URL` constructor decides. */
  predicate IsValidUrl(url: string, parses: string -> bool) {
    url != "" && parses(url)
  }

  /** The value `validateRequired` inspects. `Other(falsy)` is any non-string value. */
  datatype Value = Undefined | Null | Str(s: string) | Other(falsy: bool)

  /** `validateRequired`: fails with `<fieldName> is required` on `null`, `undefined` and `''` only. */
  function ValidateRequired(value: Value, fieldName: string): (r: Result<()>)
    ensures r.Err? <==> value.Undefined? || value.Null? || value == Str("")
    ensures r.Err? ==> r.message == fieldName + " is required"
  {
    if value.Null? || value.Undefined? || value == Str("") then Err(fieldName + " is required")
    else Ok(())
  }

  /** Other falsy values, such as `0` or `false`, pass `validateRequired`. */
  lemma RequiredAcceptsOtherFalsyValues(fieldName: string)
    ensures ValidateRequired(Other(true), fieldName) == Ok(())
    ensures ValidateRequired(Str(" "), fieldName) == Ok(())
  {
  }

  /** The bookmark messages differ from one another. */
  lemma BookmarkMessagesDistinct()
    ensures UrlRequired != InvalidUrlFormat && UrlRequired != TitleRequired
    ensures UrlRequired != FolderRequired && UrlRequired != InvalidColorFormat
    ensures InvalidUrlFormat != TitleRequired && InvalidUrlFormat != FolderRequired
    ensures InvalidUrlFormat != InvalidColorFormat && TitleRequired != FolderRequired
    ensures TitleRequired != InvalidColorFormat && FolderRequired != InvalidColorFormat
  {
    assert UrlRequired[0] == 'U' && InvalidUrlFormat[0] == 'I' && TitleRequired[0] == 'T';
    assert FolderRequired[0] == 'F' && InvalidColorFormat[0] == 'I' && InvalidUrlFormat[8] == 'U';
    assert InvalidColorFormat[8] == 'c';
  }

  /** The rank of each bookmark message. */
  lemma BookmarkRanks()
    ensures BookmarkRank(UrlRequired) == 0 && BookmarkRank(InvalidUrlFormat) == 0
    ensures BookmarkRank(TitleRequired) == 1 && BookmarkRank(FolderRequired) == 2
    ensures BookmarkRank(InvalidColorFormat) == 3
  {
    BookmarkMessagesDistinct();
  }

  /** The place of each bookmark message in the fixed order URL, Title, Folder, Color. */
  function BookmarkRank(m: string): int {
    if m == UrlRequired || m == InvalidUrlFormat then 0
    else if m == TitleRequired then 1
    else if m == FolderRequired then 2
    else if m == InvalidColorFormat then 3
    else -1
  }

  /** Every entry is a bookmark message and they come in the fixed order, each at most once. */
  predicate InBookmarkOrder(errors: seq<string>) {
    && (forall i :: 0 <= i < |errors| ==> BookmarkRank(errors[i]) >= 0)
    && RanksIncrease(errors, BookmarkRank)
  }

  /** The ranks of the entries strictly increase along the list. */
  predicate RanksIncrease<T>(s: seq<T>, rank: T -> int) {
    forall i, j :: 0 <= i < j < |s| ==> rank(s[i]) < rank(s[j])
  }

  /** Four pieces of at most one entry each, ranked 0, 1, 2 and 3, are joined in increasing rank. */
  lemma FourPiecesIncrease<T>(u: seq<T>, t: seq<T>, f: seq<T>, c: seq<T>, rank: T -> int)
    requires |u| <= 1 && |t| <= 1 && |f| <= 1 && |c| <= 1
    requires forall i :: 0 <= i < |u| ==> rank(u[i]) == 0
    requires forall i :: 0 <= i < |t| ==> rank(t[i]) == 1
    requires forall i :: 0 <= i < |f| ==> rank(f[i]) == 2
    requires forall i :: 0 <= i < |c| ==> rank(c[i]) == 3
    ensures RanksIncrease(u + t + f + c, rank)
    ensures forall i :: 0 <= i < |u + t + f + c| ==> 0 <= rank((u + t + f + c)[i]) <= 3
  {
    var s := u + t + f + c;
    forall i | 0 <= i < |s|
      ensures rank(s[i]) == if i < |u| then 0 else if i < |u| + |t| then 1 else if i < |u| + |t| + |f| then 2 else 3
    {
      if i < |u| { assert s[i] == u[i]; }
      else if i < |u| + |t| { assert s[i] == t[i - |u|]; }
      else if i < |u| + |t| + |f| { assert s[i] == f[i - |u| - |t|]; }
      else { assert s[i] == c[i - |u| - |t| - |f|]; }
    }
  }

  /** `[m]` when the check `c` fails, otherwise nothing. */
  function Pushed(c: bool, m: string): seq<string> {
    if c then [m] else []
  }

  /** The messages of the URL check: missing, else malformed, else none. */
  function UrlErrors(url: Option<string>, parses: string -> bool): seq<string> {
    if Falsy(url) then [UrlRequired]
    else if !IsValidUrl(url.value, parses) then [InvalidUrlFormat]
    else []
  }

  /** The list `validateBookmarkData` builds, check by check. */
  function BookmarkErrors(bookmark: BookmarkFields, parses: string -> bool): seq<string> {
    UrlErrors(bookmark.url, parses)
      + Pushed(Falsy(bookmark.title) || IsBlank(bookmark.title.value), TitleRequired)
      + Pushed(Falsy(bookmark.folderId), FolderRequired)
      + Pushed(!Falsy(bookmark.color) && !IsValidColor(bookmark.color.value), InvalidColorFormat)
  }

  /** Each bookmark message is reported exactly when its check fails; at most one URL message appears. */
  lemma BookmarkErrorsReportFailedChecks(bookmark: BookmarkFields, parses: string -> bool)
    ensures var errors := BookmarkErrors(bookmark, parses);
      && (UrlRequired in errors <==> Falsy(bookmark.url))
      && (InvalidUrlFormat in errors <==> !Falsy(bookmark.url) && !IsValidUrl(bookmark.url.value, parses))
      && (TitleRequired in errors <==> Falsy(bookmark.title) || IsBlank(bookmark.title.value))
      && (FolderRequired in errors <==> Falsy(bookmark.folderId))
      && (InvalidColorFormat in errors <==> !Falsy(bookmark.color) && !IsValidColor(bookmark.color.value))
      && !(UrlRequired in errors && InvalidUrlFormat in errors)
  {
    BookmarkMessagesDistinct();
  }

  /**
   * The bookmark messages come in the fixed order URL, Title, Folder, Color,
   * each at most once, so there are at most four.
   */
  lemma BookmarkErrorsInOrder(bookmark: BookmarkFields, parses: string -> bool)
    ensures InBookmarkOrder(BookmarkErrors(bookmark, parses))
    ensures |BookmarkErrors(bookmark, parses)| <= 4
  {
    BookmarkMessagesDistinct();
    BookmarkRanks();
    var u := UrlErrors(bookmark.url, parses);
    var t := Pushed(Falsy(bookmark.title) || IsBlank(bookmark.title.value), TitleRequired);
    var f := Pushed(Falsy(bookmark.folderId), FolderRequired);
    var c := Pushed(!Falsy(bookmark.color) && !IsValidColor(bookmark.color.value), InvalidColorFormat);
    assert forall i :: 0 <= i < |u| ==> BookmarkRank(u[i]) == 0;
    assert forall i :: 0 <= i < |t| ==> BookmarkRank(t[i]) == 1;
    assert forall i :: 0 <= i < |f| ==> BookmarkRank(f[i]) == 2;
    assert forall i :: 0 <= i < |c| ==> BookmarkRank(c[i]) == 3;
    FourPiecesIncrease(u, t, f, c, BookmarkRank);
  }

  /** `validateBookmarkData`. */
  method ValidateBookmarkData(bookmark: BookmarkFields, parses: string -> bool)
    returns (valid: bool, errors: seq<string>)
    ensures errors == BookmarkErrors(bookmark, parses)
    ensures valid <==> errors == []
  {
    errors := [];
    if Falsy(bookmark.url) {
      errors := errors + [UrlRequired];
    } else if !IsValidUrl(bookmark.url.value, parses) {
      errors := errors + [InvalidUrlFormat];
    }
    ghost var checked := UrlErrors(bookmark.url, parses);
    assert errors == checked;
    if Falsy(bookmark.title) || Trim(bookmark.title.value) == "" {
      errors := errors + [TitleRequired];
    }
    checked := checked + Pushed(Falsy(bookmark.title) || IsBlank(bookmark.title.value), TitleRequired);
    assert errors == checked;
    if Falsy(bookmark.folderId) {
      errors := errors + [FolderRequired];
    }
    checked := checked + Pushed(Falsy(bookmark.folderId), FolderRequired);
    assert errors == checked;
    if !Falsy(bookmark.color) && !IsValidColor(bookmark.color.value) {
      errors := errors + [InvalidColorFormat];
    }
    checked := checked + Pushed(!Falsy(bookmark.color) && !IsValidColor(bookmark.color.value), InvalidColorFormat);
    assert errors == checked;
    valid := |errors| == 0;
  }

  /** `validateFolderData`: one error, exactly when the name is missing or blank. */
  method ValidateFolderData(folder: FolderFields) returns (valid: bool, errors: seq<string>)
    ensures Falsy(folder.name) || IsBlank(folder.name.value) ==> errors == [FolderNameRequired]
    ensures !(Falsy(folder.name) || IsBlank(folder.name.value)) ==> errors == []
    ensures valid <==> errors == []
  {
    errors := [];
    if Falsy(folder.name) || Trim(folder.name.value) == "" {
      errors := errors + [FolderNameRequired];
    }
    valid := |errors| == 0;
  }

  /** `validateTagData`: the name, then a colour that is mandatory here. */
  method ValidateTagData(tag: TagFields) returns (valid: bool, errors: seq<string>)
    ensures TagNameRequired in errors <==> Falsy(tag.name) || IsBlank(tag.name.value)
    ensures ValidColorRequired in errors <==> Falsy(tag.color) || !IsValidColor(tag.color.value)
    ensures |errors| <= 2
    ensures |errors| == 2 ==> errors == [TagNameRequired, ValidColorRequired]
    ensures |errors| == 1 ==> errors == [TagNameRequired] || errors == [ValidColorRequired]
    ensures valid <==> errors == []
  {
    errors := [];
    if Falsy(tag.name) || Trim(tag.name.value) == "" {
      errors := errors + [TagNameRequired];
    }
    if Falsy(tag.color) || !IsValidColor(tag.color.value) {
      errors := errors + [ValidColorRequired];
    }
    valid := |errors| == 0;
  }
}
