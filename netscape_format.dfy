/**
 * The Netscape bookmark file format as the import/export module reads and
 * writes it: `escapeHtml`, the forward scanner `parseNetscapeHtml`, and
 * `generateNetscapeHtml`.
 *
 * The scanner's input is the sequence of matches its regular expression
 * finds, in document order: a `<DT><H3 ...>text</H3>` heading or a
 * `<DT><A ... HREF="href" ...>text</A>` anchor.
 */
module NetscapeFormat {
  import opened Wrappers
  import opened Text
  import opened Seqs
  import opened Entities

  // ---------------------------------------------------------------------------
  // escapeHtml

  /** `s.replace(/c/g, rep)` for a single character `c`. */
  function ReplaceAll(s: string, c: char, rep: string): string {
    if s == [] then [] else (if s[0] == c then rep else [s[0]]) + ReplaceAll(s[1..], c, rep)
  }

  lemma {:induction false} ReplaceAllAbsent(s: string, c: char, rep: string)
    requires c !in s
    ensures ReplaceAll(s, c, rep) == s
  {
    if s != [] {
      ReplaceAllAbsent(s[1..], c, rep);
      assert s == [s[0]] + s[1..];
    }
  }

  lemma {:induction false} ReplaceAllConcat(a: string, b: string, c: char, rep: string)
    ensures ReplaceAll(a + b, c, rep) == ReplaceAll(a, c, rep) + ReplaceAll(b, c, rep)
  {
    if a == [] {
      assert a + b == b;
    } else {
      assert (a + b)[1..] == a[1..] + b;
      ReplaceAllConcat(a[1..], b, c, rep);
    }
  }

  /** The replacements `escapeHtml` applies, in order. */
  const EscapePairs: seq<(char, string)> :=
    [('&', "&amp;"), ('<', "&lt;"), ('>', "&gt;"), ('"', "&quot;"), ('\'', "&#39;")]

  /** Applying global replacements one after the other. */
  function ReplaceChain(s: string, pairs: seq<(char, string)>): string
    decreases |pairs|
  {
    if pairs == [] then s else ReplaceChain(ReplaceAll(s, pairs[0].0, pairs[0].1), pairs[1..])
  }

  /** `escapeHtml`: five global replacements, `&` first. */
  function EscapeHtml(s: string): string {
    ReplaceChain(s, EscapePairs)
  }

  /** The entity a single character is written as. */
  function EscapeChar(c: char): string {
    match c
    case '&' => "&amp;"
    case '<' => "&lt;"
    case '>' => "&gt;"
    case '"' => "&quot;"
    case '\'' => "&#39;"
    case _ => [c]
  }

  /** Escaping every character independently, in one pass. */
  function EscapeEach(s: string): string {
    if s == [] then [] else EscapeChar(s[0]) + EscapeEach(s[1..])
  }

  lemma {:induction false} ReplaceChainConcat(a: string, b: string, pairs: seq<(char, string)>)
    ensures ReplaceChain(a + b, pairs) == ReplaceChain(a, pairs) + ReplaceChain(b, pairs)
    decreases |pairs|
  {
    if pairs != [] {
      ReplaceAllConcat(a, b, pairs[0].0, pairs[0].1);
      ReplaceChainConcat(ReplaceAll(a, pairs[0].0, pairs[0].1), ReplaceAll(b, pairs[0].0, pairs[0].1), pairs[1..]);
    }
  }

  /** A string holding none of the replaced characters passes through unchanged. */
  lemma {:induction false} ReplaceChainAbsent(s: string, pairs: seq<(char, string)>)
    requires forall k :: 0 <= k < |pairs| ==> pairs[k].0 !in s
    ensures ReplaceChain(s, pairs) == s
    decreases |pairs|
  {
    if pairs != [] {
      ReplaceAllAbsent(s, pairs[0].0, pairs[0].1);
      ReplaceChainAbsent(s, pairs[1..]);
    }
  }

  lemma ReplaceAllSingle(x: char, c: char, rep: string)
    ensures ReplaceAll([x], c, rep) == if x == c then rep else [x]
  {
    assert [x][1..] == [];
  }

  lemma EscapeHtmlConcat(a: string, b: string)
    ensures EscapeHtml(a + b) == EscapeHtml(a) + EscapeHtml(b)
  {
    ReplaceChainConcat(a, b, EscapePairs);
  }

  /** One step of a replacement chain. */
  lemma ReplaceChainStep(s: string, pairs: seq<(char, string)>)
    requires pairs != []
    ensures ReplaceChain(s, pairs) == ReplaceChain(ReplaceAll(s, pairs[0].0, pairs[0].1), pairs[1..])
  {
  }

  /** A replacement whose character is absent is skipped. */
  lemma ChainSkip(x: string, pairs: seq<(char, string)>)
    requires pairs != [] && pairs[0].0 !in x
    ensures ReplaceChain(x, pairs) == ReplaceChain(x, pairs[1..])
  {
    ReplaceAllAbsent(x, pairs[0].0, pairs[0].1);
  }

  /** A one-character string hit by the first replacement keeps the entity, when no later one touches it. */
  lemma ChainHit(c: char, pairs: seq<(char, string)>)
    requires pairs != [] && pairs[0].0 == c
    requires forall k :: 1 <= k < |pairs| ==> pairs[k].0 !in pairs[0].1
    ensures ReplaceChain([c], pairs) == pairs[0].1
  {
    ReplaceAllSingle(c, c, pairs[0].1);
    ReplaceChainAbsent(pairs[0].1, pairs[1..]);
  }

  lemma EscapeHtmlChar(c: char)
    ensures EscapeHtml([c]) == EscapeChar(c)
  {
    var P0 := EscapePairs;
    var P1, P2, P3, P4 := P0[1..], P0[2..], P0[3..], P0[4..];
    assert P0[1..][1..] == P2 && P0[2..][1..] == P3 && P0[3..][1..] == P4 && P0[4..][1..] == [];
    if c == '&' {
      ChainHit(c, P0);
    } else {
      ChainSkip([c], P0);
      if c == '<' {
        ChainHit(c, P1);
      } else {
        ChainSkip([c], P1);
        if c == '>' {
          ChainHit(c, P2);
        } else {
          ChainSkip([c], P2);
          if c == '"' {
            ChainHit(c, P3);
          } else {
            ChainSkip([c], P3);
            if c == '\'' {
              ChainHit(c, P4);
            } else {
              ChainSkip([c], P4);
            }
          }
        }
      }
    }
  }

  /**
   * Because `&` is replaced first, the `&` of the entities written by the
   * later replacements is never escaped again: the chain of replacements is
   * the same as escaping each character once.
   */
  lemma {:induction false} EscapeHtmlIsSinglePass(s: string)
    ensures EscapeHtml(s) == EscapeEach(s)
  {
    if s != [] {
      assert s == [s[0]] + s[1..];
      EscapeHtmlConcat([s[0]], s[1..]);
      EscapeHtmlChar(s[0]);
      EscapeHtmlIsSinglePass(s[1..]);
      assert EscapeEach(s) == EscapeChar(s[0]) + EscapeEach(s[1..]);
    } else {
      assert EscapeHtml(s) == ReplaceChain(s, EscapePairs);
      ReplaceChainAbsent(s, EscapePairs);
    }
  }

  /** The number of occurrences of `c` in `s`. */
  function Occurrences(s: string, c: char): nat {
    multiset(s)[c]
  }

  /** The characters a single character's entity adds. */
  function Extra(c: char): nat {
    if c == '&' then 4 else if c == '<' then 3 else if c == '>' then 3
    else if c == '"' then 5 else if c == '\'' then 4 else 0
  }

  lemma EscapeCharLength(c: char)
    ensures |EscapeChar(c)| == 1 + Extra(c)
  {
  }

  lemma OccurrencesCons(s: string, c: char)
    requires s != []
    ensures Occurrences(s, c) == (if s[0] == c then 1 else 0) + Occurrences(s[1..], c)
  {
    assert s == [s[0]] + s[1..];
    assert multiset(s) == multiset{s[0]} + multiset(s[1..]);
  }

  /** The length added by escaping, written as a sum over the special characters. */
  function EscapedExtra(s: string): nat {
    4 * Occurrences(s, '&') + 3 * Occurrences(s, '<')
      + 3 * Occurrences(s, '>') + 5 * Occurrences(s, '"') + 4 * Occurrences(s, '\'')
  }

  lemma EscapedExtraCons(s: string)
    requires s != []
    ensures EscapedExtra(s) == Extra(s[0]) + EscapedExtra(s[1..])
  {
    OccurrencesCons(s, '&');
    OccurrencesCons(s, '<');
    OccurrencesCons(s, '>');
    OccurrencesCons(s, '"');
    OccurrencesCons(s, '\'');
  }

  lemma {:induction false} EscapeEachLength(s: string)
    ensures |EscapeEach(s)| == |s| + EscapedExtra(s)
  {
    if s != [] {
      EscapeEachLength(s[1..]);
      EscapeCharLength(s[0]);
      EscapedExtraCons(s);
    } else {
      assert multiset(s) == multiset{};
    }
  }

  /** Each `&` adds 4 characters, each `<` and `>` 3, each `"` 5 and each `'` 4. */
  lemma EscapeHtmlLength(s: string)
    ensures |EscapeHtml(s)| == |s| + EscapedExtra(s)
  {
    EscapeHtmlIsSinglePass(s);
    EscapeEachLength(s);
  }

  lemma EscapeCharHasNoMarkup(c: char)
    ensures '<' !in EscapeChar(c) && '>' !in EscapeChar(c)
    ensures '"' !in EscapeChar(c) && '\'' !in EscapeChar(c)
  {
  }

  lemma {:induction false} EscapeEachHasNoMarkup(s: string)
    ensures '<' !in EscapeEach(s) && '>' !in EscapeEach(s)
    ensures '"' !in EscapeEach(s) && '\'' !in EscapeEach(s)
  {
    if s != [] {
      EscapeEachHasNoMarkup(s[1..]);
      EscapeCharHasNoMarkup(s[0]);
      var e, r := EscapeChar(s[0]), EscapeEach(s[1..]);
      assert EscapeEach(s) == e + r;
      NotInConcat(e, r, '<');
      NotInConcat(e, r, '>');
      NotInConcat(e, r, '"');
      NotInConcat(e, r, '\'');
    }
  }

  lemma NotInConcat(a: string, b: string, c: char)
    requires c !in a && c !in b
    ensures c !in a + b
  {
  }


  /** The output of `escapeHtml` holds no raw `<`, `>`, `"` or `'`. */
  lemma EscapeHtmlHasNoMarkup(s: string)
    ensures '<' !in EscapeHtml(s) && '>' !in EscapeHtml(s)
    ensures '"' !in EscapeHtml(s) && '\'' !in EscapeHtml(s)
  {
    EscapeHtmlIsSinglePass(s);
    EscapeEachHasNoMarkup(s);
  }

  /** A string without `& < > " '` is returned unchanged. */
  lemma EscapeHtmlIdentity(s: string)
    requires '&' !in s && '<' !in s && '>' !in s && '"' !in s && '\'' !in s
    ensures EscapeHtml(s) == s
  {
    ReplaceChainAbsent(s, EscapePairs);
  }

  /** Decoding the five entities `escapeHtml` writes. */
  function UnescapeHtml(s: string): string
    decreases |s|
  {
    if s == [] then []
    else if "&amp;" <= s then "&" + UnescapeHtml(s[5..])
    else if "&lt;" <= s then "<" + UnescapeHtml(s[4..])
    else if "&gt;" <= s then ">" + UnescapeHtml(s[4..])
    else if "&quot;" <= s then "\"" + UnescapeHtml(s[6..])
    else if "&#39;" <= s then "'" + UnescapeHtml(s[5..])
    else [s[0]] + UnescapeHtml(s[1..])
  }

  /** Decoding undoes one escaped character in front of any string. */
  lemma UnescapeEscapeChar(c: char, rest: string)
    ensures UnescapeHtml(EscapeChar(c) + rest) == [c] + UnescapeHtml(rest)
  {
    var t := EscapeChar(c) + rest;
    assert t[|EscapeChar(c)|..] == rest;
    if c == '&' {
      assert "&amp;" <= t;
    } else if c == '<' {
      assert t[1] == 'l' && "&lt;" <= t;
    } else if c == '>' {
      assert t[1] == 'g' && "&gt;" <= t;
    } else if c == '"' {
      assert t[1] == 'q' && "&quot;" <= t;
    } else if c == '\'' {
      assert t[1] == '#' && "&#39;" <= t;
    } else {
      assert t[0] == c && t[1..] == rest;
    }
  }

  lemma {:induction false} UnescapeEscapeEach(s: string)
    ensures UnescapeHtml(EscapeEach(s)) == s
  {
    if s != [] {
      UnescapeEscapeChar(s[0], EscapeEach(s[1..]));
      UnescapeEscapeEach(s[1..]);
      assert s == [s[0]] + s[1..];
    }
  }

  /** `escapeHtml` loses nothing: decoding its output gives the input back. */
  lemma EscapeHtmlIsInvertible(s: string)
    ensures UnescapeHtml(EscapeHtml(s)) == s
  {
    EscapeHtmlIsSinglePass(s);
    UnescapeEscapeEach(s);
  }

  // ---------------------------------------------------------------------------
  // parseNetscapeHtml

  /** One match of the scanner's regular expression. */
  datatype Token = Heading(text: string) | Anchor(href: string, text: string)

  datatype ParsedBookmark = ParsedBookmark(title: string, url: string, folderId: string)

  /**
   * The scanner's result. `folders` is the insertion-ordered `Map` from
   * folder id to folder name, as a sequence of (id, name) pairs.
   */
  datatype Parsed = Parsed(folders: seq<(string, string)>, bookmarks: seq<ParsedBookmark>)

  /** `imported_${k}` */
  function ImportedId(k: nat): string {
    "imported_" + NatToString(k)
  }

  lemma ImportedIdInjective(a: nat, b: nat)
    requires ImportedId(a) == ImportedId(b)
    ensures a == b
  {
    var p := "imported_";
    assert ImportedId(a)[|p|..] == NatToString(a);
    assert ImportedId(b)[|p|..] == NatToString(b);
    NatToStringInjective(a, b);
  }

  lemma ImportedIdsDiffer(a: nat, b: nat)
    requires a != b
    ensures ImportedId(a) != ImportedId(b)
  {
    if ImportedId(a) == ImportedId(b) {
      ImportedIdInjective(a, b);
    }
  }

  /** The variables the scan loop updates (`folderStack` is written but never read, so it is left out here). */
  datatype ScanState = ScanState(
    folders: seq<(string, string)>,
    bookmarks: seq<ParsedBookmark>,
    currentFolderId: string,
    folderCounter: nat)

  const InitialScan: ScanState := ScanState([], [], "", 0)

  /** The url an anchor yields: `match[3]?.trim() || ''`. */
  function AnchorUrl(href: string): string {
    Trim(href)
  }

  /** The title an anchor yields: `match[4]?.trim() || url`. */
  function AnchorTitle(href: string, text: string): string {
    if Trim(text) != "" then Trim(text) else AnchorUrl(href)
  }

  /** One turn of the scan loop. */
  function Step(st: ScanState, t: Token): ScanState {
    match t
    case Heading(text) =>
      if text != "" then
        var id := ImportedId(st.folderCounter + 1);
        ScanState(st.folders + [(id, Trim(text))], st.bookmarks, id, st.folderCounter + 1)
      else st
    case Anchor(href, text) =>
      var url := AnchorUrl(href);
      if url != "" then
        st.(bookmarks := st.bookmarks + [ParsedBookmark(AnchorTitle(href, text), url, st.currentFolderId)])
      else st
  }

  /** The state after scanning `ts`. */
  function Scan(ts: seq<Token>): ScanState {
    if ts == [] then InitialScan else Step(Scan(ts[..|ts| - 1]), ts[|ts| - 1])
  }

  function ParseNetscape(ts: seq<Token>): Parsed {
    var st := Scan(ts);
    Parsed(st.folders, st.bookmarks)
  }

  lemma ScanSnoc(ts: seq<Token>, i: nat)
    requires i < |ts|
    ensures Scan(ts[..i + 1]) == Step(Scan(ts[..i]), ts[i])
  {
    assert ts[..i + 1][..i] == ts[..i];
  }

  /** `parseNetscapeHtml`: a single forward pass over the matches. */
  method ParseNetscapeHtml(ts: seq<Token>) returns (p: Parsed)
    ensures p == ParseNetscape(ts)
  {
    var folders: seq<(string, string)> := [];
    var bookmarks: seq<ParsedBookmark> := [];
    var folderStack: seq<(string, string)> := [];
    var currentFolderId := "";
    var folderCounter: nat := 0;
    var i := 0;
    while i < |ts|
      invariant 0 <= i <= |ts|
      invariant Scan(ts[..i]) == ScanState(folders, bookmarks, currentFolderId, folderCounter)
    {
      ScanSnoc(ts, i);
      ghost var st := ScanState(folders, bookmarks, currentFolderId, folderCounter);
      match ts[i] {
        case Heading(text) =>
          if text != "" {
            var folderName := Trim(text);
            folderCounter := folderCounter + 1;
            var folderId := ImportedId(folderCounter);
            folders := folders + [(folderId, folderName)];
            currentFolderId := folderId;
            folderStack := folderStack + [(folderName, folderId)];
            assert Step(st, ts[i]) == ScanState(folders, bookmarks, currentFolderId, folderCounter);
          }
        case Anchor(href, text) =>
          var url := AnchorUrl(href);
          var title := AnchorTitle(href, text);
          if url != "" {
            bookmarks := bookmarks + [ParsedBookmark(title, url, currentFolderId)];
            assert Step(st, ts[i]) == ScanState(folders, bookmarks, currentFolderId, folderCounter);
          }
      }
      i := i + 1;
    }
    assert ts[..|ts|] == ts;
    p := Parsed(folders, bookmarks);
  }

  /** The text of a heading that opens a folder, if `t` is one. */
  function HeadingText(t: Token): seq<string> {
    if t.Heading? && t.text != "" then [t.text] else []
  }

  /** `t => t is a heading`, the filter the heading count is stated with. */
  predicate IsHeading(t: Token) {
    t.Heading?
  }

  /** The non-empty heading texts of `ts`, in order: the headings that open a folder. */
  function Headings(ts: seq<Token>): seq<string> {
    if ts == [] then [] else Headings(ts[..|ts| - 1]) + HeadingText(ts[|ts| - 1])
  }

  lemma {:induction false} HeadingsConcat(a: seq<Token>, b: seq<Token>)
    ensures Headings(a + b) == Headings(a) + Headings(b)
    decreases |b|
  {
    if b == [] {
      assert a + b == a;
    } else {
      assert (a + b)[..|a + b| - 1] == a + b[..|b| - 1];
      HeadingsConcat(a, b[..|b| - 1]);
    }
  }

  /** The folder id the scanner has current after `ts`: that of the latest heading, or "". */
  function LatestHeadingId(ts: seq<Token>): string {
    if |Headings(ts)| == 0 then "" else ImportedId(|Headings(ts)|)
  }

  /**
   * The k-th heading opens the folder `imported_k` named by its trimmed text,
   * and the current folder is the latest one.
   */
  lemma {:induction false} ScanFolders(ts: seq<Token>)
    ensures FoldersFollowHeadings(Scan(ts), Headings(ts))
  {
    if ts != [] {
      var p, t := ts[..|ts| - 1], ts[|ts| - 1];
      ScanFolders(p);
      StepFollowsHeadings(Scan(p), Headings(p), t);
    }
  }

  /** The k-th folder entry (from 0) is `imported_(k+1)` named by the trimmed k-th heading text. */
  ghost predicate Numbered(folders: seq<(string, string)>, hs: seq<string>) {
    |folders| == |hs| && forall k :: 0 <= k < |folders| ==> folders[k] == (ImportedId(k + 1), Trim(hs[k]))
  }

  lemma NumberedSnoc(folders: seq<(string, string)>, hs: seq<string>, text: string)
    requires Numbered(folders, hs)
    ensures Numbered(folders + [(ImportedId(|hs| + 1), Trim(text))], hs + [text])
  {
    var hs' := hs + [text];
    var folders' := folders + [(ImportedId(|hs| + 1), Trim(text))];
    forall k | 0 <= k < |folders'|
      ensures folders'[k] == (ImportedId(k + 1), Trim(hs'[k]))
    {
      if k < |hs| {
        assert hs'[k] == hs[k];
        assert folders'[k] == folders[k];
      }
    }
  }

  /** The scanner's folders and current folder as determined by the folder-opening heading texts `hs`. */
  ghost predicate FoldersFollowHeadings(st: ScanState, hs: seq<string>) {
    && st.folderCounter == |hs|
    && Numbered(st.folders, hs)
    && st.currentFolderId == (if |hs| == 0 then "" else ImportedId(|hs|))
  }

  lemma StepFollowsHeadings(st: ScanState, hs: seq<string>, t: Token)
    requires FoldersFollowHeadings(st, hs)
    ensures FoldersFollowHeadings(Step(st, t), hs + HeadingText(t))
  {
    if t.Heading? && t.text != "" {
      HeadingFollows(st, hs, t.text);
    } else {
      assert hs + HeadingText(t) == hs;
      var st' := Step(st, t);
      assert st'.folders == st.folders && st'.currentFolderId == st.currentFolderId
        && st'.folderCounter == st.folderCounter;
    }
  }

  lemma HeadingFollows(st: ScanState, hs: seq<string>, text: string)
    requires FoldersFollowHeadings(st, hs)
    ensures var n := |hs|;
      FoldersFollowHeadings(
        ScanState(st.folders + [(ImportedId(n + 1), Trim(text))], st.bookmarks, ImportedId(n + 1), n + 1),
        hs + [text])
  {
    NumberedSnoc(st.folders, hs, text);
  }




  /**
   * The bookmarks the scan yields, described without the scanner's state: each
   * anchor with a non-blank href, in order, filed under the latest heading before it.
   */
  function ReferenceBookmarks(ts: seq<Token>): seq<ParsedBookmark> {
    if ts == [] then [] else ReferenceBookmarks(ts[..|ts| - 1]) + AnchorBookmark(ts[..|ts| - 1], ts[|ts| - 1])
  }

  /** The bookmark token `t` yields after the tokens `p`, if any. */
  function AnchorBookmark(p: seq<Token>, t: Token): seq<ParsedBookmark> {
    if t.Anchor? && AnchorUrl(t.href) != ""
    then [ParsedBookmark(AnchorTitle(t.href, t.text), AnchorUrl(t.href), LatestHeadingId(p))]
    else []
  }

  /** The scanner's bookmarks are the reference bookmarks. */
  lemma {:induction false} ScanBookmarks(ts: seq<Token>)
    ensures Scan(ts).bookmarks == ReferenceBookmarks(ts)
  {
    if ts != [] {
      ScanBookmarks(ts[..|ts| - 1]);
      ScanFolders(ts[..|ts| - 1]);
    }
  }

  /**
   * "The latest heading" is the most recent preceding one: after a heading
   * followed by tokens that open no folder, the current folder is the one that
   * heading opened.
   */
  lemma LatestHeadingIsMostRecent(before: seq<Token>, text: string, after: seq<Token>)
    requires text != ""
    requires Headings(after) == []
    ensures LatestHeadingId(before + [Heading(text)] + after) == ImportedId(|Headings(before)| + 1)
    ensures var fs := ParseNetscape(before + [Heading(text)] + after).folders;
      |fs| > |Headings(before)| && fs[|Headings(before)|] == (ImportedId(|Headings(before)| + 1), Trim(text))
  {
    var ts := before + [Heading(text)] + after;
    var n := |Headings(before)|;
    HeadingsAround(before, text, after);
    var hs := Headings(ts);
    assert |hs| == n + 1 && hs[n] == text;
    ScanFolders(ts);
    assert FoldersFollowHeadings(Scan(ts), hs);
  }

  lemma HeadingsAround(before: seq<Token>, text: string, after: seq<Token>)
    requires text != ""
    requires Headings(after) == []
    ensures Headings(before + [Heading(text)] + after) == Headings(before) + [text]
  {
    HeadingsConcat(before, [Heading(text)]);
    HeadingsConcat(before + [Heading(text)], after);
    assert Headings([Heading(text)]) == [text] by {
      assert [Heading(text)][..0] == [];
    }
  }

  /** Every bookmark of `st` has a non-empty url and title, and is uncategorized or filed in a folder of `st`. */
  ghost predicate BookmarksFiled(st: ScanState) {
    forall b :: b in st.bookmarks ==>
      && b.url != "" && b.title != ""
      && (b.folderId == "" || exists k :: 0 <= k < |st.folders| && st.folders[k].0 == b.folderId)
  }

  lemma StepKeepsBookmarksFiled(st: ScanState, hs: seq<string>, t: Token)
    requires FoldersFollowHeadings(st, hs) && BookmarksFiled(st)
    ensures BookmarksFiled(Step(st, t))
  {
    match t
    case Heading(text) =>
      if text != "" {
        HeadingKeepsBookmarksFiled(st, |hs|, text);
      }
    case Anchor(href, text) =>
      if AnchorUrl(href) != "" {
        AnchorKeepsBookmarksFiled(st, hs, href, text);
      }
  }

  lemma HeadingKeepsBookmarksFiled(st: ScanState, n: nat, text: string)
    requires BookmarksFiled(st)
    ensures BookmarksFiled(ScanState(st.folders + [(ImportedId(n + 1), Trim(text))], st.bookmarks, ImportedId(n + 1), n + 1))
  {
    var folders' := st.folders + [(ImportedId(n + 1), Trim(text))];
    forall b | b in st.bookmarks && b.folderId != ""
      ensures exists k :: 0 <= k < |folders'| && folders'[k].0 == b.folderId
    {
      var k :| 0 <= k < |st.folders| && st.folders[k].0 == b.folderId;
      assert folders'[k] == st.folders[k];
    }
  }

  lemma AnchorKeepsBookmarksFiled(st: ScanState, hs: seq<string>, href: string, text: string)
    requires FoldersFollowHeadings(st, hs) && BookmarksFiled(st)
    requires AnchorUrl(href) != ""
    ensures BookmarksFiled(st.(bookmarks := st.bookmarks
      + [ParsedBookmark(AnchorTitle(href, text), AnchorUrl(href), st.currentFolderId)]))
  {
    var nb := ParsedBookmark(AnchorTitle(href, text), AnchorUrl(href), st.currentFolderId);
    var st' := st.(bookmarks := st.bookmarks + [nb]);
    assert nb.url != "" && nb.title != "";
    assert nb.folderId == "" || st.folders[|hs| - 1].0 == nb.folderId;
    forall b | b in st'.bookmarks
      ensures b.url != "" && b.title != ""
      ensures b.folderId == "" || exists k :: 0 <= k < |st.folders| && st.folders[k].0 == b.folderId
    {
      assert b in st.bookmarks || b == nb;
    }
  }

  lemma {:induction false} ScanBookmarksFiled(ts: seq<Token>)
    ensures BookmarksFiled(Scan(ts))
  {
    if ts != [] {
      var p := ts[..|ts| - 1];
      ScanBookmarksFiled(p);
      ScanFolders(p);
      StepKeepsBookmarksFiled(Scan(p), Headings(p), ts[|ts| - 1]);
    }
  }

  /** Every parsed bookmark has a non-empty url and title, and is uncategorized or filed in a parsed folder. */
  lemma ParsedBookmarksWellFormed(ts: seq<Token>)
    ensures var p := ParseNetscape(ts);
      forall b :: b in p.bookmarks ==>
        && b.url != "" && b.title != ""
        && (b.folderId == "" || exists k :: 0 <= k < |p.folders| && p.folders[k].0 == b.folderId)
  {
    ScanBookmarksFiled(ts);
  }

  /** The k-th parsed folder (from 0) has id `imported_(k+1)`. */
  lemma ParsedFolderIds(ts: seq<Token>)
    ensures var fs := ParseNetscape(ts).folders;
      forall k :: 0 <= k < |fs| ==> fs[k].0 == ImportedId(k + 1)
  {
    ScanFolders(ts);
  }

  /** The parsed folder ids are pairwise distinct. */
  lemma ParsedFolderIdsDistinct(ts: seq<Token>)
    ensures var fs := ParseNetscape(ts).folders;
      forall j, k :: 0 <= j < k < |fs| ==> fs[j].0 != fs[k].0
  {
    ParsedFolderIds(ts);
    var fs := ParseNetscape(ts).folders;
    forall j, k | 0 <= j < k < |fs|
      ensures fs[j].0 != fs[k].0
    {
      ImportedIdsDiffer(j + 1, k + 1);
    }
  }

  /** When every heading has text (the regular expression requires it), the folder count is the heading count. */
  lemma {:induction false} FolderCountIsHeadingCount(ts: seq<Token>)
    requires forall k :: 0 <= k < |ts| && ts[k].Heading? ==> ts[k].text != ""
    ensures |ParseNetscape(ts).folders| == |Filter(ts, IsHeading)|
  {
    ScanFolders(ts);
    HeadingsCount(ts);
  }

  lemma {:induction false} HeadingsCount(ts: seq<Token>)
    requires forall k :: 0 <= k < |ts| && ts[k].Heading? ==> ts[k].text != ""
    ensures |Headings(ts)| == |Filter(ts, IsHeading)|
  {
    if ts != [] {
      var p, t := ts[..|ts| - 1], ts[|ts| - 1];
      assert forall k :: 0 <= k < |p| ==> p[k] == ts[k];
      HeadingsCount(p);
      assert t.Heading? ==> t.text != "";
      FilterLast(ts, IsHeading);
    }
  }

  // ---------------------------------------------------------------------------
  // generateNetscapeHtml

  /** The fixed lines every exported file starts with. */
  const Header: string :=
    "<!DOCTYPE NETSCAPE-Bookmark-file-1>\n"
    + "<!-- This is an automatically generated file.\n"
    + "     It will be read and overwritten.\n"
    + "     DO NOT EDIT! -->\n"
    + "<META HTTP-EQUIV=\"Content-Type\" CONTENT=\"text/html; charset=UTF-8\">\n"
    + "<TITLE>Bookmarks</TITLE>\n"
    + "<H1>Bookmarks</H1>\n"
    + "<DL><p>\n"

  /** The line that closes the outermost list. */
  const Footer: string := "</DL><p>\n"

  /** Whether some folder has the id `id`. */
  predicate HasFolderId(folders: seq<Folder>, id: string) {
    exists k :: 0 <= k < |folders| && folders[k].id == id
  }

  /** The keys of `bookmarksByFolder`: `''` and every folder id. */
  predicate IsBucketKey(folders: seq<Folder>, id: string) {
    id == "" || HasFolderId(folders, id)
  }

  /** The bucket a bookmark is pushed to: its folder's when that is a key, else `''`. */
  function BucketKeyOf(folders: seq<Folder>, b: Bookmark): (k: string)
    ensures IsBucketKey(folders, k)
    ensures IsBucketKey(folders, b.folderId) ==> k == b.folderId
    ensures !IsBucketKey(folders, b.folderId) ==> k == ""
  {
    if IsBucketKey(folders, b.folderId) then b.folderId else ""
  }

  /** `bookmarksByFolder.get(key) || []` once every bookmark has been pushed. */
  function Bucket(bookmarks: seq<Bookmark>, folders: seq<Folder>, key: string): seq<Bookmark> {
    Filter(bookmarks, (b: Bookmark) => BucketKeyOf(folders, b) == key)
  }

  /** The folders rendered at the top level, with the filter as written. */
  function RootFolders(folders: seq<Folder>): seq<Folder> {
    Filter(folders, (f: Folder) => f.id == "" || !HasFolderId(folders, f.id))
  }

  /** Whether a folder with id `id` is named `name`. */
  predicate SomeFolderNamed(folders: seq<Folder>, id: string, name: string) {
    exists k :: 0 <= k < |folders| && folders[k].id == id && folders[k].name == name
  }

  /** The folders rendered inside `root`, with the filter as written. */
  function SubFolders(folders: seq<Folder>, root: Folder): seq<Folder> {
    Filter(folders, (f: Folder) => f.id != root.id && SomeFolderNamed(folders, f.id, root.name))
  }

  function HeadingLine(indent: string, name: string, stamp: nat): string {
    indent + "<DT><H3 ADD_DATE=\"" + NatToString(stamp) + "\">" + EscapeHtml(name) + "</H3>\n"
  }

  function AnchorLine(indent: string, b: Bookmark, stamp: nat): string {
    indent + "<DT><A HREF=\"" + EscapeHtml(b.url) + "\" ADD_DATE=\"" + NatToString(stamp) + "\">"
      + EscapeHtml(b.title) + "</A>\n"
  }

  /** `html` followed by one anchor line per bookmark, in order. */
  function EmitAnchors(html: string, indent: string, bs: seq<Bookmark>, stamp: nat): string
    decreases |bs|
  {
    if bs == [] then html else EmitAnchors(html + AnchorLine(indent, bs[0], stamp), indent, bs[1..], stamp)
  }

  /** `html` followed by the section of one sub-folder. */
  function EmitSubFolder(html: string, buckets: map<string, seq<Bookmark>>, sub: Folder, stamp: nat): string {
    EmitAnchors(html + HeadingLine("        ", sub.name, stamp) + "        <DL><p>\n",
      "            ", Lookup(buckets, sub.id), stamp) + "        </DL><p>\n"
  }

  function EmitSubFolders(html: string, buckets: map<string, seq<Bookmark>>, subs: seq<Folder>, stamp: nat): string
    decreases |subs|
  {
    if subs == [] then html else EmitSubFolders(EmitSubFolder(html, buckets, subs[0], stamp), buckets, subs[1..], stamp)
  }

  /** `html` followed by the section of one top-level folder: its sub-folders, then its own bookmarks. */
  function EmitFolder(html: string, buckets: map<string, seq<Bookmark>>, folders: seq<Folder>, root: Folder, stamp: nat): string {
    var started := html + HeadingLine("    ", root.name, stamp) + "    <DL><p>\n";
    EmitAnchors(EmitSubFolders(started, buckets, SubFolders(folders, root), stamp),
      "        ", Lookup(buckets, root.id), stamp) + "    </DL><p>\n"
  }

  function EmitFolders(html: string, buckets: map<string, seq<Bookmark>>, folders: seq<Folder>, roots: seq<Folder>, stamp: nat): string
    decreases |roots|
  {
    if roots == [] then html else EmitFolders(EmitFolder(html, buckets, folders, roots[0], stamp), buckets, folders, roots[1..], stamp)
  }

  /** `bookmarksByFolder.get(key) || []` */
  function Lookup(buckets: map<string, seq<Bookmark>>, key: string): seq<Bookmark> {
    if key in buckets then buckets[key] else []
  }

  /** The keys of `bookmarksByFolder`. */
  function BucketKeys(folders: seq<Folder>): set<string> {
    {""} + set k | 0 <= k < |folders| :: folders[k].id
  }

  lemma BucketKeysAreKeys(folders: seq<Folder>, key: string)
    ensures key in BucketKeys(folders) <==> IsBucketKey(folders, key)
  {
    if HasFolderId(folders, key) {
      var k :| 0 <= k < |folders| && folders[k].id == key;
      assert key in set k | 0 <= k < |folders| :: folders[k].id;
    }
  }

  /** `bookmarksByFolder` once every bookmark has been pushed. */
  function BucketMap(bookmarks: seq<Bookmark>, folders: seq<Folder>): map<string, seq<Bookmark>> {
    map key | key in BucketKeys(folders) :: Bucket(bookmarks, folders, key)
  }

  /** The exported document: header, folder sections, uncategorized anchors, footer. */
  function NetscapeHtml(bookmarks: seq<Bookmark>, folders: seq<Folder>, stamp: nat): string {
    var buckets := BucketMap(bookmarks, folders);
    EmitAnchors(EmitFolders(Header, buckets, folders, RootFolders(folders), stamp), "    ", Lookup(buckets, ""), stamp)
      + Footer
  }

  /** What each bucket holds: `get(key) || []` is the bookmarks pushed to `key`. */
  lemma BucketMapLookup(bookmarks: seq<Bookmark>, folders: seq<Folder>, key: string)
    ensures Lookup(BucketMap(bookmarks, folders), key) == Bucket(bookmarks, folders, key)
  {
    BucketKeysAreKeys(folders, key);
    if !IsBucketKey(folders, key) {
      BucketOfNonKeyIsEmpty(bookmarks, folders, key);
    }
  }

  /** The bucket map holds exactly the keys `''` and the folder ids, each with its bucket. */
  ghost predicate BucketsFilled(buckets: map<string, seq<Bookmark>>, bookmarks: seq<Bookmark>, folders: seq<Folder>) {
    forall key :: Lookup(buckets, key) == Bucket(bookmarks, folders, key)
  }

  lemma BucketOfNonKeyIsEmpty(bookmarks: seq<Bookmark>, folders: seq<Folder>, key: string)
    requires !IsBucketKey(folders, key)
    ensures Bucket(bookmarks, folders, key) == []
  {
    forall i | 0 <= i < |bookmarks|
      ensures BucketKeyOf(folders, bookmarks[i]) != key
    {
    }
    FilterNoneKept(bookmarks, (b: Bookmark) => BucketKeyOf(folders, b) == key);
  }

  /** The first half of filling `bookmarksByFolder`: an empty bucket for `''` and for every folder id. */
  method EmptyBuckets(folders: seq<Folder>) returns (buckets: map<string, seq<Bookmark>>)
    ensures forall key :: key in buckets <==> IsBucketKey(folders, key)
    ensures forall key :: key in buckets ==> buckets[key] == []
  {
    buckets := map["" := []];
    var j := 0;
    while j < |folders|
      invariant 0 <= j <= |folders|
      invariant forall key :: key in buckets <==> key == "" || HasFolderId(folders[..j], key)
      invariant forall key :: key in buckets ==> buckets[key] == []
    {
      HasFolderIdSnoc(folders, j);
      buckets := buckets[folders[j].id := []];
      j := j + 1;
    }
    assert folders[..|folders|] == folders;
  }

  lemma HasFolderIdSnoc(folders: seq<Folder>, j: nat)
    requires j < |folders|
    ensures forall key :: HasFolderId(folders[..j + 1], key) <==> HasFolderId(folders[..j], key) || folders[j].id == key
  {
    forall key ensures HasFolderId(folders[..j + 1], key) <==> HasFolderId(folders[..j], key) || folders[j].id == key {
      if HasFolderId(folders[..j + 1], key) {
        var k :| 0 <= k < j + 1 && folders[..j + 1][k].id == key;
        if k < j {
          assert folders[..j][k].id == key;
        }
      }
      if HasFolderId(folders[..j], key) {
        var k :| 0 <= k < j && folders[..j][k].id == key;
        assert folders[..j + 1][k].id == key;
      }
      if folders[j].id == key {
        assert folders[..j + 1][j].id == key;
      }
    }
  }

  /** Pushing the next bookmark to its bucket keeps every bucket equal to its filter over the pushed prefix. */
  lemma PushKeepsBucketsFilled(prev: map<string, seq<Bookmark>>, bookmarks: seq<Bookmark>, folders: seq<Folder>, i: nat)
    requires i < |bookmarks|
    requires BucketsFilled(prev, bookmarks[..i], folders)
    requires forall key :: key in prev <==> IsBucketKey(folders, key)
    ensures var k := BucketKeyOf(folders, bookmarks[i]);
      BucketsFilled(prev[k := Lookup(prev, k) + [bookmarks[i]]], bookmarks[..i + 1], folders)
  {
    var b := bookmarks[i];
    var k := BucketKeyOf(folders, b);
    var next := prev[k := Lookup(prev, k) + [b]];
    assert bookmarks[..i + 1] == bookmarks[..i] + [b];
    forall key ensures Lookup(next, key) == Bucket(bookmarks[..i + 1], folders, key) {
      FilterSnoc(bookmarks[..i], b, (c: Bookmark) => BucketKeyOf(folders, c) == key);
      assert Lookup(prev, key) == Bucket(bookmarks[..i], folders, key);
    }
  }

  /** A bucket map that is filled and has exactly the bucket keys is `BucketMap`. */
  lemma FilledIsBucketMap(buckets: map<string, seq<Bookmark>>, bookmarks: seq<Bookmark>, folders: seq<Folder>)
    requires BucketsFilled(buckets, bookmarks, folders)
    requires forall key :: key in buckets <==> IsBucketKey(folders, key)
    ensures buckets == BucketMap(bookmarks, folders)
  {
    forall key ensures key in buckets <==> key in BucketMap(bookmarks, folders) {
      BucketKeysAreKeys(folders, key);
    }
    forall key | key in buckets ensures buckets[key] == BucketMap(bookmarks, folders)[key] {
      BucketMapLookup(bookmarks, folders, key);
      assert Lookup(buckets, key) == Bucket(bookmarks, folders, key);
    }
  }

  /** The keys of the bucket map are `''` and the folder ids. */
  ghost predicate HasBucketKeys(buckets: map<string, seq<Bookmark>>, folders: seq<Folder>) {
    forall key :: key in buckets <==> IsBucketKey(folders, key)
  }

  /** Pushing to the bucket of a bookmark keeps the keys, and is what the two branches of the push do. */
  lemma PushKeepsBucketKeys(prev: map<string, seq<Bookmark>>, folders: seq<Folder>, b: Bookmark)
    requires HasBucketKeys(prev, folders)
    ensures var k := BucketKeyOf(folders, b);
      && HasBucketKeys(prev[k := Lookup(prev, k) + [b]], folders)
      && (b.folderId in prev ==> k == b.folderId)
      && (b.folderId !in prev ==> k == "" && "" in prev)
  {
  }

  /** Empty buckets for exactly the bucket keys are the buckets of no bookmark. */
  lemma EmptyBucketsAreBucketMap(buckets: map<string, seq<Bookmark>>, folders: seq<Folder>)
    requires HasBucketKeys(buckets, folders)
    requires forall key :: key in buckets ==> buckets[key] == []
    ensures buckets == BucketMap([], folders)
  {
    FilledIsBucketMap(buckets, [], folders);
  }

  /** `bookmarksByFolder.get(k).push(b)` for the bucket key `k` of `b`. */
  function Push(buckets: map<string, seq<Bookmark>>, folders: seq<Folder>, b: Bookmark): map<string, seq<Bookmark>> {
    var k := BucketKeyOf(folders, b);
    buckets[k := Lookup(buckets, k) + [b]]
  }

  /** The buckets after pushing every bookmark of `bs`, in order, starting from `start`. */
  function PushAll(start: map<string, seq<Bookmark>>, folders: seq<Folder>, bs: seq<Bookmark>): map<string, seq<Bookmark>>
    decreases |bs|
  {
    if bs == [] then start else Push(PushAll(start, folders, bs[..|bs| - 1]), folders, bs[|bs| - 1])
  }

  /** The two branches of the push in `forEach` are `Push`, given the bucket keys. */
  lemma PushBranches(buckets: map<string, seq<Bookmark>>, folders: seq<Folder>, b: Bookmark)
    requires HasBucketKeys(buckets, folders)
    ensures HasBucketKeys(Push(buckets, folders, b), folders)
    ensures b.folderId in buckets ==> Push(buckets, folders, b) == buckets[b.folderId := buckets[b.folderId] + [b]]
    ensures b.folderId !in buckets ==> "" in buckets && Push(buckets, folders, b) == buckets["" := buckets[""] + [b]]
  {
    PushKeepsBucketKeys(buckets, folders, b);
  }

  /** Pushing every bookmark to empty buckets for exactly the bucket keys gives the bucket map. */
  lemma {:induction false} PushAllIsBucketMap(start: map<string, seq<Bookmark>>, folders: seq<Folder>, bs: seq<Bookmark>)
    requires HasBucketKeys(start, folders)
    requires forall key :: key in start ==> start[key] == []
    ensures PushAll(start, folders, bs) == BucketMap(bs, folders)
    decreases |bs|
  {
    if bs == [] {
      EmptyBucketsAreBucketMap(start, folders);
    } else {
      var i := |bs| - 1;
      PushAllIsBucketMap(start, folders, bs[..i]);
      var prev := BucketMap(bs[..i], folders);
      forall key ensures key in prev <==> IsBucketKey(folders, key) {
        BucketKeysAreKeys(folders, key);
      }
      forall key ensures Lookup(prev, key) == Bucket(bs[..i], folders, key) {
        BucketMapLookup(bs[..i], folders, key);
      }
      PushKeepsBucketsFilled(prev, bs, folders, i);
      PushKeepsBucketKeys(prev, folders, bs[i]);
      assert bs[..i + 1] == bs;
      FilledIsBucketMap(Push(prev, folders, bs[i]), bs, folders);
    }
  }

  /** Filling `bookmarksByFolder` (lines 79-90). */
  method FillBuckets(bookmarks: seq<Bookmark>, folders: seq<Folder>) returns (buckets: map<string, seq<Bookmark>>)
    ensures buckets == BucketMap(bookmarks, folders)
  {
    buckets := EmptyBuckets(folders);
    ghost var start := buckets;
    var i := 0;
    while i < |bookmarks|
      invariant 0 <= i <= |bookmarks|
      invariant HasBucketKeys(buckets, folders)
      invariant buckets == PushAll(start, folders, bookmarks[..i])
    {
      var b := bookmarks[i];
      PushBranches(buckets, folders, b);
      if b.folderId in buckets {
        buckets := buckets[b.folderId := buckets[b.folderId] + [b]];
      } else {
        buckets := buckets["" := buckets[""] + [b]];
      }
      assert bookmarks[..i + 1][..i] == bookmarks[..i];
      i := i + 1;
    }
    assert bookmarks[..|bookmarks|] == bookmarks;
    PushAllIsBucketMap(start, folders, bookmarks);
  }

  /** The `forEach` that appends one anchor line per bookmark. */
  method AppendAnchors(html: string, indent: string, bs: seq<Bookmark>, stamp: nat) returns (out: string)
    ensures out == EmitAnchors(html, indent, bs, stamp)
  {
    out := html;
    var i := 0;
    while i < |bs|
      invariant 0 <= i <= |bs|
      invariant EmitAnchors(out, indent, bs[i..], stamp) == EmitAnchors(html, indent, bs, stamp)
    {
      assert bs[i..][1..] == bs[i + 1..];
      out := out + AnchorLine(indent, bs[i], stamp);
      i := i + 1;
    }
  }

  /** The `forEach` over the sub-folders of one top-level folder (lines 98-109). */
  method AppendSubFolders(html: string, buckets: map<string, seq<Bookmark>>, subs: seq<Folder>, stamp: nat)
    returns (out: string)
    ensures out == EmitSubFolders(html, buckets, subs, stamp)
  {
    out := html;
    var i := 0;
    while i < |subs|
      invariant 0 <= i <= |subs|
      invariant EmitSubFolders(out, buckets, subs[i..], stamp) == EmitSubFolders(html, buckets, subs, stamp)
    {
      assert subs[i..][1..] == subs[i + 1..];
      var sub := subs[i];
      out := out + HeadingLine("        ", sub.name, stamp);
      out := out + "        <DL><p>\n";
      out := AppendAnchors(out, "            ", Lookup(buckets, sub.id), stamp);
      out := out + "        </DL><p>\n";
      i := i + 1;
    }
  }

  /** `generateNetscapeHtml`, with the export time in whole seconds as `stamp`. */
  method GenerateNetscapeHtml(bookmarks: seq<Bookmark>, folders: seq<Folder>, stamp: nat) returns (html: string)
    ensures html == NetscapeHtml(bookmarks, folders, stamp)
  {
    html := Header;
    var buckets := FillBuckets(bookmarks, folders);
    var roots := RootFolders(folders);
    var i := 0;
    while i < |roots|
      invariant 0 <= i <= |roots|
      invariant EmitFolders(html, buckets, folders, roots[i..], stamp) == EmitFolders(Header, buckets, folders, roots, stamp)
    {
      assert roots[i..][1..] == roots[i + 1..];
      var folder := roots[i];
      html := html + HeadingLine("    ", folder.name, stamp);
      html := html + "    <DL><p>\n";
      html := AppendSubFolders(html, buckets, SubFolders(folders, folder), stamp);
      html := AppendAnchors(html, "        ", Lookup(buckets, folder.id), stamp);
      html := html + "    </DL><p>\n";
      i := i + 1;
    }
    html := AppendAnchors(html, "    ", Lookup(buckets, ""), stamp);
    html := html + Footer;
  }

  /** Every folder matches itself at the root filter, so only folders with an empty id are rendered at the top. */
  lemma RootFoldersHaveEmptyId(folders: seq<Folder>)
    ensures RootFolders(folders) == Filter(folders, (f: Folder) => f.id == "")
  {
    forall i | 0 <= i < |folders|
      ensures (folders[i].id == "" || !HasFolderId(folders, folders[i].id)) == (folders[i].id == "")
    {
      assert folders[i].id == folders[i].id;
    }
    FilterCongruent(folders, (f: Folder) => f.id == "" || !HasFolderId(folders, f.id), (f: Folder) => f.id == "");
  }

  lemma ConcatAssoc(a: string, b: string, c: string)
    ensures a + b + c == a + (b + c)
  {
  }

  /** Emitting anchors appends the text they render on their own. */
  lemma {:induction false} EmitAnchorsAppends(html: string, indent: string, bs: seq<Bookmark>, stamp: nat)
    ensures EmitAnchors(html, indent, bs, stamp) == html + EmitAnchors("", indent, bs, stamp)
    decreases |bs|
  {
    if bs != [] {
      var line := AnchorLine(indent, bs[0], stamp);
      EmitAnchorsAppends(html + line, indent, bs[1..], stamp);
      EmitAnchorsAppends("" + line, indent, bs[1..], stamp);
      assert "" + line == line;
      ConcatAssoc(html, line, EmitAnchors("", indent, bs[1..], stamp));
    } else {
      assert html + "" == html;
    }
  }

  lemma PrefixTrans(a: string, b: string, c: string)
    requires a <= b && b <= c
    ensures a <= c
  {
    assert c[..|a|] == b[..|a|];
  }

  lemma PrefixOfConcat(a: string, b: string)
    ensures a <= a + b
  {
    assert (a + b)[..|a|] == a;
  }

  lemma {:induction false} EmitAnchorsExtends(html: string, indent: string, bs: seq<Bookmark>, stamp: nat)
    ensures html <= EmitAnchors(html, indent, bs, stamp)
  {
    EmitAnchorsAppends(html, indent, bs, stamp);
    PrefixOfConcat(html, EmitAnchors("", indent, bs, stamp));
  }

  lemma {:induction false} EmitSubFoldersExtends(html: string, buckets: map<string, seq<Bookmark>>, subs: seq<Folder>, stamp: nat)
    ensures html <= EmitSubFolders(html, buckets, subs, stamp)
    decreases |subs|
  {
    if subs != [] {
      var sub := subs[0];
      var started := html + HeadingLine("        ", sub.name, stamp) + "        <DL><p>\n";
      var mid := EmitAnchors(started, "            ", Lookup(buckets, sub.id), stamp);
      var next := EmitSubFolder(html, buckets, sub, stamp);
      PrefixOfConcat(html, HeadingLine("        ", sub.name, stamp));
      PrefixOfConcat(html + HeadingLine("        ", sub.name, stamp), "        <DL><p>\n");
      PrefixTrans(html, html + HeadingLine("        ", sub.name, stamp), started);
      EmitAnchorsExtends(started, "            ", Lookup(buckets, sub.id), stamp);
      PrefixTrans(html, started, mid);
      PrefixOfConcat(mid, "        </DL><p>\n");
      PrefixTrans(html, mid, next);
      EmitSubFoldersExtends(next, buckets, subs[1..], stamp);
      PrefixTrans(html, next, EmitSubFolders(next, buckets, subs[1..], stamp));
    }
  }

  lemma {:induction false} EmitFoldersExtends(html: string, buckets: map<string, seq<Bookmark>>, folders: seq<Folder>,
                                              roots: seq<Folder>, stamp: nat)
    ensures html <= EmitFolders(html, buckets, folders, roots, stamp)
    decreases |roots|
  {
    if roots != [] {
      var root := roots[0];
      var started := html + HeadingLine("    ", root.name, stamp) + "    <DL><p>\n";
      var subs := EmitSubFolders(started, buckets, SubFolders(folders, root), stamp);
      var own := EmitAnchors(subs, "        ", Lookup(buckets, root.id), stamp);
      var next := EmitFolder(html, buckets, folders, root, stamp);
      PrefixOfConcat(html, HeadingLine("    ", root.name, stamp));
      PrefixOfConcat(html + HeadingLine("    ", root.name, stamp), "    <DL><p>\n");
      PrefixTrans(html, html + HeadingLine("    ", root.name, stamp), started);
      EmitSubFoldersExtends(started, buckets, SubFolders(folders, root), stamp);
      PrefixTrans(html, started, subs);
      EmitAnchorsExtends(subs, "        ", Lookup(buckets, root.id), stamp);
      PrefixTrans(html, subs, own);
      PrefixOfConcat(own, "    </DL><p>\n");
      PrefixTrans(html, own, next);
      EmitFoldersExtends(next, buckets, folders, roots[1..], stamp);
      PrefixTrans(html, next, EmitFolders(next, buckets, folders, roots[1..], stamp));
    }
  }

  /** The export always starts with the fixed header and ends with `</DL><p>\n`. */
  lemma NetscapeHtmlFraming(bookmarks: seq<Bookmark>, folders: seq<Folder>, stamp: nat)
    ensures Header <= NetscapeHtml(bookmarks, folders, stamp)
    ensures var html := NetscapeHtml(bookmarks, folders, stamp);
      |html| >= |Header| + |Footer| && html[|html| - |Footer|..] == Footer
  {
    var buckets := BucketMap(bookmarks, folders);
    var folderPart := EmitFolders(Header, buckets, folders, RootFolders(folders), stamp);
    var body := EmitAnchors(folderPart, "    ", Lookup(buckets, ""), stamp);
    EmitFoldersExtends(Header, buckets, folders, RootFolders(folders), stamp);
    EmitAnchorsExtends(folderPart, "    ", Lookup(buckets, ""), stamp);
    PrefixTrans(Header, folderPart, body);
    PrefixOfConcat(body, Footer);
    PrefixTrans(Header, body, body + Footer);
    assert (body + Footer)[|body|..] == Footer;
  }

  /** The anchor line of every listed bookmark occurs in the text they render. */
  lemma {:induction false} EmitAnchorsContains(indent: string, bs: seq<Bookmark>, i: nat, stamp: nat)
    requires i < |bs|
    ensures Contains(EmitAnchors("", indent, bs, stamp), AnchorLine(indent, bs[i], stamp))
    decreases |bs|
  {
    var line := AnchorLine(indent, bs[0], stamp);
    var rest := EmitAnchors("", indent, bs[1..], stamp);
    EmitAnchorsAppends("" + line, indent, bs[1..], stamp);
    assert "" + line == line;
    assert EmitAnchors("", indent, bs, stamp) == line + rest;
    if i == 0 {
      ContainsHead(line, rest);
    } else {
      EmitAnchorsContains(indent, bs[1..], i - 1, stamp);
      assert bs[1..][i - 1] == bs[i];
      ContainsInTail(line, rest, AnchorLine(indent, bs[i], stamp));
    }
  }

  lemma ContainsHead(a: string, b: string)
    ensures Contains(a + b, a)
  {
    assert a <= (a + b)[0..];
  }

  lemma ContainsInTail(a: string, b: string, x: string)
    requires Contains(b, x)
    ensures Contains(a + b, x)
  {
    var k :| 0 <= k <= |b| - |x| && x <= b[k..];
    assert (a + b)[|a| + k..] == b[k..];
  }

  /**
   * A bookmark whose folder id names no folder is rendered in the uncategorized
   * section, which comes after every folder section and before the footer.
   */
  lemma UnfiledBookmarkIsUncategorized(bookmarks: seq<Bookmark>, folders: seq<Folder>, i: nat, stamp: nat)
    requires i < |bookmarks| && !HasFolderId(folders, bookmarks[i].folderId)
    ensures bookmarks[i] in Bucket(bookmarks, folders, "")
    ensures var uncategorized := EmitAnchors("", "    ", Bucket(bookmarks, folders, ""), stamp);
      && NetscapeHtml(bookmarks, folders, stamp)
           == EmitFolders(Header, BucketMap(bookmarks, folders), folders, RootFolders(folders), stamp) + uncategorized + Footer
      && Contains(uncategorized, AnchorLine("    ", bookmarks[i], stamp))
  {
    var u := Bucket(bookmarks, folders, "");
    BucketMapLookup(bookmarks, folders, "");
    assert BucketKeyOf(folders, bookmarks[i]) == "";
    FilterMember(bookmarks, (b: Bookmark) => BucketKeyOf(folders, b) == "", bookmarks[i]);
    var j :| 0 <= j < |u| && u[j] == bookmarks[i];
    EmitAnchorsContains("    ", u, j, stamp);
    EmitAnchorsAppends(EmitFolders(Header, BucketMap(bookmarks, folders), folders, RootFolders(folders), stamp), "    ", u, stamp);
  }

  /**
   * With no folder of empty id (every stored folder has a generated id), no
   * folder section is written and only the uncategorized bookmarks appear:
   * bookmarks filed in a folder are bucketed but never rendered.
   */
  lemma ExportWithoutRootFolders(bookmarks: seq<Bookmark>, folders: seq<Folder>, stamp: nat)
    requires forall k :: 0 <= k < |folders| ==> folders[k].id != ""
    ensures NetscapeHtml(bookmarks, folders, stamp)
      == Header + EmitAnchors("", "    ", Filter(bookmarks, (b: Bookmark) => !HasFolderId(folders, b.folderId)), stamp) + Footer
  {
    RootFoldersHaveEmptyId(folders);
    FilterNoneKept(folders, (f: Folder) => f.id == "");
    forall i | 0 <= i < |bookmarks|
      ensures (BucketKeyOf(folders, bookmarks[i]) == "") == !HasFolderId(folders, bookmarks[i].folderId)
    {
      assert !HasFolderId(folders, "");
    }
    FilterCongruent(bookmarks, (b: Bookmark) => BucketKeyOf(folders, b) == "",
      (b: Bookmark) => !HasFolderId(folders, b.folderId));
    BucketMapLookup(bookmarks, folders, "");
    EmitAnchorsAppends(Header, "    ", Bucket(bookmarks, folders, ""), stamp);
  }
}
