/**
 * Search-term highlighting in the renderer: `escapeRegExp` and the guard of
 * `highlightText`. The regular-expression engine that then marks every
 * case-insensitive occurrence is not modelled; it is the parameter `markAll`,
 * given the text and the source of the pattern.
 */
module Highlight {
  import opened Text

  /** The characters of the class `[.*+?^${}()|[\]\\]`. */
  const MetaChars: set<char> := {'.', '*', '+', '?', '^', '$', '{', '}', '(', ')', '|', '[', ']', '\\'}

  /** `s.replace(/[.*+?^${}()|[\]\\]/g, '\\$&')`: a backslash before every metacharacter. */
  function EscapeRegExp(s: string): (r: string)
    ensures |r| >= |s|
  {
    if s == [] then []
    else (if s[0] in MetaChars then ['\\', s[0]] else [s[0]]) + EscapeRegExp(s[1..])
  }

  /** The number of metacharacters in `s`. */
  function MetaCount(s: string): nat {
    if s == [] then 0 else (if s[0] in MetaChars then 1 else 0) + MetaCount(s[1..])
  }

  /** Reads an escaped pattern back: a backslash stands for the character after it. */
  function UnescapeRegExp(t: string): string {
    if t == [] then []
    else if t[0] == '\\' && |t| >= 2 then [t[1]] + UnescapeRegExp(t[2..])
    else [t[0]] + UnescapeRegExp(t[1..])
  }

  /** The escaped string is one character longer for each metacharacter. */
  lemma {:induction false} EscapeLength(s: string)
    ensures |EscapeRegExp(s)| == |s| + MetaCount(s)
  {
    if s != [] {
      EscapeLength(s[1..]);
    }
  }

  /** A string without metacharacters is its own escape. */
  lemma {:induction false} EscapeIdentity(s: string)
    requires forall i :: 0 <= i < |s| ==> s[i] !in MetaChars
    ensures EscapeRegExp(s) == s
  {
    if s != [] {
      EscapeIdentity(s[1..]);
      assert s == [s[0]] + s[1..];
    }
  }

  /** Escaping works character by character: the escape of a concatenation is the concatenation of the escapes. */
  lemma {:induction false} EscapeConcat(a: string, b: string)
    ensures EscapeRegExp(a + b) == EscapeRegExp(a) + EscapeRegExp(b)
  {
    if a == [] {
      assert a + b == b;
    } else {
      assert (a + b)[0] == a[0] && (a + b)[1..] == a[1..] + b;
      EscapeConcat(a[1..], b);
    }
  }

  /** One character: a metacharacter gains a backslash, any other is kept as it is. */
  lemma EscapeChar(c: char)
    ensures c in MetaChars ==> EscapeRegExp([c]) == ['\\', c]
    ensures c !in MetaChars ==> EscapeRegExp([c]) == [c]
  {
    assert [c][1..] == [];
  }

  /**
   * Escaping loses nothing: reading the escaped pattern back gives the
   * query, so the pattern matches the query's characters literally.
   */
  lemma {:induction false} UnescapeEscape(s: string)
    ensures UnescapeRegExp(EscapeRegExp(s)) == s
  {
    if s != [] {
      UnescapeEscape(s[1..]);
      var rest := EscapeRegExp(s[1..]);
      if s[0] in MetaChars {
        var t := ['\\', s[0]] + rest;
        assert t[0] == '\\' && t[1] == s[0] && t[2..] == rest;
      } else {
        var t := [s[0]] + rest;
        assert s[0] != '\\';
        assert t[0] == s[0] && t[1..] == rest;
      }
      assert s == [s[0]] + s[1..];
    }
  }

  /**
   * `highlightText(text, query)`: the text itself when the query is blank
   * or the text is empty; otherwise every match of `(<escaped query>)` with
   * the `gi` flags is wrapped in `<mark>`, which `markAll` stands for.
   */
  function HighlightText(text: string, query: string, markAll: (string, string) -> string): (r: string)
    ensures IsBlank(query) || text == "" ==> r == text
    ensures !IsBlank(query) && text != "" ==> r == markAll(text, "(" + EscapeRegExp(query) + ")")
  {
    if Trim(query) == "" || text == "" then text
    else markAll(text, "(" + EscapeRegExp(query) + ")")
  }
}
