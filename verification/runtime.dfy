/**
 The parts of the .NET base library that the converter calls but whose tables are
 not part of this model: the Unicode character classes (`char.IsWhiteSpace`,
 `char.IsLetter`, `char.IsDigit`, `char.IsLetterOrDigit`), invariant upper-casing
 (`char.ToUpperInvariant`) and entity decoding (`WebUtility.HtmlDecode`).

 They are threaded through the model as one record of functions, and `Axioms`
 states the only facts about them that the proofs rely on.
 */
module Runtime {

  datatype Library = Library(
    isWhiteSpace: char -> bool,
    isLetter: char -> bool,
    isDigit: char -> bool,
    isLetterOrDigit: char -> bool,
    toUpper: char -> char,
    htmlDecode: seq<char> -> seq<char>)

  /** A character that is neither whitespace nor a letter or digit. */
  ghost predicate Neutral(rt: Library, c: char) {
    && !rt.isWhiteSpace(c)
    && !rt.isLetter(c)
    && !rt.isDigit(c)
    && !rt.isLetterOrDigit(c)
  }

  /** What the Unicode tables of .NET guarantee and the proofs use. */
  ghost predicate Axioms(rt: Library) {
    && rt.isWhiteSpace(' ')
    && rt.isWhiteSpace('\t')
    && rt.isWhiteSpace('\r')
    && rt.isWhiteSpace('\n')
    && Neutral(rt, '<')
    && Neutral(rt, '>')
    && Neutral(rt, '/')
    && Neutral(rt, '&')
    && Neutral(rt, ';')
    && Neutral(rt, '"')
    && Neutral(rt, '\'')
    && Neutral(rt, '\0')
    && (forall c :: rt.isLetterOrDigit(c) ==> !rt.isWhiteSpace(c))
  }

  /** `string.TrimStart()`: drops the leading whitespace. */
  function TrimStart(rt: Library, s: seq<char>): (r: seq<char>)
    ensures |r| <= |s| && r == s[|s| - |r|..]
    ensures forall k :: 0 <= k < |s| - |r| ==> rt.isWhiteSpace(s[k])
    ensures |r| == 0 || !rt.isWhiteSpace(r[0])
  {
    if |s| == 0 || !rt.isWhiteSpace(s[0]) then s else TrimStart(rt, s[1..])
  }

  /** `TrimStart('\r', '\n')`: drops the leading carriage returns and line feeds. */
  function TrimStartLineBreaks(s: seq<char>): (r: seq<char>)
    ensures |r| <= |s| && r == s[|s| - |r|..]
    ensures forall k :: 0 <= k < |s| - |r| ==> s[k] == '\r' || s[k] == '\n'
    ensures |r| == 0 || (r[0] != '\r' && r[0] != '\n')
  {
    if |s| == 0 || (s[0] != '\r' && s[0] != '\n') then s else TrimStartLineBreaks(s[1..])
  }

  /** `string.IsNullOrWhiteSpace` on a non-null string. */
  predicate IsNullOrWhiteSpace(rt: Library, s: seq<char>) {
    forall k :: 0 <= k < |s| ==> rt.isWhiteSpace(s[k])
  }

  /** The first index at or after `i` whose character is not whitespace, or |s|. */
  function FirstNonWhiteSpace(rt: Library, s: seq<char>, i: nat): (f: nat)
    requires i <= |s|
    ensures i <= f <= |s|
    ensures forall k :: i <= k < f ==> rt.isWhiteSpace(s[k])
    ensures f < |s| ==> !rt.isWhiteSpace(s[f])
    decreases |s| - i
  {
    if i == |s| || !rt.isWhiteSpace(s[i]) then i else FirstNonWhiteSpace(rt, s, i + 1)
  }

  /** `n` tab characters, as `StringBuilder.Append('\t', n)` writes them. */
  function Tabs(n: nat): (r: seq<char>)
    ensures |r| == n && forall k :: 0 <= k < n ==> r[k] == '\t'
  {
    seq(n, _ => '\t')
  }

  // A concrete library that agrees with .NET on ASCII; every other character
  // is treated as neither whitespace nor a letter or digit, and is its own
  // upper case.  It exists to state concrete scenarios.

  predicate AsciiIsWhiteSpace(c: char) {
    c == ' ' || ('\t' <= c <= '\r')
  }

  predicate AsciiIsLetter(c: char) {
    ('a' <= c <= 'z') || ('A' <= c <= 'Z')
  }

  predicate AsciiIsDigit(c: char) {
    '0' <= c <= '9'
  }

  predicate AsciiIsLetterOrDigit(c: char) {
    AsciiIsLetter(c) || AsciiIsDigit(c)
  }

  function AsciiToUpper(c: char): char {
    if 'a' <= c <= 'z' then (c as int - 32) as char else c
  }

  function Ascii(decode: seq<char> -> seq<char>): (rt: Library)
    ensures Axioms(rt)
    ensures rt.htmlDecode == decode
  {
    Library(AsciiIsWhiteSpace, AsciiIsLetter, AsciiIsDigit, AsciiIsLetterOrDigit, AsciiToUpper, decode)
  }
}
