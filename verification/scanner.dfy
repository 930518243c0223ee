/**
 The tokenizer (`Scanner.ScanNextToken`): one step from a cursor to the next
 token and the cursor after it.  Text runs, entities and open, close and
 self-closing tags come out as index ranges over the source, each stamped with
 an element kind and the running block level; the bodies of `<script>` and
 `<style>` are stepped over and belong to no token.
 */
module Scanner {
  import opened Runtime
  import opened Html
  import opened SourceScan
  import opened TagParser

  /** The token covering [startIndex, pos), stamped with the current block level. */
  function CreateToken(tokenType: TokenType, kind: HtmlElementType, c: Cursor): (t: Token)
    requires Valid(c) && c.startIndex <= c.pos
    ensures SpanIn(t, c.src) && t.start == c.startIndex && t.start + t.length == c.pos
    ensures t.tokenType == tokenType && t.kind == kind && t.level == c.blockLevel
  {
    Token(tokenType, kind, c.blockLevel, c.startIndex, c.pos - c.startIndex)
  }

  /** How a token moves the block level: a valid open tag raises it, a valid close tag lowers it. */
  function LevelChange(t: Token): int {
    if t.kind == Invalid then 0
    else if t.tokenType == HtmlOpenTag then 1
    else if t.tokenType == HtmlCloseTag then -1
    else 0
  }

  /** `AdjustBlockLevel`: the level to stamp on the token and the block level after it. */
  function AdjustBlockLevel(level: int, kind: HtmlElementType, tokenType: TokenType): (r: (int, int))
    ensures r.1 == level + LevelChange(Token(tokenType, kind, 0, 0, 0))
    ensures r.0 == (if kind != Invalid && tokenType == HtmlCloseTag then r.1 else level)
  {
    if kind == Invalid then (level, level)
    else match tokenType
      case HtmlOpenTag => (level, level + 1)
      case HtmlCloseTag => (level - 1, level - 1)
      case _ => (level, level)
  }

  /** A valid open tag and the close tag after it are stamped alike and leave the level where it was. */
  lemma OpenCloseBalance(level: int, kind: HtmlElementType)
    requires kind != Invalid
    ensures var (openLevel, inside) := AdjustBlockLevel(level, kind, HtmlOpenTag);
            var (closeLevel, after) := AdjustBlockLevel(inside, kind, HtmlCloseTag);
            openLevel == closeLevel == after == level && inside == level + 1
  {
  }

  /** `AdvanceWhiteSpaces`: from `current`, keep advancing while the character in hand is whitespace. */
  function AdvanceWhiteSpaces(rt: Library, current: char, c: Cursor): (r: (char, Cursor))
    requires Axioms(rt) && Valid(c)
    ensures Valid(r.1) && Moved(c, r.1) && c.pos <= r.1.pos
    ensures !rt.isWhiteSpace(r.0)
    ensures !rt.isWhiteSpace(current) ==> r == (current, c)
    decreases |c.src| - c.pos, if rt.isWhiteSpace(current) then 1 else 0
  {
    if rt.isWhiteSpace(current) then
      var (next, c1) := Advance(c);
      AdvanceWhiteSpaces(rt, next, c1)
    else (current, c)
  }

  /** Advance past every character not in `stops`, up to the end of the source. */
  function SkipUntil(c: Cursor, stops: set<char>): (r: Cursor)
    requires Valid(c)
    ensures Valid(r) && Moved(c, r) && c.pos <= r.pos
    ensures forall k :: c.pos <= k < r.pos ==> c.src[k] !in stops
    ensures IsAtEnd(r) || c.src[r.pos] in stops
    decreases |c.src| - c.pos
  {
    if !IsAtEnd(c) && PeekNextUnsafe(c) !in stops then SkipUntil(Advance(c).1, stops) else c
  }

  // ---------------------------------------------------------------- entities

  datatype EntityScan = Emit(tokenType: TokenType, at: Cursor) | Continue(current: char, at: Cursor)

  /** The letters and digits that follow the first two characters of an entity. */
  datatype RunEnd = Semicolon(at: Cursor) | Stopped(current: char, at: Cursor)

  /** The loop that consumes letters and digits while the next character is one. */
  function AlnumRun(rt: Library, current: char, c: Cursor): (r: RunEnd)
    requires Axioms(rt) && Valid(c)
    requires rt.isLetterOrDigit(current)
    ensures r.Stopped?
    ensures Valid(r.at) && Moved(c, r.at) && c.pos <= r.at.pos
    ensures rt.isLetterOrDigit(r.current)
    ensures forall k :: c.pos <= k < r.at.pos ==> rt.isLetterOrDigit(c.src[k])
    ensures IsAtEnd(r.at) || !rt.isLetterOrDigit(c.src[r.at.pos])
    decreases |c.src| - c.pos
  {
    if current != '\0' && rt.isLetterOrDigit(PeekNext(c)) then
      var (next, c1) := Advance(c);
      if next == ';' then assert false; Semicolon(c1)
      else AlnumRun(rt, next, c1)
    else Stopped(current, c)
  }

  /**
   An entity from `s[i]` to `s[j - 1]`: '&', a letter or '#', at least one more
   letter or digit, and the ';' right after the last of them.
   */
  ghost predicate EntityAt(rt: Library, s: seq<char>, i: int, j: int) {
    && 0 <= i && i + 4 <= j <= |s|
    && s[i] == '&' && (rt.isLetter(s[i + 1]) || s[i + 1] == '#')
    && (forall k :: i + 2 <= k < j - 1 ==> rt.isLetterOrDigit(s[k]))
    && s[j - 1] == ';'
  }

  /** No entity starts at `s[i]`. */
  ghost predicate NoEntityAt(rt: Library, s: seq<char>, i: int) {
    forall j :: !EntityAt(rt, s, i, j)
  }

  /**
   Lines 63-79 of `ScanNextToken`: the letters and digits from `amp + 2` up to
   the cursor have been consumed, `current` being the last of them; an entity
   if a ';' comes next.  The whitespace skip never moves, as `current` is not
   whitespace, so the test of line 72 never succeeds.
   */
  function EntityEnd(rt: Library, amp: nat, current: char, c: Cursor): (r: EntityScan)
    requires Axioms(rt) && Valid(c) && amp + 3 <= c.pos
    requires c.src[amp] == '&' && (rt.isLetter(c.src[amp + 1]) || c.src[amp + 1] == '#')
    requires forall k :: amp + 2 <= k < c.pos ==> rt.isLetterOrDigit(c.src[k])
    requires IsAtEnd(c) || !rt.isLetterOrDigit(c.src[c.pos])
    requires rt.isLetterOrDigit(current)
    ensures Valid(r.at) && Moved(c, r.at) && c.pos <= r.at.pos
    ensures r.Emit? ==> r.tokenType == HtmlEntity && EntityAt(rt, c.src, amp, r.at.pos)
    ensures r.Continue? ==> NoEntityAt(rt, c.src, amp) && rt.isLetterOrDigit(r.current) && r.at == c
  {
    var (current', c3) := AdvanceWhiteSpaces(rt, current, c);
    if PeekNext(c3) == ';' then Emit(HtmlEntity, Advance(c3).1)
    else if !rt.isLetterOrDigit(current') then assert false; Emit(Text, c3)
    else Continue(current', c3)
  }

  /**
   Lines 46-79 of `ScanNextToken`: the '&' is at `amp` and the letter or '#'
   after it has been consumed; the next character is a letter or digit.
   */
  function ScanEntityRun(rt: Library, amp: nat, c: Cursor): (r: EntityScan)
    requires Axioms(rt) && Valid(c) && amp + 2 == c.pos < |c.src|
    requires c.src[amp] == '&' && (rt.isLetter(c.src[amp + 1]) || c.src[amp + 1] == '#')
    requires rt.isLetterOrDigit(c.src[c.pos])
    ensures Valid(r.at) && Moved(c, r.at) && c.pos <= r.at.pos
    ensures r.Emit? ==> r.tokenType == HtmlEntity && EntityAt(rt, c.src, amp, r.at.pos)
    ensures r.Continue? ==> NoEntityAt(rt, c.src, amp) && rt.isLetterOrDigit(r.current)
    ensures r.Continue? ==> forall k :: c.pos <= k < r.at.pos ==> rt.isLetterOrDigit(c.src[k])
  {
    var (current, c2) := Advance(c);
    var run := AlnumRun(rt, current, c2);
    EntityEnd(rt, amp, run.current, run.at)
  }

  /**
   The entity branch of `ScanNextToken`, entered with the '&' consumed: an
   entity token exactly when one starts at the '&'; otherwise the character in
   hand and the cursor from which the text run continues, with neither '<' nor
   '&' passed over.
   */
  function ScanEntity(rt: Library, c: Cursor): (r: EntityScan)
    requires Axioms(rt) && Valid(c) && 0 < c.pos && c.src[c.pos - 1] == '&'
    ensures Valid(r.at) && Moved(c, r.at) && c.pos <= r.at.pos
    ensures r.Emit? ==> r.tokenType == HtmlEntity && EntityAt(rt, c.src, c.pos - 1, r.at.pos)
    ensures r.Continue? ==> NoEntityAt(rt, c.src, c.pos - 1)
    ensures r.Continue? ==> r.current == '&' || rt.isLetterOrDigit(r.current)
    ensures r.Continue? ==> forall k :: c.pos <= k < r.at.pos ==> c.src[k] != '<' && c.src[k] != '&'
  {
    var next := PeekNext(c);
    if rt.isLetter(next) || next == '#' then
      var c1 := Advance(c).1;
      if rt.isLetterOrDigit(PeekNext(c1)) then ScanEntityRun(rt, c.pos - 1, c1)
      else Continue('&', c1)
    else Continue('&', c)
  }

  // -------------------------------------------------------------------- tags

  /** How the attribute loop of a tag ended: on its '>' (or the end of input), or on a stray '<'. */
  datatype TagEnd = Reached(lastNonWhiteSpace: char, at: Cursor) | Aborted(at: Cursor)

  /** Whether the tag is inside a double-quoted value after s[i..k], having started in state `q`. */
  function QuoteState(s: seq<char>, i: nat, k: nat, q: bool): bool
    requires i <= k <= |s|
    decreases k - i
  {
    if i == k then q else QuoteState(s, i + 1, k, if s[i] == '"' then !q else q)
  }

  /** The last non-whitespace character of s[i..k], or `last` if there is none. */
  function LastNonWhiteSpace(rt: Library, s: seq<char>, i: nat, k: nat, last: char): char
    requires i <= k <= |s|
    decreases k - i
  {
    if i == k then last else LastNonWhiteSpace(rt, s, i + 1, k, if !rt.isWhiteSpace(s[i]) then s[i] else last)
  }

  /**
   The attribute loop of `ScanTag`: consumes everything up to the '>' that is not
   inside double quotes, and stops short of an unquoted '<'.
   */
  function TagBody(rt: Library, c: Cursor, last: char, inQuote: bool): (r: TagEnd)
    requires Axioms(rt) && Valid(c)
    ensures Valid(r.at) && Moved(c, r.at) && c.pos <= r.at.pos
    ensures forall k :: c.pos <= k < r.at.pos && (c.src[k] == '<' || c.src[k] == '>') ==>
              QuoteState(c.src, c.pos, k, inQuote)
    ensures r.Aborted? ==> !IsAtEnd(r.at) && c.src[r.at.pos] == '<'
                           && !QuoteState(c.src, c.pos, r.at.pos, inQuote)
    ensures r.Reached? ==> IsAtEnd(r.at)
                           || (c.src[r.at.pos] == '>' && !QuoteState(c.src, c.pos, r.at.pos, inQuote))
    ensures r.Reached? ==> r.lastNonWhiteSpace == LastNonWhiteSpace(rt, c.src, c.pos, r.at.pos, last)
    decreases |c.src| - c.pos
  {
    if !IsAtEnd(c) && (PeekNext(c) != '>' || inQuote) then
      if PeekNext(c) == '<' && !inQuote then Aborted(c)
      else
        var (current, c1) := Advance(c);
        if !rt.isWhiteSpace(current)
        then TagBody(rt, c1, current, if current == '"' then !inQuote else inQuote)
        else TagBody(rt, c1, last, inQuote)
    else Reached(last, c)
  }

  /** Whether `w` upper-cases, character by character, to `name`. */
  predicate UpperEquals(rt: Library, w: seq<char>, name: seq<char>) {
    |w| == |name| && (|w| == 0 || (rt.toUpper(w[0]) == name[0] && UpperEquals(rt, w[1..], name[1..])))
  }

  /** The closing tag `</NAME>` of a raw-text element, matched case-insensitively. */
  predicate IsCloseTagText(rt: Library, la: seq<char>, name: seq<char>) {
    && |la| == |name| + 3
    && la[0] == '<' && la[1] == '/'
    && UpperEquals(rt, la[2..|name| + 2], name)
    && la[|name| + 2] == '>'
  }

  ghost predicate ClosesRawTextAt(rt: Library, s: seq<char>, p: int, name: seq<char>) {
    0 <= p && p + |name| + 3 <= |s| && IsCloseTagText(rt, s[p..p + |name| + 3], name)
  }

  /**
   Where the body skip from `e` stops: at the first closing tag, or, once too few
   characters remain for one, at the next '<' or the end; nothing it passes over
   is either.
   */
  ghost predicate RawTextEnd(rt: Library, src: seq<char>, e: int, name: seq<char>, p: int) {
    && 0 <= e <= p <= |src|
    && (forall q :: e <= q < p ==> !ClosesRawTextAt(rt, src, q, name))
    && (forall q :: e <= q < p && |src| < q + |name| + 3 ==> src[q] != '<')
    && (p == |src| || ClosesRawTextAt(rt, src, p, name) || (|src| < p + |name| + 3 && src[p] == '<'))
  }

  /** Where scanning resumes after a tag ending at `e`: past the body of a script or style open tag. */
  ghost predicate BodySkipped(rt: Library, src: seq<char>, e: int, tokenType: TokenType, kind: HtmlElementType, p: int) {
    if tokenType == HtmlOpenTag && kind == Script then RawTextEnd(rt, src, e, "SCRIPT", p)
    else if tokenType == HtmlOpenTag && kind == Style then RawTextEnd(rt, src, e, "STYLE", p)
    else p == e
  }

  /**
   The body skip after `<script>` / `<style>`: stop at the first closing tag, or,
   once too few characters remain for one, at the next '<' or the end.
   */
  function SkipRawText(rt: Library, c: Cursor, name: seq<char>): (r: Cursor)
    requires Valid(c)
    ensures Valid(r) && Moved(c, r) && c.pos <= r.pos
    decreases |c.src| - c.pos
  {
    if IsAtEnd(c) then c
    else
      var la := LookAhead(c, |name| + 3);
      if la == [] then SkipUntil(c, {'<'})
      else if IsCloseTagText(rt, la, name) then c
      else SkipRawText(rt, Advance(c).1, name)
  }

  /** The cursor after a tag's '>': the body of a non-self-closing script or style open tag is stepped over. */
  function SkipBody(rt: Library, c: Cursor, tokenType: TokenType, kind: HtmlElementType): (r: Cursor)
    requires Valid(c)
    ensures Valid(r) && Moved(c, r) && c.pos <= r.pos
    ensures !(tokenType == HtmlOpenTag && (kind == Script || kind == Style)) ==> r == c
  {
    if tokenType == HtmlOpenTag && kind == Script then SkipRawText(rt, c, "SCRIPT")
    else if tokenType == HtmlOpenTag && kind == Style then SkipRawText(rt, c, "STYLE")
    else c
  }

  /**
   What every non-Eof step guarantees about the token `t` and the cursor `d` it
   leaves, relative to the cursor `c` whose startIndex marks the token start.
   */
  ghost predicate Stepped(c: Cursor, t: Token, d: Cursor) {
    && Valid(c) && Valid(d) && d.src == c.src && d.startIndex == c.startIndex && c.pos <= d.pos
    && SpanIn(t, c.src) && t.start == c.startIndex && c.pos <= t.start + t.length <= d.pos
    && 0 < t.length && t.tokenType != Eof
    && d.blockLevel == c.blockLevel + LevelChange(t)
    && t.level == (if t.tokenType == HtmlCloseTag && t.kind != Invalid then d.blockLevel else c.blockLevel)
    && (!IsTagType(t.tokenType) ==> t.kind == None || t.kind == Invalid)
  }

  /**
   A tag token either ends on its '>' and carries the kind its text classifies
   as, or was cut off by the end of the input and is Invalid.
   */
  ghost predicate Classified(rt: Library, src: seq<char>, t: Token) {
    && SpanIn(t, src) && 0 < t.length
    && (IsTagType(t.tokenType) ==>
          || (src[t.start + t.length - 1] == '>' && t.kind == Parse(rt, Value(t, src)))
          || (t.kind == Invalid && t.start + t.length == |src|))
  }

  /**
   The complete tag `t`, whose first non-whitespace character after the '<' is
   at `f`: it ends on a '>' that is not inside double quotes, every '<' and '>'
   after `f` before it is inside double quotes, and its type follows from the
   character at `f` and the last non-whitespace character before the '>'.
   */
  ghost predicate TagShaped(rt: Library, src: seq<char>, f: int, t: Token) {
    var e := t.start + t.length - 1;
    && SpanIn(t, src) && 0 <= f < e && src[e] == '>'
    && t.tokenType == TagType(src[f], LastNonWhiteSpace(rt, src, f + 1, e, '\0'))
    && t.kind == Parse(rt, Value(t, src))
    && !QuoteState(src, f + 1, e, false)
    && forall k :: f < k < e && (src[k] == '<' || src[k] == '>') ==> QuoteState(src, f + 1, k, false)
  }

  /**
   A tag whose first non-whitespace character after the '<' is at `f` that is
   abandoned at the '<' at `e`: that '<' and no '>' before it is outside double
   quotes.
   */
  ghost predicate AbortedAt(src: seq<char>, f: int, e: int) {
    && 0 <= f < e < |src| && src[e] == '<'
    && !QuoteState(src, f + 1, e, false)
    && forall k :: f < k < e && (src[k] == '<' || src[k] == '>') ==> QuoteState(src, f + 1, k, false)
  }

  /** A step judged from an earlier position of the same scan is still a step. */
  lemma SteppedFromEarlier(c0: Cursor, c1: Cursor, t: Token, d: Cursor)
    requires Valid(c0) && c0.pos <= c1.pos
    requires c1.src == c0.src && c1.startIndex == c0.startIndex && c1.blockLevel == c0.blockLevel
    requires Stepped(c1, t, d)
    ensures Stepped(c0, t, d)
  {
  }

  /** The type a tag gets: close if a '/' came first, self-closing if a '/' came last. */
  function TagType(first: char, last: char): TokenType {
    if last == '/' then HtmlSelfClosingTag
    else if first == '/' then HtmlCloseTag
    else HtmlOpenTag
  }

  /** The end of `ScanTag` with the '>' next: consume it, classify the text, step over a raw-text body. */
  function FinishTag(rt: Library, tokenType: TokenType, c: Cursor): (r: (Token, Cursor))
    requires Valid(c) && c.startIndex < c.pos && !IsAtEnd(c) && c.src[c.pos] == '>' && !c.isInTag
    requires IsTagType(tokenType)
    ensures Stepped(c, r.0, r.1) && Classified(rt, c.src, r.0) && !r.1.isInTag
    ensures r.0.tokenType == tokenType && r.0.start + r.0.length == c.pos + 1
    ensures r.0.kind == Parse(rt, Value(r.0, c.src))
  {
    var c1 := Advance(c).1;
    var kind := Parse(rt, c1.src[c1.startIndex..c1.pos]);
    var c2 := SkipBody(rt, c1, tokenType, kind);
    var (level, blockLevel) := AdjustBlockLevel(c2.blockLevel, kind, tokenType);
    var token := Token(tokenType, kind, level, c1.startIndex, c1.pos - c1.startIndex);
    assert Value(token, c.src) == c1.src[c1.startIndex..c1.pos];
    (token, c2.(blockLevel := blockLevel))
  }

  /** `ScanTag` after the whitespace skip, with `first` (the character at pos - 1) in hand. */
  function ScanTagRest(rt: Library, first: char, c: Cursor): (r: (Token, Cursor))
    requires Axioms(rt) && Valid(c) && c.startIndex < c.pos
    ensures Stepped(c, r.0, r.1) && Classified(rt, c.src, r.0) && !r.1.isInTag
    ensures IsTagType(r.0.tokenType) || (r.0.tokenType == Text && r.0.kind == Invalid)
    ensures IsTagType(r.0.tokenType) && !IsAtEnd(c) ==> c.pos < r.0.start + r.0.length
    ensures r.0.tokenType == Text ==> !IsAtEnd(r.1) && c.src[r.1.pos] == '<' && r.0.start + r.0.length == r.1.pos
  {
    match TagBody(rt, c, '\0', false)
    case Aborted(c2) =>
      var c3 := c2.(isInTag := false);
      (CreateToken(Text, Invalid, c3), c3)
    case Reached(last, c2) =>
      var tokenType := TagType(first, last);
      var c3 := c2.(isInTag := false);
      if IsAtEnd(c3) then (CreateToken(tokenType, Invalid, c3), c3)
      else
        var r := FinishTag(rt, tokenType, c3);
        SteppedFromEarlier(c, c3, r.0, r.1);
        r
  }

  /** `ScanTag`, entered with the '<' and the character after it consumed. */
  function ScanTag(rt: Library, current: char, c: Cursor): (r: (Token, Cursor))
    requires Axioms(rt) && Valid(c) && c.startIndex < c.pos
    ensures Stepped(c, r.0, r.1) && Classified(rt, c.src, r.0) && !r.1.isInTag
    ensures IsTagType(r.0.tokenType) || (r.0.tokenType == Text && r.0.kind == Invalid)
    ensures IsTagType(r.0.tokenType) && !IsAtEnd(c) ==> c.pos < r.0.start + r.0.length
    ensures r.0.tokenType == Text ==> !IsAtEnd(r.1) && c.src[r.1.pos] == '<' && r.0.start + r.0.length == r.1.pos
  {
    var (first, c1) := AdvanceWhiteSpaces(rt, current, c);
    assert c1.src == c.src;
    var r := ScanTagRest(rt, first, c1);
    SteppedFromEarlier(c, c1, r.0, r.1);
    r
  }

  // ------------------------------------------------------------------ driver

  /**
   Lines 83-108 of `ScanNextToken`, entered with the '<' consumed.  The branch
   for a '<' met while inside a tag (lines 86-94) cannot be taken: the flag is
   clear on entry.
   */
  function ScanTagStart(rt: Library, c: Cursor): (r: (Token, Cursor))
    requires Axioms(rt) && Valid(c) && c.startIndex < c.pos && !c.isInTag
    ensures Stepped(c, r.0, r.1) && Classified(rt, c.src, r.0) && !r.1.isInTag
    ensures IsTagType(r.0.tokenType) || (r.0.tokenType == Text && r.0.kind == Invalid)
    ensures IsTagType(r.0.tokenType) ==> c.pos < r.0.start + r.0.length
  {
    var (next, c1) := Advance(c);
    if c1.isInTag then assert false; (DefaultToken, c1)
    else if IsAtEnd(c1) then (CreateToken(Text, Invalid, c1), c1)
    else
      var r := ScanTag(rt, next, c1.(isInTag := true));
      SteppedFromEarlier(c, c1.(isInTag := true), r.0, r.1);
      r
  }

  /** The end of input or of the run of text, whichever comes first, from `from`: the next '<' or '&'. */
  ghost predicate TextRunTo(s: seq<char>, from: int, e: int) {
    && 0 <= from <= e <= |s|
    && (forall k :: from <= k < e ==> s[k] != '<' && s[k] != '&')
    && (e == |s| || s[e] == '<' || s[e] == '&')
  }

  /** Lines 111-130 of `ScanNextToken`: a stray '>' or a run of text. */
  function ScanText(current: char, c: Cursor): (r: (Token, Cursor))
    requires Valid(c) && c.startIndex < c.pos
    ensures Stepped(c, r.0, r.1) && r.0.tokenType == Text && r.1.isInTag == c.isInTag
    ensures r.0.start + r.0.length == r.1.pos
    ensures current == '>' ==> r.0.kind == Invalid && r.1.pos == c.pos
    ensures current != '>' ==> r.0.kind == None && TextRunTo(c.src, c.pos, r.1.pos)
  {
    if current == '>' then (CreateToken(Text, Invalid, c), c)
    else
      var c1 := SkipUntil(c, {'<', '&'});
      (CreateToken(Text, None, c1), c1)
  }

  /**
   Lines 83-130 of `ScanNextToken`: what follows once the first character is in
   hand.  Outside a tag only a '<' leads into `ScanTag` (line 105).
   */
  function ScanFrom(rt: Library, current: char, c: Cursor): (r: (Token, Cursor))
    requires Axioms(rt) && Valid(c) && c.startIndex < c.pos && !c.isInTag
    ensures Stepped(c, r.0, r.1) && Classified(rt, c.src, r.0) && !r.1.isInTag
    ensures r.0.tokenType != HtmlEntity
    ensures IsTagType(r.0.tokenType) ==> current == '<' && c.pos < r.0.start + r.0.length
    ensures current != '<' && current != '>' ==> r.0.kind == None && TextRunTo(c.src, c.pos, r.1.pos)
    ensures current != '<' ==> r.0.tokenType == Text && r.0.start + r.0.length == r.1.pos
  {
    if current == '<' then ScanTagStart(rt, c)
    else ScanText(current, c)
  }

  /** Lines 27-130 of `ScanNextToken` once a '&' is in hand. */
  function ScanAmpersand(rt: Library, c: Cursor): (r: (Token, Cursor))
    requires Axioms(rt) && Valid(c) && c.startIndex < c.pos && !c.isInTag
    requires c.src[c.pos - 1] == '&'
    ensures Stepped(c, r.0, r.1) && Classified(rt, c.src, r.0) && !r.1.isInTag
    ensures r.0.start + r.0.length == r.1.pos
    ensures r.0.tokenType == HtmlEntity ==> r.0.kind == None && EntityAt(rt, c.src, c.pos - 1, r.1.pos)
    ensures r.0.tokenType != HtmlEntity ==>
              && r.0.tokenType == Text && r.0.kind == None
              && NoEntityAt(rt, c.src, c.pos - 1)
              && TextRunTo(c.src, c.pos, r.1.pos)
  {
    match ScanEntity(rt, c)
    case Emit(tokenType, c2) => (CreateToken(tokenType, None, c2), c2)
    case Continue(current, c2) =>
      var r := ScanFrom(rt, current, c2);
      SteppedFromEarlier(c, c2, r.0, r.1);
      r
  }

  /** Lines 25-130 of `ScanNextToken`, once the first character of the token is in hand. */
  function ScanFirst(rt: Library, current: char, c: Cursor): (r: (Token, Cursor))
    requires Axioms(rt) && Valid(c) && c.startIndex + 1 == c.pos && !c.isInTag
    requires c.src[c.startIndex] == current
    ensures Stepped(c, r.0, r.1) && Classified(rt, c.src, r.0) && !r.1.isInTag
    ensures r.0.tokenType == HtmlEntity ==> r.0.kind == None && EntityAt(rt, c.src, c.startIndex, r.1.pos)
    ensures IsTagType(r.0.tokenType) ==> r.0.kind != None && 3 <= r.0.length && current == '<'
  {
    if current == '&' then ScanAmpersand(rt, c) else ScanFrom(rt, current, c)
  }

  /**
   `ScanNextToken`: Eof exactly at the end of input, and otherwise a token that
   starts where the cursor stood and a cursor strictly further on.  The
   "inside a tag" flag is clear before and after every call.
   */
  function ScanNextToken(rt: Library, c: Cursor): (r: (Token, Cursor))
    requires Axioms(rt) && Valid(c) && !c.isInTag
    ensures Valid(r.1) && r.1.src == c.src && SpanIn(r.0, c.src) && !r.1.isInTag
    ensures r.0.tokenType == Eof <==> IsAtEnd(c)
    ensures IsAtEnd(c) ==> r == (EofToken, c)
    ensures !IsAtEnd(c) ==> Stepped(c.(startIndex := c.pos), r.0, r.1) && c.pos < r.1.pos
    ensures !IsAtEnd(c) ==> Classified(rt, c.src, r.0)
    ensures r.0.tokenType == HtmlEntity ==> r.0.kind == None && EntityAt(rt, c.src, c.pos, r.1.pos)
    ensures IsTagType(r.0.tokenType) ==> r.0.kind != None && 3 <= r.0.length && c.src[r.0.start] == '<'
  {
    if IsAtEnd(c) then (EofToken, c)
    else
      var c0 := c.(startIndex := c.pos);
      var (current, c1) := Advance(c0);
      var r := ScanFirst(rt, current, c1);
      SteppedFromEarlier(c0, c1, r.0, r.1);
      r
  }
}
