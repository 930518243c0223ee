/**
 The tokenizer of the first generation (`DCrafting.Textorize`'s
 `SimpleHtmlScanner.ScanNextToken`).  It shares the cursor, the tag body loop,
 the block-level bookkeeping and the text run with the current scanner, and
 differs from it in three places:

 - an entity is '&', a letter or '#', a letter or digit, then any run of
   characters up to the first ';', whitespace or NUL, and a ';' that may
   follow after whitespace -- so `&gt   ;` is one entity, and a run that finds
   no ';' falls through with whatever character it stopped on, even a '<';
 - the body of `<script>` is stepped over up to the next '<' outside single or
   double quotes;
 - the body of `<style>` is stepped over up to `</style>`, but the skip gives
   up as soon as fewer than eight characters remain.

 The element classifier of this generation is the current one, except that its
 enumeration has no PRE: a `<pre>` tag is some other element.
 */
module LegacyScanner {
  import opened Runtime
  import opened Html
  import opened SourceScan
  import opened TagParser
  import Scanner
  import ScannerLemmas

  /** The legacy element enumeration has no PRE, so that name classifies as Other. */
  function LegacyKind(k: HtmlElementType): (r: HtmlElementType)
    ensures r != Pre && (k != Pre ==> r == k)
  {
    if k == Pre then Other else k
  }

  // ---------------------------------------------------------------- entities

  /** The character in hand after consuming `s[k]`, and the position after it; NUL at the end. */
  ghost function Hand(s: seq<char>, k: nat): (char, int)
    requires k <= |s|
  {
    if k < |s| then (s[k], k + 1) else ('\0', |s|)
  }

  /** The first index at or after `k` holding ';', NUL or whitespace, or |s|. */
  function RunStop(rt: Library, s: seq<char>, k: nat): (m: nat)
    requires k <= |s|
    ensures k <= m <= |s|
    ensures forall q :: k <= q < m ==> s[q] != ';' && s[q] != '\0' && !rt.isWhiteSpace(s[q])
    ensures m < |s| ==> s[m] == ';' || s[m] == '\0' || rt.isWhiteSpace(s[m])
    decreases |s| - k
  {
    if k == |s| || s[k] == ';' || s[k] == '\0' || rt.isWhiteSpace(s[k]) then k else RunStop(rt, s, k + 1)
  }

  /**
   An entity of this generation from `s[i]` to `s[j - 1]`: '&', a letter or
   '#', a letter or digit, then the run up to the first ';', NUL or
   whitespace, and a ';' that is either where the run stops or the first
   character after the whitespace it stopped on.
   */
  ghost predicate LegacyEntityAt(rt: Library, s: seq<char>, i: int, j: int) {
    && 0 <= i && i + 3 <= |s|
    && s[i] == '&' && (rt.isLetter(s[i + 1]) || s[i + 1] == '#') && rt.isLetterOrDigit(s[i + 2])
    && var f := FirstNonWhiteSpace(rt, s, RunStop(rt, s, i + 2));
       f < |s| && s[f] == ';' && j == f + 1
  }

  ghost predicate NoLegacyEntityAt(rt: Library, s: seq<char>, i: int) {
    forall j :: !LegacyEntityAt(rt, s, i, j)
  }

  /** `AdvanceWhiteSpaces` with `s[k]` in hand lands on the first non-whitespace character from `k`. */
  lemma {:induction false} AdvanceWhiteSpacesFrom(rt: Library, c: Cursor, k: nat)
    requires Axioms(rt) && Valid(c) && k <= |c.src| && c.pos == Hand(c.src, k).1
    ensures var r := Scanner.AdvanceWhiteSpaces(rt, Hand(c.src, k).0, c);
            (r.0, r.1.pos) == Hand(c.src, FirstNonWhiteSpace(rt, c.src, k)) && Moved(c, r.1)
    decreases |c.src| - k
  {
    if k < |c.src| && rt.isWhiteSpace(c.src[k]) {
      AdvanceWhiteSpacesFrom(rt, Advance(c).1, k + 1);
    }
  }

  /**
   Lines 47-55 of `ScanNextToken`: with `s[k]` in hand, advance until the
   character in hand is NUL or whitespace, stopping early on a ';'.
   */
  function EntityRun(rt: Library, current: char, c: Cursor, ghost k: nat): (r: Scanner.RunEnd)
    requires Axioms(rt) && Valid(c) && k <= |c.src| && (current, c.pos) == Hand(c.src, k)
    ensures Valid(r.at) && Moved(c, r.at) && c.pos <= r.at.pos
    ensures var m := RunStop(rt, c.src, k);
            && (r.Semicolon? <==> m < |c.src| && c.src[m] == ';')
            && (r.Semicolon? ==> r.at.pos == m + 1)
            && (r.Stopped? ==> (r.current, r.at.pos) == Hand(c.src, m))
    decreases |c.src| - k
  {
    if current != '\0' && !rt.isWhiteSpace(current) then
      if current == ';' then Scanner.Semicolon(c)
      else
        var (next, c1) := Advance(c);
        EntityRun(rt, next, c1, k + 1)
    else Scanner.Stopped(current, c)
  }

  /**
   Lines 31-69 of `ScanNextToken`, entered with the '&' consumed: an entity
   token exactly when one starts at the '&'; otherwise the character in hand
   and the cursor from which scanning falls through.
   */
  function ScanEntity(rt: Library, c: Cursor): (r: Scanner.EntityScan)
    requires Axioms(rt) && Valid(c) && 0 < c.pos && c.src[c.pos - 1] == '&'
    ensures Valid(r.at) && Moved(c, r.at) && c.pos <= r.at.pos
    ensures r.Emit? ==> r.tokenType == HtmlEntity && LegacyEntityAt(rt, c.src, c.pos - 1, r.at.pos)
    ensures r.Continue? ==> NoLegacyEntityAt(rt, c.src, c.pos - 1) && r.current != ';'
  {
    var next := PeekNext(c);
    if rt.isLetter(next) || next == '#' then
      var c1 := Advance(c).1;
      if rt.isLetterOrDigit(PeekNext(c1)) then
        var (current, c2) := Advance(c1);
        match EntityRun(rt, current, c2, c.pos + 1)
        case Semicolon(c3) => Scanner.Emit(HtmlEntity, c3)
        case Stopped(stop, c3) =>
          AdvanceWhiteSpacesFrom(rt, c3, RunStop(rt, c.src, c.pos + 1));
          var (current', c4) := Scanner.AdvanceWhiteSpaces(rt, stop, c3);
          if current' == ';' then Scanner.Emit(HtmlEntity, c4) else Scanner.Continue(current', c4)
      else Scanner.Continue('&', c1)
    else Scanner.Continue('&', c)
  }

  // ------------------------------------------------------- raw-text bodies

  /** The quote flags (double, single) of the script skip after one more character. */
  function QuoteStep(ch: char, dq: bool, sq: bool): (bool, bool) {
    if ch == '"' && !sq then (!dq, sq)
    else if ch == '\'' && !dq then (dq, !sq)
    else (dq, sq)
  }

  /** The quote flags after s[i..k], having started with (dq, sq). */
  function ScriptQuotes(s: seq<char>, i: nat, k: nat, dq: bool, sq: bool): (bool, bool)
    requires i <= k <= |s|
    decreases k - i
  {
    if i == k then (dq, sq)
    else
      var (dq', sq') := QuoteStep(s[i], dq, sq);
      ScriptQuotes(s, i + 1, k, dq', sq')
  }

  /**
   Where the script skip from `e` stops: at the first '<' outside quotes, or at
   the end; every '<' it passes over is inside single or double quotes.
   */
  ghost predicate ScriptEnd(src: seq<char>, e: int, p: int) {
    && 0 <= e <= p <= |src|
    && (forall k :: e <= k < p && src[k] == '<' ==> ScriptQuotes(src, e, k, false, false) != (false, false))
    && (p == |src| || (src[p] == '<' && ScriptQuotes(src, e, p, false, false) == (false, false)))
  }

  /** Lines 213-231 of `ScanTag`: step over a script body, tracking single and double quotes. */
  function SkipScript(c: Cursor, dq: bool, sq: bool): (r: Cursor)
    requires Valid(c)
    ensures Valid(r) && Moved(c, r) && c.pos <= r.pos
    ensures forall k :: c.pos <= k < r.pos && c.src[k] == '<' ==> ScriptQuotes(c.src, c.pos, k, dq, sq) != (false, false)
    ensures IsAtEnd(r) || (c.src[r.pos] == '<' && ScriptQuotes(c.src, c.pos, r.pos, dq, sq) == (false, false))
    decreases |c.src| - c.pos
  {
    if !IsAtEnd(c) && (dq || sq || PeekNext(c) != '<') then
      var (current, c1) := Advance(c);
      var (dq', sq') := QuoteStep(current, dq, sq);
      SkipScript(c1, dq', sq')
    else c
  }

  /**
   Where the style skip from `e` stops: at the first `</style>` (in any case),
   or at the first position with fewer than eight characters left; nothing it
   passes over is either (every position passed over had eight characters
   from it, so the last one is at most |src| - 8).
   */
  ghost predicate StyleEnd(rt: Library, src: seq<char>, e: int, p: int) {
    && 0 <= e <= p <= |src|
    && (e < p ==> p + 7 <= |src|)
    && (forall q :: e <= q < p ==> !Scanner.ClosesRawTextAt(rt, src, q, "STYLE"))
    && (|src| < p + 8 || Scanner.ClosesRawTextAt(rt, src, p, "STYLE"))
  }

  /** Lines 242-274 of `ScanTag`: step over a style body; an empty look-ahead ends the skip where it is. */
  function SkipStyle(rt: Library, c: Cursor): (r: Cursor)
    requires Valid(c)
    ensures Valid(r) && Moved(c, r) && StyleEnd(rt, c.src, c.pos, r.pos)
    decreases |c.src| - c.pos
  {
    if IsAtEnd(c) then c
    else
      var la := LookAhead(c, 8);
      assert |"STYLE"| + 3 == 8;
      if la == [] then c
      else if Scanner.IsCloseTagText(rt, la, "STYLE") then c
      else
        assert !Scanner.ClosesRawTextAt(rt, c.src, c.pos, "STYLE");
        SkipStyle(rt, Advance(c).1)
  }

  /** Where scanning resumes after a tag ending at `e`: past the body of a script or style open tag. */
  ghost predicate BodySkipped(rt: Library, src: seq<char>, e: int, tokenType: TokenType, kind: HtmlElementType, p: int) {
    if tokenType == HtmlOpenTag && kind == Script then ScriptEnd(src, e, p)
    else if tokenType == HtmlOpenTag && kind == Style then StyleEnd(rt, src, e, p)
    else p == e
  }

  function SkipBody(rt: Library, c: Cursor, tokenType: TokenType, kind: HtmlElementType): (r: Cursor)
    requires Valid(c)
    ensures Valid(r) && Moved(c, r) && BodySkipped(rt, c.src, c.pos, tokenType, kind, r.pos)
    ensures !(tokenType == HtmlOpenTag && (kind == Script || kind == Style)) ==> r == c
  {
    if tokenType == HtmlOpenTag && kind == Script then SkipScript(c, false, false)
    else if tokenType == HtmlOpenTag && kind == Style then SkipStyle(rt, c)
    else c
  }

  // -------------------------------------------------------------------- tags

  /**
   A token of this generation never has kind Pre, and a tag token either ends
   on its '>' and carries the kind its text classifies as, or was cut off by
   the end of the input and is Invalid.
   */
  ghost predicate Classified(rt: Library, src: seq<char>, t: Token) {
    && SpanIn(t, src) && 0 < t.length && t.kind != Pre
    && (IsTagType(t.tokenType) ==>
          || (src[t.start + t.length - 1] == '>' && t.kind == LegacyKind(Parse(rt, Value(t, src))))
          || (t.kind == Invalid && t.start + t.length == |src|))
  }

  /** Lines 200-288 of `ScanTag` with the '>' next: consume it, classify the text, step over a raw-text body. */
  function FinishTag(rt: Library, tokenType: TokenType, c: Cursor): (r: (Token, Cursor))
    requires Valid(c) && c.startIndex < c.pos && !IsAtEnd(c) && c.src[c.pos] == '>' && !c.isInTag
    requires IsTagType(tokenType)
    ensures Scanner.Stepped(c, r.0, r.1) && Classified(rt, c.src, r.0) && !r.1.isInTag
    ensures r.0.tokenType == tokenType && r.0.start + r.0.length == c.pos + 1
    ensures BodySkipped(rt, c.src, c.pos + 1, tokenType, r.0.kind, r.1.pos)
  {
    var c1 := Advance(c).1;
    var kind := LegacyKind(Parse(rt, c1.src[c1.startIndex..c1.pos]));
    var c2 := SkipBody(rt, c1, tokenType, kind);
    var (level, blockLevel) := Scanner.AdjustBlockLevel(c2.blockLevel, kind, tokenType);
    var token := Token(tokenType, kind, level, c1.startIndex, c1.pos - c1.startIndex);
    assert Value(token, c.src) == c1.src[c1.startIndex..c1.pos];
    (token, c2.(blockLevel := blockLevel))
  }

  /** Lines 147-198 of `ScanTag`, after the whitespace skip, with `first` in hand. */
  function ScanTagRest(rt: Library, first: char, c: Cursor): (r: (Token, Cursor))
    requires Axioms(rt) && Valid(c) && c.startIndex < c.pos
    ensures Scanner.Stepped(c, r.0, r.1) && Classified(rt, c.src, r.0) && !r.1.isInTag
    ensures IsTagType(r.0.tokenType) || (r.0.tokenType == Text && r.0.kind == Invalid)
    ensures IsTagType(r.0.tokenType) && !IsAtEnd(c) ==> c.pos < r.0.start + r.0.length
  {
    match Scanner.TagBody(rt, c, '\0', false)
    case Aborted(c2) =>
      var c3 := c2.(isInTag := false);
      (Scanner.CreateToken(Text, Invalid, c3), c3)
    case Reached(last, c2) =>
      var tokenType := Scanner.TagType(first, last);
      var c3 := c2.(isInTag := false);
      if IsAtEnd(c3) then (Scanner.CreateToken(tokenType, Invalid, c3), c3)
      else
        var r := FinishTag(rt, tokenType, c3);
        Scanner.SteppedFromEarlier(c, c3, r.0, r.1);
        r
  }

  /** `ScanTag`, entered with the '<' and the character after it consumed. */
  function ScanTag(rt: Library, current: char, c: Cursor): (r: (Token, Cursor))
    requires Axioms(rt) && Valid(c) && c.startIndex < c.pos
    ensures Scanner.Stepped(c, r.0, r.1) && Classified(rt, c.src, r.0) && !r.1.isInTag
    ensures IsTagType(r.0.tokenType) || (r.0.tokenType == Text && r.0.kind == Invalid)
    ensures IsTagType(r.0.tokenType) && !IsAtEnd(c) ==> c.pos < r.0.start + r.0.length
  {
    var (first, c1) := Scanner.AdvanceWhiteSpaces(rt, current, c);
    assert c1.src == c.src;
    var r := ScanTagRest(rt, first, c1);
    Scanner.SteppedFromEarlier(c, c1, r.0, r.1);
    r
  }

  /** Lines 71-96 of `ScanNextToken`, entered with the '<' consumed; the flag is clear on entry. */
  function ScanTagStart(rt: Library, c: Cursor): (r: (Token, Cursor))
    requires Axioms(rt) && Valid(c) && c.startIndex < c.pos && !c.isInTag
    ensures Scanner.Stepped(c, r.0, r.1) && Classified(rt, c.src, r.0) && !r.1.isInTag
    ensures IsTagType(r.0.tokenType) || (r.0.tokenType == Text && r.0.kind == Invalid)
    ensures IsTagType(r.0.tokenType) ==> c.pos + 1 < r.0.start + r.0.length
  {
    var (next, c1) := Advance(c);
    if c1.isInTag then assert false; (DefaultToken, c1)
    else if IsAtEnd(c1) then (Scanner.CreateToken(Text, Invalid, c1), c1)
    else
      var r := ScanTag(rt, next, c1.(isInTag := true));
      Scanner.SteppedFromEarlier(c, c1.(isInTag := true), r.0, r.1);
      r
  }

  /** Lines 71-117 of `ScanNextToken`: what follows once the character in hand is known. */
  function ScanFrom(rt: Library, current: char, c: Cursor): (r: (Token, Cursor))
    requires Axioms(rt) && Valid(c) && c.startIndex < c.pos && !c.isInTag
    ensures Scanner.Stepped(c, r.0, r.1) && Classified(rt, c.src, r.0) && !r.1.isInTag
    ensures r.0.tokenType != HtmlEntity
    ensures IsTagType(r.0.tokenType) ==> current == '<' && c.pos + 1 < r.0.start + r.0.length
    ensures current != '<' && current != '>' ==> r.0.kind == None && Scanner.TextRunTo(c.src, c.pos, r.1.pos)
  {
    if current == '<' then ScanTagStart(rt, c)
    else Scanner.ScanText(current, c)
  }

  /** Tag text that does not start with '<' is not tag-shaped, so its kind is None. */
  lemma NotTagShaped(rt: Library, src: seq<char>, t: Token)
    requires Classified(rt, src, t) && IsTagType(t.tokenType) && src[t.start] != '<'
    ensures t.kind == None || t.kind == Invalid
  {
    assert Value(t, src)[0] == src[t.start];
  }

  /** Tag text of three or more characters that starts with '<' is tag-shaped, so its kind is not None. */
  lemma TagShaped(rt: Library, src: seq<char>, t: Token)
    requires Classified(rt, src, t) && IsTagType(t.tokenType) && src[t.start] == '<' && 3 <= t.length
    ensures t.kind != None
  {
    assert Value(t, src)[0] == src[t.start];
  }

  /**
   Lines 25-117 of `ScanNextToken` once a '&' is in hand: an entity exactly
   when one starts there; otherwise scanning falls through from wherever the
   entity test stopped, and a tag met that way spans from the '&'.
   */
  function ScanAmpersand(rt: Library, c: Cursor): (r: (Token, Cursor))
    requires Axioms(rt) && Valid(c) && c.startIndex + 1 == c.pos && !c.isInTag
    requires c.src[c.pos - 1] == '&'
    ensures Scanner.Stepped(c, r.0, r.1) && Classified(rt, c.src, r.0) && !r.1.isInTag
    ensures r.0.tokenType == HtmlEntity ==>
              r.0.kind == None && r.0.start + r.0.length == r.1.pos && LegacyEntityAt(rt, c.src, c.pos - 1, r.1.pos)
    ensures r.0.tokenType != HtmlEntity ==> NoLegacyEntityAt(rt, c.src, c.pos - 1)
    ensures IsTagType(r.0.tokenType) ==> r.0.kind == None || r.0.kind == Invalid
  {
    match ScanEntity(rt, c)
    case Emit(tokenType, c2) => (Scanner.CreateToken(tokenType, None, c2), c2)
    case Continue(current, c2) =>
      var r := ScanFrom(rt, current, c2);
      Scanner.SteppedFromEarlier(c, c2, r.0, r.1);
      if IsTagType(r.0.tokenType) then NotTagShaped(rt, c.src, r.0); r else r
  }

  /** Lines 25-117 of `ScanNextToken`, once the first character of the token is in hand. */
  function ScanFirst(rt: Library, current: char, c: Cursor): (r: (Token, Cursor))
    requires Axioms(rt) && Valid(c) && c.startIndex + 1 == c.pos && !c.isInTag
    requires c.src[c.startIndex] == current
    ensures Scanner.Stepped(c, r.0, r.1) && Classified(rt, c.src, r.0) && !r.1.isInTag
    ensures r.0.tokenType == HtmlEntity ==>
              r.0.kind == None && r.0.start + r.0.length == r.1.pos && LegacyEntityAt(rt, c.src, c.startIndex, r.1.pos)
    ensures current == '&' && r.0.tokenType != HtmlEntity ==> NoLegacyEntityAt(rt, c.src, c.startIndex)
    ensures IsTagType(r.0.tokenType) ==>
              || (current == '<' && r.0.kind != None)
              || (current == '&' && (r.0.kind == None || r.0.kind == Invalid))
  {
    if current == '&' then ScanAmpersand(rt, c)
    else
      var r := ScanFrom(rt, current, c);
      if IsTagType(r.0.tokenType) then TagShaped(rt, c.src, r.0); r else r
  }

  /**
   `ScanNextToken` of the first generation: Eof exactly at the end of input,
   and otherwise a token that starts where the cursor stood and a cursor
   strictly further on.  An entity token is exactly a legacy entity; a tag
   token starts with '<' and has a kind, or starts with the '&' of an entity
   test that ran into a tag, in which case its text is not tag-shaped and its
   kind is None (or Invalid when cut off).
   */
  function ScanNextToken(rt: Library, c: Cursor): (r: (Token, Cursor))
    requires Axioms(rt) && Valid(c) && !c.isInTag
    ensures Valid(r.1) && r.1.src == c.src && SpanIn(r.0, c.src) && !r.1.isInTag && r.0.kind != Pre
    ensures r.0.tokenType == Eof <==> IsAtEnd(c)
    ensures IsAtEnd(c) ==> r == (EofToken, c)
    ensures !IsAtEnd(c) ==> Scanner.Stepped(c.(startIndex := c.pos), r.0, r.1) && c.pos < r.1.pos
    ensures !IsAtEnd(c) ==> Classified(rt, c.src, r.0)
    ensures r.0.tokenType == HtmlEntity ==>
              r.0.kind == None && r.0.start + r.0.length == r.1.pos && LegacyEntityAt(rt, c.src, c.pos, r.1.pos)
    ensures !IsAtEnd(c) && c.src[c.pos] == '&' && r.0.tokenType != HtmlEntity ==> NoLegacyEntityAt(rt, c.src, c.pos)
    ensures IsTagType(r.0.tokenType) ==>
              || (c.src[c.pos] == '<' && r.0.kind != None)
              || (c.src[c.pos] == '&' && (r.0.kind == None || r.0.kind == Invalid))
  {
    if IsAtEnd(c) then (EofToken, c)
    else
      var c0 := c.(startIndex := c.pos);
      var (current, c1) := Advance(c0);
      var r := ScanFirst(rt, current, c1);
      Scanner.SteppedFromEarlier(c0, c1, r.0, r.1);
      r
  }

  /** `ScanEntity` right after the '&' of a legacy entity emits it, up to its end. */
  lemma EntityEmits(rt: Library, c: Cursor, j: int)
    requires Axioms(rt) && Valid(c) && 0 < c.pos && c.src[c.pos - 1] == '&' && LegacyEntityAt(rt, c.src, c.pos - 1, j)
    ensures ScanEntity(rt, c) == Scanner.Emit(HtmlEntity, c.(pos := j))
  {
    var r := ScanEntity(rt, c);
    assert !NoLegacyEntityAt(rt, c.src, c.pos - 1);
    LegacyEntityEndUnique(rt, c.src, c.pos - 1, j, r.at.pos);
  }

  /** A legacy entity from a given position has exactly one end. */
  lemma LegacyEntityEndUnique(rt: Library, s: seq<char>, i: int, j: int, j': int)
    requires LegacyEntityAt(rt, s, i, j) && LegacyEntityAt(rt, s, i, j')
    ensures j == j'
  {
  }

  /** A token that starts with '&' is scanned by `ScanAmpersand`. */
  lemma AmpersandFirst(rt: Library, c: Cursor)
    requires Axioms(rt) && Valid(c) && !c.isInTag && !IsAtEnd(c) && c.src[c.pos] == '&'
    ensures ScanNextToken(rt, c) == ScanAmpersand(rt, Cursor(c.src, c.pos + 1, c.pos, c.blockLevel, false))
  {
    var c1 := Cursor(c.src, c.pos + 1, c.pos, c.blockLevel, false);
    assert Advance(c.(startIndex := c.pos)) == (c.src[c.pos], c1);
  }

  /**
   Under the ASCII tables this generation answers `&gt   ;` with one entity
   token: the ';' may follow the whitespace the run stopped on.
   */
  lemma SpacedEntityIsEntity(d: seq<char> -> seq<char>)
    ensures ScanNextToken(Ascii(d), Fresh("&gt   ;")) == (Token(HtmlEntity, None, 0, 0, 7), Cursor("&gt   ;", 7, 0, 0, false))
  {
    var rt := Ascii(d);
    var s := "&gt   ;";
    assert RunStop(rt, s, 2) == 3;
    assert FirstNonWhiteSpace(rt, s, 3) == 6;
    assert LegacyEntityAt(rt, s, 0, 7);
    var c1 := Cursor(s, 1, 0, 0, false);
    AmpersandFirst(rt, Cursor(s, 0, 0, 0, false));
    EntityEmits(rt, c1, 7);
    assert ScanAmpersand(rt, c1) == (Scanner.CreateToken(HtmlEntity, None, c1.(pos := 7)), c1.(pos := 7));
  }

  // ------------------------------------------------- plain tags and text runs

  /** `FinishTag` on a tag that opens no raw-text body. */
  lemma FinishPlainTag(rt: Library, tokenType: TokenType, src: seq<char>, start: int, e: int, level: int)
    requires 0 <= start < e < |src| && src[e] == '>' && IsTagType(tokenType)
    requires var kind := LegacyKind(Parse(rt, src[start..e + 1]));
             !(tokenType == HtmlOpenTag && (kind == Script || kind == Style))
    ensures var kind := LegacyKind(Parse(rt, src[start..e + 1]));
            var (tokenLevel, after) := Scanner.AdjustBlockLevel(level, kind, tokenType);
            FinishTag(rt, tokenType, Cursor(src, e, start, level, false))
            == (Token(tokenType, kind, tokenLevel, start, e + 1 - start), Cursor(src, e + 1, start, after, false))
  {
    var c1 := Cursor(src, e + 1, start, level, false);
    var kind := LegacyKind(Parse(rt, src[start..e + 1]));
    assert Advance(Cursor(src, e, start, level, false)).1 == c1;
    assert c1.src[c1.startIndex..c1.pos] == src[start..e + 1];
    assert SkipBody(rt, c1, tokenType, kind) == c1;
    var (tokenLevel, after) := Scanner.AdjustBlockLevel(level, kind, tokenType);
    assert FinishTag(rt, tokenType, Cursor(src, e, start, level, false))
           == (Token(tokenType, kind, tokenLevel, start, e + 1 - start), c1.(blockLevel := after));
  }

  /** `ScanTag` over plain tag text reaches the '>' and hands over to `FinishTag`. */
  lemma PlainTagRest(rt: Library, first: char, c: Cursor, e: int)
    requires Axioms(rt) && Valid(c) && 2 <= c.pos && c.startIndex == c.pos - 2 && c.isInTag
    requires first == c.src[c.pos - 1] && !rt.isWhiteSpace(first)
    requires ScannerLemmas.PlainTagText(c.src, c.pos, e) && e < |c.src| && c.src[e] == '>'
    ensures ScanTag(rt, first, c) == FinishTag(rt, ScannerLemmas.PlainTagType(rt, c.src, c.pos - 2, e), c.(pos := e, isInTag := false))
  {
    assert Scanner.AdvanceWhiteSpaces(rt, first, c) == (first, c);
    ScannerLemmas.TagBodyPlain(rt, c, '\0', e);
  }

  /** Outside a tag, a '<' hands the scan to `ScanTagStart` just past it. */
  lemma LessThanStart(rt: Library, c: Cursor)
    requires Axioms(rt) && Valid(c) && !c.isInTag && !IsAtEnd(c) && c.src[c.pos] == '<'
    ensures ScanNextToken(rt, c) == ScanTagStart(rt, c.(pos := c.pos + 1, startIndex := c.pos))
  {
    var c1 := c.(pos := c.pos + 1, startIndex := c.pos);
    assert Advance(c.(startIndex := c.pos)) == ('<', c1);
    var r := ScanFrom(rt, '<', c1);
    assert ScanFirst(rt, '<', c1) == r by {
      if IsTagType(r.0.tokenType) {
        TagShaped(rt, c1.src, r.0);
      }
    }
  }

  /**
   As in the current generation, a '<' followed by a non-whitespace character
   and plain tag text up to a '>' is one tag token, classified by its own text
   with pre read as some other element.
   */
  lemma PlainTagStep(rt: Library, c: Cursor, e: int)
    requires Axioms(rt) && Valid(c) && !c.isInTag
    requires c.pos + 2 <= e < |c.src| && c.src[c.pos] == '<' && c.src[e] == '>'
    requires !rt.isWhiteSpace(c.src[c.pos + 1]) && ScannerLemmas.PlainTagText(c.src, c.pos + 2, e)
    requires var kind := LegacyKind(Parse(rt, c.src[c.pos..e + 1]));
             !(ScannerLemmas.PlainTagType(rt, c.src, c.pos, e) == HtmlOpenTag && (kind == Script || kind == Style))
    ensures var tokenType := ScannerLemmas.PlainTagType(rt, c.src, c.pos, e);
            var kind := LegacyKind(Parse(rt, c.src[c.pos..e + 1]));
            var (level, after) := Scanner.AdjustBlockLevel(c.blockLevel, kind, tokenType);
            ScanNextToken(rt, c) == (Token(tokenType, kind, level, c.pos, e + 1 - c.pos), Cursor(c.src, e + 1, c.pos, after, false))
  {
    PlainTagToFinish(rt, c, e);
    FinishPlainTag(rt, ScannerLemmas.PlainTagType(rt, c.src, c.pos, e), c.src, c.pos, e, c.blockLevel);
  }

  /** A '<' with at least two characters after it hands the scan to `ScanTag` two characters on, inside the tag. */
  lemma TagStartStep(rt: Library, c: Cursor)
    requires Axioms(rt) && Valid(c) && !c.isInTag && c.pos + 2 < |c.src| && c.src[c.pos] == '<'
    ensures ScanNextToken(rt, c) == ScanTag(rt, c.src[c.pos + 1], c.(pos := c.pos + 2, startIndex := c.pos, isInTag := true))
  {
    var c1 := c.(pos := c.pos + 1, startIndex := c.pos);
    var c2 := c.(pos := c.pos + 2, startIndex := c.pos);
    LessThanStart(rt, c);
    assert Advance(c1) == (c.src[c.pos + 1], c2);
    assert ScanTagStart(rt, c1) == ScanTag(rt, c.src[c.pos + 1], c2.(isInTag := true));
  }

  /** Over plain tag text the scan runs from the '<' to the '>' and hands over to `FinishTag`. */
  lemma PlainTagToFinish(rt: Library, c: Cursor, e: int)
    requires Axioms(rt) && Valid(c) && !c.isInTag
    requires c.pos + 2 <= e < |c.src| && c.src[c.pos] == '<' && c.src[e] == '>'
    requires !rt.isWhiteSpace(c.src[c.pos + 1]) && ScannerLemmas.PlainTagText(c.src, c.pos + 2, e)
    ensures ScanNextToken(rt, c) == FinishTag(rt, ScannerLemmas.PlainTagType(rt, c.src, c.pos, e), Cursor(c.src, e, c.pos, c.blockLevel, false))
  {
    TagStartStep(rt, c);
    PlainTagRest(rt, c.src[c.pos + 1], c.(pos := c.pos + 2, startIndex := c.pos, isInTag := true), e);
  }

  /** A run of text from `c.pos` up to the next '<' or '&' at `e` (or the end) is one Text token of kind None. */
  lemma TextRunStep(rt: Library, c: Cursor, e: int)
    requires Axioms(rt) && Valid(c) && !c.isInTag && Scanner.TextRunTo(c.src, c.pos + 1, e)
    requires c.src[c.pos] != '<' && c.src[c.pos] != '>' && c.src[c.pos] != '&'
    ensures ScanNextToken(rt, c) == (Token(Text, None, c.blockLevel, c.pos, e - c.pos), Cursor(c.src, e, c.pos, c.blockLevel, false))
  {
    var c1 := c.(pos := c.pos + 1, startIndex := c.pos);
    assert Advance(c.(startIndex := c.pos)) == (c.src[c.pos], c1);
    assert ScanNextToken(rt, c) == Scanner.ScanText(c.src[c.pos], c1);
    ScannerLemmas.TextRunToUnique(c.src, c.pos + 1, e, Scanner.ScanText(c.src[c.pos], c1).1.pos);
  }
}
