/**
 What one call of `ScanNextToken` produces, stated case by case on the
 character under the cursor, against reference definitions of an entity, a
 text run, a tag's shape and the raw-text body skip.
 */
module ScannerLemmas {
  import opened Runtime
  import opened Html
  import opened SourceScan
  import opened TagParser
  import opened Scanner

  /** One step back: a position that neither closes the body nor is a late '<' extends the skipped range. */
  lemma RawTextEndStepBack(rt: Library, s: seq<char>, e: int, name: seq<char>, p: int)
    requires 0 <= e && RawTextEnd(rt, s, e + 1, name, p)
    requires !ClosesRawTextAt(rt, s, e, name) && e + |name| + 3 <= |s|
    ensures RawTextEnd(rt, s, e, name, p)
  {
  }

  /** Once too few characters remain for a closing tag, the skip runs to the next '<'. */
  lemma RawTextEndTooShort(rt: Library, s: seq<char>, e: int, name: seq<char>, p: int)
    requires 0 <= e <= p <= |s| < e + |name| + 3
    requires forall k :: e <= k < p ==> s[k] != '<'
    requires p == |s| || s[p] == '<'
    ensures RawTextEnd(rt, s, e, name, p)
  {
  }

  /**
   The whitespace skip, started on the character just consumed, lands just past
   the first non-whitespace character from there, with that character in hand;
   or at the end of input.
   */
  lemma {:induction false} AdvanceWhiteSpacesLands(rt: Library, current: char, c: Cursor)
    requires Axioms(rt) && Valid(c) && 0 < c.pos && current == c.src[c.pos - 1]
    ensures var w := AdvanceWhiteSpaces(rt, current, c);
            var f := FirstNonWhiteSpace(rt, c.src, c.pos - 1);
            && (f < |c.src| ==> w.1.pos == f + 1 && w.0 == c.src[f])
            && (f == |c.src| ==> w.1.pos == |c.src|)
    decreases |c.src| - c.pos
  {
    if rt.isWhiteSpace(current) && !IsAtEnd(c) {
      AdvanceWhiteSpacesLands(rt, c.src[c.pos], Advance(c).1);
    }
  }

  /** The body skip stops where `RawTextEnd` says: at the first closing tag, else at the next late '<' or the end. */
  lemma {:induction false} SkipRawTextStops(rt: Library, c: Cursor, name: seq<char>)
    requires Valid(c)
    ensures RawTextEnd(rt, c.src, c.pos, name, SkipRawText(rt, c, name).pos)
    decreases |c.src| - c.pos
  {
    if IsAtEnd(c) {
      RawTextEndTooShort(rt, c.src, c.pos, name, c.pos);
    } else {
      var la := LookAhead(c, |name| + 3);
      if la == [] {
        var r := SkipUntil(c, {'<'});
        RawTextEndTooShort(rt, c.src, c.pos, name, r.pos);
      } else if IsCloseTagText(rt, la, name) {
        assert ClosesRawTextAt(rt, c.src, c.pos, name);
      } else {
        var c1 := Advance(c).1;
        SkipRawTextStops(rt, c1, name);
        RawTextEndStepBack(rt, c.src, c.pos, name, SkipRawText(rt, c1, name).pos);
      }
    }
  }

  lemma FinishTagSkipsBody(rt: Library, tokenType: TokenType, c: Cursor)
    requires Valid(c) && c.startIndex < c.pos && !IsAtEnd(c) && c.src[c.pos] == '>' && !c.isInTag
    requires IsTagType(tokenType)
    ensures var r := FinishTag(rt, tokenType, c);
            BodySkipped(rt, c.src, c.pos + 1, tokenType, r.0.kind, r.1.pos)
  {
    var c1 := Advance(c).1;
    var kind := Parse(rt, c1.src[c1.startIndex..c1.pos]);
    if tokenType == HtmlOpenTag && kind == Script {
      SkipRawTextStops(rt, c1, "SCRIPT");
    } else if tokenType == HtmlOpenTag && kind == Style {
      SkipRawTextStops(rt, c1, "STYLE");
    }
  }

  lemma ScanTagRestAborted(rt: Library, first: char, c: Cursor)
    requires Axioms(rt) && Valid(c) && c.startIndex < c.pos
    requires TagBody(rt, c, '\0', false).Aborted?
    ensures var (t, d) := ScanTagRest(rt, first, c);
            t.tokenType == Text && AbortedAt(c.src, c.pos - 1, d.pos)
  {
  }

  /** A complete tag: the '>' that ends the attribute loop is consumed. */
  lemma ScanTagRestFinishes(rt: Library, first: char, c: Cursor)
    requires Axioms(rt) && Valid(c) && c.startIndex < c.pos
    requires TagBody(rt, c, '\0', false).Reached? && !IsAtEnd(TagBody(rt, c, '\0', false).at)
    ensures var b := TagBody(rt, c, '\0', false);
            ScanTagRest(rt, first, c) == FinishTag(rt, TagType(first, b.lastNonWhiteSpace), b.at.(isInTag := false))
  {
  }

  lemma FinishTagShaped(rt: Library, first: char, c: Cursor)
    requires Axioms(rt) && Valid(c) && c.startIndex < c.pos && first == c.src[c.pos - 1]
    requires TagBody(rt, c, '\0', false).Reached? && !IsAtEnd(TagBody(rt, c, '\0', false).at)
    ensures var b := TagBody(rt, c, '\0', false);
            var r := FinishTag(rt, TagType(first, b.lastNonWhiteSpace), b.at.(isInTag := false));
            TagShaped(rt, c.src, c.pos - 1, r.0)
  {
    var b := TagBody(rt, c, '\0', false);
    TagShapedAt(rt, first, c, b, FinishTag(rt, TagType(first, b.lastNonWhiteSpace), b.at.(isInTag := false)).0);
  }

  /** A token ending at the '>' the tag body reached, typed and classified as `FinishTag` does it, is a complete tag. */
  lemma TagShapedAt(rt: Library, first: char, c: Cursor, b: TagEnd, t: Token)
    requires Axioms(rt) && Valid(c) && c.startIndex < c.pos && first == c.src[c.pos - 1]
    requires b == TagBody(rt, c, '\0', false) && b.Reached? && !IsAtEnd(b.at)
    requires SpanIn(t, c.src) && t.start + t.length == b.at.pos + 1
    requires t.tokenType == TagType(first, b.lastNonWhiteSpace) && t.kind == Parse(rt, Value(t, c.src))
    ensures TagShaped(rt, c.src, c.pos - 1, t)
  {
  }

  lemma ScanTagRestComplete(rt: Library, first: char, c: Cursor)
    requires Axioms(rt) && Valid(c) && c.startIndex < c.pos && first == c.src[c.pos - 1]
    requires TagBody(rt, c, '\0', false).Reached? && !IsAtEnd(TagBody(rt, c, '\0', false).at)
    ensures var r := ScanTagRest(rt, first, c);
            && IsTagType(r.0.tokenType) && TagShaped(rt, c.src, c.pos - 1, r.0)
            && BodySkipped(rt, c.src, r.0.start + r.0.length, r.0.tokenType, r.0.kind, r.1.pos)
  {
    var b := TagBody(rt, c, '\0', false);
    var c3 := b.at.(isInTag := false);
    var tokenType := TagType(first, b.lastNonWhiteSpace);
    ScanTagRestFinishes(rt, first, c);
    FinishTagShaped(rt, first, c);
    FinishTagSkipsBody(rt, tokenType, c3);
  }

  /** No '>' or '<' after `f` is outside double quotes: the tag never ends. */
  ghost predicate Unclosed(src: seq<char>, f: int) {
    && 0 <= f
    && forall k :: f < k < |src| && (src[k] == '<' || src[k] == '>') ==> QuoteState(src, f + 1, k, false)
  }

  /**
   How a tag whose first non-whitespace character after the '<' is at `f` ends:
   abandoned at an unquoted '<' (a Text token), cut off by the end of input (an
   Invalid tag), or complete, with a script or style body stepped over.
   */
  ghost predicate TagOutcome(rt: Library, src: seq<char>, f: int, t: Token, d: Cursor) {
    || (t.tokenType == Text && AbortedAt(src, f, d.pos))
    || (IsTagType(t.tokenType) && t.kind == Invalid && t.start + t.length == d.pos == |src| && Unclosed(src, f))
    || (&& IsTagType(t.tokenType) && TagShaped(rt, src, f, t)
        && BodySkipped(rt, src, t.start + t.length, t.tokenType, t.kind, d.pos))
  }

  lemma ScanTagRestOutcome(rt: Library, first: char, c: Cursor)
    requires Axioms(rt) && Valid(c) && c.startIndex < c.pos
    requires first == c.src[c.pos - 1] || IsAtEnd(c)
    ensures var r := ScanTagRest(rt, first, c);
            TagOutcome(rt, c.src, c.pos - 1, r.0, r.1)
  {
    var b := TagBody(rt, c, '\0', false);
    if b.Aborted? {
      ScanTagRestAborted(rt, first, c);
    } else if !IsAtEnd(b.at) {
      ScanTagRestComplete(rt, first, c);
    }
  }

  /** `ScanTag` is the whitespace skip followed by the rest of the tag. */
  lemma ScanTagSkipsWhiteSpace(rt: Library, current: char, c: Cursor)
    requires Axioms(rt) && Valid(c) && c.startIndex < c.pos
    ensures var w := AdvanceWhiteSpaces(rt, current, c);
            ScanTag(rt, current, c) == ScanTagRest(rt, w.0, w.1)
  {
  }

  /** Where the whitespace skip at the start of `ScanTag` lands, in the terms `ScanTagRestOutcome` asks for. */
  lemma ScanTagLands(rt: Library, current: char, c: Cursor)
    requires Axioms(rt) && Valid(c) && c.startIndex < c.pos && current == c.src[c.pos - 1]
    ensures var w := AdvanceWhiteSpaces(rt, current, c);
            var f := FirstNonWhiteSpace(rt, c.src, c.pos - 1);
            && Valid(w.1) && w.1.src == c.src && w.1.startIndex < w.1.pos
            && (f < |c.src| ==> w.1.pos - 1 == f && w.0 == c.src[w.1.pos - 1])
            && (f == |c.src| ==> w.1.pos == |c.src|)
            && (w.0 == w.1.src[w.1.pos - 1] || IsAtEnd(w.1))
  {
    AdvanceWhiteSpacesLands(rt, current, c);
  }

  /** The outcome of the whole of `ScanTag`, judged from the first non-whitespace character after the one in hand. */
  lemma ScanTagOutcome(rt: Library, current: char, c: Cursor)
    requires Axioms(rt) && Valid(c) && c.startIndex < c.pos && current == c.src[c.pos - 1]
    ensures var r := ScanTag(rt, current, c);
            TagOutcome(rt, c.src, FirstNonWhiteSpace(rt, c.src, c.pos - 1), r.0, r.1)
  {
    var f := FirstNonWhiteSpace(rt, c.src, c.pos - 1);
    var w := AdvanceWhiteSpaces(rt, current, c);
    ScanTagLands(rt, current, c);
    ScanTagRestOutcome(rt, w.0, w.1);
    var r := ScanTagRest(rt, w.0, w.1);
    ScanTagSkipsWhiteSpace(rt, current, c);
    if f < |c.src| {
      OutcomeMoves(rt, w.1.src, w.1.pos - 1, r, c.src, f, ScanTag(rt, current, c));
    } else {
      OutcomeAtEnd(rt, c.src, w.1.pos - 1, f, r.0, r.1);
      OutcomeMoves(rt, c.src, f, r, c.src, f, ScanTag(rt, current, c));
    }
  }

  lemma OutcomeMoves(rt: Library, src: seq<char>, f: int, r: (Token, Cursor), src': seq<char>, f': int, r': (Token, Cursor))
    requires src == src' && f == f' && r == r' && TagOutcome(rt, src, f, r.0, r.1)
    ensures TagOutcome(rt, src', f', r'.0, r'.1)
  {
  }

  lemma OutcomeAtEnd(rt: Library, src: seq<char>, f: int, f': int, t: Token, d: Cursor)
    requires f == |src| - 1 && f' == |src| && TagOutcome(rt, src, f, t, d)
    ensures TagOutcome(rt, src, f', t, d)
  {
  }

  // ------------------------------------------------------- one call, by case

  /** `ScanNextToken` from a cursor outside a tag, unfolded to the first character's branch. */
  lemma ScanNextTokenUnfolds(rt: Library, c: Cursor)
    requires Axioms(rt) && Valid(c) && !c.isInTag && !IsAtEnd(c)
    ensures ScanNextToken(rt, c) == ScanFirst(rt, c.src[c.pos], c.(pos := c.pos + 1, startIndex := c.pos))
  {
    var c0 := c.(startIndex := c.pos);
    assert Advance(c0) == (c.src[c.pos], c.(pos := c.pos + 1, startIndex := c.pos));
  }

  /**
   A '<' with fewer than two characters after it is a Text token of kind
   Invalid up to the end; otherwise the tag scan decides, from the first
   non-whitespace character after the '<'.
   */
  lemma LessThanStep(rt: Library, c: Cursor)
    requires Axioms(rt) && Valid(c) && !c.isInTag && !IsAtEnd(c) && c.src[c.pos] == '<'
    ensures var r := ScanNextToken(rt, c);
            && (c.pos + 2 >= |c.src| ==>
                  r.0.tokenType == Text && r.0.kind == Invalid && r.0.start + r.0.length == r.1.pos == |c.src|)
            && (c.pos + 2 < |c.src| ==> TagOutcome(rt, c.src, FirstNonWhiteSpace(rt, c.src, c.pos + 1), r.0, r.1))
  {
    if c.pos + 2 < |c.src| {
      TagStartOutcome(rt, c);
    } else {
      LessThanStart(rt, c);
    }
  }

  /** A '<' with at least two characters after it ends as the tag scan from its first non-whitespace character decides. */
  lemma TagStartOutcome(rt: Library, c: Cursor)
    requires Axioms(rt) && Valid(c) && !c.isInTag && c.pos + 2 < |c.src| && c.src[c.pos] == '<'
    ensures var r := ScanNextToken(rt, c);
            TagOutcome(rt, c.src, FirstNonWhiteSpace(rt, c.src, c.pos + 1), r.0, r.1)
  {
    var c2 := c.(pos := c.pos + 2, startIndex := c.pos, isInTag := true);
    TagStartStep(rt, c);
    ScanTagOutcome(rt, c.src[c.pos + 1], c2);
    assert c2.pos - 1 == c.pos + 1;
  }

  /** Outside a tag, a '<' hands the scan to `ScanTagStart` just past it. */
  lemma LessThanStart(rt: Library, c: Cursor)
    requires Axioms(rt) && Valid(c) && !c.isInTag && !IsAtEnd(c) && c.src[c.pos] == '<'
    ensures ScanNextToken(rt, c) == ScanTagStart(rt, c.(pos := c.pos + 1, startIndex := c.pos))
  {
    ScanNextTokenUnfolds(rt, c);
    assert ScanFirst(rt, '<', c.(pos := c.pos + 1, startIndex := c.pos)) == ScanTagStart(rt, c.(pos := c.pos + 1, startIndex := c.pos));
  }

  /** A '>' outside a tag is a one-character Text token of kind Invalid. */
  lemma GreaterThanStep(rt: Library, c: Cursor)
    requires Axioms(rt) && Valid(c) && !c.isInTag && !IsAtEnd(c) && c.src[c.pos] == '>'
    ensures var r := ScanNextToken(rt, c);
            && r.0 == Token(Text, Invalid, c.blockLevel, c.pos, 1)
            && r.1 == c.(pos := c.pos + 1, startIndex := c.pos)
  {
    ScanNextTokenUnfolds(rt, c);
  }

  /** Any other character but '&' starts a Text token of kind None up to the next '<' or '&'. */
  lemma TextStep(rt: Library, c: Cursor)
    requires Axioms(rt) && Valid(c) && !c.isInTag && !IsAtEnd(c)
    requires c.src[c.pos] != '<' && c.src[c.pos] != '>' && c.src[c.pos] != '&'
    ensures var r := ScanNextToken(rt, c);
            && r.0.tokenType == Text && r.0.kind == None && r.0.start == c.pos
            && r.0.start + r.0.length == r.1.pos && TextRunTo(c.src, c.pos + 1, r.1.pos)
  {
    ScanNextTokenUnfolds(rt, c);
  }

  /** An entity ends at the first character after its second that is not a letter or digit. */
  lemma EntityEndUnique(rt: Library, s: seq<char>, i: int, j: int, j': int)
    requires Axioms(rt) && EntityAt(rt, s, i, j) && EntityAt(rt, s, i, j')
    ensures j == j'
  {
    assert s[j - 1] == ';' && s[j' - 1] == ';';
  }

  /**
   A '&' starts an entity token exactly when an entity starts there, and the
   token ends where the entity does; otherwise it starts a Text token of kind
   None up to the next '<' or '&'.
   */
  lemma AmpersandStep(rt: Library, c: Cursor)
    requires Axioms(rt) && Valid(c) && !c.isInTag && !IsAtEnd(c) && c.src[c.pos] == '&'
    ensures var r := ScanNextToken(rt, c);
            && r.0.start == c.pos && r.0.start + r.0.length == r.1.pos
            && (r.0.tokenType == HtmlEntity <==> !NoEntityAt(rt, c.src, c.pos))
            && (forall j :: EntityAt(rt, c.src, c.pos, j) ==> r.0.tokenType == HtmlEntity && r.1.pos == j)
            && (r.0.tokenType != HtmlEntity ==>
                  r.0.tokenType == Text && r.0.kind == None && TextRunTo(c.src, c.pos + 1, r.1.pos))
  {
    ScanNextTokenUnfolds(rt, c);
    var r := ScanNextToken(rt, c);
    forall j | EntityAt(rt, c.src, c.pos, j)
      ensures r.0.tokenType == HtmlEntity && r.1.pos == j
    {
      EntityEndUnique(rt, c.src, c.pos, j, r.1.pos);
    }
  }

  /**
   The comments of the entity branch allow whitespace before the closing ';'
   (`&gt    ;`), but the code tests for the ';' only right after the letters and
   digits: the current scanner answers `&gt   ;` with a single text token.
   */
  lemma SpacedEntityIsText(rt: Library)
    requires Axioms(rt)
    ensures ScanNextToken(rt, Fresh("&gt   ;")) == (Token(Text, None, 0, 0, 7), Cursor("&gt   ;", 7, 0, 0, false))
  {
    var s := "&gt   ;";
    var c := Fresh(s);
    forall j | true
      ensures !EntityAt(rt, s, 0, j)
    {
      if 4 <= j <= |s| && s[j - 1] == ';' {
        assert j == 7 && !rt.isLetterOrDigit(s[3]);
      }
    }
    AmpersandStep(rt, c);
    var r := ScanNextToken(rt, c);
    assert TextRunTo(s, 1, 7);
    TextRunToUnique(s, 1, 7, r.1.pos);
  }

  // ------------------------------------------------- plain tags and text runs

  /** Between `i` and `e` there is no '<', '>' or '"': nothing that ends, aborts or quotes a tag body. */
  ghost predicate PlainTagText(s: seq<char>, i: int, e: int) {
    0 <= i <= e <= |s| && forall k :: i <= k < e ==> s[k] != '<' && s[k] != '>' && s[k] != '"'
  }

  /** Over plain tag text the attribute loop runs straight to the '>' at `e`. */
  lemma {:induction false} TagBodyPlain(rt: Library, c: Cursor, last: char, e: int)
    requires Axioms(rt) && Valid(c) && PlainTagText(c.src, c.pos, e) && e < |c.src| && c.src[e] == '>'
    ensures TagBody(rt, c, last, false) == Reached(LastNonWhiteSpace(rt, c.src, c.pos, e, last), c.(pos := e))
    decreases e - c.pos
  {
    if c.pos < e {
      var (current, c1) := Advance(c);
      TagBodyPlain(rt, c1, if !rt.isWhiteSpace(current) then current else last, e);
    }
  }

  /** The type a plain tag from `c.pos` to the '>' at `e` gets. */
  function PlainTagType(rt: Library, s: seq<char>, p: int, e: int): TokenType
    requires 0 <= p && p + 2 <= e <= |s|
  {
    TagType(s[p + 1], LastNonWhiteSpace(rt, s, p + 2, e, '\0'))
  }

  /**
   A '<' followed by a non-whitespace character and plain tag text up to a
   '>' is one tag token: it spans the '<' to the '>', is classified by its own
   text, is stamped by `AdjustBlockLevel`, and the next scan starts just past
   the '>' (unless it opens a script or style body).
   */
  lemma PlainTagStep(rt: Library, c: Cursor, e: int)
    requires Axioms(rt) && Valid(c) && !c.isInTag
    requires c.pos + 2 <= e < |c.src| && c.src[c.pos] == '<' && c.src[e] == '>'
    requires !rt.isWhiteSpace(c.src[c.pos + 1]) && PlainTagText(c.src, c.pos + 2, e)
    requires var kind := Parse(rt, c.src[c.pos..e + 1]);
             !(PlainTagType(rt, c.src, c.pos, e) == HtmlOpenTag && (kind == Script || kind == Style))
    ensures var tokenType := PlainTagType(rt, c.src, c.pos, e);
            var kind := Parse(rt, c.src[c.pos..e + 1]);
            var (level, after) := AdjustBlockLevel(c.blockLevel, kind, tokenType);
            ScanNextToken(rt, c) == (Token(tokenType, kind, level, c.pos, e + 1 - c.pos), Cursor(c.src, e + 1, c.pos, after, false))
  {
    PlainTagToFinish(rt, c, e);
    FinishPlainTag(rt, PlainTagType(rt, c.src, c.pos, e), c.src, c.pos, e, c.blockLevel);
  }

  /** A '<' with at least two characters after it hands the scan to `ScanTag` two characters on, inside the tag. */
  lemma TagStartStep(rt: Library, c: Cursor)
    requires Axioms(rt) && Valid(c) && !c.isInTag && c.pos + 2 < |c.src| && c.src[c.pos] == '<'
    ensures ScanNextToken(rt, c) == ScanTag(rt, c.src[c.pos + 1], c.(pos := c.pos + 2, startIndex := c.pos, isInTag := true))
  {
    var c1 := c.(pos := c.pos + 1, startIndex := c.pos);
    var c2 := c.(pos := c.pos + 2, startIndex := c.pos);
    LessThanStart(rt, c);
    assert Advance(c1) == (c.src[c.pos + 1], c2);
    assert ScanTagStart(rt, c1) == ScanTag(rt, c.src[c.pos + 1], c2.(isInTag := true));
  }

  /** Over plain tag text the scan runs from the '<' to the '>' and hands over to `FinishTag`. */
  lemma PlainTagToFinish(rt: Library, c: Cursor, e: int)
    requires Axioms(rt) && Valid(c) && !c.isInTag
    requires c.pos + 2 <= e < |c.src| && c.src[c.pos] == '<' && c.src[e] == '>'
    requires !rt.isWhiteSpace(c.src[c.pos + 1]) && PlainTagText(c.src, c.pos + 2, e)
    ensures ScanNextToken(rt, c) == FinishTag(rt, PlainTagType(rt, c.src, c.pos, e), Cursor(c.src, e, c.pos, c.blockLevel, false))
  {
    TagStartStep(rt, c);
    PlainTagRest(rt, c.src[c.pos + 1], c.(pos := c.pos + 2, startIndex := c.pos, isInTag := true), e);
  }

  /** `ScanTag` over plain tag text reaches the '>' and hands over to `FinishTag`. */
  lemma PlainTagRest(rt: Library, first: char, c: Cursor, e: int)
    requires Axioms(rt) && Valid(c) && 2 <= c.pos && c.startIndex == c.pos - 2 && c.isInTag
    requires first == c.src[c.pos - 1] && !rt.isWhiteSpace(first)
    requires PlainTagText(c.src, c.pos, e) && e < |c.src| && c.src[e] == '>'
    ensures ScanTag(rt, first, c) == FinishTag(rt, PlainTagType(rt, c.src, c.pos - 2, e), c.(pos := e, isInTag := false))
  {
    assert AdvanceWhiteSpaces(rt, first, c) == (first, c);
    TagBodyPlain(rt, c, '\0', e);
  }

  /** `FinishTag` on a tag that opens no raw-text body. */
  lemma FinishPlainTag(rt: Library, tokenType: TokenType, src: seq<char>, start: int, e: int, level: int)
    requires 0 <= start < e < |src| && src[e] == '>' && IsTagType(tokenType)
    requires var kind := Parse(rt, src[start..e + 1]);
             !(tokenType == HtmlOpenTag && (kind == Script || kind == Style))
    ensures var kind := Parse(rt, src[start..e + 1]);
            var (tokenLevel, after) := AdjustBlockLevel(level, kind, tokenType);
            FinishTag(rt, tokenType, Cursor(src, e, start, level, false))
            == (Token(tokenType, kind, tokenLevel, start, e + 1 - start), Cursor(src, e + 1, start, after, false))
  {
    var c1 := Cursor(src, e + 1, start, level, false);
    var kind := Parse(rt, src[start..e + 1]);
    assert Advance(Cursor(src, e, start, level, false)).1 == c1;
    assert c1.src[c1.startIndex..c1.pos] == src[start..e + 1];
    assert SkipBody(rt, c1, tokenType, kind) == c1;
  }

  /** A run of text from `c.pos` up to the next '<' or '&' at `e` (or the end) is one Text token of kind None. */
  lemma TextRunStep(rt: Library, c: Cursor, e: int)
    requires Axioms(rt) && Valid(c) && !c.isInTag && TextRunTo(c.src, c.pos + 1, e)
    requires c.src[c.pos] != '<' && c.src[c.pos] != '>' && c.src[c.pos] != '&'
    ensures ScanNextToken(rt, c) == (Token(Text, None, c.blockLevel, c.pos, e - c.pos), Cursor(c.src, e, c.pos, c.blockLevel, false))
  {
    TextStep(rt, c);
    var r := ScanNextToken(rt, c);
    TextRunToUnique(c.src, c.pos + 1, e, r.1.pos);
  }

  /** A text run from a given position has exactly one end. */
  lemma TextRunToUnique(s: seq<char>, from: int, e: int, e': int)
    requires TextRunTo(s, from, e) && TextRunTo(s, from, e')
    ensures e == e'
  {
  }
}
