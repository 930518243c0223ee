/**
 The expected outputs of three inputs from the converter's own test suite.
 Each input is first cut into tokens by the scanner, under the ASCII character
 tables and with any entity decoder; the token stream it yields is written out
 below, as index ranges over the input, and is then followed through the
 tag-balance driver and the writer one token at a time, down to the text
 `Textorize` returns.
 */
module Scenarios {
  import opened Runtime
  import opened Html
  import opened SourceScan
  import TagParser
  import Scanner
  import ScannerLemmas
  import opened Writer
  import opened Textorizer

  /** A text token appends what the writer makes of it and changes nothing else. */
  lemma StepText(rt: Library, src: seq<char>, st: State, tok: Token, text: seq<char>, st': State)
    requires Spans(src, st) && SpanIn(tok, src) && tok.tokenType == Text
    requires TextToAppend(rt, View(src, st.(current := tok)), st.out, tok) == text
    requires st' == st.(out := st.out + text, previous := tok, current := tok)
    ensures Step(rt, src, st, tok) == Next(st')
  {
  }

  /**
   Inside an element, outside preformatted text, a run that is already reduced
   and does not start with whitespace is written as it stands.
   */
  lemma ElementText(rt: Library, st: WriteState, out: seq<char>, tok: Token)
    requires SpanIn(tok, st.src) && tok.tokenType == Text
    requires !IsAfterPreOpen(st) && !IsInPreformattedText(st) && st.inElement != None && st.inElement != Invalid
    requires Reduced(rt, Value(tok, st.src))
    requires |Value(tok, st.src)| == 0 || !rt.isWhiteSpace(Value(tok, st.src)[0])
    ensures TextToAppend(rt, st, out, tok) == Value(tok, st.src)
  {
    ReducedIsFixed(rt, Value(tok, st.src));
  }

  /**
   The tokens from `lo` up to `hi` each take state `sts[i]` to `sts[i + 1]`:
   `sts` is the run of states the driver passes through.
   */
  ghost predicate Trace(rt: Library, src: seq<char>, sts: seq<State>, toks: seq<Token>, lo: nat, hi: nat)
  {
    && lo <= hi <= |toks| && |sts| == |toks| + 1
    && forall k :: lo <= k < hi ==> Moves(rt, src, sts, toks, k)
  }

  /** Token `k` takes state `sts[k]` to `sts[k + 1]`. */
  ghost predicate Moves(rt: Library, src: seq<char>, sts: seq<State>, toks: seq<Token>, k: nat)
  {
    && k < |toks| && |sts| == |toks| + 1
    && Spans(src, sts[k]) && Scanned(src, toks[k])
    && Step(rt, src, sts[k], toks[k]) == Next(sts[k + 1])
  }

  /** One step, with its states and token named, is a trace of length one. */
  lemma TraceOne(rt: Library, src: seq<char>, sts: seq<State>, toks: seq<Token>, k: nat, st: State, tok: Token, st': State)
    requires k < |toks| && |sts| == |toks| + 1
    requires sts[k] == st && toks[k] == tok && sts[k + 1] == st'
    requires Spans(src, st) && Scanned(src, tok) && Step(rt, src, st, tok) == Next(st')
    ensures Trace(rt, src, sts, toks, k, k + 1)
  {
    assert Moves(rt, src, sts, toks, k);
  }

  /** Two adjacent traces make one. */
  lemma TraceJoin(rt: Library, src: seq<char>, sts: seq<State>, toks: seq<Token>, lo: nat, mid: nat, hi: nat)
    requires Trace(rt, src, sts, toks, lo, mid) && Trace(rt, src, sts, toks, mid, hi)
    ensures Trace(rt, src, sts, toks, lo, hi)
  {
  }

  /** The first step of a non-empty trace, and the trace after it. */
  lemma TraceSplit(rt: Library, src: seq<char>, sts: seq<State>, toks: seq<Token>, lo: nat, hi: nat)
    requires Trace(rt, src, sts, toks, lo, hi) && lo < hi
    ensures Spans(src, sts[lo]) && Scanned(src, toks[lo])
    ensures Step(rt, src, sts[lo], toks[lo]) == Next(sts[lo + 1])
    ensures Trace(rt, src, sts, toks, lo + 1, hi)
  {
    assert Moves(rt, src, sts, toks, lo);
  }

  /** The state after the first step of a non-empty trace still spans the source. */
  lemma TraceSpans(rt: Library, src: seq<char>, sts: seq<State>, toks: seq<Token>, k: nat)
    requires Trace(rt, src, sts, toks, k, |toks|) && k < |toks|
    ensures Spans(src, sts[k + 1]) && Scanned(src, toks[k]) && Trace(rt, src, sts, toks, k + 1, |toks|)
  {
    TraceSplit(rt, src, sts, toks, k, |toks|);
    StepSpans(rt, src, sts[k], toks[k]);
  }

  /** A run of states the steps agree with is what the driver computes. */
  lemma {:induction false} DriveTrace(rt: Library, src: seq<char>, sts: seq<State>, toks: seq<Token>, k: nat)
    requires Trace(rt, src, sts, toks, k, |toks|) && Spans(src, sts[k])
    ensures AllScanned(src, toks[k..])
    ensures Drive(rt, src, sts[k], toks[k..]) == Next(sts[|toks|])
    decreases |toks| - k
  {
    if k == |toks| {
      assert toks[k..] == [];
    } else {
      TraceSpans(rt, src, sts, toks, k);
      DriveTrace(rt, src, sts, toks, k + 1);
      ScannedCons(src, toks, k);
      TraceSplit(rt, src, sts, toks, k, |toks|);
      DriveStep(rt, src, sts[k], toks[k..], sts[k + 1]);
      assert toks[k..][1..] == toks[k + 1..];
    }
  }

  lemma ScannedCons(src: seq<char>, toks: seq<Token>, k: nat)
    requires k < |toks| && Scanned(src, toks[k]) && AllScanned(src, toks[k + 1..])
    ensures AllScanned(src, toks[k..]) && toks[k..][0] == toks[k]
  {
    var rest := toks[k..];
    forall i | 0 <= i < |rest|
      ensures Scanned(src, rest[i])
    {
      if i > 0 {
        assert rest[i] == toks[k + 1..][i - 1];
      }
    }
  }

  /** The list's tags, open and close. */
  lemma ParseUlTags(d: seq<char> -> seq<char>)
    ensures TagParser.Parse(Ascii(d), "<ul>") == Ul && TagParser.Parse(Ascii(d), "</ul>") == Ul
  {
    var rt := Ascii(d);
    assert TagParser.Upper(rt, "ul") == "UL";
    assert "<ul>" == ['<'] + [] + "ul" + ">";
    TagParser.ParseSpellings(rt, [], "ul", ">");
    assert "</ul>" == ['<'] + "/" + "ul" + ">";
    TagParser.ParseSpellings(rt, "/", "ul", ">");
  }

  /** The list item's tags, open and close. */
  lemma ParseLiTags(d: seq<char> -> seq<char>)
    ensures TagParser.Parse(Ascii(d), "<li>") == Li && TagParser.Parse(Ascii(d), "</li>") == Li
  {
    ParseOpenLi(d);
    ParseCloseLi(d);
  }

  /** The list item's open tag. */
  lemma ParseOpenLi(d: seq<char> -> seq<char>)
    ensures TagParser.Parse(Ascii(d), "<li>") == Li
  {
    var rt := Ascii(d);
    assert TagParser.Upper(rt, "li") == "LI";
    assert "<li>" == ['<'] + [] + "li" + ">";
    TagParser.ParseSpellings(rt, [], "li", ">");
  }

  /** The list item's close tag. */
  lemma ParseCloseLi(d: seq<char> -> seq<char>)
    ensures TagParser.Parse(Ascii(d), "</li>") == Li
  {
    var rt := Ascii(d);
    assert TagParser.Upper(rt, "li") == "LI";
    assert "</li>" == ['<'] + "/" + "li" + ">";
    TagParser.ParseSpellings(rt, "/", "li", ">");
  }

  /** The orphan example's stray close tags: an upper-case paragraph, and a div, which is some other element. */
  lemma ParseOrphanTags(d: seq<char> -> seq<char>)
    ensures TagParser.Parse(Ascii(d), "</P>") == P && TagParser.Parse(Ascii(d), "</div>") == Other
  {
    var rt := Ascii(d);
    assert TagParser.Upper(rt, "P") == "P";
    assert "</P>" == ['<'] + "/" + "P" + ">";
    TagParser.ParseSpellings(rt, "/", "P", ">");
    ParseCloseDiv(d);
  }

  /** A div is some other element. */
  lemma ParseCloseDiv(d: seq<char> -> seq<char>)
    ensures TagParser.Parse(Ascii(d), "</div>") == Other
  {
    var rt := Ascii(d);
    assert TagParser.Upper(rt, "div") == "DIV";
    assert "</div>" == ['<'] + "/" + "div" + ">";
    TagParser.ParseSpellings(rt, "/", "div", ">");
  }

  /** A slice of a literal input is the literal text it holds. */
  lemma SliceIs(s: seq<char>, i: nat, w: seq<char>)
    requires i + |w| <= |s| && forall k :: 0 <= k < |w| ==> s[i + k] == w[k]
    ensures s[i..i + |w|] == w
  {
  }

  /** The scanner answers `t` at `c` and then `rest` from where `t` ends. */
  lemma TokensCons(rt: Library, c: Cursor, t: Token, next: Cursor, rest: seq<Token>)
    requires Axioms(rt) && Valid(c) && !c.isInTag
    requires Scanner.ScanNextToken(rt, c) == (t, next) && t.tokenType != Eof
    requires Tokens(rt, next) == rest
    ensures Tokens(rt, c) == [t] + rest
  {
  }

  /** A tag that holds only a name, after an optional '/', in the ASCII tables. */
  ghost predicate IsNameTag(w: seq<char>) {
    && 3 <= |w| && w[0] == '<' && w[|w| - 1] == '>'
    && (w[1] == '/' || AsciiIsLetter(w[1]))
    && forall k :: 2 <= k < |w| - 1 ==> AsciiIsLetterOrDigit(w[k])
  }

  /** The input holds `w` from position `i` on. */
  ghost predicate HoldsAt(s: seq<char>, i: int, w: seq<char>) {
    0 <= i && i + |w| <= |s| && s[i..i + |w|] == w
  }

  /** Over a run with no whitespace, the last non-whitespace character is the run's last. */
  lemma {:induction false} LastOfRun(rt: Library, s: seq<char>, i: nat, e: nat, last: char)
    requires i <= e <= |s| && forall k :: i <= k < e ==> !rt.isWhiteSpace(s[k])
    ensures Scanner.LastNonWhiteSpace(rt, s, i, e, last) == if i == e then last else s[e - 1]
    decreases e - i
  {
    if i < e {
      LastOfRun(rt, s, i + 1, e, s[i]);
    }
  }

  /** A letter or digit is not whitespace in the ASCII tables. */
  lemma NameCharsAreNotWhiteSpace(d: seq<char> -> seq<char>, s: seq<char>, i: int, e: int)
    requires 0 <= i <= e <= |s| && forall k :: i <= k < e ==> AsciiIsLetterOrDigit(s[k])
    ensures forall k :: i <= k < e ==> !Ascii(d).isWhiteSpace(s[k]) && s[k] != '/'
    ensures ScannerLemmas.PlainTagText(s, i, e)
  {
  }

  /**
   Under the ASCII tables a tag that holds only a name, after an optional '/',
   is one token: a close tag when the '/' is there and an open tag otherwise.
   */
  lemma NameTagStep(d: seq<char> -> seq<char>, c: Cursor, e: int, kind: HtmlElementType)
    requires Valid(c) && !c.isInTag && c.pos + 2 <= e < |c.src|
    requires c.src[c.pos] == '<' && c.src[e] == '>'
    requires c.src[c.pos + 1] == '/' || AsciiIsLetter(c.src[c.pos + 1])
    requires forall k :: c.pos + 2 <= k < e ==> AsciiIsLetterOrDigit(c.src[k])
    requires TagParser.Parse(Ascii(d), c.src[c.pos..e + 1]) == kind && kind != Script && kind != Style
    ensures var tokenType := if c.src[c.pos + 1] == '/' then HtmlCloseTag else HtmlOpenTag;
            var (level, after) := Scanner.AdjustBlockLevel(c.blockLevel, kind, tokenType);
            Scanner.ScanNextToken(Ascii(d), c) == (Token(tokenType, kind, level, c.pos, e + 1 - c.pos), Cursor(c.src, e + 1, c.pos, after, false))
  {
    var rt := Ascii(d);
    NameCharsAreNotWhiteSpace(d, c.src, c.pos + 2, e);
    LastOfRun(rt, c.src, c.pos + 2, e, '\0');
    ScannerLemmas.PlainTagStep(rt, c, e);
  }

  /** A name tag at `p`, ending at `e`, puts its '<', its '>' and its name's characters where `NameTagStep` looks for them. */
  lemma NameTagFacts(src: seq<char>, p: int, e: int, w: seq<char>)
    requires HoldsAt(src, p, w) && IsNameTag(w) && e == p + |w| - 1
    ensures p + 2 <= e < |src| && src[p..e + 1] == w
    ensures src[p] == '<' && src[e] == '>' && src[p + 1] == w[1]
    ensures src[p + 1] == '/' || AsciiIsLetter(src[p + 1])
    ensures forall k :: p + 2 <= k < e ==> AsciiIsLetterOrDigit(src[k])
  {
    forall k | p + 2 <= k < e
      ensures AsciiIsLetterOrDigit(src[k])
    {
      assert src[k] == w[k - p];
    }
  }

  /**
   The name tag `w` where the cursor stands is one token of the given type,
   stamped and leaving the level as `AdjustBlockLevel` says.
   */
  lemma NameTagAt(d: seq<char> -> seq<char>, c: Cursor, e: int, w: seq<char>, kind: HtmlElementType,
                  tokenType: TokenType, level: int, after: int)
    requires Valid(c) && !c.isInTag && HoldsAt(c.src, c.pos, w) && IsNameTag(w) && e == c.pos + |w| - 1
    requires TagParser.Parse(Ascii(d), w) == kind && kind != Script && kind != Style
    requires tokenType == (if w[1] == '/' then HtmlCloseTag else HtmlOpenTag)
    requires Scanner.AdjustBlockLevel(c.blockLevel, kind, tokenType) == (level, after)
    ensures Scanner.ScanNextToken(Ascii(d), c) == (Token(tokenType, kind, level, c.pos, e + 1 - c.pos), Cursor(c.src, e + 1, c.pos, after, false))
  {
    NameTagFacts(c.src, c.pos, e, w);
    NameTagStep(d, c, e, kind);
  }

  /**
   A run of text `w` at `p` that ends where a tag or an entity starts, or at the
   end of the input, is the run `TextRunStep` scans as one token.
   */
  lemma TextFacts(src: seq<char>, p: int, w: seq<char>)
    requires HoldsAt(src, p, w) && 0 < |w|
    requires w[0] != '>' && forall k :: 0 <= k < |w| ==> w[k] != '<' && w[k] != '&'
    requires p + |w| == |src| || src[p + |w|] == '<' || src[p + |w|] == '&'
    ensures src[p] != '<' && src[p] != '>' && src[p] != '&'
    ensures Scanner.TextRunTo(src, p + 1, p + |w|)
  {
    assert src[p] == w[0];
    forall k | p + 1 <= k < p + |w|
      ensures src[k] != '<' && src[k] != '&'
    {
      assert src[k] == w[k - p];
    }
  }

  /** A non-blank input whose tokens drive the loop to `final` converts to the text `final` holds. */
  lemma TextorizeVia(rt: Library, src: seq<char>, toks: seq<Token>, final: State)
    requires Axioms(rt) && 0 < |src| && !rt.isWhiteSpace(src[0])
    requires Tokens(rt, Fresh(src)) == toks && Drive(rt, src, Initial, toks) == Next(final)
    ensures Textorize(rt, src) == Done(final.out)
  {
    RunIsDrive(rt, Fresh(src), Initial);
  }

  // ---------------------------------------------------------------------------
  // "<p>plain text</p>" gives "\nplain text\n"

  const Plain: seq<char> := "<p>plain text</p>"

  const A0: Token := Token(HtmlOpenTag, P, 0, 0, 3)
  const A1: Token := Token(Text, None, 1, 3, 10)
  const A2: Token := Token(HtmlCloseTag, P, 0, 13, 4)

  const PlainTokens: seq<Token> := [A0, A1, A2]

  const PlainAfter0: State :=
    State("\n", P, 1, A0, A0, 0, 0, [TokenInfo(1, A0)])
  const PlainAfter1: State :=
    State("\nplain text", P, 1, A1, A1, 0, 0, [TokenInfo(1, A0)])
  const PlainAfter2: State :=
    State("\nplain text\n", None, 0, A2, A2, 0, 0, [])

  /** Where the tags and text runs of "<p>plain text</p>" sit in an input. */
  ghost predicate IsPlainInput(src: seq<char>) {
    && |src| == 17
    && HoldsAt(src, 0, "<p>")
    && HoldsAt(src, 3, "plain text")
    && HoldsAt(src, 13, "</p>")
  }

  /** The example input is laid out as `IsPlainInput` says. */
  lemma PlainLaidOut()
    ensures IsPlainInput(Plain)
  {
    PlainHolds0();
    PlainHolds1();
    PlainHolds2();
  }

  /** Each piece of the layout, one at a time. */
  lemma PlainHolds0()
    ensures HoldsAt(Plain, 0, "<p>")
  {
    SliceIs(Plain, 0, "<p>");
  }

  lemma PlainHolds1()
    ensures HoldsAt(Plain, 3, "plain text")
  {
    SliceIs(Plain, 3, "plain text");
  }

  lemma PlainHolds2()
    ensures HoldsAt(Plain, 13, "</p>")
  {
    SliceIs(Plain, 13, "</p>");
  }

  /** Each token of an input laid out like "<p>plain text</p>", from the cursor before it to the cursor after it. */
  lemma PlainScan0(d: seq<char> -> seq<char>, src: seq<char>)
    requires IsPlainInput(src)
    ensures Scanner.ScanNextToken(Ascii(d), Fresh(src)) == (A0, Cursor(src, 3, 0, 1, false))
  {
    TagParser.ParseSpellingsOfP(d);
    NameTagAt(d, Fresh(src), 2, "<p>", P, HtmlOpenTag, 0, 1);
  }

  lemma PlainScan1(d: seq<char> -> seq<char>, src: seq<char>)
    requires IsPlainInput(src)
    ensures Scanner.ScanNextToken(Ascii(d), Cursor(src, 3, 0, 1, false)) == (A1, Cursor(src, 13, 3, 1, false))
  {
    TextFacts(src, 3, "plain text");
    ScannerLemmas.TextRunStep(Ascii(d), Cursor(src, 3, 0, 1, false), 13);
  }

  lemma PlainScan2(d: seq<char> -> seq<char>, src: seq<char>)
    requires IsPlainInput(src)
    ensures Scanner.ScanNextToken(Ascii(d), Cursor(src, 13, 3, 1, false)) == (A2, Cursor(src, 17, 13, 0, false))
  {
    TagParser.ParseSpellingsOfP(d);
    NameTagAt(d, Cursor(src, 13, 3, 1, false), 16, "</p>", P, HtmlCloseTag, 0, 0);
  }

  /** From each cursor of the run on, the scanner answers the tokens that are left. */
  lemma PlainFrom2(d: seq<char> -> seq<char>, src: seq<char>)
    requires IsPlainInput(src)
    ensures Tokens(Ascii(d), Cursor(src, 13, 3, 1, false)) == [A2]
  {
    PlainScan2(d, src);
    assert Tokens(Ascii(d), Cursor(src, 17, 13, 0, false)) == [];
    TokensCons(Ascii(d), Cursor(src, 13, 3, 1, false), A2, Cursor(src, 17, 13, 0, false), []);
  }

  lemma PlainFrom1(d: seq<char> -> seq<char>, src: seq<char>)
    requires IsPlainInput(src)
    ensures Tokens(Ascii(d), Cursor(src, 3, 0, 1, false)) == [A1] + [A2]
  {
    PlainScan1(d, src);
    PlainFrom2(d, src);
    TokensCons(Ascii(d), Cursor(src, 3, 0, 1, false), A1, Cursor(src, 13, 3, 1, false), [A2]);
  }

  lemma PlainFrom0(d: seq<char> -> seq<char>, src: seq<char>)
    requires IsPlainInput(src)
    ensures Tokens(Ascii(d), Fresh(src)) == [A0] + ([A1] + [A2])
  {
    PlainScan0(d, src);
    PlainFrom1(d, src);
    TokensCons(Ascii(d), Fresh(src), A0, Cursor(src, 3, 0, 1, false), [A1] + [A2]);
  }

  /** Any input laid out like "<p>plain text</p>" scans to the same tokens. */
  lemma PlainScanOf(d: seq<char> -> seq<char>, src: seq<char>)
    requires IsPlainInput(src)
    ensures Tokens(Ascii(d), Fresh(src)) == PlainTokens
  {
    PlainFrom0(d, src);
    PlainTokensOneByOne();
  }

  /** The tokens written out above, taken one at a time from the front. */
  lemma PlainTokensOneByOne()
    ensures PlainTokens == [A0] + ([A1] + [A2])
  {
  }

  /** The scanner cuts the example input into the tokens written out above. */
  lemma PlainScan(d: seq<char> -> seq<char>)
    ensures Tokens(Ascii(d), Fresh(Plain)) == PlainTokens
  {
    PlainLaidOut();
    PlainScanOf(d, Plain);
  }

  /** The scanner cuts the input into the paragraph's open tag, its text and its close tag. */
  lemma PlainStep0(d: seq<char> -> seq<char>)
    ensures Step(Ascii(d), Plain, Initial, A0) == Next(PlainAfter0)
    ensures Spans(Plain, Initial) && Scanned(Plain, A0)
  {
    assert Spans(Plain, Initial) && Scanned(Plain, A0);
  }

  lemma PlainExtends1()
    ensures Spans(Plain, PlainAfter0) && SpanIn(A1, Plain)
    ensures PlainAfter0.(out := PlainAfter0.out + "plain text", previous := A1, current := A1) == PlainAfter1
  {
  }

  /** The example's one text run. */
  lemma PlainWords()
    ensures Value(A1, Plain) == "plain text"
  {
    assert Plain[3] == 'p' && Plain[4] == 'l' && Plain[5] == 'a' && Plain[6] == 'i' && Plain[7] == 'n' && Plain[8] == ' ' && Plain[9] == 't' && Plain[10] == 'e' && Plain[11] == 'x' && Plain[12] == 't';
  }

  lemma PlainReduced(d: seq<char> -> seq<char>)
    ensures Reduced(Ascii(d), "plain text")
  {
  }

  lemma PlainAppends1(d: seq<char> -> seq<char>)
    ensures TextToAppend(Ascii(d), View(Plain, PlainAfter0.(current := A1)), PlainAfter0.out, A1) == "plain text"
  {
    var rt := Ascii(d);
    PlainWords();
    PlainReduced(d);
    ElementText(rt, View(Plain, PlainAfter0.(current := A1)), PlainAfter0.out, A1);
  }

  lemma PlainStep1(d: seq<char> -> seq<char>)
    ensures Step(Ascii(d), Plain, PlainAfter0, A1) == Next(PlainAfter1)
    ensures Spans(Plain, PlainAfter0) && Scanned(Plain, A1)
  {
    assert Spans(Plain, PlainAfter0) && Scanned(Plain, A1);
    PlainAppends1(d);
    PlainExtends1();
    StepText(Ascii(d), Plain, PlainAfter0, A1, "plain text", PlainAfter1);
  }

  lemma PlainStep2(d: seq<char> -> seq<char>)
    ensures Step(Ascii(d), Plain, PlainAfter1, A2) == Next(PlainAfter2)
    ensures Spans(Plain, PlainAfter1) && Scanned(Plain, A2)
  {
    assert Spans(Plain, PlainAfter1) && Scanned(Plain, A2);
  }

  const PlainStates: seq<State> := [Initial, PlainAfter0, PlainAfter1, PlainAfter2]

  lemma PlainTrace0(d: seq<char> -> seq<char>)
    ensures Trace(Ascii(d), Plain, PlainStates, PlainTokens, 0, 1)
  {
    assert PlainStates[0] == Initial && PlainStates[1] == PlainAfter0 && PlainTokens[0] == A0;
    PlainStep0(d);
    TraceOne(Ascii(d), Plain, PlainStates, PlainTokens, 0, Initial, A0, PlainAfter0);
  }

  lemma PlainTrace1(d: seq<char> -> seq<char>)
    ensures Trace(Ascii(d), Plain, PlainStates, PlainTokens, 1, 2)
  {
    assert PlainStates[1] == PlainAfter0 && PlainStates[2] == PlainAfter1 && PlainTokens[1] == A1;
    PlainStep1(d);
    TraceOne(Ascii(d), Plain, PlainStates, PlainTokens, 1, PlainAfter0, A1, PlainAfter1);
  }

  lemma PlainTrace2(d: seq<char> -> seq<char>)
    ensures Trace(Ascii(d), Plain, PlainStates, PlainTokens, 2, 3)
  {
    assert PlainStates[2] == PlainAfter1 && PlainStates[3] == PlainAfter2 && PlainTokens[2] == A2;
    PlainStep2(d);
    TraceOne(Ascii(d), Plain, PlainStates, PlainTokens, 2, PlainAfter1, A2, PlainAfter2);
  }

  /**
   A paragraph is a line break, its text, and a line break.
   */
  lemma PlainParagraph(d: seq<char> -> seq<char>)
    ensures Tokens(Ascii(d), Fresh(Plain)) == PlainTokens
    ensures Drive(Ascii(d), Plain, Initial, PlainTokens) == Next(PlainAfter2)
    ensures Textorize(Ascii(d), Plain) == Done("\nplain text\n")
  {
    PlainScan(d);
    PlainDrive(d);
    TextorizeVia(Ascii(d), Plain, PlainTokens, PlainAfter2);
  }

  /** The driver's run over the tokens, one state per token. */
  lemma PlainDrive(d: seq<char> -> seq<char>)
    ensures AllScanned(Plain, PlainTokens)
    ensures Drive(Ascii(d), Plain, Initial, PlainTokens) == Next(PlainAfter2)
    ensures PlainAfter2.out == "\nplain text\n"
  {
    var rt := Ascii(d);
    PlainTrace0(d);
    PlainTrace1(d);
    PlainTrace2(d);
    TraceJoin(rt, Plain, PlainStates, PlainTokens, 0, 1, 2);
    TraceJoin(rt, Plain, PlainStates, PlainTokens, 0, 2, 3);
    DriveTrace(rt, Plain, PlainStates, PlainTokens, 0);
    assert PlainTokens[0..] == PlainTokens;
  }

  // ---------------------------------------------------------------------------
  // "<p><ul><li>item 1</li><li>item 2</li></ul></p>" gives "\n\n\n\t- item 1\n\t- item 2\n\n"

  const List: seq<char> := "<p><ul><li>item 1</li><li>item 2</li></ul></p>"

  const B0: Token := Token(HtmlOpenTag, P, 0, 0, 3)
  const B1: Token := Token(HtmlOpenTag, Ul, 1, 3, 4)
  const B2: Token := Token(HtmlOpenTag, Li, 2, 7, 4)
  const B3: Token := Token(Text, None, 3, 11, 6)
  const B4: Token := Token(HtmlCloseTag, Li, 2, 17, 5)
  const B5: Token := Token(HtmlOpenTag, Li, 2, 22, 4)
  const B6: Token := Token(Text, None, 3, 26, 6)
  const B7: Token := Token(HtmlCloseTag, Li, 2, 32, 5)
  const B8: Token := Token(HtmlCloseTag, Ul, 1, 37, 5)
  const B9: Token := Token(HtmlCloseTag, P, 0, 42, 4)

  const ListTokens: seq<Token> := [B0, B1, B2, B3, B4, B5, B6, B7, B8, B9]

  const ListAfter0: State :=
    State("\n", P, 1, B0, B0, 0, 0, [TokenInfo(1, B0)])
  const ListAfter1: State :=
    State("\n\n", Ul, 2, B1, B1, 0, 1, [TokenInfo(1, B0), TokenInfo(2, B1)])
  const ListAfter2: State :=
    State("\n\n\n\t- ", Li, 3, B2, B2, 0, 1, [TokenInfo(1, B0), TokenInfo(2, B1), TokenInfo(3, B2)])
  const ListAfter3: State :=
    State("\n\n\n\t- item 1", Li, 3, B3, B3, 0, 1, [TokenInfo(1, B0), TokenInfo(2, B1), TokenInfo(3, B2)])
  const ListAfter4: State :=
    State("\n\n\n\t- item 1", Ul, 2, B4, B4, 0, 1, [TokenInfo(1, B0), TokenInfo(2, B1)])
  const ListAfter5: State :=
    State("\n\n\n\t- item 1\n\t- ", Li, 3, B5, B5, 0, 1, [TokenInfo(1, B0), TokenInfo(2, B1), TokenInfo(3, B5)])
  const ListAfter6: State :=
    State("\n\n\n\t- item 1\n\t- item 2", Li, 3, B6, B6, 0, 1, [TokenInfo(1, B0), TokenInfo(2, B1), TokenInfo(3, B5)])
  const ListAfter7: State :=
    State("\n\n\n\t- item 1\n\t- item 2", Ul, 2, B7, B7, 0, 1, [TokenInfo(1, B0), TokenInfo(2, B1)])
  const ListAfter8: State :=
    State("\n\n\n\t- item 1\n\t- item 2\n", P, 1, B8, B8, 0, 0, [TokenInfo(1, B0)])
  const ListAfter9: State :=
    State("\n\n\n\t- item 1\n\t- item 2\n\n", None, 0, B9, B9, 0, 0, [])

  /** Where the tags and text runs of "<p><ul><li>item 1</li><li>item 2</li></ul></p>" sit in an input. */
  ghost predicate IsListInput(src: seq<char>) {
    && |src| == 46
    && HoldsAt(src, 0, "<p>")
    && HoldsAt(src, 3, "<ul>")
    && HoldsAt(src, 7, "<li>")
    && HoldsAt(src, 11, "item 1")
    && HoldsAt(src, 17, "</li>")
    && HoldsAt(src, 22, "<li>")
    && HoldsAt(src, 26, "item 2")
    && HoldsAt(src, 32, "</li>")
    && HoldsAt(src, 37, "</ul>")
    && HoldsAt(src, 42, "</p>")
  }

  /** The example input is laid out as `IsListInput` says. */
  lemma ListLaidOut()
    ensures IsListInput(List)
  {
    ListHolds0();
    ListHolds1();
    ListHolds2();
    ListHolds3();
    ListHolds4();
    ListHolds5();
    ListHolds6();
    ListHolds7();
    ListHolds8();
    ListHolds9();
  }

  /** Each piece of the layout, one at a time. */
  lemma ListHolds0()
    ensures HoldsAt(List, 0, "<p>")
  {
    SliceIs(List, 0, "<p>");
  }

  lemma ListHolds1()
    ensures HoldsAt(List, 3, "<ul>")
  {
    SliceIs(List, 3, "<ul>");
  }

  lemma ListHolds2()
    ensures HoldsAt(List, 7, "<li>")
  {
    SliceIs(List, 7, "<li>");
  }

  lemma ListHolds3()
    ensures HoldsAt(List, 11, "item 1")
  {
    SliceIs(List, 11, "item 1");
  }

  lemma ListHolds4()
    ensures HoldsAt(List, 17, "</li>")
  {
    SliceIs(List, 17, "</li>");
  }

  lemma ListHolds5()
    ensures HoldsAt(List, 22, "<li>")
  {
    SliceIs(List, 22, "<li>");
  }

  lemma ListHolds6()
    ensures HoldsAt(List, 26, "item 2")
  {
    SliceIs(List, 26, "item 2");
  }

  lemma ListHolds7()
    ensures HoldsAt(List, 32, "</li>")
  {
    SliceIs(List, 32, "</li>");
  }

  lemma ListHolds8()
    ensures HoldsAt(List, 37, "</ul>")
  {
    SliceIs(List, 37, "</ul>");
  }

  lemma ListHolds9()
    ensures HoldsAt(List, 42, "</p>")
  {
    SliceIs(List, 42, "</p>");
  }

  /** Each token of an input laid out like "<p><ul><li>item 1</li><li>item 2</li></ul></p>", from the cursor before it to the cursor after it. */
  lemma ListScan0(d: seq<char> -> seq<char>, src: seq<char>)
    requires IsListInput(src)
    ensures Scanner.ScanNextToken(Ascii(d), Fresh(src)) == (B0, Cursor(src, 3, 0, 1, false))
  {
    TagParser.ParseSpellingsOfP(d);
    NameTagAt(d, Fresh(src), 2, "<p>", P, HtmlOpenTag, 0, 1);
  }

  lemma ListScan1(d: seq<char> -> seq<char>, src: seq<char>)
    requires IsListInput(src)
    ensures Scanner.ScanNextToken(Ascii(d), Cursor(src, 3, 0, 1, false)) == (B1, Cursor(src, 7, 3, 2, false))
  {
    ParseUlTags(d);
    NameTagAt(d, Cursor(src, 3, 0, 1, false), 6, "<ul>", Ul, HtmlOpenTag, 1, 2);
  }

  lemma ListScan2(d: seq<char> -> seq<char>, src: seq<char>)
    requires IsListInput(src)
    ensures Scanner.ScanNextToken(Ascii(d), Cursor(src, 7, 3, 2, false)) == (B2, Cursor(src, 11, 7, 3, false))
  {
    ParseLiTags(d);
    NameTagAt(d, Cursor(src, 7, 3, 2, false), 10, "<li>", Li, HtmlOpenTag, 2, 3);
  }

  lemma ListScan3(d: seq<char> -> seq<char>, src: seq<char>)
    requires IsListInput(src)
    ensures Scanner.ScanNextToken(Ascii(d), Cursor(src, 11, 7, 3, false)) == (B3, Cursor(src, 17, 11, 3, false))
  {
    TextFacts(src, 11, "item 1");
    ScannerLemmas.TextRunStep(Ascii(d), Cursor(src, 11, 7, 3, false), 17);
  }

  lemma ListScan4(d: seq<char> -> seq<char>, src: seq<char>)
    requires IsListInput(src)
    ensures Scanner.ScanNextToken(Ascii(d), Cursor(src, 17, 11, 3, false)) == (B4, Cursor(src, 22, 17, 2, false))
  {
    ParseLiTags(d);
    NameTagAt(d, Cursor(src, 17, 11, 3, false), 21, "</li>", Li, HtmlCloseTag, 2, 2);
  }

  lemma ListScan5(d: seq<char> -> seq<char>, src: seq<char>)
    requires IsListInput(src)
    ensures Scanner.ScanNextToken(Ascii(d), Cursor(src, 22, 17, 2, false)) == (B5, Cursor(src, 26, 22, 3, false))
  {
    ParseLiTags(d);
    NameTagAt(d, Cursor(src, 22, 17, 2, false), 25, "<li>", Li, HtmlOpenTag, 2, 3);
  }

  lemma ListScan6(d: seq<char> -> seq<char>, src: seq<char>)
    requires IsListInput(src)
    ensures Scanner.ScanNextToken(Ascii(d), Cursor(src, 26, 22, 3, false)) == (B6, Cursor(src, 32, 26, 3, false))
  {
    TextFacts(src, 26, "item 2");
    ScannerLemmas.TextRunStep(Ascii(d), Cursor(src, 26, 22, 3, false), 32);
  }

  lemma ListScan7(d: seq<char> -> seq<char>, src: seq<char>)
    requires IsListInput(src)
    ensures Scanner.ScanNextToken(Ascii(d), Cursor(src, 32, 26, 3, false)) == (B7, Cursor(src, 37, 32, 2, false))
  {
    ParseLiTags(d);
    NameTagAt(d, Cursor(src, 32, 26, 3, false), 36, "</li>", Li, HtmlCloseTag, 2, 2);
  }

  lemma ListScan8(d: seq<char> -> seq<char>, src: seq<char>)
    requires IsListInput(src)
    ensures Scanner.ScanNextToken(Ascii(d), Cursor(src, 37, 32, 2, false)) == (B8, Cursor(src, 42, 37, 1, false))
  {
    ParseUlTags(d);
    NameTagAt(d, Cursor(src, 37, 32, 2, false), 41, "</ul>", Ul, HtmlCloseTag, 1, 1);
  }

  lemma ListScan9(d: seq<char> -> seq<char>, src: seq<char>)
    requires IsListInput(src)
    ensures Scanner.ScanNextToken(Ascii(d), Cursor(src, 42, 37, 1, false)) == (B9, Cursor(src, 46, 42, 0, false))
  {
    TagParser.ParseSpellingsOfP(d);
    NameTagAt(d, Cursor(src, 42, 37, 1, false), 45, "</p>", P, HtmlCloseTag, 0, 0);
  }

  /** From each cursor of the run on, the scanner answers the tokens that are left. */
  lemma ListFrom9(d: seq<char> -> seq<char>, src: seq<char>)
    requires IsListInput(src)
    ensures Tokens(Ascii(d), Cursor(src, 42, 37, 1, false)) == [B9]
  {
    ListScan9(d, src);
    assert Tokens(Ascii(d), Cursor(src, 46, 42, 0, false)) == [];
    TokensCons(Ascii(d), Cursor(src, 42, 37, 1, false), B9, Cursor(src, 46, 42, 0, false), []);
  }

  lemma ListFrom8(d: seq<char> -> seq<char>, src: seq<char>)
    requires IsListInput(src)
    ensures Tokens(Ascii(d), Cursor(src, 37, 32, 2, false)) == [B8] + [B9]
  {
    ListScan8(d, src);
    ListFrom9(d, src);
    TokensCons(Ascii(d), Cursor(src, 37, 32, 2, false), B8, Cursor(src, 42, 37, 1, false), [B9]);
  }

  lemma ListFrom7(d: seq<char> -> seq<char>, src: seq<char>)
    requires IsListInput(src)
    ensures Tokens(Ascii(d), Cursor(src, 32, 26, 3, false)) == [B7] + ([B8] + [B9])
  {
    ListScan7(d, src);
    ListFrom8(d, src);
    TokensCons(Ascii(d), Cursor(src, 32, 26, 3, false), B7, Cursor(src, 37, 32, 2, false), [B8] + [B9]);
  }

  lemma ListFrom6(d: seq<char> -> seq<char>, src: seq<char>)
    requires IsListInput(src)
    ensures Tokens(Ascii(d), Cursor(src, 26, 22, 3, false)) == [B6] + ([B7] + ([B8] + [B9]))
  {
    ListScan6(d, src);
    ListFrom7(d, src);
    TokensCons(Ascii(d), Cursor(src, 26, 22, 3, false), B6, Cursor(src, 32, 26, 3, false), [B7] + ([B8] + [B9]));
  }

  lemma ListFrom5(d: seq<char> -> seq<char>, src: seq<char>)
    requires IsListInput(src)
    ensures Tokens(Ascii(d), Cursor(src, 22, 17, 2, false)) == [B5] + ([B6] + ([B7] + ([B8] + [B9])))
  {
    ListScan5(d, src);
    ListFrom6(d, src);
    TokensCons(Ascii(d), Cursor(src, 22, 17, 2, false), B5, Cursor(src, 26, 22, 3, false), [B6] + ([B7] + ([B8] + [B9])));
  }

  lemma ListFrom4(d: seq<char> -> seq<char>, src: seq<char>)
    requires IsListInput(src)
    ensures Tokens(Ascii(d), Cursor(src, 17, 11, 3, false)) == [B4] + ([B5] + ([B6] + ([B7] + ([B8] + [B9]))))
  {
    ListScan4(d, src);
    ListFrom5(d, src);
    TokensCons(Ascii(d), Cursor(src, 17, 11, 3, false), B4, Cursor(src, 22, 17, 2, false), [B5] + ([B6] + ([B7] + ([B8] + [B9]))));
  }

  lemma ListFrom3(d: seq<char> -> seq<char>, src: seq<char>)
    requires IsListInput(src)
    ensures Tokens(Ascii(d), Cursor(src, 11, 7, 3, false)) == [B3] + ([B4] + ([B5] + ([B6] + ([B7] + ([B8] + [B9])))))
  {
    ListScan3(d, src);
    ListFrom4(d, src);
    TokensCons(Ascii(d), Cursor(src, 11, 7, 3, false), B3, Cursor(src, 17, 11, 3, false), [B4] + ([B5] + ([B6] + ([B7] + ([B8] + [B9])))));
  }

  lemma ListFrom2(d: seq<char> -> seq<char>, src: seq<char>)
    requires IsListInput(src)
    ensures Tokens(Ascii(d), Cursor(src, 7, 3, 2, false)) == [B2] + ([B3] + ([B4] + ([B5] + ([B6] + ([B7] + ([B8] + [B9]))))))
  {
    ListScan2(d, src);
    ListFrom3(d, src);
    TokensCons(Ascii(d), Cursor(src, 7, 3, 2, false), B2, Cursor(src, 11, 7, 3, false), [B3] + ([B4] + ([B5] + ([B6] + ([B7] + ([B8] + [B9]))))));
  }

  lemma ListFrom1(d: seq<char> -> seq<char>, src: seq<char>)
    requires IsListInput(src)
    ensures Tokens(Ascii(d), Cursor(src, 3, 0, 1, false)) == [B1] + ([B2] + ([B3] + ([B4] + ([B5] + ([B6] + ([B7] + ([B8] + [B9])))))))
  {
    ListScan1(d, src);
    ListFrom2(d, src);
    TokensCons(Ascii(d), Cursor(src, 3, 0, 1, false), B1, Cursor(src, 7, 3, 2, false), [B2] + ([B3] + ([B4] + ([B5] + ([B6] + ([B7] + ([B8] + [B9])))))));
  }

  lemma ListFrom0(d: seq<char> -> seq<char>, src: seq<char>)
    requires IsListInput(src)
    ensures Tokens(Ascii(d), Fresh(src)) == [B0] + ([B1] + ([B2] + ([B3] + ([B4] + ([B5] + ([B6] + ([B7] + ([B8] + [B9]))))))))
  {
    ListScan0(d, src);
    ListFrom1(d, src);
    TokensCons(Ascii(d), Fresh(src), B0, Cursor(src, 3, 0, 1, false), [B1] + ([B2] + ([B3] + ([B4] + ([B5] + ([B6] + ([B7] + ([B8] + [B9]))))))));
  }

  /** Any input laid out like "<p><ul><li>item 1</li><li>item 2</li></ul></p>" scans to the same tokens. */
  lemma ListScanOf(d: seq<char> -> seq<char>, src: seq<char>)
    requires IsListInput(src)
    ensures Tokens(Ascii(d), Fresh(src)) == ListTokens
  {
    ListFrom0(d, src);
    ListTokensOneByOne();
  }

  /** The tokens written out above, taken one at a time from the front. */
  lemma ListTokensOneByOne()
    ensures ListTokens == [B0] + ([B1] + ([B2] + ([B3] + ([B4] + ([B5] + ([B6] + ([B7] + ([B8] + [B9]))))))))
  {
  }

  /** The scanner cuts the example input into the tokens written out above. */
  lemma ListScan(d: seq<char> -> seq<char>)
    ensures Tokens(Ascii(d), Fresh(List)) == ListTokens
  {
    ListLaidOut();
    ListScanOf(d, List);
  }

  /** The scanner cuts the input into the ten tokens of the nested tags and the two item texts. */
  lemma ListStep0(d: seq<char> -> seq<char>)
    ensures Step(Ascii(d), List, Initial, B0) == Next(ListAfter0)
    ensures Spans(List, Initial) && Scanned(List, B0)
  {
    assert Spans(List, Initial) && Scanned(List, B0);
  }

  lemma ListStep1(d: seq<char> -> seq<char>)
    ensures Step(Ascii(d), List, ListAfter0, B1) == Next(ListAfter1)
    ensures Spans(List, ListAfter0) && Scanned(List, B1)
  {
    assert Spans(List, ListAfter0) && Scanned(List, B1);
  }

  lemma ListStep2(d: seq<char> -> seq<char>)
    ensures Step(Ascii(d), List, ListAfter1, B2) == Next(ListAfter2)
    ensures Spans(List, ListAfter1) && Scanned(List, B2)
  {
    assert Spans(List, ListAfter1) && Scanned(List, B2);
    assert Tabs(1) == "\t";
  }

  lemma ListExtends3()
    ensures Spans(List, ListAfter2) && SpanIn(B3, List)
    ensures ListAfter2.(out := ListAfter2.out + "item 1", previous := B3, current := B3) == ListAfter3
  {
  }

  /** The two list items' text runs. */
  lemma ListItems()
    ensures Value(B3, List) == "item 1" && Value(B6, List) == "item 2"
  {
    ListItem1();
    ListItem2();
  }

  lemma ListItem1()
    ensures Value(B3, List) == "item 1"
  {
    assert List[11] == 'i' && List[12] == 't' && List[13] == 'e' && List[14] == 'm' && List[15] == ' ' && List[16] == '1';
  }

  lemma ListItem2()
    ensures Value(B6, List) == "item 2"
  {
    assert List[26] == 'i' && List[27] == 't' && List[28] == 'e' && List[29] == 'm' && List[30] == ' ' && List[31] == '2';
  }

  lemma ListReduced(d: seq<char> -> seq<char>)
    ensures Reduced(Ascii(d), "item 1") && Reduced(Ascii(d), "item 2")
  {
  }

  lemma ListAppends3(d: seq<char> -> seq<char>)
    ensures TextToAppend(Ascii(d), View(List, ListAfter2.(current := B3)), ListAfter2.out, B3) == "item 1"
  {
    var rt := Ascii(d);
    ListItems();
    ListReduced(d);
    ElementText(rt, View(List, ListAfter2.(current := B3)), ListAfter2.out, B3);
  }

  lemma ListStep3(d: seq<char> -> seq<char>)
    ensures Step(Ascii(d), List, ListAfter2, B3) == Next(ListAfter3)
    ensures Spans(List, ListAfter2) && Scanned(List, B3)
  {
    assert Spans(List, ListAfter2) && Scanned(List, B3);
    ListAppends3(d);
    ListExtends3();
    StepText(Ascii(d), List, ListAfter2, B3, "item 1", ListAfter3);
  }

  lemma ListStep4(d: seq<char> -> seq<char>)
    ensures Step(Ascii(d), List, ListAfter3, B4) == Next(ListAfter4)
    ensures Spans(List, ListAfter3) && Scanned(List, B4)
  {
    assert Spans(List, ListAfter3) && Scanned(List, B4);
  }

  lemma ListStep5(d: seq<char> -> seq<char>)
    ensures Step(Ascii(d), List, ListAfter4, B5) == Next(ListAfter5)
    ensures Spans(List, ListAfter4) && Scanned(List, B5)
  {
    assert Spans(List, ListAfter4) && Scanned(List, B5);
    assert Tabs(1) == "\t";
  }

  lemma ListExtends6()
    ensures Spans(List, ListAfter5) && SpanIn(B6, List)
    ensures ListAfter5.(out := ListAfter5.out + "item 2", previous := B6, current := B6) == ListAfter6
  {
  }

  lemma ListAppends6(d: seq<char> -> seq<char>)
    ensures TextToAppend(Ascii(d), View(List, ListAfter5.(current := B6)), ListAfter5.out, B6) == "item 2"
  {
    var rt := Ascii(d);
    ListItems();
    ListReduced(d);
    ElementText(rt, View(List, ListAfter5.(current := B6)), ListAfter5.out, B6);
  }

  lemma ListStep6(d: seq<char> -> seq<char>)
    ensures Step(Ascii(d), List, ListAfter5, B6) == Next(ListAfter6)
    ensures Spans(List, ListAfter5) && Scanned(List, B6)
  {
    assert Spans(List, ListAfter5) && Scanned(List, B6);
    ListAppends6(d);
    ListExtends6();
    StepText(Ascii(d), List, ListAfter5, B6, "item 2", ListAfter6);
  }

  lemma ListStep7(d: seq<char> -> seq<char>)
    ensures Step(Ascii(d), List, ListAfter6, B7) == Next(ListAfter7)
    ensures Spans(List, ListAfter6) && Scanned(List, B7)
  {
    assert Spans(List, ListAfter6) && Scanned(List, B7);
  }

  lemma ListStep8(d: seq<char> -> seq<char>)
    ensures Step(Ascii(d), List, ListAfter7, B8) == Next(ListAfter8)
    ensures Spans(List, ListAfter7) && Scanned(List, B8)
  {
    assert Spans(List, ListAfter7) && Scanned(List, B8);
  }

  lemma ListStep9(d: seq<char> -> seq<char>)
    ensures Step(Ascii(d), List, ListAfter8, B9) == Next(ListAfter9)
    ensures Spans(List, ListAfter8) && Scanned(List, B9)
  {
    assert Spans(List, ListAfter8) && Scanned(List, B9);
  }

  const ListStates: seq<State> := [Initial, ListAfter0, ListAfter1, ListAfter2, ListAfter3, ListAfter4, ListAfter5, ListAfter6, ListAfter7, ListAfter8, ListAfter9]

  lemma ListTrace0(d: seq<char> -> seq<char>)
    ensures Trace(Ascii(d), List, ListStates, ListTokens, 0, 1)
  {
    assert ListStates[0] == Initial && ListStates[1] == ListAfter0 && ListTokens[0] == B0;
    ListStep0(d);
    TraceOne(Ascii(d), List, ListStates, ListTokens, 0, Initial, B0, ListAfter0);
  }

  lemma ListTrace1(d: seq<char> -> seq<char>)
    ensures Trace(Ascii(d), List, ListStates, ListTokens, 1, 2)
  {
    assert ListStates[1] == ListAfter0 && ListStates[2] == ListAfter1 && ListTokens[1] == B1;
    ListStep1(d);
    TraceOne(Ascii(d), List, ListStates, ListTokens, 1, ListAfter0, B1, ListAfter1);
  }

  lemma ListTrace2(d: seq<char> -> seq<char>)
    ensures Trace(Ascii(d), List, ListStates, ListTokens, 2, 3)
  {
    assert ListStates[2] == ListAfter1 && ListStates[3] == ListAfter2 && ListTokens[2] == B2;
    ListStep2(d);
    TraceOne(Ascii(d), List, ListStates, ListTokens, 2, ListAfter1, B2, ListAfter2);
  }

  lemma ListTrace3(d: seq<char> -> seq<char>)
    ensures Trace(Ascii(d), List, ListStates, ListTokens, 3, 4)
  {
    assert ListStates[3] == ListAfter2 && ListStates[4] == ListAfter3 && ListTokens[3] == B3;
    ListStep3(d);
    TraceOne(Ascii(d), List, ListStates, ListTokens, 3, ListAfter2, B3, ListAfter3);
  }

  lemma ListTrace4(d: seq<char> -> seq<char>)
    ensures Trace(Ascii(d), List, ListStates, ListTokens, 4, 5)
  {
    assert ListStates[4] == ListAfter3 && ListStates[5] == ListAfter4 && ListTokens[4] == B4;
    ListStep4(d);
    TraceOne(Ascii(d), List, ListStates, ListTokens, 4, ListAfter3, B4, ListAfter4);
  }

  lemma ListTrace5(d: seq<char> -> seq<char>)
    ensures Trace(Ascii(d), List, ListStates, ListTokens, 5, 6)
  {
    assert ListStates[5] == ListAfter4 && ListStates[6] == ListAfter5 && ListTokens[5] == B5;
    ListStep5(d);
    TraceOne(Ascii(d), List, ListStates, ListTokens, 5, ListAfter4, B5, ListAfter5);
  }

  lemma ListTrace6(d: seq<char> -> seq<char>)
    ensures Trace(Ascii(d), List, ListStates, ListTokens, 6, 7)
  {
    assert ListStates[6] == ListAfter5 && ListStates[7] == ListAfter6 && ListTokens[6] == B6;
    ListStep6(d);
    TraceOne(Ascii(d), List, ListStates, ListTokens, 6, ListAfter5, B6, ListAfter6);
  }

  lemma ListTrace7(d: seq<char> -> seq<char>)
    ensures Trace(Ascii(d), List, ListStates, ListTokens, 7, 8)
  {
    assert ListStates[7] == ListAfter6 && ListStates[8] == ListAfter7 && ListTokens[7] == B7;
    ListStep7(d);
    TraceOne(Ascii(d), List, ListStates, ListTokens, 7, ListAfter6, B7, ListAfter7);
  }

  lemma ListTrace8(d: seq<char> -> seq<char>)
    ensures Trace(Ascii(d), List, ListStates, ListTokens, 8, 9)
  {
    assert ListStates[8] == ListAfter7 && ListStates[9] == ListAfter8 && ListTokens[8] == B8;
    ListStep8(d);
    TraceOne(Ascii(d), List, ListStates, ListTokens, 8, ListAfter7, B8, ListAfter8);
  }

  lemma ListTrace9(d: seq<char> -> seq<char>)
    ensures Trace(Ascii(d), List, ListStates, ListTokens, 9, 10)
  {
    assert ListStates[9] == ListAfter8 && ListStates[10] == ListAfter9 && ListTokens[9] == B9;
    ListStep9(d);
    TraceOne(Ascii(d), List, ListStates, ListTokens, 9, ListAfter8, B9, ListAfter9);
  }

  /**
   An outermost list inside a paragraph: one break for the paragraph, one for
   the list, then each item on its own line, indented once, and the list and
   the paragraph each end on a break.
   */
  lemma ParagraphWithList(d: seq<char> -> seq<char>)
    ensures Tokens(Ascii(d), Fresh(List)) == ListTokens
    ensures Drive(Ascii(d), List, Initial, ListTokens) == Next(ListAfter9)
    ensures Textorize(Ascii(d), List) == Done("\n\n\n\t- item 1\n\t- item 2\n\n")
  {
    ListScan(d);
    ListDrive(d);
    TextorizeVia(Ascii(d), List, ListTokens, ListAfter9);
  }

  /** The driver's run over the tokens, one state per token. */
  lemma ListDrive(d: seq<char> -> seq<char>)
    ensures AllScanned(List, ListTokens)
    ensures Drive(Ascii(d), List, Initial, ListTokens) == Next(ListAfter9)
    ensures ListAfter9.out == "\n\n\n\t- item 1\n\t- item 2\n\n"
  {
    var rt := Ascii(d);
    ListTrace0(d);
    ListTrace1(d);
    ListTrace2(d);
    ListTrace3(d);
    ListTrace4(d);
    ListTrace5(d);
    ListTrace6(d);
    ListTrace7(d);
    ListTrace8(d);
    ListTrace9(d);
    TraceJoin(rt, List, ListStates, ListTokens, 0, 1, 2);
    TraceJoin(rt, List, ListStates, ListTokens, 0, 2, 3);
    TraceJoin(rt, List, ListStates, ListTokens, 0, 3, 4);
    TraceJoin(rt, List, ListStates, ListTokens, 0, 4, 5);
    TraceJoin(rt, List, ListStates, ListTokens, 0, 5, 6);
    TraceJoin(rt, List, ListStates, ListTokens, 0, 6, 7);
    TraceJoin(rt, List, ListStates, ListTokens, 0, 7, 8);
    TraceJoin(rt, List, ListStates, ListTokens, 0, 8, 9);
    TraceJoin(rt, List, ListStates, ListTokens, 0, 9, 10);
    DriveTrace(rt, List, ListStates, ListTokens, 0);
    assert ListTokens[0..] == ListTokens;
  }

  // ---------------------------------------------------------------------------
  // "<p>hoi<p>ook</div></P><p>deef</p>" gives "\nhoi\nook\n\ndeef\n"

  const Orphan: seq<char> := "<p>hoi<p>ook</div></P><p>deef</p>"

  const C0: Token := Token(HtmlOpenTag, P, 0, 0, 3)
  const C1: Token := Token(Text, None, 1, 3, 3)
  const C2: Token := Token(HtmlOpenTag, P, 1, 6, 3)
  const C3: Token := Token(Text, None, 2, 9, 3)
  const C4: Token := Token(HtmlCloseTag, Other, 1, 12, 6)
  const C5: Token := Token(HtmlCloseTag, P, 0, 18, 4)
  const C6: Token := Token(HtmlOpenTag, P, 0, 22, 3)
  const C7: Token := Token(Text, None, 1, 25, 4)
  const C8: Token := Token(HtmlCloseTag, P, 0, 29, 4)

  const OrphanTokens: seq<Token> := [C0, C1, C2, C3, C4, C5, C6, C7, C8]

  const OrphanAfter0: State :=
    State("\n", P, 1, C0, C0, 0, 0, [TokenInfo(1, C0)])
  const OrphanAfter1: State :=
    State("\nhoi", P, 1, C1, C1, 0, 0, [TokenInfo(1, C0)])
  const OrphanAfter2: State :=
    State("\nhoi\n", P, 2, C2, C2, 0, 0, [TokenInfo(1, C0), TokenInfo(2, C2)])
  const OrphanAfter3: State :=
    State("\nhoi\nook", P, 2, C3, C3, 0, 0, [TokenInfo(1, C0), TokenInfo(2, C2)])
  const OrphanAfter4: State :=
    State("\nhoi\nook", P, 1, C4, C4, 0, 0, [TokenInfo(1, C0)])
  const OrphanAfter5: State :=
    State("\nhoi\nook\n", None, 0, C5, C5, 0, 0, [])
  const OrphanAfter6: State :=
    State("\nhoi\nook\n\n", P, 1, C6, C6, 0, 0, [TokenInfo(1, C6)])
  const OrphanAfter7: State :=
    State("\nhoi\nook\n\ndeef", P, 1, C7, C7, 0, 0, [TokenInfo(1, C6)])
  const OrphanAfter8: State :=
    State("\nhoi\nook\n\ndeef\n", None, 0, C8, C8, 0, 0, [])

  /** Where the tags and text runs of "<p>hoi<p>ook</div></P><p>deef</p>" sit in an input. */
  ghost predicate IsOrphanInput(src: seq<char>) {
    && |src| == 33
    && HoldsAt(src, 0, "<p>")
    && HoldsAt(src, 3, "hoi")
    && HoldsAt(src, 6, "<p>")
    && HoldsAt(src, 9, "ook")
    && HoldsAt(src, 12, "</div>")
    && HoldsAt(src, 18, "</P>")
    && HoldsAt(src, 22, "<p>")
    && HoldsAt(src, 25, "deef")
    && HoldsAt(src, 29, "</p>")
  }

  /** The example input is laid out as `IsOrphanInput` says. */
  lemma OrphanLaidOut()
    ensures IsOrphanInput(Orphan)
  {
    OrphanHolds0();
    OrphanHolds1();
    OrphanHolds2();
    OrphanHolds3();
    OrphanHolds4();
    OrphanHolds5();
    OrphanHolds6();
    OrphanHolds7();
    OrphanHolds8();
  }

  /** Each piece of the layout, one at a time. */
  lemma OrphanHolds0()
    ensures HoldsAt(Orphan, 0, "<p>")
  {
    SliceIs(Orphan, 0, "<p>");
  }

  lemma OrphanHolds1()
    ensures HoldsAt(Orphan, 3, "hoi")
  {
    SliceIs(Orphan, 3, "hoi");
  }

  lemma OrphanHolds2()
    ensures HoldsAt(Orphan, 6, "<p>")
  {
    SliceIs(Orphan, 6, "<p>");
  }

  lemma OrphanHolds3()
    ensures HoldsAt(Orphan, 9, "ook")
  {
    SliceIs(Orphan, 9, "ook");
  }

  lemma OrphanHolds4()
    ensures HoldsAt(Orphan, 12, "</div>")
  {
    SliceIs(Orphan, 12, "</div>");
  }

  lemma OrphanHolds5()
    ensures HoldsAt(Orphan, 18, "</P>")
  {
    SliceIs(Orphan, 18, "</P>");
  }

  lemma OrphanHolds6()
    ensures HoldsAt(Orphan, 22, "<p>")
  {
    SliceIs(Orphan, 22, "<p>");
  }

  lemma OrphanHolds7()
    ensures HoldsAt(Orphan, 25, "deef")
  {
    SliceIs(Orphan, 25, "deef");
  }

  lemma OrphanHolds8()
    ensures HoldsAt(Orphan, 29, "</p>")
  {
    SliceIs(Orphan, 29, "</p>");
  }

  /** Each token of an input laid out like "<p>hoi<p>ook</div></P><p>deef</p>", from the cursor before it to the cursor after it. */
  lemma OrphanScan0(d: seq<char> -> seq<char>, src: seq<char>)
    requires IsOrphanInput(src)
    ensures Scanner.ScanNextToken(Ascii(d), Fresh(src)) == (C0, Cursor(src, 3, 0, 1, false))
  {
    TagParser.ParseSpellingsOfP(d);
    NameTagAt(d, Fresh(src), 2, "<p>", P, HtmlOpenTag, 0, 1);
  }

  lemma OrphanScan1(d: seq<char> -> seq<char>, src: seq<char>)
    requires IsOrphanInput(src)
    ensures Scanner.ScanNextToken(Ascii(d), Cursor(src, 3, 0, 1, false)) == (C1, Cursor(src, 6, 3, 1, false))
  {
    TextFacts(src, 3, "hoi");
    ScannerLemmas.TextRunStep(Ascii(d), Cursor(src, 3, 0, 1, false), 6);
  }

  lemma OrphanScan2(d: seq<char> -> seq<char>, src: seq<char>)
    requires IsOrphanInput(src)
    ensures Scanner.ScanNextToken(Ascii(d), Cursor(src, 6, 3, 1, false)) == (C2, Cursor(src, 9, 6, 2, false))
  {
    TagParser.ParseSpellingsOfP(d);
    NameTagAt(d, Cursor(src, 6, 3, 1, false), 8, "<p>", P, HtmlOpenTag, 1, 2);
  }

  lemma OrphanScan3(d: seq<char> -> seq<char>, src: seq<char>)
    requires IsOrphanInput(src)
    ensures Scanner.ScanNextToken(Ascii(d), Cursor(src, 9, 6, 2, false)) == (C3, Cursor(src, 12, 9, 2, false))
  {
    TextFacts(src, 9, "ook");
    ScannerLemmas.TextRunStep(Ascii(d), Cursor(src, 9, 6, 2, false), 12);
  }

  lemma OrphanScan4(d: seq<char> -> seq<char>, src: seq<char>)
    requires IsOrphanInput(src)
    ensures Scanner.ScanNextToken(Ascii(d), Cursor(src, 12, 9, 2, false)) == (C4, Cursor(src, 18, 12, 1, false))
  {
    ParseOrphanTags(d);
    NameTagAt(d, Cursor(src, 12, 9, 2, false), 17, "</div>", Other, HtmlCloseTag, 1, 1);
  }

  lemma OrphanScan5(d: seq<char> -> seq<char>, src: seq<char>)
    requires IsOrphanInput(src)
    ensures Scanner.ScanNextToken(Ascii(d), Cursor(src, 18, 12, 1, false)) == (C5, Cursor(src, 22, 18, 0, false))
  {
    ParseOrphanTags(d);
    NameTagAt(d, Cursor(src, 18, 12, 1, false), 21, "</P>", P, HtmlCloseTag, 0, 0);
  }

  lemma OrphanScan6(d: seq<char> -> seq<char>, src: seq<char>)
    requires IsOrphanInput(src)
    ensures Scanner.ScanNextToken(Ascii(d), Cursor(src, 22, 18, 0, false)) == (C6, Cursor(src, 25, 22, 1, false))
  {
    TagParser.ParseSpellingsOfP(d);
    NameTagAt(d, Cursor(src, 22, 18, 0, false), 24, "<p>", P, HtmlOpenTag, 0, 1);
  }

  lemma OrphanScan7(d: seq<char> -> seq<char>, src: seq<char>)
    requires IsOrphanInput(src)
    ensures Scanner.ScanNextToken(Ascii(d), Cursor(src, 25, 22, 1, false)) == (C7, Cursor(src, 29, 25, 1, false))
  {
    TextFacts(src, 25, "deef");
    ScannerLemmas.TextRunStep(Ascii(d), Cursor(src, 25, 22, 1, false), 29);
  }

  lemma OrphanScan8(d: seq<char> -> seq<char>, src: seq<char>)
    requires IsOrphanInput(src)
    ensures Scanner.ScanNextToken(Ascii(d), Cursor(src, 29, 25, 1, false)) == (C8, Cursor(src, 33, 29, 0, false))
  {
    TagParser.ParseSpellingsOfP(d);
    NameTagAt(d, Cursor(src, 29, 25, 1, false), 32, "</p>", P, HtmlCloseTag, 0, 0);
  }

  /** From each cursor of the run on, the scanner answers the tokens that are left. */
  lemma OrphanFrom8(d: seq<char> -> seq<char>, src: seq<char>)
    requires IsOrphanInput(src)
    ensures Tokens(Ascii(d), Cursor(src, 29, 25, 1, false)) == [C8]
  {
    OrphanScan8(d, src);
    assert Tokens(Ascii(d), Cursor(src, 33, 29, 0, false)) == [];
    TokensCons(Ascii(d), Cursor(src, 29, 25, 1, false), C8, Cursor(src, 33, 29, 0, false), []);
  }

  lemma OrphanFrom7(d: seq<char> -> seq<char>, src: seq<char>)
    requires IsOrphanInput(src)
    ensures Tokens(Ascii(d), Cursor(src, 25, 22, 1, false)) == [C7] + [C8]
  {
    OrphanScan7(d, src);
    OrphanFrom8(d, src);
    TokensCons(Ascii(d), Cursor(src, 25, 22, 1, false), C7, Cursor(src, 29, 25, 1, false), [C8]);
  }

  lemma OrphanFrom6(d: seq<char> -> seq<char>, src: seq<char>)
    requires IsOrphanInput(src)
    ensures Tokens(Ascii(d), Cursor(src, 22, 18, 0, false)) == [C6] + ([C7] + [C8])
  {
    OrphanScan6(d, src);
    OrphanFrom7(d, src);
    TokensCons(Ascii(d), Cursor(src, 22, 18, 0, false), C6, Cursor(src, 25, 22, 1, false), [C7] + [C8]);
  }

  lemma OrphanFrom5(d: seq<char> -> seq<char>, src: seq<char>)
    requires IsOrphanInput(src)
    ensures Tokens(Ascii(d), Cursor(src, 18, 12, 1, false)) == [C5] + ([C6] + ([C7] + [C8]))
  {
    OrphanScan5(d, src);
    OrphanFrom6(d, src);
    TokensCons(Ascii(d), Cursor(src, 18, 12, 1, false), C5, Cursor(src, 22, 18, 0, false), [C6] + ([C7] + [C8]));
  }

  lemma OrphanFrom4(d: seq<char> -> seq<char>, src: seq<char>)
    requires IsOrphanInput(src)
    ensures Tokens(Ascii(d), Cursor(src, 12, 9, 2, false)) == [C4] + ([C5] + ([C6] + ([C7] + [C8])))
  {
    OrphanScan4(d, src);
    OrphanFrom5(d, src);
    TokensCons(Ascii(d), Cursor(src, 12, 9, 2, false), C4, Cursor(src, 18, 12, 1, false), [C5] + ([C6] + ([C7] + [C8])));
  }

  lemma OrphanFrom3(d: seq<char> -> seq<char>, src: seq<char>)
    requires IsOrphanInput(src)
    ensures Tokens(Ascii(d), Cursor(src, 9, 6, 2, false)) == [C3] + ([C4] + ([C5] + ([C6] + ([C7] + [C8]))))
  {
    OrphanScan3(d, src);
    OrphanFrom4(d, src);
    TokensCons(Ascii(d), Cursor(src, 9, 6, 2, false), C3, Cursor(src, 12, 9, 2, false), [C4] + ([C5] + ([C6] + ([C7] + [C8]))));
  }

  lemma OrphanFrom2(d: seq<char> -> seq<char>, src: seq<char>)
    requires IsOrphanInput(src)
    ensures Tokens(Ascii(d), Cursor(src, 6, 3, 1, false)) == [C2] + ([C3] + ([C4] + ([C5] + ([C6] + ([C7] + [C8])))))
  {
    OrphanScan2(d, src);
    OrphanFrom3(d, src);
    TokensCons(Ascii(d), Cursor(src, 6, 3, 1, false), C2, Cursor(src, 9, 6, 2, false), [C3] + ([C4] + ([C5] + ([C6] + ([C7] + [C8])))));
  }

  lemma OrphanFrom1(d: seq<char> -> seq<char>, src: seq<char>)
    requires IsOrphanInput(src)
    ensures Tokens(Ascii(d), Cursor(src, 3, 0, 1, false)) == [C1] + ([C2] + ([C3] + ([C4] + ([C5] + ([C6] + ([C7] + [C8]))))))
  {
    OrphanScan1(d, src);
    OrphanFrom2(d, src);
    TokensCons(Ascii(d), Cursor(src, 3, 0, 1, false), C1, Cursor(src, 6, 3, 1, false), [C2] + ([C3] + ([C4] + ([C5] + ([C6] + ([C7] + [C8]))))));
  }

  lemma OrphanFrom0(d: seq<char> -> seq<char>, src: seq<char>)
    requires IsOrphanInput(src)
    ensures Tokens(Ascii(d), Fresh(src)) == [C0] + ([C1] + ([C2] + ([C3] + ([C4] + ([C5] + ([C6] + ([C7] + [C8])))))))
  {
    OrphanScan0(d, src);
    OrphanFrom1(d, src);
    TokensCons(Ascii(d), Fresh(src), C0, Cursor(src, 3, 0, 1, false), [C1] + ([C2] + ([C3] + ([C4] + ([C5] + ([C6] + ([C7] + [C8])))))));
  }

  /** Any input laid out like "<p>hoi<p>ook</div></P><p>deef</p>" scans to the same tokens. */
  lemma OrphanScanOf(d: seq<char> -> seq<char>, src: seq<char>)
    requires IsOrphanInput(src)
    ensures Tokens(Ascii(d), Fresh(src)) == OrphanTokens
  {
    OrphanFrom0(d, src);
    OrphanTokensOneByOne();
  }

  /** The tokens written out above, taken one at a time from the front. */
  lemma OrphanTokensOneByOne()
    ensures OrphanTokens == [C0] + ([C1] + ([C2] + ([C3] + ([C4] + ([C5] + ([C6] + ([C7] + [C8])))))))
  {
  }

  /** The scanner cuts the example input into the tokens written out above. */
  lemma OrphanScan(d: seq<char> -> seq<char>)
    ensures Tokens(Ascii(d), Fresh(Orphan)) == OrphanTokens
  {
    OrphanLaidOut();
    OrphanScanOf(d, Orphan);
  }

  /** The scanner cuts the input into nine tokens; the stray `</div>` is a close tag of some other element. */
  lemma OrphanStep0(d: seq<char> -> seq<char>)
    ensures Step(Ascii(d), Orphan, Initial, C0) == Next(OrphanAfter0)
    ensures Spans(Orphan, Initial) && Scanned(Orphan, C0)
  {
    assert Spans(Orphan, Initial) && Scanned(Orphan, C0);
  }

  lemma OrphanExtends1()
    ensures Spans(Orphan, OrphanAfter0) && SpanIn(C1, Orphan)
    ensures OrphanAfter0.(out := OrphanAfter0.out + "hoi", previous := C1, current := C1) == OrphanAfter1
  {
  }

  /** The three text runs of the orphan example. */
  lemma OrphanWords()
    ensures Value(C1, Orphan) == "hoi" && Value(C3, Orphan) == "ook" && Value(C7, Orphan) == "deef"
  {
    assert Orphan[3] == 'h' && Orphan[4] == 'o' && Orphan[5] == 'i';
    assert Orphan[9] == 'o' && Orphan[10] == 'o' && Orphan[11] == 'k';
    assert Orphan[25] == 'd' && Orphan[26] == 'e' && Orphan[27] == 'e' && Orphan[28] == 'f';
  }

  lemma OrphanReduced(d: seq<char> -> seq<char>)
    ensures Reduced(Ascii(d), "hoi") && Reduced(Ascii(d), "ook") && Reduced(Ascii(d), "deef")
  {
  }

  lemma OrphanAppends1(d: seq<char> -> seq<char>)
    ensures TextToAppend(Ascii(d), View(Orphan, OrphanAfter0.(current := C1)), OrphanAfter0.out, C1) == "hoi"
  {
    var rt := Ascii(d);
    OrphanWords();
    OrphanReduced(d);
    ElementText(rt, View(Orphan, OrphanAfter0.(current := C1)), OrphanAfter0.out, C1);
  }

  lemma OrphanStep1(d: seq<char> -> seq<char>)
    ensures Step(Ascii(d), Orphan, OrphanAfter0, C1) == Next(OrphanAfter1)
    ensures Spans(Orphan, OrphanAfter0) && Scanned(Orphan, C1)
  {
    assert Spans(Orphan, OrphanAfter0) && Scanned(Orphan, C1);
    OrphanAppends1(d);
    OrphanExtends1();
    StepText(Ascii(d), Orphan, OrphanAfter0, C1, "hoi", OrphanAfter1);
  }

  lemma OrphanStep2(d: seq<char> -> seq<char>)
    ensures Step(Ascii(d), Orphan, OrphanAfter1, C2) == Next(OrphanAfter2)
    ensures Spans(Orphan, OrphanAfter1) && Scanned(Orphan, C2)
  {
    assert Spans(Orphan, OrphanAfter1) && Scanned(Orphan, C2);
  }

  lemma OrphanExtends3()
    ensures Spans(Orphan, OrphanAfter2) && SpanIn(C3, Orphan)
    ensures OrphanAfter2.(out := OrphanAfter2.out + "ook", previous := C3, current := C3) == OrphanAfter3
  {
  }

  lemma OrphanAppends3(d: seq<char> -> seq<char>)
    ensures TextToAppend(Ascii(d), View(Orphan, OrphanAfter2.(current := C3)), OrphanAfter2.out, C3) == "ook"
  {
    var rt := Ascii(d);
    OrphanWords();
    OrphanReduced(d);
    ElementText(rt, View(Orphan, OrphanAfter2.(current := C3)), OrphanAfter2.out, C3);
  }

  lemma OrphanStep3(d: seq<char> -> seq<char>)
    ensures Step(Ascii(d), Orphan, OrphanAfter2, C3) == Next(OrphanAfter3)
    ensures Spans(Orphan, OrphanAfter2) && Scanned(Orphan, C3)
  {
    assert Spans(Orphan, OrphanAfter2) && Scanned(Orphan, C3);
    OrphanAppends3(d);
    OrphanExtends3();
    StepText(Ascii(d), Orphan, OrphanAfter2, C3, "ook", OrphanAfter3);
  }

  lemma OrphanStep4(d: seq<char> -> seq<char>)
    ensures Step(Ascii(d), Orphan, OrphanAfter3, C4) == Next(OrphanAfter4)
    ensures Spans(Orphan, OrphanAfter3) && Scanned(Orphan, C4)
  {
    assert Spans(Orphan, OrphanAfter3) && Scanned(Orphan, C4);
  }

  lemma OrphanStep5(d: seq<char> -> seq<char>)
    ensures Step(Ascii(d), Orphan, OrphanAfter4, C5) == Next(OrphanAfter5)
    ensures Spans(Orphan, OrphanAfter4) && Scanned(Orphan, C5)
  {
    assert Spans(Orphan, OrphanAfter4) && Scanned(Orphan, C5);
  }

  lemma OrphanStep6(d: seq<char> -> seq<char>)
    ensures Step(Ascii(d), Orphan, OrphanAfter5, C6) == Next(OrphanAfter6)
    ensures Spans(Orphan, OrphanAfter5) && Scanned(Orphan, C6)
  {
    assert Spans(Orphan, OrphanAfter5) && Scanned(Orphan, C6);
  }

  lemma OrphanExtends7()
    ensures Spans(Orphan, OrphanAfter6) && SpanIn(C7, Orphan)
    ensures OrphanAfter6.(out := OrphanAfter6.out + "deef", previous := C7, current := C7) == OrphanAfter7
  {
  }

  lemma OrphanAppends7(d: seq<char> -> seq<char>)
    ensures TextToAppend(Ascii(d), View(Orphan, OrphanAfter6.(current := C7)), OrphanAfter6.out, C7) == "deef"
  {
    var rt := Ascii(d);
    OrphanWords();
    OrphanReduced(d);
    ElementText(rt, View(Orphan, OrphanAfter6.(current := C7)), OrphanAfter6.out, C7);
  }

  lemma OrphanStep7(d: seq<char> -> seq<char>)
    ensures Step(Ascii(d), Orphan, OrphanAfter6, C7) == Next(OrphanAfter7)
    ensures Spans(Orphan, OrphanAfter6) && Scanned(Orphan, C7)
  {
    assert Spans(Orphan, OrphanAfter6) && Scanned(Orphan, C7);
    OrphanAppends7(d);
    OrphanExtends7();
    StepText(Ascii(d), Orphan, OrphanAfter6, C7, "deef", OrphanAfter7);
  }

  lemma OrphanStep8(d: seq<char> -> seq<char>)
    ensures Step(Ascii(d), Orphan, OrphanAfter7, C8) == Next(OrphanAfter8)
    ensures Spans(Orphan, OrphanAfter7) && Scanned(Orphan, C8)
  {
    assert Spans(Orphan, OrphanAfter7) && Scanned(Orphan, C8);
  }

  const OrphanStates: seq<State> := [Initial, OrphanAfter0, OrphanAfter1, OrphanAfter2, OrphanAfter3, OrphanAfter4, OrphanAfter5, OrphanAfter6, OrphanAfter7, OrphanAfter8]

  lemma OrphanTrace0(d: seq<char> -> seq<char>)
    ensures Trace(Ascii(d), Orphan, OrphanStates, OrphanTokens, 0, 1)
  {
    assert OrphanStates[0] == Initial && OrphanStates[1] == OrphanAfter0 && OrphanTokens[0] == C0;
    OrphanStep0(d);
    TraceOne(Ascii(d), Orphan, OrphanStates, OrphanTokens, 0, Initial, C0, OrphanAfter0);
  }

  lemma OrphanTrace1(d: seq<char> -> seq<char>)
    ensures Trace(Ascii(d), Orphan, OrphanStates, OrphanTokens, 1, 2)
  {
    assert OrphanStates[1] == OrphanAfter0 && OrphanStates[2] == OrphanAfter1 && OrphanTokens[1] == C1;
    OrphanStep1(d);
    TraceOne(Ascii(d), Orphan, OrphanStates, OrphanTokens, 1, OrphanAfter0, C1, OrphanAfter1);
  }

  lemma OrphanTrace2(d: seq<char> -> seq<char>)
    ensures Trace(Ascii(d), Orphan, OrphanStates, OrphanTokens, 2, 3)
  {
    assert OrphanStates[2] == OrphanAfter1 && OrphanStates[3] == OrphanAfter2 && OrphanTokens[2] == C2;
    OrphanStep2(d);
    TraceOne(Ascii(d), Orphan, OrphanStates, OrphanTokens, 2, OrphanAfter1, C2, OrphanAfter2);
  }

  lemma OrphanTrace3(d: seq<char> -> seq<char>)
    ensures Trace(Ascii(d), Orphan, OrphanStates, OrphanTokens, 3, 4)
  {
    assert OrphanStates[3] == OrphanAfter2 && OrphanStates[4] == OrphanAfter3 && OrphanTokens[3] == C3;
    OrphanStep3(d);
    TraceOne(Ascii(d), Orphan, OrphanStates, OrphanTokens, 3, OrphanAfter2, C3, OrphanAfter3);
  }

  lemma OrphanTrace4(d: seq<char> -> seq<char>)
    ensures Trace(Ascii(d), Orphan, OrphanStates, OrphanTokens, 4, 5)
  {
    assert OrphanStates[4] == OrphanAfter3 && OrphanStates[5] == OrphanAfter4 && OrphanTokens[4] == C4;
    OrphanStep4(d);
    TraceOne(Ascii(d), Orphan, OrphanStates, OrphanTokens, 4, OrphanAfter3, C4, OrphanAfter4);
  }

  lemma OrphanTrace5(d: seq<char> -> seq<char>)
    ensures Trace(Ascii(d), Orphan, OrphanStates, OrphanTokens, 5, 6)
  {
    assert OrphanStates[5] == OrphanAfter4 && OrphanStates[6] == OrphanAfter5 && OrphanTokens[5] == C5;
    OrphanStep5(d);
    TraceOne(Ascii(d), Orphan, OrphanStates, OrphanTokens, 5, OrphanAfter4, C5, OrphanAfter5);
  }

  lemma OrphanTrace6(d: seq<char> -> seq<char>)
    ensures Trace(Ascii(d), Orphan, OrphanStates, OrphanTokens, 6, 7)
  {
    assert OrphanStates[6] == OrphanAfter5 && OrphanStates[7] == OrphanAfter6 && OrphanTokens[6] == C6;
    OrphanStep6(d);
    TraceOne(Ascii(d), Orphan, OrphanStates, OrphanTokens, 6, OrphanAfter5, C6, OrphanAfter6);
  }

  lemma OrphanTrace7(d: seq<char> -> seq<char>)
    ensures Trace(Ascii(d), Orphan, OrphanStates, OrphanTokens, 7, 8)
  {
    assert OrphanStates[7] == OrphanAfter6 && OrphanStates[8] == OrphanAfter7 && OrphanTokens[7] == C7;
    OrphanStep7(d);
    TraceOne(Ascii(d), Orphan, OrphanStates, OrphanTokens, 7, OrphanAfter6, C7, OrphanAfter7);
  }

  lemma OrphanTrace8(d: seq<char> -> seq<char>)
    ensures Trace(Ascii(d), Orphan, OrphanStates, OrphanTokens, 8, 9)
  {
    assert OrphanStates[8] == OrphanAfter7 && OrphanStates[9] == OrphanAfter8 && OrphanTokens[8] == C8;
    OrphanStep8(d);
    TraceOne(Ascii(d), Orphan, OrphanStates, OrphanTokens, 8, OrphanAfter7, C8, OrphanAfter8);
  }

  /**
   A stray `</div>` closes the inner paragraph as an orphan, but the close is
   written in the stray tag's kind, which writes nothing; the outer paragraph's
   close then writes the only break between "ook" and the next paragraph.
   */
  lemma OrphanedParagraph(d: seq<char> -> seq<char>)
    ensures Tokens(Ascii(d), Fresh(Orphan)) == OrphanTokens
    ensures Drive(Ascii(d), Orphan, Initial, OrphanTokens) == Next(OrphanAfter8)
    ensures Textorize(Ascii(d), Orphan) == Done("\nhoi\nook\n\ndeef\n")
  {
    OrphanScan(d);
    OrphanDrive(d);
    TextorizeVia(Ascii(d), Orphan, OrphanTokens, OrphanAfter8);
  }

  /** The driver's run over the tokens, one state per token. */
  lemma OrphanDrive(d: seq<char> -> seq<char>)
    ensures AllScanned(Orphan, OrphanTokens)
    ensures Drive(Ascii(d), Orphan, Initial, OrphanTokens) == Next(OrphanAfter8)
    ensures OrphanAfter8.out == "\nhoi\nook\n\ndeef\n"
  {
    var rt := Ascii(d);
    OrphanTrace0(d);
    OrphanTrace1(d);
    OrphanTrace2(d);
    OrphanTrace3(d);
    OrphanTrace4(d);
    OrphanTrace5(d);
    OrphanTrace6(d);
    OrphanTrace7(d);
    OrphanTrace8(d);
    TraceJoin(rt, Orphan, OrphanStates, OrphanTokens, 0, 1, 2);
    TraceJoin(rt, Orphan, OrphanStates, OrphanTokens, 0, 2, 3);
    TraceJoin(rt, Orphan, OrphanStates, OrphanTokens, 0, 3, 4);
    TraceJoin(rt, Orphan, OrphanStates, OrphanTokens, 0, 4, 5);
    TraceJoin(rt, Orphan, OrphanStates, OrphanTokens, 0, 5, 6);
    TraceJoin(rt, Orphan, OrphanStates, OrphanTokens, 0, 6, 7);
    TraceJoin(rt, Orphan, OrphanStates, OrphanTokens, 0, 7, 8);
    TraceJoin(rt, Orphan, OrphanStates, OrphanTokens, 0, 8, 9);
    DriveTrace(rt, Orphan, OrphanStates, OrphanTokens, 0);
    assert OrphanTokens[0..] == OrphanTokens;
  }
}
