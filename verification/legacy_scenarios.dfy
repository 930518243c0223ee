/**
 The first generation on concrete inputs: the input on which the driver as
 written hangs, and two inputs from the first generation's test suite. Each
 is scanned by this generation's scanner, which cuts the two test inputs into
 the same tokens as the current generation (neither has an '&' or a raw-text
 body), and followed through the driver as written one token at a time.

 The literal layouts, slices and tag spellings are taken from `Scenarios`.
 The trace helpers (`Moves`, `Trace`, `TraceOne`, `TraceJoin`, ...) and the
 scan helpers (`TokensCons`, `NameTagStep`, `NameTagAt`, `TextorizeVia`) have
 the same shape as theirs but are stated here again, because each one names
 this generation's `Step`, `Drive`, `Tokens` or `ScanNextToken`: these are
 different functions over a different driver state, and a version shared
 through a function-valued parameter would hide the very terms the per-step
 proofs match on.
 */
module LegacyScenarios {
  import opened Runtime
  import opened Html
  import opened SourceScan
  import TagParser
  import Scanner
  import LegacyScanner
  import opened LegacyWriter
  import opened LegacyTextorizer
  import Scenarios

  // ---------------------------------------------------------------------------
  // "&ab <p></p>": an entity test runs into a tag, and the driver as written hangs

  const Stray: seq<char> := "&ab <p></p>"

  /** The entity test's span up to and including the paragraph's '>': an open tag of kind None. */
  const S0: Token := Token(HtmlOpenTag, None, 0, 0, 7)
  const S1: Token := Token(HtmlCloseTag, P, 0, 7, 4)

  /** "&ab" is not an entity: the run stops at the space, and the character after the spaces is '<', not ';'. */
  lemma StrayEntityTest(d: seq<char> -> seq<char>)
    ensures LegacyScanner.ScanEntity(Ascii(d), Cursor(Stray, 1, 0, 0, false))
            == Scanner.Continue('<', Cursor(Stray, 5, 0, 0, false))
  {
    var rt := Ascii(d);
    assert LegacyScanner.EntityRun(rt, 'b', Cursor(Stray, 3, 0, 0, false), 2)
           == Scanner.Stopped(' ', Cursor(Stray, 4, 0, 0, false));
    assert Scanner.AdvanceWhiteSpaces(rt, ' ', Cursor(Stray, 4, 0, 0, false))
           == ('<', Cursor(Stray, 5, 0, 0, false));
  }

  lemma StrayTagBody0(d: seq<char> -> seq<char>)
    ensures Scanner.TagBody(Ascii(d), Cursor(Stray, 6, 0, 0, true), '\0', false)
            == Scanner.Reached('\0', Cursor(Stray, 6, 0, 0, true))
  {
  }

  /** The text from the '&' to the '>' does not start with '<', so it classifies as None. */
  lemma StrayFinish0(d: seq<char> -> seq<char>)
    ensures LegacyScanner.FinishTag(Ascii(d), HtmlOpenTag, Cursor(Stray, 6, 0, 0, false))
            == (S0, Cursor(Stray, 7, 0, 1, false))
  {
    assert Stray[0..7][0] == '&';
  }

  lemma StrayRest0(d: seq<char> -> seq<char>)
    ensures LegacyScanner.ScanTagRest(Ascii(d), 'p', Cursor(Stray, 6, 0, 0, true))
            == (S0, Cursor(Stray, 7, 0, 1, false))
  {
    StrayTagBody0(d);
    StrayFinish0(d);
  }

  /** The tag met from there spans back to the '&', so its text is not tag-shaped. */
  lemma StrayOpenTag(d: seq<char> -> seq<char>)
    ensures LegacyScanner.ScanFrom(Ascii(d), '<', Cursor(Stray, 5, 0, 0, false))
            == (S0, Cursor(Stray, 7, 0, 1, false))
  {
    StrayRest0(d);
    assert Scanner.AdvanceWhiteSpaces(Ascii(d), 'p', Cursor(Stray, 6, 0, 0, true))
           == ('p', Cursor(Stray, 6, 0, 0, true));
  }

  lemma StrayToken0(d: seq<char> -> seq<char>)
    ensures LegacyScanner.ScanNextToken(Ascii(d), Fresh(Stray)) == (S0, Cursor(Stray, 7, 0, 1, false))
  {
    StrayEntityTest(d);
    StrayOpenTag(d);
  }

  lemma StrayTagBody1(d: seq<char> -> seq<char>)
    ensures Scanner.TagBody(Ascii(d), Cursor(Stray, 9, 7, 1, true), '\0', false)
            == Scanner.Reached('p', Cursor(Stray, 10, 7, 1, true))
  {
  }

  lemma StrayFinish1(d: seq<char> -> seq<char>)
    ensures LegacyScanner.FinishTag(Ascii(d), HtmlCloseTag, Cursor(Stray, 10, 7, 1, false))
            == (S1, Cursor(Stray, 11, 7, 0, false))
  {
    assert Stray[7..11] == "</p>";
    TagParser.ParseSpellingsOfP(d);
  }

  lemma StrayRest1(d: seq<char> -> seq<char>)
    ensures LegacyScanner.ScanTagRest(Ascii(d), '/', Cursor(Stray, 9, 7, 1, true))
            == (S1, Cursor(Stray, 11, 7, 0, false))
  {
    StrayTagBody1(d);
    StrayFinish1(d);
  }

  lemma StrayToken1(d: seq<char> -> seq<char>)
    ensures LegacyScanner.ScanNextToken(Ascii(d), Cursor(Stray, 7, 0, 1, false))
            == (S1, Cursor(Stray, 11, 7, 0, false))
  {
    StrayRest1(d);
    assert Scanner.AdvanceWhiteSpaces(Ascii(d), '/', Cursor(Stray, 9, 7, 1, true))
           == ('/', Cursor(Stray, 9, 7, 1, true));
  }

  lemma StrayTokensFrom1(d: seq<char> -> seq<char>)
    ensures Tokens(Ascii(d), Cursor(Stray, 7, 0, 1, false)) == [S1]
  {
    var rt := Ascii(d);
    StrayToken1(d);
    var rest := Cursor(Stray, 11, 7, 0, false);
    assert LegacyScanner.ScanNextToken(rt, rest).0.tokenType == Eof;
    assert Tokens(rt, rest) == [];
  }

  lemma StrayTokens(d: seq<char> -> seq<char>)
    ensures Tokens(Ascii(d), Fresh(Stray)) == [S0, S1]
  {
    StrayToken0(d);
    StrayTokensFrom1(d);
    assert Tokens(Ascii(d), Fresh(Stray)) == [S0] + [S1];
  }

  /** The driver as written pushes S0 and then finds nothing to do with S1. */
  lemma StrayDriveAsWritten(d: seq<char> -> seq<char>)
    ensures AllScanned(Stray, [S0, S1]) && Drive(AsWritten, Ascii(d), Stray, Initial, [S0, S1]) == Diverges
  {
    var rt := Ascii(d);
    var toks := [S0, S1];
    assert Scanned(Stray, S0) && Scanned(Stray, S1);
    NoneOpenThenCloseHangs(rt, Stray, Initial, S0, S1);
    var a := Step(AsWritten, rt, Stray, Initial, S0).st;
    DriveStep(AsWritten, rt, Stray, Initial, toks, a);
    assert toks[1..] == [S1];
  }

  /** The corrected driver leaves S0 off the stack, so S1 is an orphaned close tag. */
  lemma StrayDriveCorrected(d: seq<char> -> seq<char>)
    ensures AllScanned(Stray, [S0, S1]) && Drive(Corrected, Ascii(d), Stray, Initial, [S0, S1]) == Next(State("\n", None, 0, S1, []))
  {
    var rt := Ascii(d);
    var toks := [S0, S1];
    assert Scanned(Stray, S0) && Scanned(Stray, S1);
    var c0 := State([], None, 0, S0, []);
    assert Step(Corrected, rt, Stray, Initial, S0) == Next(c0);
    DriveStep(Corrected, rt, Stray, Initial, toks, c0);
    assert toks[1..] == [S1];
    assert Step(Corrected, rt, Stray, c0, S1) == Next(State("\n", None, 0, S1, []));
    DriveStep(Corrected, rt, Stray, c0, [S1], State("\n", None, 0, S1, []));
    assert [S1][1..] == [];
  }

  /**
   On "&ab <p></p>" the driver as written pushes the None-kind tag and then
   hangs on "</p>"; the corrected driver writes the orphaned close tag's line
   break.
   */
  lemma StrayHangs(d: seq<char> -> seq<char>)
    ensures Textorize(AsWritten, Ascii(d), Stray) == Hangs
    ensures Textorize(Corrected, Ascii(d), Stray) == Done("\n")
  {
    var rt := Ascii(d);
    assert !IsNullOrWhiteSpace(rt, Stray) by {
      assert !rt.isWhiteSpace(Stray[0]);
    }
    StrayTokens(d);
    RunIsDrive(AsWritten, rt, Fresh(Stray), Initial);
    RunIsDrive(Corrected, rt, Fresh(Stray), Initial);
    StrayDriveAsWritten(d);
    StrayDriveCorrected(d);
  }

  // ---------------------------------------------------------------------------
  // Scanning the current generation's example inputs

  /** This generation's scanner answers `t` at `c` and then `rest` from where `t` ends. */
  lemma TokensCons(rt: Library, c: Cursor, t: Token, next: Cursor, rest: seq<Token>)
    requires Axioms(rt) && Valid(c) && !c.isInTag
    requires LegacyScanner.ScanNextToken(rt, c) == (t, next) && t.tokenType != Eof
    requires Tokens(rt, next) == rest
    ensures Tokens(rt, c) == [t] + rest
  {
  }

  /**
   Under the ASCII tables this generation, too, scans a tag that holds only a
   name, after an optional '/', as one token; a kind other than pre is kept.
   */
  lemma NameTagStep(d: seq<char> -> seq<char>, c: Cursor, e: int, kind: HtmlElementType)
    requires Valid(c) && !c.isInTag && c.pos + 2 <= e < |c.src|
    requires c.src[c.pos] == '<' && c.src[e] == '>'
    requires c.src[c.pos + 1] == '/' || AsciiIsLetter(c.src[c.pos + 1])
    requires forall k :: c.pos + 2 <= k < e ==> AsciiIsLetterOrDigit(c.src[k])
    requires TagParser.Parse(Ascii(d), c.src[c.pos..e + 1]) == kind && kind != Script && kind != Style && kind != Pre
    ensures var tokenType := if c.src[c.pos + 1] == '/' then HtmlCloseTag else HtmlOpenTag;
            var (level, after) := Scanner.AdjustBlockLevel(c.blockLevel, kind, tokenType);
            LegacyScanner.ScanNextToken(Ascii(d), c) == (Token(tokenType, kind, level, c.pos, e + 1 - c.pos), Cursor(c.src, e + 1, c.pos, after, false))
  {
    var rt := Ascii(d);
    Scenarios.NameCharsAreNotWhiteSpace(d, c.src, c.pos + 2, e);
    Scenarios.LastOfRun(rt, c.src, c.pos + 2, e, '\0');
    assert LegacyScanner.LegacyKind(kind) == kind;
    LegacyScanner.PlainTagStep(rt, c, e);
  }

  /**
   The name tag `w` where the cursor stands is one token of the given type,
   stamped and leaving the level as `AdjustBlockLevel` says.
   */
  lemma NameTagAt(d: seq<char> -> seq<char>, c: Cursor, e: int, w: seq<char>, kind: HtmlElementType,
                  tokenType: TokenType, level: int, after: int)
    requires Valid(c) && !c.isInTag && Scenarios.HoldsAt(c.src, c.pos, w) && Scenarios.IsNameTag(w) && e == c.pos + |w| - 1
    requires TagParser.Parse(Ascii(d), w) == kind && kind != Script && kind != Style && kind != Pre
    requires tokenType == (if w[1] == '/' then HtmlCloseTag else HtmlOpenTag)
    requires Scanner.AdjustBlockLevel(c.blockLevel, kind, tokenType) == (level, after)
    ensures LegacyScanner.ScanNextToken(Ascii(d), c) == (Token(tokenType, kind, level, c.pos, e + 1 - c.pos), Cursor(c.src, e + 1, c.pos, after, false))
  {
    Scenarios.NameTagFacts(c.src, c.pos, e, w);
    NameTagStep(d, c, e, kind);
  }

  /** A non-blank input whose tokens drive the loop to `final` converts to the text `final` holds. */
  lemma TextorizeVia(v: Variant, rt: Library, src: seq<char>, toks: seq<Token>, final: State)
    requires Axioms(rt) && 0 < |src| && !rt.isWhiteSpace(src[0])
    requires Tokens(rt, Fresh(src)) == toks && Drive(v, rt, src, Initial, toks) == Next(final)
    ensures Textorize(v, rt, src) == Done(final.out)
  {
    RunIsDrive(v, rt, Fresh(src), Initial);
  }

  // ---------------------------------------------------------------------------
  // Following a token stream through the driver

  /** A text token appends what the writer makes of it and changes nothing else. */
  lemma StepText(v: Variant, rt: Library, src: seq<char>, st: State, tok: Token, text: seq<char>, st': State)
    requires Spans(src, st) && Scanned(src, tok) && tok.tokenType == Text
    requires TextToAppend(rt, src, st.out, tok, st.inElement, st.previous) == text
    requires st' == st.(out := st.out + text, previous := tok)
    ensures Step(v, rt, src, st, tok) == Next(st')
  {
  }

  /**
   The tokens from `lo` up to `hi` each take state `sts[i]` to `sts[i + 1]`:
   `sts` is the run of states the driver passes through.
   */
  ghost predicate Trace(v: Variant, rt: Library, src: seq<char>, sts: seq<State>, toks: seq<Token>, lo: nat, hi: nat)
  {
    && lo <= hi <= |toks| && |sts| == |toks| + 1
    && forall k :: lo <= k < hi ==> Moves(v, rt, src, sts, toks, k)
  }

  /** Token `k` takes state `sts[k]` to `sts[k + 1]`. */
  ghost predicate Moves(v: Variant, rt: Library, src: seq<char>, sts: seq<State>, toks: seq<Token>, k: nat)
  {
    && k < |toks| && |sts| == |toks| + 1
    && Spans(src, sts[k]) && Scanned(src, toks[k])
    && Step(v, rt, src, sts[k], toks[k]) == Next(sts[k + 1])
  }

  /** One step, with its states and token named, is a trace of length one. */
  lemma TraceOne(v: Variant, rt: Library, src: seq<char>, sts: seq<State>, toks: seq<Token>, k: nat, st: State, tok: Token, st': State)
    requires k < |toks| && |sts| == |toks| + 1
    requires sts[k] == st && toks[k] == tok && sts[k + 1] == st'
    requires Spans(src, st) && Scanned(src, tok) && Step(v, rt, src, st, tok) == Next(st')
    ensures Trace(v, rt, src, sts, toks, k, k + 1)
  {
    assert Moves(v, rt, src, sts, toks, k);
  }

  /** Two adjacent traces make one. */
  lemma TraceJoin(v: Variant, rt: Library, src: seq<char>, sts: seq<State>, toks: seq<Token>, lo: nat, mid: nat, hi: nat)
    requires Trace(v, rt, src, sts, toks, lo, mid) && Trace(v, rt, src, sts, toks, mid, hi)
    ensures Trace(v, rt, src, sts, toks, lo, hi)
  {
  }

  /** The first step of a non-empty trace, and the trace after it. */
  lemma TraceSplit(v: Variant, rt: Library, src: seq<char>, sts: seq<State>, toks: seq<Token>, lo: nat, hi: nat)
    requires Trace(v, rt, src, sts, toks, lo, hi) && lo < hi
    ensures Spans(src, sts[lo]) && Scanned(src, toks[lo])
    ensures Step(v, rt, src, sts[lo], toks[lo]) == Next(sts[lo + 1])
    ensures Trace(v, rt, src, sts, toks, lo + 1, hi)
  {
    assert Moves(v, rt, src, sts, toks, lo);
  }

  /** The state after the first step of a non-empty trace still spans the source. */
  lemma TraceSpans(v: Variant, rt: Library, src: seq<char>, sts: seq<State>, toks: seq<Token>, k: nat)
    requires Trace(v, rt, src, sts, toks, k, |toks|) && k < |toks|
    ensures Spans(src, sts[k + 1]) && Scanned(src, toks[k]) && Trace(v, rt, src, sts, toks, k + 1, |toks|)
  {
    TraceSplit(v, rt, src, sts, toks, k, |toks|);
    StepSpans(v, rt, src, sts[k], toks[k]);
  }

  /** A run of states the steps agree with is what the driver computes. */
  lemma {:induction false} DriveTrace(v: Variant, rt: Library, src: seq<char>, sts: seq<State>, toks: seq<Token>, k: nat)
    requires Trace(v, rt, src, sts, toks, k, |toks|) && Spans(src, sts[k])
    ensures AllScanned(src, toks[k..])
    ensures Drive(v, rt, src, sts[k], toks[k..]) == Next(sts[|toks|])
    decreases |toks| - k
  {
    if k == |toks| {
      assert toks[k..] == [];
    } else {
      TraceSpans(v, rt, src, sts, toks, k);
      DriveTrace(v, rt, src, sts, toks, k + 1);
      ScannedCons(src, toks, k);
      TraceSplit(v, rt, src, sts, toks, k, |toks|);
      DriveStep(v, rt, src, sts[k], toks[k..], sts[k + 1]);
      assert toks[k..][1..] == toks[k + 1..];
    }
  }

  lemma ScannedCons(src: seq<char>, toks: seq<Token>, k: nat)
    requires k < |toks| && Scanned(src, toks[k]) && AllScanned(src, toks[k + 1..])
    ensures AllScanned(src, toks[k..]) && toks[k..][0] == toks[k]
  {
    var rest := toks[k..];
    forall i | 0 <= i < |rest|
      ensures Scanned(src, rest[i])
    {
      if i > 0 {
        assert rest[i] == toks[k + 1..][i - 1];
      }
    }
  }

  // ---------------------------------------------------------------------------
  // "<p>hoi<p>ook</div></P><p>deef</p>" gives "\nhoi\nook\n\n\ndeef\n"

  const OrphanAfter0: State :=
    State("\n", P, 1, Scenarios.C0, [TokenInfo(1, Scenarios.C0)])
  const OrphanAfter1: State :=
    State("\nhoi", P, 1, Scenarios.C1, [TokenInfo(1, Scenarios.C0)])
  const OrphanAfter2: State :=
    State("\nhoi\n", P, 2, Scenarios.C2, [TokenInfo(1, Scenarios.C0), TokenInfo(2, Scenarios.C2)])
  const OrphanAfter3: State :=
    State("\nhoi\nook", P, 2, Scenarios.C3, [TokenInfo(1, Scenarios.C0), TokenInfo(2, Scenarios.C2)])
  const OrphanAfter4: State :=
    State("\nhoi\nook\n", P, 1, Scenarios.C4, [TokenInfo(1, Scenarios.C0)])
  const OrphanAfter5: State :=
    State("\nhoi\nook\n\n", None, 0, Scenarios.C5, [])
  const OrphanAfter6: State :=
    State("\nhoi\nook\n\n\n", P, 1, Scenarios.C6, [TokenInfo(1, Scenarios.C6)])
  const OrphanAfter7: State :=
    State("\nhoi\nook\n\n\ndeef", P, 1, Scenarios.C7, [TokenInfo(1, Scenarios.C6)])
  const OrphanAfter8: State :=
    State("\nhoi\nook\n\n\ndeef\n", None, 0, Scenarios.C8, [])

  const OrphanTokens: seq<Token> := Scenarios.OrphanTokens

  const OrphanStates: seq<State> := [Initial, OrphanAfter0, OrphanAfter1, OrphanAfter2, OrphanAfter3, OrphanAfter4, OrphanAfter5, OrphanAfter6, OrphanAfter7, OrphanAfter8]

  lemma OrphanStep0(d: seq<char> -> seq<char>)
    ensures Step(AsWritten, Ascii(d), Scenarios.Orphan, Initial, Scenarios.C0) == Next(OrphanAfter0)
    ensures Spans(Scenarios.Orphan, Initial) && Scanned(Scenarios.Orphan, Scenarios.C0)
  {
  }

  lemma OrphanAppends1(d: seq<char> -> seq<char>)
    ensures TextToAppend(Ascii(d), Scenarios.Orphan, OrphanAfter0.out, Scenarios.C1, OrphanAfter0.inElement, OrphanAfter0.previous) == "hoi"
  {
    Scenarios.OrphanWords();
  }

  lemma OrphanStep1(d: seq<char> -> seq<char>)
    ensures Step(AsWritten, Ascii(d), Scenarios.Orphan, OrphanAfter0, Scenarios.C1) == Next(OrphanAfter1)
    ensures Spans(Scenarios.Orphan, OrphanAfter0) && Scanned(Scenarios.Orphan, Scenarios.C1)
  {
    assert Spans(Scenarios.Orphan, OrphanAfter0) && Scanned(Scenarios.Orphan, Scenarios.C1);
    OrphanAppends1(d);
    StepText(AsWritten, Ascii(d), Scenarios.Orphan, OrphanAfter0, Scenarios.C1, "hoi", OrphanAfter1);
  }

  lemma OrphanStep2(d: seq<char> -> seq<char>)
    ensures Step(AsWritten, Ascii(d), Scenarios.Orphan, OrphanAfter1, Scenarios.C2) == Next(OrphanAfter2)
    ensures Spans(Scenarios.Orphan, OrphanAfter1) && Scanned(Scenarios.Orphan, Scenarios.C2)
  {
  }

  lemma OrphanAppends3(d: seq<char> -> seq<char>)
    ensures TextToAppend(Ascii(d), Scenarios.Orphan, OrphanAfter2.out, Scenarios.C3, OrphanAfter2.inElement, OrphanAfter2.previous) == "ook"
  {
    Scenarios.OrphanWords();
  }

  lemma OrphanStep3(d: seq<char> -> seq<char>)
    ensures Step(AsWritten, Ascii(d), Scenarios.Orphan, OrphanAfter2, Scenarios.C3) == Next(OrphanAfter3)
    ensures Spans(Scenarios.Orphan, OrphanAfter2) && Scanned(Scenarios.Orphan, Scenarios.C3)
  {
    assert Spans(Scenarios.Orphan, OrphanAfter2) && Scanned(Scenarios.Orphan, Scenarios.C3);
    OrphanAppends3(d);
    StepText(AsWritten, Ascii(d), Scenarios.Orphan, OrphanAfter2, Scenarios.C3, "ook", OrphanAfter3);
  }

  lemma OrphanStep4(d: seq<char> -> seq<char>)
    ensures Step(AsWritten, Ascii(d), Scenarios.Orphan, OrphanAfter3, Scenarios.C4) == Next(OrphanAfter4)
    ensures Spans(Scenarios.Orphan, OrphanAfter3) && Scanned(Scenarios.Orphan, Scenarios.C4)
  {
  }

  lemma OrphanStep5(d: seq<char> -> seq<char>)
    ensures Step(AsWritten, Ascii(d), Scenarios.Orphan, OrphanAfter4, Scenarios.C5) == Next(OrphanAfter5)
    ensures Spans(Scenarios.Orphan, OrphanAfter4) && Scanned(Scenarios.Orphan, Scenarios.C5)
  {
  }

  lemma OrphanStep6(d: seq<char> -> seq<char>)
    ensures Step(AsWritten, Ascii(d), Scenarios.Orphan, OrphanAfter5, Scenarios.C6) == Next(OrphanAfter6)
    ensures Spans(Scenarios.Orphan, OrphanAfter5) && Scanned(Scenarios.Orphan, Scenarios.C6)
  {
  }

  lemma OrphanAppends7(d: seq<char> -> seq<char>)
    ensures TextToAppend(Ascii(d), Scenarios.Orphan, OrphanAfter6.out, Scenarios.C7, OrphanAfter6.inElement, OrphanAfter6.previous) == "deef"
  {
    Scenarios.OrphanWords();
  }

  lemma OrphanStep7(d: seq<char> -> seq<char>)
    ensures Step(AsWritten, Ascii(d), Scenarios.Orphan, OrphanAfter6, Scenarios.C7) == Next(OrphanAfter7)
    ensures Spans(Scenarios.Orphan, OrphanAfter6) && Scanned(Scenarios.Orphan, Scenarios.C7)
  {
    assert Spans(Scenarios.Orphan, OrphanAfter6) && Scanned(Scenarios.Orphan, Scenarios.C7);
    OrphanAppends7(d);
    StepText(AsWritten, Ascii(d), Scenarios.Orphan, OrphanAfter6, Scenarios.C7, "deef", OrphanAfter7);
  }

  lemma OrphanStep8(d: seq<char> -> seq<char>)
    ensures Step(AsWritten, Ascii(d), Scenarios.Orphan, OrphanAfter7, Scenarios.C8) == Next(OrphanAfter8)
    ensures Spans(Scenarios.Orphan, OrphanAfter7) && Scanned(Scenarios.Orphan, Scenarios.C8)
  {
  }

  lemma OrphanTrace0(d: seq<char> -> seq<char>)
    ensures Trace(AsWritten, Ascii(d), Scenarios.Orphan, OrphanStates, OrphanTokens, 0, 1)
  {
    assert OrphanStates[0] == Initial && OrphanStates[1] == OrphanAfter0 && OrphanTokens[0] == Scenarios.C0;
    OrphanStep0(d);
    TraceOne(AsWritten, Ascii(d), Scenarios.Orphan, OrphanStates, OrphanTokens, 0, Initial, Scenarios.C0, OrphanAfter0);
  }

  lemma OrphanTrace1(d: seq<char> -> seq<char>)
    ensures Trace(AsWritten, Ascii(d), Scenarios.Orphan, OrphanStates, OrphanTokens, 1, 2)
  {
    assert OrphanStates[1] == OrphanAfter0 && OrphanStates[2] == OrphanAfter1 && OrphanTokens[1] == Scenarios.C1;
    OrphanStep1(d);
    TraceOne(AsWritten, Ascii(d), Scenarios.Orphan, OrphanStates, OrphanTokens, 1, OrphanAfter0, Scenarios.C1, OrphanAfter1);
  }

  lemma OrphanTrace2(d: seq<char> -> seq<char>)
    ensures Trace(AsWritten, Ascii(d), Scenarios.Orphan, OrphanStates, OrphanTokens, 2, 3)
  {
    assert OrphanStates[2] == OrphanAfter1 && OrphanStates[3] == OrphanAfter2 && OrphanTokens[2] == Scenarios.C2;
    OrphanStep2(d);
    TraceOne(AsWritten, Ascii(d), Scenarios.Orphan, OrphanStates, OrphanTokens, 2, OrphanAfter1, Scenarios.C2, OrphanAfter2);
  }

  lemma OrphanTrace3(d: seq<char> -> seq<char>)
    ensures Trace(AsWritten, Ascii(d), Scenarios.Orphan, OrphanStates, OrphanTokens, 3, 4)
  {
    assert OrphanStates[3] == OrphanAfter2 && OrphanStates[4] == OrphanAfter3 && OrphanTokens[3] == Scenarios.C3;
    OrphanStep3(d);
    TraceOne(AsWritten, Ascii(d), Scenarios.Orphan, OrphanStates, OrphanTokens, 3, OrphanAfter2, Scenarios.C3, OrphanAfter3);
  }

  lemma OrphanTrace4(d: seq<char> -> seq<char>)
    ensures Trace(AsWritten, Ascii(d), Scenarios.Orphan, OrphanStates, OrphanTokens, 4, 5)
  {
    assert OrphanStates[4] == OrphanAfter3 && OrphanStates[5] == OrphanAfter4 && OrphanTokens[4] == Scenarios.C4;
    OrphanStep4(d);
    TraceOne(AsWritten, Ascii(d), Scenarios.Orphan, OrphanStates, OrphanTokens, 4, OrphanAfter3, Scenarios.C4, OrphanAfter4);
  }

  lemma OrphanTrace5(d: seq<char> -> seq<char>)
    ensures Trace(AsWritten, Ascii(d), Scenarios.Orphan, OrphanStates, OrphanTokens, 5, 6)
  {
    assert OrphanStates[5] == OrphanAfter4 && OrphanStates[6] == OrphanAfter5 && OrphanTokens[5] == Scenarios.C5;
    OrphanStep5(d);
    TraceOne(AsWritten, Ascii(d), Scenarios.Orphan, OrphanStates, OrphanTokens, 5, OrphanAfter4, Scenarios.C5, OrphanAfter5);
  }

  lemma OrphanTrace6(d: seq<char> -> seq<char>)
    ensures Trace(AsWritten, Ascii(d), Scenarios.Orphan, OrphanStates, OrphanTokens, 6, 7)
  {
    assert OrphanStates[6] == OrphanAfter5 && OrphanStates[7] == OrphanAfter6 && OrphanTokens[6] == Scenarios.C6;
    OrphanStep6(d);
    TraceOne(AsWritten, Ascii(d), Scenarios.Orphan, OrphanStates, OrphanTokens, 6, OrphanAfter5, Scenarios.C6, OrphanAfter6);
  }

  lemma OrphanTrace7(d: seq<char> -> seq<char>)
    ensures Trace(AsWritten, Ascii(d), Scenarios.Orphan, OrphanStates, OrphanTokens, 7, 8)
  {
    assert OrphanStates[7] == OrphanAfter6 && OrphanStates[8] == OrphanAfter7 && OrphanTokens[7] == Scenarios.C7;
    OrphanStep7(d);
    TraceOne(AsWritten, Ascii(d), Scenarios.Orphan, OrphanStates, OrphanTokens, 7, OrphanAfter6, Scenarios.C7, OrphanAfter7);
  }

  lemma OrphanTrace8(d: seq<char> -> seq<char>)
    ensures Trace(AsWritten, Ascii(d), Scenarios.Orphan, OrphanStates, OrphanTokens, 8, 9)
  {
    assert OrphanStates[8] == OrphanAfter7 && OrphanStates[9] == OrphanAfter8 && OrphanTokens[8] == Scenarios.C8;
    OrphanStep8(d);
    TraceOne(AsWritten, Ascii(d), Scenarios.Orphan, OrphanStates, OrphanTokens, 8, OrphanAfter7, Scenarios.C8, OrphanAfter8);
  }

  /** Each token of an input laid out like "<p>hoi<p>ook</div></P><p>deef</p>", from the cursor before it to the cursor after it. */
  lemma OrphanScan0(d: seq<char> -> seq<char>, src: seq<char>)
    requires Scenarios.IsOrphanInput(src)
    ensures LegacyScanner.ScanNextToken(Ascii(d), Fresh(src)) == (Scenarios.C0, Cursor(src, 3, 0, 1, false))
  {
    TagParser.ParseSpellingsOfP(d);
    NameTagAt(d, Fresh(src), 2, "<p>", P, HtmlOpenTag, 0, 1);
  }

  lemma OrphanScan1(d: seq<char> -> seq<char>, src: seq<char>)
    requires Scenarios.IsOrphanInput(src)
    ensures LegacyScanner.ScanNextToken(Ascii(d), Cursor(src, 3, 0, 1, false)) == (Scenarios.C1, Cursor(src, 6, 3, 1, false))
  {
    Scenarios.TextFacts(src, 3, "hoi");
    LegacyScanner.TextRunStep(Ascii(d), Cursor(src, 3, 0, 1, false), 6);
  }

  lemma OrphanScan2(d: seq<char> -> seq<char>, src: seq<char>)
    requires Scenarios.IsOrphanInput(src)
    ensures LegacyScanner.ScanNextToken(Ascii(d), Cursor(src, 6, 3, 1, false)) == (Scenarios.C2, Cursor(src, 9, 6, 2, false))
  {
    TagParser.ParseSpellingsOfP(d);
    NameTagAt(d, Cursor(src, 6, 3, 1, false), 8, "<p>", P, HtmlOpenTag, 1, 2);
  }

  lemma OrphanScan3(d: seq<char> -> seq<char>, src: seq<char>)
    requires Scenarios.IsOrphanInput(src)
    ensures LegacyScanner.ScanNextToken(Ascii(d), Cursor(src, 9, 6, 2, false)) == (Scenarios.C3, Cursor(src, 12, 9, 2, false))
  {
    Scenarios.TextFacts(src, 9, "ook");
    LegacyScanner.TextRunStep(Ascii(d), Cursor(src, 9, 6, 2, false), 12);
  }

  lemma OrphanScan4(d: seq<char> -> seq<char>, src: seq<char>)
    requires Scenarios.IsOrphanInput(src)
    ensures LegacyScanner.ScanNextToken(Ascii(d), Cursor(src, 12, 9, 2, false)) == (Scenarios.C4, Cursor(src, 18, 12, 1, false))
  {
    Scenarios.ParseOrphanTags(d);
    NameTagAt(d, Cursor(src, 12, 9, 2, false), 17, "</div>", Other, HtmlCloseTag, 1, 1);
  }

  lemma OrphanScan5(d: seq<char> -> seq<char>, src: seq<char>)
    requires Scenarios.IsOrphanInput(src)
    ensures LegacyScanner.ScanNextToken(Ascii(d), Cursor(src, 18, 12, 1, false)) == (Scenarios.C5, Cursor(src, 22, 18, 0, false))
  {
    Scenarios.ParseOrphanTags(d);
    NameTagAt(d, Cursor(src, 18, 12, 1, false), 21, "</P>", P, HtmlCloseTag, 0, 0);
  }

  lemma OrphanScan6(d: seq<char> -> seq<char>, src: seq<char>)
    requires Scenarios.IsOrphanInput(src)
    ensures LegacyScanner.ScanNextToken(Ascii(d), Cursor(src, 22, 18, 0, false)) == (Scenarios.C6, Cursor(src, 25, 22, 1, false))
  {
    TagParser.ParseSpellingsOfP(d);
    NameTagAt(d, Cursor(src, 22, 18, 0, false), 24, "<p>", P, HtmlOpenTag, 0, 1);
  }

  lemma OrphanScan7(d: seq<char> -> seq<char>, src: seq<char>)
    requires Scenarios.IsOrphanInput(src)
    ensures LegacyScanner.ScanNextToken(Ascii(d), Cursor(src, 25, 22, 1, false)) == (Scenarios.C7, Cursor(src, 29, 25, 1, false))
  {
    Scenarios.TextFacts(src, 25, "deef");
    LegacyScanner.TextRunStep(Ascii(d), Cursor(src, 25, 22, 1, false), 29);
  }

  lemma OrphanScan8(d: seq<char> -> seq<char>, src: seq<char>)
    requires Scenarios.IsOrphanInput(src)
    ensures LegacyScanner.ScanNextToken(Ascii(d), Cursor(src, 29, 25, 1, false)) == (Scenarios.C8, Cursor(src, 33, 29, 0, false))
  {
    TagParser.ParseSpellingsOfP(d);
    NameTagAt(d, Cursor(src, 29, 25, 1, false), 32, "</p>", P, HtmlCloseTag, 0, 0);
  }

  /** From each cursor of the run on, the scanner answers the tokens that are left. */
  lemma OrphanFrom8(d: seq<char> -> seq<char>, src: seq<char>)
    requires Scenarios.IsOrphanInput(src)
    ensures Tokens(Ascii(d), Cursor(src, 29, 25, 1, false)) == [Scenarios.C8]
  {
    OrphanScan8(d, src);
    assert Tokens(Ascii(d), Cursor(src, 33, 29, 0, false)) == [];
    TokensCons(Ascii(d), Cursor(src, 29, 25, 1, false), Scenarios.C8, Cursor(src, 33, 29, 0, false), []);
  }

  lemma OrphanFrom7(d: seq<char> -> seq<char>, src: seq<char>)
    requires Scenarios.IsOrphanInput(src)
    ensures Tokens(Ascii(d), Cursor(src, 25, 22, 1, false)) == [Scenarios.C7] + [Scenarios.C8]
  {
    OrphanScan7(d, src);
    OrphanFrom8(d, src);
    TokensCons(Ascii(d), Cursor(src, 25, 22, 1, false), Scenarios.C7, Cursor(src, 29, 25, 1, false), [Scenarios.C8]);
  }

  lemma OrphanFrom6(d: seq<char> -> seq<char>, src: seq<char>)
    requires Scenarios.IsOrphanInput(src)
    ensures Tokens(Ascii(d), Cursor(src, 22, 18, 0, false)) == [Scenarios.C6] + ([Scenarios.C7] + [Scenarios.C8])
  {
    OrphanScan6(d, src);
    OrphanFrom7(d, src);
    TokensCons(Ascii(d), Cursor(src, 22, 18, 0, false), Scenarios.C6, Cursor(src, 25, 22, 1, false), [Scenarios.C7] + [Scenarios.C8]);
  }

  lemma OrphanFrom5(d: seq<char> -> seq<char>, src: seq<char>)
    requires Scenarios.IsOrphanInput(src)
    ensures Tokens(Ascii(d), Cursor(src, 18, 12, 1, false)) == [Scenarios.C5] + ([Scenarios.C6] + ([Scenarios.C7] + [Scenarios.C8]))
  {
    OrphanScan5(d, src);
    OrphanFrom6(d, src);
    TokensCons(Ascii(d), Cursor(src, 18, 12, 1, false), Scenarios.C5, Cursor(src, 22, 18, 0, false), [Scenarios.C6] + ([Scenarios.C7] + [Scenarios.C8]));
  }

  lemma OrphanFrom4(d: seq<char> -> seq<char>, src: seq<char>)
    requires Scenarios.IsOrphanInput(src)
    ensures Tokens(Ascii(d), Cursor(src, 12, 9, 2, false)) == [Scenarios.C4] + ([Scenarios.C5] + ([Scenarios.C6] + ([Scenarios.C7] + [Scenarios.C8])))
  {
    OrphanScan4(d, src);
    OrphanFrom5(d, src);
    TokensCons(Ascii(d), Cursor(src, 12, 9, 2, false), Scenarios.C4, Cursor(src, 18, 12, 1, false), [Scenarios.C5] + ([Scenarios.C6] + ([Scenarios.C7] + [Scenarios.C8])));
  }

  lemma OrphanFrom3(d: seq<char> -> seq<char>, src: seq<char>)
    requires Scenarios.IsOrphanInput(src)
    ensures Tokens(Ascii(d), Cursor(src, 9, 6, 2, false)) == [Scenarios.C3] + ([Scenarios.C4] + ([Scenarios.C5] + ([Scenarios.C6] + ([Scenarios.C7] + [Scenarios.C8]))))
  {
    OrphanScan3(d, src);
    OrphanFrom4(d, src);
    TokensCons(Ascii(d), Cursor(src, 9, 6, 2, false), Scenarios.C3, Cursor(src, 12, 9, 2, false), [Scenarios.C4] + ([Scenarios.C5] + ([Scenarios.C6] + ([Scenarios.C7] + [Scenarios.C8]))));
  }

  lemma OrphanFrom2(d: seq<char> -> seq<char>, src: seq<char>)
    requires Scenarios.IsOrphanInput(src)
    ensures Tokens(Ascii(d), Cursor(src, 6, 3, 1, false)) == [Scenarios.C2] + ([Scenarios.C3] + ([Scenarios.C4] + ([Scenarios.C5] + ([Scenarios.C6] + ([Scenarios.C7] + [Scenarios.C8])))))
  {
    OrphanScan2(d, src);
    OrphanFrom3(d, src);
    TokensCons(Ascii(d), Cursor(src, 6, 3, 1, false), Scenarios.C2, Cursor(src, 9, 6, 2, false), [Scenarios.C3] + ([Scenarios.C4] + ([Scenarios.C5] + ([Scenarios.C6] + ([Scenarios.C7] + [Scenarios.C8])))));
  }

  lemma OrphanFrom1(d: seq<char> -> seq<char>, src: seq<char>)
    requires Scenarios.IsOrphanInput(src)
    ensures Tokens(Ascii(d), Cursor(src, 3, 0, 1, false)) == [Scenarios.C1] + ([Scenarios.C2] + ([Scenarios.C3] + ([Scenarios.C4] + ([Scenarios.C5] + ([Scenarios.C6] + ([Scenarios.C7] + [Scenarios.C8]))))))
  {
    OrphanScan1(d, src);
    OrphanFrom2(d, src);
    TokensCons(Ascii(d), Cursor(src, 3, 0, 1, false), Scenarios.C1, Cursor(src, 6, 3, 1, false), [Scenarios.C2] + ([Scenarios.C3] + ([Scenarios.C4] + ([Scenarios.C5] + ([Scenarios.C6] + ([Scenarios.C7] + [Scenarios.C8]))))));
  }

  lemma OrphanFrom0(d: seq<char> -> seq<char>, src: seq<char>)
    requires Scenarios.IsOrphanInput(src)
    ensures Tokens(Ascii(d), Fresh(src)) == [Scenarios.C0] + ([Scenarios.C1] + ([Scenarios.C2] + ([Scenarios.C3] + ([Scenarios.C4] + ([Scenarios.C5] + ([Scenarios.C6] + ([Scenarios.C7] + [Scenarios.C8])))))))
  {
    OrphanScan0(d, src);
    OrphanFrom1(d, src);
    TokensCons(Ascii(d), Fresh(src), Scenarios.C0, Cursor(src, 3, 0, 1, false), [Scenarios.C1] + ([Scenarios.C2] + ([Scenarios.C3] + ([Scenarios.C4] + ([Scenarios.C5] + ([Scenarios.C6] + ([Scenarios.C7] + [Scenarios.C8])))))));
  }

  /** Any input laid out like "<p>hoi<p>ook</div></P><p>deef</p>" scans to the same tokens. */
  lemma OrphanScanOf(d: seq<char> -> seq<char>, src: seq<char>)
    requires Scenarios.IsOrphanInput(src)
    ensures Tokens(Ascii(d), Fresh(src)) == OrphanTokens
  {
    OrphanFrom0(d, src);
    OrphanTokensOneByOne();
  }

  /** The tokens written out above, taken one at a time from the front. */
  lemma OrphanTokensOneByOne()
    ensures OrphanTokens == [Scenarios.C0] + ([Scenarios.C1] + ([Scenarios.C2] + ([Scenarios.C3] + ([Scenarios.C4] + ([Scenarios.C5] + ([Scenarios.C6] + ([Scenarios.C7] + [Scenarios.C8])))))))
  {
  }

  /** This generation cuts the example input into the same tokens as the current one. */
  lemma OrphanScan(d: seq<char> -> seq<char>)
    ensures Tokens(Ascii(d), Fresh(Scenarios.Orphan)) == OrphanTokens
  {
    Scenarios.OrphanLaidOut();
    OrphanScanOf(d, Scenarios.Orphan);
  }

  /**
   A stray `</div>` closes the inner paragraph as an orphan, and this
   generation writes that close in the orphan's own kind, a paragraph: a line
   break the current generation does not write.
   */
  lemma OrphanedParagraph(d: seq<char> -> seq<char>)
    ensures Tokens(Ascii(d), Fresh(Scenarios.Orphan)) == OrphanTokens
    ensures Drive(AsWritten, Ascii(d), Scenarios.Orphan, Initial, OrphanTokens) == Next(OrphanAfter8)
    ensures Textorize(AsWritten, Ascii(d), Scenarios.Orphan) == Done("\nhoi\nook\n\n\ndeef\n")
  {
    OrphanScan(d);
    OrphanDrive(d);
    TextorizeVia(AsWritten, Ascii(d), Scenarios.Orphan, OrphanTokens, OrphanAfter8);
  }

  /** The driver's run over the tokens, one state per token. */
  lemma OrphanDrive(d: seq<char> -> seq<char>)
    ensures AllScanned(Scenarios.Orphan, OrphanTokens)
    ensures Drive(AsWritten, Ascii(d), Scenarios.Orphan, Initial, OrphanTokens) == Next(OrphanAfter8)
    ensures OrphanAfter8.out == "\nhoi\nook\n\n\ndeef\n"
  {
    var rt := Ascii(d);
    OrphanTrace0(d);
    OrphanTrace1(d);
    OrphanTrace2(d);
    OrphanTrace3(d);
    OrphanTrace4(d);
    OrphanTrace5(d);
    OrphanTrace6(d);
    OrphanTrace7(d);
    OrphanTrace8(d);
    TraceJoin(AsWritten, rt, Scenarios.Orphan, OrphanStates, OrphanTokens, 0, 1, 2);
    TraceJoin(AsWritten, rt, Scenarios.Orphan, OrphanStates, OrphanTokens, 0, 2, 3);
    TraceJoin(AsWritten, rt, Scenarios.Orphan, OrphanStates, OrphanTokens, 0, 3, 4);
    TraceJoin(AsWritten, rt, Scenarios.Orphan, OrphanStates, OrphanTokens, 0, 4, 5);
    TraceJoin(AsWritten, rt, Scenarios.Orphan, OrphanStates, OrphanTokens, 0, 5, 6);
    TraceJoin(AsWritten, rt, Scenarios.Orphan, OrphanStates, OrphanTokens, 0, 6, 7);
    TraceJoin(AsWritten, rt, Scenarios.Orphan, OrphanStates, OrphanTokens, 0, 7, 8);
    TraceJoin(AsWritten, rt, Scenarios.Orphan, OrphanStates, OrphanTokens, 0, 8, 9);
    DriveTrace(AsWritten, rt, Scenarios.Orphan, OrphanStates, OrphanTokens, 0);
    assert OrphanTokens[0..] == OrphanTokens;
  }

  // ---------------------------------------------------------------------------
  // "<p><ul><li>item 1</li><li>item 2</li></ul></p>" gives "\n\n\t- item 1\n\t- item 2\n\n"

  const ListAfter0: State :=
    State("\n", P, 1, Scenarios.B0, [TokenInfo(1, Scenarios.B0)])
  const ListAfter1: State :=
    State("\n\n", Ul, 2, Scenarios.B1, [TokenInfo(1, Scenarios.B0), TokenInfo(2, Scenarios.B1)])
  const ListAfter2: State :=
    State("\n\n\t- ", Li, 3, Scenarios.B2, [TokenInfo(1, Scenarios.B0), TokenInfo(2, Scenarios.B1), TokenInfo(3, Scenarios.B2)])
  const ListAfter3: State :=
    State("\n\n\t- item 1", Li, 3, Scenarios.B3, [TokenInfo(1, Scenarios.B0), TokenInfo(2, Scenarios.B1), TokenInfo(3, Scenarios.B2)])
  const ListAfter4: State :=
    State("\n\n\t- item 1\n", Ul, 2, Scenarios.B4, [TokenInfo(1, Scenarios.B0), TokenInfo(2, Scenarios.B1)])
  const ListAfter5: State :=
    State("\n\n\t- item 1\n\t- ", Li, 3, Scenarios.B5, [TokenInfo(1, Scenarios.B0), TokenInfo(2, Scenarios.B1), TokenInfo(3, Scenarios.B5)])
  const ListAfter6: State :=
    State("\n\n\t- item 1\n\t- item 2", Li, 3, Scenarios.B6, [TokenInfo(1, Scenarios.B0), TokenInfo(2, Scenarios.B1), TokenInfo(3, Scenarios.B5)])
  const ListAfter7: State :=
    State("\n\n\t- item 1\n\t- item 2\n", Ul, 2, Scenarios.B7, [TokenInfo(1, Scenarios.B0), TokenInfo(2, Scenarios.B1)])
  const ListAfter8: State :=
    State("\n\n\t- item 1\n\t- item 2\n", P, 1, Scenarios.B8, [TokenInfo(1, Scenarios.B0)])
  const ListAfter9: State :=
    State("\n\n\t- item 1\n\t- item 2\n\n", None, 0, Scenarios.B9, [])

  const ListTokens: seq<Token> := Scenarios.ListTokens

  const ListStates: seq<State> := [Initial, ListAfter0, ListAfter1, ListAfter2, ListAfter3, ListAfter4, ListAfter5, ListAfter6, ListAfter7, ListAfter8, ListAfter9]

  lemma ListStep0(d: seq<char> -> seq<char>)
    ensures Step(AsWritten, Ascii(d), Scenarios.List, Initial, Scenarios.B0) == Next(ListAfter0)
    ensures Spans(Scenarios.List, Initial) && Scanned(Scenarios.List, Scenarios.B0)
  {
  }

  lemma ListStep1(d: seq<char> -> seq<char>)
    ensures Step(AsWritten, Ascii(d), Scenarios.List, ListAfter0, Scenarios.B1) == Next(ListAfter1)
    ensures Spans(Scenarios.List, ListAfter0) && Scanned(Scenarios.List, Scenarios.B1)
  {
  }

  lemma ListStep2(d: seq<char> -> seq<char>)
    ensures Step(AsWritten, Ascii(d), Scenarios.List, ListAfter1, Scenarios.B2) == Next(ListAfter2)
    ensures Spans(Scenarios.List, ListAfter1) && Scanned(Scenarios.List, Scenarios.B2)
  {
  }

  lemma ListAppends3(d: seq<char> -> seq<char>)
    ensures TextToAppend(Ascii(d), Scenarios.List, ListAfter2.out, Scenarios.B3, ListAfter2.inElement, ListAfter2.previous) == "item 1"
  {
    Scenarios.ListItems();
  }

  lemma ListStep3(d: seq<char> -> seq<char>)
    ensures Step(AsWritten, Ascii(d), Scenarios.List, ListAfter2, Scenarios.B3) == Next(ListAfter3)
    ensures Spans(Scenarios.List, ListAfter2) && Scanned(Scenarios.List, Scenarios.B3)
  {
    assert Spans(Scenarios.List, ListAfter2) && Scanned(Scenarios.List, Scenarios.B3);
    ListAppends3(d);
    StepText(AsWritten, Ascii(d), Scenarios.List, ListAfter2, Scenarios.B3, "item 1", ListAfter3);
  }

  lemma ListStep4(d: seq<char> -> seq<char>)
    ensures Step(AsWritten, Ascii(d), Scenarios.List, ListAfter3, Scenarios.B4) == Next(ListAfter4)
    ensures Spans(Scenarios.List, ListAfter3) && Scanned(Scenarios.List, Scenarios.B4)
  {
  }

  lemma ListStep5(d: seq<char> -> seq<char>)
    ensures Step(AsWritten, Ascii(d), Scenarios.List, ListAfter4, Scenarios.B5) == Next(ListAfter5)
    ensures Spans(Scenarios.List, ListAfter4) && Scanned(Scenarios.List, Scenarios.B5)
  {
  }

  lemma ListAppends6(d: seq<char> -> seq<char>)
    ensures TextToAppend(Ascii(d), Scenarios.List, ListAfter5.out, Scenarios.B6, ListAfter5.inElement, ListAfter5.previous) == "item 2"
  {
    Scenarios.ListItems();
  }

  lemma ListStep6(d: seq<char> -> seq<char>)
    ensures Step(AsWritten, Ascii(d), Scenarios.List, ListAfter5, Scenarios.B6) == Next(ListAfter6)
    ensures Spans(Scenarios.List, ListAfter5) && Scanned(Scenarios.List, Scenarios.B6)
  {
    assert Spans(Scenarios.List, ListAfter5) && Scanned(Scenarios.List, Scenarios.B6);
    ListAppends6(d);
    StepText(AsWritten, Ascii(d), Scenarios.List, ListAfter5, Scenarios.B6, "item 2", ListAfter6);
  }

  lemma ListStep7(d: seq<char> -> seq<char>)
    ensures Step(AsWritten, Ascii(d), Scenarios.List, ListAfter6, Scenarios.B7) == Next(ListAfter7)
    ensures Spans(Scenarios.List, ListAfter6) && Scanned(Scenarios.List, Scenarios.B7)
  {
  }

  lemma ListStep8(d: seq<char> -> seq<char>)
    ensures Step(AsWritten, Ascii(d), Scenarios.List, ListAfter7, Scenarios.B8) == Next(ListAfter8)
    ensures Spans(Scenarios.List, ListAfter7) && Scanned(Scenarios.List, Scenarios.B8)
  {
  }

  lemma ListStep9(d: seq<char> -> seq<char>)
    ensures Step(AsWritten, Ascii(d), Scenarios.List, ListAfter8, Scenarios.B9) == Next(ListAfter9)
    ensures Spans(Scenarios.List, ListAfter8) && Scanned(Scenarios.List, Scenarios.B9)
  {
  }

  lemma ListTrace0(d: seq<char> -> seq<char>)
    ensures Trace(AsWritten, Ascii(d), Scenarios.List, ListStates, ListTokens, 0, 1)
  {
    assert ListStates[0] == Initial && ListStates[1] == ListAfter0 && ListTokens[0] == Scenarios.B0;
    ListStep0(d);
    TraceOne(AsWritten, Ascii(d), Scenarios.List, ListStates, ListTokens, 0, Initial, Scenarios.B0, ListAfter0);
  }

  lemma ListTrace1(d: seq<char> -> seq<char>)
    ensures Trace(AsWritten, Ascii(d), Scenarios.List, ListStates, ListTokens, 1, 2)
  {
    assert ListStates[1] == ListAfter0 && ListStates[2] == ListAfter1 && ListTokens[1] == Scenarios.B1;
    ListStep1(d);
    TraceOne(AsWritten, Ascii(d), Scenarios.List, ListStates, ListTokens, 1, ListAfter0, Scenarios.B1, ListAfter1);
  }

  lemma ListTrace2(d: seq<char> -> seq<char>)
    ensures Trace(AsWritten, Ascii(d), Scenarios.List, ListStates, ListTokens, 2, 3)
  {
    assert ListStates[2] == ListAfter1 && ListStates[3] == ListAfter2 && ListTokens[2] == Scenarios.B2;
    ListStep2(d);
    TraceOne(AsWritten, Ascii(d), Scenarios.List, ListStates, ListTokens, 2, ListAfter1, Scenarios.B2, ListAfter2);
  }

  lemma ListTrace3(d: seq<char> -> seq<char>)
    ensures Trace(AsWritten, Ascii(d), Scenarios.List, ListStates, ListTokens, 3, 4)
  {
    assert ListStates[3] == ListAfter2 && ListStates[4] == ListAfter3 && ListTokens[3] == Scenarios.B3;
    ListStep3(d);
    TraceOne(AsWritten, Ascii(d), Scenarios.List, ListStates, ListTokens, 3, ListAfter2, Scenarios.B3, ListAfter3);
  }

  lemma ListTrace4(d: seq<char> -> seq<char>)
    ensures Trace(AsWritten, Ascii(d), Scenarios.List, ListStates, ListTokens, 4, 5)
  {
    assert ListStates[4] == ListAfter3 && ListStates[5] == ListAfter4 && ListTokens[4] == Scenarios.B4;
    ListStep4(d);
    TraceOne(AsWritten, Ascii(d), Scenarios.List, ListStates, ListTokens, 4, ListAfter3, Scenarios.B4, ListAfter4);
  }

  lemma ListTrace5(d: seq<char> -> seq<char>)
    ensures Trace(AsWritten, Ascii(d), Scenarios.List, ListStates, ListTokens, 5, 6)
  {
    assert ListStates[5] == ListAfter4 && ListStates[6] == ListAfter5 && ListTokens[5] == Scenarios.B5;
    ListStep5(d);
    TraceOne(AsWritten, Ascii(d), Scenarios.List, ListStates, ListTokens, 5, ListAfter4, Scenarios.B5, ListAfter5);
  }

  lemma ListTrace6(d: seq<char> -> seq<char>)
    ensures Trace(AsWritten, Ascii(d), Scenarios.List, ListStates, ListTokens, 6, 7)
  {
    assert ListStates[6] == ListAfter5 && ListStates[7] == ListAfter6 && ListTokens[6] == Scenarios.B6;
    ListStep6(d);
    TraceOne(AsWritten, Ascii(d), Scenarios.List, ListStates, ListTokens, 6, ListAfter5, Scenarios.B6, ListAfter6);
  }

  lemma ListTrace7(d: seq<char> -> seq<char>)
    ensures Trace(AsWritten, Ascii(d), Scenarios.List, ListStates, ListTokens, 7, 8)
  {
    assert ListStates[7] == ListAfter6 && ListStates[8] == ListAfter7 && ListTokens[7] == Scenarios.B7;
    ListStep7(d);
    TraceOne(AsWritten, Ascii(d), Scenarios.List, ListStates, ListTokens, 7, ListAfter6, Scenarios.B7, ListAfter7);
  }

  lemma ListTrace8(d: seq<char> -> seq<char>)
    ensures Trace(AsWritten, Ascii(d), Scenarios.List, ListStates, ListTokens, 8, 9)
  {
    assert ListStates[8] == ListAfter7 && ListStates[9] == ListAfter8 && ListTokens[8] == Scenarios.B8;
    ListStep8(d);
    TraceOne(AsWritten, Ascii(d), Scenarios.List, ListStates, ListTokens, 8, ListAfter7, Scenarios.B8, ListAfter8);
  }

  lemma ListTrace9(d: seq<char> -> seq<char>)
    ensures Trace(AsWritten, Ascii(d), Scenarios.List, ListStates, ListTokens, 9, 10)
  {
    assert ListStates[9] == ListAfter8 && ListStates[10] == ListAfter9 && ListTokens[9] == Scenarios.B9;
    ListStep9(d);
    TraceOne(AsWritten, Ascii(d), Scenarios.List, ListStates, ListTokens, 9, ListAfter8, Scenarios.B9, ListAfter9);
  }

  /** Each token of an input laid out like "<p><ul><li>item 1</li><li>item 2</li></ul></p>", from the cursor before it to the cursor after it. */
  lemma ListScan0(d: seq<char> -> seq<char>, src: seq<char>)
    requires Scenarios.IsListInput(src)
    ensures LegacyScanner.ScanNextToken(Ascii(d), Fresh(src)) == (Scenarios.B0, Cursor(src, 3, 0, 1, false))
  {
    TagParser.ParseSpellingsOfP(d);
    NameTagAt(d, Fresh(src), 2, "<p>", P, HtmlOpenTag, 0, 1);
  }

  lemma ListScan1(d: seq<char> -> seq<char>, src: seq<char>)
    requires Scenarios.IsListInput(src)
    ensures LegacyScanner.ScanNextToken(Ascii(d), Cursor(src, 3, 0, 1, false)) == (Scenarios.B1, Cursor(src, 7, 3, 2, false))
  {
    Scenarios.ParseUlTags(d);
    NameTagAt(d, Cursor(src, 3, 0, 1, false), 6, "<ul>", Ul, HtmlOpenTag, 1, 2);
  }

  lemma ListScan2(d: seq<char> -> seq<char>, src: seq<char>)
    requires Scenarios.IsListInput(src)
    ensures LegacyScanner.ScanNextToken(Ascii(d), Cursor(src, 7, 3, 2, false)) == (Scenarios.B2, Cursor(src, 11, 7, 3, false))
  {
    Scenarios.ParseLiTags(d);
    NameTagAt(d, Cursor(src, 7, 3, 2, false), 10, "<li>", Li, HtmlOpenTag, 2, 3);
  }

  lemma ListScan3(d: seq<char> -> seq<char>, src: seq<char>)
    requires Scenarios.IsListInput(src)
    ensures LegacyScanner.ScanNextToken(Ascii(d), Cursor(src, 11, 7, 3, false)) == (Scenarios.B3, Cursor(src, 17, 11, 3, false))
  {
    Scenarios.TextFacts(src, 11, "item 1");
    LegacyScanner.TextRunStep(Ascii(d), Cursor(src, 11, 7, 3, false), 17);
  }

  lemma ListScan4(d: seq<char> -> seq<char>, src: seq<char>)
    requires Scenarios.IsListInput(src)
    ensures LegacyScanner.ScanNextToken(Ascii(d), Cursor(src, 17, 11, 3, false)) == (Scenarios.B4, Cursor(src, 22, 17, 2, false))
  {
    Scenarios.ParseLiTags(d);
    NameTagAt(d, Cursor(src, 17, 11, 3, false), 21, "</li>", Li, HtmlCloseTag, 2, 2);
  }

  lemma ListScan5(d: seq<char> -> seq<char>, src: seq<char>)
    requires Scenarios.IsListInput(src)
    ensures LegacyScanner.ScanNextToken(Ascii(d), Cursor(src, 22, 17, 2, false)) == (Scenarios.B5, Cursor(src, 26, 22, 3, false))
  {
    Scenarios.ParseLiTags(d);
    NameTagAt(d, Cursor(src, 22, 17, 2, false), 25, "<li>", Li, HtmlOpenTag, 2, 3);
  }

  lemma ListScan6(d: seq<char> -> seq<char>, src: seq<char>)
    requires Scenarios.IsListInput(src)
    ensures LegacyScanner.ScanNextToken(Ascii(d), Cursor(src, 26, 22, 3, false)) == (Scenarios.B6, Cursor(src, 32, 26, 3, false))
  {
    Scenarios.TextFacts(src, 26, "item 2");
    LegacyScanner.TextRunStep(Ascii(d), Cursor(src, 26, 22, 3, false), 32);
  }

  lemma ListScan7(d: seq<char> -> seq<char>, src: seq<char>)
    requires Scenarios.IsListInput(src)
    ensures LegacyScanner.ScanNextToken(Ascii(d), Cursor(src, 32, 26, 3, false)) == (Scenarios.B7, Cursor(src, 37, 32, 2, false))
  {
    Scenarios.ParseLiTags(d);
    NameTagAt(d, Cursor(src, 32, 26, 3, false), 36, "</li>", Li, HtmlCloseTag, 2, 2);
  }

  lemma ListScan8(d: seq<char> -> seq<char>, src: seq<char>)
    requires Scenarios.IsListInput(src)
    ensures LegacyScanner.ScanNextToken(Ascii(d), Cursor(src, 37, 32, 2, false)) == (Scenarios.B8, Cursor(src, 42, 37, 1, false))
  {
    Scenarios.ParseUlTags(d);
    NameTagAt(d, Cursor(src, 37, 32, 2, false), 41, "</ul>", Ul, HtmlCloseTag, 1, 1);
  }

  lemma ListScan9(d: seq<char> -> seq<char>, src: seq<char>)
    requires Scenarios.IsListInput(src)
    ensures LegacyScanner.ScanNextToken(Ascii(d), Cursor(src, 42, 37, 1, false)) == (Scenarios.B9, Cursor(src, 46, 42, 0, false))
  {
    TagParser.ParseSpellingsOfP(d);
    NameTagAt(d, Cursor(src, 42, 37, 1, false), 45, "</p>", P, HtmlCloseTag, 0, 0);
  }

  /** From each cursor of the run on, the scanner answers the tokens that are left. */
  lemma ListFrom9(d: seq<char> -> seq<char>, src: seq<char>)
    requires Scenarios.IsListInput(src)
    ensures Tokens(Ascii(d), Cursor(src, 42, 37, 1, false)) == [Scenarios.B9]
  {
    ListScan9(d, src);
    assert Tokens(Ascii(d), Cursor(src, 46, 42, 0, false)) == [];
    TokensCons(Ascii(d), Cursor(src, 42, 37, 1, false), Scenarios.B9, Cursor(src, 46, 42, 0, false), []);
  }

  lemma ListFrom8(d: seq<char> -> seq<char>, src: seq<char>)
    requires Scenarios.IsListInput(src)
    ensures Tokens(Ascii(d), Cursor(src, 37, 32, 2, false)) == [Scenarios.B8] + [Scenarios.B9]
  {
    ListScan8(d, src);
    ListFrom9(d, src);
    TokensCons(Ascii(d), Cursor(src, 37, 32, 2, false), Scenarios.B8, Cursor(src, 42, 37, 1, false), [Scenarios.B9]);
  }

  lemma ListFrom7(d: seq<char> -> seq<char>, src: seq<char>)
    requires Scenarios.IsListInput(src)
    ensures Tokens(Ascii(d), Cursor(src, 32, 26, 3, false)) == [Scenarios.B7] + ([Scenarios.B8] + [Scenarios.B9])
  {
    ListScan7(d, src);
    ListFrom8(d, src);
    TokensCons(Ascii(d), Cursor(src, 32, 26, 3, false), Scenarios.B7, Cursor(src, 37, 32, 2, false), [Scenarios.B8] + [Scenarios.B9]);
  }

  lemma ListFrom6(d: seq<char> -> seq<char>, src: seq<char>)
    requires Scenarios.IsListInput(src)
    ensures Tokens(Ascii(d), Cursor(src, 26, 22, 3, false)) == [Scenarios.B6] + ([Scenarios.B7] + ([Scenarios.B8] + [Scenarios.B9]))
  {
    ListScan6(d, src);
    ListFrom7(d, src);
    TokensCons(Ascii(d), Cursor(src, 26, 22, 3, false), Scenarios.B6, Cursor(src, 32, 26, 3, false), [Scenarios.B7] + ([Scenarios.B8] + [Scenarios.B9]));
  }

  lemma ListFrom5(d: seq<char> -> seq<char>, src: seq<char>)
    requires Scenarios.IsListInput(src)
    ensures Tokens(Ascii(d), Cursor(src, 22, 17, 2, false)) == [Scenarios.B5] + ([Scenarios.B6] + ([Scenarios.B7] + ([Scenarios.B8] + [Scenarios.B9])))
  {
    ListScan5(d, src);
    ListFrom6(d, src);
    TokensCons(Ascii(d), Cursor(src, 22, 17, 2, false), Scenarios.B5, Cursor(src, 26, 22, 3, false), [Scenarios.B6] + ([Scenarios.B7] + ([Scenarios.B8] + [Scenarios.B9])));
  }

  lemma ListFrom4(d: seq<char> -> seq<char>, src: seq<char>)
    requires Scenarios.IsListInput(src)
    ensures Tokens(Ascii(d), Cursor(src, 17, 11, 3, false)) == [Scenarios.B4] + ([Scenarios.B5] + ([Scenarios.B6] + ([Scenarios.B7] + ([Scenarios.B8] + [Scenarios.B9]))))
  {
    ListScan4(d, src);
    ListFrom5(d, src);
    TokensCons(Ascii(d), Cursor(src, 17, 11, 3, false), Scenarios.B4, Cursor(src, 22, 17, 2, false), [Scenarios.B5] + ([Scenarios.B6] + ([Scenarios.B7] + ([Scenarios.B8] + [Scenarios.B9]))));
  }

  lemma ListFrom3(d: seq<char> -> seq<char>, src: seq<char>)
    requires Scenarios.IsListInput(src)
    ensures Tokens(Ascii(d), Cursor(src, 11, 7, 3, false)) == [Scenarios.B3] + ([Scenarios.B4] + ([Scenarios.B5] + ([Scenarios.B6] + ([Scenarios.B7] + ([Scenarios.B8] + [Scenarios.B9])))))
  {
    ListScan3(d, src);
    ListFrom4(d, src);
    TokensCons(Ascii(d), Cursor(src, 11, 7, 3, false), Scenarios.B3, Cursor(src, 17, 11, 3, false), [Scenarios.B4] + ([Scenarios.B5] + ([Scenarios.B6] + ([Scenarios.B7] + ([Scenarios.B8] + [Scenarios.B9])))));
  }

  lemma ListFrom2(d: seq<char> -> seq<char>, src: seq<char>)
    requires Scenarios.IsListInput(src)
    ensures Tokens(Ascii(d), Cursor(src, 7, 3, 2, false)) == [Scenarios.B2] + ([Scenarios.B3] + ([Scenarios.B4] + ([Scenarios.B5] + ([Scenarios.B6] + ([Scenarios.B7] + ([Scenarios.B8] + [Scenarios.B9]))))))
  {
    ListScan2(d, src);
    ListFrom3(d, src);
    TokensCons(Ascii(d), Cursor(src, 7, 3, 2, false), Scenarios.B2, Cursor(src, 11, 7, 3, false), [Scenarios.B3] + ([Scenarios.B4] + ([Scenarios.B5] + ([Scenarios.B6] + ([Scenarios.B7] + ([Scenarios.B8] + [Scenarios.B9]))))));
  }

  lemma ListFrom1(d: seq<char> -> seq<char>, src: seq<char>)
    requires Scenarios.IsListInput(src)
    ensures Tokens(Ascii(d), Cursor(src, 3, 0, 1, false)) == [Scenarios.B1] + ([Scenarios.B2] + ([Scenarios.B3] + ([Scenarios.B4] + ([Scenarios.B5] + ([Scenarios.B6] + ([Scenarios.B7] + ([Scenarios.B8] + [Scenarios.B9])))))))
  {
    ListScan1(d, src);
    ListFrom2(d, src);
    TokensCons(Ascii(d), Cursor(src, 3, 0, 1, false), Scenarios.B1, Cursor(src, 7, 3, 2, false), [Scenarios.B2] + ([Scenarios.B3] + ([Scenarios.B4] + ([Scenarios.B5] + ([Scenarios.B6] + ([Scenarios.B7] + ([Scenarios.B8] + [Scenarios.B9])))))));
  }

  lemma ListFrom0(d: seq<char> -> seq<char>, src: seq<char>)
    requires Scenarios.IsListInput(src)
    ensures Tokens(Ascii(d), Fresh(src)) == [Scenarios.B0] + ([Scenarios.B1] + ([Scenarios.B2] + ([Scenarios.B3] + ([Scenarios.B4] + ([Scenarios.B5] + ([Scenarios.B6] + ([Scenarios.B7] + ([Scenarios.B8] + [Scenarios.B9]))))))))
  {
    ListScan0(d, src);
    ListFrom1(d, src);
    TokensCons(Ascii(d), Fresh(src), Scenarios.B0, Cursor(src, 3, 0, 1, false), [Scenarios.B1] + ([Scenarios.B2] + ([Scenarios.B3] + ([Scenarios.B4] + ([Scenarios.B5] + ([Scenarios.B6] + ([Scenarios.B7] + ([Scenarios.B8] + [Scenarios.B9]))))))));
  }

  /** Any input laid out like "<p><ul><li>item 1</li><li>item 2</li></ul></p>" scans to the same tokens. */
  lemma ListScanOf(d: seq<char> -> seq<char>, src: seq<char>)
    requires Scenarios.IsListInput(src)
    ensures Tokens(Ascii(d), Fresh(src)) == ListTokens
  {
    ListFrom0(d, src);
    ListTokensOneByOne();
  }

  /** The tokens written out above, taken one at a time from the front. */
  lemma ListTokensOneByOne()
    ensures ListTokens == [Scenarios.B0] + ([Scenarios.B1] + ([Scenarios.B2] + ([Scenarios.B3] + ([Scenarios.B4] + ([Scenarios.B5] + ([Scenarios.B6] + ([Scenarios.B7] + ([Scenarios.B8] + [Scenarios.B9]))))))))
  {
  }

  /** This generation cuts the example input into the same tokens as the current one. */
  lemma ListScan(d: seq<char> -> seq<char>)
    ensures Tokens(Ascii(d), Fresh(Scenarios.List)) == ListTokens
  {
    Scenarios.ListLaidOut();
    ListScanOf(d, Scenarios.List);
  }

  /**
   A list item three levels deep is indented by one tab, and the end of an
   item, not the list, ends its line.
   */
  lemma ParagraphWithList(d: seq<char> -> seq<char>)
    ensures Tokens(Ascii(d), Fresh(Scenarios.List)) == ListTokens
    ensures Drive(AsWritten, Ascii(d), Scenarios.List, Initial, ListTokens) == Next(ListAfter9)
    ensures Textorize(AsWritten, Ascii(d), Scenarios.List) == Done("\n\n\t- item 1\n\t- item 2\n\n")
  {
    ListScan(d);
    ListDrive(d);
    TextorizeVia(AsWritten, Ascii(d), Scenarios.List, ListTokens, ListAfter9);
  }

  /** The driver's run over the tokens, one state per token. */
  lemma ListDrive(d: seq<char> -> seq<char>)
    ensures AllScanned(Scenarios.List, ListTokens)
    ensures Drive(AsWritten, Ascii(d), Scenarios.List, Initial, ListTokens) == Next(ListAfter9)
    ensures ListAfter9.out == "\n\n\t- item 1\n\t- item 2\n\n"
  {
    var rt := Ascii(d);
    ListTrace0(d);
    ListTrace1(d);
    ListTrace2(d);
    ListTrace3(d);
    ListTrace4(d);
    ListTrace5(d);
    ListTrace6(d);
    ListTrace7(d);
    ListTrace8(d);
    ListTrace9(d);
    TraceJoin(AsWritten, rt, Scenarios.List, ListStates, ListTokens, 0, 1, 2);
    TraceJoin(AsWritten, rt, Scenarios.List, ListStates, ListTokens, 0, 2, 3);
    TraceJoin(AsWritten, rt, Scenarios.List, ListStates, ListTokens, 0, 3, 4);
    TraceJoin(AsWritten, rt, Scenarios.List, ListStates, ListTokens, 0, 4, 5);
    TraceJoin(AsWritten, rt, Scenarios.List, ListStates, ListTokens, 0, 5, 6);
    TraceJoin(AsWritten, rt, Scenarios.List, ListStates, ListTokens, 0, 6, 7);
    TraceJoin(AsWritten, rt, Scenarios.List, ListStates, ListTokens, 0, 7, 8);
    TraceJoin(AsWritten, rt, Scenarios.List, ListStates, ListTokens, 0, 8, 9);
    TraceJoin(AsWritten, rt, Scenarios.List, ListStates, ListTokens, 0, 9, 10);
    DriveTrace(AsWritten, rt, Scenarios.List, ListStates, ListTokens, 0);
    assert ListTokens[0..] == ListTokens;
  }
}
