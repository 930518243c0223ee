/**
 The tag-balance driver of the first generation (`DCrafting.Textorize`'s
 `HtmlTextorizer`).  It has the same shape as the current driver, without the
 pre and list counters and the current token, but it runs over the first
 generation's scanner, whose entity test can hand it an open tag of kind None.
 The driver pushes such a tag like any other, and a close tag then finds a top
 entry that neither matches nor counts as another element: `HandleCloseTag`'s
 do-while loop tests the same stack again and again.  `Variant` selects the
 driver as written or the corrected one, which, like the close-tag tests
 themselves, leaves None-kind open tags off the stack.
 */
module LegacyTextorizer {
  import opened Runtime
  import opened Html
  import opened SourceScan
  import LegacyScanner
  import LegacyWriter
  import Textorizer

  /** The driver's locals: output, current element, block depth, previous token and the open-element stack (top at the end). */
  datatype State = State(
    out: seq<char>,
    inElement: HtmlElementType,
    blockDepth: int,
    previous: Token,
    stack: seq<TokenInfo>)

  const Initial: State := State([], None, 0, DefaultToken, [])

  /** The driver as written, or corrected so that an open tag of kind None is not pushed. */
  datatype Variant = AsWritten | Corrected

  /** Whether the driver pushes an open tag of this kind. */
  predicate Pushes(v: Variant, kind: HtmlElementType) {
    kind != Invalid && (v == AsWritten || kind != None)
  }

  /** Every stacked token lies in the source and has a first-generation kind. */
  ghost predicate Spans(src: seq<char>, st: State) {
    forall i :: 0 <= i < |st.stack| ==> SpanIn(st.stack[i].token, src) && st.stack[i].token.kind != Pre
  }

  /** The result of a call that can fail to finish. */
  datatype Outcome = Next(st: State) | Diverges

  function Pop(st: State): State
    requires |st.stack| > 0
  {
    st.(stack := st.stack[..|st.stack| - 1])
  }

  /** After a pop: one level up, and the parent's kind (None on an empty stack) becomes the current element. */
  function Ascend(st: State): (r: State)
    ensures r == st.(blockDepth := st.blockDepth - 1, inElement := Textorizer.TopKind(st.stack))
  {
    var up := st.(blockDepth := st.blockDepth - 1);
    if |up.stack| > 0 then up.(inElement := up.stack[|up.stack| - 1].token.kind) else up.(inElement := None)
  }

  function WriteClose(rt: Library, src: seq<char>, st: State, tok: Token): State
    requires SpanIn(tok, src) && tok.kind != Pre
  {
    st.(out := LegacyWriter.WriteCloseElement(rt, src, st.out, tok, st.blockDepth, st.inElement, st.previous))
  }

  /**
   `HandleCloseTag`, one pass of its do-while loop.  When the stack is not
   empty and its top neither matches the close tag nor is another element at
   the current depth, the loop tests the same unchanged stack forever: that is
   `Diverges`.
   */
  function HandleCloseTag(rt: Library, src: seq<char>, st: State, tok: Token): (r: Outcome)
    requires Spans(src, st) && SpanIn(tok, src) && tok.kind != Pre
    ensures r.Next? ==> st.out <= r.st.out && r.st.previous == st.previous
    ensures |st.stack| == 0 ==> r == Next(WriteClose(rt, src, st, tok))
    ensures |st.stack| > 0 && Textorizer.TopKind(st.stack) == None ==> r == Diverges
  {
    if |st.stack| == 0 then
      Next(WriteClose(rt, src, st, tok))
    else
      var top := st.stack[|st.stack| - 1];
      if Textorizer.IsMatchingCloseTagFor(top, tok, st.blockDepth) then
        Next(Ascend(WriteClose(rt, src, Pop(st), tok)))
      else if Textorizer.IsOtherHtmlOpenElement(top, tok) && top.elementDepth == st.blockDepth then
        var parent := Ascend(WriteClose(rt, src, Pop(st), top.token));
        Next(WriteClose(rt, src, parent, tok))
      else
        Diverges
  }

  /** What an open tag the driver pushes does to the state before it is written. */
  function OpenElement(st: State, tok: Token): (r: State)
    ensures r.stack == st.stack + [TokenInfo(st.blockDepth + 1, tok)]
    ensures r.blockDepth == st.blockDepth + 1 && r.inElement == tok.kind
    ensures r.out == st.out && r.previous == st.previous
  {
    var deeper := st.(blockDepth := st.blockDepth + 1, inElement := tok.kind);
    deeper.(stack := deeper.stack + [TokenInfo(deeper.blockDepth, tok)])
  }

  /** What the first-generation scanner hands the loop: a token in the source, not Eof, of a first-generation kind. */
  ghost predicate Scanned(src: seq<char>, tok: Token) {
    && SpanIn(tok, src)
    && tok.tokenType != Eof
    && tok.kind != Pre
    && (IsTagType(tok.tokenType) && tok.kind == None ==> tok.start < |src| && src[tok.start] == '&')
  }

  ghost predicate AllScanned(src: seq<char>, toks: seq<Token>) {
    forall i :: 0 <= i < |toks| ==> Scanned(src, toks[i])
  }

  /** One iteration of the `Textorize` loop for a token other than Eof. */
  function Step(v: Variant, rt: Library, src: seq<char>, st: State, tok: Token): (r: Outcome)
    requires Spans(src, st) && Scanned(src, tok)
    ensures r.Next? ==> r.st.previous == tok && st.out <= r.st.out
  {
    var r :=
      match tok.tokenType
      case Text | HtmlEntity =>
        Next(st.(out := LegacyWriter.WriteText(rt, src, st.out, tok, st.inElement, st.previous)))
      case HtmlOpenTag =>
        var s := if Pushes(v, tok.kind) then OpenElement(st, tok) else st;
        Next(s.(out := LegacyWriter.WriteOpenElement(rt, src, s.out, tok, s.blockDepth, s.inElement, s.previous)))
      case HtmlCloseTag =>
        HandleCloseTag(rt, src, st, tok)
      case HtmlSelfClosingTag =>
        Next(st.(out := LegacyWriter.WriteOpenElement(rt, src, st.out, tok, st.blockDepth, st.inElement, st.previous)))
      case Eof =>
        Next(st);
    if r.Next? then Next(r.st.(previous := tok)) else Diverges
  }

  /** The stack never holds a token from outside the source. */
  lemma {:induction false} StepSpans(v: Variant, rt: Library, src: seq<char>, st: State, tok: Token)
    requires Spans(src, st) && Scanned(src, tok)
    requires Step(v, rt, src, st, tok).Next?
    ensures Spans(src, Step(v, rt, src, st, tok).st)
  {
  }

  /** The outcome of the whole loop. */
  datatype Result = Done(text: seq<char>) | Hangs

  /** The tokens `ScanNextToken` answers from cursor `c` up to, not including, Eof. */
  function Tokens(rt: Library, c: Cursor): (r: seq<Token>)
    requires Axioms(rt) && Valid(c) && !c.isInTag
    ensures AllScanned(c.src, r)
    ensures |r| <= |c.src| - c.pos
    ensures |r| == 0 <==> IsAtEnd(c)
    decreases |c.src| - c.pos
  {
    var (tok, next) := LegacyScanner.ScanNextToken(rt, c);
    if tok.tokenType == Eof then [] else [tok] + Tokens(rt, next)
  }

  /** The `Textorize` loop: scan, step, until the scanner answers Eof. */
  function Run(v: Variant, rt: Library, c: Cursor, st: State): (r: Result)
    requires Axioms(rt) && Valid(c) && !c.isInTag && Spans(c.src, st)
    ensures r.Done? ==> st.out <= r.text
    decreases |c.src| - c.pos
  {
    var (tok, next) := LegacyScanner.ScanNextToken(rt, c);
    if tok.tokenType == Eof then Done(st.out)
    else
      match Step(v, rt, c.src, st, tok)
      case Diverges => Hangs
      case Next(st') =>
        assert Spans(c.src, st') by {
          StepSpans(v, rt, c.src, st, tok);
        }
        Run(v, rt, next, st')
  }

  /** `Textorize`: empty or whitespace-only input gives "" without scanning. */
  function Textorize(v: Variant, rt: Library, input: seq<char>): (r: Result)
    requires Axioms(rt)
    ensures IsNullOrWhiteSpace(rt, input) ==> r == Done([])
  {
    if IsNullOrWhiteSpace(rt, input) then Done([]) else Run(v, rt, Fresh(input), Initial)
  }

  /** The loop body applied to each token in turn; the first divergence ends it. */
  function Drive(v: Variant, rt: Library, src: seq<char>, st: State, toks: seq<Token>): (r: Outcome)
    requires Spans(src, st) && AllScanned(src, toks)
    decreases |toks|
  {
    if |toks| == 0 then Next(st)
    else
      match Step(v, rt, src, st, toks[0])
      case Diverges => Diverges
      case Next(st') =>
        assert Spans(src, st') by {
          StepSpans(v, rt, src, st, toks[0]);
        }
        Drive(v, rt, src, st', toks[1..])
  }

  /** The scan loop is the fold of the loop body over the token stream. */
  lemma {:induction false} RunIsDrive(v: Variant, rt: Library, c: Cursor, st: State)
    requires Axioms(rt) && Valid(c) && !c.isInTag && Spans(c.src, st)
    ensures Run(v, rt, c, st) == match Drive(v, rt, c.src, st, Tokens(rt, c))
                                  case Next(s) => Done(s.out)
                                  case Diverges => Hangs
    decreases |c.src| - c.pos
  {
    var (tok, next) := LegacyScanner.ScanNextToken(rt, c);
    var toks := Tokens(rt, c);
    if tok.tokenType != Eof {
      assert toks[0] == tok && toks[1..] == Tokens(rt, next);
      match Step(v, rt, c.src, st, tok)
      case Diverges =>
      case Next(st') =>
        StepSpans(v, rt, c.src, st, tok);
        RunIsDrive(v, rt, next, st');
    }
  }

  /** The loop body, once it has a next state, is that state followed by the rest of the tokens. */
  lemma DriveStep(v: Variant, rt: Library, src: seq<char>, st: State, toks: seq<Token>, st': State)
    requires Spans(src, st) && AllScanned(src, toks) && |toks| > 0 && Step(v, rt, src, st, toks[0]) == Next(st')
    ensures Spans(src, st') && AllScanned(src, toks[1..])
    ensures Drive(v, rt, src, st, toks) == Drive(v, rt, src, st', toks[1..])
  {
    StepSpans(v, rt, src, st, toks[0]);
    assert forall i :: 0 <= i < |toks| - 1 ==> toks[1..][i] == toks[i + 1];
  }

  // ---------------------------------------------------------------------------
  // What each kind of token does to the state

  /**
   An open tag the driver pushes raises the depth, becomes the current element
   and is pushed at the new depth, and the open writer sees the new depth and
   element; any other open tag is written in the unchanged state.
   */
  lemma {:induction false} StepOpen(v: Variant, rt: Library, src: seq<char>, st: State, tok: Token)
    requires Spans(src, st) && Scanned(src, tok) && tok.tokenType == HtmlOpenTag
    ensures var r := Step(v, rt, src, st, tok);
            && r.Next?
            && (Pushes(v, tok.kind) ==>
                  && r.st.stack == st.stack + [TokenInfo(st.blockDepth + 1, tok)]
                  && r.st.blockDepth == st.blockDepth + 1 && r.st.inElement == tok.kind
                  && r.st.out == LegacyWriter.WriteOpenElement(rt, src, st.out, tok, st.blockDepth + 1, tok.kind, st.previous))
            && (!Pushes(v, tok.kind) ==>
                  && r.st.stack == st.stack && r.st.blockDepth == st.blockDepth && r.st.inElement == st.inElement
                  && r.st.out == LegacyWriter.WriteOpenElement(rt, src, st.out, tok, st.blockDepth, st.inElement, st.previous))
  {
  }

  /** Text, entities and self-closing tags leave the stack, the depth and the current element alone. */
  lemma {:induction false} StepInert(v: Variant, rt: Library, src: seq<char>, st: State, tok: Token)
    requires Spans(src, st) && Scanned(src, tok) && tok.tokenType in {Text, HtmlEntity, HtmlSelfClosingTag}
    ensures var r := Step(v, rt, src, st, tok);
            && r.Next?
            && r.st.stack == st.stack && r.st.blockDepth == st.blockDepth && r.st.inElement == st.inElement
            && (tok.tokenType != HtmlSelfClosingTag ==>
                  r.st.out == LegacyWriter.WriteText(rt, src, st.out, tok, st.inElement, st.previous))
  {
  }

  // ---------------------------------------------------------------------------
  // The stack discipline: the corrected driver always finishes

  /**
   The depth counts the entries, the i-th entry from the bottom was opened at
   depth i + 1, every entry is an open tag of a real kind, and the current
   element is the top entry's kind (None on an empty stack).
   */
  ghost predicate Inv(st: State) {
    && st.blockDepth == |st.stack|
    && (forall i :: 0 <= i < |st.stack| ==> Entry(st.stack[i], i))
    && st.inElement == Textorizer.TopKind(st.stack)
  }

  ghost predicate Entry(e: TokenInfo, i: int) {
    && e.elementDepth == i + 1
    && e.token.tokenType == HtmlOpenTag
    && e.token.kind != None && e.token.kind != Invalid
  }

  lemma InitialInv()
    ensures Inv(Initial) && Spans([], Initial)
  {
  }

  /** Pushing an open tag of a real kind at the next depth keeps the discipline. */
  lemma {:induction false} OpenElementInv(st: State, tok: Token)
    requires Inv(st) && tok.tokenType == HtmlOpenTag && tok.kind != None && tok.kind != Invalid
    ensures Inv(OpenElement(st, tok))
  {
    var r := OpenElement(st, tok);
    forall i | 0 <= i < |r.stack|
      ensures Entry(r.stack[i], i)
    {
      if i < |st.stack| {
        assert r.stack[i] == st.stack[i];
      }
    }
  }

  /** Popping the top and taking the parent's kind keeps the discipline. */
  lemma {:induction false} PopInv(st: State)
    requires Inv(st) && |st.stack| > 0
    ensures Inv(Ascend(Pop(st)))
  {
    var p := Pop(st);
    forall i | 0 <= i < |p.stack|
      ensures Entry(p.stack[i], i)
    {
      assert p.stack[i] == st.stack[i];
    }
  }

  /**
   Under the stack discipline a close tag always finishes: with an empty stack
   it is written on its own; otherwise the top element is popped, and it is
   either the element being closed (the close tag written at the old depth and
   element) or an orphan at the same depth (the orphan's own open tag written
   as a close first, then the close tag one level up, in the parent element).
   */
  lemma {:induction false} HandleCloseTagBalanced(rt: Library, src: seq<char>, st: State, tok: Token)
    requires Spans(src, st) && Inv(st) && SpanIn(tok, src) && tok.kind != Pre
    ensures HandleCloseTag(rt, src, st, tok).Next?
    ensures var s := HandleCloseTag(rt, src, st, tok).st;
            && Inv(s) && s.previous == st.previous
            && s.stack == (if |st.stack| == 0 then [] else st.stack[..|st.stack| - 1])
    ensures var s := HandleCloseTag(rt, src, st, tok).st;
            |st.stack| > 0 && Textorizer.TopKind(st.stack) == tok.kind ==>
              s.out == LegacyWriter.WriteCloseElement(rt, src, st.out, tok, st.blockDepth, st.inElement, st.previous)
    ensures var s := HandleCloseTag(rt, src, st, tok).st;
            |st.stack| > 0 && Textorizer.TopKind(st.stack) != tok.kind ==>
              s.out == LegacyWriter.WriteCloseElement(
                         rt, src,
                         LegacyWriter.WriteCloseElement(rt, src, st.out, st.stack[|st.stack| - 1].token, st.blockDepth, st.inElement, st.previous),
                         tok, st.blockDepth - 1, Textorizer.TopKind(s.stack), st.previous)
  {
    if |st.stack| > 0 {
      var top := st.stack[|st.stack| - 1];
      assert Entry(top, |st.stack| - 1);
      PopInv(st);
      assert Spans(src, Pop(st)) by {
        assert forall i :: 0 <= i < |st.stack| - 1 ==> Pop(st).stack[i] == st.stack[i];
      }
    }
  }

  /** One step of the corrected driver under the discipline never diverges and keeps the discipline. */
  lemma {:induction false} StepBalanced(rt: Library, src: seq<char>, st: State, tok: Token)
    requires Spans(src, st) && Inv(st) && Scanned(src, tok)
    ensures Step(Corrected, rt, src, st, tok).Next? && Inv(Step(Corrected, rt, src, st, tok).st)
  {
    match tok.tokenType
    case HtmlOpenTag =>
      if Pushes(Corrected, tok.kind) {
        OpenElementInv(st, tok);
      }
    case HtmlCloseTag =>
      HandleCloseTagBalanced(rt, src, st, tok);
    case _ =>
  }

  /** Over any scanned token stream the corrected loop finishes, and keeps the discipline. */
  lemma {:induction false} DriveBalanced(rt: Library, src: seq<char>, st: State, toks: seq<Token>)
    requires Spans(src, st) && Inv(st) && AllScanned(src, toks)
    ensures Drive(Corrected, rt, src, st, toks).Next? && Inv(Drive(Corrected, rt, src, st, toks).st)
    decreases |toks|
  {
    if |toks| > 0 {
      StepBalanced(rt, src, st, toks[0]);
      var st' := Step(Corrected, rt, src, st, toks[0]).st;
      DriveStep(Corrected, rt, src, st, toks, st');
      DriveBalanced(rt, src, st', toks[1..]);
    }
  }

  /** The corrected `Textorize` returns for every input. */
  lemma {:induction false} CorrectedTerminates(rt: Library, input: seq<char>)
    requires Axioms(rt)
    ensures Textorize(Corrected, rt, input).Done?
  {
    if !IsNullOrWhiteSpace(rt, input) {
      var c := Fresh(input);
      InitialInv();
      RunIsDrive(Corrected, rt, c, Initial);
      DriveBalanced(rt, input, Initial, Tokens(rt, c));
    }
  }

  // ---------------------------------------------------------------------------
  // The driver as written

  /** An open tag of kind None, as the driver pushes it. */
  predicate NoneOpen(tok: Token) {
    tok.tokenType == HtmlOpenTag && tok.kind == None
  }

  /**
   The driver as written pushes an open tag of kind None, and the next close
   tag, whatever its kind, then hangs: the top entry neither matches it nor
   counts as another element.  The corrected driver handles the same two
   tokens.
   */
  lemma {:induction false} NoneOpenThenCloseHangs(rt: Library, src: seq<char>, st: State, open: Token, close: Token)
    requires Spans(src, st) && Scanned(src, open) && Scanned(src, close)
    requires NoneOpen(open) && close.tokenType == HtmlCloseTag
    ensures Step(AsWritten, rt, src, st, open).Next?
    ensures var s := Step(AsWritten, rt, src, st, open).st;
            && Textorizer.TopKind(s.stack) == None && |s.stack| > 0
            && Step(AsWritten, rt, src, s, close) == Diverges
  {
    var s := Step(AsWritten, rt, src, st, open).st;
    StepOpen(AsWritten, rt, src, st, open);
    assert s.stack[|s.stack| - 1] == TokenInfo(st.blockDepth + 1, open);
  }

  /** On a token that is not a None-kind open tag the two drivers take the same step. */
  lemma {:induction false} StepAgrees(rt: Library, src: seq<char>, st: State, tok: Token)
    requires Spans(src, st) && Scanned(src, tok) && !NoneOpen(tok)
    ensures Step(AsWritten, rt, src, st, tok) == Step(Corrected, rt, src, st, tok)
  {
    if tok.tokenType == HtmlOpenTag {
      assert Pushes(AsWritten, tok.kind) == Pushes(Corrected, tok.kind);
    }
  }

  /** Over a token stream with no None-kind open tag the two drivers agree. */
  lemma {:induction false} DriveAgrees(rt: Library, src: seq<char>, st: State, toks: seq<Token>)
    requires Spans(src, st) && AllScanned(src, toks)
    requires forall i :: 0 <= i < |toks| ==> !NoneOpen(toks[i])
    ensures Drive(AsWritten, rt, src, st, toks) == Drive(Corrected, rt, src, st, toks)
    decreases |toks|
  {
    if |toks| > 0 {
      StepAgrees(rt, src, st, toks[0]);
      match Step(Corrected, rt, src, st, toks[0])
      case Diverges =>
      case Next(st') =>
        DriveStep(AsWritten, rt, src, st, toks, st');
        DriveStep(Corrected, rt, src, st, toks, st');
        DriveAgrees(rt, src, st', toks[1..]);
    }
  }

  /**
   Only an entity test that runs into a tag yields a None-kind open tag, so on
   input without '&' the driver as written is the corrected one, and finishes.
   */
  lemma {:induction false} WithoutAmpersandAgrees(rt: Library, input: seq<char>)
    requires Axioms(rt) && forall i :: 0 <= i < |input| ==> input[i] != '&'
    ensures Textorize(AsWritten, rt, input) == Textorize(Corrected, rt, input)
    ensures Textorize(AsWritten, rt, input).Done?
  {
    CorrectedTerminates(rt, input);
    if !IsNullOrWhiteSpace(rt, input) {
      var c := Fresh(input);
      var toks := Tokens(rt, c);
      RunIsDrive(AsWritten, rt, c, Initial);
      RunIsDrive(Corrected, rt, c, Initial);
      NoNoneOpen(input, toks);
      DriveAgrees(rt, input, Initial, toks);
    }
  }

  lemma NoNoneOpen(src: seq<char>, toks: seq<Token>)
    requires AllScanned(src, toks) && forall i :: 0 <= i < |src| ==> src[i] != '&'
    ensures forall i :: 0 <= i < |toks| ==> !NoneOpen(toks[i])
  {
    forall i | 0 <= i < |toks|
      ensures !NoneOpen(toks[i])
    {
      assert Scanned(src, toks[i]);
    }
  }
}
