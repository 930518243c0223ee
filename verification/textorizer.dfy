/**
 The tag-balance driver (`HtmlTextorizer.Textorize` and `HandleCloseTag`): one
 pass over the scanner's tokens that keeps a stack of the open elements with the
 block depth at which each was opened, the pre and list nesting counters and the
 previous token, and hands every token to the writer.
 */
module Textorizer {
  import opened Runtime
  import opened Html
  import opened SourceScan
  import opened Scanner
  import opened Writer

  /** `TextorizeState` together with the open-element stack (top at the end). */
  datatype State = State(
    out: seq<char>,
    inElement: HtmlElementType,
    blockDepth: int,
    previous: Token,
    current: Token,
    preDepth: int,
    listDepth: int,
    stack: seq<TokenInfo>)

  /** The state before the first token: empty output, no element, default tokens. */
  const Initial: State := State([], None, 0, DefaultToken, DefaultToken, 0, 0, [])

  /** What the writer sees of the state. */
  function View(src: seq<char>, st: State): WriteState {
    WriteState(src, st.inElement, st.previous, st.current, st.preDepth, st.listDepth)
  }

  /** Every token the state refers to lies in the source. */
  ghost predicate Spans(src: seq<char>, st: State) {
    && SpanIn(st.current, src)
    && forall i :: 0 <= i < |st.stack| ==> SpanIn(st.stack[i].token, src)
  }

  /**
   The stack discipline: the depth counts the entries, the i-th entry from the
   bottom was opened at depth i + 1, every entry is an open tag of a real kind,
   and the current element is the top entry's kind (None on an empty stack).
   */
  ghost predicate Inv(st: State) {
    && st.blockDepth == |st.stack|
    && (forall i :: 0 <= i < |st.stack| ==> Entry(st.stack[i], i))
    && st.inElement == TopKind(st.stack)
  }

  ghost predicate Entry(e: TokenInfo, i: int) {
    && e.elementDepth == i + 1
    && e.token.tokenType == HtmlOpenTag
    && e.token.kind != None && e.token.kind != Invalid
  }

  function TopKind(stack: seq<TokenInfo>): HtmlElementType {
    if |stack| == 0 then None else stack[|stack| - 1].token.kind
  }

  predicate IsMatchingCloseTagFor(open: TokenInfo, close: Token, depth: int) {
    && open.token.kind == close.kind
    && open.token.kind != None
    && open.token.kind != Invalid
    && open.token.tokenType == HtmlOpenTag
    && depth == open.elementDepth
  }

  predicate IsOtherHtmlOpenElement(open: TokenInfo, close: Token) {
    && open.token.tokenType == HtmlOpenTag
    && open.token.kind != None
    && open.token.kind != Invalid
    && open.token.kind != close.kind
  }

  /** `SetInHtmlElementToParentOrNone`. */
  function SetInHtmlElementToParentOrNone(st: State): (r: State)
    ensures r == st.(inElement := TopKind(st.stack))
  {
    if |st.stack| > 0 then st.(inElement := st.stack[|st.stack| - 1].token.kind) else st.(inElement := None)
  }

  /** The result of a call that can fail to finish. */
  datatype Outcome = Next(st: State) | Diverges

  function Pop(st: State): State
    requires |st.stack| > 0
  {
    st.(stack := st.stack[..|st.stack| - 1])
  }

  function WriteClose(rt: Library, src: seq<char>, st: State, tok: Token): State
    requires SpanIn(tok, src)
  {
    st.(out := WriteCloseElement(rt, View(src, st), st.out, tok))
  }

  /**
   `HandleCloseTag`, one pass of its do-while loop.  When the stack is not empty
   and its top neither matches the close tag nor is another element at the
   current depth, the loop would test the same unchanged stack forever: that is
   `Diverges`.
   */
  function HandleCloseTag(rt: Library, src: seq<char>, st: State): (r: Outcome)
    requires Spans(src, st)
    ensures r.Next? ==> r.st.current == st.current && r.st.preDepth == st.preDepth && r.st.listDepth == st.listDepth
    ensures r.Next? ==> st.out <= r.st.out
    ensures |st.stack| == 0 ==> r == Next(WriteClose(rt, src, st, st.current))
  {
    if |st.stack| == 0 then
      Next(WriteClose(rt, src, st, st.current))
    else
      var top := st.stack[|st.stack| - 1];
      if IsMatchingCloseTagFor(top, st.current, st.blockDepth) then
        var written := WriteClose(rt, src, Pop(st), st.current);
        Next(SetInHtmlElementToParentOrNone(written.(blockDepth := written.blockDepth - 1)))
      else if IsOtherHtmlOpenElement(top, st.current) && top.elementDepth == st.blockDepth then
        var orphanWritten := WriteClose(rt, src, Pop(st), top.token);
        var parent := SetInHtmlElementToParentOrNone(orphanWritten.(blockDepth := orphanWritten.blockDepth - 1));
        Next(WriteClose(rt, src, parent, st.current))
      else
        Diverges
  }

  /** What a non-Invalid open tag does to the state before it is written. */
  function OpenElement(st: State, tok: Token): (r: State)
    ensures r.stack == st.stack + [TokenInfo(st.blockDepth + 1, tok)]
    ensures r.blockDepth == st.blockDepth + 1 && r.inElement == tok.kind
    ensures r.out == st.out && r.current == st.current && r.previous == st.previous
  {
    var pushed := st.(blockDepth := st.blockDepth + 1, inElement := tok.kind);
    var pushed := pushed.(stack := pushed.stack + [TokenInfo(pushed.blockDepth, tok)]);
    if tok.kind == Pre then pushed.(preDepth := pushed.preDepth + 1)
    else if tok.kind == Ul || tok.kind == Ol then pushed.(listDepth := pushed.listDepth + 1)
    else pushed
  }

  /** The counters after a close tag, whether or not it matched. */
  function AfterClose(st: State): State {
    if st.current.kind == Pre then st.(preDepth := st.preDepth - 1)
    else if st.current.kind == Ul || st.current.kind == Ol then st.(listDepth := st.listDepth - 1)
    else st
  }

  /** One iteration of the `Textorize` loop for a token other than Eof. */
  function Step(rt: Library, src: seq<char>, st: State, tok: Token): (r: Outcome)
    requires Spans(src, st) && SpanIn(tok, src) && tok.tokenType != Eof
    ensures r.Next? ==> r.st.previous == tok && r.st.current == tok && st.out <= r.st.out
  {
    var s1 := st.(current := tok);
    var r :=
      match tok.tokenType
      case Text | HtmlEntity =>
        Next(s1.(out := WriteText(rt, View(src, s1), s1.out, tok)))
      case HtmlOpenTag =>
        var s2 := if tok.kind != Invalid then OpenElement(s1, tok) else s1;
        Next(s2.(out := WriteOpenElement(rt, View(src, s2), s2.out, tok)))
      case HtmlCloseTag =>
        (match HandleCloseTag(rt, src, s1)
         case Next(s2) => Next(AfterClose(s2))
         case Diverges => Diverges)
      case HtmlSelfClosingTag =>
        Next(s1.(out := WriteOpenElement(rt, View(src, s1), s1.out, tok)))
      case Eof =>
        Next(s1);
    if r.Next? then Next(r.st.(previous := tok)) else Diverges
  }

  /** The outcome of the whole loop. */
  datatype Result = Done(text: seq<char>) | Hangs

  /** The `Textorize` loop: scan, step, until the scanner answers Eof. */
  function Run(rt: Library, c: Cursor, st: State): (r: Result)
    requires Axioms(rt) && Valid(c) && !c.isInTag && Spans(c.src, st)
    ensures r.Done? ==> st.out <= r.text
    decreases |c.src| - c.pos
  {
    var (tok, next) := ScanNextToken(rt, c);
    if tok.tokenType == Eof then Done(st.out)
    else
      match Step(rt, c.src, st, tok)
      case Diverges => Hangs
      case Next(st') =>
        assert Spans(c.src, st') by {
          StepSpans(rt, c.src, st, tok);
        }
        Run(rt, next, st')
  }

  /** `Textorize`: empty or whitespace-only input gives "" without scanning. */
  function Textorize(rt: Library, input: seq<char>): (r: Result)
    requires Axioms(rt)
    ensures IsNullOrWhiteSpace(rt, input) ==> r == Done([])
  {
    if IsNullOrWhiteSpace(rt, input) then Done([]) else Run(rt, Fresh(input), Initial)
  }

  /** The stack never holds a token from outside the source. */
  lemma {:induction false} StepSpans(rt: Library, src: seq<char>, st: State, tok: Token)
    requires Spans(src, st) && SpanIn(tok, src) && tok.tokenType != Eof
    requires Step(rt, src, st, tok).Next?
    ensures Spans(src, Step(rt, src, st, tok).st)
  {
  }

  // ---------------------------------------------------------------------------
  // The loop as a fold over the scanner's token stream

  /** What the scanner can hand to the loop body: a token in the source, not Eof, and a tag only with a kind. */
  ghost predicate Scanned(src: seq<char>, tok: Token) {
    && SpanIn(tok, src)
    && tok.tokenType != Eof
    && (IsTagType(tok.tokenType) ==> tok.kind != None)
  }

  ghost predicate AllScanned(src: seq<char>, toks: seq<Token>) {
    forall i :: 0 <= i < |toks| ==> Scanned(src, toks[i])
  }

  /** The tokens `ScanNextToken` answers from cursor `c` up to, not including, Eof. */
  function Tokens(rt: Library, c: Cursor): (r: seq<Token>)
    requires Axioms(rt) && Valid(c) && !c.isInTag
    ensures AllScanned(c.src, r)
    ensures |r| <= |c.src| - c.pos
    ensures |r| == 0 <==> IsAtEnd(c)
    decreases |c.src| - c.pos
  {
    var (tok, next) := ScanNextToken(rt, c);
    if tok.tokenType == Eof then [] else [tok] + Tokens(rt, next)
  }

  /** The loop body applied to each token in turn; the first divergence ends it. */
  function Drive(rt: Library, src: seq<char>, st: State, toks: seq<Token>): (r: Outcome)
    requires Spans(src, st) && AllScanned(src, toks)
    decreases |toks|
  {
    if |toks| == 0 then Next(st)
    else
      match Step(rt, src, st, toks[0])
      case Diverges => Diverges
      case Next(st') =>
        assert Spans(src, st') by {
          StepSpans(rt, src, st, toks[0]);
        }
        Drive(rt, src, st', toks[1..])
  }

  /** The scan loop is the fold of the loop body over the token stream. */
  lemma {:induction false} RunIsDrive(rt: Library, c: Cursor, st: State)
    requires Axioms(rt) && Valid(c) && !c.isInTag && Spans(c.src, st)
    ensures Run(rt, c, st) == match Drive(rt, c.src, st, Tokens(rt, c))
                               case Next(s) => Done(s.out)
                               case Diverges => Hangs
    decreases |c.src| - c.pos
  {
    var (tok, next) := ScanNextToken(rt, c);
    var toks := Tokens(rt, c);
    if tok.tokenType != Eof {
      assert toks[0] == tok && toks[1..] == Tokens(rt, next);
      match Step(rt, c.src, st, tok)
      case Diverges =>
      case Next(st') =>
        StepSpans(rt, c.src, st, tok);
        RunIsDrive(rt, next, st');
    }
  }

  // ---------------------------------------------------------------------------
  // The stack discipline

  lemma InitialInv()
    ensures Inv(Initial) && Spans([], Initial)
  {
  }

  /** Pushing an open tag of a real kind at the next depth keeps the discipline. */
  lemma {:induction false} OpenElementInv(st: State, tok: Token)
    requires Inv(st) && tok.tokenType == HtmlOpenTag && tok.kind != None && tok.kind != Invalid
    ensures Inv(OpenElement(st, tok))
  {
    var r := OpenElement(st, tok);
    forall i | 0 <= i < |r.stack|
      ensures Entry(r.stack[i], i)
    {
      if i < |st.stack| {
        assert r.stack[i] == st.stack[i];
      }
    }
  }

  /** Popping the top and taking the parent's kind keeps the discipline. */
  lemma {:induction false} PopInv(st: State)
    requires Inv(st) && |st.stack| > 0
    ensures var p := Pop(st);
            Inv(SetInHtmlElementToParentOrNone(p.(blockDepth := p.blockDepth - 1)))
  {
    var p := Pop(st);
    forall i | 0 <= i < |p.stack|
      ensures Entry(p.stack[i], i)
    {
      assert p.stack[i] == st.stack[i];
    }
  }

  /**
   Under the stack discipline a close tag always finishes: with an empty stack
   it is written on its own; otherwise the top element is popped, and it is
   either the element being closed (one close written, in its own context) or
   an orphan at the same depth (its close written first, then the close tag in
   the parent's context).
   */
  lemma {:induction false} HandleCloseTagBalanced(rt: Library, src: seq<char>, st: State)
    requires Spans(src, st) && Inv(st)
    ensures HandleCloseTag(rt, src, st).Next?
    ensures var s := HandleCloseTag(rt, src, st).st;
            && Inv(s) && s.previous == st.previous
            && s.stack == (if |st.stack| == 0 then [] else st.stack[..|st.stack| - 1])
    ensures var s := HandleCloseTag(rt, src, st).st;
            |st.stack| > 0 && TopKind(st.stack) == st.current.kind ==>
              s.out == WriteCloseElement(rt, View(src, st), st.out, st.current)
    ensures var s := HandleCloseTag(rt, src, st).st;
            |st.stack| > 0 && TopKind(st.stack) != st.current.kind ==>
              s.out == WriteCloseElement(rt, View(src, st).(inElement := TopKind(s.stack)),
                                         WriteCloseElement(rt, View(src, st), st.out, st.stack[|st.stack| - 1].token),
                                         st.current)
  {
    if |st.stack| > 0 {
      var top := st.stack[|st.stack| - 1];
      assert Entry(top, |st.stack| - 1);
      PopInv(st);
    }
  }

  /** One loop step under the discipline never diverges and keeps the discipline. */
  lemma {:induction false} StepBalanced(rt: Library, src: seq<char>, st: State, tok: Token)
    requires Spans(src, st) && Inv(st) && Scanned(src, tok)
    ensures Step(rt, src, st, tok).Next? && Inv(Step(rt, src, st, tok).st)
  {
    var s1 := st.(current := tok);
    match tok.tokenType
    case HtmlOpenTag =>
      if tok.kind != Invalid {
        OpenElementInv(s1, tok);
      }
    case HtmlCloseTag =>
      HandleCloseTagBalanced(rt, src, s1);
    case _ =>
  }

  /** Over any scanned token stream the loop finishes, and keeps the discipline. */
  lemma {:induction false} DriveBalanced(rt: Library, src: seq<char>, st: State, toks: seq<Token>)
    requires Spans(src, st) && Inv(st) && AllScanned(src, toks)
    ensures Drive(rt, src, st, toks).Next? && Inv(Drive(rt, src, st, toks).st)
    decreases |toks|
  {
    if |toks| > 0 {
      StepBalanced(rt, src, st, toks[0]);
      var st' := Step(rt, src, st, toks[0]).st;
      StepSpans(rt, src, st, toks[0]);
      assert AllScanned(src, toks[1..]) by {
        forall i | 0 <= i < |toks| - 1
          ensures Scanned(src, toks[1..][i])
        {
          assert toks[1..][i] == toks[i + 1];
        }
      }
      DriveBalanced(rt, src, st', toks[1..]);
    }
  }

  /** `Textorize` returns for every input: `HandleCloseTag`'s do-while never re-tests an unchanged stack. */
  lemma {:induction false} TextorizeTerminates(rt: Library, input: seq<char>)
    requires Axioms(rt)
    ensures Textorize(rt, input).Done?
  {
    if !IsNullOrWhiteSpace(rt, input) {
      var c := Fresh(input);
      InitialInv();
      RunIsDrive(rt, c, Initial);
      DriveBalanced(rt, input, Initial, Tokens(rt, c));
    }
  }

  // ---------------------------------------------------------------------------
  // The nesting counters

  /** +1 for an open tag of one of the kinds, -1 for a close tag of one of them. */
  function Delta(tok: Token, kinds: set<HtmlElementType>): int {
    if tok.kind !in kinds then 0
    else if tok.tokenType == HtmlOpenTag then 1
    else if tok.tokenType == HtmlCloseTag then -1
    else 0
  }

  /** Open tags minus close tags of the kinds in a token stream. */
  function Balance(toks: seq<Token>, kinds: set<HtmlElementType>): int
    decreases |toks|
  {
    if |toks| == 0 then 0 else Delta(toks[0], kinds) + Balance(toks[1..], kinds)
  }

  /** One step moves the pre counter by the pre balance of the token and the list counter by the Ul/Ol balance. */
  lemma {:induction false} StepCounters(rt: Library, src: seq<char>, st: State, tok: Token)
    requires Spans(src, st) && Scanned(src, tok) && Step(rt, src, st, tok).Next?
    ensures Step(rt, src, st, tok).st.preDepth == st.preDepth + Delta(tok, {Pre})
    ensures Step(rt, src, st, tok).st.listDepth == st.listDepth + Delta(tok, {Ul, Ol})
  {
  }

  /**
   After the loop, `PreDepth` is the number of pre open tags minus pre close
   tags seen, and `ListDepth` the same for Ul and Ol, whether or not the
   closes matched anything; and the output only ever grew.
   */
  lemma {:induction false} DriveCounters(rt: Library, src: seq<char>, st: State, toks: seq<Token>)
    requires Spans(src, st) && AllScanned(src, toks) && Drive(rt, src, st, toks).Next?
    ensures Drive(rt, src, st, toks).st.preDepth == st.preDepth + Balance(toks, {Pre})
    ensures Drive(rt, src, st, toks).st.listDepth == st.listDepth + Balance(toks, {Ul, Ol})
    ensures st.out <= Drive(rt, src, st, toks).st.out
    decreases |toks|
  {
    if |toks| > 0 {
      StepCounters(rt, src, st, toks[0]);
      var st' := Step(rt, src, st, toks[0]).st;
      StepSpans(rt, src, st, toks[0]);
      assert AllScanned(src, toks[1..]) by {
        forall i | 0 <= i < |toks| - 1
          ensures Scanned(src, toks[1..][i])
        {
          assert toks[1..][i] == toks[i + 1];
        }
      }
      DriveCounters(rt, src, st', toks[1..]);
    }
  }

  // ---------------------------------------------------------------------------
  // What each kind of token does to the state

  /**
   A non-Invalid open tag raises the depth, becomes the current element and is
   pushed at the new depth; the open writer sees the state after the push,
   with the pre or list counter already raised.
   */
  lemma {:induction false} StepOpen(rt: Library, src: seq<char>, st: State, tok: Token)
    requires Spans(src, st) && SpanIn(tok, src) && tok.tokenType == HtmlOpenTag && tok.kind != Invalid
    ensures var r := Step(rt, src, st, tok);
            && r.Next?
            && r.st.stack == st.stack + [TokenInfo(st.blockDepth + 1, tok)]
            && r.st.blockDepth == st.blockDepth + 1 && r.st.inElement == tok.kind
            && r.st.preDepth == st.preDepth + Delta(tok, {Pre})
            && r.st.listDepth == st.listDepth + Delta(tok, {Ul, Ol})
            && r.st.out == WriteOpenElement(rt, View(src, r.st).(previous := st.previous), st.out, tok)
  {
  }

  /**
   Text, entities, self-closing tags and Invalid open tags leave the stack,
   the depth, the current element and both counters alone, and only append.
   */
  lemma {:induction false} StepInert(rt: Library, src: seq<char>, st: State, tok: Token)
    requires Spans(src, st) && SpanIn(tok, src) && tok.tokenType != Eof && tok.tokenType != HtmlCloseTag
    requires tok.tokenType == HtmlOpenTag ==> tok.kind == Invalid
    ensures var r := Step(rt, src, st, tok);
            && r.Next?
            && r.st.stack == st.stack && r.st.blockDepth == st.blockDepth && r.st.inElement == st.inElement
            && r.st.preDepth == st.preDepth && r.st.listDepth == st.listDepth
            && st.out <= r.st.out
  {
  }

  /**
   A close tag is handled with the counters as they were, and only afterwards
   are the pre and list counters lowered by its kind.
   */
  lemma {:induction false} StepClose(rt: Library, src: seq<char>, st: State, tok: Token)
    requires Spans(src, st) && SpanIn(tok, src) && tok.tokenType == HtmlCloseTag
    ensures var h := HandleCloseTag(rt, src, st.(current := tok));
            var r := Step(rt, src, st, tok);
            && (r.Next? <==> h.Next?)
            && (r.Next? ==> && r.st.out == h.st.out && r.st.stack == h.st.stack
                            && r.st.preDepth == st.preDepth + Delta(tok, {Pre})
                            && r.st.listDepth == st.listDepth + Delta(tok, {Ul, Ol}))
  {
    var h := HandleCloseTag(rt, src, st.(current := tok));
    if h.Next? {
      assert Step(rt, src, st, tok) == Next(AfterClose(h.st).(previous := tok));
    } else {
      assert Step(rt, src, st, tok) == Diverges;
    }
  }

  /** The loop body, once it has a next state, is that state followed by the rest of the tokens. */
  lemma DriveStep(rt: Library, src: seq<char>, st: State, toks: seq<Token>, st': State)
    requires Spans(src, st) && AllScanned(src, toks) && |toks| > 0 && Step(rt, src, st, toks[0]) == Next(st')
    ensures Spans(src, st') && AllScanned(src, toks[1..])
    ensures Drive(rt, src, st, toks) == Drive(rt, src, st', toks[1..])
  {
    StepSpans(rt, src, st, toks[0]);
    assert forall i :: 0 <= i < |toks| - 1 ==> toks[1..][i] == toks[i + 1];
  }
}
