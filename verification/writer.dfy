/**
 The plain-text writer (`HtmlToPlainTextWriter`, and its twin `PlainTextWriter`,
 whose open, close and text rules are the same case for case).  Each call reads
 the driver's state and appends to the output; nothing it writes is ever taken
 back.  The one algorithm in it is the whitespace reducer, which turns every
 maximal run of whitespace into a single space.
 */
module Writer {
  import opened Runtime
  import opened Html

  /** The part of `TextorizeState` the writer reads, with the source the tokens index. */
  datatype WriteState = WriteState(
    src: seq<char>,
    inElement: HtmlElementType,
    previous: Token,
    current: Token,
    preDepth: int,
    listDepth: int)

  predicate IsInPreformattedText(st: WriteState) {
    st.preDepth > 0
  }

  /** The previous token was an element of a known or other kind. */
  predicate IsAfterHtmlElement(st: WriteState) {
    st.previous.kind != None && st.previous.kind != Invalid
  }

  /** A text run that directly follows an `<li>` open tag. */
  predicate IsFirstTextContentInLi(st: WriteState, tok: Token) {
    st.previous.kind == Li && st.previous.tokenType == HtmlOpenTag && tok.tokenType == Text
  }

  /** Text directly after a `<pre>` open tag. */
  predicate IsAfterPreOpen(st: WriteState) {
    st.previous.kind == Pre && st.previous.tokenType == HtmlOpenTag
  }

  predicate EndsOnNewLine(out: seq<char>) {
    |out| > 0 && out[|out| - 1] == '\n'
  }

  predicate EndsOnWhiteSpace(rt: Library, out: seq<char>) {
    |out| > 0 && rt.isWhiteSpace(out[|out| - 1])
  }

  lemma {:induction false} EmptyOutputEndsOnNothing(rt: Library)
    ensures !EndsOnNewLine([]) && !EndsOnWhiteSpace(rt, [])
  {
  }

  // ---------------------------------------------------------------------------
  // Whitespace reduction

  /** `ReduceHtmlWhiteSpaces`: each maximal whitespace run becomes one ' ', everything else is copied. */
  function ReduceHtmlWhiteSpaces(rt: Library, s: seq<char>): (r: seq<char>)
    ensures |r| <= |s|
    ensures |r| == 0 <==> |s| == 0
    decreases |s|
  {
    if |s| == 0 then []
    else if rt.isWhiteSpace(s[0]) then [' '] + ReduceHtmlWhiteSpaces(rt, TrimStart(rt, s[1..]))
    else [s[0]] + ReduceHtmlWhiteSpaces(rt, s[1..])
  }

  /** The non-whitespace characters of `s`, in order. */
  function Visible(rt: Library, s: seq<char>): seq<char>
    decreases |s|
  {
    if |s| == 0 then []
    else (if rt.isWhiteSpace(s[0]) then [] else [s[0]]) + Visible(rt, s[1..])
  }

  /** Text in reduced form: its only whitespace is single spaces. */
  ghost predicate Reduced(rt: Library, t: seq<char>) {
    && (forall k :: 0 <= k < |t| && rt.isWhiteSpace(t[k]) ==> t[k] == ' ')
    && (forall k :: 0 < k < |t| && rt.isWhiteSpace(t[k]) ==> !rt.isWhiteSpace(t[k - 1]))
  }

  predicate AllWhiteSpace(rt: Library, s: seq<char>) {
    forall k :: 0 <= k < |s| ==> rt.isWhiteSpace(s[k])
  }

  predicate NoWhiteSpace(rt: Library, s: seq<char>) {
    forall k :: 0 <= k < |s| ==> !rt.isWhiteSpace(s[k])
  }

  lemma {:induction false} VisibleConcat(rt: Library, a: seq<char>, b: seq<char>)
    ensures Visible(rt, a + b) == Visible(rt, a) + Visible(rt, b)
    decreases |a|
  {
    if |a| == 0 {
      assert a + b == b;
    } else {
      var head := if rt.isWhiteSpace(a[0]) then [] else [a[0]];
      TailOfConcat(a, b);
      VisibleConcat(rt, a[1..], b);
      ConcatAssoc(head, Visible(rt, a[1..]), Visible(rt, b));
    }
  }

  lemma {:induction false} VisibleOfWhiteSpace(rt: Library, s: seq<char>)
    requires AllWhiteSpace(rt, s)
    ensures Visible(rt, s) == []
    decreases |s|
  {
    if |s| > 0 {
      VisibleOfWhiteSpace(rt, s[1..]);
    }
  }

  /** Trimming leading whitespace loses nothing visible. */
  lemma {:induction false} TrimStartKeepsVisible(rt: Library, s: seq<char>)
    ensures Visible(rt, TrimStart(rt, s)) == Visible(rt, s)
  {
    var t := TrimStart(rt, s);
    var cut := s[..|s| - |t|];
    assert s == cut + t;
    VisibleOfWhiteSpace(rt, cut);
    VisibleConcat(rt, cut, t);
  }

  /** Reduction changes only whitespace: the visible characters survive, in order. */
  lemma {:induction false} ReduceKeepsVisible(rt: Library, s: seq<char>)
    requires Axioms(rt)
    ensures Visible(rt, ReduceHtmlWhiteSpaces(rt, s)) == Visible(rt, s)
    decreases |s|
  {
    if |s| > 0 {
      var r := ReduceHtmlWhiteSpaces(rt, s);
      if rt.isWhiteSpace(s[0]) {
        var t := TrimStart(rt, s[1..]);
        ReduceKeepsVisible(rt, t);
        TrimStartKeepsVisible(rt, s[1..]);
        VisibleConcat(rt, [' '], ReduceHtmlWhiteSpaces(rt, t));
        assert Visible(rt, [' ']) == [];
      } else {
        ReduceKeepsVisible(rt, s[1..]);
        VisibleConcat(rt, [s[0]], ReduceHtmlWhiteSpaces(rt, s[1..]));
      }
    }
  }

  /** The reduced text starts with whitespace exactly when the input does. */
  lemma {:induction false} ReduceHead(rt: Library, s: seq<char>)
    requires Axioms(rt) && |s| > 0
    ensures rt.isWhiteSpace(ReduceHtmlWhiteSpaces(rt, s)[0]) <==> rt.isWhiteSpace(s[0])
  {
  }

  lemma {:induction false} ReducedCons(rt: Library, c: char, t: seq<char>)
    requires Reduced(rt, t)
    requires !rt.isWhiteSpace(c) || (c == ' ' && (|t| == 0 || !rt.isWhiteSpace(t[0])))
    ensures Reduced(rt, [c] + t)
  {
    var u := [c] + t;
    forall k | 0 <= k < |u| && rt.isWhiteSpace(u[k]) ensures u[k] == ' ' {
      if k > 0 {
        assert u[k] == t[k - 1];
      }
    }
    forall k | 0 < k < |u| && rt.isWhiteSpace(u[k]) ensures !rt.isWhiteSpace(u[k - 1]) {
      assert u[k] == t[k - 1];
      if k > 1 {
        assert u[k - 1] == t[k - 2];
      }
    }
  }

  /** The output has no two adjacent whitespace characters, and its only whitespace is ' '. */
  lemma {:induction false} ReduceIsReduced(rt: Library, s: seq<char>)
    requires Axioms(rt)
    ensures Reduced(rt, ReduceHtmlWhiteSpaces(rt, s))
    decreases |s|
  {
    if |s| > 0 {
      if rt.isWhiteSpace(s[0]) {
        var t := TrimStart(rt, s[1..]);
        var rest := ReduceHtmlWhiteSpaces(rt, t);
        ReduceIsReduced(rt, t);
        if |t| > 0 {
          ReduceHead(rt, t);
        }
        ReducedCons(rt, ' ', rest);
        assert ReduceHtmlWhiteSpaces(rt, s) == [' '] + rest;
      } else {
        var rest := ReduceHtmlWhiteSpaces(rt, s[1..]);
        ReduceIsReduced(rt, s[1..]);
        ReducedCons(rt, s[0], rest);
        assert ReduceHtmlWhiteSpaces(rt, s) == [s[0]] + rest;
      }
    }
  }

  /** Text already in reduced form is left alone. */
  lemma {:induction false} ReducedIsFixed(rt: Library, t: seq<char>)
    requires Reduced(rt, t)
    ensures ReduceHtmlWhiteSpaces(rt, t) == t
    decreases |t|
  {
    if |t| > 0 {
      var rest := t[1..];
      assert Reduced(rt, rest) by {
        forall k | 0 < k < |rest| && rt.isWhiteSpace(rest[k])
          ensures !rt.isWhiteSpace(rest[k - 1])
        {
          assert rest[k] == t[k + 1] && rest[k - 1] == t[k];
        }
      }
      ReducedIsFixed(rt, rest);
      if rt.isWhiteSpace(t[0]) {
        assert |rest| > 0 ==> !rt.isWhiteSpace(rest[0]) by {
          if |rest| > 0 {
            assert rest[0] == t[1];
          }
        }
        assert TrimStart(rt, rest) == rest;
      }
    }
  }

  /** Reducing twice is reducing once. */
  lemma {:induction false} ReduceIdempotent(rt: Library, s: seq<char>)
    requires Axioms(rt)
    ensures ReduceHtmlWhiteSpaces(rt, ReduceHtmlWhiteSpaces(rt, s)) == ReduceHtmlWhiteSpaces(rt, s)
  {
    ReduceIsReduced(rt, s);
    ReducedIsFixed(rt, ReduceHtmlWhiteSpaces(rt, s));
  }

  /** `TrimStart` is fixed by where the first non-whitespace character is. */
  lemma {:induction false} TrimStartIs(rt: Library, s: seq<char>, k: nat)
    requires k <= |s|
    requires forall j :: 0 <= j < k ==> rt.isWhiteSpace(s[j])
    requires k == |s| || !rt.isWhiteSpace(s[k])
    ensures TrimStart(rt, s) == s[k..]
  {
    var r := TrimStart(rt, s);
    assert |r| == 0 || r[0] == s[|s| - |r|];
  }

  lemma {:induction false} TrimStartAt(rt: Library, s: seq<char>, i: nat)
    requires i <= |s|
    ensures TrimStart(rt, s[i..]) == s[FirstNonWhiteSpace(rt, s, i)..]
  {
    var f := FirstNonWhiteSpace(rt, s, i);
    TrimStartIs(rt, s[i..], f - i);
    assert s[i..][f - i..] == s[f..];
  }

  lemma {:induction false} FirstNonWhiteSpaceIs(rt: Library, s: seq<char>, i: nat, f: nat)
    requires i <= f <= |s|
    requires forall k :: i <= k < f ==> rt.isWhiteSpace(s[k])
    requires f < |s| ==> !rt.isWhiteSpace(s[f])
    ensures FirstNonWhiteSpace(rt, s, i) == f
  {
    var g := FirstNonWhiteSpace(rt, s, i);
    assert g < |s| ==> !rt.isWhiteSpace(s[g]);
  }

  /** A run of whitespace, however long, becomes one space. */
  lemma {:induction false} ReduceOfRun(rt: Library, s: seq<char>)
    requires |s| > 0 && AllWhiteSpace(rt, s)
    ensures ReduceHtmlWhiteSpaces(rt, s) == " "
  {
    TrimStartIs(rt, s[1..], |s| - 1);
    assert ReduceHtmlWhiteSpaces(rt, s) == [' '] + ReduceHtmlWhiteSpaces(rt, TrimStart(rt, s[1..]));
  }

  /** Text without whitespace is copied unchanged. */
  lemma {:induction false} ReduceOfWord(rt: Library, s: seq<char>)
    requires NoWhiteSpace(rt, s)
    ensures ReduceHtmlWhiteSpaces(rt, s) == s
  {
    ReducedIsFixed(rt, s);
  }

  lemma {:induction false} WhiteSpacePrefix(rt: Library, a: seq<char>, b: seq<char>, m: nat)
    requires m <= |a| && forall j :: 0 <= j < m ==> rt.isWhiteSpace(a[j])
    ensures forall j :: 0 <= j < m ==> rt.isWhiteSpace((a + b)[j])
  {
    forall j | 0 <= j < m ensures rt.isWhiteSpace((a + b)[j]) {
      assert (a + b)[j] == a[j];
    }
  }

  lemma {:induction false} WhiteSpaceJoin(rt: Library, a: seq<char>, b: seq<char>, m: nat)
    requires AllWhiteSpace(rt, a) && m <= |b| && forall j :: 0 <= j < m ==> rt.isWhiteSpace(b[j])
    ensures forall j :: 0 <= j < |a| + m ==> rt.isWhiteSpace((a + b)[j])
  {
    forall j | 0 <= j < |a| + m ensures rt.isWhiteSpace((a + b)[j]) {
      if j < |a| {
        assert (a + b)[j] == a[j];
      } else {
        assert (a + b)[j] == b[j - |a|];
      }
    }
  }

  lemma SliceOfConcat(a: seq<char>, b: seq<char>, m: nat)
    requires m <= |a|
    ensures (a + b)[m..] == a[m..] + b
  {
  }

  lemma SliceOfConcatRight(a: seq<char>, b: seq<char>, m: nat)
    requires m <= |b|
    ensures (a + b)[|a| + m..] == b[m..]
  {
  }

  lemma {:induction false} TrimStartConcatKept(rt: Library, a: seq<char>, b: seq<char>)
    requires |TrimStart(rt, a)| > 0
    ensures TrimStart(rt, a + b) == TrimStart(rt, a) + b
  {
    var t := TrimStart(rt, a);
    var m := |a| - |t|;
    assert t[0] == a[m];
    WhiteSpacePrefix(rt, a, b, m);
    TrimStartIs(rt, a + b, m);
    SliceOfConcat(a, b, m);
  }

  lemma {:induction false} TrimStartConcatRun(rt: Library, a: seq<char>, b: seq<char>)
    requires AllWhiteSpace(rt, a)
    ensures TrimStart(rt, a + b) == TrimStart(rt, b)
  {
    var t := TrimStart(rt, b);
    var m := |b| - |t|;
    assert t == b[m..];
    assert |t| == 0 || t[0] == b[m];
    WhiteSpaceJoin(rt, a, b, m);
    assert |a| + m < |a + b| ==> (a + b)[|a| + m] == b[m];
    TrimStartIs(rt, a + b, |a| + m);
    SliceOfConcatRight(a, b, m);
    assert TrimStart(rt, a + b) == b[m..];
  }

  /**
   Reduction works piece by piece when the cut does not split a whitespace run:
   with `ReduceOfRun` and `ReduceOfWord`, this pins the reducer down completely.
   */
  lemma {:induction false} ReduceConcat(rt: Library, a: seq<char>, b: seq<char>)
    requires |a| == 0 || |b| == 0 || !rt.isWhiteSpace(a[|a| - 1]) || !rt.isWhiteSpace(b[0])
    ensures ReduceHtmlWhiteSpaces(rt, a + b) == ReduceHtmlWhiteSpaces(rt, a) + ReduceHtmlWhiteSpaces(rt, b)
    decreases |a|, 1
  {
    if |a| == 0 {
      assert a + b == b;
    } else if rt.isWhiteSpace(a[0]) {
      ReduceConcatRun(rt, a, b);
    } else {
      ReduceConcatWord(rt, a, b);
    }
  }

  lemma ReduceUnfoldWord(rt: Library, s: seq<char>)
    requires |s| > 0 && !rt.isWhiteSpace(s[0])
    ensures ReduceHtmlWhiteSpaces(rt, s) == [s[0]] + ReduceHtmlWhiteSpaces(rt, s[1..])
  {
  }

  lemma ReduceUnfoldRun(rt: Library, s: seq<char>)
    requires |s| > 0 && rt.isWhiteSpace(s[0])
    ensures ReduceHtmlWhiteSpaces(rt, s) == [' '] + ReduceHtmlWhiteSpaces(rt, TrimStart(rt, s[1..]))
  {
  }

  lemma TailOfConcat(a: seq<char>, b: seq<char>)
    requires |a| > 0
    ensures (a + b)[0] == a[0] && (a + b)[1..] == a[1..] + b
  {
  }

  lemma ConcatAssoc(x: seq<char>, y: seq<char>, z: seq<char>)
    ensures x + (y + z) == (x + y) + z
  {
  }

  lemma {:induction false} TrimmedAway(rt: Library, s: seq<char>)
    requires |TrimStart(rt, s)| == 0
    ensures AllWhiteSpace(rt, s)
  {
  }

  lemma {:induction false} ReduceConcatWord(rt: Library, a: seq<char>, b: seq<char>)
    requires |a| > 0 && !rt.isWhiteSpace(a[0])
    requires |b| == 0 || !rt.isWhiteSpace(a[|a| - 1]) || !rt.isWhiteSpace(b[0])
    ensures ReduceHtmlWhiteSpaces(rt, a + b) == ReduceHtmlWhiteSpaces(rt, a) + ReduceHtmlWhiteSpaces(rt, b)
    decreases |a|, 0
  {
    TailOfConcat(a, b);
    ReduceUnfoldWord(rt, a + b);
    ReduceUnfoldWord(rt, a);
    assert |a| == 1 || a[1..][|a| - 2] == a[|a| - 1];
    ReduceConcat(rt, a[1..], b);
    ConcatAssoc([a[0]], ReduceHtmlWhiteSpaces(rt, a[1..]), ReduceHtmlWhiteSpaces(rt, b));
  }

  lemma {:induction false} ReduceConcatRun(rt: Library, a: seq<char>, b: seq<char>)
    requires |a| > 0 && rt.isWhiteSpace(a[0])
    requires |b| == 0 || !rt.isWhiteSpace(a[|a| - 1]) || !rt.isWhiteSpace(b[0])
    ensures ReduceHtmlWhiteSpaces(rt, a + b) == ReduceHtmlWhiteSpaces(rt, a) + ReduceHtmlWhiteSpaces(rt, b)
    decreases |a|, 0
  {
    var t := TrimStart(rt, a[1..]);
    TailOfConcat(a, b);
    ReduceUnfoldRun(rt, a + b);
    ReduceUnfoldRun(rt, a);
    if |t| == 0 {
      TrimmedAway(rt, a[1..]);
      TrimStartConcatRun(rt, a[1..], b);
      assert |a| == 1 || a[1..][|a| - 2] == a[|a| - 1];
      TrimStartIs(rt, b, 0);
      assert ReduceHtmlWhiteSpaces(rt, a) == [' '];
    } else {
      TrimStartConcatKept(rt, a[1..], b);
      assert t[|t| - 1] == a[|a| - 1];
      ReduceConcat(rt, t, b);
      ConcatAssoc([' '], ReduceHtmlWhiteSpaces(rt, t), ReduceHtmlWhiteSpaces(rt, b));
    }
  }

  lemma {:induction false} ReduceAtWord(rt: Library, s: seq<char>, i: nat)
    requires i < |s| && !rt.isWhiteSpace(s[i])
    ensures ReduceHtmlWhiteSpaces(rt, s[i..]) == [s[i]] + ReduceHtmlWhiteSpaces(rt, s[i + 1..])
  {
    assert s[i..][0] == s[i];
    assert s[i..][1..] == s[i + 1..];
  }

  lemma {:induction false} ReduceAtRun(rt: Library, s: seq<char>, i: nat)
    requires i < |s| && rt.isWhiteSpace(s[i])
    ensures ReduceHtmlWhiteSpaces(rt, s[i..]) == [' '] + ReduceHtmlWhiteSpaces(rt, s[FirstNonWhiteSpace(rt, s, i + 1)..])
  {
    assert s[i..][0] == s[i];
    assert s[i..][1..] == s[i + 1..];
    TrimStartAt(rt, s, i + 1);
  }

  /**
   The buffer-writing overload: writes the reduced text to `buffer[0..n)` and
   returns `n`, leaving the rest of the buffer as it was.  `n` never exceeds the
   input length, so a buffer as long as the input always suffices.
   */
  method ReduceInto(rt: Library, input: seq<char>, buffer: seq<char>) returns (written: seq<char>, n: nat)
    requires |ReduceHtmlWhiteSpaces(rt, input)| <= |buffer|
    ensures |written| == |buffer| && n == |ReduceHtmlWhiteSpaces(rt, input)| <= |input|
    ensures written[..n] == ReduceHtmlWhiteSpaces(rt, input)
    ensures forall k :: n <= k < |buffer| ==> written[k] == buffer[k]
  {
    if |input| == 0 {
      return buffer, 0;
    }
    written, n := buffer, 0;
    var i := 0;
    while i < |input|
      invariant 0 <= n <= i <= |input|
      invariant |written| == |buffer| && n <= |buffer| && forall k :: n <= k < |buffer| ==> written[k] == buffer[k]
      invariant written[..n] + ReduceHtmlWhiteSpaces(rt, input[i..]) == ReduceHtmlWhiteSpaces(rt, input)
    {
      var ch := input[i];
      if rt.isWhiteSpace(ch) {
        var next := SkipWhiteSpaceRun(rt, input, i);
        ReduceAtRun(rt, input, i);
        EmitInto(written, n, ' ', ReduceHtmlWhiteSpaces(rt, input[next..]), ReduceHtmlWhiteSpaces(rt, input));
        written := written[n := ' '];
        i := next;
      } else {
        ReduceAtWord(rt, input, i);
        EmitInto(written, n, ch, ReduceHtmlWhiteSpaces(rt, input[i + 1..]), ReduceHtmlWhiteSpaces(rt, input));
        written := written[n := ch];
        i := i + 1;
      }
      n := n + 1;
    }
    assert input[i..] == [] && written[..n] == ReduceHtmlWhiteSpaces(rt, input);
  }

  /** The inner loop of the reducer: from the whitespace at `i`, the index just past its run. */
  method SkipWhiteSpaceRun(rt: Library, input: seq<char>, i: nat) returns (next: nat)
    requires i < |input|
    ensures next == FirstNonWhiteSpace(rt, input, i + 1)
  {
    next := i + 1;
    while next < |input| && rt.isWhiteSpace(input[next])
      invariant i + 1 <= next <= |input|
      invariant forall k :: i + 1 <= k < next ==> rt.isWhiteSpace(input[k])
    {
      next := next + 1;
    }
    FirstNonWhiteSpaceIs(rt, input, i + 1, next);
  }

  /** One character written at the cursor of the buffer. */
  lemma EmitInto(w: seq<char>, n: nat, c: char, rest: seq<char>, whole: seq<char>)
    requires n + 1 + |rest| <= |w|
    requires w[..n] + ([c] + rest) == whole
    ensures w[n := c][..n + 1] + rest == whole
    ensures n + 1 + |rest| == |whole|
    ensures forall k :: n + 1 <= k < |w| ==> w[n := c][k] == w[k]
  {
    assert w[n := c][..n + 1] == w[..n] + [c];
  }

  /** The string overload: an input-length buffer, reduced, and its written prefix. */
  method ReduceToString(rt: Library, input: seq<char>) returns (r: seq<char>)
    ensures r == ReduceHtmlWhiteSpaces(rt, input)
  {
    if |input| == 0 {
      return [];
    }
    var buffer := seq(|input|, _ => '\0');
    var written, n := ReduceInto(rt, input, buffer);
    r := written[..n];
  }

  // ---------------------------------------------------------------------------
  // The append rules

  /** Characters an element writes on its own: line breaks, indentation and the list bullet. */
  predicate Layout(s: seq<char>) {
    forall k :: 0 <= k < |s| ==> s[k] in "\n\t- "
  }

  /** What `WriteText` appends for a text run or entity token. */
  function TextToAppend(rt: Library, st: WriteState, out: seq<char>, tok: Token): (r: seq<char>)
    requires SpanIn(tok, st.src)
    ensures tok.tokenType == HtmlEntity ==> r == rt.htmlDecode(Value(tok, st.src))
  {
    var value := Value(tok, st.src);
    if tok.tokenType == HtmlEntity then
      rt.htmlDecode(value)
    else if IsAfterPreOpen(st) then
      TrimStartLineBreaks(value)
    else if IsInPreformattedText(st) then
      value
    else
      match st.inElement
      case Other | Script | Style | Pre | P | Ul | Ol | Li | Br | Hr =>
        var reduced := ReduceHtmlWhiteSpaces(rt, value);
        if EndsOnNewLine(out) || IsFirstTextContentInLi(st, tok) then TrimStart(rt, reduced) else reduced
      case None | Invalid =>
        if !IsAfterHtmlElement(st) then value
        else if EndsOnWhiteSpace(rt, out) then TrimStart(rt, value)
        else ReduceHtmlWhiteSpaces(rt, value)
  }

  /** `WriteText`: appends to the output, which it never rewrites. */
  function WriteText(rt: Library, st: WriteState, out: seq<char>, tok: Token): (r: seq<char>)
    requires SpanIn(tok, st.src)
    ensures out <= r && r[|out|..] == TextToAppend(rt, st, out, tok)
  {
    out + TextToAppend(rt, st, out, tok)
  }

  function ListBreak(st: WriteState): seq<char> {
    if st.listDepth <= 1 then "\n" else ""
  }

  /** `WriteOpenElement`: dispatches on the current token's kind; `tok` is only written when that kind is Invalid. */
  function WriteOpenElement(rt: Library, st: WriteState, out: seq<char>, tok: Token): (r: seq<char>)
    requires SpanIn(tok, st.src)
    ensures out <= r
    ensures st.current.kind == Invalid ==> r == WriteText(rt, st, out, tok)
    ensures st.current.kind != Invalid ==> Layout(r[|out|..])
    ensures st.current.kind in {None, Script, Style, Other, Pre} ==> r == out
    ensures st.current.kind in {P, Br, Hr} ==> r == out + "\n"
    ensures st.current.kind in {Ul, Ol} ==> r == out + (if st.listDepth <= 1 then "\n" else "")
    ensures st.current.kind == Li ==> r == out + "\n" + Tabs(if st.listDepth < 1 then 1 else st.listDepth) + "- "
  {
    match st.current.kind
    case Invalid => WriteText(rt, st, out, tok)
    case None | Script | Style | Other | Pre => out
    case Ol | Ul => out + ListBreak(st)
    case P | Br | Hr => out + "\n"
    case Li => out + "\n" + Tabs(if st.listDepth < 1 then 1 else st.listDepth) + "- "
  }

  /** `WriteCloseElement`: only a paragraph and an outermost list end with a line break. */
  function WriteCloseElement(rt: Library, st: WriteState, out: seq<char>, tok: Token): (r: seq<char>)
    requires SpanIn(tok, st.src)
    ensures out <= r
    ensures st.current.kind == Invalid ==> r == WriteText(rt, st, out, tok)
    ensures st.current.kind != Invalid ==> Layout(r[|out|..]) && |r| <= |out| + 1
    ensures st.current.kind == P ==> r == out + "\n"
    ensures st.current.kind in {Ul, Ol} ==> r == out + (if st.listDepth <= 1 then "\n" else "")
    ensures st.current.kind !in {Invalid, P, Ul, Ol} ==> r == out
  {
    match st.current.kind
    case Invalid => WriteText(rt, st, out, tok)
    case None | Other | Script | Style | Pre | Br | Hr => out
    case Ul | Ol => out + ListBreak(st)
    case Li => out
    case P => out + "\n"
  }

  // ---------------------------------------------------------------------------
  // What the text rules promise

  lemma {:induction false} TrimLineBreaksKeepsVisible(rt: Library, s: seq<char>)
    requires Axioms(rt)
    ensures Visible(rt, TrimStartLineBreaks(s)) == Visible(rt, s)
  {
    var t := TrimStartLineBreaks(s);
    var cut := s[..|s| - |t|];
    assert s == cut + t;
    assert AllWhiteSpace(rt, cut);
    VisibleOfWhiteSpace(rt, cut);
    VisibleConcat(rt, cut, t);
  }

  /** For a text run (not an entity) the writer changes only whitespace, and never lengthens it. */
  lemma {:induction false} WriteTextKeepsVisible(rt: Library, st: WriteState, out: seq<char>, tok: Token)
    requires Axioms(rt) && SpanIn(tok, st.src) && tok.tokenType != HtmlEntity
    ensures var appended := TextToAppend(rt, st, out, tok);
            Visible(rt, appended) == Visible(rt, Value(tok, st.src)) && |appended| <= tok.length
  {
    var value := Value(tok, st.src);
    var appended := TextToAppend(rt, st, out, tok);
    if IsAfterPreOpen(st) {
      assert appended == TrimStartLineBreaks(value);
      TrimLineBreaksKeepsVisible(rt, value);
    } else if IsInPreformattedText(st) {
      assert appended == value;
    } else if st.inElement != None && st.inElement != Invalid {
      var reduced := ReduceHtmlWhiteSpaces(rt, value);
      assert appended == reduced || appended == TrimStart(rt, reduced);
      ReduceKeepsVisible(rt, value);
      TrimStartKeepsVisible(rt, reduced);
    } else {
      assert appended == value || appended == TrimStart(rt, value) || appended == ReduceHtmlWhiteSpaces(rt, value);
      ReduceKeepsVisible(rt, value);
      TrimStartKeepsVisible(rt, value);
    }
  }

  lemma {:induction false} TrimStartKeepsReduced(rt: Library, s: seq<char>)
    requires Reduced(rt, s)
    ensures Reduced(rt, TrimStart(rt, s))
  {
    var t := TrimStart(rt, s);
    var m := |s| - |t|;
    forall k | 0 <= k < |t| ensures t[k] == s[m + k] {
    }
  }

  /**
   Inside an element, outside preformatted text, the appended text is the
   reduction of the value, in reduced form; when the output already ends a line
   or the text opens a list item it is also trimmed at the front, so it starts
   with no whitespace.
   */
  lemma {:induction false} ElementTextIsReduced(rt: Library, st: WriteState, out: seq<char>, tok: Token)
    requires Axioms(rt) && SpanIn(tok, st.src) && tok.tokenType != HtmlEntity
    requires !IsAfterPreOpen(st) && !IsInPreformattedText(st)
    requires st.inElement != None && st.inElement != Invalid
    ensures var appended := TextToAppend(rt, st, out, tok);
            && Reduced(rt, appended)
            && (EndsOnNewLine(out) || IsFirstTextContentInLi(st, tok) ==>
                  |appended| == 0 || !rt.isWhiteSpace(appended[0]))
            && appended == (if EndsOnNewLine(out) || IsFirstTextContentInLi(st, tok)
                            then TrimStart(rt, ReduceHtmlWhiteSpaces(rt, Value(tok, st.src)))
                            else ReduceHtmlWhiteSpaces(rt, Value(tok, st.src)))
  {
    var reduced := ReduceHtmlWhiteSpaces(rt, Value(tok, st.src));
    ReduceIsReduced(rt, Value(tok, st.src));
    TrimStartKeepsReduced(rt, reduced);
    assert TextToAppend(rt, st, out, tok) ==
      if EndsOnNewLine(out) || IsFirstTextContentInLi(st, tok) then TrimStart(rt, reduced) else reduced;
  }

  /**
   Preformatted text: right after a `<pre>` open only leading carriage returns and
   line feeds are dropped; deeper inside, the text is copied exactly.
   */
  lemma {:induction false} PreformattedText(rt: Library, st: WriteState, out: seq<char>, tok: Token)
    requires SpanIn(tok, st.src) && tok.tokenType != HtmlEntity
    requires IsAfterPreOpen(st) || IsInPreformattedText(st)
    ensures var appended := TextToAppend(rt, st, out, tok);
            var value := Value(tok, st.src);
            && appended == value[|value| - |appended|..]
            && (forall k :: 0 <= k < |value| - |appended| ==> value[k] in "\r\n")
            && (IsAfterPreOpen(st) ==> |appended| == 0 || appended[0] !in "\r\n")
            && (!IsAfterPreOpen(st) ==> appended == value)
  {
    var value := Value(tok, st.src);
    assert TextToAppend(rt, st, out, tok) == if IsAfterPreOpen(st) then TrimStartLineBreaks(value) else value;
  }

  /**
   Text outside every element: copied as is unless it follows an element; then it
   is trimmed at the front when the output already ends on whitespace, and
   otherwise reduced.
   */
  lemma {:induction false} TopLevelText(rt: Library, st: WriteState, out: seq<char>, tok: Token)
    requires Axioms(rt) && SpanIn(tok, st.src) && tok.tokenType != HtmlEntity
    requires !IsAfterPreOpen(st) && !IsInPreformattedText(st)
    requires st.inElement == None || st.inElement == Invalid
    ensures var appended := TextToAppend(rt, st, out, tok);
            var value := Value(tok, st.src);
            && (!IsAfterHtmlElement(st) ==> appended == value)
            && (IsAfterHtmlElement(st) && EndsOnWhiteSpace(rt, out) ==>
                  appended == TrimStart(rt, value) && appended == value[|value| - |appended|..]
                  && (|appended| == 0 || !rt.isWhiteSpace(appended[0])))
            && (IsAfterHtmlElement(st) && !EndsOnWhiteSpace(rt, out) ==>
                  appended == ReduceHtmlWhiteSpaces(rt, value) && Reduced(rt, appended))
  {
    var value := Value(tok, st.src);
    ReduceIsReduced(rt, value);
    assert TextToAppend(rt, st, out, tok) ==
      if !IsAfterHtmlElement(st) then value
      else if EndsOnWhiteSpace(rt, out) then TrimStart(rt, value)
      else ReduceHtmlWhiteSpaces(rt, value);
  }

  /** The token to write matters to the open and close rules only when the current kind is Invalid. */
  lemma {:induction false} ElementRulesIgnoreToken(rt: Library, st: WriteState, out: seq<char>, t1: Token, t2: Token)
    requires SpanIn(t1, st.src) && SpanIn(t2, st.src) && st.current.kind != Invalid
    ensures WriteOpenElement(rt, st, out, t1) == WriteOpenElement(rt, st, out, t2)
    ensures WriteCloseElement(rt, st, out, t1) == WriteCloseElement(rt, st, out, t2)
  {
  }
}
