/**
 The plain-text writer of the first generation (`DCrafting.Textorize`'s
 `HtmlToPlainTextWriter`).  Unlike the current writer it dispatches on the kind
 of the token it is handed -- which, for an orphaned element, is the orphan's
 open tag rather than the close tag being handled -- and indents a list item
 by the driver's block depth.  Each call only appends to the output.
 */
module LegacyWriter {
  import opened Runtime
  import opened Html
  import Writer

  /** What `WriteText` appends for a text run or entity token inside `inElement`. */
  function TextToAppend(rt: Library, src: seq<char>, out: seq<char>, tok: Token, inElement: HtmlElementType, previous: Token): (r: seq<char>)
    requires SpanIn(tok, src)
    ensures tok.tokenType == HtmlEntity ==> r == rt.htmlDecode(Value(tok, src))
  {
    var value := Value(tok, src);
    if tok.tokenType == HtmlEntity then
      rt.htmlDecode(value)
    else
      match inElement
      case Li | P =>
        if previous.tokenType == Text || previous.kind == Invalid || previous.kind == None then value
        else TrimStart(rt, value)
      case None =>
        // `ReplaceHtmlWhiteSpacesNew` is the same one-pass loop as the current
        // generation's reducer (`Writer.ReduceInto`), so it is that function here.
        var reduced := Writer.ReduceHtmlWhiteSpaces(rt, value);
        if Writer.EndsOnNewLine(out) then TrimStart(rt, reduced) else reduced
      case Invalid | Other | Script | Style | Pre | Ul | Ol | Br | Hr =>
        value
  }

  /** `WriteText`: appends to the output, which it never rewrites.  The block depth it is passed is unused. */
  function WriteText(rt: Library, src: seq<char>, out: seq<char>, tok: Token, inElement: HtmlElementType, previous: Token): (r: seq<char>)
    requires SpanIn(tok, src)
    ensures out <= r && r[|out|..] == TextToAppend(rt, src, out, tok, inElement, previous)
  {
    out + TextToAppend(rt, src, out, tok, inElement, previous)
  }

  /** `Math.Max(depth - 2, 1)`: the number of tabs before a list item's bullet. */
  function ListIndent(depth: int): (n: nat)
    ensures n >= 1 && n >= depth - 2
    ensures n == 1 || n == depth - 2
  {
    if depth - 2 > 1 then depth - 2 else 1
  }

  /**
   `WriteOutputForOpenElement`: a tag of Invalid kind is written as text; a
   paragraph, list, line break or rule starts a new line; a list item writes
   its indentation and bullet; every other kind writes nothing.  The legacy
   enumeration has no Pre, whose place here is the source's
   `ArgumentOutOfRangeException`.
   */
  function WriteOpenElement(rt: Library, src: seq<char>, out: seq<char>, tok: Token, depth: int, inElement: HtmlElementType, previous: Token): (r: seq<char>)
    requires SpanIn(tok, src) && tok.kind != Pre
    ensures out <= r
    ensures tok.kind == Invalid ==> r == WriteText(rt, src, out, tok, inElement, previous)
    ensures tok.kind != Invalid ==> Writer.Layout(r[|out|..])
    ensures tok.kind in {None, Script, Style, Other} ==> r == out
    ensures tok.kind in {P, Ul, Ol, Br, Hr} ==> r == out + "\n"
    ensures tok.kind == Li ==> r == out + Tabs(ListIndent(depth)) + "- "
  {
    match tok.kind
    case Invalid => WriteText(rt, src, out, tok, inElement, previous)
    case None | Script | Style | Other => out
    case P | Ul | Ol | Br | Hr => out + "\n"
    case Li => out + Tabs(ListIndent(depth)) + "- "
    case Pre => assert false; out
  }

  /**
   `WriteOutputForCloseElement`: a tag of Invalid kind is written as text; the
   end of a paragraph or list item ends the line; every other kind writes
   nothing.
   */
  function WriteCloseElement(rt: Library, src: seq<char>, out: seq<char>, tok: Token, depth: int, inElement: HtmlElementType, previous: Token): (r: seq<char>)
    requires SpanIn(tok, src) && tok.kind != Pre
    ensures out <= r
    ensures tok.kind == Invalid ==> r == WriteText(rt, src, out, tok, inElement, previous)
    ensures tok.kind != Invalid ==> Writer.Layout(r[|out|..]) && |r| <= |out| + 1
    ensures tok.kind in {P, Li} ==> r == out + "\n"
    ensures tok.kind !in {Invalid, P, Li} ==> r == out
  {
    match tok.kind
    case Invalid => WriteText(rt, src, out, tok, inElement, previous)
    case None | Other | Script | Style | Br | Hr | Ul | Ol => out
    case P | Li => out + "\n"
    case Pre => assert false; out
  }

  // ---------------------------------------------------------------------------
  // What the text rules promise

  /** For a text run (not an entity) the writer changes only whitespace, and never lengthens it. */
  lemma {:induction false} TextKeepsVisible(rt: Library, src: seq<char>, out: seq<char>, tok: Token, inElement: HtmlElementType, previous: Token)
    requires Axioms(rt) && SpanIn(tok, src) && tok.tokenType != HtmlEntity
    ensures var appended := TextToAppend(rt, src, out, tok, inElement, previous);
            Writer.Visible(rt, appended) == Writer.Visible(rt, Value(tok, src)) && |appended| <= tok.length
  {
    var value := Value(tok, src);
    var reduced := Writer.ReduceHtmlWhiteSpaces(rt, value);
    assert TextToAppend(rt, src, out, tok, inElement, previous) in
      {value, TrimStart(rt, value), reduced, TrimStart(rt, reduced)};
    Writer.ReduceKeepsVisible(rt, value);
    Writer.TrimStartKeepsVisible(rt, value);
    Writer.TrimStartKeepsVisible(rt, reduced);
  }

  /**
   Text outside every element is the reduction of its value: its only whitespace
   is single spaces, and when the output already ends a line it is also trimmed
   at the front, so it starts with no whitespace.
   */
  lemma {:induction false} TopLevelTextIsReduced(rt: Library, src: seq<char>, out: seq<char>, tok: Token, previous: Token)
    requires Axioms(rt) && SpanIn(tok, src) && tok.tokenType != HtmlEntity
    ensures var appended := TextToAppend(rt, src, out, tok, None, previous);
            && Writer.Reduced(rt, appended)
            && (Writer.EndsOnNewLine(out) ==> |appended| == 0 || !rt.isWhiteSpace(appended[0]))
            && (Writer.EndsOnNewLine(out) ==> appended == TrimStart(rt, Writer.ReduceHtmlWhiteSpaces(rt, Value(tok, src))))
            && (!Writer.EndsOnNewLine(out) ==> appended == Writer.ReduceHtmlWhiteSpaces(rt, Value(tok, src)))
  {
    var reduced := Writer.ReduceHtmlWhiteSpaces(rt, Value(tok, src));
    Writer.ReduceIsReduced(rt, Value(tok, src));
    Writer.TrimStartKeepsReduced(rt, reduced);
  }

  /**
   Inside a paragraph or list item the text is copied with its whitespace;
   only right after a tag of a real element kind is its leading whitespace
   dropped.  Inside any other element it is copied exactly.
   */
  lemma {:induction false} ElementTextKeepsWhiteSpace(rt: Library, src: seq<char>, out: seq<char>, tok: Token, inElement: HtmlElementType, previous: Token)
    requires SpanIn(tok, src) && tok.tokenType != HtmlEntity && inElement != None
    ensures var appended := TextToAppend(rt, src, out, tok, inElement, previous);
            var value := Value(tok, src);
            && appended == value[|value| - |appended|..]
            && (forall k :: 0 <= k < |value| - |appended| ==> rt.isWhiteSpace(value[k]))
            && (inElement in {Li, P} && previous.tokenType != Text && previous.kind != Invalid && previous.kind != None ==>
                  appended == TrimStart(rt, value))
            && (!(inElement in {Li, P}) || previous.tokenType == Text || previous.kind == Invalid || previous.kind == None ==>
                  appended == value)
  {
    var value := Value(tok, src);
    var trims := previous.tokenType != Text && previous.kind != Invalid && previous.kind != None;
    if inElement == Li || inElement == P {
      assert TextToAppend(rt, src, out, tok, inElement, previous) == if trims then TrimStart(rt, value) else value;
    } else {
      assert TextToAppend(rt, src, out, tok, inElement, previous) == value;
    }
  }
}
