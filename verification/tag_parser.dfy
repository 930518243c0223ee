/**
 The tag classifier (`HtmlTagParser.Parse`): from the text of one tag to its
 element kind.  After the '<' it skips any mix of whitespace and '/', takes
 the run up to the next '/', whitespace or '>' as the element name, upper-cases
 it and looks it up in a fixed table.
 */
module TagParser {
  import opened Runtime
  import opened Html

  /** Characters skipped between the '<' and the element name. */
  predicate SkippedBeforeName(rt: Library, c: char) {
    rt.isWhiteSpace(c) || c == '/'
  }

  /** Characters that end the element name. */
  predicate EndsName(rt: Library, c: char) {
    c == '/' || rt.isWhiteSpace(c) || c == '>'
  }

  /** The first index at or after `i` whose character is not skipped, or |s|. */
  function SkipEnd(rt: Library, s: seq<char>, i: nat): (r: nat)
    requires i <= |s|
    ensures i <= r <= |s|
    ensures forall k :: i <= k < r ==> SkippedBeforeName(rt, s[k])
    ensures r < |s| ==> !SkippedBeforeName(rt, s[r])
    decreases |s| - i
  {
    if i == |s| || !SkippedBeforeName(rt, s[i]) then i else SkipEnd(rt, s, i + 1)
  }

  /** The first index at or after `i` whose character ends the name, or |s|. */
  function NameEnd(rt: Library, s: seq<char>, i: nat): (r: nat)
    requires i <= |s|
    ensures i <= r <= |s|
    ensures forall k :: i <= k < r ==> !EndsName(rt, s[k])
    ensures r < |s| ==> EndsName(rt, s[r])
    decreases |s| - i
  {
    if i == |s| || EndsName(rt, s[i]) then i else NameEnd(rt, s, i + 1)
  }

  /** Where the name starts; when everything after the '<' is skipped the index stays at 1. */
  function NameStart(rt: Library, s: seq<char>): (r: nat)
    requires 1 <= |s|
    ensures 1 <= r <= |s|
    ensures r == SkipEnd(rt, s, 1) || (r == 1 && SkipEnd(rt, s, 1) == |s|)
  {
    var k := SkipEnd(rt, s, 1);
    if k < |s| then k else 1
  }

  function Upper(rt: Library, w: seq<char>): (r: seq<char>)
    ensures |r| == |w|
    ensures forall k :: 0 <= k < |w| ==> r[k] == rt.toUpper(w[k])
  {
    seq(|w|, k requires 0 <= k < |w| => rt.toUpper(w[k]))
  }

  /** The upper-cased element name of a tag text that starts with '<'. */
  function TagName(rt: Library, s: seq<char>): seq<char>
    requires 1 <= |s|
  {
    var i := NameStart(rt, s);
    Upper(rt, s[i..NameEnd(rt, s, i)])
  }

  predicate StartsWithDigit(rt: Library, name: seq<char>) {
    |name| > 0 && rt.isDigit(name[0])
  }

  /** The table of recognised names; anything else is some other element. */
  function KnownElement(name: seq<char>): (k: HtmlElementType)
    ensures k != None && k != Invalid
    ensures k == Other <==> name !in ["P", "BR", "UL", "OL", "LI", "HR", "PRE", "SCRIPT", "STYLE"]
    ensures |name| > 6 ==> k == Other
  {
    if name == "P" then P
    else if name == "BR" then Br
    else if name == "UL" then Ul
    else if name == "OL" then Ol
    else if name == "LI" then Li
    else if name == "HR" then Hr
    else if name == "PRE" then Pre
    else if name == "SCRIPT" then Script
    else if name == "STYLE" then Style
    else Other
  }

  function ClassifyName(rt: Library, name: seq<char>): (k: HtmlElementType)
    ensures k != None
    ensures k == Invalid <==> StartsWithDigit(rt, name)
  {
    if StartsWithDigit(rt, name) then Invalid else KnownElement(name)
  }

  /** `HtmlTagParser.Parse`: total, and None exactly for text that is not tag-shaped. */
  function Parse(rt: Library, s: seq<char>): (k: HtmlElementType)
    ensures k == None <==> |s| < 3 || s[0] != '<'
    ensures k != None ==> k == ClassifyName(rt, TagName(rt, s))
  {
    if |s| == 0 then None
    else if |s| < 3 then None
    else if s[0] != '<' then None
    else ClassifyName(rt, TagName(rt, s))
  }

  /**
   Whatever the spelling -- open, close or self-closing, with any whitespace or
   slashes before the name and any attributes after it -- a tag classifies by
   its name alone.
   */
  lemma ParseSpellings(rt: Library, lead: seq<char>, name: seq<char>, rest: seq<char>)
    requires forall k :: 0 <= k < |lead| ==> SkippedBeforeName(rt, lead[k])
    requires 0 < |name| && forall k :: 0 <= k < |name| ==> !EndsName(rt, name[k])
    requires |rest| == 0 || EndsName(rt, rest[0])
    requires 3 <= 1 + |lead| + |name| + |rest|
    ensures Parse(rt, ['<'] + lead + name + rest) == ClassifyName(rt, Upper(rt, name))
  {
    var s := ['<'] + lead + name + rest;
    var i := 1 + |lead|;
    assert s[i] == name[0];
    assert !SkippedBeforeName(rt, s[i]);
    assert forall k :: 1 <= k < i ==> s[k] == lead[k - 1];
    assert SkipEnd(rt, s, 1) == i;
    var j := i + |name|;
    assert forall k :: i <= k < j ==> s[k] == name[k - i];
    assert j < |s| ==> s[j] == rest[0];
    assert NameEnd(rt, s, i) == j;
    assert s[i..j] == name;
  }

  /** A tag without a name (`</>`, `< / >`) is some other element. */
  lemma NamelessTagIsOther(rt: Library, lead: seq<char>, rest: seq<char>)
    requires Axioms(rt)
    requires forall k :: 0 <= k < |lead| ==> SkippedBeforeName(rt, lead[k])
    requires 0 < |rest| && rest[0] == '>'
    requires 3 <= 1 + |lead| + |rest|
    ensures Parse(rt, ['<'] + lead + rest) == Other
  {
    var s := ['<'] + lead + rest;
    var i := 1 + |lead|;
    assert forall k :: 1 <= k < i ==> s[k] == lead[k - 1];
    assert s[i] == '>';
    assert SkipEnd(rt, s, 1) == i;
    assert NameEnd(rt, s, i) == i;
  }

  /** A very long name (the `<t` + many `h` + `>` stress input) costs nothing special and gives Other. */
  lemma LongNameIsOther(rt: Library, n: nat)
    requires Axioms(rt) && !rt.isWhiteSpace('t') && !rt.isWhiteSpace('h')
    requires !rt.isDigit(rt.toUpper('t'))
    requires 6 <= n
    ensures Parse(rt, "<t" + seq(n, _ => 'h') + ">") == Other
  {
    var name := ['t'] + seq(n, _ => 'h');
    assert "<t" + seq(n, _ => 'h') + ">" == ['<'] + [] + name + ">";
    ParseSpellings(rt, [], name, ">");
  }

  /** The spellings of one element that the unit tests list all classify alike. */
  lemma ParseSpellingsOfP(d: seq<char> -> seq<char>)
    ensures Parse(Ascii(d), "<p>") == P
    ensures Parse(Ascii(d), "<p/>") == P
    ensures Parse(Ascii(d), "</p>") == P
  {
    var rt := Ascii(d);
    assert Parse(rt, "<p>") == P by {
      assert Upper(rt, "p") == "P";
      assert "<p>" == ['<'] + [] + "p" + ">";
      ParseSpellings(rt, [], "p", ">");
    }
    assert Parse(rt, "<p/>") == P by {
      assert Upper(rt, "p") == "P";
      assert "<p/>" == ['<'] + [] + "p" + "/>";
      ParseSpellings(rt, [], "p", "/>");
    }
    assert Parse(rt, "</p>") == P by {
      assert Upper(rt, "p") == "P";
      assert "</p>" == ['<'] + "/" + "p" + ">";
      ParseSpellings(rt, "/", "p", ">");
    }
  }

  /** Whitespace around the name does not matter either. */
  lemma ParseSpacedSpellingsOfP(d: seq<char> -> seq<char>)
    ensures Parse(Ascii(d), "<  p  />") == P
    ensures Parse(Ascii(d), "</  p  >") == P
  {
    var rt := Ascii(d);
    assert Parse(rt, "<  p  />") == P by {
      assert Upper(rt, "p") == "P";
      assert "<  p  />" == ['<'] + "  " + "p" + "  />";
      ParseSpellings(rt, "  ", "p", "  />");
    }
    assert Parse(rt, "</  p  >") == P by {
      assert Upper(rt, "p") == "P";
      assert "</  p  >" == ['<'] + "/  " + "p" + "  >";
      ParseSpellings(rt, "/  ", "p", "  >");
    }
  }

  /** Names are matched whatever their case. */
  lemma ParseIgnoresCase(d: seq<char> -> seq<char>)
    ensures Parse(Ascii(d), "</ScRiPt >") == Script
  {
    var rt := Ascii(d);
    assert Upper(rt, "ScRiPt") == "SCRIPT";
    assert "</ScRiPt >" == ['<'] + "/" + "ScRiPt" + " >";
    ParseSpellings(rt, "/", "ScRiPt", " >");
  }

  /** Unknown names are some other element; a name starting with a digit is malformed. */
  lemma ParseUnknownNames(d: seq<char> -> seq<char>)
    ensures Parse(Ascii(d), "<a>") == Other
    ensures Parse(Ascii(d), "<1>") == Invalid
  {
    var rt := Ascii(d);
    assert Parse(rt, "<a>") == Other by {
      assert Upper(rt, "a") == "A";
      assert "<a>" == ['<'] + [] + "a" + ">";
      ParseSpellings(rt, [], "a", ">");
    }
    assert Parse(rt, "<1>") == Invalid by {
      assert Upper(rt, "1") == "1";
      assert "<1>" == ['<'] + [] + "1" + ">";
      ParseSpellings(rt, [], "1", ">");
    }
  }
}
