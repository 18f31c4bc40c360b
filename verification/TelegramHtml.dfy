/**
 * Telegram HTML as the alert renderer writes it (internal/infra/alerting/telegram.go): text,
 * bold and code spans, anchors, and Go's `html.EscapeString`.
 *
 * `Html` writes, `Shown` reads: it is what a recipient sees of a message, markup removed and
 * character references decoded.
 */
module TelegramHtml {
  import opened TextBytes
  import opened TagScan
  import opened Wording

  /** Text of the renderer's own: fixed wording, printed numbers and times. */
  type Cell = s: string | Markless(s) && Quiet(s) witness ""

  const BULLET: Cell := "\U{E2}\U{80}\U{A2} "
  const MIDDOT: Cell := " \U{C2}\U{B7} "
  const NEWLINE: Cell := "\n"

  /** A printed number or time. */
  type Figure = s: Cell | IsFigure(s) witness FigureWitness()

  function FigureWitness(): Cell {
    FigureIsQuiet("0");
    "0"
  }

  /**
   * `Lit` and `Raw` are written as they are, `Field` through `html.EscapeString`; `Less` is
   * fixed wording behind the entity for '<'.
   */
  datatype Span = Lit(cell: Cell) | Less(rest: Cell) | Field(text: string) | Raw(unchecked: string)

  datatype Node = Text(spans: seq<Span>) | Bold(spans: seq<Span>) | Code(spans: seq<Span>) | Link(href: string, caption: string)

  function EscapeByte(c: char): string {
    if c == '&' then "&amp;"
    else if c == '\'' then "&#39;"
    else if c == '<' then "&lt;"
    else if c == '>' then "&gt;"
    else if c == '"' then "&#34;"
    else [c]
  }

  function Escape(s: string): string {
    if s == [] then [] else EscapeByte(s[0]) + Escape(s[1..])
  }

  function SpanHtml(s: Span): string {
    match s
    case Lit(cell) => cell
    case Less(rest) => "&lt;" + rest
    case Field(text) => Escape(text)
    case Raw(text) => text
  }

  function SpansHtml(spans: seq<Span>): string {
    if spans == [] then [] else SpanHtml(spans[0]) + SpansHtml(spans[1..])
  }

  function AnchorBody(href: string): string { "a href=\"" + Escape(href) + "\"" }

  function Wrapped(tagBody: string, closeBody: string, inner: string): string {
    ("<" + tagBody + ">") + (inner + ("<" + closeBody + ">"))
  }

  function NodeHtml(n: Node): string {
    match n
    case Text(spans) => SpansHtml(spans)
    case Bold(spans) => Wrapped("b", "/b", SpansHtml(spans))
    case Code(spans) => Wrapped("code", "/code", SpansHtml(spans))
    case Link(href, caption) => Wrapped(AnchorBody(href), "/a", Escape(caption))
  }

  function Html(nodes: seq<Node>): string {
    if nodes == [] then [] else NodeHtml(nodes[0]) + Html(nodes[1..])
  }

  lemma {:induction false} HtmlConcat(a: seq<Node>, b: seq<Node>)
    ensures Html(a + b) == Html(a) + Html(b)
    decreases |a|
  {
    if a == [] {
      assert a + b == b;
    } else {
      assert (a + b)[0] == a[0] && (a + b)[1..] == a[1..] + b;
      HtmlConcat(a[1..], b);
    }
  }

  // ---- what the recipient reads ----------------------------------------------------------

  function SpanWords(s: Span): string {
    match s
    case Lit(cell) => cell
    case Less(rest) => "<" + rest
    case Field(text) => text
    case Raw(text) => text
  }

  function SpansWords(spans: seq<Span>): string {
    if spans == [] then [] else SpanWords(spans[0]) + SpansWords(spans[1..])
  }

  function NodeWords(n: Node): string {
    match n
    case Text(spans) => SpansWords(spans)
    case Bold(spans) => SpansWords(spans)
    case Code(spans) => SpansWords(spans)
    case Link(_, caption) => caption
  }

  /** The text of a document, every field verbatim. */
  function Words(nodes: seq<Node>): string {
    if nodes == [] then [] else NodeWords(nodes[0]) + Words(nodes[1..])
  }

  /** The character `t` starts with, and the bytes it takes. */
  function Decode(t: string): (r: (char, nat))
    requires t != []
    ensures 1 <= r.1 <= |t|
  {
    if HasPrefix(t, "&amp;") then ('&', 5)
    else if HasPrefix(t, "&#39;") then ('\'', 5)
    else if HasPrefix(t, "&lt;") then ('<', 4)
    else if HasPrefix(t, "&gt;") then ('>', 4)
    else if HasPrefix(t, "&#34;") then ('"', 5)
    else (t[0], 1)
  }

  function Shown(t: string): string
    decreases |t|
  {
    if t == [] then []
    else if t[0] == '<' then
      var k := IndexByte(t, '>');
      if k < 0 then [] else Shown(t[k + 1..])
    else
      var (c, n) := Decode(t);
      [c] + Shown(t[n..])
  }

  lemma ShownNothing()
    ensures Shown("") == ""
  {
  }

  lemma Differ(t: string, p: string, i: nat)
    requires i < |p| && (i < |t| ==> t[i] != p[i])
    ensures !HasPrefix(t, p)
  {
    if |p| <= |t| {
      assert t[..|p|][i] == t[i];
    }
  }

  lemma DecodeByte(c: char, rest: string)
    ensures Decode(EscapeByte(c) + rest) == (c, |EscapeByte(c)|)
  {
    hide HasPrefix;
    var e := EscapeByte(c);
    var t := e + rest;
    IsPrefix(e, rest);
    if e == [c] {
      Differ(t, "&amp;", 0);
      Differ(t, "&#39;", 0);
      Differ(t, "&lt;", 0);
      Differ(t, "&gt;", 0);
      Differ(t, "&#34;", 0);
    } else if c == '<' || c == '>' {
      Differ(t, "&amp;", 1);
      Differ(t, "&#39;", 1);
      if c == '>' {
        Differ(t, "&lt;", 1);
      }
    } else if c != '&' {
      Differ(t, "&amp;", 1);
      if c == '"' {
        Differ(t, "&#39;", 3);
        Differ(t, "&lt;", 1);
        Differ(t, "&gt;", 1);
      }
    }
  }

  lemma IsPrefix(e: string, rest: string)
    ensures HasPrefix(e + rest, e)
  {
  }

  lemma ShownByte(c: char, rest: string)
    ensures Shown(EscapeByte(c) + rest) == [c] + Shown(rest)
  {
    var e := EscapeByte(c);
    var t := e + rest;
    assert e[0] != '<' && t[0] == e[0];
    DecodeByte(c, rest);
    assert t[|e|..] == rest;
  }

  /** Escaping is undone by reading: whatever the text, it is shown verbatim. */
  lemma {:induction false} ShownEscape(s: string, rest: string)
    ensures Shown(Escape(s) + rest) == s + Shown(rest)
    decreases |s|
  {
    hide Shown, EscapeByte;
    if s == [] {
      assert Escape(s) + rest == rest;
    } else {
      var more := Escape(s[1..]) + rest;
      assert Escape(s) + rest == EscapeByte(s[0]) + more;
      ShownByte(s[0], more);
      ShownEscape(s[1..], rest);
      assert [s[0]] + (s[1..] + Shown(rest)) == s + Shown(rest);
    }
  }

  lemma DecodePlain(t: string)
    requires t != [] && !IsMark(t[0])
    ensures Decode(t) == (t[0], 1)
  {
    hide HasPrefix;
    Differ(t, "&amp;", 0);
    Differ(t, "&#39;", 0);
    Differ(t, "&lt;", 0);
    Differ(t, "&gt;", 0);
    Differ(t, "&#34;", 0);
  }

  lemma {:induction false} ShownCell(s: string, rest: string)
    requires Markless(s)
    ensures Shown(s + rest) == s + Shown(rest)
    decreases |s|
  {
    hide HasPrefix, Decode;
    if s == [] {
      assert s + rest == rest;
    } else {
      var t := s + rest;
      assert !IsMark(s[0]) && t[0] == s[0] && t[1..] == s[1..] + rest;
      DecodePlain(t);
      assert [s[0]] + (s[1..] + Shown(rest)) == s + Shown(rest);
      ShownCell(s[1..], rest);
    }
  }

  lemma FirstAt(s: string, c: char, k: nat)
    requires k < |s| && s[k] == c && c !in s[..k]
    ensures IndexByte(s, c) == k
  {
    var r := IndexByte(s, c);
    assert forall j :: 0 <= j < k ==> s[j] == s[..k][j];
    assert forall j :: 0 <= j < r ==> s[j] in s[..r];
    assert s[k] in s;
  }

  lemma ShownTag(body: string, rest: string)
    requires '>' !in body
    ensures Shown(("<" + body + ">") + rest) == Shown(rest)
  {
    var t := ("<" + body + ">") + rest;
    var k := |body| + 1;
    assert t[..k] == "<" + body && t[k + 1..] == rest && t[k] == '>' && t[0] == '<';
    FirstAt(t, '>', k);
  }

  lemma ShownWrapped(open: string, close: string, inner: string, words: string, rest: string)
    requires '>' !in open && '>' !in close
    requires forall more :: Shown(inner + more) == words + Shown(more)
    ensures Shown(Wrapped(open, close, inner) + rest) == words + Shown(rest)
  {
    hide Shown;
    var o, c := "<" + open + ">", "<" + close + ">";
    assert Wrapped(open, close, inner) + rest == o + (inner + (c + rest));
    ShownTag(open, inner + (c + rest));
    ShownTag(close, rest);
    assert Shown(inner + (c + rest)) == words + Shown(c + rest);
  }

  // ---- the external texts of a document -----------------------------------------------------

  /** What stands before an external text: a bullet, some other blank, the tag of a bold span, or anything else. */
  datatype Lead = AfterBullet | AfterBlank | AfterBold | Elsewhere

  datatype Place = Place(lead: Lead, text: string)

  /** By the wording written last. */
  function LeadOf(last: string): Lead {
    if last == BULLET then AfterBullet
    else if last != "" && last[|last| - 1] == ' ' then AfterBlank
    else if last == "<b>" then AfterBold
    else Elsewhere
  }

  function SpanPlaces(last: string, spans: seq<Span>): seq<Place>
    decreases |spans|
  {
    if spans == [] then [] else
      match spans[0]
      case Lit(cell) => SpanPlaces(cell, spans[1..])
      case Less(rest) => SpanPlaces(rest, spans[1..])
      case Raw(text) => SpanPlaces(text, spans[1..])
      case Field(text) => [Place(LeadOf(last), text)] + SpanPlaces("", spans[1..])
  }

  function NodePlaces(n: Node): seq<Place> {
    match n
    case Text(spans) => SpanPlaces("", spans)
    case Bold(spans) => SpanPlaces("<b>", spans)
    case Code(spans) => SpanPlaces("<code>", spans)
    case Link(_, _) => []
  }

  /** The escaped texts, in the order in which they appear, and what stands before each. */
  function Places(nodes: seq<Node>): seq<Place> {
    if nodes == [] then [] else NodePlaces(nodes[0]) + Places(nodes[1..])
  }

  datatype Anchor = Anchor(href: string, caption: string)

  /** The anchors, in the order in which they appear. */
  function Anchors(nodes: seq<Node>): seq<Anchor> {
    if nodes == [] then [] else (if nodes[0].Link? then [Anchor(nodes[0].href, nodes[0].caption)] else []) + Anchors(nodes[1..])
  }

  lemma {:induction false} PlacesConcat(a: seq<Node>, b: seq<Node>)
    ensures Places(a + b) == Places(a) + Places(b) && Anchors(a + b) == Anchors(a) + Anchors(b)
    decreases |a|
  {
    hide NodePlaces;
    if a == [] {
      assert a + b == b;
    } else {
      assert (a + b)[0] == a[0] && (a + b)[1..] == a[1..] + b;
      PlacesConcat(a[1..], b);
      assert NodePlaces(a[0]) + (Places(a[1..]) + Places(b)) == Places(a) + Places(b);
      var own := if a[0].Link? then [Anchor(a[0].href, a[0].caption)] else [];
      assert own + (Anchors(a[1..]) + Anchors(b)) == Anchors(a) + Anchors(b);
    }
  }

  // ---- documents with checked wording ------------------------------------------------------

  predicate TrustedSpan(s: Span) { s.Raw? ==> Markless(s.unchecked) }

  predicate TrustedSpans(spans: seq<Span>) { forall i :: 0 <= i < |spans| ==> TrustedSpan(spans[i]) }

  predicate TrustedNode(n: Node) {
    match n
    case Text(spans) => TrustedSpans(spans)
    case Bold(spans) => TrustedSpans(spans)
    case Code(spans) => TrustedSpans(spans)
    case Link(_, _) => true
  }

  /** No unescaped text holds a markup character. */
  predicate Trusted(nodes: seq<Node>) { forall i :: 0 <= i < |nodes| ==> TrustedNode(nodes[i]) }

  lemma {:induction false} EscapeIsPlain(s: string)
    ensures '<' !in Escape(s) && '>' !in Escape(s) && '"' !in Escape(s) && '\'' !in Escape(s)
    decreases |s|
  {
    if s != [] {
      EscapeIsPlain(s[1..]);
    }
  }

  lemma SpanIsPlain(s: Span)
    requires TrustedSpan(s)
    ensures '<' !in SpanHtml(s) && '>' !in SpanHtml(s)
  {
    if s.Field? {
      EscapeIsPlain(s.text);
    }
  }

  lemma {:induction false} SpansArePlain(spans: seq<Span>)
    requires TrustedSpans(spans)
    ensures '<' !in SpansHtml(spans) && '>' !in SpansHtml(spans)
    decreases |spans|
  {
    if spans != [] {
      SpanIsPlain(spans[0]);
      SpansArePlain(spans[1..]);
    }
  }

  lemma ShownSpan(s: Span, rest: string)
    requires TrustedSpan(s)
    ensures Shown(SpanHtml(s) + rest) == SpanWords(s) + Shown(rest)
  {
    hide Shown, Escape;
    match s
    case Lit(cell) => ShownCell(cell, rest);
    case Less(cell) =>
      assert ("&lt;" + cell) + rest == EscapeByte('<') + (cell + rest);
      ShownByte('<', cell + rest);
      ShownCell(cell, rest);
      assert ("<" + cell) + Shown(rest) == ['<'] + (cell + Shown(rest));
    case Field(text) => ShownEscape(text, rest);
    case Raw(text) => ShownCell(text, rest);
  }

  lemma {:induction false} ShownSpans(spans: seq<Span>, rest: string)
    requires TrustedSpans(spans)
    ensures Shown(SpansHtml(spans) + rest) == SpansWords(spans) + Shown(rest)
    decreases |spans|
  {
    hide Shown, SpanHtml, SpanWords;
    if spans == [] {
      assert SpansHtml(spans) + rest == rest;
    } else {
      var a, b := SpanHtml(spans[0]), SpansHtml(spans[1..]);
      assert SpansHtml(spans) + rest == a + (b + rest);
      ShownSpan(spans[0], b + rest);
      ShownSpans(spans[1..], rest);
      assert SpansWords(spans) + Shown(rest) == SpanWords(spans[0]) + (SpansWords(spans[1..]) + Shown(rest));
    }
  }

  lemma AnchorIsPlain(href: string)
    ensures '>' !in AnchorBody(href)
  {
    EscapeIsPlain(href);
  }

  lemma ShownNode(n: Node, rest: string)
    requires TrustedNode(n)
    ensures Shown(NodeHtml(n) + rest) == NodeWords(n) + Shown(rest)
  {
    hide Shown, SpansHtml, SpansWords, Escape, Wrapped, AnchorBody;
    match n
    case Text(spans) => ShownSpans(spans, rest);
    case Bold(spans) =>
      forall more ensures Shown(SpansHtml(spans) + more) == SpansWords(spans) + Shown(more) { ShownSpans(spans, more); }
      ShownWrapped("b", "/b", SpansHtml(spans), SpansWords(spans), rest);
    case Code(spans) =>
      forall more ensures Shown(SpansHtml(spans) + more) == SpansWords(spans) + Shown(more) { ShownSpans(spans, more); }
      ShownWrapped("code", "/code", SpansHtml(spans), SpansWords(spans), rest);
    case Link(href, caption) =>
      AnchorIsPlain(href);
      forall more ensures Shown(Escape(caption) + more) == caption + Shown(more) { ShownEscape(caption, more); }
      ShownWrapped(AnchorBody(href), "/a", Escape(caption), caption, rest);
  }

  /** What is read is what was meant: every field verbatim, whatever characters it holds. */
  lemma {:induction false} HtmlReads(nodes: seq<Node>)
    requires Trusted(nodes)
    ensures Shown(Html(nodes)) == Words(nodes)
    decreases |nodes|
  {
    hide Shown, NodeHtml, NodeWords, TrustedNode;
    if nodes == [] {
      ShownNothing();
    } else {
      HtmlReads(nodes[1..]);
      ShownNode(nodes[0], Html(nodes[1..]));
    }
  }

  // ---- what the splitter's scanner makes of it ----------------------------------------------

  lemma RunWrapped(s: Scan, name: string, inner: string)
    requires s.tag.None? && Supported(name) && '<' !in inner
    ensures Run(s, Wrapped(name, "/" + name, inner)) == s
  {
    hide Run, Supported;
    var inside := s.(stack := s.stack + [name]);
    SupportedName(name);
    RunToken(s, name);
    RunOutside(inside, inner);
    RunToken(inside, "/" + name);
    RunConcat(s, "<" + name + ">", inner + ("<" + ("/" + name) + ">"));
    RunConcat(inside, inner, "<" + ("/" + name) + ">");
    PopLast(s.stack, name);
  }

  lemma PopLast(stack: seq<string>, name: string)
    ensures Pop(stack + [name], name) == stack
  {
    var all := stack + [name];
    assert LastOf(all, name) == |stack|;
    assert all[..|stack|] == stack && all[|stack| + 1..] == [];
  }

  /** An anchor is not among the scanner's supported tags: it passes through untouched. */
  lemma RunAnchor(s: Scan, href: string, inner: string)
    requires s.tag.None? && '<' !in inner
    ensures Run(s, Wrapped(AnchorBody(href), "/a", inner)) == s
  {
    hide Run, AnchorBody;
    var open, close := AnchorBody(href), "/a";
    AnchorIsPlain(href);
    AnchorName(href);
    RunToken(s, open);
    RunOutside(s, inner);
    RunToken(s, close);
    RunConcat(s, "<" + open + ">", inner + ("<" + close + ">"));
    RunConcat(s, inner, "<" + close + ">");
  }

  lemma AnchorName(href: string)
    ensures TagName(AnchorBody(href)) == "a" && !Supported("a") && TagName("/a") == "a"
    ensures !IsClosing(AnchorBody(href))
  {
    var t := AnchorBody(href);
    assert t[0] == 'a' && t[1] == ' ' && t[..1] == "a";
    var low := ToLower(t);
    assert low == ['a'] + ToLower(t[1..]) && ToLower(t[1..])[0] == ' ';
    assert low[0] == 'a' && low[1] == ' ' && low[1..][0] == ' ';
    assert UpToBlank(low[1..]) == [];
    assert UpToBlank(low) == ['a'];
    assert "/a"[..1] == "/" && "/a"[1..] == "a";
    PlainName("a");
  }

  lemma RunNode(s: Scan, n: Node)
    requires s.tag.None? && TrustedNode(n)
    ensures Run(s, NodeHtml(n)) == s
  {
    hide Run, Wrapped, Escape, SpansHtml, AnchorBody;
    match n
    case Text(spans) =>
      SpansArePlain(spans);
      RunOutside(s, SpansHtml(spans));
    case Bold(spans) =>
      SpansArePlain(spans);
      RunWrapped(s, "b", SpansHtml(spans));
      assert "/" + "b" == "/b";
    case Code(spans) =>
      SpansArePlain(spans);
      RunWrapped(s, "code", SpansHtml(spans));
      assert "/" + "code" == "/code";
    case Link(href, caption) =>
      EscapeIsPlain(caption);
      RunAnchor(s, href, Escape(caption));
  }

  /** Whatever its fields contain, a document is well nested under the splitter's own scanner. */
  lemma {:induction false} HtmlIsWellNested(s: Scan, nodes: seq<Node>)
    requires s.tag.None? && Trusted(nodes)
    ensures Run(s, Html(nodes)) == s
    decreases |nodes|
  {
    hide NodeHtml, TrustedNode;
    if nodes != [] {
      RunConcat(s, NodeHtml(nodes[0]), Html(nodes[1..]));
      RunNode(s, nodes[0]);
      HtmlIsWellNested(s, nodes[1..]);
    }
  }
}
