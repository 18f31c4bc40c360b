/**
 * The renderer and the splitter together: which rendered documents the splitter handles
 * completely, under the documented discipline and as written; and how an anchor, whose tag
 * holds a blank, can be cut in two.
 */
module RenderedSplit {
  import opened Optional
  import opened TextBytes
  import opened TagScan
  import opened SafeSplit
  import opened BareTags
  import opened SplitTheorems
  import opened SplitRuns
  import opened SplitAsWritten
  import opened SplitExact
  import opened SplitParts
  import opened TelegramHtml
  import BoldSpan

  // ---- modest text: at most one tag open, and no boundary inside a tag -----------------------

  /**
   * What a document promises of its tags and boundaries. `Any`: what every document does, its
   * text is bare. `Strict`: tags are short and hold no blank. `Lines`: tags hold no newline.
   * `Closed`: every newline stands outside all tags, open ones included.
   */
  datatype Mode = Any | Strict | Lines | Closed

  predicate Small(s: Scan, mode: Mode) {
    |s.stack| <= 1 && AllSupported(s.stack) && (mode.Strict? && s.tag.Some? ==> |s.tag.value| <= 6)
  }

  predicate MayRead(s: Scan, c: char, mode: Mode) {
    match mode
    case Any => BareByte(s, c)
    case Strict => s.tag.Some? ==> !IsBlank(c)
    case Lines => s.tag.Some? ==> c != '\n'
    case Closed => c == '\n' ==> s == START
  }

  /** Every state on the way is small, and no boundary is read inside a tag. */
  predicate Modest(s: Scan, text: string, mode: Mode)
    decreases |text|
  {
    Small(s, mode) && (text != [] ==> MayRead(s, text[0], mode) && Modest(Step(s, text[0]), text[1..], mode))
  }

  lemma {:induction false} ModestConcat(s: Scan, a: string, b: string, mode: Mode)
    requires Modest(s, a, mode) && Modest(Run(s, a), b, mode)
    ensures Modest(s, a + b, mode)
    decreases |a|
  {
    hide Small, MayRead, Step;
    if a == [] {
      assert a + b == b;
    } else {
      assert (a + b)[0] == a[0] && (a + b)[1..] == a[1..] + b;
      ModestConcat(Step(s, a[0]), a[1..], b, mode);
    }
  }

  lemma {:induction false} ModestAt(s: Scan, text: string, i: nat, mode: Mode)
    requires Modest(s, text, mode) && i <= |text|
    ensures Small(Run(s, text[..i]), mode) && (i < |text| ==> MayRead(Run(s, text[..i]), text[i], mode))
    decreases i
  {
    hide Small, MayRead, Step;
    if i > 0 {
      ModestAt(Step(s, text[0]), text[1..], i - 1, mode);
      assert text[..i][0] == text[0] && text[..i][1..] == text[1..][..i - 1];
    }
  }

  lemma {:induction false} ModestPlain(s: Scan, text: string, mode: Mode)
    requires s.tag.None? && Small(s, mode) && '<' !in text
    requires mode.Closed? && '\n' in text ==> s == START
    ensures Modest(s, text, mode)
    decreases |text|
  {
    hide Small;
    if text != [] {
      ModestPlain(s, text[1..], mode);
    }
  }

  /** The body of a tag, as the mode has it. */
  predicate TagBody(body: string, room: int, mode: Mode) {
    '>' !in body &&
    match mode
    case Any => '<' !in body && (Supported(TagName(body)) ==> BlankFree(body))
    case Strict => |body| <= room && BlankFree(body)
    case _ => '\n' !in body
  }

  lemma {:induction false} ModestBody(s: Scan, body: string, room: int, mode: Mode)
    requires s.tag.Some? && |s.stack| <= 1 && AllSupported(s.stack) && (mode.Strict? ==> |s.tag.value| + room <= 6)
    requires '>' !in body
    requires match mode
      case Any => '<' !in body
      case Strict => |body| <= room && BlankFree(body)
      case _ => '\n' !in body
    ensures Modest(s, body, mode)
    decreases |body|
  {
    hide AllSupported, TagName, Supported;
    if body != [] {
      ModestBody(Step(s, body[0]), body[1..], room - 1, mode);
    }
  }

  lemma ModestByte(s: Scan, c: char, mode: Mode)
    requires Small(s, mode) && MayRead(s, c, mode) && Small(Step(s, c), mode)
    ensures Modest(s, [c], mode) && Run(s, [c]) == Step(s, c)
  {
    hide Small, MayRead, Step;
    assert [c][1..] == [];
  }

  lemma ModestTag(s: Scan, body: string, mode: Mode)
    requires s.tag.None? && Small(s, mode) && TagBody(body, 6, mode)
    requires Small(Apply(s.stack, s.nested, body), mode)
    ensures Modest(s, "<" + body + ">", mode)
  {
    hide Apply, AllSupported, Modest, Run, TagName, Supported;
    var begun := s.(tag := Some(""));
    var full := s.(tag := Some(body));
    ModestByte(s, '<', mode);
    ModestBody(begun, body, 6, mode);
    RunInside(begun, body);
    assert "" + body == body;
    ModestByte(full, '>', mode);
    RunConcat(s, "<", body);
    ModestConcat(s, "<", body, mode);
    ModestConcat(s, "<" + body, ">", mode);
  }

  lemma ModestOpening(name: string, mode: Mode)
    requires name == "b" || name == "code"
    ensures Modest(START, "<" + name + ">", mode) && Run(START, "<" + name + ">") == Open([name])
  {
    hide Modest, Run;
    SupportedName(name);
    RunToken(START, name);
    assert [] + [name] == [name];
    ModestTag(START, name, mode);
  }

  lemma ModestClosing(name: string, mode: Mode)
    requires name == "b" || name == "code"
    ensures Modest(Open([name]), "<" + ("/" + name) + ">", mode)
  {
    hide Modest, Run, Pop;
    SupportedName(name);
    PopLast([], name);
    assert [] + [name] == [name];
    ModestTag(Open([name]), "/" + name, mode);
  }

  lemma ModestWrapped(name: string, inner: string, mode: Mode)
    requires name == "b" || name == "code"
    requires '<' !in inner && (mode.Closed? ==> '\n' !in inner)
    ensures Modest(START, Wrapped(name, "/" + name, inner), mode)
  {
    hide Modest, Run;
    var inside := Open([name]);
    ModestOpening(name, mode);
    RunOutside(inside, inner);
    ModestPlain(inside, inner, mode);
    ModestClosing(name, mode);
    ModestConcat(inside, inner, "<" + ("/" + name) + ">", mode);
    ModestConcat(START, "<" + name + ">", inner + ("<" + ("/" + name) + ">"), mode);
  }

  lemma {:induction false} EscapeKeepsLine(s: string)
    requires '\n' !in s
    ensures '\n' !in Escape(s)
    decreases |s|
  {
    if s != [] {
      EscapeKeepsLine(s[1..]);
    }
  }

  lemma AnchorHasNoAngle(href: string)
    ensures '<' !in AnchorBody(href)
  {
    EscapeIsPlain(href);
  }

  lemma ModestAnchor(href: string, inner: string, mode: Mode)
    requires '<' !in inner && !mode.Strict? && (mode.Any? || '\n' !in href)
    ensures Modest(START, Wrapped(AnchorBody(href), "/a", inner), mode)
  {
    hide Modest, Run, TagName, Escape;
    var open := AnchorBody(href);
    AnchorName(href);
    AnchorIsPlain(href);
    if !mode.Any? {
      EscapeKeepsLine(href);
    }
    AnchorHasNoAngle(href);
    ModestTag(START, open, mode);
    RunToken(START, open);
    RunOutside(START, inner);
    ModestPlain(START, inner, mode);
    ModestTag(START, "/a", mode);
    ModestConcat(START, inner, "<" + "/a" + ">", mode);
    ModestConcat(START, "<" + open + ">", inner + ("<" + "/a" + ">"), mode);
  }

  predicate LineFree(spans: seq<Span>) { '\n' !in SpansHtml(spans) }

  /** What a node must promise: anchors only where tags may hold blanks, and no newline in them or in open tags. */
  predicate Fits(n: Node, mode: Mode) {
    match n
    case Text(_) => true
    case Bold(spans) => mode.Closed? ==> LineFree(spans)
    case Code(spans) => mode.Closed? ==> LineFree(spans)
    case Link(href, _) => !mode.Strict? && (mode.Any? || '\n' !in href)
  }

  lemma ModestNode(n: Node, mode: Mode)
    requires TrustedNode(n) && Fits(n, mode)
    ensures Modest(START, NodeHtml(n), mode)
  {
    hide Modest, Wrapped, SpansHtml, Escape, AnchorBody;
    match n
    case Text(spans) =>
      SpansArePlain(spans);
      ModestPlain(START, SpansHtml(spans), mode);
    case Bold(spans) =>
      SpansArePlain(spans);
      ModestWrapped("b", SpansHtml(spans), mode);
      assert "/" + "b" == "/b";
    case Code(spans) =>
      SpansArePlain(spans);
      ModestWrapped("code", SpansHtml(spans), mode);
      assert "/" + "code" == "/code";
    case Link(href, caption) =>
      EscapeIsPlain(caption);
      ModestAnchor(href, Escape(caption), mode);
  }

  predicate AllFit(nodes: seq<Node>, mode: Mode) { forall i :: 0 <= i < |nodes| ==> Fits(nodes[i], mode) }

  lemma {:induction false} ModestHtml(nodes: seq<Node>, mode: Mode)
    requires Trusted(nodes) && AllFit(nodes, mode)
    ensures Modest(START, Html(nodes), mode)
    decreases |nodes|
  {
    hide Modest, NodeHtml, TrustedNode, Fits;
    if nodes == [] {
      ModestPlain(START, [], mode);
    } else {
      ModestNode(nodes[0], mode);
      RunNode(START, nodes[0]);
      ModestHtml(nodes[1..], mode);
      ModestConcat(START, NodeHtml(nodes[0]), Html(nodes[1..]), mode);
    }
  }

  // ---- modest text is what the splitter is meant for ---------------------------------------

  lemma SoonOutside(s: string, i: nat)
    requires Modest(START, s, Strict) && i + LONGEST <= |s|
    ensures OutsideWithin(s, i)
  {
    hide Run, InsideTag, Modest;
    if forall k :: i < k <= i + 8 ==> InsideTag(s, k) {
      TagGrows(s, i, 8);
      ModestAt(START, s, i + 8, Strict);
      assert false;
    }
  }

  lemma StrictIsTidy(s: string)
    requires Modest(START, s, Strict)
    ensures Tidy(s)
  {
    hide Run, InsideTag, Modest, AllSupported;
    forall i | 0 <= i < |s| && IsBlank(s[i])
      ensures !InsideTag(s, i)
    {
      ModestAt(START, s, i, Strict);
      InsideTagIsScan(START, s, i);
    }
    forall i: nat | i <= |s| && !InsideTag(s, i)
      ensures OutsideWithin(s, i)
    {
      if i + LONGEST <= |s| {
        SoonOutside(s, i);
      }
    }
  }

  predicate NeedsLines(mode: Mode) { mode.Lines? || mode.Closed? }

  lemma {:induction false} AnyIsBare(s: Scan, text: string)
    requires Modest(s, text, Any)
    ensures BareFrom(s, text)
    decreases |text|
  {
    hide Small;
    if text != [] {
      AnyIsBare(Step(s, text[0]), text[1..]);
    }
  }

  lemma LooseIsLined(s: string, mode: Mode)
    requires Modest(START, s, mode) && NeedsLines(mode) && ShortLines(s)
    ensures Lined(s)
  {
    hide Run, InsideTag, Modest, AllSupported, ShortLines;
    forall i | 0 <= i < |s| && s[i] == '\n'
      ensures !InsideTag(s, i)
    {
      ModestAt(START, s, i, mode);
      InsideTagIsScan(START, s, i);
    }
  }

  lemma ClosedIsCalm(s: string)
    requires Modest(START, s, Closed)
    ensures LinesClosed(s)
  {
    hide Run, Modest;
    forall i | 0 <= i < |s| && s[i] == '\n'
      ensures Run(START, s[..i]) == START
    {
      ModestAt(START, s, i, Closed);
    }
  }

  lemma ModestIsShallow(s: string, mode: Mode)
    requires Modest(START, s, mode)
    ensures ShallowTags(s)
  {
    hide Run, Modest, Closers, AllSupported;
    forall i | 0 <= i <= |s|
      ensures |Closers(Run(START, s[..i]).stack)| <= RESERVE
    {
      ModestAt(START, s, i, mode);
      FewClosers(Run(START, s[..i]).stack);
    }
  }

  lemma FewClosers(stack: seq<string>)
    requires |stack| <= 1 && AllSupported(stack)
    ensures |Closers(stack)| <= 9
  {
    if stack != [] {
      SupportedName(stack[0]);
      assert stack[..0] == [];
    }
  }

  lemma {:induction false} ModestPrefix(s: Scan, a: string, b: string, mode: Mode)
    requires Modest(s, a + b, mode)
    ensures Modest(s, a, mode) && Modest(Run(s, a), b, mode)
    decreases |a|
  {
    hide Small, MayRead, Step;
    if a == [] {
      assert a + b == b;
    } else {
      assert (a + b)[0] == a[0] && (a + b)[1..] == a[1..] + b;
      ModestPrefix(Step(s, a[0]), a[1..], b, mode);
    }
  }

  // ---- trimming ------------------------------------------------------------------------------

  /** What the splitter keeps of a document after trimming it. */
  predicate Kept(s: string, mode: Mode) {
    Modest(START, s, mode) && WellNested(s) && (NeedsLines(mode) ==> ShortLines(s))
  }

  lemma {:induction false} TrimLeftKeeps(s: string, mode: Mode)
    requires Kept(s, mode)
    ensures Kept(TrimSpaceLeft(s), mode)
    decreases |s|
  {
    if s != [] && IsSpace(s[0]) {
      LinesOfSlice(s, 1, |s|);
      assert s[1..|s|] == s[1..];
      TrimLeftKeeps(s[1..], mode);
    }
  }

  lemma LinesOfSlice(s: string, i: nat, j: nat)
    requires i <= j <= |s|
    ensures ShortLines(s) ==> ShortLines(s[i..j])
  {
    var t := s[i..j];
    if ShortLines(s) {
      forall k: nat | k + LINE <= |t|
        ensures HasLine(t, k)
      {
        assert HasLine(s, i + k);
        var l :| i + k <= l < i + k + LINE && s[l] == '\n';
        assert t[l - i] == '\n';
      }
    }
  }

  lemma {:induction false} TrimRightKeeps(s: string, mode: Mode)
    requires Kept(s, mode)
    ensures Kept(TrimSpaceRight(s), mode)
    decreases |s|
  {
    hide Run, Modest, ShortLines;
    if s != [] && IsSpace(s[|s| - 1]) {
      var front := s[..|s| - 1];
      assert s == front + [s[|s| - 1]] && s[..|front| + 1] == s && s[0..|s| - 1] == front;
      StepAt(s, |front|);
      ModestPrefix(START, front, [s[|s| - 1]], mode);
      LinesOfSlice(s, 0, |s| - 1);
      TrimRightKeeps(front, mode);
    }
  }

  lemma KeptIsGood(s: string, mode: Mode)
    requires Kept(s, mode)
    ensures Shallow(s) && (mode.Any? ==> Bare(s)) && (!mode.Any? ==> Good(s))
    ensures (mode.Strict? ==> Tidy(s)) && (mode.Closed? ==> Calm(s))
  {
    hide Modest, ShortLines, Tidy, Lined, WellNested, ShallowTags, LinesClosed, BareFrom;
    ModestIsShallow(s, mode);
    match mode
    case Any => AnyIsBare(START, s);
    case Strict => StrictIsTidy(s);
    case Lines => LooseIsLined(s, mode);
    case Closed =>
      LooseIsLined(s, mode);
      ClosedIsCalm(s);
  }

  lemma WellNestedHtml(nodes: seq<Node>)
    requires Trusted(nodes)
    ensures WellNested(Html(nodes))
  {
    HtmlIsWellNested(START, nodes);
  }

  lemma TrimmedIsGood(nodes: seq<Node>, mode: Mode)
    requires Trusted(nodes) && AllFit(nodes, mode) && (NeedsLines(mode) ==> ShortLines(Html(nodes)))
    ensures var b := TrimSpace(Html(nodes));
      && Shallow(b) && (mode.Any? ==> Bare(b)) && (!mode.Any? ==> Good(b))
      && (mode.Strict? ==> Tidy(b)) && (mode.Closed? ==> Calm(b))
  {
    hide Modest, WellNested, Good, Html, TrimSpaceLeft, TrimSpaceRight, ShortLines, Trusted, AllFit, Tidy, Calm, Bare, Shallow;
    var body := Html(nodes);
    ModestHtml(nodes, mode);
    WellNestedHtml(nodes);
    TrimLeftKeeps(body, mode);
    TrimRightKeeps(TrimSpaceLeft(body), mode);
    KeptIsGood(TrimSpace(body), mode);
  }

  lemma TrimmedIsBare(nodes: seq<Node>)
    requires Trusted(nodes)
    ensures var b := TrimSpace(Html(nodes)); Shallow(b) && Bare(b)
  {
    hide Html, TrimSpace, Shallow, Bare, Trusted;
    assert AllFit(nodes, Any);
    TrimmedIsGood(nodes, Any);
  }

  /** Every cut of the document lies outside its tags, anchors included, and behind the re-opened ones. */
  predicate CutProperly(nodes: seq<Node>) {
    var b := TrimSpace(Html(nodes));
    CutsProperly(Start(b), |b|)
  }

  /** No bold or code span is open at any of its cuts but the last. */
  predicate CutClosed(nodes: seq<Node>) { CarriesOnce(Start(TrimSpace(Html(nodes)))) }

  /**
   * Whatever its fields and links contain, a document is split by the documented discipline
   * into valid parts exactly if it is cut properly, and by the code as written exactly if it is
   * moreover cut where no span is open; and then nothing is lost.
   */
  lemma RenderedExactly(nodes: seq<Node>)
    requires Trusted(nodes)
    ensures SplitsValidly(Html(nodes), false) <==> CutProperly(nodes)
    ensures SplitsValidly(Html(nodes), true) <==> CutProperly(nodes) && CutClosed(nodes)
    ensures forall seeded :: SplitsValidly(Html(nodes), seeded) ==> SplitsInFull(Html(nodes), seeded)
  {
    hide Html, TrimSpace, Shallow, Bare, Trusted, CutsProperly, CarriesOnce, SplitsValidly, SplitsInFull;
    TrimmedIsBare(nodes);
    DocumentedExactly(Html(nodes));
    AsWrittenExactly(Html(nodes));
    assert SplitsValidly(Html(nodes), false) ==> SplitsInFull(Html(nodes), false);
    assert SplitsValidly(Html(nodes), true) ==> SplitsInFull(Html(nodes), true);
  }

  /** Enough for it: a document that fits one message, or has no anchors, or has line breaks close enough. */
  predicate Splittable(nodes: seq<Node>, mode: Mode) {
    || |TrimSpace(Html(nodes))| <= MAX
    || (!mode.Any? && AllFit(nodes, mode) && (NeedsLines(mode) ==> ShortLines(Html(nodes))))
  }

  lemma SplittableIsCutProperly(nodes: seq<Node>, mode: Mode)
    requires Trusted(nodes) && Splittable(nodes, mode)
    ensures CutProperly(nodes)
  {
    hide Following, Html, TrimSpace, Shallow, Cuttable, Trusted, CutsProperly, AllFit, ShortLines, NeedsLines, Remaining;
    var b := TrimSpace(Html(nodes));
    assert Remaining(Start(b)) == b by { StartRemains(b); }
    if |b| <= MAX {
      NothingToCut(Start(b), |b|);
    } else {
      TrimmedIsGood(nodes, mode);
      StartFollows(b);
      CuttableRun(b, [], Start(b), |b|);
    }
  }

  /** Where moreover no newline stands in an open tag, no tag is carried over any cut. */
  lemma SplittableIsCutClosed(nodes: seq<Node>)
    requires Trusted(nodes) && Splittable(nodes, Closed)
    ensures CutClosed(nodes)
  {
    hide Html, TrimSpace, Shallow, Cuttable, Trusted, Calm, AllFit, ShortLines, CarriesOnce;
    var b := TrimSpace(Html(nodes));
    if |b| <= MAX {
      NothingCarried(b);
    } else {
      TrimmedIsGood(nodes, Closed);
      CalmCarriesNothing(Start(b));
    }
  }

  /**
   * The renderer establishes what the splitter needs: whatever its fields contain, a document
   * that fits one message, or has no anchors, or has a line break in every 983 bytes, is split
   * by the documented discipline into valid parts that lose nothing; and by the code as written
   * where no newline stands in an open tag.
   */
  lemma RenderedBodySplits(nodes: seq<Node>, mode: Mode)
    requires Trusted(nodes) && Splittable(nodes, mode)
    ensures SplitsInFull(Html(nodes), false)
    ensures mode.Closed? ==> SplitsInFull(Html(nodes), true)
  {
    hide Html, Trusted, Splittable, CutProperly, CutClosed, SplitsValidly, SplitsInFull;
    SplittableIsCutProperly(nodes, mode);
    if mode.Closed? {
      SplittableIsCutClosed(nodes);
    }
    RenderedExactly(nodes);
  }

  // ---- an anchor cut in two ------------------------------------------------------------------

  /** In the last quarter of the first window the blank at `p`, which an 'a' precedes, is the only boundary. */
  predicate LoneBlank(s: string, p: nat) {
    && CAP * 3 / 4 < p < CAP < |s| && s[p] == ' ' && s[p - 1] == 'a'
    && forall i :: CAP * 3 / 4 < i < CAP && i != p ==> s[i] != ' ' && s[i] != '\n'
  }

  lemma LoneBlankCut(s: string, p: nat)
    requires LoneBlank(s, p)
    ensures Cut(s, CAP) == p + 1
  {
    hide LastIndex;
    var window := s[..CAP];
    NoBoundary(s, p, "\n\n");
    NoBoundary(s, p, "\n");
    NoBoundary(s, p, ". ");
    LastIndexMeaning(window, " ");
    assert window[p..p + 1] == " ";
    assert MatchesAt(window, " ", p);
    SeparatorEnd(window, " ");
  }

  lemma NoBoundary(s: string, p: nat, sep: string)
    requires LoneBlank(s, p) && sep in {"\n\n", "\n", ". "}
    ensures LastIndex(s[..CAP], sep) <= CAP * 3 / 4
  {
    hide LastIndex;
    var window := s[..CAP];
    SeparatorEnd(window, sep);
    LastIndexMeaning(window, sep);
    forall j | 0 <= j <= |window| && MatchesAt(window, sep, j)
      ensures window[j] == sep[0]
    {
      assert window[j..j + |sep|][0] == window[j];
    }
  }

  lemma TrimLoneBlank(s: string, p: nat)
    requires LoneBlank(s, p)
    ensures TrimRight(s[..p + 1]) == s[..p]
  {
    var t := s[..p + 1];
    assert WithoutBlankTail(t, p) == p;
    assert t[..p] == s[..p];
  }

  lemma FirstPartStays(body: string, part: string, rounds: nat, seeded: bool)
    requires TrimSpace(body) == body && |body| > MAX
    requires Going(Start(body)) && Round(Start(body), seeded).parts == [part]
    ensures Split(body, rounds, seeded).Some? ==> part in Split(body, rounds, seeded).value
  {
    hide Round, TrimSpace, Going, Remaining;
    if rounds > 0 {
      PartsStay(Round(Start(body), seeded), rounds - 1, seeded);
    }
    var st := Rounds(Start(body), rounds, seeded);
    if !Going(st) {
      assert st.parts[0] == part;
    }
  }

  lemma FirstRound(body: string, p: nat, seeded: bool)
    requires LoneBlank(body, p) && |body| > MAX
    requires Run(START, body[..p]).stack == []
    ensures Going(Start(body)) && Round(Start(body), seeded).parts == [body[..p]]
  {
    hide Cut, Run, TrimRight, Shrunk, Round, LoneBlank;
    var st := Start(body);
    assert Remaining(st) == body;
    LoneBlankCut(body, p);
    assert p <= CAP < |body| by { LoneBlankInside(body, p); }
    TrimLoneBlank(body, p);
    ClosedRound(st, seeded, body[..p]);
    ShrunkIsPrefix(body[..p], 0);
  }

  lemma LoneBlankInside(s: string, p: nat)
    requires LoneBlank(s, p)
    ensures 2 <= p <= CAP < |s|
  {
  }

  /** A round whose chunk leaves no tag open adds the chunk. */
  lemma ClosedRound(st: State, seeded: bool, chunk: string)
    requires Going(st) && ChunkOf(st) == chunk && st.carry == [] && Run(START, chunk).stack == []
    ensures Round(st, seeded).parts == st.parts + [Shrunk(chunk, 0)]
  {
    hide ChunkOf, Shrunk, TrimLeft, Run;
    assert Closers([]) == "";
    assert Shrunk(chunk, 0) + "" == Shrunk(chunk, 0);
  }

  lemma HalfTag(before: string)
    requires WellNested(before)
    ensures Run(START, before + "<a") == START.(tag := Some("a")) && !WellNested(before + "<a")
  {
    RunConcat(START, before, "<a");
    var begun := START.(tag := Some(""));
    assert "<a"[1..] == "a" && "" + "a" == "a";
    RunInside(begun, "a");
  }

  function AnchorTail(href: string, caption: string): string {
    "href=\"" + Escape(href) + "\">" + Escape(caption) + "</a>"
  }

  lemma AnchorBytes(before: seq<Node>, href: string, caption: string, after: seq<Node>)
    ensures Html(before + [Link(href, caption)] + after)
      == (Html(before) + "<a") + (" " + AnchorTail(href, caption) + Html(after))
  {
    hide Escape, Html;
    HtmlConcat(before + [Link(href, caption)], after);
    HtmlConcat(before, [Link(href, caption)]);
    OneNode(Link(href, caption));
    AnchorHead(href, caption);
  }

  lemma OneNode(n: Node)
    ensures Html([n]) == NodeHtml(n)
  {
    hide NodeHtml;
    var one := [n];
    assert one[1..] == [];
    assert Html(one) == NodeHtml(n) + "";
  }

  lemma AnchorHead(href: string, caption: string)
    ensures NodeHtml(Link(href, caption)) == "<a" + (" " + AnchorTail(href, caption))
  {
    hide Escape;
  }

  /**
   * The blank inside `<a href=...>` is a soft boundary like any other. Wherever an anchor
   * starts in the last quarter of the first window, behind well-nested text, and nothing else
   * in that quarter is a blank or a newline, the first part ends in `<a`, under either
   * discipline, however many rounds are run, and whatever else the body holds.
   */
  lemma AnchorCutInTwo(body: string, p: nat, rounds: nat, seeded: bool)
    requires LoneBlank(body, p) && body[p - 2] == '<' && WellNested(body[..p - 2])
    requires TrimSpace(body) == body && |body| > MAX
    ensures var r := Split(body, rounds, seeded);
      r.Some? ==> exists part :: part in r.value && !WellNested(part)
  {
    hide Run, Round, Split, TrimSpace, Going, LoneBlank;
    LoneBlankInside(body, p);
    var before := body[..p - 2];
    assert body[..p] == before + "<a" by {
      LoneBlankBytes(body, p);
    }
    HalfTag(before);
    FirstRound(body, p, seeded);
    FirstPartStays(body, body[..p], rounds, seeded);
  }

  lemma LoneBlankBytes(s: string, p: nat)
    requires LoneBlank(s, p) && s[p - 2] == '<'
    ensures s[..p] == s[..p - 2] + "<a"
  {
  }

  lemma {:induction false} EscapeXs(n: nat)
    ensures Escape(BoldSpan.Xs(n)) == BoldSpan.Xs(n)
    decreases n
  {
    if n > 0 {
      EscapeXs(n - 1);
    }
  }

  lemma OneField(text: string)
    ensures Html([Text([Field(text)])]) == Escape(text)
  {
    hide Escape;
    var span := [Field(text)];
    assert span[1..] == [];
    assert SpansHtml(span) == Escape(text) + "";
    OneNode(Text(span));
  }

  /** One such document: a long word, and an anchor whose caption is one. */
  lemma LongWordIsCut(n: nat, m: nat, rounds: nat, seeded: bool)
    requires CAP * 3 / 4 < n + 2 < CAP && m > MAX
    ensures var r := Split(Html([Text([Field(BoldSpan.Xs(n))])] + [Link("h", BoldSpan.Xs(m))] + []), rounds, seeded);
      r.Some? ==> exists part :: part in r.value && !WellNested(part)
  {
    hide Html, Split, WellNested, BoldSpan.Xs, TrimSpace, Trusted;
    var x, y := BoldSpan.Xs(n), BoldSpan.Xs(m);
    var before := [Text([Field(x)])];
    var body := Html(before + [Link("h", y)] + []);
    OneField(x);
    EscapeXs(n);
    EscapeXs(m);
    AnchorBytes(before, "h", y, []);
    var tail := " " + AnchorTail("h", y) + Html([]);
    NothingWritten();
    assert Escape("h") == "h" by {
      EscapeH();
    }
    assert body == (x + "<a") + tail;
    WordsAreLone(x, y, tail);
    TrimsToItself(body);
    FieldIsTrusted(x);
    WellNestedHtml(before);
    assert body[..|x| + 2 - 2] == x && body[|x|] == '<';
    AnchorCutInTwo(body, |x| + 2, rounds, seeded);
  }

  lemma FieldIsTrusted(text: string)
    ensures Trusted([Text([Field(text)])])
  {
  }

  lemma NothingWritten()
    ensures Html([]) == ""
  {
  }

  lemma EscapeH()
    ensures Escape("h") == "h"
  {
    var h := "h";
    assert h[1..] == "";
    assert Escape(h) == EscapeByte('h') + "";
  }

  lemma WordsAreLone(x: string, y: string, tail: string)
    requires tail == " " + ("href=\"" + "h" + "\">" + y + "</a>") + ""
    requires (forall c :: c in x ==> c == 'X') && (forall c :: c in y ==> c == 'X')
    requires CAP * 3 / 4 < |x| + 2 < CAP && |y| > MAX
    ensures var body := (x + "<a") + tail;
      && LoneBlank(body, |x| + 2) && |body| > MAX
      && body[0] == 'X' && body[|body| - 1] == '>'
  {
    var body := (x + "<a") + tail;
    assert body[0] == x[0] && x[0] in x;
    forall i | CAP * 3 / 4 < i < CAP && i != |x| + 2
      ensures body[i] != ' ' && body[i] != '\n'
    {
      if i < |x| {
        assert body[i] in x;
      } else if i >= |x| + 12 {
        assert body[i] == y[i - |x| - 12] && y[i - |x| - 12] in y;
      }
    }
  }

  lemma TrimsToItself(s: string)
    requires s != [] && !IsSpace(s[0]) && !IsSpace(s[|s| - 1])
    ensures TrimSpace(s) == s
  {
  }
}
