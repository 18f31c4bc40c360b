/**
 * The body of a trade alert: well nested and read back verbatim whatever its fields contain,
 * decided by its one unescaped text, the severity, and split into valid parts, links included.
 */
module TradeMessageTheorems {
  import opened Optional
  import opened TextBytes
  import opened TagScan
  import opened SplitTheorems
  import opened BareTags
  import opened SplitExact
  import opened TelegramHtml
  import opened Wording
  import opened RenderedSplit
  import opened TradeMessage

  // ---- fixed wording, external texts, and the severity -----------------------------------------

  predicate FixedSpans(spans: seq<Span>) { forall i :: 0 <= i < |spans| ==> spans[i].Lit? || spans[i].Less? }

  predicate FixedNode(n: Node) { !n.Link? && FixedSpans(n.spans) }

  /** Wording and figures only. */
  predicate Fixed(nodes: seq<Node>) { forall i :: 0 <= i < |nodes| ==> FixedNode(nodes[i]) }

  predicate PlainNode(n: Node) { TrustedNode(n) && !n.Link? }

  /** Trusted, and without anchors. */
  predicate Plain(nodes: seq<Node>) { forall i :: 0 <= i < |nodes| ==> PlainNode(nodes[i]) }

  lemma FixedIsPlain(nodes: seq<Node>)
    requires Fixed(nodes)
    ensures Plain(nodes)
  {
  }

  lemma FixedTailRow(p: Printer, name: Cell, notional: real, r95: real, p95: real, r99: real, p99: real)
    ensures Fixed(TailRow(p, name, notional, r95, p95, r99, p99))
  {
    hide Money, Ratio;
  }

  lemma FixedDuration(d: int)
    ensures FixedSpans(Duration(d))
  {
    hide Int;
  }

  lemma FixedPercentile(p: Printer, v: real)
    ensures FixedSpans(Percentile(p, v))
  {
    hide Money;
  }

  lemma FixedBaselines(b: BaselineRef, p: Printer)
    ensures Fixed(BaselineLine(b, p)) && Fixed(TraderLine(b, p))
  {
    hide Money, Int, Duration, Percentile;
    FixedDuration(b.span);
    FixedPercentile(p, b.p95USD);
    FixedPercentile(p, b.p99USD);
  }

  lemma FixedPayoff(f: Finding, p: Printer)
    ensures Fixed(PayoffLine(f, p)) && Fixed(PayoffGateLine())
  {
    hide Money;
  }

  lemma FixedOdds(t: TradeRef, p: Printer)
    ensures Fixed(OddsLine(t, p))
  {
    hide Multiplier;
  }

  lemma FixedTails(f: Finding, p: Printer)
    ensures Fixed(MarketTail(f, p)) && Fixed(TraderTail(f, p))
  {
    hide TailRow, FixedNode;
    if HasTail(f.baseline, f.marketP95Ratio, f.marketP99Ratio) {
      FixedTailRow(p, MARKET_TAIL, Notional(f), f.marketP95Ratio, f.baseline.value.p95USD, f.marketP99Ratio,
        f.baseline.value.p99USD);
    }
    if HasTail(f.traderBaseline, f.traderP95Ratio, f.traderP99Ratio) {
      FixedTailRow(p, TRADER_TAIL, Notional(f), f.traderP95Ratio, f.traderBaseline.value.p95USD, f.traderP99Ratio,
        f.traderBaseline.value.p99USD);
    }
  }

  lemma FixedFigures(f: Finding, p: Printer)
    ensures Fixed(Payoff(f, p)) && Fixed(Odds(f, p)) && Fixed(Baseline(f, p))
    ensures Fixed(TraderHistory(f, p)) && Fixed(PayoffGate(f))
  {
    hide BaselineLine, TraderLine, PayoffLine, OddsLine, PayoffGateLine, FixedNode;
    if f.baseline.Some? {
      FixedBaselines(f.baseline.value, p);
    }
    if f.traderBaseline.Some? {
      FixedBaselines(f.traderBaseline.value, p);
    }
    FixedPayoff(f, p);
    if f.trade.Some? {
      FixedOdds(f.trade.value, p);
    }
  }

  lemma FixedNumbers(f: Finding, p: Printer)
    ensures Fixed(WhyNumbers(f, p))
  {
    hide Payoff, MarketTail, TraderTail, Odds, Baseline, TraderHistory, PayoffGate, FixedNode;
    FixedTails(f, p);
    FixedFigures(f, p);
  }

  lemma FixedGates(f: Finding)
    ensures Fixed(TailGateStatus(f))
  {
    hide Int;
  }

  lemma FixedContext(f: Finding, p: Printer)
    ensures Fixed(Lifecycle(f, p)) && Fixed(Dormant(f)) && Fixed(Ownership(f, p))
  {
    hide Duration;
    if f.dormantIdle.Some? {
      FixedDuration(f.dormantIdle.value);
    }
  }

  lemma FixedMarketState(f: Finding, p: Printer)
    ensures Fixed(QuietMarket(f, p)) && Fixed(NewWallet(f)) && Fixed(Peers(f))
  {
    hide Duration, Int, RatePerDay, Money;
    if f.quietMarket.Some? {
      FixedDuration(f.quietMarket.value.idle);
    }
    if f.newWallet.Some? {
      FixedDuration(f.newWallet.value.ageAtTrade);
    }
  }

  lemma FixedHeading(title: Cell)
    ensures Fixed(Heading(title))
  {
  }

  /** The Why section before the line that repeats the severity, and behind it. */
  function WhyBefore(f: Finding, p: Printer): seq<Node> { Heading(WHY) + WhyNumbers(f, p) + TailGateStatus(f) }

  function WhyAfter(f: Finding, p: Printer): seq<Node> {
    Dormant(f) + Ownership(f, p) + Lifecycle(f, p) + QuietMarket(f, p) + NewWallet(f) + Peers(f)
  }

  lemma WhyParts(f: Finding, p: Printer)
    ensures Why(f, p) == WhyBefore(f, p) + CappedNote(f) + WhyAfter(f, p)
    ensures Fixed(WhyBefore(f, p)) && Fixed(WhyAfter(f, p))
  {
    hide WhyNumbers, TailGateStatus, CappedNote, Lifecycle, Dormant, Ownership;
    hide QuietMarket, NewWallet, Peers, Heading, FixedNode;
    FixedHeading(WHY);
    FixedNumbers(f, p);
    FixedGates(f);
    FixedContext(f, p);
    FixedMarketState(f, p);
  }

  lemma PlainHeader(f: Finding, p: Printer)
    requires Markless(ToUpper(f.severity))
    ensures Plain(Header(f, p))
  {
    hide Money, TradeTitle, Notional, ToUpper;
  }

  lemma PlainCapped(f: Finding)
    requires Markless(f.severity)
    ensures Plain(CappedNote(f))
  {
  }

  lemma PlainWhy(f: Finding, p: Printer)
    requires f.severityCapped ==> Markless(f.severity)
    ensures Plain(Why(f, p))
  {
    hide Why, WhyBefore, WhyAfter, PlainNode, Fixed;
    WhyParts(f, p);
    FixedIsPlain(WhyBefore(f, p));
    FixedIsPlain(WhyAfter(f, p));
    if f.severityCapped {
      PlainCapped(f);
    }
  }

  lemma PlainHeading(title: Cell)
    ensures Plain(Heading(title))
  {
  }

  lemma PlainTradeLines(f: Finding, t: TradeRef, p: Printer)
    ensures Plain(Outcome(t)) && Plain(SizeLine(t, p)) && Plain(Wallet(t)) && Plain(TimeLine(t, p)) && Plain(Category(f))
  {
    hide Money;
  }

  lemma PlainTrade(f: Finding, p: Printer)
    ensures Plain(TradeBlock(f, p))
  {
    hide Outcome, SizeLine, Wallet, TimeLine, Category, Heading, PlainNode;
    if f.trade.Some? {
      PlainHeading(TRADE);
      PlainTradeLines(f, f.trade.value, p);
    }
  }

  lemma {:induction false} TrustedLinks(es: seq<Entry>)
    ensures Trusted(LinkLines(es))
    decreases |es|
  {
    if es != [] {
      TrustedLinks(es[..|es| - 1]);
    }
  }

  lemma PlainBlocked(f: Finding)
    ensures Plain(Blocked(f))
  {
    hide BlockedStatus, BlockedScenarios, Heading, BlankBlock, PlainNode;
    if f.blocked.Some? {
      PlainHeading(BLOCKED_ALERT);
      PlainBlockedFields(f.blocked.value);
    }
  }

  lemma PlainBlockedFields(b: BlockedAlert)
    ensures Plain(BlockedStatus(b)) && Plain(BlockedScenarios(b))
  {
    hide FieldUnlessEmpty, PlainNode;
    PlainField(STATUS, b.status);
    PlainField(REASON, b.reason);
    PlainField(CATALYST_TYPE, b.catalystType);
    PlainField(EXPECTED_TIMING, b.expectedTiming);
    PlainField(BULLISH, b.bullish);
    PlainField(BEARISH, b.bearish);
    PlainField(INVALIDATION, b.invalidation);
    PlainField(STANCE, b.stance);
  }

  lemma PlainField(name: Cell, value: string)
    ensures Plain(FieldUnlessEmpty(name, value))
  {
  }

  lemma {:induction false} PlainNotes(lines: seq<string>)
    ensures Plain(NoteLines(lines))
    decreases |lines|
  {
    hide TrimSpace;
    if lines != [] {
      PlainNotes(lines[..|lines| - 1]);
    }
  }

  lemma PlainMove(a: AnnotationRef, p: Printer)
    ensures Plain(AnnotationHead(a, p)) && Plain(PriceMove(a, p))
  {
    hide TrimSpace;
  }

  lemma PlainAnnotationText(a: AnnotationRef)
    ensures Plain(OutcomeMark(a)) && Plain(SummaryLine(a)) && Plain(SourceLine(a)) && Plain([Text([Lit(NEWLINE)])])
  {
    hide TrimSpace, Capped;
  }

  lemma PlainAnnotation(a: AnnotationRef, p: Printer)
    ensures Plain(Annotation(a, p))
  {
    hide AnnotationHead, PriceMove, OutcomeMark, SummaryLine, SourceLine, PlainNode;
    PlainMove(a, p);
    PlainAnnotationText(a);
  }

  lemma {:induction false} PlainAnnotations(notes: seq<AnnotationRef>, p: Printer)
    ensures Plain(AnnotationLines(notes, p))
    decreases |notes|
  {
    hide Annotation, PlainNode;
    if notes != [] {
      PlainAnnotations(notes[..|notes| - 1], p);
      PlainAnnotation(notes[|notes| - 1], p);
    }
  }

  lemma PlainAnalyst(f: Finding, p: Printer)
    ensures Plain(AnalystNote(f, p))
  {
    hide Blocked, NoteLines, AnnotationLines, Heading, PlainNode, TrimSpace, SplitLines;
    PlainBlocked(f);
    PlainHeading(AI_ANALYSIS);
    PlainHeading(ANNOTATIONS);
    PlainNotes(SplitLines(TrimSpace(f.analystNote)));
    PlainAnnotations(FirstThree(f.recentAnnotations), p);
  }

  lemma {:induction false} UpperIsMarkless(s: string)
    requires Markless(s)
    ensures Markless(ToUpper(s))
    decreases |s|
  {
    if s != [] {
      UpperIsMarkless(s[1..]);
    }
  }

  /** Every section but the links is plain. */
  lemma PlainSections(f: Finding, p: Printer)
    requires Markless(f.severity)
    ensures Plain(Header(f, p)) && Plain(Why(f, p)) && Plain(TradeBlock(f, p)) && Plain(AnalystNote(f, p))
  {
    hide *;
    UpperIsMarkless(f.severity);
    PlainHeader(f, p);
    PlainWhy(f, p);
    PlainTrade(f, p);
    PlainAnalyst(f, p);
  }

  lemma TrustedMessage(f: Finding, p: Printer)
    requires Markless(f.severity)
    ensures Trusted(Message(f, p))
  {
    hide Header, Why, TradeBlock, LinkLines, AnalystNote, Heading, TrustedNode, Entries;
    PlainSections(f, p);
    PlainHeading(LINKS);
    TrustedLinks(Entries(f, p));
  }

  /** A duration under a minute reads "<1m" and is written with its '<' escaped. */
  lemma SubMinute(d: int)
    requires d < MINUTE
    ensures SpansHtml(Duration(d)) == "&lt;1m" && SpansWords(Duration(d)) == "<1m"
  {
    var one, shown := Duration(d), "<1m";
    assert one[1..] == [];
    assert shown[1..] == "1m" && shown[1..][1..] == "m" && shown[1..][1..][1..] == "";
    assert Escape("m") == "m" + "";
    assert Escape("1m") == "1" + "m";
    assert Escape(shown) == "&lt;" + "1m";
    assert SpansHtml(one) == Escape(shown) + "";
    assert SpansWords(one) == shown + "";
  }

  // ---- the main results ------------------------------------------------------------------------

  lemma SeveritiesAreMarkless(s: string)
    requires IsSeverity(s)
    ensures Markless(s)
  {
  }

  /**
   * For every trade finding, whatever its text fields contain: the body is well nested under
   * the splitter's scanner, and a recipient reads every field verbatim.
   */
  lemma MessageReads(f: Finding, p: Printer)
    requires Markless(f.severity)
    ensures WellNested(Html(Message(f, p))) && Shown(Html(Message(f, p))) == Words(Message(f, p))
  {
    hide Message, Html, WellNested, Shown, Words;
    TrustedMessage(f, p);
    WellNestedHtml(Message(f, p));
    HtmlReads(Message(f, p));
  }

  /** The severity is the one text the header does not escape: a closing tag in it breaks the body. */
  lemma SeverityBreaksNesting(f: Finding, p: Printer)
    requires !Run(Open(["b"]), ToUpper(f.severity)).nested
    ensures !WellNested(Html(Message(f, p)))
  {
    hide Html, Run, ToUpper, Header, Why, TradeBlock, Links, AnalystNote;
    var head := Header(f, p);
    var rest := Why(f, p) + TradeBlock(f, p) + Links(f, p) + AnalystNote(f, p);
    assert Message(f, p) == head + rest;
    HtmlConcat(head, rest);
    var tail := HeaderStart(f, p);
    var front := "<b>" + ToUpper(f.severity);
    assert Html(Message(f, p)) == front + (tail + Html(rest));
    RunConcat(START, "<b>", ToUpper(f.severity));
    SupportedName("b");
    RunToken(START, "b");
    assert [] + ["b"] == ["b"];
    RunConcat(START, front, tail + Html(rest));
    assert "<b>" == "<" + "b" + ">";
    assert Run(START, "<b>") == Open(["b"]);
    assert Run(START, front) == Run(Open(["b"]), ToUpper(f.severity));
    if Run(START, Html(Message(f, p))).nested {
      NestedOnlyFalls(Run(START, front), tail + Html(rest));
    }
  }

  /** One such severity: the header then closes an italic span it never opened. */
  lemma StrayCloserBreaksNesting(f: Finding, p: Printer)
    requires f.severity == "</i>"
    ensures !WellNested(Html(Message(f, p)))
  {
    hide Message, Html;
    var s := "</I>";
    assert ToUpper(f.severity) == s by {
      UpperStrayCloser();
    }
    PlainName("i");
    assert ToLower("I") == "i" && "/I"[1..] == "I" && "/I"[..1] == "/";
    assert s == "<" + "/I" + ">";
    RunToken(Open(["b"]), "/I");
    SeverityBreaksNesting(f, p);
  }

  lemma UpperStrayCloser()
    ensures ToUpper("</i>") == "</I>"
  {
    assert "</i>"[1..] == "/i>" && "/i>"[1..] == "i>" && "i>"[1..] == ">" && ">"[1..] == "";
    assert ToUpper(">") == ">";
    assert ToUpper("i>") == "I>";
    assert ToUpper("/i>") == "/I>";
  }

  lemma HeaderStart(f: Finding, p: Printer) returns (tail: string)
    ensures Html(Header(f, p)) == ("<b>" + ToUpper(f.severity)) + tail
  {
    hide Header, Html, ToUpper;
    var rest := HeaderText(f, p);
    var n, newline := Header(f, p)[0], Header(f, p)[1];
    assert Header(f, p) == [n] + [newline];
    HtmlConcat([n], [newline]);
    OneNode(n);
    OneNode(newline);
    tail := (rest + "</b>") + NodeHtml(newline);
    JoinedTail("<b>", ToUpper(f.severity), rest, "</b>", NodeHtml(newline));
    hide NodeHtml;
  }

  lemma JoinedTail(a: string, b: string, c: string, d: string, e: string)
    ensures (a + (b + c + d)) + e == (a + b) + ((c + d) + e)
  {
  }

  // ---- the severity decides ----------------------------------------------------------------------

  /** Scanning lower-cases tag names, so the case of a text changes nothing but the tag being read. */
  predicate SameCase(s: Scan, t: Scan) {
    s.stack == t.stack && s.nested == t.nested &&
    match s.tag
    case None => t.tag.None?
    case Some(body) => t.tag.Some? && ToLower(body) == ToLower(t.tag.value)
  }

  lemma SlashIsNoLetter(body: string)
    ensures IsClosing(body) <==> IsClosing(ToLower(body))
  {
    if body != [] {
      assert body[..1] == [body[0]] && ToLower(body)[..1] == [Lower(body[0])];
    }
  }

  lemma ApplyCase(stack: seq<string>, nested: bool, a: string, b: string)
    requires ToLower(a) == ToLower(b)
    ensures Apply(stack, nested, a) == Apply(stack, nested, b)
  {
    SlashIsNoLetter(a);
    SlashIsNoLetter(b);
    if IsClosing(a) {
      assert ToLower(a)[1..] == ToLower(a[1..]) && ToLower(b)[1..] == ToLower(b[1..]);
    }
  }

  lemma {:induction false} LowerSnoc(a: string, c: char)
    ensures ToLower(a + [c]) == ToLower(a) + [Lower(c)]
    decreases |a|
  {
    if a == [] {
      var one := [c];
      assert a + one == one && one[1..] == [];
      assert ToLower(one) == [Lower(c)] + ToLower(one[1..]);
    } else {
      assert (a + [c])[1..] == a[1..] + [c];
      LowerSnoc(a[1..], c);
    }
  }

  lemma StepCase(s: Scan, t: Scan, c: char)
    requires SameCase(s, t)
    ensures SameCase(Step(s, Upper(c)), Step(t, c))
  {
    hide ToLower;
    if s.tag.Some? {
      if c == '>' {
        ApplyCase(s.stack, s.nested, s.tag.value, t.tag.value);
      } else {
        LowerSnoc(s.tag.value, Upper(c));
        LowerSnoc(t.tag.value, c);
        assert Lower(Upper(c)) == Lower(c);
      }
    }
  }

  lemma {:induction false} RunCase(s: Scan, t: Scan, text: string)
    requires SameCase(s, t)
    ensures SameCase(Run(s, ToUpper(text)), Run(t, text))
    decreases |text|
  {
    hide Step, SameCase;
    if text != [] {
      StepCase(s, t, text[0]);
      assert ToUpper(text)[1..] == ToUpper(text[1..]);
      RunCase(Step(s, Upper(text[0])), Step(t, text[0]), text[1..]);
    }
  }

  /** What the closing tag of a bold span does. */
  function Close(s: Scan): Scan { Apply(s.stack, s.nested, "/b") }

  lemma CloseMeaning(s: Scan)
    ensures Close(s) == Scan(Pop(s.stack, "b"), None, s.nested && s.stack != [] && s.stack[|s.stack| - 1] == "b")
  {
    SupportedName("b");
    assert "/b" == "/" + "b";
  }

  lemma RunBold(s: Scan, raw: string, tail: string)
    requires s.tag.None? && '<' !in tail && Run(s.(stack := s.stack + ["b"]), raw).tag.None?
    ensures Run(s, "<b>" + (raw + tail + "</b>")) == Close(Run(s.(stack := s.stack + ["b"]), raw))
  {
    hide Run, Apply;
    var inside := s.(stack := s.stack + ["b"]);
    SupportedName("b");
    RunToken(s, "b");
    assert "<b>" == "<" + "b" + ">" && "</b>" == "<" + "/b" + ">";
    assert Apply(s.stack, s.nested, "b") == inside by { OpenB(s); }
    RunConcat(s, "<b>", raw + tail + "</b>");
    RunConcat(inside, raw + tail, "</b>");
    RunConcat(inside, raw, tail);
    var t := Run(inside, raw);
    RunOutside(t, tail);
    assert "/b" == "/" + "b" && '>' !in "/b";
    RunToken(t, "/b");
  }

  lemma OpenB(s: Scan)
    requires s.tag.None?
    ensures Apply(s.stack, s.nested, "b") == s.(stack := s.stack + ["b"])
  {
    SupportedName("b");
  }

  /** The header opens a bold span, reads the severity in it, and closes it. */
  lemma HeaderScan(f: Finding, p: Printer)
    requires Run(Open(["b"]), ToUpper(f.severity)).tag.None?
    ensures Run(START, Html(Header(f, p))) == Close(Run(Open(["b"]), ToUpper(f.severity)))
  {
    hide Run, ToUpper, Html, Apply, Header;
    var tail := HeaderText(f, p);
    var n, newline := Header(f, p)[0], Header(f, p)[1];
    assert Header(f, p) == [n] + [newline];
    HtmlConcat([n], [newline]);
    OneNode(n);
    OneNode(newline);
    assert [] + ["b"] == ["b"];
    RunBold(START, ToUpper(f.severity), tail);
    RunConcat(START, NodeHtml(n), NodeHtml(newline));
    RunNode(Run(START, NodeHtml(n)), newline);
  }

  lemma HeaderText(f: Finding, p: Printer) returns (tail: string)
    ensures |Header(f, p)| == 2 && TrustedNode(Header(f, p)[1]) && '<' !in tail
    ensures NodeHtml(Header(f, p)[0]) == "<b>" + (ToUpper(f.severity) + tail + "</b>")
  {
    hide ToUpper, Escape;
    HeaderPieces(f, p);
    hide ProfitSpans, AmountSpans, HotSpans, TitleSpan;
    var spans := Header(f, p)[0].spans;
    var rest := spans[1..];
    assert spans[0] == Raw(ToUpper(f.severity)) && rest[0] == Lit(": ") && TrustedSpans(rest);
    SpansArePlain(rest);
    tail := SpansHtml(rest);
  }

  lemma HeaderPieces(f: Finding, p: Printer)
    ensures TrustedSpans(ProfitSpans(f, p)) && TrustedSpans(AmountSpans(f, p)) && TrustedSpans(HotSpans(f))
    ensures TrustedSpans(TitleSpan(f))
  {
    hide Money, TradeTitle, Notional;
  }

  /** The line that repeats the severity does the same further down. */
  lemma CappedScan(f: Finding, s: Scan)
    requires s.tag.None? && Run(s.(stack := s.stack + ["b"]), f.severity).tag.None?
    ensures Run(s, Html(CappedLine(f))) == Close(Run(s.(stack := s.stack + ["b"]), f.severity))
  {
    hide Run, Html, Apply;
    var a, n, b := CappedLine(f)[0], CappedLine(f)[1], CappedLine(f)[2];
    assert CappedLine(f) == [a] + ([n] + [b]);
    HtmlConcat([a], [n] + [b]);
    HtmlConcat([n], [b]);
    OneNode(a);
    OneNode(n);
    OneNode(b);
    CappedText(f);
    RunConcat(s, NodeHtml(a), NodeHtml(n) + NodeHtml(b));
    RunNode(s, a);
    RunConcat(s, NodeHtml(n), NodeHtml(b));
    RunBold(s, f.severity, "");
    RunNode(Run(s, NodeHtml(n)), b);
  }

  lemma CappedText(f: Finding)
    ensures var line := CappedLine(f);
      && TrustedNode(line[0]) && TrustedNode(line[2])
      && NodeHtml(line[1]) == "<b>" + (f.severity + "" + "</b>")
  {
    var spans := [Raw(f.severity)];
    assert spans[1..] == [];
    assert SpansHtml(spans) == f.severity + "";
  }

  lemma TagOfSeverity(f: Finding, s: Scan)
    requires s.tag.None? && Run(Open(["b"]), ToUpper(f.severity)).tag.None?
    ensures Run(s, f.severity).tag.None?
  {
    hide Run, ToUpper;
    assert SameCase(Open(["b"]), Open(["b"]));
    RunCase(Open(["b"]), Open(["b"]), f.severity);
    TagIgnoresStack(Open(["b"]), s, f.severity);
  }

  lemma CappedEnds(f: Finding, s: Scan)
    requires s.tag.None? && Run(Open(["b"]), ToUpper(f.severity)).tag.None?
    ensures var inside := s.(stack := s.stack + ["b"]);
      && Run(s, Html(CappedNote(f))) == (if f.severityCapped then Close(Run(inside, f.severity)) else s)
      && Run(s, Html(CappedNote(f))).tag.None?
  {
    hide Run, Html, ToUpper, CappedLine, Apply;
    var inside := s.(stack := s.stack + ["b"]);
    TagOfSeverity(f, inside);
    if f.severityCapped {
      CappedScan(f, s);
      CloseMeaning(Run(inside, f.severity));
    } else {
      EmptyHtml(s);
    }
  }

  lemma EmptyHtml(s: Scan)
    ensures Run(s, Html([])) == s
  {
  }

  lemma EndsOutside(s: Scan, text: string)
    requires text != [] && text[|text| - 1] == '>'
    ensures Run(s, text).tag.None?
  {
    hide Run, Apply;
    var front := text[..|text| - 1];
    assert text == front + ">";
    RunConcat(s, front, ">");
    OneByte(Run(s, front), '>');
  }

  lemma HeaderEnds(f: Finding, p: Printer)
    ensures Run(START, Html(Header(f, p))).tag.None?
  {
    hide Run, ToUpper, Html, Header;
    var tail := HeaderText(f, p);
    var n, newline := Header(f, p)[0], Header(f, p)[1];
    assert Header(f, p) == [n] + [newline];
    HtmlConcat([n], [newline]);
    OneNode(n);
    OneNode(newline);
    EndsOutside(START, NodeHtml(n));
    RunConcat(START, NodeHtml(n), NodeHtml(newline));
    RunNode(Run(START, NodeHtml(n)), newline);
  }

  lemma CappedCloses(f: Finding, s: Scan)
    requires s.tag.None?
    ensures Run(s, Html(CappedNote(f))).tag.None?
  {
    hide Run, Html;
    if f.severityCapped {
      var a, n, b := CappedLine(f)[0], CappedLine(f)[1], CappedLine(f)[2];
      assert CappedLine(f) == [a] + ([n] + [b]);
      HtmlConcat([a], [n] + [b]);
      HtmlConcat([n], [b]);
      OneNode(a);
      OneNode(n);
      OneNode(b);
      CappedText(f);
      RunConcat(s, NodeHtml(a), NodeHtml(n) + NodeHtml(b));
      RunNode(s, a);
      RunConcat(s, NodeHtml(n), NodeHtml(b));
      EndsOutside(s, NodeHtml(n));
      RunNode(Run(s, NodeHtml(n)), b);
    } else {
      EmptyHtml(s);
    }
  }

  /** The rest of the body, whatever it holds, leaves the scan where it stands. */
  lemma BodyScan(f: Finding, p: Printer)
    ensures var s := Run(START, Html(Header(f, p)));
      s.tag.None? && Run(START, Html(Message(f, p))) == Run(s, Html(CappedNote(f)))
  {
    hide Run, Html, Apply, Header, Why, TradeBlock, Links, AnalystNote, CappedNote, WhyBefore, WhyAfter, Fixed, Plain, Trusted;
    var s := Run(START, Html(Header(f, p)));
    HeaderEnds(f, p);
    WhyParts(f, p);
    var before, after := WhyBefore(f, p), WhyAfter(f, p) + TradeBlock(f, p) + Links(f, p) + AnalystNote(f, p);
    assert Message(f, p) == Header(f, p) + (before + (CappedNote(f) + after));
    HtmlConcat(Header(f, p), before + (CappedNote(f) + after));
    HtmlConcat(before, CappedNote(f) + after);
    HtmlConcat(CappedNote(f), after);
    RunConcat(START, Html(Header(f, p)), Html(before) + (Html(CappedNote(f)) + Html(after)));
    RunConcat(s, Html(before), Html(CappedNote(f)) + Html(after));
    RunConcat(s, Html(CappedNote(f)), Html(after));
    TrustedAround(f, p);
    HtmlIsWellNested(s, before);
    CappedCloses(f, s);
    HtmlIsWellNested(Run(s, Html(CappedNote(f))), after);
  }

  /**
   * For every severity, also one that leaves a tag unfinished for the title to finish: the body
   * is well nested exactly if the one or two lines that show the severity are, read in a row.
   */
  lemma SeverityLines(f: Finding, p: Printer)
    ensures WellNested(Html(Message(f, p))) <==> WellNested(Html(Header(f, p)) + Html(CappedNote(f)))
  {
    hide Run, Html, Message, Header, CappedNote;
    BodyScan(f, p);
    RunConcat(START, Html(Header(f, p)), Html(CappedNote(f)));
  }

  lemma TrustedAround(f: Finding, p: Printer)
    ensures Trusted(WhyBefore(f, p))
    ensures Trusted(WhyAfter(f, p) + TradeBlock(f, p) + Links(f, p) + AnalystNote(f, p))
  {
    hide WhyBefore, WhyAfter, TradeBlock, AnalystNote, Heading, LinkLines, Entries, TrustedNode;
    WhyParts(f, p);
    FixedIsPlain(WhyBefore(f, p));
    FixedIsPlain(WhyAfter(f, p));
    PlainTrade(f, p);
    PlainAnalyst(f, p);
    PlainHeading(LINKS);
    TrustedLinks(Entries(f, p));
  }

  /** A bold span that closes without an error had its own tag on top. */
  lemma CloseNested(s: Scan)
    requires Close(s).nested
    ensures s.nested && s.stack != [] && s.stack[|s.stack| - 1] == "b"
    ensures Close(s).stack == s.stack[..|s.stack| - 1]
  {
    CloseMeaning(s);
    assert LastOf(s.stack, "b") == |s.stack| - 1;
    assert s.stack[..|s.stack| - 1] + s.stack[|s.stack|..] == s.stack[..|s.stack| - 1];
  }

  lemma BalancedBody(f: Finding, p: Printer)
    requires Run(Open(["b"]), ToUpper(f.severity)) == Open(["b"])
    ensures WellNested(Html(Message(f, p)))
  {
    hide Run, Html, Message, ToUpper;
    HeaderScan(f, p);
    BodyScan(f, p);
    CloseMeaning(Open(["b"]));
    assert Close(Open(["b"])) == START;
    CappedEnds(f, START);
    assert SameCase(Open(["b"]), Open(["b"]));
    RunCase(Open(["b"]), Open(["b"]), f.severity);
    assert [] + ["b"] == ["b"];
  }

  lemma UnbalancedBody(f: Finding, p: Printer)
    requires Run(Open(["b"]), ToUpper(f.severity)).tag.None? && WellNested(Html(Message(f, p)))
    ensures Run(Open(["b"]), ToUpper(f.severity)) == Open(["b"])
  {
    hide Run, Html, Message, ToUpper, Close, CappedNote;
    var t := Run(Open(["b"]), ToUpper(f.severity));
    HeaderScan(f, p);
    BodyScan(f, p);
    NestedOnlyFalls(Close(t), Html(CappedNote(f)));
    CloseNested(t);
    var below := t.stack[..|t.stack| - 1];
    assert t.stack == below + ["b"];
    CloseMeaning(t);
    CappedEnds(f, Close(t));
    if f.severityCapped {
      assert SameCase(Open(["b"]), Open(["b"]));
      RunCase(Open(["b"]), Open(["b"]), f.severity);
      var v := Run(Open(["b"]), f.severity);
      RunUnder(below, Open(["b"]), f.severity);
      assert Run(Open(below + ["b"]), f.severity) == Under(below, v);
      CloseNested(Under(below, v));
      assert (below + (below + ["b"]))[..|below| + |below|] == below + below;
    }
    assert below == [];
  }

  /**
   * Whatever else the finding holds, the body is well nested exactly if the severity, read in
   * the header's bold span, leaves that span as it found it -- for every severity that does
   * not leave a tag unfinished. The enumerated ones all do.
   */
  lemma SeverityDecides(f: Finding, p: Printer)
    requires Run(Open(["b"]), ToUpper(f.severity)).tag.None?
    ensures WellNested(Html(Message(f, p))) <==> Run(Open(["b"]), ToUpper(f.severity)) == Open(["b"])
  {
    hide Run, Html, Message, ToUpper, WellNested;
    if Run(Open(["b"]), ToUpper(f.severity)) == Open(["b"]) {
      BalancedBody(f, p);
    } else if WellNested(Html(Message(f, p))) {
      UnbalancedBody(f, p);
    }
  }

  lemma EnumeratedSeverities(s: string)
    requires IsSeverity(s)
    ensures Markless(s) && Run(Open(["b"]), ToUpper(s)) == Open(["b"])
  {
    hide Run;
    SeveritiesAreMarkless(s);
    UpperIsMarkless(s);
    RunOutside(Open(["b"]), ToUpper(s));
  }

  // ---- the splitter handles the body ---------------------------------------------------------------

  predicate NoReachableLink(f: Finding, p: Printer) {
    forall i :: 0 <= i < |Entries(f, p)| ==> Entries(f, p)[i].href == ""
  }

  /** No link holds a newline; URL parsing refuses control characters. */
  predicate LineFreeUrls(f: Finding, p: Printer) {
    forall i :: 0 <= i < |Entries(f, p)| ==> '\n' !in Entries(f, p)[i].href
  }

  lemma {:induction false} LinkLinesFit(es: seq<Entry>)
    requires forall i :: 0 <= i < |es| ==> '\n' !in es[i].href
    ensures AllFit(LinkLines(es), RenderedSplit.Lines)
    decreases |es|
  {
    if es != [] {
      LinkLinesFit(es[..|es| - 1]);
    }
  }

  lemma PlainFits(nodes: seq<Node>, mode: Mode)
    requires Plain(nodes) && !mode.Closed?
    ensures AllFit(nodes, mode)
  {
  }

  lemma MessageFits(f: Finding, p: Printer, mode: Mode)
    requires Markless(f.severity)
    requires match mode
      case Strict => NoReachableLink(f, p)
      case Lines => LineFreeUrls(f, p)
      case _ => false
    ensures AllFit(Message(f, p), mode)
  {
    hide Header, Why, TradeBlock, AnalystNote, Heading, Plain, Fits, Entries, Markless, LinkLines;
    PlainSections(f, p);
    PlainFits(Header(f, p), mode);
    PlainFits(Why(f, p), mode);
    PlainFits(TradeBlock(f, p), mode);
    PlainFits(AnalystNote(f, p), mode);
    assert AllFit(Links(f, p), mode) by {
      LinksFit(f, p, mode);
    }
  }

  lemma LinksFit(f: Finding, p: Printer, mode: Mode)
    requires if mode.Strict? then NoReachableLink(f, p) else mode.Lines? && LineFreeUrls(f, p)
    ensures AllFit(Links(f, p), mode)
  {
    hide Entries, LinkLines;
    if AnyLink(Entries(f, p)) {
      LinkLinesFit(Entries(f, p));
    }
  }

  /**
   * The whole way, links included, for every trade alert: the documented discipline splits it
   * into valid parts exactly if every cut lies outside its tags and behind the re-opened ones,
   * the code as written exactly if moreover no span is open at a cut but the last; and then
   * nothing is lost.
   */
  lemma AlertExactly(f: Finding, p: Printer)
    requires Markless(f.severity)
    ensures var body := Html(Message(f, p));
      && (SplitsValidly(body, false) <==> CutProperly(Message(f, p)))
      && (SplitsValidly(body, true) <==> CutProperly(Message(f, p)) && CutClosed(Message(f, p)))
      && forall seeded :: SplitsValidly(body, seeded) ==> SplitsInFull(body, seeded)
  {
    hide *;
    TrustedMessage(f, p);
    RenderedExactly(Message(f, p));
  }

  /**
   * Enough for it: an alert that fits one message, or has no link, or whose links hold no
   * newline and which has a line break in every 983 bytes; and for the code as written,
   * where moreover no newline stands in a bold or code span.
   */
  lemma AlertSplits(f: Finding, p: Printer, mode: Mode)
    requires Markless(f.severity)
    requires NoReachableLink(f, p) || Splittable(Message(f, p), mode)
    ensures SplitsInFull(Html(Message(f, p)), false)
    ensures Splittable(Message(f, p), Closed) ==> SplitsInFull(Html(Message(f, p)), true)
  {
    hide Message, Html, SplitsInFull, AllFit, Trusted, ShortLines, TrimSpace, NoReachableLink, Markless;
    TrustedMessage(f, p);
    if NoReachableLink(f, p) {
      MessageFits(f, p, Strict);
      RenderedBodySplits(Message(f, p), Strict);
    } else {
      RenderedBodySplits(Message(f, p), mode);
    }
    if Splittable(Message(f, p), Closed) {
      RenderedBodySplits(Message(f, p), Closed);
    }
  }
}
