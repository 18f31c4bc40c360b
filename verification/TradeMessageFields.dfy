/**
 * Which external texts a trade alert shows, in what order and behind what wording: all that is
 * said of them, from the finding alone. Everything else in the body is wording, figures and the
 * severity.
 */
module TradeMessageFields {
  import opened TextBytes
  import opened TelegramHtml
  import opened Wording
  import opened GuardPhrases
  import opened TradeMessage
  import opened TradeMessageTheorems

  function NonEmpty(places: seq<Place>): seq<Place> {
    if places == [] then [] else (if places[0].text == "" then [] else [places[0]]) + NonEmpty(places[1..])
  }

  function CategoryPlaces(f: Finding): seq<Place> {
    if f.categoryName.Some? then [Place(AfterBlank, f.categoryName.value)] else []
  }

  function TradePlaces(f: Finding): seq<Place> {
    if f.trade.None? then [] else
      var t := f.trade.value;
      (if t.outcome != "" || t.side != "" then [Place(AfterBold, t.outcome), Place(Elsewhere, t.side)] else [])
      + NonEmpty([Place(Elsewhere, t.wallet)] + CategoryPlaces(f))
  }

  function Line(text: string): Place { Place(AfterBlank, text) }

  function BlockedPlaces(f: Finding): seq<Place> {
    if f.blocked.None? || BlankBlock(f.blocked.value) then [] else
      var b := f.blocked.value;
      NonEmpty([Line(b.status), Line(b.reason), Line(b.catalystType), Line(b.expectedTiming), Line(b.bullish),
                Line(b.bearish), Line(b.invalidation), Line(b.stance)])
  }

  /** The lines trimmed, the first one behind `lead`. */
  function TrimAll(lines: seq<string>, lead: Lead): seq<Place> {
    if lines == [] then [] else [Place(lead, TrimSpace(lines[0]))] + TrimAll(lines[1..], AfterBlank)
  }

  /** The note's lines, trimmed, without the empty ones; the first one has the bullet. */
  function NotePlaces(f: Finding): seq<Place> {
    NonEmpty(TrimAll(SplitLines(TrimSpace(f.analystNote)), AfterBullet))
  }

  function DateOf(a: AnnotationRef, p: Printer): string { if a.at.Some? then p.date(a.at.value) else DASH }

  function AnnotationPlaces(a: AnnotationRef, p: Printer): seq<Place> {
    [Place(AfterBullet, DateOf(a, p)), Place(AfterBold, TrimSpace(a.title))]
    + NonEmpty([Place(Elsewhere, a.outcome), Line(Capped(TrimSpace(a.summary))), Line(a.sourceName)])
  }

  function AllAnnotationPlaces(notes: seq<AnnotationRef>, p: Printer): seq<Place> {
    if notes == [] then [] else AnnotationPlaces(notes[0], p) + AllAnnotationPlaces(notes[1..], p)
  }

  function AnchorOf(e: Entry): seq<Anchor> { if e.href == "" then [] else [Anchor(e.href, e.caption)] }

  function Reachable(es: seq<Entry>): seq<Anchor> {
    if es == [] then [] else AnchorOf(es[0]) + Reachable(es[1..])
  }

  // ---- sequences built from the back are those built from the front --------------------------

  lemma {:induction false} NonEmptyConcat(a: seq<Place>, b: seq<Place>)
    ensures NonEmpty(a + b) == NonEmpty(a) + NonEmpty(b)
    decreases |a|
  {
    if a == [] {
      assert a + b == b;
    } else {
      assert (a + b)[0] == a[0] && (a + b)[1..] == a[1..] + b;
      NonEmptyConcat(a[1..], b);
    }
  }

  lemma {:induction false} TrimAllSnoc(a: seq<string>, lead: Lead, line: string)
    ensures TrimAll(a + [line], lead) == TrimAll(a, lead) + [Place(if a == [] then lead else AfterBlank, TrimSpace(line))]
    decreases |a|
  {
    hide TrimSpace;
    var all := a + [line];
    if a == [] {
      assert all == [line] && [line][1..] == [];
    } else {
      assert all[0] == a[0] && all[1..] == a[1..] + [line];
      TrimAllSnoc(a[1..], AfterBlank, line);
    }
  }

  lemma {:induction false} AnnotationsSnoc(a: seq<AnnotationRef>, n: AnnotationRef, p: Printer)
    ensures AllAnnotationPlaces(a + [n], p) == AllAnnotationPlaces(a, p) + AnnotationPlaces(n, p)
    decreases |a|
  {
    hide AnnotationPlaces;
    var all := a + [n];
    if a == [] {
      assert all == [n] && [n][1..] == [];
    } else {
      assert all[0] == a[0] && all[1..] == a[1..] + [n];
      AnnotationsSnoc(a[1..], n, p);
    }
  }

  lemma {:induction false} ReachableSnoc(a: seq<Entry>, e: Entry)
    ensures Reachable(a + [e]) == Reachable(a) + AnchorOf(e)
    decreases |a|
  {
    hide AnchorOf;
    var all := a + [e];
    if a == [] {
      assert all == [e] && [e][1..] == [];
    } else {
      assert all[0] == a[0] && all[1..] == a[1..] + [e];
      ReachableSnoc(a[1..], e);
    }
  }

  lemma OnePlace(at: Place)
    ensures NonEmpty([at]) == if at.text == "" then [] else [at]
  {
    var one := [at];
    assert one[1..] == [];
    assert NonEmpty(one) == (if at.text == "" then [] else [at]) + [];
  }

  // ---- what single nodes and lines show ---------------------------------------------------------

  /** Nodes that show `places` and hold no anchor. */
  predicate Lists(nodes: seq<Node>, places: seq<Place>) { Places(nodes) == places && Anchors(nodes) == [] }

  /** Every text of them, moreover, stands between wording as GuardPhrases wants it. */
  predicate Shows(nodes: seq<Node>, places: seq<Place>) { Lists(nodes, places) && SpacedNodes(nodes) }

  lemma ListsBoth(a: seq<Node>, x: seq<Place>, b: seq<Node>, y: seq<Place>)
    requires Lists(a, x) && Lists(b, y)
    ensures Lists(a + b, x + y)
  {
    PlacesConcat(a, b);
  }

  lemma ShowsBoth(a: seq<Node>, x: seq<Place>, b: seq<Node>, y: seq<Place>)
    requires Shows(a, x) && Shows(b, y)
    ensures Shows(a + b, x + y)
  {
    hide SpacedNode, Places, Anchors;
    ListsBoth(a, x, b, y);
  }

  lemma ShowsNothing()
    ensures Shows([], [])
  {
  }

  /** Spans without an external text, the severity apart. */
  lemma {:induction false} FixedSpansShow(before: string, last: string, spans: seq<Span>, wrapped: bool)
    requires FixedSpans(spans)
    ensures SpanPlaces(last, spans) == [] && Spaced(before, last, spans, wrapped)
    decreases |spans|
  {
    hide Quiet, Markless, GoodLead, LeadOf;
    if spans != [] {
      match spans[0]
      case Lit(cell) => FixedSpansShow(before + cell, cell, spans[1..], wrapped);
      case Less(rest) => FixedSpansShow(before + ("&lt;" + rest), rest, spans[1..], wrapped);
    }
  }

  lemma FixedNodeShows(n: Node)
    requires FixedNode(n)
    ensures NodePlaces(n) == [] && SpacedNode(n)
  {
    hide Spaced, SpanPlaces;
    FixedSpansShow("", "", n.spans, false);
    FixedSpansShow("<b>", "<b>", n.spans, true);
    FixedSpansShow("<code>", "<code>", n.spans, true);
  }

  lemma {:induction false} FixedShowsNothing(nodes: seq<Node>)
    requires Fixed(nodes)
    ensures Shows(nodes, [])
    decreases |nodes|
  {
    hide NodePlaces, SpacedNode, FixedNode;
    if nodes != [] {
      FixedNodeShows(nodes[0]);
      FixedShowsNothing(nodes[1..]);
      assert !nodes[0].Link? by { NotALink(nodes[0]); }
    }
  }

  lemma NotALink(n: Node)
    requires FixedNode(n)
    ensures !n.Link?
  {
  }

  lemma ShowsNode(n: Node)
    requires !n.Link?
    ensures Lists([n], NodePlaces(n)) && (SpacedNode(n) ==> Shows([n], NodePlaces(n)))
  {
    hide NodePlaces, SpacedNode;
    var one := [n];
    assert one[1..] == [];
    ShowsNothing();
    assert Places(one) == NodePlaces(n) + Places([]) && Anchors(one) == [] + Anchors([]);
  }

  /** The wording an external text usually stands behind. */
  predicate PlainLead(last: string) {
    || last == "<b>" || last == "<code>" || last == BULLET
    || (last != "" && last[|last| - 1] in {'(', '='})
    || (|last| >= 2 && last[|last| - 1] == ' ' && last[|last| - 2] in {':', ' '})
  }

  function LastBefore(last: string, spans: seq<Span>, k: nat): string
    requires k < |spans| && (k > 0 ==> spans[k - 1].Lit?)
  {
    if k == 0 then last else spans[k - 1].cell
  }

  /** Spans with one external text, the `k`-th, between wording. */
  predicate OneText(last: string, spans: seq<Span>, k: nat, wrapped: bool) {
    && k < |spans| && spans[k].Field? && (forall i :: 0 <= i < k ==> spans[i].Lit?)
    && PlainLead(LastBefore(last, spans, k)) && FixedSpans(spans[k + 1..]) && Followed(spans[k..], wrapped)
  }

  lemma {:induction false} OneTextShows(before: string, last: string, spans: seq<Span>, k: nat, wrapped: bool)
    requires OneText(last, spans, k, wrapped) && |last| <= |before| && before[|before| - |last|..] == last
    ensures SpanPlaces(last, spans) == [Place(LeadOf(LastBefore(last, spans, k)), spans[k].text)]
    ensures Spaced(before, last, spans, wrapped)
    decreases k
  {
    hide Quiet, Markless, LeadOf, PlainLead, Followed;
    if k == 0 {
      assert spans[0..] == spans;
      FixedSpansShow("", "", spans[1..], wrapped);
      PlainIsGood(before, last);
    } else {
      var cell := spans[0].cell;
      assert spans[1..][k..] == spans[k + 1..];
      assert spans[1..][k - 1..] == spans[k..];
      assert (before + cell)[|before|..] == cell;
      OneTextShows(before + cell, cell, spans[1..], k - 1, wrapped);
    }
  }

  lemma PlainIsGood(before: string, last: string)
    requires PlainLead(last) && |last| <= |before| && before[|before| - |last|..] == last
    ensures GoodLead(before, last)
  {
  }

  function TagOf(n: Node): string { if n.Bold? then "<b>" else if n.Code? then "<code>" else "" }

  /** A node with one external text between wording. */
  lemma ShowsOne(n: Node, k: nat)
    requires !n.Link? && OneText(TagOf(n), n.spans, k, !n.Text?)
    ensures Shows([n], [Place(LeadOf(LastBefore(TagOf(n), n.spans, k)), n.spans[k].text)])
  {
    hide OneText, Spaced, SpanPlaces, LeadOf;
    var tag := TagOf(n);
    assert tag[|tag| - |tag|..] == tag;
    OneTextShows(tag, tag, n.spans, k, !n.Text?);
    ShowsNode(n);
  }

  lemma ShowsFixedNode(n: Node)
    requires FixedNode(n)
    ensures Shows([n], [])
  {
    hide FixedNode, NodePlaces, SpacedNode;
    FixedNodeShows(n);
    NotALink(n);
    ShowsNode(n);
  }

  // ---- header and Why --------------------------------------------------------------------------------

  /** One external text at the end of a bold span, behind a middle dot. */
  predicate TitleSpans(spans: seq<Span>) {
    var n := |spans|;
    n >= 2 && spans[n - 1].Field? && spans[n - 2] == Lit(MIDDOT) && forall i :: 0 <= i < n - 1 ==> spans[i].Lit? || spans[i].Raw?
  }

  lemma {:induction false} TitlePlace(last: string, spans: seq<Span>)
    requires TitleSpans(spans)
    ensures SpanPlaces(last, spans) == [Place(AfterBlank, spans[|spans| - 1].text)]
    decreases |spans|
  {
    if |spans| == 2 {
      assert spans[1..][0] == spans[1] && spans[1..][1..] == [];
      assert SpanPlaces("", spans[1..][1..]) == [];
      MiddotIsBlank();
    } else {
      TitlePlace(if spans[0].Lit? then spans[0].cell else spans[0].unchecked, spans[1..]);
    }
  }

  lemma MiddotIsBlank()
    ensures LeadOf(MIDDOT) == AfterBlank
  {
    assert MIDDOT[0] != BULLET[0];
  }

  predicate Harmless(s: Span) {
    match s
    case Lit(cell) => true
    case Raw(text) => OwnWording(text) && Markless(text)
    case _ => false
  }

  lemma EndsInText(before: string, last: string, text: string)
    requires GoodLead(before, last)
    ensures Spaced(before, last, [Field(text)], true)
  {
    hide GoodLead;
    var one := [Field(text)];
    assert one[1..] == [] && Spaced("", "", [], true);
  }

  lemma BoldedMore(before: string, text: string)
    requires Bolded(before) && Markless(text)
    ensures Bolded(before + text)
  {
    var more := before + text;
    assert forall i :: 0 <= i < |more| ==> more[i] == if i < |before| then before[i] else text[i - |before|];
    assert more[..2] == before[..2];
  }

  lemma MiddotLead(before: string)
    requires Bolded(before + MIDDOT)
    ensures GoodLead(before + MIDDOT, MIDDOT)
  {
    assert (before + MIDDOT)[|before|..] == MIDDOT;
  }

  lemma {:induction false} TitleSpaced(before: string, last: string, spans: seq<Span>)
    requires TitleSpans(spans) && Bolded(before) && forall i :: 0 <= i < |spans| - 1 ==> Harmless(spans[i])
    ensures Spaced(before, last, spans, true)
    decreases |spans|
  {
    hide Quiet, OwnWording, Bolded, GoodLead, Markless, Followed;
    assert Harmless(spans[0]);
    var text := if spans[0].Lit? then spans[0].cell else spans[0].unchecked;
    BoldedMore(before, text);
    if |spans| == 2 {
      MiddotLead(before);
      assert spans[1..] == [spans[1]];
      EndsInText(before + text, MIDDOT, spans[1].text);
    } else {
      TitleSpaced(before + text, text, spans[1..]);
    }
  }

  lemma {:induction false} UpperAt(s: string, i: nat)
    requires i < |s|
    ensures ToUpper(s)[i] == Upper(s[i])
    decreases i
  {
    if i > 0 {
      UpperAt(s[1..], i - 1);
    }
  }

  predicate IsLetter(c: char) { 'a' <= c <= 'z' || 'A' <= c <= 'Z' || c == ' ' }

  predicate Letters(s: string) { forall i :: 0 <= i < |s| ==> IsLetter(s[i]) }

  lemma LettersAreOwn(s: string)
    requires Letters(s) && Quiet(s)
    ensures OwnWording(s) && Markless(s)
  {
    hide Quiet, Escape;
    EscapeUnescaped(s);
  }

  lemma SeverityIsQuiet(s: string)
    requires IsSeverity(s)
    ensures Quiet(s)
  {
  }

  lemma SeverityIsLetters(s: string)
    requires IsSeverity(s)
    ensures Letters(s)
  {
  }

  lemma SeverityIsWording(s: string)
    requires IsSeverity(s)
    ensures OwnWording(s) && Markless(s)
  {
    hide Quiet, IsSeverity, Letters;
    SeverityIsQuiet(s);
    SeverityIsLetters(s);
    LettersAreOwn(s);
  }

  lemma UpperSeverityIsQuiet(s: string, t: string)
    requires IsSeverity(s) && |t| == |s| && forall i :: 0 <= i < |t| ==> t[i] == Upper(s[i])
    ensures Quiet(t)
  {
  }

  lemma UpperSeverityIsWording(s: string)
    requires IsSeverity(s)
    ensures OwnWording(ToUpper(s)) && Markless(ToUpper(s))
  {
    hide Escape, ToUpper, Quiet, IsSeverity;
    var t := ToUpper(s);
    SeverityIsLetters(s);
    forall i | 0 <= i < |t|
      ensures t[i] == Upper(s[i])
    {
      UpperAt(s, i);
    }
    UpperSeverityIsQuiet(s, t);
    LettersAreOwn(t);
  }

  lemma HeaderLists(f: Finding, p: Printer)
    ensures Lists(Header(f, p), [Place(AfterBlank, TradeTitle(f))])
  {
    hide Money, TradeTitle, Notional, ToUpper, Lists, SpanPlaces, SpacedNode;
    var n, newline := Header(f, p)[0], Header(f, p)[1];
    HeaderShape(f, p);
    TitlePlace("<b>", n.spans);
    ShowsNode(n);
    ShowsFixedNode(newline);
    ListsBoth([n], [Place(AfterBlank, TradeTitle(f))], [newline], []);
    assert Header(f, p) == [n] + [newline];
    assert [Place(AfterBlank, TradeTitle(f))] + [] == [Place(AfterBlank, TradeTitle(f))];
  }

  lemma HeaderShape(f: Finding, p: Printer)
    ensures var spans := Header(f, p)[0].spans;
      && TitleSpans(spans) && spans[|spans| - 1].text == TradeTitle(f)
      && forall i :: 0 <= i < |spans| - 1 ==> spans[i].Lit? || spans[i] == Raw(ToUpper(f.severity))
  {
    hide Money, TradeTitle, Notional, ToUpper;
  }

  lemma HeaderSpaced(f: Finding, p: Printer)
    requires IsSeverity(f.severity)
    ensures SpacedNodes(Header(f, p))
  {
    hide Money, TradeTitle, Notional, ToUpper, Spaced, OwnWording, Markless, TitleSpans;
    var n, newline := Header(f, p)[0], Header(f, p)[1];
    HeaderShape(f, p);
    UpperSeverityIsWording(f.severity);
    assert Bolded("<b>");
    TitleSpaced("<b>", "<b>", n.spans);
    FixedNodeShows(newline);
  }

  lemma CappedLists(f: Finding)
    ensures Lists(CappedNote(f), [])
  {
    hide Lists, NodePlaces, SpacedNode;
    if f.severityCapped {
      var a, n, b := CappedLine(f)[0], CappedLine(f)[1], CappedLine(f)[2];
      ShowsFixedNode(a);
      SeverityShows(f.severity);
      ShowsNode(n);
      ShowsFixedNode(b);
      ListsBoth([a], [], [n], []);
      ListsBoth([a] + [n], [] + [], [b], []);
      assert CappedLine(f) == [a] + [n] + [b];
      var none: seq<Place> := [];
      assert none + none == none;
    } else {
      ShowsNothing();
    }
  }

  lemma SeverityShows(severity: string)
    ensures NodePlaces(Bold([Raw(severity)])) == []
    ensures OwnWording(severity) ==> SpacedNode(Bold([Raw(severity)]))
  {
    hide OwnWording;
    var spans := [Raw(severity)];
    assert spans[1..] == [];
    assert SpanPlaces(severity, []) == [] && Spaced("<b>" + severity, severity, [], true);
    assert SpanPlaces("<b>", spans) == SpanPlaces(severity, spans[1..]);
  }

  lemma CappedSpaced(f: Finding)
    requires IsSeverity(f.severity)
    ensures SpacedNodes(CappedNote(f))
  {
    hide SpacedNode, OwnWording, Markless;
    if f.severityCapped {
      var a, b := CappedLine(f)[0], CappedLine(f)[2];
      SeverityIsWording(f.severity);
      SeverityShows(f.severity);
      FixedNodeShows(a);
      FixedNodeShows(b);
    }
  }

  lemma WhyLists(f: Finding, p: Printer)
    ensures Lists(Why(f, p), [])
  {
    hide Why, WhyBefore, WhyAfter, Fixed, CappedNote, Lists, SpacedNodes;
    WhyParts(f, p);
    FixedShowsNothing(WhyBefore(f, p));
    FixedShowsNothing(WhyAfter(f, p));
    CappedLists(f);
    ListsBoth(WhyBefore(f, p), [], CappedNote(f), []);
    ListsBoth(WhyBefore(f, p) + CappedNote(f), [] + [], WhyAfter(f, p), []);
    var none: seq<Place> := [];
    assert none + none == none;
  }

  /** The Why section holds no external text; with an enumerated severity it is wording throughout. */
  lemma WhyShows(f: Finding, p: Printer)
    requires IsSeverity(f.severity)
    ensures Shows(Why(f, p), [])
  {
    hide Why, WhyBefore, WhyAfter, Fixed, CappedNote, Lists, SpacedNode;
    WhyLists(f, p);
    WhyParts(f, p);
    FixedShowsNothing(WhyBefore(f, p));
    FixedShowsNothing(WhyAfter(f, p));
    CappedSpaced(f);
  }
  // ---- trade -------------------------------------------------------------------------------------

  lemma HeadingShows(title: Cell)
    ensures Shows(Heading(title), [])
  {
    FixedHeading(title);
    FixedShowsNothing(Heading(title));
  }

  lemma FieldLineShows(name: Cell, value: string)
    ensures Shows(FieldLine(name, value), [Line(value)])
    ensures Shows(FieldUnlessEmpty(name, value), NonEmpty([Line(value)]))
  {
    hide Shows, NonEmpty, Quiet, Markless;
    var n := FieldLine(name, value)[0];
    LabelIsBlank();
    assert LastBefore("", n.spans, 3) == ": ";
    ShowsOne(n, 3);
    assert FieldLine(name, value) == [n];
    OnePlace(Line(value));
    ShowsNothing();
  }

  lemma LabelIsBlank()
    ensures LeadOf(": ") == AfterBlank && LeadOf("  ") == AfterBlank && LeadOf("  source: ") == AfterBlank
    ensures LeadOf(BULLET) == AfterBullet && LeadOf("<b>") == AfterBold
    ensures LeadOf("<code>") == Elsewhere && LeadOf(" (") == Elsewhere && LeadOf("outcome=") == Elsewhere
  {
    assert "  source: "[0] != BULLET[0] && "  "[0] != BULLET[0] && ": "[0] != BULLET[0];
  }

  lemma OutcomeShows(t: TradeRef)
    ensures Shows(Outcome(t),
      if t.outcome != "" || t.side != "" then [Place(AfterBold, t.outcome), Place(Elsewhere, t.side)] else [])
  {
    hide Shows, Quiet, Markless;
    var line := OutcomeLine(t);
    var o, side := Place(AfterBold, t.outcome), Place(Elsewhere, t.side);
    LabelIsBlank();
    ShowsFixedNode(line[0]);
    ShowsOne(line[1], 0);
    ShowsOne(line[2], 1);
    ShowsBoth([line[0]], [], [line[1]], [o]);
    ShowsBoth([line[0]] + [line[1]], [] + [o], [line[2]], [side]);
    assert line == [line[0]] + [line[1]] + [line[2]];
    assert [] + [o] + [side] == [o, side];
    ShowsNothing();
  }

  lemma WalletShows(t: TradeRef)
    ensures Shows(Wallet(t), NonEmpty([Place(Elsewhere, t.wallet)]))
  {
    hide Shows, NonEmpty, Quiet, Markless;
    var line := WalletLine(t);
    var w := Place(Elsewhere, t.wallet);
    LabelIsBlank();
    ShowsFixedNode(line[0]);
    ShowsOne(line[1], 0);
    ShowsFixedNode(line[2]);
    ShowsBoth([line[0]], [], [line[1]], [w]);
    ShowsBoth([line[0]] + [line[1]], [] + [w], [line[2]], []);
    assert line == [line[0]] + [line[1]] + [line[2]];
    assert [] + [w] + [] == [w];
    OnePlace(w);
    ShowsNothing();
  }

  lemma FixedTradeLines(t: TradeRef, p: Printer)
    ensures Shows(SizeLine(t, p), []) && Shows(TimeLine(t, p), [])
  {
    hide Money, Shows, Quiet, Markless;
    FixedShowsNothing(SizeLine(t, p));
    FixedShowsNothing(TimeLine(t, p));
  }

  lemma CategoryShows(f: Finding)
    ensures Shows(Category(f), NonEmpty(CategoryPlaces(f)))
  {
    hide FieldLine, Shows;
    ShowsNothing();
    if f.categoryName.Some? {
      FieldLineShows(CATEGORY, f.categoryName.value);
    }
  }

  lemma TradeShows(f: Finding, p: Printer)
    ensures Shows(TradeBlock(f, p), TradePlaces(f))
  {
    hide Heading, Outcome, SizeLine, Wallet, Category, TimeLine, Shows, NonEmpty;
    if f.trade.None? {
      ShowsNothing();
    } else {
      var t := f.trade.value;
      var first := if t.outcome != "" || t.side != "" then [Place(AfterBold, t.outcome), Place(Elsewhere, t.side)] else [];
      HeadingShows(TRADE);
      OutcomeShows(t);
      FixedTradeLines(t, p);
      WalletShows(t);
      CategoryShows(f);
      NonEmptyConcat([Place(Elsewhere, t.wallet)], CategoryPlaces(f));
      var w, c := NonEmpty([Place(Elsewhere, t.wallet)]), NonEmpty(CategoryPlaces(f));
      ShowsBoth(Heading(TRADE), [], Outcome(t), first);
      ShowsBoth(Heading(TRADE) + Outcome(t), [] + first, SizeLine(t, p), []);
      ShowsBoth(Heading(TRADE) + Outcome(t) + SizeLine(t, p), [] + first + [], Wallet(t), w);
      ShowsBoth(Heading(TRADE) + Outcome(t) + SizeLine(t, p) + Wallet(t), [] + first + [] + w, Category(f), c);
      ShowsBoth(Heading(TRADE) + Outcome(t) + SizeLine(t, p) + Wallet(t) + Category(f), [] + first + [] + w + c,
        TimeLine(t, p), []);
      assert [] + first + [] + w + c + [] == first + (w + c);
    }
  }

  // ---- links ---------------------------------------------------------------------------------------

  lemma LinkLineShows(e: Entry)
    requires OwnWording(e.caption)
    ensures Places(LinkLine(e)) == [] && Anchors(LinkLine(e)) == [Anchor(e.href, e.caption)] && SpacedNodes(LinkLine(e))
  {
    hide Quiet, Markless, OwnWording;
    var line := LinkLine(e);
    var tail := line[1..];
    assert tail[1..] == [line[2]] && line[2..] == [line[2]];
    ShowsFixedNode(line[0]);
    ShowsFixedNode(line[2]);
    FixedNodeShows(line[0]);
    assert Places(line) == NodePlaces(line[0]) + Places(tail) && Places(tail) == [] + Places(tail[1..]);
    assert Anchors(line) == [] + Anchors(tail) && Anchors(tail) == [Anchor(e.href, e.caption)] + Anchors(tail[1..]);
  }

  predicate Captioned(es: seq<Entry>) { forall i :: 0 <= i < |es| ==> OwnWording(es[i].caption) }

  lemma {:induction false} LinkLinesShow(es: seq<Entry>)
    requires Captioned(es)
    ensures Places(LinkLines(es)) == [] && Anchors(LinkLines(es)) == Reachable(es) && SpacedNodes(LinkLines(es))
    decreases |es|
  {
    hide LinkLine, Places, Anchors, OwnWording, SpacedNode;
    if es == [] {
      ShowsNothing();
    } else {
      var front, last := es[..|es| - 1], es[|es| - 1];
      LinkLinesShow(front);
      LinkLineShows(last);
      ShowsNothing();
      PlacesConcat(LinkLines(front), if last.href == "" then [] else LinkLine(last));
      ReachableSnoc(front, last);
      assert es == front + [last];
    }
  }

  lemma {:induction false} NoneReachable(es: seq<Entry>)
    requires !AnyLink(es)
    ensures Reachable(es) == []
    decreases |es|
  {
    if es != [] {
      assert forall i :: 0 <= i < |es[1..]| ==> es[1..][i] == es[i + 1];
      NoneReachable(es[1..]);
    }
  }

  lemma CaptionsAreWording(f: Finding, p: Printer)
    ensures Captioned(Entries(f, p))
  {
    hide SanitizeLinkURL, Escape;
    MarketCaption();
    CategoryCaption();
    ShortCaptions();
  }

  lemma MarketCaption()
    ensures OwnWording("Polymarket market")
  {
    hide Escape;
    QuietConcat("Polymarket", " market");
    assert "Polymarket market" == "Polymarket" + " market";
    LettersAreOwn("Polymarket market");
  }

  lemma CategoryCaption()
    ensures OwnWording("Polymarket category")
  {
    hide Escape;
    QuietConcat("Polymarket", " category");
    assert "Polymarket category" == "Polymarket" + " category";
    LettersAreOwn("Polymarket category");
  }

  lemma ShortCaptions()
    ensures OwnWording("Trader") && OwnWording("Grafana")
  {
    hide Escape;
    LettersAreOwn("Trader");
    LettersAreOwn("Grafana");
  }

  lemma LinksShow(f: Finding, p: Printer)
    ensures Places(Links(f, p)) == [] && Anchors(Links(f, p)) == Reachable(Entries(f, p)) && SpacedNodes(Links(f, p))
  {
    hide Entries, LinkLines, Heading, Reachable, Places, Anchors, AnyLink, Captioned, SpacedNode;
    if AnyLink(Entries(f, p)) {
      HeadingShows(LINKS);
      CaptionsAreWording(f, p);
      LinkLinesShow(Entries(f, p));
      PlacesConcat(Heading(LINKS), LinkLines(Entries(f, p)));
    } else {
      NoneReachable(Entries(f, p));
      ShowsNothing();
    }
  }

  // ---- blocked alert, note and annotations ----------------------------------------------------------

  /** Field lines one after the other show the texts that are not empty. */
  lemma NextField(doc: seq<Node>, texts: seq<Place>, name: Cell, value: string)
    requires Shows(doc, NonEmpty(texts))
    ensures Shows(doc + FieldUnlessEmpty(name, value), NonEmpty(texts + [Line(value)]))
  {
    hide Shows, FieldUnlessEmpty, NonEmpty;
    FieldLineShows(name, value);
    NonEmptyConcat(texts, [Line(value)]);
    ShowsBoth(doc, NonEmpty(texts), FieldUnlessEmpty(name, value), NonEmpty([Line(value)]));
  }

  lemma BlockedStatusShows(b: BlockedAlert)
    ensures Shows(BlockedStatus(b), NonEmpty([Line(b.status)] + [Line(b.reason)] + [Line(b.catalystType)] + [Line(b.expectedTiming)]))
  {
    hide Shows, FieldUnlessEmpty, NonEmpty;
    FieldLineShows(STATUS, b.status);
    NextField(FieldUnlessEmpty(STATUS, b.status), [Line(b.status)], REASON, b.reason);
    var doc := FieldUnlessEmpty(STATUS, b.status) + FieldUnlessEmpty(REASON, b.reason);
    NextField(doc, [Line(b.status)] + [Line(b.reason)], CATALYST_TYPE, b.catalystType);
    doc := doc + FieldUnlessEmpty(CATALYST_TYPE, b.catalystType);
    NextField(doc, [Line(b.status)] + [Line(b.reason)] + [Line(b.catalystType)], EXPECTED_TIMING, b.expectedTiming);
  }

  lemma BlockedScenariosShow(b: BlockedAlert)
    ensures Shows(BlockedScenarios(b), NonEmpty([Line(b.bullish)] + [Line(b.bearish)] + [Line(b.invalidation)] + [Line(b.stance)]))
  {
    hide Shows, FieldUnlessEmpty, NonEmpty;
    FieldLineShows(BULLISH, b.bullish);
    NextField(FieldUnlessEmpty(BULLISH, b.bullish), [Line(b.bullish)], BEARISH, b.bearish);
    var doc := FieldUnlessEmpty(BULLISH, b.bullish) + FieldUnlessEmpty(BEARISH, b.bearish);
    NextField(doc, [Line(b.bullish)] + [Line(b.bearish)], INVALIDATION, b.invalidation);
    doc := doc + FieldUnlessEmpty(INVALIDATION, b.invalidation);
    NextField(doc, [Line(b.bullish)] + [Line(b.bearish)] + [Line(b.invalidation)], STANCE, b.stance);
  }

  lemma BlockedShows(f: Finding)
    ensures Shows(Blocked(f), BlockedPlaces(f))
  {
    hide Shows, BlockedStatus, BlockedScenarios, NonEmpty, Heading, BlankBlock;
    if f.blocked.None? || BlankBlock(f.blocked.value) {
      ShowsNothing();
    } else {
      var b := f.blocked.value;
      var x, y := [Line(b.status)] + [Line(b.reason)] + [Line(b.catalystType)] + [Line(b.expectedTiming)],
        [Line(b.bullish)] + [Line(b.bearish)] + [Line(b.invalidation)] + [Line(b.stance)];
      HeadingShows(BLOCKED_ALERT);
      BlockedStatusShows(b);
      BlockedScenariosShow(b);
      ShowsBoth(Heading(BLOCKED_ALERT), [], BlockedStatus(b), NonEmpty(x));
      ShowsBoth(Heading(BLOCKED_ALERT) + BlockedStatus(b), [] + NonEmpty(x), BlockedScenarios(b), NonEmpty(y));
      NonEmptyConcat(x, y);
      assert x + y == [Line(b.status), Line(b.reason), Line(b.catalystType), Line(b.expectedTiming), Line(b.bullish),
        Line(b.bearish), Line(b.invalidation), Line(b.stance)];
      assert [] + NonEmpty(x) + NonEmpty(y) == NonEmpty(x) + NonEmpty(y);
    }
  }

  function NotePlace(i: nat, raw: string): Place { Place(if i == 0 then AfterBullet else AfterBlank, TrimSpace(raw)) }

  lemma NoteLineShows(i: nat, raw: string)
    ensures Shows(NoteLine(i, raw), NonEmpty([NotePlace(i, raw)]))
  {
    hide TrimSpace, Shows, NonEmpty, Quiet, Markless;
    OnePlace(NotePlace(i, raw));
    if TrimSpace(raw) == "" {
      ShowsNothing();
    } else {
      LabelIsBlank();
      ShowsOne(NoteLine(i, raw)[0], 1);
      assert NoteLine(i, raw) == [NoteLine(i, raw)[0]];
    }
  }

  lemma {:induction false} NoteLinesShow(lines: seq<string>)
    ensures Shows(NoteLines(lines), NonEmpty(TrimAll(lines, AfterBullet)))
    decreases |lines|
  {
    hide NoteLine, Shows, TrimSpace, NonEmpty;
    if lines == [] {
      ShowsNothing();
      NothingLeft();
    } else {
      var n := |lines| - 1;
      NoteLinesShow(lines[..n]);
      NoteLineShows(n, lines[n]);
      TrimAllSnoc(lines[..n], AfterBullet, lines[n]);
      NonEmptyConcat(TrimAll(lines[..n], AfterBullet), [NotePlace(n, lines[n])]);
      ShowsBoth(NoteLines(lines[..n]), NonEmpty(TrimAll(lines[..n], AfterBullet)), NoteLine(n, lines[n]),
        NonEmpty([NotePlace(n, lines[n])]));
      assert lines == lines[..n] + [lines[n]];
    }
  }

  lemma NothingLeft()
    ensures NonEmpty([]) == []
  {
  }

  lemma AnalysisShows(f: Finding)
    ensures Shows(Analysis(f), NotePlaces(f))
  {
    hide Shows, NoteLines, SplitLines, Heading, NonEmpty, TrimAll, TrimSpace;
    var note := TrimSpace(f.analystNote);
    if note == "" {
      EmptyNote();
      ShowsNothing();
    } else {
      HeadingShows(AI_ANALYSIS);
      NoteLinesShow(SplitLines(note));
      ShowsBoth(Heading(AI_ANALYSIS), [], NoteLines(SplitLines(note)), NotePlaces(f));
      assert [] + NotePlaces(f) == NotePlaces(f);
    }
  }

  lemma EmptyNote()
    ensures NonEmpty(TrimAll(SplitLines(""), AfterBullet)) == []
  {
    assert SplitLines("") == [""];
    var one := [""];
    assert one[1..] == [];
    assert TrimAll(one, AfterBullet) == [Place(AfterBullet, TrimSpace(""))] + [];
    assert TrimSpace("") == "";
  }

  lemma DateIsWording(a: AnnotationRef, p: Printer)
    ensures OwnWording(DateOf(a, p))
  {
    hide Escape;
    assert forall i :: 0 <= i < |DASH| ==> EscapeByte(DASH[i]) == [DASH[i]];
    EscapeUnescaped(DASH);
    if a.at.Some? {
      EscapeUnescaped(p.date(a.at.value));
    }
  }

  /** A date with a middle dot behind it. */
  lemma DateSpans(before: string, date: string)
    requires OwnWording(date)
    ensures var spans := [Field(date), Lit(MIDDOT)];
      SpanPlaces(BULLET, spans) == [Place(AfterBullet, date)] && Spaced(before, BULLET, spans, false)
  {
    hide OwnWording, GoodLead, Quiet, Markless;
    var spans, dot := [Field(date), Lit(MIDDOT)], [Lit(MIDDOT)];
    assert spans[1..] == dot;
    FixedSpansShow("", "", dot, false);
    FixedSpansShow(before + date, "", dot, false);
    LabelIsBlank();
    MiddotGoesOn();
  }

  lemma MiddotGoesOn()
    ensures MIDDOT != "" && !Stops(MIDDOT[0])
  {
  }

  lemma DateNode(date: string)
    requires OwnWording(date)
    ensures Shows([Text([Lit(BULLET), Field(date), Lit(MIDDOT)])], [Place(AfterBullet, date)])
  {
    hide OwnWording, Shows, Quiet, Markless, LeadOf;
    var spans := [Lit(BULLET), Field(date), Lit(MIDDOT)];
    assert spans[1..] == [Field(date), Lit(MIDDOT)];
    DateSpans("" + BULLET, date);
    assert Spaced("", "", spans, false) && SpanPlaces("", spans) == SpanPlaces(BULLET, spans[1..]);
    ShowsNode(Text(spans));
  }

  lemma AnnotationHeadShows(a: AnnotationRef, p: Printer)
    ensures Shows(AnnotationHead(a, p), [Place(AfterBullet, DateOf(a, p)), Place(AfterBold, TrimSpace(a.title))])
  {
    hide TrimSpace, Shows, Quiet, Markless, OwnWording;
    var line := AnnotationHead(a, p);
    var date, title := Place(AfterBullet, DateOf(a, p)), Place(AfterBold, TrimSpace(a.title));
    DateIsWording(a, p);
    DateNode(DateOf(a, p));
    LabelIsBlank();
    ShowsOne(line[1], 0);
    ShowsBoth([line[0]], [date], [line[1]], [title]);
    assert line == [line[0]] + [line[1]];
    assert [date] + [title] == [date, title];
  }

  lemma PriceMoveShows(a: AnnotationRef, p: Printer)
    ensures Shows(PriceMove(a, p), [])
  {
    hide Shows, Quiet, Markless;
    FixedShowsNothing(PriceMove(a, p));
  }

  lemma OutcomeMarkShows(a: AnnotationRef)
    ensures Shows(OutcomeMark(a), NonEmpty([Place(Elsewhere, a.outcome)]))
  {
    hide Shows, NonEmpty, Quiet, Markless;
    OnePlace(Place(Elsewhere, a.outcome));
    var n := OutcomeMark(a)[0];
    assert OutcomeMark(a) == [n];
    if a.outcome == "" {
      ShowsFixedNode(n);
    } else {
      LabelIsBlank();
      ShowsOne(n, 2);
    }
  }

  lemma AnnotationTailShows(a: AnnotationRef)
    ensures Shows(SourceLine(a), NonEmpty([Line(a.sourceName)]))
    ensures Shows(SummaryLine(a), NonEmpty([Line(Capped(TrimSpace(a.summary)))]))
  {
    hide TrimSpace, Shows, NonEmpty, Quiet, Markless;
    var summary := Capped(TrimSpace(a.summary));
    OnePlace(Line(a.sourceName));
    OnePlace(Line(summary));
    ShowsNothing();
    LabelIsBlank();
    if a.sourceName != "" {
      ShowsOne(SourceLine(a)[0], 1);
      assert SourceLine(a) == [SourceLine(a)[0]];
    }
    if TrimSpace(a.summary) != "" {
      ShowsOne(SummaryLine(a)[0], 1);
      assert SummaryLine(a) == [SummaryLine(a)[0]];
    }
  }

  lemma AnnotationShows(a: AnnotationRef, p: Printer)
    ensures Shows(Annotation(a, p), AnnotationPlaces(a, p))
  {
    hide AnnotationHead, PriceMove, OutcomeMark, SummaryLine, SourceLine, Shows, NonEmpty, TrimSpace, Capped;
    var head := [Place(AfterBullet, DateOf(a, p)), Place(AfterBold, TrimSpace(a.title))];
    var o, m, r := [Place(Elsewhere, a.outcome)], [Line(Capped(TrimSpace(a.summary)))], [Line(a.sourceName)];
    AnnotationHeadShows(a, p);
    PriceMoveShows(a, p);
    OutcomeMarkShows(a);
    AnnotationTailShows(a);
    ShowsBoth(AnnotationHead(a, p), head, PriceMove(a, p), []);
    ShowsBoth(AnnotationHead(a, p) + PriceMove(a, p), head + [], OutcomeMark(a), NonEmpty(o));
    var doc, texts := AnnotationHead(a, p) + PriceMove(a, p) + OutcomeMark(a), head + [] + NonEmpty(o);
    ShowsBoth(doc, texts, SummaryLine(a), NonEmpty(m));
    ShowsBoth(doc + SummaryLine(a), texts + NonEmpty(m), SourceLine(a), NonEmpty(r));
    NonEmptyConcat(o, m);
    NonEmptyConcat(o + m, r);
    assert o + m + r == [Place(Elsewhere, a.outcome), Line(Capped(TrimSpace(a.summary))), Line(a.sourceName)];
    assert texts + NonEmpty(m) + NonEmpty(r) == head + (NonEmpty(o) + NonEmpty(m) + NonEmpty(r));
  }

  lemma {:induction false} AnnotationLinesShow(notes: seq<AnnotationRef>, p: Printer)
    ensures Shows(AnnotationLines(notes, p), AllAnnotationPlaces(notes, p))
    decreases |notes|
  {
    hide Annotation, AnnotationPlaces, Shows;
    if notes == [] {
      ShowsNothing();
    } else {
      var front, last := notes[..|notes| - 1], notes[|notes| - 1];
      AnnotationLinesShow(front, p);
      AnnotationShows(last, p);
      AnnotationsSnoc(front, last, p);
      ShowsBoth(AnnotationLines(front, p), AllAnnotationPlaces(front, p), Annotation(last, p), AnnotationPlaces(last, p));
      assert notes == front + [last];
    }
  }

  lemma AnnotationsShow(f: Finding, p: Printer)
    ensures Shows(Annotations(f, p), AllAnnotationPlaces(FirstThree(f.recentAnnotations), p))
  {
    hide AnnotationLines, AllAnnotationPlaces, Shows, Heading;
    var notes := FirstThree(f.recentAnnotations);
    AnnotationLinesShow(notes, p);
    if f.recentAnnotations == [] {
      assert AnnotationLines([], p) == [] by {
        NoAnnotations(p);
      }
    } else {
      HeadingShows(ANNOTATIONS);
      ShowsBoth(Heading(ANNOTATIONS), [], AnnotationLines(notes, p), AllAnnotationPlaces(notes, p));
      assert [] + AllAnnotationPlaces(notes, p) == AllAnnotationPlaces(notes, p);
    }
  }

  lemma NoAnnotations(p: Printer)
    ensures AnnotationLines([], p) == []
  {
  }

  // ---- the whole alert --------------------------------------------------------------------------------

  /** The external texts of a trade alert, in the order in which it shows them, each with what stands before it. */
  function AlertPlaces(f: Finding, p: Printer): seq<Place> {
    [Place(AfterBlank, TradeTitle(f))] + TradePlaces(f) + BlockedPlaces(f) + NotePlaces(f)
    + AllAnnotationPlaces(FirstThree(f.recentAnnotations), p)
  }

  /**
   * A trade alert shows its title, the trade's outcome, side, wallet and category, the blocked
   * payload, the analyst note and at most three annotations, in this order and each exactly
   * once, nothing when empty; its anchors are the reachable ones of the four links.
   */
  lemma MessageShows(f: Finding, p: Printer)
    ensures Places(Message(f, p)) == AlertPlaces(f, p) && Anchors(Message(f, p)) == Reachable(Entries(f, p))
  {
    hide Header, Why, TradeBlock, Links, Blocked, Analysis, Annotations, Places, Anchors, Reachable, Entries, SpacedNodes;
    hide TradeTitle, TradePlaces, BlockedPlaces, NotePlaces, AllAnnotationPlaces;
    HeaderLists(f, p);
    WhyLists(f, p);
    TradeShows(f, p);
    LinksShow(f, p);
    BlockedShows(f);
    AnalysisShows(f);
    AnnotationsShow(f, p);
    PlacesConcat(Header(f, p), Why(f, p));
    PlacesConcat(Header(f, p) + Why(f, p), TradeBlock(f, p));
    PlacesConcat(Header(f, p) + Why(f, p) + TradeBlock(f, p), Links(f, p));
    PlacesConcat(Header(f, p) + Why(f, p) + TradeBlock(f, p) + Links(f, p), AnalystNote(f, p));
    PlacesConcat(Blocked(f), Analysis(f));
    PlacesConcat(Blocked(f) + Analysis(f), Annotations(f, p));
  }

  /** With an enumerated severity all the rest is the renderer's own wording, figures included. */
  lemma MessageSpaced(f: Finding, p: Printer)
    requires IsSeverity(f.severity)
    ensures SpacedNodes(Message(f, p))
  {
    hide Header, Why, TradeBlock, Links, Blocked, Analysis, Annotations, Lists, SpacedNode;
    hide TradePlaces, BlockedPlaces, NotePlaces, AllAnnotationPlaces;
    HeaderSpaced(f, p);
    WhyShows(f, p);
    TradeShows(f, p);
    LinksShow(f, p);
    BlockedShows(f);
    AnalysisShows(f);
    AnnotationsShow(f, p);
  }
}
