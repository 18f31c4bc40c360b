/**
 * A trade alert as the list of everything it prints, label by label and figure by figure: told
 * from the finding and the source's format strings alone, apart from the functions that build
 * the document (internal/infra/alerting/telegram.go, lines 398-441, 462-662, 704-868 and 888-1024).
 */
module TradeMessageText {
  import opened Optional
  import opened TextBytes
  import opened TelegramHtml
  import opened TradeMessage
  import TradeIngest

  // ---- documents as lists of pieces ----------------------------------------------------

  function Cat(pieces: seq<string>): string { if pieces == [] then "" else pieces[0] + Cat(pieces[1..]) }

  function SpanPieces(spans: seq<Span>): seq<string> { seq(|spans|, i requires 0 <= i < |spans| => SpanHtml(spans[i])) }

  function NodePieces(n: Node): seq<string> {
    match n
    case Text(spans) => SpanPieces(spans)
    case Bold(spans) => ["<b>"] + SpanPieces(spans) + ["</b>"]
    case Code(spans) => ["<code>"] + SpanPieces(spans) + ["</code>"]
    case Link(href, caption) => ["<a href=\"", Escape(href), "\">", Escape(caption), "</a>"]
  }

  function Pieces(nodes: seq<Node>): seq<string> {
    if nodes == [] then [] else NodePieces(nodes[0]) + Pieces(nodes[1..])
  }

  lemma {:induction false} CatConcat(a: seq<string>, b: seq<string>)
    ensures Cat(a + b) == Cat(a) + Cat(b)
    decreases |a|
  {
    if a == [] {
      assert a + b == b;
    } else {
      assert (a + b)[0] == a[0] && (a + b)[1..] == a[1..] + b;
      CatConcat(a[1..], b);
    }
  }

  lemma {:induction false} CatSpans(spans: seq<Span>)
    ensures Cat(SpanPieces(spans)) == SpansHtml(spans)
    decreases |spans|
  {
    if spans != [] {
      assert SpanPieces(spans)[1..] == SpanPieces(spans[1..]);
      CatSpans(spans[1..]);
    }
  }

  lemma CatOne(s: string)
    ensures Cat([s]) == s
  {
    assert [s][1..] == [];
  }

  lemma CatWrapped(open: string, spans: seq<Span>, close: string)
    ensures Cat([open] + SpanPieces(spans) + [close]) == open + (SpansHtml(spans) + close)
  {
    hide Cat;
    CatSpans(spans);
    CatConcat([open] + SpanPieces(spans), [close]);
    CatConcat([open], SpanPieces(spans));
    CatOne(open);
    CatOne(close);
  }

  lemma CatFive(a: string, b: string, c: string, d: string, e: string)
    ensures Cat([a, b, c, d, e]) == a + (b + (c + (d + e)))
  {
    assert [a, b, c, d, e][1..] == [b, c, d, e] && [b, c, d, e][1..] == [c, d, e];
    assert [c, d, e][1..] == [d, e] && [d, e][1..] == [e];
    CatOne(e);
    assert Cat([c, d, e]) == c + (d + e);
  }

  lemma AnchorHead(e: string)
    ensures "<" + ("a href=\"" + e + "\"") + ">" == "<a href=\"" + (e + "\">")
  {
    var open, quote := "a href=\"", "\"";
    assert "<" + open == "<a href=\"" && quote + ">" == "\">";
    assert "<" + (open + e + quote) + ">" == ("<" + open) + (e + (quote + ">"));
  }

  lemma AnchorTail(c: string)
    ensures c + ("<" + "/a" + ">") == c + "</a>"
  {
    assert "<" + "/a" + ">" == "</a>";
  }

  lemma FourParts(a: string, e: string, q: string, rest: string)
    ensures a + (e + (q + rest)) == (a + (e + q)) + rest
  {
  }

  lemma CatLink(href: string, caption: string)
    ensures Cat(NodePieces(Link(href, caption))) == NodeHtml(Link(href, caption))
  {
    hide Cat, Escape;
    var e, c := Escape(href), Escape(caption);
    CatFive("<a href=\"", e, "\">", c, "</a>");
    AnchorHead(e);
    AnchorTail(c);
    FourParts("<a href=\"", e, "\">", c + "</a>");
  }

  lemma CatNode(n: Node)
    ensures Cat(NodePieces(n)) == NodeHtml(n)
  {
    hide Cat;
    match n
    case Text(spans) => CatSpans(spans);
    case Bold(spans) =>
      CatWrapped("<b>", spans, "</b>");
      assert "<" + "b" + ">" == "<b>" && "<" + "/b" + ">" == "</b>";
    case Code(spans) =>
      CatWrapped("<code>", spans, "</code>");
      assert "<" + "code" + ">" == "<code>" && "<" + "/code" + ">" == "</code>";
    case Link(href, caption) => CatLink(href, caption);
  }

  /** The HTML of a document is its pieces one after another. */
  lemma {:induction false} CatPieces(nodes: seq<Node>)
    ensures Html(nodes) == Cat(Pieces(nodes))
    decreases |nodes|
  {
    if nodes != [] {
      CatNode(nodes[0]);
      CatPieces(nodes[1..]);
      CatConcat(NodePieces(nodes[0]), Pieces(nodes[1..]));
    }
  }

  lemma {:induction false} PiecesConcat(a: seq<Node>, b: seq<Node>)
    ensures Pieces(a + b) == Pieces(a) + Pieces(b)
    decreases |a|
  {
    hide NodePieces;
    if a == [] {
      assert a + b == b;
    } else {
      assert (a + b)[0] == a[0] && (a + b)[1..] == a[1..] + b;
      PiecesConcat(a[1..], b);
    }
  }

  lemma OneNode(n: Node)
    ensures Pieces([n]) == NodePieces(n)
  {
    assert [n][1..] == [];
  }

  lemma Cons(n: Node, rest: seq<Node>)
    ensures Pieces([n] + rest) == NodePieces(n) + Pieces(rest)
  {
    PiecesConcat([n], rest);
    OneNode(n);
  }

  lemma TwoNodes(a: Node, b: Node)
    ensures Pieces([a, b]) == NodePieces(a) + NodePieces(b)
  {
    hide NodePieces, Pieces;
    Cons(a, [b]);
    OneNode(b);
    assert [a] + [b] == [a, b];
  }

  lemma ThreeNodes(a: Node, b: Node, c: Node)
    ensures Pieces([a, b, c]) == NodePieces(a) + NodePieces(b) + NodePieces(c)
  {
    hide NodePieces, Pieces;
    Cons(a, [b, c]);
    TwoNodes(b, c);
    assert [a] + [b, c] == [a, b, c];
  }

  lemma FourNodes(a: Node, b: Node, c: Node, d: Node)
    ensures Pieces([a, b, c, d]) == NodePieces(a) + NodePieces(b) + NodePieces(c) + NodePieces(d)
  {
    hide NodePieces, Pieces;
    Cons(a, [b, c, d]);
    ThreeNodes(b, c, d);
    assert [a] + [b, c, d] == [a, b, c, d];
  }

  lemma FourOf(n: seq<Node>)
    requires |n| == 4
    ensures Pieces(n) == NodePieces(n[0]) + NodePieces(n[1]) + NodePieces(n[2]) + NodePieces(n[3])
  {
    hide NodePieces, Pieces;
    FourNodes(n[0], n[1], n[2], n[3]);
    assert n == [n[0], n[1], n[2], n[3]];
  }

  lemma FiveOf(n: seq<Node>)
    requires |n| == 5
    ensures Pieces(n) == NodePieces(n[0]) + NodePieces(n[1]) + NodePieces(n[2]) + NodePieces(n[3]) + NodePieces(n[4])
  {
    hide NodePieces, Pieces;
    FourNodes(n[0], n[1], n[2], n[3]);
    OneNode(n[4]);
    PiecesConcat([n[0], n[1], n[2], n[3]], [n[4]]);
    assert n == [n[0], n[1], n[2], n[3]] + [n[4]];
  }

  lemma SixOf(n: seq<Node>)
    requires |n| == 6
    ensures Pieces(n) == (NodePieces(n[0]) + NodePieces(n[1]) + NodePieces(n[2]) + NodePieces(n[3]))
      + NodePieces(n[4]) + NodePieces(n[5])
  {
    hide NodePieces, Pieces;
    FourNodes(n[0], n[1], n[2], n[3]);
    TwoNodes(n[4], n[5]);
    PiecesConcat([n[0], n[1], n[2], n[3]], [n[4], n[5]]);
    assert n == [n[0], n[1], n[2], n[3]] + [n[4], n[5]];
  }

  // ---- what the alert says, in the order in which it is read -------------------------------

  /** The bytes of the typography used below. */
  lemma Typography()
    ensures BULLET == "\U{E2}\U{80}\U{A2} " && MIDDOT == " \U{C2}\U{B7} " && DASH == "\U{E2}\U{80}\U{94}"
  {
  }

  /** The trade's notional, or the cluster's total without a trade. */
  function Amount(f: Finding): real {
    match f.trade
    case Some(t) => t.notionalUSD
    case None => match f.clusterTotalUSD case Some(total) => total case None => 0.0
  }

  /** The market's question, or its slug, or its id. */
  function Title(f: Finding): string {
    match f.trade
    case None => "anomaly"
    case Some(t) => if t.question != "" then t.question else if t.slug != "" then t.slug else t.market
  }

  function HeaderSays(f: Finding, p: Printer): seq<string> {
    ["<b>", ToUpper(f.severity), ": "]
    + (if f.profitIfWinUSD > 0.0 then ["profit $", Money(p, f.profitIfWinUSD), MIDDOT] else [])
    + ["$", Money(p, Amount(f))]
    + (if f.hot then [MIDDOT, "HOT"] else [])
    + [MIDDOT, Escape(Title(f)), "</b>", "\n"]
  }

  function HeadingSays(title: string): seq<string> { ["\n", "<b>", title, "</b>", "\n"] }

  function PayoffSays(f: Finding, p: Printer): seq<string> {
    if f.profitIfWinUSD <= 0.0 then [] else
      [BULLET, "payoff if win: profit ", "<b>", "$", Money(p, f.profitIfWinUSD), "</b>",
       " (gross $", Money(p, f.grossPayoutIfWinUSD), ")\n"]
  }

  /** Below ten with two decimals, else none. */
  function TimesSays(p: Printer, ratio: real, name: string, amount: real): seq<string> {
    ["<b>", if ratio < 10.0 then p.fixed(ratio, 2) else p.fixed(ratio, 0), "x ", name, "</b>", " ($", Money(p, amount), ")"]
  }

  /** A tail row only shows ratios and percentiles that are known, the first behind " = ". */
  function TailSays(p: Printer, name: string, amount: real, b: Option<BaselineRef>, r95: real, r99: real): seq<string> {
    if b.None? || b.value.sampleN <= 0 || (r95 <= 0.0 && r99 <= 0.0) then [] else
      var p95, p99 := b.value.p95USD, b.value.p99USD;
      [BULLET, name, ": notional ", "<b>", "$", Money(p, amount), "</b>"]
      + (if r95 > 0.0 && p95 > 0.0 then [" = "] + TimesSays(p, r95, "p95", p95) else [])
      + (if r99 > 0.0 && p99 > 0.0 then
           [if r95 > 0.0 && p95 > 0.0 then ", " else " = "] + TimesSays(p, r99, "p99", p99)
         else [])
      + ["\n"]
  }

  function OddsSays(f: Finding, p: Printer): seq<string> {
    if f.trade.None? || f.trade.value.odds <= 0.0 then [] else
      var odds := f.trade.value.odds;
      [BULLET, "odds ", "<b>", p.fixed(odds, if odds < 10.0 then 2 else if odds < 100.0 then 1 else 0), "</b>",
       ", implied probability ", "<b>", p.fixed(f.trade.value.price * 100.0, 1), "%", "</b>", "\n"]
  }

  function PercentileSays(p: Printer, v: real): seq<string> { if v > 0.0 then ["$", Money(p, v)] else ["n/a"] }

  function DurationSays(d: int): seq<string> { SpanPieces(Duration(d)) }

  function BaselineSays(f: Finding, p: Printer): seq<string> {
    if f.baseline.None? then [] else
      var b := f.baseline.value;
      [BULLET, "market baseline: ", "<b>", TradeIngest.FormatInt(b.sampleN), "</b>",
       " trades, median $", Money(p, b.medianUSD), ", mean $", Money(p, b.meanUSD)]
      + ([", p95 "] + PercentileSays(p, b.p95USD)) + ([", p99 "] + PercentileSays(p, b.p99USD))
      + ([", span "] + DurationSays(b.span)) + ["\n"]
  }

  function TraderSays(f: Finding, p: Printer): seq<string> {
    if f.traderBaseline.None? then [] else
      var b := f.traderBaseline.value;
      [BULLET, "trader history: ", "<b>", TradeIngest.FormatInt(b.sampleN), "</b>",
       " trades, median $", Money(p, b.medianUSD)]
      + ([", p95 "] + PercentileSays(p, b.p95USD)) + ([", p99 "] + PercentileSays(p, b.p99USD))
      + ([", span "] + DurationSays(b.span)) + ["\n"]
  }

  function GateSays(f: Finding): seq<string> {
    if f.payoffGatePassed || f.profitIfWinUSD <= 0.0 then []
    else [BULLET, "payoff gate", ": unenforced ", "(MinProfitUSD=0 for tier)\n"]
  }

  function MarketGateSays(f: Finding): seq<string> {
    if !f.lowMarketConfidence then []
    else if f.baseline.None? || f.baseline.value.sampleN <= 0 then
      [BULLET, "market tail", ": unenforced ", "(no market baseline", " available)\n"]
    else
      [BULLET, "market tail", ": unenforced ", "(baseline thin ", DASH, " ",
       TradeIngest.FormatInt(f.baseline.value.sampleN), " samples)\n"]
  }

  function TraderGateSays(f: Finding): seq<string> {
    if !f.lowTraderConfidence then []
    else if f.traderBaseline.None? || f.traderBaseline.value.sampleN <= 0 then
      [BULLET, "trader tail", ": unenforced ", "(no trader history", " available)\n"]
    else
      [BULLET, "trader tail", ": unenforced ", "(only ", TradeIngest.FormatInt(f.traderBaseline.value.sampleN),
       " trader trades", " on record)\n"]
  }

  function CappedSays(f: Finding): seq<string> {
    if f.severityCapped then
      [BULLET, "severity reduced to ", "<b>", f.severity, "</b>", " due to thin baseline\n"]
    else []
  }

  function DormantSays(f: Finding): seq<string> {
    match f.dormantIdle
    case Some(idle) =>
      if idle <= 0 then []
      else [BULLET, "<b>", "dormant-wallet revival", "</b>", ": idle "] + DurationSays(idle) + [" before this trade\n"]
    case None => []
  }

  function OwnershipSays(f: Finding, p: Printer): seq<string> {
    if f.ownershipPct.None? || f.kind == "ownership_concentration" then [] else
      [BULLET, "<b>", "ownership context", "</b>", ": ~", p.fixed(f.ownershipPct.value, 1),
       "% of recorded BUY flow ", "(approx.)\n"]
  }

  function LifecycleSays(f: Finding, p: Printer): seq<string> {
    if f.lifecyclePct <= 0.0 then [] else
      [BULLET, "market lifecycle: ", "<b>", p.fixed(f.lifecyclePct, 1), "%", "</b>", " elapsed"]
      + (if f.hot then [" (HOT ", DASH, " final stretch)"] else [])
      + ["\n"]
  }

  function QuietSays(f: Finding, p: Printer): seq<string> {
    if f.quietMarket.None? then [] else
      var q := f.quietMarket.value;
      [BULLET, "<b>", "quiet-market wake-up", "</b>", ": historical activity ", "\U{E2}\U{89}\U{88} ",
       if q.tradesPerDay < 10.0 then p.fixed(q.tradesPerDay, 1) else p.fixed(q.tradesPerDay, 0), " trades/day, $",
       Money(p, q.notionalPerDayUSD), "/day"]
      + (if q.idle > 0 then [", idle "] + DurationSays(q.idle) else [])
      + ["\n"]
  }

  function NewWalletSays(f: Finding): seq<string> {
    if f.newWallet.None? || !f.newWallet.value.isNew then [] else
      var w := f.newWallet.value;
      [BULLET, "<b>", "new wallet", "</b>"]
      + (if w.firstSeenKnown && w.ageAtTrade > 0 then [": first seen "] + DurationSays(w.ageAtTrade) + [" ago, "]
         else [": "])
      + [TradeIngest.FormatInt(w.historyTrades), " stored trades\n"]
  }

  function PeersSays(f: Finding): seq<string> {
    if f.kind != "trade_anomaly" then []
    else if f.inCluster then
      [BULLET, "<b>", "part of a forming cluster", "</b>", ": ", TradeIngest.FormatInt(f.clusterPeers),
       " anomalous trades", " in the current window\n"]
    else [BULLET, "single trade (", "no peers in ", "cluster window yet)\n"]
  }

  function WhySays(f: Finding, p: Printer): seq<string> {
    HeadingSays("Why")
    + PayoffSays(f, p)
    + TailSays(p, "market tail", Amount(f), f.baseline, f.marketP95Ratio, f.marketP99Ratio)
    + TailSays(p, "trader tail", Amount(f), f.traderBaseline, f.traderP95Ratio, f.traderP99Ratio)
    + OddsSays(f, p) + BaselineSays(f, p) + TraderSays(f, p) + GateSays(f)
    + MarketGateSays(f) + TraderGateSays(f) + CappedSays(f) + DormantSays(f) + OwnershipSays(f, p)
    + LifecycleSays(f, p) + QuietSays(f, p) + NewWalletSays(f) + PeersSays(f)
  }

  function TradeSays(f: Finding, p: Printer): seq<string> {
    if f.trade.None? then [] else
      var t := f.trade.value;
      HeadingSays("Trade")
      + (if t.outcome == "" && t.side == "" then []
         else [BULLET, "outcome: ", "<b>", Escape(t.outcome), "</b>", " (", Escape(t.side), ")\n"])
      + [BULLET, "size: $", Money(p, t.notionalUSD), " (", p.fixed(t.sizeShares, 2), " shares @ ", p.fixed(t.price, 4), ")\n"]
      + (if t.wallet == "" then [] else [BULLET, "trader: ", "<code>", Escape(t.wallet), "</code>", "\n"])
      + (if f.categoryName.None? then [] else UnlessEmpty("category", f.categoryName.value))
      + [BULLET, "time: ", p.stamp(t.at), "\n"]
  }

  function UnlessEmpty(name: string, value: string): seq<string> {
    if value == "" then [] else [BULLET, name, ": ", Escape(value), "\n"]
  }

  predicate Reaches(url: string, p: Printer) { url != "" && p.reachable(url) }

  function AnchorSays(caption: string, url: string, p: Printer): seq<string> {
    if !Reaches(url, p) then [] else [BULLET, "<a href=\"", Escape(url), "\">", Escape(caption), "</a>", "\n"]
  }

  function LinksSays(f: Finding, p: Printer): seq<string> {
    if !Reaches(f.marketURL, p) && !Reaches(f.categoryURL, p) && !Reaches(f.traderURL, p) && !Reaches(f.grafanaURL, p) then []
    else
      HeadingSays("Links")
      + AnchorSays("Polymarket market", f.marketURL, p) + AnchorSays("Polymarket category", f.categoryURL, p)
      + AnchorSays("Trader", f.traderURL, p) + AnchorSays("Grafana", f.grafanaURL, p)
  }

  function BlockedSays(f: Finding): seq<string> {
    if f.blocked.None? then [] else
      var b := f.blocked.value;
      if b.status == "" && b.reason == "" && b.catalystType == "" && b.bullish == "" && b.bearish == ""
        && b.invalidation == "" && b.stance == ""
      then []
      else
        HeadingSays("Blocked Alert")
        + (UnlessEmpty("status", b.status) + UnlessEmpty("reason", b.reason)
           + UnlessEmpty("catalyst type", b.catalystType) + UnlessEmpty("expected timing", b.expectedTiming))
        + (UnlessEmpty("bullish scenario", b.bullish) + UnlessEmpty("bearish scenario", b.bearish)
           + UnlessEmpty("invalidation scenario", b.invalidation) + UnlessEmpty("stance", b.stance))
  }

  /** The first line has the bullet, the others are indented; empty ones are dropped. */
  function NoteSays(lines: seq<string>, lead: string): seq<string> {
    if lines == [] then [] else
      (if TrimSpace(lines[0]) == "" then [] else [lead, Escape(TrimSpace(lines[0])), "\n"]) + NoteSays(lines[1..], "  ")
  }

  function AnalysisSays(f: Finding): seq<string> {
    if TrimSpace(f.analystNote) == "" then []
    else HeadingSays("AI analysis") + NoteSays(SplitLines(TrimSpace(f.analystNote)), BULLET)
  }

  function MoveSays(a: AnnotationRef, p: Printer): seq<string> {
    match (a.before, a.after, a.change)
    case (Some(before), Some(after), None) =>
      [MIDDOT, "price ", p.fixed(before, 2), "\U{E2}\U{86}\U{92}" + p.fixed(after, 2)]
    case (Some(before), Some(after), Some(change)) =>
      [MIDDOT, "price ", p.fixed(before, 2), "\U{E2}\U{86}\U{92}" + p.fixed(after, 2), " (", p.signed(change, 2), ")"]
    case (_, _, Some(change)) => [MIDDOT, "\U{CE}\U{94}", p.signed(change, 2)]
    case _ => []
  }

  /** A summary of more than 220 bytes is cut to 219 and an ellipsis. */
  function SummarySays(summary: string): seq<string> {
    if summary == "" then []
    else if |summary| <= 220 then ["  ", Escape(summary), "\n"]
    else ["  ", Escape(summary[..219] + "\U{E2}\U{80}\U{A6}"), "\n"]
  }

  function AnnotationSays(a: AnnotationRef, p: Printer): seq<string> {
    [BULLET, Escape(if a.at.Some? then p.date(a.at.value) else DASH), MIDDOT, "<b>", Escape(TrimSpace(a.title)), "</b>"]
    + MoveSays(a, p)
    + (if a.outcome == "" then [] else [MIDDOT, "outcome=", Escape(a.outcome)])
    + ["\n"]
    + SummarySays(TrimSpace(a.summary))
    + (if a.sourceName == "" then [] else ["  source: ", Escape(a.sourceName), "\n"])
  }

  /** The first three annotations. */
  function AnnotationsSay(f: Finding, p: Printer): seq<string> {
    var notes := f.recentAnnotations;
    if notes == [] then [] else
      HeadingSays("Recent annotations")
      + (AnnotationSays(notes[0], p)
         + (if |notes| > 1 then AnnotationSays(notes[1], p) else [])
         + (if |notes| > 2 then AnnotationSays(notes[2], p) else []))
  }

  /** All of it. */
  function AlertSays(f: Finding, p: Printer): seq<string> {
    HeaderSays(f, p) + WhySays(f, p) + TradeSays(f, p) + LinksSays(f, p)
    + BlockedSays(f) + AnalysisSays(f) + AnnotationsSay(f, p)
  }

  // ---- line by line ---------------------------------------------------------------------------

  lemma SpansConcat(a: seq<Span>, b: seq<Span>)
    ensures SpanPieces(a + b) == SpanPieces(a) + SpanPieces(b)
  {
    var all, both := SpanPieces(a + b), SpanPieces(a) + SpanPieces(b);
    forall i | 0 <= i < |all|
      ensures all[i] == both[i]
    {
    }
  }

  lemma TitleReads(a: seq<Span>, b: seq<Span>, c: seq<Span>, d: seq<Span>, e: seq<Span>)
    ensures NodePieces(Bold(a + b + c + d + e))
      == ["<b>"] + (SpanPieces(a) + SpanPieces(b) + SpanPieces(c) + SpanPieces(d) + SpanPieces(e)) + ["</b>"]
  {
    hide SpanPieces;
    SpansConcat(a, b);
    SpansConcat(a + b, c);
    SpansConcat(a + b + c, d);
    SpansConcat(a + b + c + d, e);
  }

  lemma HeaderSpans(f: Finding, p: Printer)
    ensures SpanPieces(SeveritySpans(f)) == [ToUpper(f.severity), ": "]
    ensures SpanPieces(ProfitSpans(f, p))
      == if f.profitIfWinUSD > 0.0 then ["profit $", Money(p, f.profitIfWinUSD), MIDDOT] else []
    ensures SpanPieces(AmountSpans(f, p)) == ["$", Money(p, Amount(f))]
    ensures SpanPieces(HotSpans(f)) == if f.hot then [MIDDOT, "HOT"] else []
    ensures SpanPieces(TitleSpan(f)) == [MIDDOT, Escape(Title(f))]
  {
    hide Money, Escape, ToUpper;
  }

  lemma HeaderReads(f: Finding, p: Printer)
    ensures Pieces(Header(f, p)) == HeaderSays(f, p)
  {
    var nodes := Header(f, p);
    TwoNodes(nodes[0], nodes[1]);
    TitleReads(SeveritySpans(f), ProfitSpans(f, p), AmountSpans(f, p), HotSpans(f), TitleSpan(f));
    HeaderSpans(f, p);
    NewlineReads();
    hide Pieces, SpanPieces, NodePieces, SeveritySpans, ProfitSpans, AmountSpans, HotSpans, TitleSpan, Money, Escape, ToUpper,
      Amount, Title;
    var a, b, c, d, e := SpanPieces(SeveritySpans(f)), SpanPieces(ProfitSpans(f, p)), SpanPieces(AmountSpans(f, p)),
      SpanPieces(HotSpans(f)), SpanPieces(TitleSpan(f));
    Bracketed(["<b>"], a, b, c, d, e, ["</b>"], ["\n"]);
    HeaderFrame(f, p, a, b, c, d, e);
  }

  lemma HeaderFrame(f: Finding, p: Printer, a: seq<string>, b: seq<string>, c: seq<string>, d: seq<string>, e: seq<string>)
    requires a == [ToUpper(f.severity), ": "] && c == ["$", Money(p, Amount(f))] && e == [MIDDOT, Escape(Title(f))]
    requires b == if f.profitIfWinUSD > 0.0 then ["profit $", Money(p, f.profitIfWinUSD), MIDDOT] else []
    requires d == if f.hot then [MIDDOT, "HOT"] else []
    ensures (["<b>"] + a) + b + c + d + (e + ["</b>"] + ["\n"]) == HeaderSays(f, p)
  {
    hide Money, Escape, ToUpper, Amount, Title;
    assert ["<b>"] + a == ["<b>", ToUpper(f.severity), ": "];
    assert e + ["</b>"] + ["\n"] == [MIDDOT, Escape(Title(f)), "</b>", "\n"];
  }

  lemma Bracketed(o: seq<string>, a: seq<string>, b: seq<string>, c: seq<string>, d: seq<string>, e: seq<string>,
    close: seq<string>, last: seq<string>)
    ensures (o + (a + b + c + d + e) + close) + last == (o + a) + b + c + d + (e + close + last)
  {
  }

  lemma NewlineReads()
    ensures NodePieces(Text([Lit(NEWLINE)])) == ["\n"]
  {
  }

  lemma HeadingReads(title: Cell)
    ensures Pieces(Heading(title)) == HeadingSays(title)
  {
    var nodes := Heading(title);
    ThreeNodes(nodes[0], nodes[1], nodes[2]);
    hide Pieces;
  }

  lemma PayoffReads(f: Finding, p: Printer)
    ensures Pieces(Payoff(f, p)) == PayoffSays(f, p)
  {
    if f.profitIfWinUSD > 0.0 {
      var nodes := PayoffLine(f, p);
      ThreeNodes(nodes[0], nodes[1], nodes[2]);
      PayoffWording();
      hide Pieces, Money, Join;
    }
  }

  lemma PayoffWording()
    ensures PAYOFF_IF_WIN == "payoff if win: profit "
  {
  }

  lemma SegmentReads(p: Printer, separator: Cell, ratio: real, name: Cell, amount: real)
    ensures Pieces(TailSegment(p, separator, ratio, name, amount)) == [separator] + TimesSays(p, ratio, name, amount)
  {
    var nodes := TailSegment(p, separator, ratio, name, amount);
    ThreeNodes(nodes[0], nodes[1], nodes[2]);
    hide Pieces, Money;
  }

  lemma TailStartReads(p: Printer, name: Cell, amount: real)
    ensures Pieces(TailStart(p, name, amount)) == [BULLET, name, ": notional ", "<b>", "$", Money(p, amount), "</b>"]
  {
    var nodes := TailStart(p, name, amount);
    TwoNodes(nodes[0], nodes[1]);
    hide Pieces, Money;
  }

  lemma TailReads(p: Printer, name: Cell, amount: real, b: Option<BaselineRef>, r95: real, r99: real)
    requires HasTail(b, r95, r99)
    ensures Pieces(TailRow(p, name, amount, r95, b.value.p95USD, r99, b.value.p99USD)) == TailSays(p, name, amount, b, r95, r99)
  {
    var p95, p99 := b.value.p95USD, b.value.p99USD;
    var start, newline := TailStart(p, name, amount), [Text([Lit(NEWLINE)])];
    var first := if r95 > 0.0 && p95 > 0.0 then TailSegment(p, " = ", r95, "p95", p95) else [];
    var second := if r99 > 0.0 && p99 > 0.0
      then TailSegment(p, if r95 <= 0.0 || p95 <= 0.0 then " = " else ", ", r99, "p99", p99) else [];
    TailStartReads(p, name, amount);
    SegmentReads(p, " = ", r95, "p95", p95);
    SegmentReads(p, if r95 <= 0.0 || p95 <= 0.0 then " = " else ", ", r99, "p99", p99);
    NewlineReads();
    OneNode(newline[0]);
    PiecesConcat(start, first);
    PiecesConcat(start + first, second);
    PiecesConcat(start + first + second, newline);
    hide NodePieces, TailStart, TailSegment, TimesSays, Money;
  }

  lemma TailsRead(f: Finding, p: Printer)
    ensures Pieces(MarketTail(f, p)) == TailSays(p, "market tail", Amount(f), f.baseline, f.marketP95Ratio, f.marketP99Ratio)
    ensures Pieces(TraderTail(f, p))
      == TailSays(p, "trader tail", Amount(f), f.traderBaseline, f.traderP95Ratio, f.traderP99Ratio)
  {
    hide TailRow, Pieces, TimesSays;
    if HasTail(f.baseline, f.marketP95Ratio, f.marketP99Ratio) {
      TailReads(p, MARKET_TAIL, Notional(f), f.baseline, f.marketP95Ratio, f.marketP99Ratio);
    }
    if HasTail(f.traderBaseline, f.traderP95Ratio, f.traderP99Ratio) {
      TailReads(p, TRADER_TAIL, Notional(f), f.traderBaseline, f.traderP95Ratio, f.traderP99Ratio);
    }
    NothingReads();
  }

  lemma NothingReads()
    ensures Pieces([]) == []
  {
  }

  lemma OddsNodes(t: TradeRef, p: Printer)
    ensures var nodes := OddsLine(t, p);
      && |nodes| == 5
      && NodePieces(nodes[0]) == [BULLET, "odds "]
      && NodePieces(nodes[1]) == ["<b>", p.fixed(t.odds, if t.odds < 10.0 then 2 else if t.odds < 100.0 then 1 else 0), "</b>"]
      && NodePieces(nodes[2]) == [", implied probability "]
      && NodePieces(nodes[3]) == ["<b>", p.fixed(t.price * 100.0, 1), "%", "</b>"]
      && NodePieces(nodes[4]) == ["\n"]
  {
    OddsWording();
    hide Join;
  }

  lemma OddsReads(f: Finding, p: Printer)
    ensures Pieces(Odds(f, p)) == OddsSays(f, p)
  {
    NothingReads();
    if f.trade.Some? && f.trade.value.odds > 0.0 {
      OddsLineReads(f, p);
    }
    hide Pieces, OddsLine;
  }

  lemma OddsLineReads(f: Finding, p: Printer)
    requires f.trade.Some? && f.trade.value.odds > 0.0
    ensures Pieces(OddsLine(f.trade.value, p)) == OddsSays(f, p)
  {
    hide Pieces, NodePieces, OddsLine;
    OddsNodes(f.trade.value, p);
    FiveOf(OddsLine(f.trade.value, p));
  }

  lemma OddsWording()
    ensures IMPLIED_PROBABILITY == ", implied probability "
    ensures MARKET_BASELINE == "market baseline: " && TRADES_MEDIAN == " trades, median $"
  {
  }

  lemma PercentileReads(p: Printer, v: real)
    ensures SpanPieces(Percentile(p, v)) == PercentileSays(p, v)
  {
    hide Money;
  }

  /** A label and what follows it. */
  lemma LabelReads(name: Cell, spans: seq<Span>)
    ensures NodePieces(Text([Lit(name)] + spans)) == [name] + SpanPieces(spans)
  {
    SpansConcat([Lit(name)], spans);
    assert SpanPieces([Lit(name)]) == [name];
  }

  lemma SevenNodes(n: seq<Node>)
    requires |n| == 7
    ensures Pieces(n) == (NodePieces(n[0]) + NodePieces(n[1]) + NodePieces(n[2]))
      + NodePieces(n[3]) + NodePieces(n[4]) + NodePieces(n[5]) + NodePieces(n[6])
  {
    hide NodePieces, Pieces;
    assert n == [n[0], n[1], n[2]] + [n[3], n[4], n[5], n[6]];
    PiecesConcat([n[0], n[1], n[2]], [n[3], n[4], n[5], n[6]]);
    ThreeNodes(n[0], n[1], n[2]);
    FourNodes(n[3], n[4], n[5], n[6]);
  }

  lemma BaselineReads(f: Finding, p: Printer)
    ensures Pieces(Baseline(f, p)) == BaselineSays(f, p)
  {
    if f.baseline.Some? {
      var b := f.baseline.value;
      var nodes := BaselineLine(b, p);
      BaselineNodes(b, p);
      SevenNodes(nodes);
      hide Pieces, NodePieces, BaselineLine, PercentileSays, DurationSays, Money;
    }
  }

  lemma Labelled(b: BaselineRef, p: Printer)
    ensures NodePieces(Text([Lit(P95)] + Percentile(p, b.p95USD))) == [", p95 "] + PercentileSays(p, b.p95USD)
    ensures NodePieces(Text([Lit(P99)] + Percentile(p, b.p99USD))) == [", p99 "] + PercentileSays(p, b.p99USD)
    ensures NodePieces(Text([Lit(SPAN)] + Duration(b.span))) == [", span "] + DurationSays(b.span)
  {
    LabelReads(P95, Percentile(p, b.p95USD));
    LabelReads(P99, Percentile(p, b.p99USD));
    LabelReads(SPAN, Duration(b.span));
    PercentileReads(p, b.p95USD);
    PercentileReads(p, b.p99USD);
    hide Money, Percentile, Duration;
  }

  lemma BaselineNodes(b: BaselineRef, p: Printer)
    ensures var nodes := BaselineLine(b, p);
      && |nodes| == 7
      && NodePieces(nodes[0]) == [BULLET, "market baseline: "]
      && NodePieces(nodes[1]) == ["<b>", TradeIngest.FormatInt(b.sampleN), "</b>"]
      && NodePieces(nodes[2]) == [" trades, median $", Money(p, b.medianUSD), ", mean $", Money(p, b.meanUSD)]
      && NodePieces(nodes[3]) == [", p95 "] + PercentileSays(p, b.p95USD)
      && NodePieces(nodes[4]) == [", p99 "] + PercentileSays(p, b.p99USD)
      && NodePieces(nodes[5]) == [", span "] + DurationSays(b.span)
      && NodePieces(nodes[6]) == ["\n"]
  {
    Labelled(b, p);
    OddsWording();
    NewlineReads();
    hide Money, Percentile, Duration, PercentileSays, DurationSays, TradeIngest.FormatInt, Join;
  }

  lemma TraderReads(f: Finding, p: Printer)
    ensures Pieces(TraderHistory(f, p)) == TraderSays(f, p)
  {
    if f.traderBaseline.Some? {
      var b := f.traderBaseline.value;
      var nodes := TraderLine(b, p);
      TraderNodes(b, p);
      SevenNodes(nodes);
      hide Pieces, NodePieces, TraderLine, PercentileSays, DurationSays, Money;
    }
  }

  lemma TraderNodes(b: BaselineRef, p: Printer)
    ensures var nodes := TraderLine(b, p);
      && |nodes| == 7
      && NodePieces(nodes[0]) == [BULLET, "trader history: "]
      && NodePieces(nodes[1]) == ["<b>", TradeIngest.FormatInt(b.sampleN), "</b>"]
      && NodePieces(nodes[2]) == [" trades, median $", Money(p, b.medianUSD)]
      && NodePieces(nodes[3]) == [", p95 "] + PercentileSays(p, b.p95USD)
      && NodePieces(nodes[4]) == [", p99 "] + PercentileSays(p, b.p99USD)
      && NodePieces(nodes[5]) == [", span "] + DurationSays(b.span)
      && NodePieces(nodes[6]) == ["\n"]
  {
    Labelled(b, p);
    OddsWording();
    NewlineReads();
    hide Money, Percentile, Duration, PercentileSays, DurationSays, TradeIngest.FormatInt, Join;
  }

  lemma GatesRead(f: Finding)
    ensures Pieces(PayoffGate(f)) == GateSays(f)
    ensures Pieces(TailGateStatus(f)) == MarketGateSays(f) + TraderGateSays(f)
  {
    PayoffGateReads();
    MarketGateReads(f);
    TraderGateReads(f);
    NothingReads();
    PiecesConcat(MarketGate(f), TraderGate(f));
    hide Pieces, PayoffGateLine, MarketGate, TraderGate, MarketGateSays, TraderGateSays;
  }

  lemma PayoffGateReads()
    ensures Pieces(PayoffGateLine()) == [BULLET, "payoff gate", ": unenforced ", "(MinProfitUSD=0 for tier)\n"]
  {
    OneNode(PayoffGateLine()[0]);
    hide Pieces;
    assert FOR_TIER == "(MinProfitUSD=0 for tier)\n";
  }

  lemma MarketGateReads(f: Finding)
    ensures Pieces(MarketGate(f)) == MarketGateSays(f)
  {
    if f.lowMarketConfidence {
      OneNode(MarketGate(f)[0]);
      hide Pieces, TradeIngest.FormatInt;
      assert NO_MARKET_BASELINE == "(no market baseline";
    }
  }

  lemma TraderGateReads(f: Finding)
    ensures Pieces(TraderGate(f)) == TraderGateSays(f)
  {
    if f.lowTraderConfidence {
      OneNode(TraderGate(f)[0]);
      hide Pieces, TradeIngest.FormatInt;
      assert NO_TRADER_HISTORY == "(no trader history";
    }
  }

  lemma CappedReads(f: Finding)
    ensures Pieces(CappedNote(f)) == CappedSays(f)
  {
    if f.severityCapped {
      var nodes := CappedLine(f);
      ThreeNodes(nodes[0], nodes[1], nodes[2]);
      hide Pieces;
      assert SEVERITY_REDUCED == "severity reduced to " && DUE_TO_BASELINE == " due to thin baseline\n";
    }
  }

  lemma DormantReads(f: Finding)
    ensures Pieces(Dormant(f)) == DormantSays(f)
  {
    if f.dormantIdle.Some? && f.dormantIdle.value > 0 {
      var nodes := DormantLine(f.dormantIdle.value);
      FourNodes(nodes[0], nodes[1], nodes[2], nodes[3]);
      LabelReads(IDLE, Duration(f.dormantIdle.value));
      hide Pieces, Duration;
      assert REVIVAL == "dormant-wallet revival" && BEFORE_THIS_TRADE == " before this trade\n";
    }
  }

  lemma OwnershipReads(f: Finding, p: Printer)
    ensures Pieces(Ownership(f, p)) == OwnershipSays(f, p)
  {
    if f.ownershipPct.Some? && f.kind != "ownership_concentration" {
      var nodes := OwnershipLine(f.ownershipPct.value, p);
      ThreeNodes(nodes[0], nodes[1], nodes[2]);
      hide Pieces;
      assert OWNERSHIP == "ownership context" && OF_BUY_FLOW == "% of recorded BUY flow ";
    }
  }

  lemma LifecycleNodes(f: Finding, p: Printer)
    ensures var nodes := LifecycleLine(f, p);
      && |nodes| == 4
      && NodePieces(nodes[0]) == [BULLET, "market lifecycle: "]
      && NodePieces(nodes[1]) == ["<b>", p.fixed(f.lifecyclePct, 1), "%", "</b>"]
      && NodePieces(nodes[2]) == [" elapsed"] + (if f.hot then [" (HOT ", DASH, " final stretch)"] else [])
      && NodePieces(nodes[3]) == ["\n"]
  {
    LifecycleWording();
    hide Join;
  }

  lemma LifecycleWording()
    ensures LIFECYCLE == "market lifecycle: "
  {
  }

  lemma LifecycleReads(f: Finding, p: Printer)
    ensures Pieces(Lifecycle(f, p)) == LifecycleSays(f, p)
  {
    NothingReads();
    var nodes := LifecycleLine(f, p);
    LifecycleNodes(f, p);
    FourOf(nodes);
    hide Pieces, NodePieces, LifecycleLine;
  }

  lemma QuietMarketNodes(f: Finding, p: Printer)
    requires f.quietMarket.Some?
    ensures var nodes, q := QuietMarket(f, p), f.quietMarket.value;
      && |nodes| == 6
      && NodePieces(nodes[0]) == [BULLET]
      && NodePieces(nodes[1]) == ["<b>", "quiet-market wake-up", "</b>"]
      && NodePieces(nodes[2]) == [": historical activity ", "\U{E2}\U{89}\U{88} ",
        if q.tradesPerDay < 10.0 then p.fixed(q.tradesPerDay, 1) else p.fixed(q.tradesPerDay, 0)]
      && NodePieces(nodes[3]) == [" trades/day, $", Money(p, q.notionalPerDayUSD), "/day"]
      && NodePieces(nodes[4]) == (if q.idle > 0 then [", idle "] + DurationSays(q.idle) else [])
      && NodePieces(nodes[5]) == ["\n"]
  {
    QuietMarketWording();
    LabelReads(ALSO_IDLE, Duration(f.quietMarket.value.idle));
    hide Duration, Money, Join;
  }

  lemma QuietMarketWording()
    ensures WAKE_UP == "quiet-market wake-up" && ACTIVITY == ": historical activity "
  {
  }

  lemma QuietMarketReads(f: Finding, p: Printer)
    ensures Pieces(QuietMarket(f, p)) == QuietSays(f, p)
  {
    if f.quietMarket.Some? {
      var nodes := QuietMarket(f, p);
      QuietMarketNodes(f, p);
      SixOf(nodes);
      QuietFrame(f, p, NodePieces(nodes[4]));
      hide Pieces, NodePieces, QuietMarket, DurationSays, Money, QuietSays;
    }
  }

  lemma QuietFrame(f: Finding, p: Printer, idle: seq<string>)
    requires f.quietMarket.Some?
    requires idle == if f.quietMarket.value.idle > 0 then [", idle "] + DurationSays(f.quietMarket.value.idle) else []
    ensures var q := f.quietMarket.value;
      ([BULLET] + ["<b>", "quiet-market wake-up", "</b>"]
        + [": historical activity ", "\U{E2}\U{89}\U{88} ",
           if q.tradesPerDay < 10.0 then p.fixed(q.tradesPerDay, 1) else p.fixed(q.tradesPerDay, 0)]
        + [" trades/day, $", Money(p, q.notionalPerDayUSD), "/day"]) + idle + ["\n"] == QuietSays(f, p)
  {
    hide DurationSays, Money;
  }

  lemma SeenReads(w: NewWalletRef)
    ensures Pieces(SeenLine(w)) == [BULLET, "<b>", "new wallet", "</b>"]
      + ([": first seen "] + DurationSays(w.ageAtTrade) + [" ago, "])
      + [TradeIngest.FormatInt(w.historyTrades), " stored trades\n"]
  {
    var nodes := SeenLine(w);
    FourNodes(nodes[0], nodes[1], nodes[2], nodes[3]);
    LabelReads(FIRST_SEEN, Duration(w.ageAtTrade));
    hide Pieces, Duration, TradeIngest.FormatInt;
  }

  lemma StoredReads(w: NewWalletRef)
    ensures Pieces(StoredLine(w)) == [BULLET, "<b>", "new wallet", "</b>"] + [": "]
      + [TradeIngest.FormatInt(w.historyTrades), " stored trades\n"]
  {
    var nodes := StoredLine(w);
    ThreeNodes(nodes[0], nodes[1], nodes[2]);
    hide Pieces, TradeIngest.FormatInt;
  }

  lemma NewWalletReads(f: Finding)
    ensures Pieces(NewWallet(f)) == NewWalletSays(f)
  {
    NothingReads();
    if f.newWallet.Some? {
      SeenReads(f.newWallet.value);
      StoredReads(f.newWallet.value);
    }
    hide Pieces, SeenLine, StoredLine, DurationSays, TradeIngest.FormatInt;
  }

  lemma ClusterReads(f: Finding)
    ensures Pieces(ClusterLine(f)) == [BULLET, "<b>", "part of a forming cluster", "</b>", ": ",
      TradeIngest.FormatInt(f.clusterPeers), " anomalous trades", " in the current window\n"]
  {
    var nodes := ClusterLine(f);
    ThreeNodes(nodes[0], nodes[1], nodes[2]);
    ClusterWording();
    hide Pieces, TradeIngest.FormatInt, Join;
  }

  lemma ClusterWording()
    ensures FORMING_CLUSTER == "part of a forming cluster" && PEERS == " anomalous trades"
    ensures WINDOW == " in the current window\n"
  {
  }

  lemma SingleReads()
    ensures Pieces(SingleLine()) == [BULLET, "single trade (", "no peers in ", "cluster window yet)\n"]
  {
    OneNode(SingleLine()[0]);
    hide Pieces;
    assert WINDOW_YET == "cluster window yet)\n";
  }

  lemma PeersRead(f: Finding)
    ensures Pieces(Peers(f)) == PeersSays(f)
  {
    ClusterReads(f);
    SingleReads();
    NothingReads();
    hide Pieces, ClusterLine, SingleLine;
  }

  lemma NumbersRead(f: Finding, p: Printer)
    ensures Pieces(WhyNumbers(f, p)) ==
      PayoffSays(f, p)
      + TailSays(p, "market tail", Amount(f), f.baseline, f.marketP95Ratio, f.marketP99Ratio)
      + TailSays(p, "trader tail", Amount(f), f.traderBaseline, f.traderP95Ratio, f.traderP99Ratio)
      + OddsSays(f, p) + BaselineSays(f, p) + TraderSays(f, p) + GateSays(f)
  {
    var a, b, c, d, e, g := Payoff(f, p), MarketTail(f, p), TraderTail(f, p), Odds(f, p), Baseline(f, p), TraderHistory(f, p);
    PayoffReads(f, p);
    TailsRead(f, p);
    OddsReads(f, p);
    BaselineReads(f, p);
    TraderReads(f, p);
    GatesRead(f);
    hide Pieces, Payoff, MarketTail, TraderTail, Odds, Baseline, TraderHistory, PayoffGate;
    hide PayoffSays, TailSays, OddsSays, BaselineSays, TraderSays, GateSays;
    PiecesConcat(a, b);
    PiecesConcat(a + b, c);
    PiecesConcat(a + b + c, d);
    PiecesConcat(a + b + c + d, e);
    PiecesConcat(a + b + c + d + e, g);
    PiecesConcat(a + b + c + d + e + g, PayoffGate(f));
  }

  lemma ContextReads(f: Finding, p: Printer)
    ensures Pieces(WhyContext(f, p)) ==
      (MarketGateSays(f) + TraderGateSays(f)) + CappedSays(f) + DormantSays(f) + OwnershipSays(f, p)
      + LifecycleSays(f, p) + QuietSays(f, p) + NewWalletSays(f) + PeersSays(f)
  {
    var a, b, c, d, e, g, h :=
      TailGateStatus(f), CappedNote(f), Dormant(f), Ownership(f, p), Lifecycle(f, p), QuietMarket(f, p), NewWallet(f);
    GatesRead(f);
    CappedReads(f);
    DormantReads(f);
    OwnershipReads(f, p);
    LifecycleReads(f, p);
    QuietMarketReads(f, p);
    NewWalletReads(f);
    PeersRead(f);
    hide Pieces, TailGateStatus, CappedNote, Dormant, Ownership, Lifecycle, QuietMarket, NewWallet, Peers;
    hide MarketGateSays, TraderGateSays, CappedSays, DormantSays, OwnershipSays, LifecycleSays, QuietSays, NewWalletSays, PeersSays;
    PiecesConcat(a, b);
    PiecesConcat(a + b, c);
    PiecesConcat(a + b + c, d);
    PiecesConcat(a + b + c + d, e);
    PiecesConcat(a + b + c + d + e, g);
    PiecesConcat(a + b + c + d + e + g, h);
    PiecesConcat(a + b + c + d + e + g + h, Peers(f));
  }

  lemma WhyReads(f: Finding, p: Printer)
    ensures Pieces(Why(f, p)) == WhySays(f, p)
  {
    HeadingReads(WHY);
    NumbersRead(f, p);
    ContextReads(f, p);
    hide Pieces, Heading, WhyNumbers, WhyContext, HeadingSays;
    hide PayoffSays, TailSays, OddsSays, BaselineSays, TraderSays, GateSays;
    hide MarketGateSays, TraderGateSays, CappedSays, DormantSays, OwnershipSays, LifecycleSays, QuietSays, NewWalletSays, PeersSays;
    PiecesConcat(Heading(WHY), WhyNumbers(f, p));
    PiecesConcat(Heading(WHY) + WhyNumbers(f, p), WhyContext(f, p));
  }

  lemma FieldReads(name: Cell, value: string)
    ensures Pieces(FieldUnlessEmpty(name, value)) == UnlessEmpty(name, value)
  {
    OneNode(FieldLine(name, value)[0]);
    NothingReads();
    hide Pieces, Escape;
  }

  lemma OutcomeReads(t: TradeRef)
    ensures Pieces(Outcome(t)) == if t.outcome == "" && t.side == "" then []
      else [BULLET, "outcome: ", "<b>", Escape(t.outcome), "</b>", " (", Escape(t.side), ")\n"]
  {
    if t.outcome != "" || t.side != "" {
      var nodes := OutcomeLine(t);
      ThreeNodes(nodes[0], nodes[1], nodes[2]);
      hide Pieces, Escape;
    }
  }

  lemma SizeReads(t: TradeRef, p: Printer)
    ensures Pieces(SizeLine(t, p)) == [BULLET, "size: $", Money(p, t.notionalUSD), " (", p.fixed(t.sizeShares, 2),
      " shares @ ", p.fixed(t.price, 4), ")\n"]
  {
    var nodes := SizeLine(t, p);
    TwoNodes(nodes[0], nodes[1]);
    hide Pieces, Money;
  }

  lemma WalletReads(t: TradeRef)
    ensures Pieces(Wallet(t)) == if t.wallet == "" then []
      else [BULLET, "trader: ", "<code>", Escape(t.wallet), "</code>", "\n"]
  {
    if t.wallet != "" {
      var nodes := WalletLine(t);
      ThreeNodes(nodes[0], nodes[1], nodes[2]);
      hide Pieces, Escape;
    }
  }

  lemma CategoryReads(f: Finding)
    ensures Pieces(Category(f)) == if f.categoryName.None? then [] else UnlessEmpty("category", f.categoryName.value)
  {
    if f.categoryName.Some? {
      FieldReads(CATEGORY, f.categoryName.value);
    }
    NothingReads();
    hide Pieces, Escape, FieldLine;
  }

  lemma TimeReads(t: TradeRef, p: Printer)
    ensures Pieces(TimeLine(t, p)) == [BULLET, "time: ", p.stamp(t.at), "\n"]
  {
    OneNode(TimeLine(t, p)[0]);
    hide Pieces;
  }

  lemma TradeReads(f: Finding, p: Printer)
    ensures Pieces(TradeBlock(f, p)) == TradeSays(f, p)
  {
    if f.trade.None? {
      NothingReads();
    } else {
      var t := f.trade.value;
      var a, b, c, d, e := Heading(TRADE), Outcome(t), SizeLine(t, p), Wallet(t), Category(f);
      HeadingReads(TRADE);
      OutcomeReads(t);
      SizeReads(t, p);
      WalletReads(t);
      CategoryReads(f);
      TimeReads(t, p);
      hide Pieces, Heading, Outcome, SizeLine, Wallet, Category, TimeLine, HeadingSays, UnlessEmpty, Money, Escape;
      PiecesConcat(a, b);
      PiecesConcat(a + b, c);
      PiecesConcat(a + b + c, d);
      PiecesConcat(a + b + c + d, e);
      PiecesConcat(a + b + c + d + e, TimeLine(t, p));
    }
  }

  lemma AnchorReads(e: Entry, url: string, p: Printer)
    requires e.href == SanitizeLinkURL(url, p)
    ensures Pieces(if e.href == "" then [] else LinkLine(e)) == AnchorSays(e.caption, url, p)
    ensures e.href != "" <==> Reaches(url, p)
  {
    if e.href != "" {
      var nodes := LinkLine(e);
      ThreeNodes(nodes[0], nodes[1], nodes[2]);
      hide Pieces, Escape;
    }
  }

  lemma LinkLinesOf(a: Entry, b: Entry, c: Entry, d: Entry)
    ensures Pieces(LinkLines([a, b, c, d])) ==
      Pieces(if a.href == "" then [] else LinkLine(a)) + Pieces(if b.href == "" then [] else LinkLine(b))
      + Pieces(if c.href == "" then [] else LinkLine(c)) + Pieces(if d.href == "" then [] else LinkLine(d))
  {
    hide Pieces, LinkLine;
    assert [a, b, c, d][..3] == [a, b, c] && [a, b, c][..2] == [a, b] && [a, b][..1] == [a] && [a][..0] == [];
    PiecesConcat(LinkLines([a, b, c]), if d.href == "" then [] else LinkLine(d));
    PiecesConcat(LinkLines([a, b]), if c.href == "" then [] else LinkLine(c));
    PiecesConcat(LinkLines([a]), if b.href == "" then [] else LinkLine(b));
    assert LinkLines([]) == [];
    assert LinkLines([a]) == if a.href == "" then [] else LinkLine(a);
  }

  lemma EntriesAre(f: Finding, p: Printer)
    ensures var es := Entries(f, p);
      && |es| == 4 && es == [es[0], es[1], es[2], es[3]]
      && es[0] == Entry("Polymarket market", SanitizeLinkURL(f.marketURL, p))
      && es[1] == Entry("Polymarket category", SanitizeLinkURL(f.categoryURL, p))
      && es[2] == Entry("Trader", SanitizeLinkURL(f.traderURL, p))
      && es[3] == Entry("Grafana", SanitizeLinkURL(f.grafanaURL, p))
      && (AnyLink(es) <==> es[0].href != "" || es[1].href != "" || es[2].href != "" || es[3].href != "")
  {
    hide SanitizeLinkURL;
  }

  lemma LinesRead(f: Finding, p: Printer)
    ensures Pieces(LinkLines(Entries(f, p))) ==
      AnchorSays("Polymarket market", f.marketURL, p) + AnchorSays("Polymarket category", f.categoryURL, p)
      + AnchorSays("Trader", f.traderURL, p) + AnchorSays("Grafana", f.grafanaURL, p)
    ensures AnyLink(Entries(f, p)) <==>
      Reaches(f.marketURL, p) || Reaches(f.categoryURL, p) || Reaches(f.traderURL, p) || Reaches(f.grafanaURL, p)
  {
    var es := Entries(f, p);
    EntriesAre(f, p);
    AnchorReads(es[0], f.marketURL, p);
    AnchorReads(es[1], f.categoryURL, p);
    AnchorReads(es[2], f.traderURL, p);
    AnchorReads(es[3], f.grafanaURL, p);
    LinkLinesOf(es[0], es[1], es[2], es[3]);
    hide Pieces, LinkLine, LinkLines, AnchorSays, SanitizeLinkURL, Reaches, Entries, AnyLink;
  }

  lemma LinksRead(f: Finding, p: Printer)
    ensures Pieces(Links(f, p)) == LinksSays(f, p)
  {
    LinesRead(f, p);
    HeadingReads(LINKS);
    PiecesConcat(Heading(LINKS), LinkLines(Entries(f, p)));
    NothingReads();
    hide Pieces, LinkLines, Heading, HeadingSays, AnchorSays, Reaches, Entries, AnyLink;
  }

  lemma BlockedStatusReads(b: BlockedAlert)
    ensures Pieces(BlockedStatus(b)) ==
      UnlessEmpty("status", b.status) + UnlessEmpty("reason", b.reason)
      + UnlessEmpty("catalyst type", b.catalystType) + UnlessEmpty("expected timing", b.expectedTiming)
  {
    var w, x, y, z := FieldUnlessEmpty(STATUS, b.status), FieldUnlessEmpty(REASON, b.reason),
      FieldUnlessEmpty(CATALYST_TYPE, b.catalystType), FieldUnlessEmpty(EXPECTED_TIMING, b.expectedTiming);
    FieldReads(STATUS, b.status);
    FieldReads(REASON, b.reason);
    FieldReads(CATALYST_TYPE, b.catalystType);
    FieldReads(EXPECTED_TIMING, b.expectedTiming);
    assert EXPECTED_TIMING == "expected timing";
    PiecesConcat(w, x);
    PiecesConcat(w + x, y);
    PiecesConcat(w + x + y, z);
    hide Pieces, FieldUnlessEmpty, UnlessEmpty;
  }

  lemma BlockedScenariosRead(b: BlockedAlert)
    ensures Pieces(BlockedScenarios(b)) ==
      UnlessEmpty("bullish scenario", b.bullish) + UnlessEmpty("bearish scenario", b.bearish)
      + UnlessEmpty("invalidation scenario", b.invalidation) + UnlessEmpty("stance", b.stance)
  {
    var w, x, y, z := FieldUnlessEmpty(BULLISH, b.bullish), FieldUnlessEmpty(BEARISH, b.bearish),
      FieldUnlessEmpty(INVALIDATION, b.invalidation), FieldUnlessEmpty(STANCE, b.stance);
    FieldReads(BULLISH, b.bullish);
    FieldReads(BEARISH, b.bearish);
    FieldReads(INVALIDATION, b.invalidation);
    FieldReads(STANCE, b.stance);
    ScenarioWording();
    PiecesConcat(w, x);
    PiecesConcat(w + x, y);
    PiecesConcat(w + x + y, z);
    hide Pieces, FieldUnlessEmpty, UnlessEmpty, Join;
  }

  lemma ScenarioWording()
    ensures BULLISH == "bullish scenario" && BEARISH == "bearish scenario" && INVALIDATION == "invalidation scenario"
  {
  }

  lemma BlockedReads(f: Finding)
    ensures Pieces(Blocked(f)) == BlockedSays(f)
  {
    NothingReads();
    if f.blocked.Some? && !BlankBlock(f.blocked.value) {
      var b := f.blocked.value;
      HeadingReads(BLOCKED_ALERT);
      BlockedStatusReads(b);
      BlockedScenariosRead(b);
      PiecesConcat(Heading(BLOCKED_ALERT), BlockedStatus(b));
      PiecesConcat(Heading(BLOCKED_ALERT) + BlockedStatus(b), BlockedScenarios(b));
    }
    hide Pieces, Heading, HeadingSays, BlockedStatus, BlockedScenarios, UnlessEmpty;
  }

  lemma NoteLineReads(i: nat, raw: string)
    ensures Pieces(NoteLine(i, raw)) == if TrimSpace(raw) == "" then []
      else [if i == 0 then BULLET else "  ", Escape(TrimSpace(raw)), "\n"]
  {
    hide TrimSpace, Escape;
    NothingReads();
    if TrimSpace(raw) != "" {
      OneNode(NoteLine(i, raw)[0]);
    }
    hide Pieces;
  }

  lemma NoteFirst(first: string, rest: seq<string>, lead: string)
    ensures NoteSays([], lead) == []
    ensures NoteSays([first] + rest, lead)
      == (if TrimSpace(first) == "" then [] else [lead, Escape(TrimSpace(first)), "\n"]) + NoteSays(rest, "  ")
  {
    hide TrimSpace, Escape;
    assert ([first] + rest)[1..] == rest;
  }

  lemma {:induction false} NoteSnoc(lines: seq<string>, last: string, lead: string)
    ensures NoteSays(lines + [last], lead) == NoteSays(lines, lead)
      + if TrimSpace(last) == "" then [] else [if lines == [] then lead else "  ", Escape(TrimSpace(last)), "\n"]
    decreases |lines|
  {
    hide TrimSpace, Escape, NoteSays;
    if lines == [] {
      NoteFirst(last, [], lead);
      NoteFirst(last, [], "  ");
      assert lines + [last] == [last] + [];
    } else {
      var first, rest := lines[0], lines[1..];
      assert lines == [first] + rest && lines + [last] == [first] + (rest + [last]);
      NoteFirst(first, rest, lead);
      NoteFirst(first, rest + [last], lead);
      NoteSnoc(rest, last, "  ");
    }
  }

  lemma {:induction false} NoteReads(lines: seq<string>)
    ensures Pieces(NoteLines(lines)) == NoteSays(lines, BULLET)
    decreases |lines|
  {
    hide TrimSpace, Escape, NoteLine, Pieces;
    if lines == [] {
      NothingReads();
    } else {
      var n := |lines| - 1;
      NoteReads(lines[..n]);
      NoteLineReads(n, lines[n]);
      PiecesConcat(NoteLines(lines[..n]), NoteLine(n, lines[n]));
      assert lines == lines[..n] + [lines[n]];
      NoteSnoc(lines[..n], lines[n], BULLET);
    }
  }

  lemma AnalysisReads(f: Finding)
    ensures Pieces(Analysis(f)) == AnalysisSays(f)
  {
    var note := TrimSpace(f.analystNote);
    NothingReads();
    if note != "" {
      HeadingReads(AI_ANALYSIS);
      NoteReads(SplitLines(note));
      PiecesConcat(Heading(AI_ANALYSIS), NoteLines(SplitLines(note)));
    }
    hide Pieces, Heading, HeadingSays, NoteLines, NoteSays, TrimSpace, SplitLines;
  }

  lemma AnnotationHeadReads(a: AnnotationRef, p: Printer)
    ensures Pieces(AnnotationHead(a, p)) ==
      [BULLET, Escape(if a.at.Some? then p.date(a.at.value) else DASH), MIDDOT, "<b>", Escape(TrimSpace(a.title)), "</b>"]
  {
    var nodes := AnnotationHead(a, p);
    TwoNodes(nodes[0], nodes[1]);
    hide Pieces, Escape, TrimSpace;
  }

  lemma PriceMoveReads(a: AnnotationRef, p: Printer)
    ensures Pieces(PriceMove(a, p)) == MoveSays(a, p)
  {
    var nodes := PriceMove(a, p);
    NothingReads();
    if a.before.Some? && a.after.Some? {
      TwoNodes(nodes[0], nodes[1]);
      PriceNodes(a, p, a.before.value, a.after.value);
      hide PriceMove, NodePieces;
    } else if a.change.Some? {
      OneNode(nodes[0]);
    }
    hide Pieces;
  }

  lemma PriceNodes(a: AnnotationRef, p: Printer, before: real, after: real)
    requires a.before == Some(before) && a.after == Some(after)
    ensures var nodes := PriceMove(a, p);
      && |nodes| == 2
      && NodePieces(nodes[0]) == [MIDDOT, "price ", p.fixed(before, 2), "\U{E2}\U{86}\U{92}" + p.fixed(after, 2)]
      && NodePieces(nodes[1]) == if a.change.Some? then [" (", p.signed(a.change.value, 2), ")"] else []
  {
  }

  lemma OutcomeMarkReads(a: AnnotationRef)
    ensures Pieces(OutcomeMark(a)) == (if a.outcome == "" then [] else [MIDDOT, "outcome=", Escape(a.outcome)]) + ["\n"]
  {
    var nodes := OutcomeMark(a);
    OneNode(nodes[0]);
    hide Pieces, Escape;
  }

  lemma SummaryReads(a: AnnotationRef)
    ensures Pieces(SummaryLine(a)) == SummarySays(TrimSpace(a.summary))
  {
    hide TrimSpace, Escape;
    NothingReads();
    if TrimSpace(a.summary) != "" {
      OneNode(SummaryLine(a)[0]);
    }
    hide Pieces;
  }

  lemma SourceReads(a: AnnotationRef)
    ensures Pieces(SourceLine(a)) == if a.sourceName == "" then [] else ["  source: ", Escape(a.sourceName), "\n"]
  {
    NothingReads();
    if a.sourceName != "" {
      OneNode(SourceLine(a)[0]);
    }
    hide Pieces, Escape;
  }

  lemma AnnotationReads(a: AnnotationRef, p: Printer)
    ensures Pieces(Annotation(a, p)) == AnnotationSays(a, p)
  {
    var v, w, x, y := AnnotationHead(a, p), PriceMove(a, p), OutcomeMark(a), SummaryLine(a);
    AnnotationHeadReads(a, p);
    PriceMoveReads(a, p);
    OutcomeMarkReads(a);
    SummaryReads(a);
    SourceReads(a);
    PiecesConcat(v, w);
    PiecesConcat(v + w, x);
    PiecesConcat(v + w + x, y);
    PiecesConcat(v + w + x + y, SourceLine(a));
    hide Pieces, AnnotationHead, PriceMove, OutcomeMark, SummaryLine, SourceLine, MoveSays, SummarySays, Escape, TrimSpace;
  }

  lemma {:induction false} ThreeAnnotations(notes: seq<AnnotationRef>, p: Printer)
    requires 0 < |notes| <= 3
    ensures Pieces(AnnotationLines(notes, p)) == AnnotationSays(notes[0], p)
      + (if |notes| > 1 then AnnotationSays(notes[1], p) else [])
      + (if |notes| > 2 then AnnotationSays(notes[2], p) else [])
    decreases |notes|
  {
    hide Annotation, AnnotationSays, Pieces;
    var n := |notes| - 1;
    AnnotationReads(notes[n], p);
    PiecesConcat(AnnotationLines(notes[..n], p), Annotation(notes[n], p));
    if n > 0 {
      ThreeAnnotations(notes[..n], p);
    } else {
      NothingReads();
      assert AnnotationLines([], p) == [] && notes[..0] == [];
    }
  }

  lemma AnnotationsRead(f: Finding, p: Printer)
    ensures Pieces(Annotations(f, p)) == AnnotationsSay(f, p)
  {
    NothingReads();
    if f.recentAnnotations != [] {
      var notes := FirstThree(f.recentAnnotations);
      HeadingReads(ANNOTATIONS);
      AnnotationsHeading();
      ThreeAnnotations(notes, p);
      PiecesConcat(Heading(ANNOTATIONS), AnnotationLines(notes, p));
    }
    hide Pieces, Heading, HeadingSays, AnnotationLines, AnnotationSays;
  }

  lemma AnnotationsHeading()
    ensures ANNOTATIONS == "Recent annotations"
  {
  }

  /**
   * The alert prints exactly that list: every label, every figure and every text of the finding,
   * each escaped where it is external, in that order.
   */
  lemma MessageSays(f: Finding, p: Printer)
    ensures Html(Message(f, p)) == Cat(AlertSays(f, p))
  {
    var a, b, c, d := Header(f, p), Why(f, p), TradeBlock(f, p), Links(f, p);
    var x, y, z := Blocked(f), Analysis(f), Annotations(f, p);
    HeaderReads(f, p);
    WhyReads(f, p);
    TradeReads(f, p);
    LinksRead(f, p);
    BlockedReads(f);
    AnalysisReads(f);
    AnnotationsRead(f, p);
    CatPieces(Message(f, p));
    hide Pieces, Html, Cat, Header, Why, TradeBlock, Links, Blocked, Analysis, Annotations;
    hide HeaderSays, WhySays, TradeSays, LinksSays, BlockedSays, AnalysisSays, AnnotationsSay;
    assert Message(f, p) == a + b + c + d + x + y + z;
    PiecesConcat(a, b);
    PiecesConcat(a + b, c);
    PiecesConcat(a + b + c, d);
    PiecesConcat(a + b + c + d, x);
    PiecesConcat(a + b + c + d + x, y);
    PiecesConcat(a + b + c + d + x + y, z);
  }

  // ---- what the figures mean ---------------------------------------------------------------------

  /** A whole duration in two units: `a` of the larger, `b` of the smaller, and less than one of the smaller over. */
  predicate InUnits(d: int, large: int, small: int, a: int, b: int) {
    a * large + b * small <= d < a * large + (b + 1) * small && 0 <= b && b * small < large
  }

  /** Durations in nanoseconds: less than a minute, minutes, hours and minutes, or days and hours. */
  lemma DurationMeans(d: int) returns (a: int, b: int)
    ensures d < 60_000_000_000 ==> DurationSays(d) == ["&lt;1m"]
    ensures 60_000_000_000 <= d < 3_600_000_000_000 ==>
      1 <= a < 60 && a * 60_000_000_000 <= d < (a + 1) * 60_000_000_000 && DurationSays(d) == [TradeIngest.FormatInt(a), "m"]
    ensures 3_600_000_000_000 <= d < 86_400_000_000_000 ==>
      1 <= a < 24 && b < 60 && InUnits(d, 3_600_000_000_000, 60_000_000_000, a, b)
      && DurationSays(d) == [TradeIngest.FormatInt(a), "h", TradeIngest.FormatInt(b), "m"]
    ensures 86_400_000_000_000 <= d ==>
      1 <= a && b < 24 && InUnits(d, 86_400_000_000_000, 3_600_000_000_000, a, b)
      && DurationSays(d) == [TradeIngest.FormatInt(a), "d"] + if b > 0 then [TradeIngest.FormatInt(b), "h"] else []
  {
    hide TradeIngest.FormatInt;
    a, b := 0, 0;
    if d >= DAY {
      a, b := d / DAY, d % DAY / HOUR;
    } else if d >= HOUR {
      a, b := d / HOUR, d % HOUR / MINUTE;
    } else if d >= MINUTE {
      a := d / MINUTE;
    } else {
      assert "&lt;" + "1m" == "&lt;1m";
    }
  }

  /** The lines joined by newlines. */
  function Joined(lines: seq<string>): string
    requires lines != []
  {
    if |lines| == 1 then lines[0] else lines[0] + "\n" + Joined(lines[1..])
  }

  lemma JoinedMore(first: string, rest: seq<string>)
    requires rest != []
    ensures Joined([first]) == first && Joined([first] + rest) == first + "\n" + Joined(rest)
  {
    assert ([first] + rest)[1..] == rest;
  }

  /** Splitting loses nothing and leaves no newline in a line. */
  lemma {:induction false} LinesMean(s: string)
    ensures Joined(SplitLines(s)) == s && forall i :: 0 <= i < |SplitLines(s)| ==> '\n' !in SplitLines(s)[i]
    decreases |s|
  {
    hide IndexByte, Joined;
    var k := IndexByte(s, '\n');
    if k < 0 {
      JoinedMore(s, [s]);
    } else {
      var first, after := s[..k], s[k + 1..];
      LinesMean(after);
      JoinedMore(first, SplitLines(after));
      NewlineAt(s, k);
      assert SplitLines(s) == [first] + SplitLines(after);
    }
  }

  lemma NewlineAt(s: string, k: nat)
    requires k < |s| && s[k] == '\n'
    ensures s == s[..k] + "\n" + s[k + 1..]
  {
  }
}
