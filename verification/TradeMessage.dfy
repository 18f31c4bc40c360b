/**
 * The alert body for one trade finding (internal/infra/alerting/telegram.go, lines 398-441,
 * 462-662, 704-868 and 888-1024): each section as the document it writes.
 *
 * The wording is in bytes, so a bullet or a dash is its UTF-8 encoding. Number and time
 * printing (`fmt`, `time.Format`) and the reachability test on links are parameters.
 */
module TradeMessage {
  import opened Optional
  import opened TextBytes
  import opened TelegramHtml
  import opened Wording
  import TradeIngest

  datatype TradeRef = TradeRef(
    wallet: string, market: string, slug: string, question: string, outcome: string, side: string,
    sizeShares: real, price: real, odds: real, notionalUSD: real, at: int)

  datatype BaselineRef = BaselineRef(
    medianUSD: real, meanUSD: real, p95USD: real, p99USD: real, sampleN: int, span: int)

  datatype QuietMarketRef = QuietMarketRef(tradesPerDay: real, notionalPerDayUSD: real, idle: int)

  datatype NewWalletRef = NewWalletRef(firstSeenKnown: bool, ageAtTrade: int, historyTrades: int, isNew: bool)

  datatype AnnotationRef = AnnotationRef(
    title: string, summary: string, outcome: string, at: Option<int>,
    before: Option<real>, after: Option<real>, change: Option<real>, sourceName: string)

  datatype BlockedAlert = BlockedAlert(
    status: string, reason: string, catalystType: string, expectedTiming: string, bullish: string,
    bearish: string, invalidation: string, stance: string)

  /** The fields of anomaly.Finding that the body of a trade alert reads. Durations are nanoseconds. */
  datatype Finding = Finding(
    kind: string, severity: string, trade: Option<TradeRef>, clusterTotalUSD: Option<real>,
    baseline: Option<BaselineRef>, traderBaseline: Option<BaselineRef>,
    grossPayoutIfWinUSD: real, profitIfWinUSD: real,
    marketP95Ratio: real, marketP99Ratio: real, traderP95Ratio: real, traderP99Ratio: real,
    payoffGatePassed: bool, lowMarketConfidence: bool, lowTraderConfidence: bool, severityCapped: bool,
    categoryName: Option<string>, newWallet: Option<NewWalletRef>, dormantIdle: Option<int>,
    ownershipPct: Option<real>, quietMarket: Option<QuietMarketRef>, lifecyclePct: real, hot: bool,
    inCluster: bool, clusterPeers: int, marketURL: string, categoryURL: string, traderURL: string,
    grafanaURL: string, analystNote: string, blocked: Option<BlockedAlert>,
    recentAnnotations: seq<AnnotationRef>)

  /**
   * `fixed(v, d)` prints with `d` decimals, `signed` with the sign; `stamp` and `date` print a
   * time; `reachable` is whether a URL parses as http(s) with a public host.
   */
  datatype Printer = Printer(
    fixed: (real, nat) -> Figure, signed: (real, nat) -> Figure, stamp: int -> Figure, date: int -> Figure,
    reachable: string -> bool)

  predicate IsSeverity(s: string) { s in {"info", "warning", "critical", "hard"} }

  const DASH: Cell := "\U{E2}\U{80}\U{94}"
  const ARROW := "\U{E2}\U{86}\U{92}"
  const ELLIPSIS: Cell := "\U{E2}\U{80}\U{A6}"

  function Join(a: Cell, b: Cell): Cell {
    JoinIsCell(a, b);
    a + b
  }

  lemma JoinIsCell(a: Cell, b: Cell)
    ensures Markless(a + b) && Quiet(a + b)
  {
    hide Quiet;
    QuietConcat(a, b);
  }

  // Headings and labels.
  const MARKET_TAIL: Cell := "market tail"
  const TRADER_TAIL: Cell := "trader tail"
  const UNENFORCED: Cell := ": unenforced "
  const PEERS: Cell := Join(" anomalous", " trades")
  const WINDOW: Cell := Join(" in the current", " window\n")
  const STATUS: Cell := "status"
  const REASON: Cell := "reason"
  const CATALYST_TYPE: Cell := "catalyst type"
  const EXPECTED_TIMING: Cell := Join("expected", " timing")
  const BULLISH: Cell := Join("bullish", " scenario")
  const BEARISH: Cell := Join("bearish", " scenario")
  const INVALIDATION: Cell := Join("invalidation", " scenario")
  const STANCE: Cell := "stance"
  const BLOCKED_ALERT: Cell := "Blocked Alert"
  const AI_ANALYSIS: Cell := "AI analysis"
  const ANNOTATIONS: Cell := Join("Recent", " annotations")
  const LINKS: Cell := "Links"
  const WHY: Cell := "Why"
  const TRADE: Cell := "Trade"
  const CATEGORY: Cell := "category"

  // Phrases of the Why and Trade sections.
  const NEW_WALLET: Cell := "new wallet"
  const SPAN: Cell := ", span "
  const P99: Cell := ", p99 "
  const P95: Cell := ", p95 "
  const TRADES_MEDIAN: Cell := Join(" trades,", " median $")
  const STORED_TRADES: Cell := " stored trades\n"
  const AVAILABLE: Cell := " available)\n"
  const TRADER_HISTORY: Cell := "trader history: "
  const SINGLE_TRADE: Cell := "single trade ("
  const SEVERITY_REDUCED: Cell := Join("severity", " reduced to ")
  const WAKE_UP: Cell := Join("quiet-market", " wake-up")
  const PAYOFF_IF_WIN: Cell := Join("payoff if win:", " profit ")
  const PAYOFF_GATE: Cell := "payoff gate"
  const FORMING_CLUSTER: Cell := Join("part of a", " forming cluster")
  const OWNERSHIP: Cell := Join("ownership", " context")
  const NO_PEERS: Cell := "no peers in "
  const LIFECYCLE: Cell := Join("market lifecycle", ": ")
  const MARKET_BASELINE: Cell := Join("market baseline", ": ")
  const REVIVAL: Cell := Join("dormant-wallet", " revival")
  const WINDOW_YET: Cell := Join("cluster window", " yet)\n")
  const NOTIONAL: Cell := ": notional "
  const IDLE: Cell := ": idle "
  const ACTIVITY: Cell := Join(": historical", " activity ")
  const FIRST_SEEN: Cell := ": first seen "
  const MEAN: Cell := ", mean $"
  const IMPLIED_PROBABILITY: Cell := Join(", implied", " probability ")
  const ALSO_IDLE: Cell := ", idle "
  const ONLY: Cell := "(only "
  const NO_TRADER_HISTORY: Cell := Join("(no trader", " history")
  const NO_MARKET_BASELINE: Cell := Join("(no market", " baseline")
  const THIN_BASELINE: Cell := "(baseline thin "
  const APPROX: Cell := "(approx.)\n"
  const FOR_TIER: Cell := Join("(MinProfitUSD=0", " for tier)\n")
  const OF_BUY_FLOW: Cell := Join("% of recorded", " BUY flow ")
  const TRADES_A_DAY: Cell := " trades/day, $"
  const TRADER_TRADES: Cell := " trader trades"
  const SHARES_AT: Cell := " shares @ "
  const SAMPLES: Cell := " samples)\n"
  const ON_RECORD: Cell := " on record)\n"
  const FINAL_STRETCH: Cell := " final stretch)"
  const ELAPSED: Cell := " elapsed"
  const DUE_TO_BASELINE: Cell := Join(" due to thin", " baseline\n")
  const BEFORE_THIS_TRADE: Cell := Join(" before this", " trade\n")
  const AGO: Cell := " ago, "
  const GROSS: Cell := " (gross $"
  const HOT_STRETCH: Cell := " (HOT "
  const A_DAY: Cell := "/day"
  const ODDS: Cell := "odds "

  // ---- cells --------------------------------------------------------------------------------

  lemma IntIsFigure(n: int)
    ensures var s := TradeIngest.FormatInt(n); Markless(s) && Quiet(s) && IsFigure(s)
  {
    var s := TradeIngest.FormatInt(n);
    assert forall i :: 0 <= i < |s| ==> s[i] == '-' || s[i] in TradeIngest.Digits(if n < 0 then -n else n);
    FigureIsQuiet(s);
  }

  function Int(n: int): Figure {
    IntIsFigure(n);
    TradeIngest.FormatInt(n)
  }

  /** Thousands separated by commas. */
  function Grouped(s: string): (r: string)
    ensures |r| >= |s|
  {
    if |s| <= 3 then s else Grouped(s[..|s| - 3]) + "," + s[|s| - 3..]
  }

  lemma {:induction false} GroupedBytes(s: string)
    requires IsFigure(s)
    ensures IsFigure(Grouped(s))
    decreases |s|
  {
    if |s| > 3 {
      GroupedBytes(s[..|s| - 3]);
    }
  }

  function GroupedFigure(s: Figure): Figure {
    GroupedBytes(s);
    FigureIsQuiet(Grouped(s));
    Grouped(s)
  }

  function Money(p: Printer, v: real): Figure {
    if v >= 1000.0 then GroupedFigure(Int(v.Floor)) else p.fixed(v, 2)
  }

  lemma ArrowIsQuiet(s: Figure)
    ensures Markless(ARROW + s) && Quiet(ARROW + s)
  {
    var t := ARROW + s;
    assert forall i :: 0 <= i < |s| ==> t[3 + i] == s[i] && IsFigureByte(s[i]);
  }

  function ArrowTo(s: Figure): Cell {
    ArrowIsQuiet(s);
    ARROW + s
  }

  function Ratio(p: Printer, v: real): Figure { if v >= 10.0 then p.fixed(v, 0) else p.fixed(v, 2) }

  function RatePerDay(p: Printer, v: real): Figure { if v >= 10.0 then p.fixed(v, 0) else p.fixed(v, 1) }

  function Multiplier(p: Printer, v: real): Figure {
    if v >= 100.0 then p.fixed(v, 0) else if v >= 10.0 then p.fixed(v, 1) else p.fixed(v, 2)
  }

  function Percentile(p: Printer, v: real): seq<Span> {
    if v <= 0.0 then [Lit("n/a")] else [Lit("$"), Lit(Money(p, v))]
  }

  const MINUTE := 60_000_000_000
  const HOUR := 60 * MINUTE
  const DAY := 24 * HOUR

  function Duration(d: int): seq<Span> {
    if d < MINUTE then [Less("1m")]
    else if d >= DAY && d % DAY >= HOUR then [Lit(Int(d / DAY)), Lit("d"), Lit(Int(d % DAY / HOUR)), Lit("h")]
    else if d >= DAY then [Lit(Int(d / DAY)), Lit("d")]
    else if d >= HOUR then [Lit(Int(d / HOUR)), Lit("h"), Lit(Int(d % HOUR / MINUTE)), Lit("m")]
    else [Lit(Int(d / MINUTE)), Lit("m")]
  }

  // ---- header ---------------------------------------------------------------------------------

  function TradeTitle(f: Finding): string {
    if f.trade.None? then "anomaly"
    else if f.trade.value.question != "" then f.trade.value.question
    else if f.trade.value.slug != "" then f.trade.value.slug
    else f.trade.value.market
  }

  function Notional(f: Finding): real {
    if f.trade.Some? then f.trade.value.notionalUSD
    else if f.clusterTotalUSD.Some? then f.clusterTotalUSD.value
    else 0.0
  }

  function SeveritySpans(f: Finding): seq<Span> { [Raw(ToUpper(f.severity)), Lit(": ")] }

  function ProfitSpans(f: Finding, p: Printer): seq<Span> {
    if f.profitIfWinUSD > 0.0 then [Lit("profit $"), Lit(Money(p, f.profitIfWinUSD)), Lit(MIDDOT)] else []
  }

  function AmountSpans(f: Finding, p: Printer): seq<Span> { [Lit("$"), Lit(Money(p, Notional(f)))] }

  function HotSpans(f: Finding): seq<Span> { if f.hot then [Lit(MIDDOT), Lit("HOT")] else [] }

  function TitleSpan(f: Finding): seq<Span> { [Lit(MIDDOT), Field(TradeTitle(f))] }

  function Header(f: Finding, p: Printer): seq<Node> {
    [Bold(SeveritySpans(f) + ProfitSpans(f, p) + AmountSpans(f, p) + HotSpans(f) + TitleSpan(f)), Text([Lit(NEWLINE)])]
  }

  function Heading(title: Cell): seq<Node> { [Text([Lit(NEWLINE)]), Bold([Lit(title)]), Text([Lit(NEWLINE)])] }

  // ---- why --------------------------------------------------------------------------------------

  function PayoffLine(f: Finding, p: Printer): seq<Node> {
    [Text([Lit(BULLET), Lit(PAYOFF_IF_WIN)]), Bold([Lit("$"), Lit(Money(p, f.profitIfWinUSD))]),
     Text([Lit(GROSS), Lit(Money(p, f.grossPayoutIfWinUSD)), Lit(")\n")])]
  }

  function TailSegment(p: Printer, separator: Cell, ratio: real, name: Cell, amount: real): seq<Node> {
    [Text([Lit(separator)]), Bold([Lit(Ratio(p, ratio)), Lit("x "), Lit(name)]),
     Text([Lit(" ($"), Lit(Money(p, amount)), Lit(")")])]
  }

  function TailStart(p: Printer, name: Cell, notional: real): seq<Node> {
    [Text([Lit(BULLET), Lit(name), Lit(NOTIONAL)]), Bold([Lit("$"), Lit(Money(p, notional))])]
  }

  function TailRow(p: Printer, name: Cell, notional: real, r95: real, p95: real, r99: real, p99: real): seq<Node> {
    TailStart(p, name, notional)
    + (if r95 > 0.0 && p95 > 0.0 then TailSegment(p, " = ", r95, "p95", p95) else [])
    + (if r99 > 0.0 && p99 > 0.0 then TailSegment(p, if r95 <= 0.0 || p95 <= 0.0 then " = " else ", ", r99, "p99", p99)
      else [])
    + [Text([Lit(NEWLINE)])]
  }

  predicate HasTail(b: Option<BaselineRef>, r95: real, r99: real) {
    b.Some? && b.value.sampleN > 0 && (r95 > 0.0 || r99 > 0.0)
  }

  function OddsLine(t: TradeRef, p: Printer): seq<Node> {
    [Text([Lit(BULLET), Lit(ODDS)]), Bold([Lit(Multiplier(p, t.odds))]), Text([Lit(IMPLIED_PROBABILITY)]),
     Bold([Lit(p.fixed(t.price * 100.0, 1)), Lit("%")]), Text([Lit(NEWLINE)])]
  }

  function BaselineLine(b: BaselineRef, p: Printer): seq<Node> {
    [Text([Lit(BULLET), Lit(MARKET_BASELINE)]), Bold([Lit(Int(b.sampleN))]),
     Text([Lit(TRADES_MEDIAN), Lit(Money(p, b.medianUSD)), Lit(MEAN), Lit(Money(p, b.meanUSD))]),
     Text([Lit(P95)] + Percentile(p, b.p95USD)), Text([Lit(P99)] + Percentile(p, b.p99USD)),
     Text([Lit(SPAN)] + Duration(b.span)), Text([Lit(NEWLINE)])]
  }

  function TraderLine(b: BaselineRef, p: Printer): seq<Node> {
    [Text([Lit(BULLET), Lit(TRADER_HISTORY)]), Bold([Lit(Int(b.sampleN))]),
     Text([Lit(TRADES_MEDIAN), Lit(Money(p, b.medianUSD))]),
     Text([Lit(P95)] + Percentile(p, b.p95USD)), Text([Lit(P99)] + Percentile(p, b.p99USD)),
     Text([Lit(SPAN)] + Duration(b.span)), Text([Lit(NEWLINE)])]
  }

  function PayoffGateLine(): seq<Node> {
    [Text([Lit(BULLET), Lit(PAYOFF_GATE), Lit(UNENFORCED), Lit(FOR_TIER)])]
  }

  function MarketGate(f: Finding): seq<Node> {
    if !f.lowMarketConfidence then []
    else if f.baseline.Some? && f.baseline.value.sampleN > 0 then ThinMarketLine(f.baseline.value.sampleN)
    else NoMarketLine()
  }

  function TraderGate(f: Finding): seq<Node> {
    if !f.lowTraderConfidence then []
    else if f.traderBaseline.Some? && f.traderBaseline.value.sampleN > 0 then ThinTraderLine(f.traderBaseline.value.sampleN)
    else NoTraderLine()
  }

  function TailGateStatus(f: Finding): seq<Node> { MarketGate(f) + TraderGate(f) }

  function ThinMarketLine(n: int): seq<Node> {
    [Text([Lit(BULLET), Lit(MARKET_TAIL), Lit(UNENFORCED), Lit(THIN_BASELINE), Lit(DASH), Lit(" "), Lit(Int(n)),
           Lit(SAMPLES)])]
  }

  function NoMarketLine(): seq<Node> {
    [Text([Lit(BULLET), Lit(MARKET_TAIL), Lit(UNENFORCED), Lit(NO_MARKET_BASELINE), Lit(AVAILABLE)])]
  }

  function ThinTraderLine(n: int): seq<Node> {
    [Text([Lit(BULLET), Lit(TRADER_TAIL), Lit(UNENFORCED), Lit(ONLY), Lit(Int(n)), Lit(TRADER_TRADES), Lit(ON_RECORD)])]
  }

  function NoTraderLine(): seq<Node> {
    [Text([Lit(BULLET), Lit(TRADER_TAIL), Lit(UNENFORCED), Lit(NO_TRADER_HISTORY), Lit(AVAILABLE)])]
  }

  function CappedLine(f: Finding): seq<Node> {
    [Text([Lit(BULLET), Lit(SEVERITY_REDUCED)]), Bold([Raw(f.severity)]), Text([Lit(DUE_TO_BASELINE)])]
  }

  function DormantLine(idle: int): seq<Node> {
    [Text([Lit(BULLET)]), Bold([Lit(REVIVAL)]), Text([Lit(IDLE)] + Duration(idle)),
     Text([Lit(BEFORE_THIS_TRADE)])]
  }

  function OwnershipLine(pct: real, p: Printer): seq<Node> {
    [Text([Lit(BULLET)]), Bold([Lit(OWNERSHIP)]),
     Text([Lit(": ~"), Lit(p.fixed(pct, 1)), Lit(OF_BUY_FLOW), Lit(APPROX)])]
  }

  function LifecycleLine(f: Finding, p: Printer): seq<Node> {
    [Text([Lit(BULLET), Lit(LIFECYCLE)]), Bold([Lit(p.fixed(f.lifecyclePct, 1)), Lit("%")]),
     Text([Lit(ELAPSED)] + (if f.hot then [Lit(HOT_STRETCH), Lit(DASH), Lit(FINAL_STRETCH)] else [])),
     Text([Lit(NEWLINE)])]
  }

  function QuietMarket(f: Finding, p: Printer): seq<Node> {
    if f.quietMarket.None? then [] else
      var q := f.quietMarket.value;
      [Text([Lit(BULLET)]), Bold([Lit(WAKE_UP)]),
       Text([Lit(ACTIVITY), Lit("\U{E2}\U{89}\U{88} "), Lit(RatePerDay(p, q.tradesPerDay))]),
       Text([Lit(TRADES_A_DAY), Lit(Money(p, q.notionalPerDayUSD)), Lit(A_DAY)]),
       Text(if q.idle > 0 then [Lit(ALSO_IDLE)] + Duration(q.idle) else []), Text([Lit(NEWLINE)])]
  }

  function SeenLine(w: NewWalletRef): seq<Node> {
    [Text([Lit(BULLET)]), Bold([Lit(NEW_WALLET)]), Text([Lit(FIRST_SEEN)] + Duration(w.ageAtTrade)),
     Text([Lit(AGO), Lit(Int(w.historyTrades)), Lit(STORED_TRADES)])]
  }

  function StoredLine(w: NewWalletRef): seq<Node> {
    [Text([Lit(BULLET)]), Bold([Lit(NEW_WALLET)]), Text([Lit(": "), Lit(Int(w.historyTrades)), Lit(STORED_TRADES)])]
  }

  function NewWallet(f: Finding): seq<Node> {
    if f.newWallet.None? || !f.newWallet.value.isNew then []
    else if f.newWallet.value.firstSeenKnown && f.newWallet.value.ageAtTrade > 0 then SeenLine(f.newWallet.value)
    else StoredLine(f.newWallet.value)
  }

  function ClusterLine(f: Finding): seq<Node> {
    [Text([Lit(BULLET)]), Bold([Lit(FORMING_CLUSTER)]),
     Text([Lit(": "), Lit(Int(f.clusterPeers)), Lit(PEERS), Lit(WINDOW)])]
  }

  function SingleLine(): seq<Node> {
    [Text([Lit(BULLET), Lit(SINGLE_TRADE), Lit(NO_PEERS), Lit(WINDOW_YET)])]
  }

  function Peers(f: Finding): seq<Node> {
    if f.kind != "trade_anomaly" then [] else if f.inCluster then ClusterLine(f) else SingleLine()
  }

  function MarketTail(f: Finding, p: Printer): seq<Node> {
    if HasTail(f.baseline, f.marketP95Ratio, f.marketP99Ratio) then
      TailRow(p, MARKET_TAIL, Notional(f), f.marketP95Ratio, f.baseline.value.p95USD, f.marketP99Ratio,
        f.baseline.value.p99USD)
    else []
  }

  function TraderTail(f: Finding, p: Printer): seq<Node> {
    if HasTail(f.traderBaseline, f.traderP95Ratio, f.traderP99Ratio) then
      TailRow(p, TRADER_TAIL, Notional(f), f.traderP95Ratio, f.traderBaseline.value.p95USD, f.traderP99Ratio,
        f.traderBaseline.value.p99USD)
    else []
  }

  function Payoff(f: Finding, p: Printer): seq<Node> { if f.profitIfWinUSD > 0.0 then PayoffLine(f, p) else [] }

  function Odds(f: Finding, p: Printer): seq<Node> {
    if f.trade.Some? && f.trade.value.odds > 0.0 then OddsLine(f.trade.value, p) else []
  }

  function Baseline(f: Finding, p: Printer): seq<Node> {
    if f.baseline.Some? then BaselineLine(f.baseline.value, p) else []
  }

  function TraderHistory(f: Finding, p: Printer): seq<Node> {
    if f.traderBaseline.Some? then TraderLine(f.traderBaseline.value, p) else []
  }

  function PayoffGate(f: Finding): seq<Node> {
    if !f.payoffGatePassed && f.profitIfWinUSD > 0.0 then PayoffGateLine() else []
  }

  function CappedNote(f: Finding): seq<Node> { if f.severityCapped then CappedLine(f) else [] }

  function Dormant(f: Finding): seq<Node> {
    if f.dormantIdle.Some? && f.dormantIdle.value > 0 then DormantLine(f.dormantIdle.value) else []
  }

  function Ownership(f: Finding, p: Printer): seq<Node> {
    if f.ownershipPct.Some? && f.kind != "ownership_concentration" then OwnershipLine(f.ownershipPct.value, p) else []
  }

  function Lifecycle(f: Finding, p: Printer): seq<Node> { if f.lifecyclePct > 0.0 then LifecycleLine(f, p) else [] }

  function WhyNumbers(f: Finding, p: Printer): seq<Node> {
    Payoff(f, p) + MarketTail(f, p) + TraderTail(f, p) + Odds(f, p) + Baseline(f, p) + TraderHistory(f, p) + PayoffGate(f)
  }

  function WhyContext(f: Finding, p: Printer): seq<Node> {
    TailGateStatus(f) + CappedNote(f) + Dormant(f) + Ownership(f, p) + Lifecycle(f, p) + QuietMarket(f, p) + NewWallet(f)
    + Peers(f)
  }

  function Why(f: Finding, p: Printer): seq<Node> {
    Heading(WHY) + WhyNumbers(f, p) + WhyContext(f, p)
  }

  // ---- trade and links ----------------------------------------------------------------------------

  function OutcomeLine(t: TradeRef): seq<Node> {
    [Text([Lit(BULLET), Lit("outcome: ")]), Bold([Field(t.outcome)]), Text([Lit(" ("), Field(t.side), Lit(")\n")])]
  }

  function SizeLine(t: TradeRef, p: Printer): seq<Node> {
    [Text([Lit(BULLET), Lit("size: $"), Lit(Money(p, t.notionalUSD)), Lit(" (")]),
     Text([Lit(p.fixed(t.sizeShares, 2)), Lit(SHARES_AT), Lit(p.fixed(t.price, 4)), Lit(")\n")])]
  }

  function WalletLine(t: TradeRef): seq<Node> {
    [Text([Lit(BULLET), Lit("trader: ")]), Code([Field(t.wallet)]), Text([Lit(NEWLINE)])]
  }

  function FieldLine(name: Cell, value: string): seq<Node> {
    [Text([Lit(BULLET), Lit(name), Lit(": "), Field(value), Lit(NEWLINE)])]
  }

  function TimeLine(t: TradeRef, p: Printer): seq<Node> {
    [Text([Lit(BULLET), Lit("time: "), Lit(p.stamp(t.at)), Lit(NEWLINE)])]
  }

  function Outcome(t: TradeRef): seq<Node> { if t.outcome != "" || t.side != "" then OutcomeLine(t) else [] }

  function Wallet(t: TradeRef): seq<Node> { if t.wallet != "" then WalletLine(t) else [] }

  function Category(f: Finding): seq<Node> {
    if f.categoryName.Some? && f.categoryName.value != "" then FieldLine(CATEGORY, f.categoryName.value) else []
  }

  function TradeBlock(f: Finding, p: Printer): seq<Node> {
    if f.trade.None? then [] else
      var t := f.trade.value;
      Heading(TRADE) + Outcome(t) + SizeLine(t, p) + Wallet(t) + Category(f) + TimeLine(t, p)
  }

  datatype Entry = Entry(caption: string, href: string)

  function SanitizeLinkURL(raw: string, p: Printer): string { if raw != "" && p.reachable(raw) then raw else "" }

  function Entries(f: Finding, p: Printer): seq<Entry> {
    [Entry("Polymarket market", SanitizeLinkURL(f.marketURL, p)),
     Entry("Polymarket category", SanitizeLinkURL(f.categoryURL, p)),
     Entry("Trader", SanitizeLinkURL(f.traderURL, p)),
     Entry("Grafana", SanitizeLinkURL(f.grafanaURL, p))]
  }

  function LinkLine(e: Entry): seq<Node> {
    [Text([Lit(BULLET)]), Link(e.href, e.caption), Text([Lit(NEWLINE)])]
  }

  function LinkLines(es: seq<Entry>): seq<Node> {
    if es == [] then [] else
      var last := es[|es| - 1];
      LinkLines(es[..|es| - 1]) + (if last.href == "" then [] else LinkLine(last))
  }

  predicate AnyLink(es: seq<Entry>) { exists i :: 0 <= i < |es| && es[i].href != "" }

  function Links(f: Finding, p: Printer): seq<Node> {
    if AnyLink(Entries(f, p)) then Heading(LINKS) + LinkLines(Entries(f, p)) else []
  }

  // ---- analyst note ---------------------------------------------------------------------------------

  predicate BlankBlock(b: BlockedAlert) {
    b.status == "" && b.reason == "" && b.catalystType == "" && b.bullish == "" && b.bearish == ""
    && b.invalidation == "" && b.stance == ""
  }

  function FieldUnlessEmpty(name: Cell, value: string): seq<Node> { if value == "" then [] else FieldLine(name, value) }

  function BlockedStatus(b: BlockedAlert): seq<Node> {
    FieldUnlessEmpty(STATUS, b.status)
    + FieldUnlessEmpty(REASON, b.reason)
    + FieldUnlessEmpty(CATALYST_TYPE, b.catalystType)
    + FieldUnlessEmpty(EXPECTED_TIMING, b.expectedTiming)
  }

  function BlockedScenarios(b: BlockedAlert): seq<Node> {
    FieldUnlessEmpty(BULLISH, b.bullish)
    + FieldUnlessEmpty(BEARISH, b.bearish)
    + FieldUnlessEmpty(INVALIDATION, b.invalidation)
    + FieldUnlessEmpty(STANCE, b.stance)
  }

  function Blocked(f: Finding): seq<Node> {
    if f.blocked.None? || BlankBlock(f.blocked.value) then []
    else Heading(BLOCKED_ALERT) + BlockedStatus(f.blocked.value) + BlockedScenarios(f.blocked.value)
  }

  /** `strings.Split(s, "\n")`. */
  function SplitLines(s: string): (r: seq<string>)
    ensures |r| > 0
    decreases |s|
  {
    var k := IndexByte(s, '\n');
    if k < 0 then [s] else [s[..k]] + SplitLines(s[k + 1..])
  }

  function NoteLine(i: nat, raw: string): seq<Node> {
    var line := TrimSpace(raw);
    if line == "" then [] else [Text([Lit(if i == 0 then BULLET else "  "), Field(line), Lit(NEWLINE)])]
  }

  function NoteLines(lines: seq<string>): seq<Node> {
    if lines == [] then [] else
      var n := |lines| - 1;
      NoteLines(lines[..n]) + NoteLine(n, lines[n])
  }

  function AnnotationHead(a: AnnotationRef, p: Printer): seq<Node> {
    var date := if a.at.Some? then p.date(a.at.value) else DASH;
    [Text([Lit(BULLET), Field(date), Lit(MIDDOT)]), Bold([Field(TrimSpace(a.title))])]
  }

  function PriceMove(a: AnnotationRef, p: Printer): seq<Node> {
    if a.before.Some? && a.after.Some? then
      [Text([Lit(MIDDOT), Lit("price "), Lit(p.fixed(a.before.value, 2)), Lit(ArrowTo(p.fixed(a.after.value, 2)))]),
       Text(if a.change.Some? then [Lit(" ("), Lit(p.signed(a.change.value, 2)), Lit(")")] else [])]
    else if a.change.Some? then [Text([Lit(MIDDOT), Lit("\U{CE}\U{94}"), Lit(p.signed(a.change.value, 2))])]
    else []
  }

  /** The outcome, if any, and the end of the line. */
  function OutcomeMark(a: AnnotationRef): seq<Node> {
    [Text((if a.outcome == "" then [] else [Lit(MIDDOT), Lit("outcome="), Field(a.outcome)]) + [Lit(NEWLINE)])]
  }

  function Capped(s: string): string { if |s| > 220 then s[..219] + ELLIPSIS else s }

  function SummaryLine(a: AnnotationRef): seq<Node> {
    var s := TrimSpace(a.summary);
    if s == "" then [] else [Text([Lit("  "), Field(Capped(s)), Lit(NEWLINE)])]
  }

  function SourceLine(a: AnnotationRef): seq<Node> {
    if a.sourceName == "" then [] else [Text([Lit("  source: "), Field(a.sourceName), Lit(NEWLINE)])]
  }

  function Annotation(a: AnnotationRef, p: Printer): seq<Node> {
    AnnotationHead(a, p) + PriceMove(a, p) + OutcomeMark(a) + SummaryLine(a) + SourceLine(a)
  }

  function AnnotationLines(as': seq<AnnotationRef>, p: Printer): seq<Node> {
    if as' == [] then [] else AnnotationLines(as'[..|as'| - 1], p) + Annotation(as'[|as'| - 1], p)
  }

  function FirstThree<T>(xs: seq<T>): seq<T> { if |xs| > 3 then xs[..3] else xs }

  function Annotations(f: Finding, p: Printer): seq<Node> {
    if f.recentAnnotations == [] then []
    else Heading(ANNOTATIONS) + AnnotationLines(FirstThree(f.recentAnnotations), p)
  }

  function Analysis(f: Finding): seq<Node> {
    var note := TrimSpace(f.analystNote);
    if note == "" then [] else Heading(AI_ANALYSIS) + NoteLines(SplitLines(note))
  }

  function AnalystNote(f: Finding, p: Printer): seq<Node> {
    Blocked(f) + Analysis(f) + Annotations(f, p)
  }

  function Message(f: Finding, p: Printer): seq<Node> {
    Header(f, p) + Why(f, p) + TradeBlock(f, p) + Links(f, p) + AnalystNote(f, p)
  }
}
