/**
 * The selector report (cmd/cli/ws_selector_debug.go, lines 298-400): one pass over the
 * selector's rows, against the declarative group-by it stands for.
 */
module SelectorReport {
  datatype Scanned = Scanned(
    priority: int, eventSlug: string, conditionId: string, marketSlug: string,
    tokenId: string, outcome: string, tokenIndex: int)

  datatype Row = Row(rank: nat, rankMarket: nat, bucket: string, from: Scanned)

  datatype Token = Token(index: int, tokenId: string, outcome: string)

  datatype Summary = Summary(
    rankMarket: nat, priority: int, bucket: string, eventSlug: string, conditionId: string, marketSlug: string,
    tokenCount: nat, tokens: seq<Token>)

  datatype Report = Report(
    rows: seq<Row>, markets: seq<Summary>, perBucket: map<string, nat>, perEvent: map<string, (nat, nat)>,
    totalRows: nat, uniqueMarkets: nat, uniqueEvents: nat, uniqueTokens: nat,
    maxTokensPerMarket: nat, marketsWithMoreThan2: nat, maxMarketsPerEvent: nat)

  /** Lines 167-183. */
  function BucketName(p: int): string {
    if p == 1 then "operator_pinned"
    else if p == 2 then "recent_alert"
    else if p == 3 then "active_or_expected_catalyst"
    else if p == 4 then "repricing_signal"
    else if p == 5 then "event_annotation_recent"
    else if p == 6 then "high_trade_market"
    else "unknown"
  }

  // ---- the group-by ------------------------------------------------------------------

  /** The markets in order of first appearance. */
  function Firsts(rows: seq<Scanned>): seq<string> {
    if rows == [] then [] else
      var front, c := Firsts(rows[..|rows| - 1]), rows[|rows| - 1].conditionId;
      if c in front then front else front + [c]
  }

  function TokenOf(r: Scanned): Token { Token(r.tokenIndex, r.tokenId, r.outcome) }

  /** The tokens of one market, in row order. */
  function TokensOf(rows: seq<Scanned>, c: string): seq<Token> {
    if rows == [] then [] else
      var last := rows[|rows| - 1];
      TokensOf(rows[..|rows| - 1], c) + if last.conditionId == c then [TokenOf(last)] else []
  }

  /** The first row of a market. */
  predicate IsFirstRow(rows: seq<Scanned>, c: string, i: int) {
    0 <= i < |rows| && rows[i].conditionId == c && forall j :: 0 <= j < i ==> rows[j].conditionId != c
  }

  function CountBucket(rows: seq<Scanned>, b: string): nat {
    if rows == [] then 0 else
      CountBucket(rows[..|rows| - 1], b) + if BucketName(rows[|rows| - 1].priority) == b then 1 else 0
  }

  function MarketsOf(rows: seq<Scanned>, event: string): set<string> {
    set r | r in rows && r.eventSlug == event :: r.conditionId
  }

  function TokenIdsOf(rows: seq<Scanned>, event: string): set<string> {
    set r | r in rows && r.eventSlug == event :: r.tokenId
  }

  function Markets(rows: seq<Scanned>): set<string> { set r | r in rows :: r.conditionId }
  function Events(rows: seq<Scanned>): set<string> { set r | r in rows :: r.eventSlug }
  function TokenIds(rows: seq<Scanned>): set<string> { set r | r in rows :: r.tokenId }

  /** Rows per market, and markets per event. */
  function TokenCounts(rows: seq<Scanned>): map<string, nat> { map c | c in Markets(rows) :: |TokensOf(rows, c)| }
  function MarketCounts(rows: seq<Scanned>): map<string, nat> { map e | e in Events(rows) :: |MarketsOf(rows, e)| }

  function Above(counts: map<string, nat>, limit: nat): set<string> { set k | k in counts && counts[k] > limit }

  lemma {:induction false} FirstsAreTheMarkets(rows: seq<Scanned>)
    ensures forall c :: c in Firsts(rows) <==> c in Markets(rows)
    ensures forall i, j :: 0 <= i < j < |Firsts(rows)| ==> Firsts(rows)[i] != Firsts(rows)[j]
    decreases |rows|
  {
    if rows != [] {
      var front, last := rows[..|rows| - 1], rows[|rows| - 1];
      FirstsAreTheMarkets(front);
      assert rows == front + [last];
      assert Markets(rows) == Markets(front) + {last.conditionId};
    }
  }

  lemma {:induction false} NoTokensElsewhere(rows: seq<Scanned>, c: string)
    requires c !in Firsts(rows)
    ensures TokensOf(rows, c) == []
    decreases |rows|
  {
    if rows != [] {
      NoTokensElsewhere(rows[..|rows| - 1], c);
    }
  }

  // ---- the pass (lines 298-400) ------------------------------------------------------------

  /** What the summary of market `c` says of the rows read so far, its final rank aside. */
  predicate Describes(s: Summary, rows: seq<Scanned>, c: string) {
    && s.conditionId == c && s.tokens == TokensOf(rows, c) && s.tokenCount == |s.tokens|
    && exists i :: 0 <= i < |rows| && IsFirstRow(rows, c, i) && s.priority == rows[i].priority
         && s.bucket == BucketName(rows[i].priority) && s.eventSlug == rows[i].eventSlug && s.marketSlug == rows[i].marketSlug
  }

  lemma StillDescribes(s: Summary, rows: seq<Scanned>, r: Scanned, c: string)
    requires Describes(s, rows, c)
    ensures r.conditionId != c ==> Describes(s, rows + [r], c)
    ensures r.conditionId == c ==>
      Describes(Extended(s, r), rows + [r], c)
  {
    var all := rows + [r];
    assert all[..|rows|] == rows;
    var i :| 0 <= i < |rows| && IsFirstRow(rows, c, i) && s.priority == rows[i].priority
      && s.bucket == BucketName(rows[i].priority) && s.eventSlug == rows[i].eventSlug && s.marketSlug == rows[i].marketSlug;
    assert IsFirstRow(all, c, i) && all[i] == rows[i];
  }

  lemma NowDescribes(rows: seq<Scanned>, r: Scanned)
    requires r.conditionId !in Firsts(rows)
    ensures Describes(Opened(r), rows + [r], r.conditionId)
  {
    var all := rows + [r];
    assert all[..|rows|] == rows;
    FirstsAreTheMarkets(rows);
    NoTokensElsewhere(rows, r.conditionId);
    assert forall j :: 0 <= j < |rows| ==> rows[j] in rows && rows[j].conditionId in Markets(rows);
    assert IsFirstRow(all, r.conditionId, |rows|) && all[|rows|] == r;
  }

  /** The state of the pass after the rows `rows`. */
  datatype Pass = Pass(
    order: seq<string>, byCondition: map<string, Summary>, out: seq<Row>, perBucket: map<string, nat>,
    tokensPerMarket: map<string, nat>, marketsPerEvent: map<string, set<string>>, tokensPerEvent: map<string, set<string>>,
    markets: set<string>, tokens: set<string>)

  predicate BucketsRight(perBucket: map<string, nat>, rows: seq<Scanned>) {
    && (forall b :: b in perBucket ==> perBucket[b] == CountBucket(rows, b) && perBucket[b] > 0)
    && (forall r :: r in rows ==> BucketName(r.priority) in perBucket)
  }

  predicate MarketsPerEventRight(m: map<string, set<string>>, rows: seq<Scanned>) {
    m.Keys == Events(rows) && forall e :: e in m ==> m[e] == MarketsOf(rows, e)
  }

  predicate TokensPerEventRight(m: map<string, set<string>>, rows: seq<Scanned>) {
    m.Keys == Events(rows) && forall e :: e in m ==> m[e] == TokenIdsOf(rows, e)
  }

  predicate RowsRight(out: seq<Row>, rows: seq<Scanned>) {
    && |out| == |rows|
    && forall i :: 0 <= i < |out| ==> out[i] == Row(i + 1, |Firsts(rows[..i + 1])|, BucketName(rows[i].priority), rows[i])
  }

  predicate MarketsRight(order: seq<string>, byCondition: map<string, Summary>, rows: seq<Scanned>) {
    && order == Firsts(rows) && byCondition.Keys == Markets(rows)
    && (forall c :: c in byCondition ==> Describes(byCondition[c], rows, c))
  }

  predicate PassRight(p: Pass, rows: seq<Scanned>) {
    && BucketsRight(p.perBucket, rows) && RowsRight(p.out, rows)
    && MarketsPerEventRight(p.marketsPerEvent, rows) && TokensPerEventRight(p.tokensPerEvent, rows)
    && MarketsRight(p.order, p.byCondition, rows)
    && p.tokensPerMarket == TokenCounts(rows) && p.markets == Markets(rows) && p.tokens == TokenIds(rows)
  }

  function Bump(counts: map<string, nat>, k: string): map<string, nat> {
    counts[k := (if k in counts then counts[k] else 0) + 1]
  }

  lemma TokenCountsGrow(rows: seq<Scanned>, r: Scanned)
    ensures TokenCounts(rows + [r]) == Bump(TokenCounts(rows), r.conditionId)
  {
    hide TokensOf, Firsts;
    var all, counts := rows + [r], Bump(TokenCounts(rows), r.conditionId);
    FirstsGrow(rows, r);
    FirstsAreTheMarkets(rows);
    assert TokenCounts(all).Keys == counts.Keys;
    forall c | c in counts
      ensures TokenCounts(all)[c] == counts[c]
    {
      TokensGrow(rows, r, c);
      if c !in Firsts(rows) {
        NoTokensElsewhere(rows, c);
      }
    }
  }

  function AddTo(m: map<string, set<string>>, k: string, v: string): map<string, set<string>> {
    m[k := (if k in m then m[k] else {}) + {v}]
  }

  function Extended(sum: Summary, r: Scanned): Summary {
    sum.(tokens := sum.tokens + [TokenOf(r)], tokenCount := |sum.tokens| + 1)
  }

  function Opened(r: Scanned): Summary {
    Summary(0, r.priority, BucketName(r.priority), r.eventSlug, r.conditionId, r.marketSlug, 1, [TokenOf(r)])
  }

  lemma FirstsGrow(rows: seq<Scanned>, r: Scanned)
    ensures var c := r.conditionId;
      Firsts(rows + [r]) == if c in Markets(rows) then Firsts(rows) else Firsts(rows) + [c]
    ensures Markets(rows + [r]) == Markets(rows) + {r.conditionId}
    ensures TokenIds(rows + [r]) == TokenIds(rows) + {r.tokenId}
  {
    assert (rows + [r])[..|rows|] == rows;
    FirstsAreTheMarkets(rows);
  }

  lemma KnownMarket(order: seq<string>, byCondition: map<string, Summary>, rows: seq<Scanned>, r: Scanned)
    requires MarketsRight(order, byCondition, rows) && r.conditionId in byCondition
    ensures MarketsRight(order, byCondition[r.conditionId := Extended(byCondition[r.conditionId], r)], rows + [r])
  {
    hide Describes, Firsts, Extended;
    FirstsGrow(rows, r);
    forall c | c in byCondition
      ensures Describes(if c == r.conditionId then Extended(byCondition[c], r) else byCondition[c], rows + [r], c)
    {
      StillDescribes(byCondition[c], rows, r, c);
    }
  }

  lemma NewMarket(order: seq<string>, byCondition: map<string, Summary>, rows: seq<Scanned>, r: Scanned)
    requires MarketsRight(order, byCondition, rows) && r.conditionId !in byCondition
    ensures MarketsRight(order + [r.conditionId], byCondition[r.conditionId := Opened(r)], rows + [r])
  {
    hide Describes, Firsts, Opened;
    FirstsGrow(rows, r);
    FirstsAreTheMarkets(rows);
    NowDescribes(rows, r);
    forall c | c in byCondition
      ensures Describes(byCondition[c], rows + [r], c)
    {
      StillDescribes(byCondition[c], rows, r, c);
    }
  }

  /** Lines 315-351, one row. */
  method ReadRow(p: Pass, r: Scanned, ghost rows: seq<Scanned>) returns (q: Pass)
    requires PassRight(p, rows)
    ensures PassRight(q, rows + [r])
  {
    hide BucketsRight, RowsRight, MarketsPerEventRight, TokensPerEventRight, BucketName, Firsts, Markets, TokenIds, AddTo,
         Bump, TokenCounts;
    var bucket := BucketName(r.priority);
    var perBucket := Bump(p.perBucket, bucket);
    var order, byCondition := p.order, p.byCondition;
    if r.conditionId in byCondition {
      KnownMarket(order, byCondition, rows, r);
    } else {
      NewMarket(order, byCondition, rows, r);
      order := order + [r.conditionId];
    }
    byCondition := byCondition[r.conditionId :=
      if r.conditionId in byCondition then Extended(byCondition[r.conditionId], r) else Opened(r)];
    q := Pass(order, byCondition, p.out + [Row(|p.out| + 1, |order|, bucket, r)], perBucket,
      Bump(p.tokensPerMarket, r.conditionId), AddTo(p.marketsPerEvent, r.eventSlug, r.conditionId), AddTo(p.tokensPerEvent, r.eventSlug, r.tokenId),
      p.markets + {r.conditionId}, p.tokens + {r.tokenId});
    BucketsGrow(p.perBucket, rows, r);
    MarketsPerEventGrow(p.marketsPerEvent, rows, r);
    TokensPerEventGrow(p.tokensPerEvent, rows, r);
    FirstsGrow(rows, r);
    TokenCountsGrow(rows, r);
    RowsGrow(p.out, rows, r, |order|);
  }

  lemma BucketsGrow(perBucket: map<string, nat>, rows: seq<Scanned>, r: Scanned)
    requires BucketsRight(perBucket, rows)
    ensures BucketsRight(Bump(perBucket, BucketName(r.priority)), rows + [r])
  {
    hide BucketName;
    assert (rows + [r])[..|rows|] == rows;
    var b := BucketName(r.priority);
    if b !in perBucket {
      NotCounted(rows, b);
    }
  }

  lemma {:induction false} NotCounted(rows: seq<Scanned>, b: string)
    requires forall r :: r in rows ==> BucketName(r.priority) != b
    ensures CountBucket(rows, b) == 0
    decreases |rows|
  {
    if rows != [] {
      assert rows[|rows| - 1] in rows;
      NotCounted(rows[..|rows| - 1], b);
    }
  }

  lemma MarketsPerEventGrow(m: map<string, set<string>>, rows: seq<Scanned>, r: Scanned)
    requires MarketsPerEventRight(m, rows)
    ensures MarketsPerEventRight(AddTo(m, r.eventSlug, r.conditionId), rows + [r])
  {
    var all := rows + [r];
    assert Events(all) == Events(rows) + {r.eventSlug};
    forall e | e in Events(all)
      ensures AddTo(m, r.eventSlug, r.conditionId)[e] == MarketsOf(all, e)
    {
      assert MarketsOf(all, e) == MarketsOf(rows, e) + if r.eventSlug == e then {r.conditionId} else {};
      assert e !in Events(rows) ==> MarketsOf(rows, e) == {};
    }
  }

  lemma TokensPerEventGrow(m: map<string, set<string>>, rows: seq<Scanned>, r: Scanned)
    requires TokensPerEventRight(m, rows)
    ensures TokensPerEventRight(AddTo(m, r.eventSlug, r.tokenId), rows + [r])
  {
    var all := rows + [r];
    assert Events(all) == Events(rows) + {r.eventSlug};
    forall e | e in Events(all)
      ensures AddTo(m, r.eventSlug, r.tokenId)[e] == TokenIdsOf(all, e)
    {
      assert TokenIdsOf(all, e) == TokenIdsOf(rows, e) + if r.eventSlug == e then {r.tokenId} else {};
      assert e !in Events(rows) ==> TokenIdsOf(rows, e) == {};
    }
  }

  lemma RowsGrow(out: seq<Row>, rows: seq<Scanned>, r: Scanned, n: nat)
    requires RowsRight(out, rows) && n == |Firsts(rows + [r])|
    ensures RowsRight(out + [Row(|out| + 1, n, BucketName(r.priority), r)], rows + [r])
  {
    hide BucketName, Firsts;
    var all := rows + [r];
    forall i | 0 <= i < |rows|
      ensures all[..i + 1] == rows[..i + 1] && all[i] == rows[i]
    {
    }
    assert all[..|rows| + 1] == all;
  }

  // ---- the finished report ---------------------------------------------------------------

  /** `most` is the greatest of the counts, 0 when there are none. */
  predicate IsGreatest(most: nat, counts: map<string, nat>) {
    && (forall k :: k in counts ==> counts[k] <= most)
    && (most > 0 ==> exists k :: k in counts && counts[k] == most)
  }

  /** Lines 369-376 and 377-381: the greatest count, and how many exceed `limit`. */
  method Tally(counts: map<string, nat>, limit: nat) returns (most: nat, above: nat)
    ensures IsGreatest(most, counts) && above == |Above(counts, limit)|
  {
    most, above := 0, 0;
    var left := counts.Keys;
    ghost var seen: set<string> := {};
    while exists k :: k in left
      invariant left <= counts.Keys
      invariant forall k :: k in counts && k !in left ==> counts[k] <= most
      invariant most > 0 ==> exists k :: k in counts && counts[k] == most
      invariant seen == (set k | k in counts && k !in left && counts[k] > limit) && above == |seen|
      decreases left
    {
      var k :| k in left;
      if counts[k] > most {
        most := counts[k];
      }
      if counts[k] > limit {
        above := above + 1;
        seen := seen + {k};
      }
      left := left - {k};
    }
    assert seen == Above(counts, limit);
  }

  predicate SummaryRight(s: Summary, rows: seq<Scanned>, c: string, rank: nat) {
    Describes(s, rows, c) && s.rankMarket == rank
  }

  predicate EventCountsRight(perEvent: map<string, (nat, nat)>, rows: seq<Scanned>) {
    && perEvent.Keys == Events(rows)
    && forall e :: e in perEvent ==> perEvent[e] == (|MarketsOf(rows, e)|, |TokenIdsOf(rows, e)|)
  }

  lemma Reranked(s: Summary, rows: seq<Scanned>, c: string, rank: nat)
    requires Describes(s, rows, c)
    ensures SummaryRight(s.(rankMarket := rank), rows, c, rank)
  {
    var i :| 0 <= i < |rows| && IsFirstRow(rows, c, i) && s.priority == rows[i].priority
      && s.bucket == BucketName(rows[i].priority) && s.eventSlug == rows[i].eventSlug && s.marketSlug == rows[i].marketSlug;
    assert Describes(s.(rankMarket := rank), rows, c);
  }

  /** Lines 354-358: the summaries in market order, with their ranks. */
  method Finalise(p: Pass, ghost rows: seq<Scanned>) returns (markets: seq<Summary>)
    requires MarketsRight(p.order, p.byCondition, rows)
    ensures |markets| == |Firsts(rows)|
    ensures forall i :: 0 <= i < |markets| ==> SummaryRight(markets[i], rows, Firsts(rows)[i], i + 1)
  {
    hide Describes, SummaryRight;
    markets := [];
    FirstsAreTheMarkets(rows);
    for idx := 0 to |p.order|
      invariant |markets| == idx
      invariant forall i :: 0 <= i < idx ==> SummaryRight(markets[i], rows, p.order[i], i + 1)
    {
      var sum := p.byCondition[p.order[idx]];
      Reranked(sum, rows, p.order[idx], idx + 1);
      markets := markets + [sum.(rankMarket := idx + 1)];
    }
  }

  /** Lines 298-400, the final sort of the per-event counts aside. */
  method Gather(rows: seq<Scanned>) returns (rep: Report)
    ensures RowsRight(rep.rows, rows) && BucketsRight(rep.perBucket, rows) && EventCountsRight(rep.perEvent, rows)
    ensures |rep.markets| == |Firsts(rows)|
    ensures forall i :: 0 <= i < |rep.markets| ==> SummaryRight(rep.markets[i], rows, Firsts(rows)[i], i + 1)
    ensures rep.totalRows == |rows| && rep.uniqueMarkets == |Markets(rows)|
    ensures rep.uniqueEvents == |Events(rows)| && rep.uniqueTokens == |TokenIds(rows)|
    ensures IsGreatest(rep.maxTokensPerMarket, TokenCounts(rows)) && IsGreatest(rep.maxMarketsPerEvent, MarketCounts(rows))
    ensures rep.marketsWithMoreThan2 == |Above(TokenCounts(rows), 2)|
  {
    hide BucketsRight, RowsRight, MarketsPerEventRight, TokensPerEventRight, MarketsRight, IsGreatest, SummaryRight;
    var p := Pass([], map[], [], map[], map[], map[], map[], {}, {});
    EmptyPass(p);
    for i := 0 to |rows|
      invariant PassRight(p, rows[..i])
    {
      p := ReadRow(p, rows[i], rows[..i]);
      assert rows[..i] + [rows[i]] == rows[..i + 1];
    }
    assert rows[..|rows|] == rows;
    var markets := Finalise(p, rows);
    EventKeys(p, rows);
    var mostTokens, wide := Tally(p.tokensPerMarket, 2);
    var mostMarkets, _ := Tally(map e | e in p.marketsPerEvent :: |p.marketsPerEvent[e]|, 0);
    var perEvent := map e | e in p.marketsPerEvent :: (|p.marketsPerEvent[e]|, |p.tokensPerEvent[e]|);
    rep := Report(p.out, markets, p.perBucket, perEvent, |p.out|, |p.markets|, |p.marketsPerEvent|, |p.tokens|,
      mostTokens, wide, mostMarkets);
    EventCounts(p, rows, perEvent);
    OutLength(p.out, rows);
  }

  lemma EmptyPass(p: Pass)
    requires p == Pass([], map[], [], map[], map[], map[], map[], {}, {})
    ensures PassRight(p, [])
  {
  }

  lemma OutLength(out: seq<Row>, rows: seq<Scanned>)
    requires RowsRight(out, rows)
    ensures |out| == |rows|
  {
  }

  lemma EventKeys(p: Pass, rows: seq<Scanned>)
    requires PassRight(p, rows)
    ensures p.marketsPerEvent.Keys == p.tokensPerEvent.Keys == Events(rows)
    ensures |p.marketsPerEvent| == |Events(rows)| && p.tokensPerMarket == TokenCounts(rows)
    ensures (map e | e in p.marketsPerEvent :: |p.marketsPerEvent[e]|) == MarketCounts(rows)
  {
    assert |p.marketsPerEvent| == |p.marketsPerEvent.Keys|;
  }

  lemma EventCounts(p: Pass, rows: seq<Scanned>, perEvent: map<string, (nat, nat)>)
    requires PassRight(p, rows) && p.marketsPerEvent.Keys == p.tokensPerEvent.Keys
    requires perEvent == map e | e in p.marketsPerEvent :: (|p.marketsPerEvent[e]|, |p.tokensPerEvent[e]|)
    ensures EventCountsRight(perEvent, rows)
  {
  }

  // ---- what the report means ----------------------------------------------------------------

  function SumOfTokens(rows: seq<Scanned>, markets: seq<string>): nat {
    if markets == [] then 0
    else SumOfTokens(rows, markets[..|markets| - 1]) + |TokensOf(rows, markets[|markets| - 1])|
  }

  /** The tokens of the markets, one market after the other. */
  function Flatten(rows: seq<Scanned>, markets: seq<string>): seq<Token> {
    if markets == [] then []
    else Flatten(rows, markets[..|markets| - 1]) + TokensOf(rows, markets[|markets| - 1])
  }

  function AllTokens(rows: seq<Scanned>): seq<Token> {
    if rows == [] then [] else AllTokens(rows[..|rows| - 1]) + [TokenOf(rows[|rows| - 1])]
  }

  lemma TokensGrow(rows: seq<Scanned>, r: Scanned, c: string)
    ensures TokensOf(rows + [r], c) == TokensOf(rows, c) + if r.conditionId == c then [TokenOf(r)] else []
  {
    assert (rows + [r])[..|rows|] == rows;
  }

  lemma {:induction false} FlattenElsewhere(rows: seq<Scanned>, r: Scanned, markets: seq<string>)
    requires r.conditionId !in markets
    ensures Flatten(rows + [r], markets) == Flatten(rows, markets)
    decreases |markets|
  {
    hide TokensOf;
    if markets != [] {
      var last := markets[|markets| - 1];
      assert last in markets;
      FlattenElsewhere(rows, r, markets[..|markets| - 1]);
      TokensGrow(rows, r, last);
    }
  }

  predicate Distinct(names: seq<string>) {
    forall i, j :: 0 <= i < j < |names| ==> names[i] != names[j]
  }

  /** One more row adds its token to the flattened summaries. */
  lemma {:induction false} FlattenGrow(rows: seq<Scanned>, r: Scanned, markets: seq<string>)
    requires Distinct(markets) && r.conditionId in markets
    ensures multiset(Flatten(rows + [r], markets)) == multiset(Flatten(rows, markets)) + multiset{TokenOf(r)}
    decreases |markets|
  {
    hide TokensOf;
    var front, last := markets[..|markets| - 1], markets[|markets| - 1];
    assert markets == front + [last];
    TokensGrow(rows, r, last);
    if r.conditionId == last {
      assert last !in front;
      FlattenElsewhere(rows, r, front);
    } else {
      FlattenGrow(rows, r, front);
    }
  }

  lemma FlattenSnoc(rows: seq<Scanned>, markets: seq<string>, c: string)
    ensures Flatten(rows, markets + [c]) == Flatten(rows, markets) + TokensOf(rows, c)
  {
    assert (markets + [c])[..|markets|] == markets;
  }

  /** The market summaries hold exactly the rows' tokens: none lost, none twice. */
  lemma {:induction false} MarketsHoldEveryToken(rows: seq<Scanned>)
    ensures multiset(Flatten(rows, Firsts(rows))) == multiset(AllTokens(rows))
    decreases |rows|
  {
    if rows != [] {
      var front, r := rows[..|rows| - 1], rows[|rows| - 1];
      assert rows == front + [r];
      MarketsHoldEveryToken(front);
      FirstsAreTheMarkets(front);
      FirstsGrow(front, r);
      if r.conditionId in Markets(front) {
        FlattenGrow(front, r, Firsts(front));
      } else {
        FlattenElsewhere(front, r, Firsts(front));
        FlattenSnoc(rows, Firsts(front), r.conditionId);
        NoTokensElsewhere(front, r.conditionId);
        TokensGrow(front, r, r.conditionId);
      }
    }
  }

  lemma {:induction false} FlattenLength(rows: seq<Scanned>, markets: seq<string>)
    ensures |Flatten(rows, markets)| == SumOfTokens(rows, markets)
    decreases |markets|
  {
    if markets != [] {
      FlattenLength(rows, markets[..|markets| - 1]);
    }
  }

  lemma {:induction false} AllTokensLength(rows: seq<Scanned>)
    ensures |AllTokens(rows)| == |rows|
    decreases |rows|
  {
    if rows != [] {
      AllTokensLength(rows[..|rows| - 1]);
    }
  }

  /** The token counts of the markets sum to the number of rows. */
  lemma TokenCountsSumToRows(rows: seq<Scanned>)
    ensures SumOfTokens(rows, Firsts(rows)) == |rows|
  {
    MarketsHoldEveryToken(rows);
    FlattenLength(rows, Firsts(rows));
    AllTokensLength(rows);
    assert |multiset(Flatten(rows, Firsts(rows)))| == |multiset(AllTokens(rows))|;
  }

  /** The sum of a map's counts over a set of its keys. */
  ghost function SumOver(keys: set<string>, m: map<string, nat>): nat
    requires keys <= m.Keys
  {
    if keys == {} then 0 else
      var k :| k in keys;
      m[k] + SumOver(keys - {k}, m)
  }

  /** The sum does not depend on the order the keys are taken in. */
  lemma {:induction false} SumWithout(keys: set<string>, m: map<string, nat>, k: string)
    requires keys <= m.Keys && k in keys
    ensures SumOver(keys, m) == m[k] + SumOver(keys - {k}, m)
    decreases keys
  {
    var j :| j in keys && SumOver(keys, m) == m[j] + SumOver(keys - {j}, m);
    if j != k {
      SumWithout(keys - {j}, m, k);
      SumWithout(keys - {k}, m, j);
      assert keys - {j} - {k} == keys - {k} - {j};
    }
  }

  lemma {:induction false} SumElsewhere(keys: set<string>, m: map<string, nat>, m': map<string, nat>)
    requires keys <= m.Keys && keys <= m'.Keys && forall k :: k in keys ==> m[k] == m'[k]
    ensures SumOver(keys, m) == SumOver(keys, m')
    decreases keys
  {
    if keys != {} {
      var k :| k in keys && SumOver(keys, m) == m[k] + SumOver(keys - {k}, m);
      SumElsewhere(keys - {k}, m, m');
      SumWithout(keys, m', k);
    }
  }

  lemma BumpAddsOne(m: map<string, nat>, k: string)
    ensures SumOver(Bump(m, k).Keys, Bump(m, k)) == SumOver(m.Keys, m) + 1
  {
    var m' := Bump(m, k);
    var others := m.Keys - {k};
    assert m'.Keys - {k} == others;
    SumWithout(m'.Keys, m', k);
    SumElsewhere(others, m, m');
    if k in m {
      SumWithout(m.Keys, m, k);
    } else {
      assert m.Keys == others;
    }
  }

  /** The rows determine the bucket counts. */
  lemma SameBuckets(m: map<string, nat>, m': map<string, nat>, rows: seq<Scanned>)
    requires BucketsRight(m, rows) && BucketsRight(m', rows)
    ensures m == m'
  {
    hide BucketName;
    forall b | b in m
      ensures b in m'
    {
      if forall r :: r in rows ==> BucketName(r.priority) != b {
        NotCounted(rows, b);
      }
    }
    forall b | b in m'
      ensures b in m
    {
      if forall r :: r in rows ==> BucketName(r.priority) != b {
        NotCounted(rows, b);
      }
    }
    assert m.Keys == m'.Keys;
  }

  lemma {:induction false} SomeBuckets(rows: seq<Scanned>) returns (m: map<string, nat>)
    ensures BucketsRight(m, rows) && SumOver(m.Keys, m) == |rows|
    decreases |rows|
  {
    if rows == [] {
      m := map[];
    } else {
      hide BucketsRight, Bump;
      var front, r := rows[..|rows| - 1], rows[|rows| - 1];
      var before := SomeBuckets(front);
      BucketsGrow(before, front, r);
      BumpAddsOne(before, BucketName(r.priority));
      assert rows == front + [r];
      m := Bump(before, BucketName(r.priority));
    }
  }

  /** The bucket counts a report shows sum to the number of its rows. */
  lemma BucketCountsSumToRows(perBucket: map<string, nat>, rows: seq<Scanned>)
    requires BucketsRight(perBucket, rows)
    ensures SumOver(perBucket.Keys, perBucket) == |rows|
  {
    var m := SomeBuckets(rows);
    SameBuckets(perBucket, m, rows);
  }

  /** The rows of a market stand together, as the query's ORDER BY makes them. */
  predicate Together(rows: seq<Scanned>) {
    forall i, j, k :: 0 <= i < j < k < |rows| && rows[i].conditionId == rows[k].conditionId
      ==> rows[j].conditionId == rows[i].conditionId
  }

  /** The market of the last row is the one that appeared last. */
  predicate LastIsNewest(rows: seq<Scanned>) {
    rows != [] ==> Firsts(rows) != [] && Firsts(rows)[|Firsts(rows)| - 1] == rows[|rows| - 1].conditionId
  }

  lemma {:induction false} TogetherLastIsNewest(rows: seq<Scanned>)
    requires Together(rows)
    ensures LastIsNewest(rows)
    decreases |rows|
  {
    if rows != [] {
      var front, r := rows[..|rows| - 1], rows[|rows| - 1];
      TogetherLastIsNewest(front);
      FirstsAreTheMarkets(front);
      if r.conditionId in Firsts(front) {
        assert r.conditionId in Markets(front);
        var q :| q in front && q.conditionId == r.conditionId;
        var i :| 0 <= i < |front| && front[i] == q;
        assert rows[i] == q && rows[|front| - 1] == front[|front| - 1];
        assert i < |front| - 1 ==> rows[|front| - 1].conditionId == r.conditionId;
      }
    }
  }

  /** A row of the newest market goes to the end of the flattened summaries. */
  lemma AppendToNewest(front: seq<Scanned>, r: Scanned, older: seq<string>)
    requires r.conditionId !in older
    requires Firsts(front) == older + [r.conditionId] || (Firsts(front) == older && TokensOf(front, r.conditionId) == [])
    ensures Flatten(front + [r], older + [r.conditionId]) == Flatten(front, Firsts(front)) + [TokenOf(r)]
  {
    hide Firsts, TokensOf, Flatten;
    var c := r.conditionId;
    FlattenElsewhere(front, r, older);
    TokensGrow(front, r, c);
    FlattenSnoc(front + [r], older, c);
    FlattenSnoc(front, older, c);
  }

  lemma NothingToFlatten()
    ensures Flatten([], Firsts([])) == AllTokens([])
  {
  }

  lemma TogetherFront(rows: seq<Scanned>)
    requires rows != [] && Together(rows)
    ensures Together(rows[..|rows| - 1])
  {
  }

  /** Contiguous markets flatten back to the rows, in order. */
  lemma {:induction false} TogetherFlattens(rows: seq<Scanned>)
    requires Together(rows)
    ensures Flatten(rows, Firsts(rows)) == AllTokens(rows)
    decreases |rows|
  {
    hide Together, LastIsNewest, TokensOf, Flatten, Firsts, Markets, TokenOf;
    if rows == [] {
      NothingToFlatten();
    } else {
      var front, r := rows[..|rows| - 1], rows[|rows| - 1];
      var order, c := Firsts(rows), r.conditionId;
      assert rows == front + [r];
      TogetherFront(rows);
      TogetherFlattens(front);
      TogetherLastIsNewest(rows);
      NewestLast(rows);
      var older := order[..|order| - 1];
      assert order == older + [c];
      assert c !in older by { FirstsAreTheMarkets(rows); }
      FirstsGrow(front, r);
      if c !in Markets(front) {
        assert c !in Firsts(front) by { FirstsAreTheMarkets(front); }
        NoTokensElsewhere(front, c);
        assert Firsts(front) == older;
      }
      AppendToNewest(front, r, older);
    }
  }

  lemma NewestLast(rows: seq<Scanned>)
    requires rows != [] && LastIsNewest(rows)
    ensures |Firsts(rows)| > 0 && Firsts(rows)[|Firsts(rows)| - 1] == rows[|rows| - 1].conditionId
  {
  }

  /** Row `i` carries the rank that its market's summary has. */
  predicate RankMatches(rows: seq<Scanned>, i: nat)
    requires i < |rows|
  {
    var n := |Firsts(rows[..i + 1])|;
    0 < n <= |Firsts(rows)| && Firsts(rows)[n - 1] == rows[i].conditionId
  }

  lemma {:induction false} FirstsPrefix(rows: seq<Scanned>, n: nat)
    requires n <= |rows|
    ensures Firsts(rows[..n]) <= Firsts(rows)
    decreases |rows|
  {
    if n < |rows| {
      FirstsPrefix(rows[..|rows| - 1], n);
      assert rows[..|rows| - 1][..n] == rows[..n];
    } else {
      assert rows[..n] == rows;
    }
  }

  lemma RankIsNewest(rows: seq<Scanned>, i: nat)
    requires i < |rows|
    ensures RankMatches(rows, i) <==> LastIsNewest(rows[..i + 1])
  {
    FirstsPrefix(rows, i + 1);
    var p := rows[..i + 1];
    assert p[|p| - 1] == rows[i];
    if |Firsts(p)| > 0 {
      assert Firsts(p)[|Firsts(p)| - 1] == Firsts(rows)[|Firsts(p)| - 1];
    }
  }

  /**
   * The rank printed on every row is the rank of its market exactly when each market's rows
   * stand together.
   */
  lemma RanksMatchIffTogether(rows: seq<Scanned>)
    ensures (forall i: nat :: i < |rows| ==> RankMatches(rows, i)) <==> Together(rows)
  {
    if Together(rows) {
      forall i: nat | i < |rows|
        ensures RankMatches(rows, i)
      {
        var p := rows[..i + 1];
        assert forall a :: 0 <= a < |p| ==> p[a] == rows[a];
        TogetherLastIsNewest(p);
        RankIsNewest(rows, i);
      }
    }
    if forall i: nat :: i < |rows| ==> RankMatches(rows, i) {
      forall i, j, k | 0 <= i < j < k < |rows| && rows[i].conditionId == rows[k].conditionId
        ensures rows[j].conditionId == rows[i].conditionId
      {
        Returning(rows, i, j, k);
      }
    }
  }

  /** If a market comes back after another one, its rank no longer matches. */
  lemma Returning(rows: seq<Scanned>, i: nat, j: nat, k: nat)
    requires i < j < k < |rows| && rows[i].conditionId == rows[k].conditionId
    requires forall n: nat :: n < |rows| ==> RankMatches(rows, n)
    ensures rows[j].conditionId == rows[i].conditionId
  {
    hide Firsts;
    assert RankMatches(rows, i) && RankMatches(rows, j) && RankMatches(rows, k);
    FirstsAreTheMarkets(rows);
    Nested(rows, i + 1, j + 1);
    Nested(rows, j + 1, k + 1);
  }

  lemma Nested(rows: seq<Scanned>, m: nat, n: nat)
    requires m <= n <= |rows|
    ensures |Firsts(rows[..m])| <= |Firsts(rows[..n])|
  {
    FirstsPrefix(rows[..n], m);
    assert rows[..n][..m] == rows[..m];
  }
}
