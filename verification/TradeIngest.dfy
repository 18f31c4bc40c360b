/**
 * Idempotent trade ingest (internal/infra/repository/trade_repository.go, lines 95-125 and
 * 681-708): the dedup key, and what any interleaving of overlapping batches stores.
 *
 * Two library functions are parameters: `shown`, which prints a float, and `sha`, the hex
 * digest.
 */
module TradeIngest {
  import opened Optional

  datatype Trade = Trade(
    marketId: int, traderId: Option<int>, outcomeToken: string, side: string, price: real, sizeShares: real,
    notionalUsd: real, tradedAtNanos: int, externalId: string, txHash: string)

  // ---- decimal printing ---------------------------------------------------------------

  function Digits(n: nat): (s: string)
    ensures |s| > 0 && forall c :: c in s ==> '0' <= c <= '9'
  {
    if n < 10 then [Digit(n)] else Digits(n / 10) + [Digit(n % 10)]
  }

  function Digit(d: nat): (c: char)
    requires d < 10
    ensures '0' <= c <= '9'
  {
    ((d + 48) as char)
  }

  function FormatInt(n: int): string { if n < 0 then "-" + Digits(-n) else Digits(n) }

  lemma {:induction false} DigitsInjective(m: nat, n: nat)
    requires Digits(m) == Digits(n)
    ensures m == n
    decreases m
  {
    if m >= 10 && n >= 10 {
      var a, b := Digits(m), Digits(n);
      assert a[..|a| - 1] == Digits(m / 10) && b[..|b| - 1] == Digits(n / 10);
      DigitsInjective(m / 10, n / 10);
      assert a[|a| - 1] == Digit(m % 10) && b[|b| - 1] == Digit(n % 10);
    } else if m < 10 && n < 10 {
      assert Digits(m)[0] == Digit(m) && Digits(n)[0] == Digit(n);
    }
  }

  lemma FormatIntInjective(m: int, n: int)
    requires FormatInt(m) == FormatInt(n)
    ensures m == n
  {
    var a, b := FormatInt(m), FormatInt(n);
    if m >= 0 {
      assert a[0] in Digits(m);
    }
    if n >= 0 {
      assert b[0] in Digits(n);
    }
    if m < 0 && n < 0 {
      assert a[1..] == Digits(-m) && b[1..] == Digits(-n);
      DigitsInjective(-m, -n);
    } else if m >= 0 && n >= 0 {
      DigitsInjective(m, n);
    }
  }

  predicate BarFree(s: string) { '|' !in s }

  lemma FormatIntShape(n: int)
    ensures BarFree(FormatInt(n)) && |FormatInt(n)| > 0
  {
    if n < 0 {
      assert forall c :: c in FormatInt(n) ==> c == '-' || c in Digits(-n);
    }
  }

  // ---- the dedup key (lines 686-708) -----------------------------------------------------

  function TraderKey(id: Option<int>): string { if id.None? then "" else FormatInt(id.value) }

  /** The fields of the composite behind the outcome token. */
  function Tail(t: Trade, shown: real -> string): string {
    TraderKey(t.traderId) + "|" + (FormatInt(t.tradedAtNanos) + "|" + (shown(t.price) + "|" + (shown(t.sizeShares) + "|" + t.side)))
  }

  function Composite(t: Trade, shown: real -> string): string {
    FormatInt(t.marketId) + "|" + (t.outcomeToken + "|" + Tail(t, shown))
  }

  function DedupKey(t: Trade, shown: real -> string, sha: string -> string): string {
    if t.externalId != "" then "ext:" + t.externalId else "sha:" + sha(Composite(t, shown))
  }

  /** The fields two trades must share to be the same trade. */
  predicate SameTrade(t: Trade, u: Trade, shown: real -> string) {
    && t.marketId == u.marketId && t.outcomeToken == u.outcomeToken && t.traderId == u.traderId
    && t.tradedAtNanos == u.tradedAtNanos && t.side == u.side
    && shown(t.price) == shown(u.price) && shown(t.sizeShares) == shown(u.sizeShares)
  }

  ghost predicate PrintsBarFree(shown: real -> string) { forall x: real :: BarFree(shown(x)) }

  lemma HeadOf(a: string, b: string)
    ensures (a == [] ==> (a + "|" + b)[0] == '|') && (a != [] ==> (a + "|" + b)[0] == a[0])
  {
  }

  lemma LastOf(a: string, b: string)
    ensures var s := a + "|" + b;
      && (b == [] ==> s[|s| - 1] == '|')
      && (b != [] ==> s[|s| - 1] == b[|b| - 1])
  {
  }

  lemma {:induction false} FirstBar(a: string, b: string, a': string, b': string)
    requires a + "|" + b == a' + "|" + b' && BarFree(a) && BarFree(a')
    ensures a == a' && b == b'
    decreases |a|
  {
    var s := a + "|" + b;
    if a == [] || a' == [] {
      HeadOf(a, b);
      HeadOf(a', b');
      assert s[1..] == b && s[1..] == b';
    } else {
      assert s[0] == a[0] == a'[0];
      assert s[1..] == a[1..] + "|" + b && s[1..] == a'[1..] + "|" + b';
      FirstBar(a[1..], b, a'[1..], b');
      assert a == [a[0]] + a[1..] && a' == [a'[0]] + a'[1..];
    }
  }

  /** Neither goes on from the other with a bar: equal tokens, tokens of one length, tokens without bars. */
  predicate Apart(a: string, b: string) { !(a + "|" <= b) && !(b + "|" <= a) }

  lemma Longer(a: string, x: string, b: string, y: string)
    requires a + "|" + x == b + "|" + y && |a| < |b|
    ensures a + "|" <= b
  {
    var s := a + "|" + x;
    assert s[..|a| + 1] == a + "|" && b[..|a| + 1] == s[..|a| + 1];
  }

  lemma ApartTokens(a: string, x: string, b: string, y: string)
    requires a + "|" + x == b + "|" + y && Apart(a, b)
    ensures a == b && x == y
  {
    var s := a + "|" + x;
    if |a| < |b| {
      Longer(a, x, b, y);
    } else if |b| < |a| {
      Longer(b, y, a, x);
    } else {
      assert s[..|a|] == a && s[..|a|] == b && s[|a| + 1..] == x && s[|a| + 1..] == y;
    }
  }

  lemma {:induction false} LastBar(a: string, b: string, a': string, b': string)
    requires a + "|" + b == a' + "|" + b' && BarFree(b) && BarFree(b')
    ensures a == a' && b == b'
    decreases |b|
  {
    var s := a + "|" + b;
    var last := |s| - 1;
    if b == [] || b' == [] {
      LastOf(a, b);
      LastOf(a', b');
      assert s[..last] == a && s[..last] == a';
    } else {
      assert s[last] == b[|b| - 1] == b'[|b'| - 1];
      var c, c' := b[..|b| - 1], b'[..|b'| - 1];
      assert s[..last] == a + "|" + c && s[..last] == a' + "|" + c';
      LastBar(a, c, a', c');
      assert b == c + [s[last]] && b' == c' + [s[last]];
    }
  }

  /** Equal tails behind equal tokens, read from the left. */
  lemma TailFields(t: Trade, u: Trade, shown: real -> string)
    requires PrintsBarFree(shown) && Tail(t, shown) == Tail(u, shown)
    ensures t.traderId == u.traderId && t.tradedAtNanos == u.tradedAtNanos && t.side == u.side
    ensures shown(t.price) == shown(u.price) && shown(t.sizeShares) == shown(u.sizeShares)
  {
    hide FormatInt;
    var t1, u1 := shown(t.sizeShares) + "|" + t.side, shown(u.sizeShares) + "|" + u.side;
    var t2, u2 := shown(t.price) + "|" + t1, shown(u.price) + "|" + u1;
    var t3, u3 := FormatInt(t.tradedAtNanos) + "|" + t2, FormatInt(u.tradedAtNanos) + "|" + u2;
    assert BarFree(shown(t.price)) && BarFree(shown(u.price)) && BarFree(shown(t.sizeShares)) && BarFree(shown(u.sizeShares));
    TraderKeyShape(t.traderId);
    TraderKeyShape(u.traderId);
    FormatIntShape(t.tradedAtNanos);
    FormatIntShape(u.tradedAtNanos);
    FirstBar(TraderKey(t.traderId), t3, TraderKey(u.traderId), u3);
    FirstBar(FormatInt(t.tradedAtNanos), t2, FormatInt(u.tradedAtNanos), u2);
    FirstBar(shown(t.price), t1, shown(u.price), u1);
    FirstBar(shown(t.sizeShares), t.side, shown(u.sizeShares), u.side);
    TraderKeyInjective(t.traderId, u.traderId);
    FormatIntInjective(t.tradedAtNanos, u.tradedAtNanos);
  }

  lemma TraderKeyShape(id: Option<int>)
    ensures BarFree(TraderKey(id))
  {
    if id.Some? {
      FormatIntShape(id.value);
    }
  }

  lemma TraderKeyInjective(a: Option<int>, b: Option<int>)
    requires TraderKey(a) == TraderKey(b)
    ensures a == b
  {
    if a.Some? {
      FormatIntShape(a.value);
    }
    if b.Some? {
      FormatIntShape(b.value);
    }
    if a.Some? && b.Some? {
      FormatIntInjective(a.value, b.value);
    }
  }

  /** The token's part, read from the right when the sides have no bar. */
  lemma TokenFromTheRight(t: Trade, u: Trade, shown: real -> string)
    requires PrintsBarFree(shown) && BarFree(t.side) && BarFree(u.side)
    requires t.outcomeToken + "|" + Tail(t, shown) == u.outcomeToken + "|" + Tail(u, shown)
    ensures t.outcomeToken == u.outcomeToken && Tail(t, shown) == Tail(u, shown)
  {
    hide FormatInt, TraderKey;
    var a, b := LeftGrouped(t, shown), LeftGrouped(u, shown);
    LeftGrouping(t, shown);
    LeftGrouping(u, shown);
    assert BarFree(shown(t.price)) && BarFree(shown(u.price)) && BarFree(shown(t.sizeShares)) && BarFree(shown(u.sizeShares));
    TraderKeyShape(t.traderId);
    TraderKeyShape(u.traderId);
    FormatIntShape(t.tradedAtNanos);
    FormatIntShape(u.tradedAtNanos);
    LastBar(a[3], t.side, b[3], u.side);
    LastBar(a[2], shown(t.sizeShares), b[2], shown(u.sizeShares));
    LastBar(a[1], shown(t.price), b[1], shown(u.price));
    LastBar(a[0], FormatInt(t.tradedAtNanos), b[0], FormatInt(u.tradedAtNanos));
    LastBar(t.outcomeToken, TraderKey(t.traderId), u.outcomeToken, TraderKey(u.traderId));
  }

  /** The token and tail up to the trader, the time, the price and the size. */
  function LeftGrouped(t: Trade, shown: real -> string): (g: seq<string>)
    ensures |g| == 4
  {
    var a := t.outcomeToken + "|" + TraderKey(t.traderId);
    var b := a + "|" + FormatInt(t.tradedAtNanos);
    var c := b + "|" + shown(t.price);
    [a, b, c, c + "|" + shown(t.sizeShares)]
  }

  lemma LeftGrouping(t: Trade, shown: real -> string)
    ensures t.outcomeToken + "|" + Tail(t, shown) == LeftGrouped(t, shown)[3] + "|" + t.side
  {
    hide FormatInt, TraderKey;
  }

  /**
   * Two trades without an external id hash the same composite exactly when they agree on
   * every printed field -- provided neither outcome token goes on from the other with a '|',
   * or else sides contain none.
   */
  lemma CompositeMeaning(t: Trade, u: Trade, shown: real -> string)
    requires PrintsBarFree(shown)
    requires Apart(t.outcomeToken, u.outcomeToken) || (BarFree(t.side) && BarFree(u.side))
    ensures Composite(t, shown) == Composite(u, shown) <==> SameTrade(t, u, shown)
  {
    hide FormatInt, Tail;
    if Composite(t, shown) == Composite(u, shown) {
      FormatIntShape(t.marketId);
      FormatIntShape(u.marketId);
      FirstBar(FormatInt(t.marketId), t.outcomeToken + "|" + Tail(t, shown), FormatInt(u.marketId), u.outcomeToken + "|" + Tail(u, shown));
      FormatIntInjective(t.marketId, u.marketId);
      if Apart(t.outcomeToken, u.outcomeToken) {
        ApartTokens(t.outcomeToken, Tail(t, shown), u.outcomeToken, Tail(u, shown));
      } else {
        TokenFromTheRight(t, u, shown);
      }
      TailFields(t, u, shown);
    } else if SameTrade(t, u, shown) {
      SameTail(t, u, shown);
    }
  }

  lemma SameTail(t: Trade, u: Trade, shown: real -> string)
    requires SameTrade(t, u, shown)
    ensures Tail(t, shown) == Tail(u, shown)
  {
  }

  /** With a bar in both, different trades can share a composite, whatever the float printer. */
  lemma BarsCollide(t: Trade, u: Trade, shown: real -> string)
    requires t.marketId == u.marketId
    requires t.outcomeToken == u.outcomeToken + "|" + TraderKey(u.traderId) + "|" + FormatInt(u.tradedAtNanos)
      + "|" + shown(u.price) + "|" + shown(u.sizeShares)
    requires u.side == Tail(t, shown)
    ensures Composite(t, shown) == Composite(u, shown) && !SameTrade(t, u, shown)
  {
    hide FormatInt, TraderKey, Tail;
    LeftGrouping(u, shown);
    assert t.outcomeToken == LeftGrouped(u, shown)[3];
    assert |t.outcomeToken| > |u.outcomeToken|;
  }

  /** Equal dedup keys mean equal external ids, or equal printed fields -- if the digest does not collide. */
  lemma DedupKeyMeaning(t: Trade, u: Trade, shown: real -> string, sha: string -> string)
    requires PrintsBarFree(shown)
    requires Apart(t.outcomeToken, u.outcomeToken) || (BarFree(t.side) && BarFree(u.side))
    requires forall a, b :: sha(a) == sha(b) ==> a == b
    ensures DedupKey(t, shown, sha) == DedupKey(u, shown, sha) <==>
      t.externalId == u.externalId && (t.externalId == "" ==> SameTrade(t, u, shown))
  {
    hide Composite, SameTrade;
    var a, b := DedupKey(t, shown, sha), DedupKey(u, shown, sha);
    CompositeMeaning(t, u, shown);
    if a == b {
      assert a[0] == b[0];
      assert a[4..] == b[4..];
    }
  }

  /** The stored key, byte for byte. */
  lemma KeyIs(t: Trade, shown: real -> string, sha: string -> string)
    ensures t.externalId != "" ==> DedupKey(t, shown, sha) == "ext:" + t.externalId
    ensures t.externalId == "" ==> DedupKey(t, shown, sha) == "sha:" + sha(
      FormatInt(t.marketId) + "|" + t.outcomeToken + "|" + (if t.traderId.Some? then FormatInt(t.traderId.value) else "")
      + "|" + FormatInt(t.tradedAtNanos) + "|" + shown(t.price) + "|" + shown(t.sizeShares) + "|" + t.side)
  {
    hide FormatInt;
    LeftGrouping(t, shown);
    var market, all := FormatInt(t.marketId), LeftGrouped(t, shown)[3] + "|" + t.side;
    assert t.outcomeToken + "|" + Tail(t, shown) == t.outcomeToken + ("|" + Tail(t, shown));
    assert Composite(t, shown) == market + "|" + all;
    assert market + "|" + all ==
      market + "|" + t.outcomeToken + "|" + TraderKey(t.traderId) + "|" + FormatInt(t.tradedAtNanos) + "|" + shown(t.price)
      + "|" + shown(t.sizeShares) + "|" + t.side;
  }

  // ---- what is stored (lines 98-125) ---------------------------------------------------------

  /** `ON CONFLICT (dedup_key) DO NOTHING`, with the key of a trade given by `key`. */
  function InsertOne(rows: map<string, Trade>, t: Trade, key: Trade -> string): map<string, Trade> {
    if key(t) in rows then rows else rows[key(t) := t]
  }

  function Ingest(rows: map<string, Trade>, trades: seq<Trade>, key: Trade -> string): map<string, Trade> {
    if trades == [] then rows
    else InsertOne(Ingest(rows, trades[..|trades| - 1], key), trades[|trades| - 1], key)
  }

  datatype UpsertResult = UpsertResult(requested: nat, inserted: nat)

  class TradeRepository {
    var rows: map<string, Trade>
    const key: Trade -> string

    constructor (key: Trade -> string)
      ensures rows == map[] && this.key == key
    {
      rows := map[];
      this.key := key;
    }

    /** Lines 98-125; the statement for the trade at `failsAt` fails, if there is one. */
    method UpsertBatch(trades: seq<Trade>, failsAt: Option<nat>) returns (out: UpsertResult, ok: bool)
      modifies this
      ensures ok <==> (failsAt.None? || failsAt.value >= |trades|)
      ensures rows == Ingest(old(rows), if ok then trades else trades[..failsAt.value], key)
      ensures out.requested == |trades| && out.inserted == |rows| - |old(rows)|
      ensures FirstTradesAdded(old(rows), rows, if ok then trades else trades[..failsAt.value], key)
    {
      hide FirstTradesAdded;
      out, ok := UpsertResult(|trades|, 0), true;
      var i := 0;
      while i < |trades|
        invariant 0 <= i <= |trades| && out.requested == |trades|
        invariant failsAt.Some? ==> i <= failsAt.value
        invariant rows == Ingest(old(rows), trades[..i], key)
        invariant out.inserted == |rows| - |old(rows)|
      {
        if failsAt == Some(i) {
          IngestOnto(old(rows), trades[..i], key);
          return out, false;
        }
        var t := trades[i];
        assert trades[..i + 1][..i] == trades[..i];
        if key(t) !in rows {
          rows := rows[key(t) := t];
          out := out.(inserted := out.inserted + 1);
        }
        i := i + 1;
      }
      assert trades[..|trades|] == trades;
      IngestOnto(old(rows), trades, key);
    }
  }

  /** A statement of some batch: the trade it inserts. An interleaving is a sequence of them. */
  datatype Statement = Statement(batch: nat, trade: Trade)

  function TradesOf(run: seq<Statement>): seq<Trade> {
    if run == [] then [] else TradesOf(run[..|run| - 1]) + [run[|run| - 1].trade]
  }

  /** What batch `b` counts as inserted during the run. */
  function InsertedBy(run: seq<Statement>, b: nat, key: Trade -> string): nat {
    if run == [] then 0 else
      var last := run[|run| - 1];
      InsertedBy(run[..|run| - 1], b, key) +
        if last.batch == b && key(last.trade) !in Ingest(map[], TradesOf(run[..|run| - 1]), key) then 1 else 0
  }

  /** The counts of batches 0 to `n - 1` added up. */
  function InsertedByAll(run: seq<Statement>, n: nat, key: Trade -> string): nat {
    if n == 0 then 0 else InsertedByAll(run, n - 1, key) + InsertedBy(run, n - 1, key)
  }

  function KeysOf(trades: seq<Trade>, key: Trade -> string): set<string> { set t | t in trades :: key(t) }

  /** `trades[i]` is `t`, and no earlier trade has its key. */
  predicate IsFirst(trades: seq<Trade>, key: Trade -> string, i: int, t: Trade) {
    0 <= i < |trades| && trades[i] == t && forall j :: 0 <= j < i ==> key(trades[j]) != key(t)
  }

  predicate HasFirst(trades: seq<Trade>, key: Trade -> string, t: Trade) {
    exists i :: 0 <= i < |trades| && IsFirst(trades, key, i, t)
  }

  lemma FirstStaysFirst(front: seq<Trade>, last: Trade, key: Trade -> string, t: Trade)
    requires HasFirst(front, key, t)
    ensures HasFirst(front + [last], key, t)
  {
    var i :| 0 <= i < |front| && IsFirst(front, key, i, t);
    assert IsFirst(front + [last], key, i, t);
  }

  lemma NewKeyIsFirst(front: seq<Trade>, last: Trade, key: Trade -> string)
    requires key(last) !in KeysOf(front, key)
    ensures HasFirst(front + [last], key, last)
  {
    assert forall j :: 0 <= j < |front| ==> front[j] in front && key(front[j]) in KeysOf(front, key);
    assert IsFirst(front + [last], key, |front|, last);
  }

  /** The table is the union of the trades by key, and each key keeps its first trade. */
  lemma {:induction false} IngestMeaning(trades: seq<Trade>, key: Trade -> string)
    ensures Ingest(map[], trades, key).Keys == KeysOf(trades, key)
    ensures forall k :: k in Ingest(map[], trades, key) ==>
      var t := Ingest(map[], trades, key)[k]; key(t) == k && HasFirst(trades, key, t)
    decreases |trades|
  {
    if trades != [] {
      hide HasFirst;
      var front, last := trades[..|trades| - 1], trades[|trades| - 1];
      IngestMeaning(front, key);
      var before := Ingest(map[], front, key);
      assert trades == front + [last];
      assert KeysOf(trades, key) == KeysOf(front, key) + {key(last)};
      forall k | k in before
        ensures HasFirst(trades, key, before[k])
      {
        FirstStaysFirst(front, last, key, before[k]);
      }
      if key(last) !in before {
        NewKeyIsFirst(front, last, key);
      }
    }
  }

  /** Nothing stored changes, every trade's key is there, and a key that was free has its first trade. */
  predicate FirstTradesAdded(was: map<string, Trade>, now: map<string, Trade>, trades: seq<Trade>, key: Trade -> string) {
    && now.Keys == was.Keys + KeysOf(trades, key)
    && (forall k :: k in was ==> now[k] == was[k])
    && (forall k :: k in now && k !in was ==> key(now[k]) == k && HasFirst(trades, key, now[k]))
  }

  lemma OneMoreTrade(was: map<string, Trade>, now: map<string, Trade>, front: seq<Trade>, last: Trade, key: Trade -> string)
    requires FirstTradesAdded(was, now, front, key)
    ensures FirstTradesAdded(was, InsertOne(now, last, key), front + [last], key)
  {
    hide HasFirst;
    var trades, after := front + [last], InsertOne(now, last, key);
    assert KeysOf(trades, key) == KeysOf(front, key) + {key(last)};
    forall k | k in now && k !in was
      ensures HasFirst(trades, key, now[k])
    {
      FirstStaysFirst(front, last, key, now[k]);
    }
    if key(last) !in now {
      NewKeyIsFirst(front, last, key);
    }
  }

  /** On any table. */
  lemma {:induction false} IngestOnto(rows: map<string, Trade>, trades: seq<Trade>, key: Trade -> string)
    ensures FirstTradesAdded(rows, Ingest(rows, trades, key), trades, key)
    decreases |trades|
  {
    if trades != [] {
      hide FirstTradesAdded, InsertOne;
      var front, last := trades[..|trades| - 1], trades[|trades| - 1];
      IngestOnto(rows, front, key);
      OneMoreTrade(rows, Ingest(rows, front, key), front, last, key);
      assert trades == front + [last];
    }
  }

  lemma {:induction false} OneBatchCounts(run: seq<Statement>, n: nat, key: Trade -> string)
    requires run != []
    ensures var front, last := run[..|run| - 1], run[|run| - 1];
      InsertedByAll(run, n, key) == InsertedByAll(front, n, key) +
        if last.batch < n && key(last.trade) !in Ingest(map[], TradesOf(front), key) then 1 else 0
    decreases n
  {
    if n > 0 {
      OneBatchCounts(run, n - 1, key);
    }
  }

  /** Over any interleaving of batches the Inserted counts add up to the number of distinct keys. */
  lemma {:induction false} CountsAddUp(run: seq<Statement>, n: nat, key: Trade -> string)
    requires forall s :: s in run ==> s.batch < n
    ensures InsertedByAll(run, n, key) == |Ingest(map[], TradesOf(run), key)| == |KeysOf(TradesOf(run), key)|
    decreases |run|
  {
    IngestMeaning(TradesOf(run), key);
    var rows := Ingest(map[], TradesOf(run), key);
    assert |rows| == |rows.Keys|;
    if run == [] {
      NothingInserted(n, key);
    } else {
      var front, last := run[..|run| - 1], run[|run| - 1];
      assert last in run;
      CountsAddUp(front, n, key);
      OneBatchCounts(run, n, key);
      assert TradesOf(run)[..|TradesOf(run)| - 1] == TradesOf(front);
    }
  }

  lemma {:induction false} NothingInserted(n: nat, key: Trade -> string)
    ensures InsertedByAll([], n, key) == 0
    decreases n
  {
    if n > 0 {
      NothingInserted(n - 1, key);
    }
  }

  /** Where equal keys mean equal trades, the stored table does not depend on order or repetition. */
  lemma OrderDoesNotMatter(a: seq<Trade>, b: seq<Trade>, key: Trade -> string)
    requires forall t :: t in a <==> t in b
    requires forall t, u :: t in a && u in a && key(t) == key(u) ==> t == u
    ensures Ingest(map[], a, key) == Ingest(map[], b, key)
  {
    IngestMeaning(a, key);
    IngestMeaning(b, key);
    var x, y := Ingest(map[], a, key), Ingest(map[], b, key);
    assert x.Keys == y.Keys;
    forall k | k in x
      ensures x[k] == y[k]
    {
      var i :| 0 <= i < |a| && IsFirst(a, key, i, x[k]);
      var j :| 0 <= j < |b| && IsFirst(b, key, j, y[k]);
      assert a[i] in a && b[j] in b;
    }
  }

  /** Ingesting a batch again changes nothing. */
  lemma {:induction false} IngestTwice(rows: map<string, Trade>, trades: seq<Trade>, key: Trade -> string)
    requires forall t :: t in trades ==> key(t) in rows
    ensures Ingest(rows, trades, key) == rows
    decreases |trades|
  {
    if trades != [] {
      assert trades[|trades| - 1] in trades;
      IngestTwice(rows, trades[..|trades| - 1], key);
    }
  }

  lemma {:induction false} IngestKeeps(rows: map<string, Trade>, trades: seq<Trade>, key: Trade -> string)
    ensures forall k :: k in rows ==> k in Ingest(rows, trades, key) && Ingest(rows, trades, key)[k] == rows[k]
    ensures forall t :: t in trades ==> key(t) in Ingest(rows, trades, key)
    decreases |trades|
  {
    if trades != [] {
      var front, last := trades[..|trades| - 1], trades[|trades| - 1];
      IngestKeeps(rows, front, key);
      assert trades == front + [last];
    }
  }

  /** The same batch twice stores what it stores once. */
  lemma IngestIsIdempotent(rows: map<string, Trade>, trades: seq<Trade>, key: Trade -> string)
    ensures Ingest(Ingest(rows, trades, key), trades, key) == Ingest(rows, trades, key)
  {
    IngestKeeps(rows, trades, key);
    IngestTwice(Ingest(rows, trades, key), trades, key);
  }
}
