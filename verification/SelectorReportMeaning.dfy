/**
 * The group-by of the selector report on row positions, apart from the recursions that build
 * it (cmd/cli/ws_selector_debug.go, lines 167-183 and 298-400).
 */
module SelectorReportMeaning {
  import opened SelectorReport

  /** Which priority is which bucket. */
  lemma BucketMeans(p: int)
    ensures BucketName(p) == "operator_pinned" <==> p == 1
    ensures BucketName(p) == "recent_alert" <==> p == 2
    ensures BucketName(p) == "active_or_expected_catalyst" <==> p == 3
    ensures BucketName(p) == "repricing_signal" <==> p == 4
    ensures BucketName(p) == "event_annotation_recent" <==> p == 5
    ensures BucketName(p) == "high_trade_market" <==> p == 6
    ensures BucketName(p) == "unknown" <==> p < 1 || p > 6
  {
  }

  /** `first` is where a market appears for the first time. */
  predicate AppearsAt(rows: seq<Scanned>, c: string, first: int) {
    0 <= first < |rows| && rows[first].conditionId == c && forall j :: 0 <= j < first ==> rows[j].conditionId != c
  }

  lemma StillAppears(rows: seq<Scanned>, r: Scanned, c: string, first: int)
    requires AppearsAt(rows, c, first)
    ensures AppearsAt(rows + [r], c, first)
  {
  }

  /** The markets, each once, in the order of their first rows. */
  lemma {:induction false} MarketsInOrder(rows: seq<Scanned>) returns (at: seq<int>)
    ensures |at| == |Firsts(rows)|
    ensures forall k :: 0 <= k < |at| ==> AppearsAt(rows, Firsts(rows)[k], at[k])
    ensures forall k, m :: 0 <= k < m < |at| ==> at[k] < at[m]
    ensures forall i :: 0 <= i < |rows| ==> rows[i].conditionId in Firsts(rows)
    decreases |rows|
  {
    if rows == [] {
      at := [];
    } else {
      var n := |rows| - 1;
      var front, r := rows[..n], rows[n];
      at := MarketsInOrder(front);
      assert rows == front + [r];
      forall k | 0 <= k < |at|
        ensures AppearsAt(rows, Firsts(front)[k], at[k]) && at[k] < n
      {
        StillAppears(front, r, Firsts(front)[k], at[k]);
      }
      assert forall i :: 0 <= i < n ==> front[i] == rows[i];
      if r.conditionId !in Firsts(front) {
        assert AppearsAt(rows, r.conditionId, n);
        at := at + [n];
      }
    }
  }

  /** The token is that of row `i`, a row of market `c`. */
  predicate TokenFrom(rows: seq<Scanned>, c: string, token: Token, i: nat) {
    && i < |rows| && rows[i].conditionId == c
    && token.tokenId == rows[i].tokenId && token.outcome == rows[i].outcome && token.index == rows[i].tokenIndex
  }

  predicate Rising(at: seq<nat>, below: nat) {
    (forall k :: 0 <= k < |at| ==> at[k] < below) && forall k, m :: 0 <= k < m < |at| ==> at[k] < at[m]
  }

  lemma StillFrom(rows: seq<Scanned>, r: Scanned, c: string, token: Token, i: nat)
    requires TokenFrom(rows, c, token, i)
    ensures TokenFrom(rows + [r], c, token, i)
  {
  }

  /** `tokens` are those of all the rows of market `c`, one for one and in row order, found at `at`. */
  predicate ListsTokens(rows: seq<Scanned>, c: string, tokens: seq<Token>, at: seq<nat>) {
    && |at| == |tokens| && Rising(at, |rows|)
    && (forall k :: 0 <= k < |at| ==> TokenFrom(rows, c, tokens[k], at[k]))
    && (forall i: nat :: i < |rows| && rows[i].conditionId == c ==> i in at)
  }

  lemma OneMoreRow(front: seq<Scanned>, r: Scanned, c: string, tokens: seq<Token>, at: seq<nat>)
    requires ListsTokens(front, c, tokens, at)
    ensures r.conditionId != c ==> ListsTokens(front + [r], c, tokens, at)
    ensures r.conditionId == c ==> ListsTokens(front + [r], c, tokens + [TokenOf(r)], at + [|front|])
  {
    var rows, n := front + [r], |front|;
    forall k | 0 <= k < |at|
      ensures TokenFrom(rows, c, tokens[k], at[k])
    {
      StillFrom(front, r, c, tokens[k], at[k]);
    }
    LastFrom(front, r);
    hide TokenFrom, TokenOf;
    var more := at + [n];
    assert more[|at|] == n;
    forall i: nat | i < |rows| && rows[i].conditionId == c
      ensures i in more && (i < n ==> i in at)
    {
      if i < n {
        assert front[i] == rows[i] && i in at;
      }
    }
  }

  lemma LastFrom(front: seq<Scanned>, r: Scanned)
    ensures TokenFrom(front + [r], r.conditionId, TokenOf(r), |front|)
  {
  }

  /** A market's tokens are those of all its rows, one for one and in row order. */
  lemma {:induction false} TokensInOrder(rows: seq<Scanned>, c: string) returns (at: seq<nat>)
    ensures ListsTokens(rows, c, TokensOf(rows, c), at)
    decreases |rows|
  {
    if rows == [] {
      at := [];
    } else {
      hide ListsTokens;
      var n := |rows| - 1;
      var before := TokensInOrder(rows[..n], c);
      OneMoreRow(rows[..n], rows[n], c, TokensOf(rows[..n], c), before);
      assert rows == rows[..n] + [rows[n]];
      at := if rows[n].conditionId == c then before + [n] else before;
    }
  }

  /** A bucket's count is the number of rows in it. */
  lemma {:induction false} BucketCounts(rows: seq<Scanned>, b: string)
    ensures CountBucket(rows, b) == |set i | 0 <= i < |rows| && BucketName(rows[i].priority) == b|
    decreases |rows|
  {
    hide BucketName;
    if rows != [] {
      var n := |rows| - 1;
      var front := rows[..n];
      BucketCounts(front, b);
      var few := set i | 0 <= i < |front| && BucketName(front[i].priority) == b;
      var all := set i | 0 <= i < |rows| && BucketName(rows[i].priority) == b;
      assert all == if BucketName(rows[n].priority) == b then few + {n} else few;
    }
  }
}
