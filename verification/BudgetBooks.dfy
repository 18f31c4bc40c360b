/**
 * What stands in the spend governor's books after any run, told from the events alone: the
 * day's settled costs, nothing of any day before
 * (internal/infra/aibudget/budget.go, lines 131-211).
 */
module BudgetBooks {
  import opened Budget
  import opened BudgetTheorems

  /** The flights after the first `k` events. */
  function FlightsAt(cfg: Config, start: int, events: seq<Event>, k: nat): seq<Flight>
    requires k <= |events|
  {
    Run(cfg, Opened(start), events[..k]).flights
  }

  /** Event `k` charges a call that was allowed and is still in the air. */
  predicate Settles(cfg: Config, start: int, events: seq<Event>, k: nat)
    requires k < |events|
  {
    events[k].Settle? && events[k].i < |FlightsAt(cfg, start, events, k)|
  }

  /** Event `k` reads the clock. */
  predicate ReadsClock(cfg: Config, start: int, events: seq<Event>, k: nat)
    requires k < |events|
  {
    events[k].Ask? || events[k].Look? || Settles(cfg, start, events, k)
  }

  /** The day the clock showed when it was last read within the first `k` events. */
  function DayAt(cfg: Config, start: int, events: seq<Event>, k: nat): int
    requires k <= |events|
  {
    if k == 0 then start
    else if ReadsClock(cfg, start, events, k - 1) then events[k - 1].today
    else DayAt(cfg, start, events, k - 1)
  }

  predicate ChangesDay(cfg: Config, start: int, events: seq<Event>, k: nat)
    requires k < |events|
  {
    ReadsClock(cfg, start, events, k) && events[k].today != DayAt(cfg, start, events, k)
  }

  /** The actual costs, no less than zero, of the calls of a view settled by events `j` up to `k`. */
  function Settled(cfg: Config, start: int, events: seq<Event>, j: nat, k: nat, v: View): real
    requires j <= k <= |events|
    decreases k
  {
    if k == j then 0.0
    else
      var before := Settled(cfg, start, events, j, k - 1, v);
      if Settles(cfg, start, events, k - 1)
        && (v.Everything? || v.bucket == FlightsAt(cfg, start, events, k - 1)[events[k - 1].i].bucket)
        && events[k - 1].actualCost > 0.0
      then before + events[k - 1].actualCost
      else before
  }

  /** Event `j` is the last of the first `k` that changed the day; 0 if none did. */
  predicate LastChange(cfg: Config, start: int, events: seq<Event>, j: nat, k: nat)
    requires k <= |events|
  {
    && (j == 0 || (j < k && ChangesDay(cfg, start, events, j)))
    && (forall i :: j < i < k ==> !ChangesDay(cfg, start, events, i))
  }

  /** The books say exactly what was settled from event `j` on. */
  ghost predicate BooksSay(cfg: Config, start: int, events: seq<Event>, j: nat, k: nat)
    requires j <= k <= |events|
  {
    var books := Run(cfg, Opened(start), events[..k]).books;
    && books.day == DayAt(cfg, start, events, k)
    && books.total == Settled(cfg, start, events, j, k, Everything)
    && (forall b :: b in books.buckets ==> books.buckets[b] == Settled(cfg, start, events, j, k, Only(b)))
    && (forall b :: b !in books.buckets ==> Settled(cfg, start, events, j, k, Only(b)) == 0.0)
  }

  lemma RunTo(cfg: Config, w: World, events: seq<Event>, k: nat)
    requires k < |events|
    ensures Run(cfg, w, events[..k + 1]) == Step(cfg, Run(cfg, w, events[..k]), events[k])
  {
    assert events[..k + 1][..k] == events[..k];
  }

  /** One event, in one view: what was there unless the day changes, plus what it settles. */
  lemma SpendStep(cfg: Config, start: int, events: seq<Event>, k: nat, v: View)
    requires k < |events| && Run(cfg, Opened(start), events[..k]).books.day == DayAt(cfg, start, events, k)
    ensures var was, now := Run(cfg, Opened(start), events[..k]).books, Run(cfg, Opened(start), events[..k + 1]).books;
      && now.day == DayAt(cfg, start, events, k + 1)
      && SpendOf(now, v) == (if ChangesDay(cfg, start, events, k) then 0.0 else SpendOf(was, v))
        + Settled(cfg, start, events, k, k + 1, v)
  {
    RunTo(cfg, Opened(start), events, k);
    hide Run, Judge;
    assert Settled(cfg, start, events, k, k, v) == 0.0;
  }

  lemma SettledSplits(cfg: Config, start: int, events: seq<Event>, j: nat, k: nat, v: View)
    requires j <= k < |events|
    ensures Settled(cfg, start, events, j, k + 1, v)
      == Settled(cfg, start, events, j, k, v) + Settled(cfg, start, events, k, k + 1, v)
  {
    hide Run;
    assert Settled(cfg, start, events, k, k, v) == 0.0;
  }

  /** The same in every view. */
  predicate ViewSays(cfg: Config, start: int, events: seq<Event>, j: nat, k: nat, v: View)
    requires j <= k <= |events|
  {
    SpendOf(Run(cfg, Opened(start), events[..k]).books, v) == Settled(cfg, start, events, j, k, v)
  }

  lemma {:induction false} ViewsSay(cfg: Config, start: int, events: seq<Event>, k: nat) returns (j: nat)
    requires k <= |events|
    ensures j <= k && LastChange(cfg, start, events, j, k)
    ensures Run(cfg, Opened(start), events[..k]).books.day == DayAt(cfg, start, events, k)
    ensures forall v :: ViewSays(cfg, start, events, j, k, v)
    decreases k
  {
    if k == 0 {
      j := 0;
      assert events[..0] == [];
    } else {
      var i := ViewsSay(cfg, start, events, k - 1);
      j := if ChangesDay(cfg, start, events, k - 1) then k - 1 else i;
      hide Run, Settled, SpendOf, ChangesDay, DayAt;
      SpendStep(cfg, start, events, k - 1, Everything);
      forall v
        ensures ViewSays(cfg, start, events, j, k, v)
      {
        assert ViewSays(cfg, start, events, i, k - 1, v);
        SpendStep(cfg, start, events, k - 1, v);
        SettledSplits(cfg, start, events, i, k - 1, v);
      }
    }
  }

  /**
   * After any run the books hold the sum of the costs settled since the day last changed, in
   * total and bucket by bucket, and nothing from any day before.
   */
  lemma BooksAreToday(cfg: Config, start: int, events: seq<Event>, k: nat) returns (j: nat)
    requires k <= |events|
    ensures j <= k && LastChange(cfg, start, events, j, k) && BooksSay(cfg, start, events, j, k)
  {
    hide Run, Settled;
    j := ViewsSay(cfg, start, events, k);
    assert ViewSays(cfg, start, events, j, k, Everything);
    assert forall b :: ViewSays(cfg, start, events, j, k, Only(b));
  }

  /** What was settled on the day `today` before a call at the end of a run. */
  function SettledToday(cfg: Config, start: int, events: seq<Event>, j: nat, today: int, v: View): real
    requires j <= |events|
  {
    if today == DayAt(cfg, start, events, |events|) then Settled(cfg, start, events, j, |events|, v) else 0.0
  }

  /**
   * After any run, a call is allowed exactly when its estimate still fits below both caps on
   * top of what was settled that day; on a new day it is answered as on empty books, whatever
   * happened before. An allowed call is in flight on its estimate, and nothing else changes
   * but the day.
   */
  lemma AskExactly(cfg: Config, start: int, events: seq<Event>, bucket: string, estCost: real, today: int) returns (j: nat)
    ensures j <= |events| && LastChange(cfg, start, events, j, |events|)
    ensures var was, now := Run(cfg, Opened(start), events), Run(cfg, Opened(start), events + [Ask(bucket, estCost, today)]);
      var est := if estCost > 0.0 then estCost else 0.0;
      var bucketFull := bucket in cfg.bucketCaps && cfg.bucketCaps[bucket] > 0.0
        && SettledToday(cfg, start, events, j, today, Only(bucket)) + est > cfg.bucketCaps[bucket];
      var globalFull := cfg.globalCap > 0.0
        && SettledToday(cfg, start, events, j, today, Everything) + est > cfg.globalCap;
      && (now.flights == if bucketFull || globalFull then was.flights else was.flights + [Flight(bucket, est)])
      && (Judge(cfg, now.books, bucket, estCost)
          == if bucketFull then BucketExhausted else if globalFull then GlobalExhausted else Allowed)
      && (today == DayAt(cfg, start, events, |events|) ==> now.books == was.books)
      && (today != DayAt(cfg, start, events, |events|) ==> now.books == Ledger(today, 0.0, map[]))
  {
    assert events[..|events|] == events;
    j := BooksAreToday(cfg, start, events, |events|);
    var more := events + [Ask(bucket, estCost, today)];
    assert more[..|events|] == events;
    assert Run(cfg, Opened(start), more) == Step(cfg, Run(cfg, Opened(start), events), Ask(bucket, estCost, today));
    hide Run, Settled, DayAt, LastChange;
  }
}
