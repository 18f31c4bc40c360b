/**
 * What the spend governor guarantees to callers that pair Allow with Charge, however their
 * calls interleave and whenever midnight falls.
 */
module BudgetTheorems {
  import opened Budget

  /** A call allowed and not yet charged, with the estimate it was allowed on. */
  datatype Flight = Flight(bucket: string, est: real)

  /** `excess` books, per day and bucket, what calls cost beyond their estimates. */
  datatype World = World(books: Ledger, excess: Ledger, flights: seq<Flight>)

  datatype Event =
    | Ask(bucket: string, estCost: real, today: int)
    | Settle(i: nat, actualCost: real, today: int)
    | Abandon(i: nat)                                // the call failed without usage
    | Look(today: int)                               // a Snapshot

  function Step(cfg: Config, w: World, e: Event): World {
    match e
    case Ask(bucket, est, today) =>
      var books := Rolled(w.books, today);
      World(books, Rolled(w.excess, today),
        if Judge(cfg, books, bucket, est).Allowed? then w.flights + [Flight(bucket, AtLeastZero(est))] else w.flights)
    case Settle(i, actual, today) =>
      if i >= |w.flights| then w else
        var f := w.flights[i];
        World(Charged(Rolled(w.books, today), f.bucket, actual),
          Charged(Rolled(w.excess, today), f.bucket, AtLeastZero(actual) - f.est),
          w.flights[..i] + w.flights[i + 1..])
    case Abandon(i) =>
      if i >= |w.flights| then w else w.(flights := w.flights[..i] + w.flights[i + 1..])
    case Look(today) => World(Rolled(w.books, today), Rolled(w.excess, today), w.flights)
  }

  function Run(cfg: Config, w: World, events: seq<Event>): World {
    if events == [] then w else Step(cfg, Run(cfg, w, events[..|events| - 1]), events[|events| - 1])
  }

  function Opened(today: int): World { World(Ledger(today, 0.0, map[]), Ledger(today, 0.0, map[]), []) }

  /** The whole budget, or one bucket of it. */
  datatype View = Everything | Only(bucket: string)

  predicate Covers(v: View, bucket: string) { v.Everything? || v.bucket == bucket }

  function SpendOf(l: Ledger, v: View): real { if v.Everything? then l.total else SpentIn(l, v.bucket) }

  function CapOf(cfg: Config, v: View): real {
    if v.Everything? then cfg.globalCap else if v.bucket in cfg.bucketCaps then cfg.bucketCaps[v.bucket] else 0.0
  }

  /** The estimates in flight, and how many there are. */
  function Held(flights: seq<Flight>, v: View): real {
    if flights == [] then 0.0 else
      var last := flights[|flights| - 1];
      Held(flights[..|flights| - 1], v) + if Covers(v, last.bucket) then last.est else 0.0
  }

  function Count(flights: seq<Flight>, v: View): nat {
    if flights == [] then 0 else Count(flights[..|flights| - 1], v) + if Covers(v, flights[|flights| - 1].bucket) then 1 else 0
  }

  lemma {:induction false} Removed(flights: seq<Flight>, i: nat, v: View)
    requires i < |flights|
    ensures var rest := flights[..i] + flights[i + 1..];
      Held(flights, v) == Held(rest, v) + if Covers(v, flights[i].bucket) then flights[i].est else 0.0
    decreases |flights|
  {
    var front, last := flights[..|flights| - 1], flights[|flights| - 1];
    var rest := flights[..i] + flights[i + 1..];
    if i < |front| {
      Removed(front, i, v);
      assert rest[..|rest| - 1] == front[..i] + front[i + 1..];
    } else {
      assert rest == front;
    }
  }

  predicate Modest(flights: seq<Flight>, v: View, most: real) {
    forall f :: f in flights && Covers(v, f.bucket) ==> 0.0 <= f.est <= most
  }

  /** `k` estimates of `most` each. */
  function Estimates(k: nat, most: real): real { if k == 0 then 0.0 else Estimates(k - 1, most) + most }

  lemma {:induction false} EstimatesIsProduct(k: nat, most: real)
    ensures Estimates(k, most) == k as real * most
    decreases k
  {
    if k > 0 {
      EstimatesIsProduct(k - 1, most);
      assert (k - 1) as real * most + most == k as real * most;
    }
  }

  lemma {:induction false} MoreEstimates(a: nat, b: nat, most: real)
    requires b <= a && 0.0 <= most
    ensures 0.0 <= Estimates(b, most) <= Estimates(a, most)
    decreases a
  {
    if b < a {
      MoreEstimates(a - 1, b, most);
    } else if b > 0 {
      MoreEstimates(a - 1, b - 1, most);
    }
  }

  lemma {:induction false} HeldBound(flights: seq<Flight>, v: View, most: real)
    requires Modest(flights, v, most)
    ensures 0.0 <= Held(flights, v) <= Estimates(Count(flights, v), most)
    decreases |flights|
  {
    if flights != [] {
      HeldBound(flights[..|flights| - 1], v, most);
      assert flights[|flights| - 1] in flights;
    }
  }

  /** The flights of a view, one of them counted at the cap: what a rollover leaves in the air. */
  lemma {:induction false} HeldAtRollover(flights: seq<Flight>, v: View, most: real, cap: real)
    requires Modest(flights, v, most) && Modest(flights, v, cap)
    ensures Count(flights, v) > 0 ==> Held(flights, v) <= cap + Estimates(Count(flights, v) - 1, most)
    ensures Count(flights, v) == 0 ==> Held(flights, v) == 0.0
    decreases |flights|
  {
    if flights != [] {
      HeldAtRollover(flights[..|flights| - 1], v, most, cap);
      assert flights[|flights| - 1] in flights;
    }
  }

  /** Spend plus what is in flight never exceeds the cap by more than `slack` and the excess. */
  predicate Bounded(cfg: Config, v: View, slack: real, most: real, w: World) {
    && w.books.day == w.excess.day && SpendOf(w.books, v) >= 0.0
    && SpendOf(w.excess, v) >= 0.0
    && Modest(w.flights, v, most) && Modest(w.flights, v, CapOf(cfg, v))
    && SpendOf(w.books, v) + Held(w.flights, v) <= CapOf(cfg, v) + slack + SpendOf(w.excess, v)
  }

  lemma RollKeeps(cfg: Config, v: View, n: nat, most: real, w: World, today: int)
    requires 1 <= n && 0.0 <= most && 0.0 < CapOf(cfg, v) && Count(w.flights, v) <= n
    requires Bounded(cfg, v, Estimates(n - 1, most), most, w)
    ensures Bounded(cfg, v, Estimates(n - 1, most), most, World(Rolled(w.books, today), Rolled(w.excess, today), w.flights))
  {
    if today != w.books.day {
      HeldAtRollover(w.flights, v, most, CapOf(cfg, v));
      MoreEstimates(n - 1, if Count(w.flights, v) > 0 then Count(w.flights, v) - 1 else 0, most);
    }
  }

  lemma AskKeeps(cfg: Config, v: View, n: nat, most: real, w: World, bucket: string, est: real)
    requires 1 <= n && 0.0 <= most && 0.0 < CapOf(cfg, v) && est <= most
    requires Bounded(cfg, v, Estimates(n - 1, most), most, w)
    requires Judge(cfg, w.books, bucket, est).Allowed?
    requires Count(w.flights + [Flight(bucket, AtLeastZero(est))], v) <= n
    ensures Bounded(cfg, v, Estimates(n - 1, most), most, w.(flights := w.flights + [Flight(bucket, AtLeastZero(est))]))
  {
    var f := Flight(bucket, AtLeastZero(est));
    var more := w.flights + [f];
    assert more[..|w.flights|] == w.flights;
    if Covers(v, bucket) {
      HeldBound(w.flights, v, most);
      MoreEstimates(n - 1, Count(w.flights, v), most);
    }
  }

  lemma SettleKeeps(cfg: Config, v: View, slack: real, most: real, w: World, i: nat, actual: real)
    requires i < |w.flights| && Bounded(cfg, v, slack, most, w)
    ensures var f := w.flights[i];
      Bounded(cfg, v, slack, most, World(Charged(w.books, f.bucket, actual),
        Charged(w.excess, f.bucket, AtLeastZero(actual) - f.est), w.flights[..i] + w.flights[i + 1..]))
  {
    hide Held;
    Removed(w.flights, i, v);
    Fewer(w.flights, i);
    assert w.flights[i] in w.flights;
  }

  lemma Fewer(flights: seq<Flight>, i: nat)
    requires i < |flights|
    ensures forall f :: f in flights[..i] + flights[i + 1..] ==> f in flights
  {
  }

  lemma AbandonKeeps(cfg: Config, v: View, slack: real, most: real, w: World, i: nat)
    requires i < |w.flights| && Bounded(cfg, v, slack, most, w)
    ensures Bounded(cfg, v, slack, most, w.(flights := w.flights[..i] + w.flights[i + 1..]))
  {
    hide Held;
    Removed(w.flights, i, v);
    Fewer(w.flights, i);
    assert w.flights[i] in w.flights;
  }

  /** Every estimate is at most `most`, and at most `n` calls of the view are ever in flight. */
  predicate Disciplined(cfg: Config, v: View, n: nat, most: real, start: int, events: seq<Event>) {
    && (forall e :: e in events && e.Ask? ==> e.estCost <= most)
    && (forall i :: 0 <= i <= |events| ==> Count(Run(cfg, Opened(start), events[..i]).flights, v) <= n)
  }

  lemma {:induction false} RunsKeepTheBound(cfg: Config, v: View, n: nat, most: real, start: int, events: seq<Event>)
    requires 1 <= n && 0.0 <= most && 0.0 < CapOf(cfg, v)
    requires Disciplined(cfg, v, n, most, start, events)
    ensures Bounded(cfg, v, Estimates(n - 1, most), most, Run(cfg, Opened(start), events))
    decreases |events|
  {
    if events == [] {
      MoreEstimates(n - 1, 0, most);
    } else {
      hide Held, Judge, Rolled, Charged, Bounded, Disciplined, Step, Estimates, CapOf, Count;
      var before := events[..|events| - 1];
      DisciplinedBefore(cfg, v, n, most, start, events);
      RunsKeepTheBound(cfg, v, n, most, start, before);
      StepKeeps(cfg, v, n, most, Run(cfg, Opened(start), before), events[|events| - 1]);
    }
  }

  /**
   * With at most `n` calls between Allow and Charge, each estimated at no more than `most`,
   * the day's spend never exceeds the cap by more than `n - 1` estimates and the amount by
   * which actual costs exceeded their estimates -- for the global cap and for every bucket's,
   * in every interleaving, with calls in flight across midnight.
   */
  lemma SpendBound(cfg: Config, v: View, n: nat, most: real, start: int, events: seq<Event>)
    requires 1 <= n && 0.0 <= most && 0.0 < CapOf(cfg, v)
    requires Disciplined(cfg, v, n, most, start, events)
    ensures var w := Run(cfg, Opened(start), events);
      SpendOf(w.books, v) <= CapOf(cfg, v) + (n - 1) as real * most + SpendOf(w.excess, v)
  {
    hide *;
    var slack := Estimates(n - 1, most);
    RunsKeepTheBound(cfg, v, n, most, start, events);
    SpendFromBounded(cfg, v, slack, most, Run(cfg, Opened(start), events));
    EstimatesIsProduct(n - 1, most);
  }

  /** No call costs more than its estimate. */
  predicate Estimated(cfg: Config, start: int, events: seq<Event>) {
    forall i :: 0 <= i < |events| && events[i].Settle? ==>
      var flights := Run(cfg, Opened(start), events[..i]).flights;
      events[i].i < |flights| ==> AtLeastZero(events[i].actualCost) <= flights[events[i].i].est
  }

  predicate NoExcess(l: Ledger) { l.total <= 0.0 && forall b :: b in l.buckets ==> l.buckets[b] <= 0.0 }

  lemma NoExcessStep(cfg: Config, w: World, e: Event)
    requires NoExcess(w.excess)
    requires e.Settle? && e.i < |w.flights| ==> AtLeastZero(e.actualCost) <= w.flights[e.i].est
    ensures NoExcess(Step(cfg, w, e).excess)
  {
    hide Judge;
  }

  lemma {:induction false} EstimatedHasNoExcess(cfg: Config, start: int, events: seq<Event>)
    requires Estimated(cfg, start, events)
    ensures NoExcess(Run(cfg, Opened(start), events).excess)
    decreases |events|
  {
    hide Step, Estimated;
    if events != [] {
      var before := events[..|events| - 1];
      EstimatedBefore(cfg, start, events);
      EstimatedHasNoExcess(cfg, start, before);
      NoExcessStep(cfg, Run(cfg, Opened(start), before), events[|events| - 1]);
    }
  }

  lemma EstimatedBefore(cfg: Config, start: int, events: seq<Event>)
    requires events != [] && Estimated(cfg, start, events)
    ensures Estimated(cfg, start, events[..|events| - 1])
    ensures var w, e := Run(cfg, Opened(start), events[..|events| - 1]), events[|events| - 1];
      e.Settle? && e.i < |w.flights| ==> AtLeastZero(e.actualCost) <= w.flights[e.i].est
  {
    hide Run;
    var before := events[..|events| - 1];
    forall i | 0 <= i < |before|
      ensures before[..i] == events[..i] && before[i] == events[i]
    {
    }
  }

  /** Where no call costs more than its estimate, the overshoot is that of the other callers' estimates alone. */
  lemma SpendBoundWithinEstimates(cfg: Config, v: View, n: nat, most: real, start: int, events: seq<Event>)
    requires 1 <= n && 0.0 <= most && 0.0 < CapOf(cfg, v)
    requires Disciplined(cfg, v, n, most, start, events) && Estimated(cfg, start, events)
    ensures SpendOf(Run(cfg, Opened(start), events).books, v) <= CapOf(cfg, v) + (n - 1) as real * most
  {
    hide Run, Disciplined, Estimated, CapOf;
    SpendBound(cfg, v, n, most, start, events);
    EstimatedHasNoExcess(cfg, start, events);
    assert SpendOf(Run(cfg, Opened(start), events).excess, v) <= 0.0;
  }

  // ---- the bound is reached ------------------------------------------------------------

  lemma {:induction false} AskTogether(cfg: Config, bucket: string, cost: real, start: int, k: nat) returns (events: seq<Event>)
    requires 0.0 <= cost && Judge(cfg, Opened(start).books, bucket, cost).Allowed?
    ensures Run(cfg, Opened(start), events) == World(Opened(start).books, Opened(start).excess, seq(k, _ => Flight(bucket, cost)))
    decreases k
  {
    if k == 0 {
      events := [];
    } else {
      var before := AskTogether(cfg, bucket, cost, start, k - 1);
      events := before + [Ask(bucket, cost, start)];
      assert events[..|before|] == before;
      assert seq(k, _ => Flight(bucket, cost)) == seq(k - 1, _ => Flight(bucket, cost)) + [Flight(bucket, cost)];
    }
  }

  lemma {:induction false} SettleAll(cfg: Config, bucket: string, cost: real, start: int, k: nat, before: seq<Event>) returns (events: seq<Event>)
    requires 0.0 <= cost
    requires var w := Run(cfg, Opened(start), before);
      w.flights == seq(k, _ => Flight(bucket, cost)) && w.books.day == start && w.excess.day == start
    ensures before <= events
    ensures Run(cfg, Opened(start), events).books.total
      == Run(cfg, Opened(start), before).books.total + Estimates(k, cost)
    ensures Run(cfg, Opened(start), events).excess.total == Run(cfg, Opened(start), before).excess.total
    decreases k
  {
    if k == 0 {
      events := before;
    } else {
      var more := before + [Settle(k - 1, cost, start)];
      assert more[..|before|] == before;
      var flights := seq(k, _ => Flight(bucket, cost));
      assert flights[..k - 1] + flights[k..] == seq(k - 1, _ => Flight(bucket, cost));
      events := SettleAll(cfg, bucket, cost, start, k - 1, more);
    }
  }

  lemma OneMoreEstimate(n: nat, most: real)
    requires 1 <= n
    ensures Estimates(n, most) == Estimates(n - 1, most) + most
  {
  }

  /** `n` callers that ask before any of them settles spend `n` whole caps, `n - 1` of them over the cap. */
  lemma SpendBoundIsTight(cap: real, bucket: string, start: int, n: nat) returns (events: seq<Event>)
    requires 0.0 < cap && 1 <= n
    ensures var w := Run(Config(cap, map[]), Opened(start), events);
      w.books.total == cap + (n - 1) as real * cap && w.excess.total == 0.0
  {
    hide Run, Estimates;
    var cfg := Config(cap, map[]);
    var asked := AskTogether(cfg, bucket, cap, start, n);
    events := SettleAll(cfg, bucket, cap, start, n, asked);
    EstimatesIsProduct(n - 1, cap);
    OneMoreEstimate(n, cap);
  }

  // ---- the books balance ------------------------------------------------------------------

  /** The sum of a map's values over a set of its keys. */
  ghost function SumOver(keys: set<string>, m: map<string, real>): real
    requires keys <= m.Keys
  {
    if keys == {} then 0.0 else
      var k :| k in keys;
      m[k] + SumOver(keys - {k}, m)
  }

  /** The sum does not depend on the order the keys are taken in. */
  lemma {:induction false} SumWithout(keys: set<string>, m: map<string, real>, k: string)
    requires keys <= m.Keys && k in keys
    ensures SumOver(keys, m) == m[k] + SumOver(keys - {k}, m)
    decreases keys
  {
    var j :| j in keys && SumOver(keys, m) == m[j] + SumOver(keys - {j}, m);
    if j != k {
      SumWithout(keys - {j}, m, k);
      SumWithout(keys - {k}, m, j);
      assert keys - {j} - {k} == keys - {k} - {j};
    }
  }

  lemma {:induction false} SumElsewhere(keys: set<string>, m: map<string, real>, m': map<string, real>)
    requires keys <= m.Keys && keys <= m'.Keys && forall k :: k in keys ==> m[k] == m'[k]
    ensures SumOver(keys, m) == SumOver(keys, m')
    decreases keys
  {
    if keys != {} {
      var k :| k in keys && SumOver(keys, m) == m[k] + SumOver(keys - {k}, m);
      SumElsewhere(keys - {k}, m, m');
      SumWithout(keys, m', k);
    }
  }

  ghost predicate Balanced(l: Ledger) { l.total == SumOver(l.buckets.Keys, l.buckets) }

  lemma ChargeBalances(l: Ledger, bucket: string, actual: real)
    requires Balanced(l)
    ensures Balanced(Charged(l, bucket, actual))
  {
    var m, m' := l.buckets, Charged(l, bucket, actual).buckets;
    var others := m.Keys - {bucket};
    assert m'.Keys - {bucket} == others;
    SumWithout(m'.Keys, m', bucket);
    SumElsewhere(others, m, m');
    if bucket in m {
      SumWithout(m.Keys, m, bucket);
    } else {
      assert m.Keys == others;
    }
  }

  /** The global total is always the sum of the buckets, in every run. */
  lemma {:induction false} BooksBalance(cfg: Config, start: int, events: seq<Event>)
    ensures Balanced(Run(cfg, Opened(start), events).books)
    decreases |events|
  {
    if events != [] {
      var before, e := events[..|events| - 1], events[|events| - 1];
      BooksBalance(cfg, start, before);
      var w := Run(cfg, Opened(start), before);
      if e.Settle? && e.i < |w.flights| {
        ChargeBalances(Rolled(w.books, e.today), w.flights[e.i].bucket, e.actualCost);
      }
    }
  }

  lemma DisciplinedBefore(cfg: Config, v: View, n: nat, most: real, start: int, events: seq<Event>)
    requires events != [] && Disciplined(cfg, v, n, most, start, events)
    ensures Disciplined(cfg, v, n, most, start, events[..|events| - 1])
    ensures Count(Run(cfg, Opened(start), events[..|events| - 1]).flights, v) <= n
    ensures Count(Run(cfg, Opened(start), events).flights, v) <= n
    ensures events[|events| - 1].Ask? ==> events[|events| - 1].estCost <= most
  {
    hide Run, Count;
    var before := events[..|events| - 1];
    forall i | 0 <= i <= |before|
      ensures Count(Run(cfg, Opened(start), before[..i]).flights, v) <= n
    {
      assert before[..i] == events[..i];
    }
    assert before[..|before|] == before && events[..|events|] == events;
    assert forall e :: e in before ==> e in events;
    assert events[|events| - 1] in events;
  }

  lemma SpendFromBounded(cfg: Config, v: View, slack: real, most: real, w: World)
    requires Bounded(cfg, v, slack, most, w)
    ensures SpendOf(w.books, v) <= CapOf(cfg, v) + slack + SpendOf(w.excess, v)
  {
    HeldBound(w.flights, v, most);
  }

  lemma StepKeeps(cfg: Config, v: View, n: nat, most: real, w: World, e: Event)
    requires 1 <= n && 0.0 <= most && 0.0 < CapOf(cfg, v)
    requires Bounded(cfg, v, Estimates(n - 1, most), most, w)
    requires Count(w.flights, v) <= n && Count(Step(cfg, w, e).flights, v) <= n
    requires e.Ask? ==> e.estCost <= most
    ensures Bounded(cfg, v, Estimates(n - 1, most), most, Step(cfg, w, e))
  {
    hide Held, Count, Judge, Rolled, Charged, Bounded;
    var slack := Estimates(n - 1, most);
    match e
    case Ask(bucket, est, today) =>
      RollKeeps(cfg, v, n, most, w, today);
      var rolled := World(Rolled(w.books, today), Rolled(w.excess, today), w.flights);
      if Judge(cfg, rolled.books, bucket, est).Allowed? {
        AskKeeps(cfg, v, n, most, rolled, bucket, est);
      }
    case Settle(i, actual, today) =>
      if i < |w.flights| {
        RollKeeps(cfg, v, n, most, w, today);
        SettleKeeps(cfg, v, slack, most, World(Rolled(w.books, today), Rolled(w.excess, today), w.flights), i, actual);
      }
    case Abandon(i) =>
      if i < |w.flights| {
        AbandonKeeps(cfg, v, slack, most, w, i);
      }
    case Look(today) => RollKeeps(cfg, v, n, most, w, today);
  }
}
