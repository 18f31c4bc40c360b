/**
 * The daily AI spend governor (internal/infra/aibudget/budget.go) and the preflight gate in
 * front of it (internal/infra/aipreflight/preflight.go). `Allow` checks but reserves nothing,
 * so the guarantee under concurrent callers is an overshoot bound; it is proved for every
 * interleaving and across UTC rollovers.
 */
module Budget {
  import opened Optional

  /** A cap of 0, or a bucket without one, means uncapped. */
  datatype Config = Config(globalCap: real, bucketCaps: map<string, real>)

  datatype Ledger = Ledger(day: int, total: real, buckets: map<string, real>)

  datatype Verdict = Allowed | BucketExhausted | GlobalExhausted

  function AtLeastZero(x: real): real { if x < 0.0 then 0.0 else x }

  function SpentIn(l: Ledger, bucket: string): real { if bucket in l.buckets then l.buckets[bucket] else 0.0 }

  /** Lines 198-211. */
  function Rolled(l: Ledger, today: int): Ledger { if today == l.day then l else Ledger(today, 0.0, map[]) }

  /** Lines 140-155, on a ledger already rolled. */
  function Judge(cfg: Config, l: Ledger, bucket: string, estCost: real): Verdict {
    var est := AtLeastZero(estCost);
    if bucket in cfg.bucketCaps && cfg.bucketCaps[bucket] > 0.0 && SpentIn(l, bucket) + est > cfg.bucketCaps[bucket]
      then BucketExhausted
    else if cfg.globalCap > 0.0 && l.total + est > cfg.globalCap then GlobalExhausted
    else Allowed
  }

  /** Lines 164-173, on a ledger already rolled. */
  function Charged(l: Ledger, bucket: string, actualCost: real): Ledger {
    var actual := AtLeastZero(actualCost);
    l.(total := l.total + actual, buckets := l.buckets[bucket := SpentIn(l, bucket) + actual])
  }

  class Manager {
    const cfg: Config
    var day: int
    var global: real
    var buckets: map<string, real>

    constructor (cfg: Config, today: int)
      ensures this.cfg == cfg && Books() == Ledger(today, 0.0, map[])
    {
      this.cfg := cfg;
      day, global, buckets := today, 0.0, map[];
    }

    function Books(): Ledger
      reads this
    {
      Ledger(day, global, buckets)
    }

    /** The bucket is judged before the total; nothing is reserved. */
    method Allow(bucket: string, estCost: real, today: int) returns (verdict: Verdict)
      modifies this
      ensures Books() == Rolled(old(Books()), today)
      ensures verdict == Judge(cfg, Books(), bucket, estCost)
      ensures day == today
      ensures today == old(day) ==> global == old(global) && buckets == old(buckets)
      ensures today != old(day) ==> global == 0.0 && buckets == map[]
      ensures var est, spent := if estCost > 0.0 then estCost else 0.0, if bucket in buckets then buckets[bucket] else 0.0;
        var bucketFull := bucket in cfg.bucketCaps && cfg.bucketCaps[bucket] > 0.0 && spent + est > cfg.bucketCaps[bucket];
        var globalFull := cfg.globalCap > 0.0 && global + est > cfg.globalCap;
        && (verdict == BucketExhausted <==> bucketFull)
        && (verdict == GlobalExhausted <==> globalFull && !bucketFull)
        && (verdict == Allowed <==> !bucketFull && !globalFull)
    {
      RollIfNewDay(today);
      var est := estCost;
      if est < 0.0 {
        est := 0.0;
      }
      if bucket in cfg.bucketCaps && cfg.bucketCaps[bucket] > 0.0 {
        var spent := if bucket in buckets then buckets[bucket] else 0.0;
        if spent + est > cfg.bucketCaps[bucket] {
          return BucketExhausted;
        }
      }
      if cfg.globalCap > 0.0 {
        if global + est > cfg.globalCap {
          return GlobalExhausted;
        }
      }
      return Allowed;
    }

    method Charge(bucket: string, actualCost: real, today: int)
      modifies this
      ensures Books() == Charged(Rolled(old(Books()), today), bucket, actualCost)
      ensures day == today
      ensures var actual := if actualCost > 0.0 then actualCost else 0.0;
        if today != old(day) then global == actual && buckets == map[bucket := actual]
        else
          && global == old(global) + actual
          && buckets == old(buckets)[bucket := (if bucket in old(buckets) then old(buckets)[bucket] else 0.0) + actual]
    {
      var actual := actualCost;
      if actual <= 0.0 {
        actual := 0.0;
      }
      RollIfNewDay(today);
      global := global + actual;
      buckets := buckets[bucket := (if bucket in buckets then buckets[bucket] else 0.0) + actual];
    }

    method Snapshot(today: int) returns (total: real, perBucket: map<string, real>)
      modifies this
      ensures Books() == Rolled(old(Books()), today)
      ensures day == today
      ensures today == old(day) ==> total == global == old(global) && perBucket == buckets == old(buckets)
      ensures today != old(day) ==> total == global == 0.0 && perBucket == buckets == map[]
    {
      RollIfNewDay(today);
      return global, buckets;
    }

    /** A new day starts with empty books. */
    method RollIfNewDay(today: int)
      modifies this
      ensures Books() == Rolled(old(Books()), today)
      ensures day == today
      ensures today == old(day) ==> global == old(global) && buckets == old(buckets)
      ensures today != old(day) ==> global == 0.0 && buckets == map[]
    {
      if today == day {
        return;
      }
      day := today;
      global := 0.0;
      buckets := map[];
    }
  }

  // ---- the preflight gate ---------------------------------------------------------

  /** The marker appended by SimpleCompactor: 71 bytes, two of its characters taking three bytes each. */
  const TAIL := "\n\n[\U{E2}\U{80}\U{A6}context truncated for budget; lower-priority sections dropped\U{E2}\U{80}\U{A6}]"

  /** preflight.go, lines 181-194: what is kept, and what is dropped. */
  function Compact(cap: int, prompt: string): (string, string) {
    if cap <= 0 || |prompt| <= cap then (prompt, "")
    else
      var cut := if cap - |TAIL| < 1 then 1 else cap - |TAIL|;
      if cut >= |prompt| then (prompt, "") else (prompt[..cut] + TAIL, prompt[cut..])
  }

  /**
   * A prompt too long is abridged, never rewritten: what is kept is its front, as much of it as
   * leaves room for the marker but at least one byte, with the marker behind; the rest is reported as
   * dropped. The result fits exactly if the marker leaves room.
   */
  lemma CompactMeaning(cap: int, prompt: string)
    ensures var (kept, dropped) := Compact(cap, prompt);
      && (cap <= 0 || |prompt| <= cap ==> kept == prompt && dropped == "")
      && (0 < cap < |prompt| ==> exists front :: Abridged(front, kept, dropped, cap, prompt))
      && (0 < cap ==> (|kept| <= cap <==> |prompt| <= cap || cap > |TAIL|))
    ensures |TAIL| == 71
  {
    if 0 < cap < |prompt| {
      var cut := if cap - |TAIL| < 1 then 1 else cap - |TAIL|;
      assert Compact(cap, prompt) == (prompt[..cut] + TAIL, prompt[cut..]);
      assert Abridged(prompt[..cut], prompt[..cut] + TAIL, prompt[cut..], cap, prompt);
    }
  }

  predicate Abridged(front: string, kept: string, dropped: string, cap: int, prompt: string) {
    && kept == front + TAIL && front + dropped == prompt
    && |front| == (if cap > 72 then cap - 71 else 1)
  }

  datatype SurfaceConfig = SurfaceConfig(bucket: string, maxInputChars: int, maxOutputTokens: int, estCostUsd: real)

  datatype Decision = Decision(allow: bool, prompt: string, maxOutputTokens: int, estCostUsd: real, reason: string)

  /** The prompt after at most one compaction. */
  function Prepared(cfg: SurfaceConfig, prompt: string, compactor: Option<int>): string {
    if cfg.maxInputChars > 0 && |prompt| > cfg.maxInputChars && compactor.Some?
      then Compact(compactor.value, prompt).0 else prompt
  }

  predicate TooLong(cfg: SurfaceConfig, prompt: string) { cfg.maxInputChars > 0 && |prompt| > cfg.maxInputChars }

  class Preflight {
    const cfg: SurfaceConfig
    const budget: Manager?

    constructor (cfg: SurfaceConfig, budget: Manager?)
      ensures this.cfg == cfg && this.budget == budget
    {
      this.cfg := cfg;
      this.budget := budget;
    }

    /** preflight.go, lines 95-125; `compactor` is the cap of a SimpleCompactor, if one is given. */
    method Run(prompt: string, compactor: Option<int>, today: int) returns (out: Decision)
      modifies budget
      ensures out.prompt == Prepared(cfg, prompt, compactor)
      ensures out.maxOutputTokens == cfg.maxOutputTokens && out.estCostUsd == cfg.estCostUsd
      ensures out.allow ==> out.reason == "" && !TooLong(cfg, out.prompt)
      ensures TooLong(cfg, out.prompt) ==> !out.allow && out.reason == "chars_cap"
      ensures TooLong(cfg, out.prompt) && budget != null ==> budget.Books() == old(budget.Books())
      ensures !TooLong(cfg, out.prompt) && budget != null && cfg.bucket != "" ==>
        && budget.Books() == Rolled(old(budget.Books()), today)
        && match Judge(budget.cfg, budget.Books(), cfg.bucket, cfg.estCostUsd)
           case Allowed => out.allow
           case BucketExhausted => !out.allow && out.reason == "budget_bucket_exhausted"
           case GlobalExhausted => !out.allow && out.reason == "budget_global_exhausted"
      ensures !TooLong(cfg, out.prompt) && (budget == null || cfg.bucket == "") ==> out.allow
      ensures cfg.maxInputChars <= 0 || |prompt| <= cfg.maxInputChars || compactor.None? ==> out.prompt == prompt
      ensures 0 < cfg.maxInputChars < |prompt| && compactor.Some? ==> out.prompt == Compact(compactor.value, prompt).0
      ensures out.reason == "chars_cap" <==> 0 < cfg.maxInputChars < |out.prompt|
      ensures out.reason != "chars_cap" && budget != null && cfg.bucket != "" ==>
        && budget.day == today
        && (today == old(budget.day) ==> budget.global == old(budget.global) && budget.buckets == old(budget.buckets))
        && (today != old(budget.day) ==> budget.global == 0.0 && budget.buckets == map[])
        && var caps, est := budget.cfg.bucketCaps, if cfg.estCostUsd > 0.0 then cfg.estCostUsd else 0.0;
          var spent := if cfg.bucket in budget.buckets then budget.buckets[cfg.bucket] else 0.0;
          var bucketFull := cfg.bucket in caps && caps[cfg.bucket] > 0.0 && spent + est > caps[cfg.bucket];
          var globalFull := budget.cfg.globalCap > 0.0 && budget.global + est > budget.cfg.globalCap;
          && (out.reason == "budget_bucket_exhausted" <==> bucketFull)
          && (out.reason == "budget_global_exhausted" <==> globalFull && !bucketFull)
          && (out.allow <==> !bucketFull && !globalFull)
    {
      out := Decision(false, prompt, cfg.maxOutputTokens, cfg.estCostUsd, "");
      if cfg.maxInputChars > 0 && |out.prompt| > cfg.maxInputChars && compactor.Some? {
        out := out.(prompt := Compact(compactor.value, out.prompt).0);
      }
      if cfg.maxInputChars > 0 && |out.prompt| > cfg.maxInputChars {
        return out.(reason := "chars_cap");
      }
      if budget != null && cfg.bucket != "" {
        var verdict := budget.Allow(cfg.bucket, cfg.estCostUsd, today);
        match verdict
        case BucketExhausted => return out.(reason := "budget_bucket_exhausted");
        case GlobalExhausted => return out.(reason := "budget_global_exhausted");
        case Allowed =>
      }
      return out.(allow := true);
    }

    /** preflight.go, lines 131-136. */
    method Charge(actualUsd: real, today: int)
      modifies budget
      ensures budget != null && cfg.bucket != "" ==>
        budget.Books() == Charged(Rolled(old(budget.Books()), today), cfg.bucket, actualUsd)
      ensures budget != null && cfg.bucket == "" ==> budget.Books() == old(budget.Books())
      ensures budget != null && cfg.bucket != "" ==> budget.day == today
      ensures budget != null && cfg.bucket != "" ==>
        var actual := if actualUsd > 0.0 then actualUsd else 0.0;
        if today != old(budget.day) then budget.global == actual && budget.buckets == map[cfg.bucket := actual]
        else
          && budget.global == old(budget.global) + actual
          && budget.buckets == old(budget.buckets)[cfg.bucket :=
            (if cfg.bucket in old(budget.buckets) then old(budget.buckets)[cfg.bucket] else 0.0) + actual]
    {
      if budget == null || cfg.bucket == "" {
        return;
      }
      budget.Charge(cfg.bucket, actualUsd, today);
    }
  }
}
