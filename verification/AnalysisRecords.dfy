/**
 * When an analysis is stored, told on the names of the severities and apart from the ranks the
 * code compares: for one call, and for a whole run of calls that do not overlap
 * (internal/app/usecase/aianalysis/aianalysis.go, lines 155-381 and 537-622).
 */
module AnalysisRecords {
  import opened Optional
  import opened TextBytes
  import opened Analysis
  import opened AnalysisChain

  /** `a` stands above `b` in info < warning < critical < hard; any other name stands below them all. */
  predicate Above(a: string, b: string) {
    || (a == "hard" && b != "hard")
    || (a == "critical" && b != "hard" && b != "critical")
    || (a == "warning" && b != "hard" && b != "critical" && b != "warning")
    || (a == "info" && b != "hard" && b != "critical" && b != "warning" && b != "info")
  }

  lemma RanksAreAbove(a: string, b: string)
    ensures Above(a, b) <==> SeverityRank(a) > SeverityRank(b)
  {
  }

  predicate Resolved(f: Finding) { "RESOLVED_CORRECT" in f.reasons || "RESOLVED_WRONG" in f.reasons }

  /** Lines 556-562: the row is more than an hour old and the market has begun. */
  predicate Aged(cfg: Config, prev: Row, f: Finding, now: Time) {
    cfg.lifecycleRefreshDeltaPct > 0.0 && now > prev.createdAt + 3600 && f.lifecyclePct > 0.0
  }

  predicate Upgraded(prev: Row, f: Finding) { Above(f.severity, ExtractPriorSeverity(prev.triggerDetail)) }

  /** A first analysis, a severity above the last stored one, a resolution, or an aged row. */
  predicate Wanted(cfg: Config, prev: Option<Row>, f: Finding, now: Time) {
    prev.Some? ==> Upgraded(prev.value, f) || Resolved(f) || Aged(cfg, prev.value, f, now)
  }

  function KindOf(prev: Option<Row>, f: Finding): string {
    if prev.None? then "initial"
    else if Upgraded(prev.value, f) then "severity_upgrade"
    else if Resolved(f) then "resolution"
    else "refresh"
  }

  /**
   * One call: it asks the analyzer exactly if an analysis is wanted, and stores the answer under
   * the next version exactly if that is accepted and nothing fails; it logs one success for a
   * stored row, one failure or skip with its reason otherwise, and nothing if it did not want one.
   */
  lemma CallMeans(cfg: Config, rows: Versions, f: Finding, answer: Answer, faults: Faults, now: Time)
    ensures var effect, prev, next := AnalyzeOnce(cfg, rows, f, answer, faults, now), Latest(rows), LatestVersion(rows) + 1;
      var asks := cfg.alertsEnabled && !faults.latest && Wanted(cfg, prev, f, now);
      var stores := asks && Rejection(answer).None? && !faults.version && !faults.insert;
      && next !in rows
      && (effect.reached <==> asks)
      && (!stores ==> effect.rows == rows)
      && (stores ==> effect.rows == rows[next := Row(
        next, KindOf(prev, f), "severity=" + f.severity + " lifecycle=" + f.lifecyclePrinted, answer.text, "ok", now)])
      && (effect.log == [LogEntry("success", "")] <==> stores)
      && (!cfg.alertsEnabled ==> effect.log == [])
      && (cfg.alertsEnabled && faults.latest ==> effect.log == [LogEntry("failed_terminal", "repo_latest_error")])
      && (cfg.alertsEnabled && !faults.latest && !asks ==> effect.log == [])
      && (asks && Rejection(answer).Some? ==> effect.log == [Rejection(answer).value])
      && (asks && Rejection(answer).None? && faults.version ==> effect.log == [LogEntry("failed_terminal", "repo_version_error")])
      && (asks && Rejection(answer).None? && !faults.version && faults.insert ==>
        effect.log == [LogEntry("failed_terminal", "repo_insert_error")])
  {
    var prev := Latest(rows);
    if prev.Some? {
      RanksAreAbove(f.severity, ExtractPriorSeverity(prev.value.triggerDetail));
    }
    if Rejection(answer).Some? {
      RejectionIsNoSuccess(answer);
    }
    AnswerShape(answer);
    hide ExtractPriorSeverity, Rejection, SeverityRank, Above;
    assert "severity=" + f.severity + " lifecycle=" + f.lifecyclePrinted == TriggerDetail(f.severity, f.lifecyclePrinted);
  }

  /** Which answers are rejected, and how each is logged. */
  lemma RejectionMeans(answer: Answer)
    ensures match answer
      case Ok(text) =>
        var t := TrimSpace(text);
        var foreign := Contains(ToLower(t), "insufficient_quota") || Contains(ToLower(t), "rate_limit_exceeded")
          || Contains(ToLower(t), "\"error\":{");
        && (t == "" ==> Rejection(answer) == Some(LogEntry("failed_terminal", "validation_failed:empty_text")))
        && (t != "" && foreign ==> Rejection(answer) == Some(LogEntry("failed_terminal", "validation_failed:provider_error_text")))
        && (t != "" && !foreign ==> Rejection(answer) == None)
      case NotOk(_, lastError) => Rejection(answer) == Some(LogEntry("failed_terminal", lastError))
      case Skipped(reason) =>
        Rejection(answer).Some? && Rejection(answer).value.category == reason && HasPrefix(Rejection(answer).value.status, "skipped_")
      case ProviderError(category) =>
        && Rejection(answer).Some?
        && Rejection(answer).value.category == (if category == "" then "unknown" else category)
        && (Rejection(answer).value.status == "skipped_quota" <==> category == "quota_exceeded")
        && (Rejection(answer).value.status == "failed_retryable" <==>
          category == "rate_limited" || category == "timeout" || category == "provider_5xx")
        && (Rejection(answer).value.status in {"skipped_quota", "failed_retryable", "failed_terminal"})
  {
    match answer
    case Ok(text) =>
      hide Contains, TrimSpace, ToLower;
      var m := PROVIDER_MARKERS;
      assert "validation_failed:" + "empty_text" == "validation_failed:empty_text";
      assert "validation_failed:" + "provider_error_text" == "validation_failed:provider_error_text";
      assert m[0] == "insufficient_quota" && m[1] == "rate_limit_exceeded" && m[2] == "\"error\":{";
    case Skipped(reason) =>
      var status := Rejection(answer).value.status;
      assert status == "skipped_" + SanitizeReason(reason);
      assert status[..8] == "skipped_";
    case _ =>
  }

  /** A reason as a status suffix: lower case, blanks and dashes as underscores, cut at its first colon. */
  lemma ReasonSuffix(s: string)
    ensures var r := SanitizeReason(s);
      if s == "" then r == "unknown"
      else
        && |r| <= |s|
        && (forall k :: 0 <= k < |r| ==> r[k] == if s[k] == ' ' || s[k] == '-' then '_' else Lower(s[k]))
        && (s[0] == ':' ==> |r| == |s|)
        && (s[0] != ':' ==> ':' !in r && (|r| < |s| ==> s[|r|] == ':'))
  {
    SnakeAt(s);
    if s != "" {
      var i := IndexByte(Snake(s), ':');
      assert i > 0 ==> Snake(s)[i] == ':' && ':' !in Snake(s)[..i];
    }
  }

  lemma {:induction false} SnakeAt(s: string)
    ensures forall k :: 0 <= k < |s| ==> Snake(s)[k] == if s[k] == ' ' || s[k] == '-' then '_' else Lower(s[k])
    decreases |s|
  {
    if s != "" {
      SnakeAt(s[1..]);
    }
  }

  /** A stored severity with a blank in it is read back as its first word. */
  lemma SeverityReadsFirstWord(word: string, more: string, lifecycle: string)
    requires ' ' !in word && word != ""
    ensures ExtractPriorSeverity("severity=" + (word + " " + more) + " lifecycle=" + lifecycle) == word
  {
    var first, rest := KEY + word, more + " lifecycle=" + lifecycle;
    var detail := "severity=" + (word + " " + more) + " lifecycle=" + lifecycle;
    assert detail == first + (" " + rest);
    ReadWord(first, " " + rest, "");
    assert "" + first == first && (" " + rest)[1..] == rest;
    assert FieldsFrom(detail, "") == [first] + FieldsFrom(rest, "");
    assert first[..|KEY|] == KEY && first[|KEY|..] == word;
  }

  // ---- a run of calls that do not overlap -------------------------------------------------

  /** The call can store what it wants to. */
  predicate Accepted(cfg: Config, t: Turn) {
    cfg.alertsEnabled && t.faults == Faults(false, false, false) && Rejection(t.answer).None?
  }

  /** An accepted call whose severity stands above that of every accepted call before it. */
  predicate IsRecord(cfg: Config, turns: seq<Turn>, i: nat)
    requires i < |turns|
  {
    && Accepted(cfg, turns[i])
    && forall j :: 0 <= j < i && Accepted(cfg, turns[j]) ==> Above(turns[i].f.severity, turns[j].f.severity)
  }

  /** The market is not resolved, the last row is not aged, and the severity prints as one word. */
  ghost predicate Calm(cfg: Config, rows: Versions, t: Turn) {
    && ' ' !in t.f.severity && ' ' !in t.f.lifecyclePrinted && !Resolved(t.f)
    && (Latest(rows).Some? ==> !Aged(cfg, Latest(rows).value, t.f, t.now))
  }

  ghost predicate CalmRun(cfg: Config, turns: seq<Turn>) {
    forall i :: 0 <= i < |turns| ==> Calm(cfg, RunCalls(cfg, turns[..i]), turns[i])
  }

  /** `at` lists the records of `turns`, in order. */
  predicate Records(cfg: Config, turns: seq<Turn>, at: seq<nat>) {
    && (forall k :: 0 <= k < |at| ==> at[k] < |turns| && IsRecord(cfg, turns, at[k]))
    && (forall k, m :: 0 <= k < m < |at| ==> at[k] < at[m])
    && (forall i :: 0 <= i < |turns| && IsRecord(cfg, turns, i) ==> i in at)
  }

  /** The stored row of turn `t` as version `v`. */
  function Stored(v: int, t: Turn): Row {
    Row(v, if v == 1 then "initial" else "severity_upgrade",
      "severity=" + t.f.severity + " lifecycle=" + t.f.lifecyclePrinted,
      if t.answer.Ok? then t.answer.text else "", "ok", t.now)
  }

  ghost predicate ChainOf(turns: seq<Turn>, at: seq<nat>, rows: Versions)
    requires forall k :: 0 <= k < |at| ==> at[k] < |turns|
  {
    && (forall v :: v in rows <==> 1 <= v <= |at|)
    && (forall k :: 0 <= k < |at| ==> rows[k + 1] == Stored(k + 1, turns[at[k]]))
  }

  function Rank(t: Turn): nat { SeverityRank(t.f.severity) }

  /** No accepted call stands above the last record, and there is one once a call was accepted. */
  predicate LastIsTop(cfg: Config, turns: seq<Turn>, at: seq<nat>)
    requires Records(cfg, turns, at)
  {
    forall j :: 0 <= j < |turns| && Accepted(cfg, turns[j]) ==>
      at != [] && Rank(turns[j]) <= Rank(turns[at[|at| - 1]])
  }

  /** The last stored row is that of the last record, and its severity is read back. */
  lemma LatestIsLastRecord(turns: seq<Turn>, at: seq<nat>, rows: Versions)
    requires forall k :: 0 <= k < |at| ==> at[k] < |turns|
    requires ChainOf(turns, at, rows)
    requires at != [] ==> ' ' !in turns[at[|at| - 1]].f.severity && ' ' !in turns[at[|at| - 1]].f.lifecyclePrinted
    ensures LatestVersion(rows) == |at|
    ensures at == [] ==> Latest(rows).None?
    ensures at != [] ==>
      && Latest(rows) == Some(Stored(|at|, turns[at[|at| - 1]]))
      && ExtractPriorSeverity(Latest(rows).value.triggerDetail) == turns[at[|at| - 1]].f.severity
  {
    hide ExtractPriorSeverity;
    if at == [] {
      assert Empty(rows);
    } else {
      var t := turns[at[|at| - 1]];
      assert |at| in rows;
      assert rows[|at|] == Stored(|at|, t);
      assert Stored(|at|, t).triggerDetail == TriggerDetail(t.f.severity, t.f.lifecyclePrinted);
      SeverityRoundTrip(t.f.severity, t.f.lifecyclePrinted);
    }
  }

  lemma RecordStays(cfg: Config, before: seq<Turn>, t: Turn, i: nat)
    requires i < |before|
    ensures IsRecord(cfg, before + [t], i) <==> IsRecord(cfg, before, i)
  {
    hide Above, Accepted;
    var turns := before + [t];
    assert forall j :: 0 <= j <= i ==> turns[j] == before[j];
  }

  predicate Next(cfg: Config, before: seq<Turn>, t: Turn, at: seq<nat>)
    requires forall k :: 0 <= k < |at| ==> at[k] < |before|
  {
    Accepted(cfg, t) && (at == [] || Above(t.f.severity, before[at[|at| - 1]].f.severity))
  }

  /** Only the last record matters for the next one. */
  lemma NextIsRecord(cfg: Config, before: seq<Turn>, t: Turn, at: seq<nat>)
    requires Records(cfg, before, at) && LastIsTop(cfg, before, at)
    ensures IsRecord(cfg, before + [t], |before|) <==> Next(cfg, before, t, at)
  {
    hide Above, Accepted, SeverityRank;
    var turns, n := before + [t], |before|;
    assert turns[n] == t && forall j :: 0 <= j < n ==> turns[j] == before[j];
    if at != [] {
      var last := at[|at| - 1];
      RanksAreAbove(t.f.severity, before[last].f.severity);
      assert IsRecord(cfg, before, last);
      assert Accepted(cfg, turns[last]);
    }
    if Next(cfg, before, t, at) {
      forall j | 0 <= j < n && Accepted(cfg, turns[j])
        ensures Above(t.f.severity, turns[j].f.severity)
      {
        RanksAreAbove(t.f.severity, turns[j].f.severity);
      }
    }
  }

  /** What one more call does to the records. */
  lemma RecordStep(cfg: Config, before: seq<Turn>, t: Turn, at: seq<nat>) returns (at': seq<nat>)
    requires Records(cfg, before, at) && LastIsTop(cfg, before, at)
    ensures at' == if Next(cfg, before, t, at) then at + [|before|] else at
    ensures Records(cfg, before + [t], at')
  {
    hide IsRecord, Accepted, LastIsTop, Next;
    var turns, n := before + [t], |before|;
    NextIsRecord(cfg, before, t, at);
    at' := if Next(cfg, before, t, at) then at + [n] else at;
    forall i | 0 <= i < n
      ensures IsRecord(cfg, turns, i) <==> IsRecord(cfg, before, i)
    {
      RecordStays(cfg, before, t, i);
    }
    forall i | 0 <= i < |turns| && IsRecord(cfg, turns, i)
      ensures i in at'
    {
      if i < n {
        assert i in at;
      } else {
        assert at'[|at|] == n;
      }
    }
  }

  lemma TopStep(cfg: Config, before: seq<Turn>, t: Turn, at: seq<nat>, at': seq<nat>)
    requires Records(cfg, before, at) && LastIsTop(cfg, before, at) && Records(cfg, before + [t], at')
    requires at' == if Next(cfg, before, t, at) then at + [|before|] else at
    ensures LastIsTop(cfg, before + [t], at')
  {
    hide IsRecord, Accepted, Above, SeverityRank;
    if at != [] {
      RanksAreAbove(t.f.severity, before[at[|at| - 1]].f.severity);
    }
  }

  /** What one more call does to the stored chain. */
  lemma ChainStep(cfg: Config, before: seq<Turn>, t: Turn, at: seq<nat>, rows: Versions)
    requires forall k :: 0 <= k < |at| ==> at[k] < |before|
    requires at != [] ==> ' ' !in before[at[|at| - 1]].f.severity && ' ' !in before[at[|at| - 1]].f.lifecyclePrinted
    requires ChainOf(before, at, rows) && Calm(cfg, rows, t)
    ensures ChainOf(before + [t], if Next(cfg, before, t, at) then at + [|before|] else at,
      AnalyzeOnce(cfg, rows, t.f, t.answer, t.faults, t.now).rows)
  {
    hide Above, ExtractPriorSeverity, Rejection, AnalyzeOnce, LatestVersion, Latest, ChainOf;
    LatestIsLastRecord(before, at, rows);
    CallMeans(cfg, rows, t.f, t.answer, t.faults, t.now);
    AnswerShape(t.answer);
    var rows' := AnalyzeOnce(cfg, rows, t.f, t.answer, t.faults, t.now).rows;
    if Next(cfg, before, t, at) {
      assert rows' == rows[|at| + 1 := Stored(|at| + 1, t)];
    } else {
      assert rows' == rows;
    }
    ChainGrows(before, t, at, rows);
  }

  lemma ChainGrows(before: seq<Turn>, t: Turn, at: seq<nat>, rows: Versions)
    requires forall k :: 0 <= k < |at| ==> at[k] < |before|
    requires ChainOf(before, at, rows)
    ensures ChainOf(before + [t], at, rows)
    ensures ChainOf(before + [t], at + [|before|], rows[|at| + 1 := Stored(|at| + 1, t)])
  {
    hide Stored;
  }

  /**
   * While no market resolves and no stored row ages, the stored versions are exactly the accepted
   * calls whose severity stands above that of all accepted calls before them, in their order,
   * each with its own text, severity and time; any other call stores nothing.
   */
  lemma {:induction false} ChainIsRecords(cfg: Config, turns: seq<Turn>) returns (at: seq<nat>)
    requires CalmRun(cfg, turns)
    ensures Records(cfg, turns, at) && ChainOf(turns, at, RunCalls(cfg, turns))
    ensures LastIsTop(cfg, turns, at)
    decreases |turns|
  {
    hide AnalyzeOnce, Above, Aged, Resolved, Accepted, LastIsTop;
    if turns == [] {
      at := [];
      assert LastIsTop(cfg, [], []) by { NoneOnTop(cfg); }
    } else {
      var before, t := turns[..|turns| - 1], turns[|turns| - 1];
      assert turns == before + [t];
      forall i | 0 <= i < |before|
        ensures Calm(cfg, RunCalls(cfg, before[..i]), before[i])
      {
        assert before[..i] == turns[..i];
      }
      var was := ChainIsRecords(cfg, before);
      at := RecordStep(cfg, before, t, was);
      TopStep(cfg, before, t, was, at);
      assert was != [] ==> Calm(cfg, RunCalls(cfg, turns[..was[|was| - 1]]), turns[was[|was| - 1]]);
      ChainStep(cfg, before, t, was, RunCalls(cfg, before));
    }
  }

  lemma NoneOnTop(cfg: Config)
    ensures LastIsTop(cfg, [], [])
  {
  }
}
