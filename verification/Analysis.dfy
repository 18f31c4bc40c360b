/**
 * Per-alert AI analysis (internal/app/usecase/aianalysis/aianalysis.go, lines 155-636): the
 * refresh policy, which parses back what an earlier call printed, the output check, and one
 * call against the analysis table and the request log
 * (internal/infra/repository/analysis_repository.go, lines 76-124).
 */
module Analysis {
  import opened Optional
  import opened TextBytes

  // ---- splitting and parsing the trigger detail (lines 566-636) -----------------------

  /** The space-separated fields of `s`, with `current` already read of the first. */
  function FieldsFrom(s: string, current: string): seq<string>
    decreases |s|
  {
    if s == [] then if current != "" then [current] else []
    else if s[0] == ' ' then (if current != "" then [current] else []) + FieldsFrom(s[1..], "")
    else FieldsFrom(s[1..], current + [s[0]])
  }

  method SplitFields(s: string) returns (out: seq<string>)
    ensures out == FieldsFrom(s, "")
  {
    out := [];
    var current := "";
    var i := 0;
    assert s[0..] == s;
    while i < |s|
      invariant 0 <= i <= |s|
      invariant out + FieldsFrom(s[i..], current) == FieldsFrom(s, "")
    {
      var ch := s[i];
      assert s[i..][1..] == s[i + 1..];
      if ch == ' ' {
        if current != "" {
          out := out + [current];
          current := "";
        }
      } else {
        current := current + [ch];
      }
      i := i + 1;
    }
    if current != "" {
      out := out + [current];
    }
  }

  const KEY := "severity="

  /** The value of the first field that carries one under `KEY`. */
  function FirstSeverity(fields: seq<string>): string {
    if fields == [] then ""
    else if |fields[0]| > |KEY| && HasPrefix(fields[0], KEY) then fields[0][|KEY|..]
    else FirstSeverity(fields[1..])
  }

  function ExtractPriorSeverity(triggerDetail: string): string { FirstSeverity(FieldsFrom(triggerDetail, "")) }

  /** `lifecycle` is the percentage as printed, to one decimal. */
  function TriggerDetail(severity: string, lifecycle: string): string {
    KEY + severity + " lifecycle=" + lifecycle
  }

  lemma {:induction false} ReadWord(w: string, rest: string, current: string)
    requires ' ' !in w
    ensures FieldsFrom(w + rest, current) == FieldsFrom(rest, current + w)
    decreases |w|
  {
    if w == [] {
      assert w + rest == rest && current + w == current;
    } else {
      assert (w + rest)[0] == w[0] && (w + rest)[1..] == w[1..] + rest;
      ReadWord(w[1..], rest, current + [w[0]]);
      assert current + [w[0]] + w[1..] == current + w;
    }
  }

  lemma {:induction false} FieldsHaveNoSpace(s: string, current: string)
    requires ' ' !in current
    ensures forall f :: f in FieldsFrom(s, current) ==> ' ' !in f
    decreases |s|
  {
    if s != [] {
      if s[0] == ' ' {
        FieldsHaveNoSpace(s[1..], "");
      } else {
        FieldsHaveNoSpace(s[1..], current + [s[0]]);
      }
    }
  }

  lemma {:induction false} SeverityHasNoSpace(fields: seq<string>)
    requires forall f :: f in fields ==> ' ' !in f
    ensures ' ' !in FirstSeverity(fields)
    decreases |fields|
  {
    if fields != [] {
      assert fields[0] in fields;
      if !(|fields[0]| > |KEY| && HasPrefix(fields[0], KEY)) {
        SeverityHasNoSpace(fields[1..]);
      }
    }
  }

  lemma TwoFields(severity: string, lifecycle: string)
    requires ' ' !in severity && ' ' !in lifecycle
    ensures FieldsFrom(TriggerDetail(severity, lifecycle), "") == [KEY + severity, "lifecycle=" + lifecycle]
  {
    var a, b := KEY + severity, "lifecycle=" + lifecycle;
    assert TriggerDetail(severity, lifecycle) == a + (" " + b);
    ReadWord(a, " " + b, "");
    assert "" + a == a;
    assert (" " + b)[1..] == b;
    ReadWord(b, "", "");
    assert b + "" == b && "" + b == b;
  }

  /** What one call prints, the next call's parser reads back exactly if the severity has no space. */
  lemma SeverityRoundTrip(severity: string, lifecycle: string)
    requires ' ' !in lifecycle
    ensures ExtractPriorSeverity(TriggerDetail(severity, lifecycle)) == severity <==> ' ' !in severity
  {
    if ' ' !in severity {
      TwoFields(severity, lifecycle);
      var a, b := KEY + severity, "lifecycle=" + lifecycle;
      assert a[..|KEY|] == KEY && a[|KEY|..] == severity;
      assert b[..|KEY|][0] == 'l';
      assert [a, b][1..] == [b];
      assert FirstSeverity([b]) == "";
    } else {
      FieldsHaveNoSpace(TriggerDetail(severity, lifecycle), "");
      SeverityHasNoSpace(FieldsFrom(TriggerDetail(severity, lifecycle), ""));
    }
  }

  // ---- the refresh policy (lines 537-619) -----------------------------------------------

  function SeverityRank(s: string): nat {
    if s == "hard" then 4 else if s == "critical" then 3 else if s == "warning" then 2 else if s == "info" then 1 else 0
  }

  /** The parts of a finding the policy looks at. */
  datatype Finding = Finding(severity: string, lifecyclePct: real, lifecyclePrinted: string, reasons: seq<string>)

  datatype Config = Config(alertsEnabled: bool, lifecycleRefreshDeltaPct: real)

  type Time = int        // seconds
  const HOUR: Time := 3600

  datatype Row = Row(version: int, triggerKind: string, triggerDetail: string, text: string, status: string, createdAt: Time)

  predicate IsTerminal(f: Finding) { "RESOLVED_CORRECT" in f.reasons || "RESOLVED_WRONG" in f.reasons }

  predicate LifecycleMoved(cfg: Config, prev: Row, f: Finding, now: Time) {
    cfg.lifecycleRefreshDeltaPct > 0.0 && now - prev.createdAt > HOUR && f.lifecyclePct > 0.0
  }

  predicate ShouldRefresh(cfg: Config, prev: Row, f: Finding, now: Time) {
    || SeverityRank(f.severity) > SeverityRank(ExtractPriorSeverity(prev.triggerDetail))
    || LifecycleMoved(cfg, prev, f, now)
    || IsTerminal(f)
  }

  function TriggerKind(prev: Option<Row>, f: Finding): string {
    if prev.None? then "initial"
    else if SeverityRank(f.severity) > SeverityRank(ExtractPriorSeverity(prev.value.triggerDetail)) then "severity_upgrade"
    else if IsTerminal(f) then "resolution"
    else "refresh"
  }

  // ---- the output check (lines 476-492) ---------------------------------------------------

  const PROVIDER_MARKERS: seq<string> := ["insufficient_quota", "rate_limit_exceeded", "\"error\":{"]

  /** Empty when the text may be stored; otherwise why not. */
  function ValidateAlertOutput(text: string): string {
    var t := TrimSpace(text);
    if t == "" then "empty_text"
    else if exists i :: 0 <= i < |PROVIDER_MARKERS| && Contains(ToLower(t), PROVIDER_MARKERS[i]) then "provider_error_text"
    else ""
  }

  // ---- what an analyzer call can come back with ---------------------------------------------

  datatype Answer = ProviderError(category: string) | Skipped(reason: string) | NotOk(status: string, lastError: string) | Ok(text: string)

  datatype LogEntry = LogEntry(status: string, category: string)

  /** Lines 414-440. */
  function ClassifyError(category: string): LogEntry {
    var cat := if category == "" then "unknown" else category;
    if cat == "quota_exceeded" then LogEntry("skipped_quota", cat)
    else if cat in {"rate_limited", "timeout", "provider_5xx"} then LogEntry("failed_retryable", cat)
    else LogEntry("failed_terminal", cat)
  }

  /** Lines 397-409: a reason as a status suffix. */
  function Snake(s: string): (r: string)
    ensures |r| == |s|
  {
    if s == [] then [] else [if s[0] == ' ' || s[0] == '-' then '_' else Lower(s[0])] + Snake(s[1..])
  }

  function SanitizeReason(s: string): string {
    if s == "" then "unknown" else
      var r := Snake(s);
      var i := IndexByte(r, ':');
      if i > 0 then r[..i] else r
  }

  /** The log row of an answer that is not stored, or `None` for one that passes. */
  function Rejection(answer: Answer): Option<LogEntry> {
    match answer
    case ProviderError(category) => Some(ClassifyError(category))
    case Skipped(reason) => Some(LogEntry("skipped_" + SanitizeReason(reason), reason))
    case NotOk(status, lastError) => Some(LogEntry("failed_terminal", lastError))
    case Ok(text) =>
      var reason := ValidateAlertOutput(text);
      if reason != "" then Some(LogEntry("failed_terminal", "validation_failed:" + reason)) else None
  }

  function NewRow(prev: Option<Row>, f: Finding, version: int, text: string, now: Time): Row {
    Row(version, TriggerKind(prev, f), TriggerDetail(f.severity, f.lifecyclePrinted), text, "ok", now)
  }

  // ---- the analysis table (analysis_repository.go, lines 76-124) -------------------------------

  /** One alert's rows by version. */
  type Versions = map<int, Row>

  predicate Empty(rows: Versions) { !exists v :: v in rows }

  predicate IsLatest(rows: Versions, v: int) { v in rows && forall u :: u in rows ==> u <= v }

  lemma {:induction false} LatestExists(rows: Versions, keys: set<int>)
    requires keys <= rows.Keys && exists k :: k in keys
    ensures exists v :: v in keys && forall u :: u in keys ==> u <= v
    decreases keys
  {
    var k :| k in keys;
    var others := keys - {k};
    if exists j :: j in others {
      LatestExists(rows, others);
      var v :| v in others && forall u :: u in others ==> u <= v;
      var most := if v < k then k else v;
      assert forall u :: u in keys ==> u == k || u in others;
      assert most in keys && forall u :: u in keys ==> u <= most;
    } else {
      assert forall u :: u in keys ==> u == k || u in others;
    }
  }

  /** `COALESCE(MAX(version), 0)`. */
  ghost function LatestVersion(rows: Versions): (v: int)
    ensures if Empty(rows) then v == 0 else IsLatest(rows, v)
  {
    if Empty(rows) then 0 else
      LatestExists(rows, rows.Keys);
      var v :| v in rows.Keys && forall u :: u in rows.Keys ==> u <= v;
      v
  }

  ghost function Latest(rows: Versions): Option<Row> {
    if Empty(rows) then None else Some(rows[LatestVersion(rows)])
  }

  /** `ON CONFLICT (alert_id, version) DO NOTHING`. */
  function Inserted(rows: Versions, row: Row): Versions { if row.version in rows then rows else rows[row.version := row] }

  class AlertAnalysisRepository {
    var tables: map<int, Versions>

    function Of(alertId: int): Versions
      reads this
    {
      if alertId in tables then tables[alertId] else map[]
    }

    constructor ()
      ensures tables == map[]
    {
      tables := map[];
    }

    method ReadLatestVersion(alertId: int) returns (v: int)
      ensures v == LatestVersion(Of(alertId))
    {
      var rows := Of(alertId);
      v := 0;
      var left := rows.Keys;
      var first := true;
      while exists u :: u in left
        invariant left <= rows.Keys
        invariant first ==> left == rows.Keys && v == 0
        invariant !first ==> v in rows && forall u :: u in rows && u !in left ==> u <= v
        decreases left
      {
        var u :| u in left;
        if first || u > v {
          v := u;
        }
        first := false;
        left := left - {u};
      }
    }

    method ReadLatest(alertId: int) returns (row: Option<Row>)
      ensures row == Latest(Of(alertId))
    {
      var v := ReadLatestVersion(alertId);
      var rows := Of(alertId);
      if Empty(rows) {
        return None;
      }
      return Some(rows[v]);
    }

    method Insert(alertId: int, row: Row) returns (inserted: bool)
      modifies this
      ensures tables == old(tables)[alertId := Inserted(old(Of(alertId)), row)]
      ensures inserted <==> row.version !in old(Of(alertId))
      ensures Of(alertId) == if inserted then old(Of(alertId))[row.version := row] else old(Of(alertId))
      ensures forall other :: other != alertId ==> Of(other) == old(Of(other))
    {
      var rows := Of(alertId);
      inserted := row.version !in rows;
      tables := tables[alertId := Inserted(rows, row)];
    }
  }

  // ---- one call (lines 155-381) -----------------------------------------------------------------

  /** Which of the three reads and writes of the analysis table fail. */
  datatype Faults = Faults(latest: bool, version: bool, insert: bool)

  /** What a call leaves: the alert's rows, the log rows it wrote, and whether it reached the analyzer. */
  datatype Effect = Effect(rows: Versions, log: seq<LogEntry>, reached: bool)

  ghost function AnalyzeOnce(cfg: Config, rows: Versions, f: Finding, answer: Answer, faults: Faults, now: Time): Effect {
    if !cfg.alertsEnabled then Effect(rows, [], false)
    else if faults.latest then Effect(rows, [LogEntry("failed_terminal", "repo_latest_error")], false)
    else
      var prev := Latest(rows);
      if prev.Some? && !ShouldRefresh(cfg, prev.value, f, now) then Effect(rows, [], false)
      else if Rejection(answer).Some? then Effect(rows, [Rejection(answer).value], true)
      else if faults.version then Effect(rows, [LogEntry("failed_terminal", "repo_version_error")], true)
      else if faults.insert then Effect(rows, [LogEntry("failed_terminal", "repo_insert_error")], true)
      else Effect(Inserted(rows, NewRow(prev, f, LatestVersion(rows) + 1, answer.text, now)), [LogEntry("success", "")], true)
  }

  class Service {
    const cfg: Config
    const repo: AlertAnalysisRepository
    var log: seq<LogEntry>

    constructor (cfg: Config, repo: AlertAnalysisRepository)
      ensures this.cfg == cfg && this.repo == repo && log == []
    {
      this.cfg := cfg;
      this.repo := repo;
      log := [];
    }

    method RecordRequestLog(entry: LogEntry)
      modifies this
      ensures log == old(log) + [entry]
    {
      log := log + [entry];
    }

    method AnalyzeAndStore(alertId: int, f: Finding, answer: Answer, faults: Faults, now: Time)
      modifies this, repo
      ensures var effect := AnalyzeOnce(cfg, old(repo.Of(alertId)), f, answer, faults, now);
        && repo.Of(alertId) == effect.rows
        && log == old(log) + effect.log
      ensures forall other :: other != alertId ==> repo.Of(other) == old(repo.Of(other))
    {
      hide ShouldRefresh, NewRow, ValidateAlertOutput;
      if !cfg.alertsEnabled {
        return;
      }
      if faults.latest {
        RecordRequestLog(LogEntry("failed_terminal", "repo_latest_error"));
        return;
      }
      var prev := repo.ReadLatest(alertId);
      if prev.Some? && !ShouldRefresh(cfg, prev.value, f, now) {
        return;
      }
      var rejection := Rejection(answer);
      if rejection.Some? {
        RecordRequestLog(rejection.value);
        return;
      }
      if faults.version {
        RecordRequestLog(LogEntry("failed_terminal", "repo_version_error"));
        return;
      }
      var nextVersion := repo.ReadLatestVersion(alertId);
      nextVersion := nextVersion + 1;
      if faults.insert {
        RecordRequestLog(LogEntry("failed_terminal", "repo_insert_error"));
        return;
      }
      var _ := repo.Insert(alertId, NewRow(prev, f, nextVersion, answer.text, now));
      RecordRequestLog(LogEntry("success", ""));
    }
  }
}
