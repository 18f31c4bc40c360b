/**
 * The version chain of one alert: under racing calls, and under calls that do not overlap.
 */
module AnalysisChain {
  import opened Optional
  import opened Analysis

  // ---- racing calls --------------------------------------------------------------------

  /**
   * Where a call stands between two of its accesses to the table. `Done` records whether it
   * reached the analyzer and how many request-log writes it attempted.
   */
  datatype Call =
    | Begun(f: Finding)
    | Asking(prev: Option<Row>, f: Finding)
    | Answered(prev: Option<Row>, f: Finding, text: string)
    | Numbered(prev: Option<Row>, f: Finding, text: string, version: int)
    | Done(reached: bool, logs: nat)
    | Dead

  /** `lost` counts inserts that met a row a concurrent call had written. */
  datatype World = World(rows: Versions, calls: seq<Call>, log: seq<LogEntry>, lost: nat)

  datatype Event =
    | Begin(f: Finding)
    | ReadLatestRow(i: nat, fails: bool, now: Time)
    | GetAnswer(i: nat, answer: Answer)
    | ReadVersion(i: nat, fails: bool)
    | InsertRow(i: nat, fails: bool, now: Time)
    | Die(i: nat)

  /** The call ends with one log write. */
  ghost function Finish(w: World, i: nat, reached: bool, entry: LogEntry): World
    requires i < |w.calls|
  {
    w.(calls := w.calls[i := Done(reached, 1)], log := w.log + [entry])
  }

  const SUCCESS := LogEntry("success", "")

  ghost function Step(cfg: Config, w: World, e: Event): World {
    match e
    case Begin(f) => w.(calls := w.calls + [if cfg.alertsEnabled then Begun(f) else Done(false, 0)])
    case ReadLatestRow(i, fails, now) =>
      if i >= |w.calls| || !w.calls[i].Begun? then w
      else if fails then Finish(w, i, false, LogEntry("failed_terminal", "repo_latest_error"))
      else
        var f, prev := w.calls[i].f, Latest(w.rows);
        if prev.Some? && !ShouldRefresh(cfg, prev.value, f, now)
          then w.(calls := w.calls[i := Done(false, 0)]) else w.(calls := w.calls[i := Asking(prev, f)])
    case GetAnswer(i, answer) =>
      if i >= |w.calls| || !w.calls[i].Asking? then w
      else if Rejection(answer).Some? then Finish(w, i, true, Rejection(answer).value)
      else w.(calls := w.calls[i := Answered(w.calls[i].prev, w.calls[i].f, answer.text)])
    case ReadVersion(i, fails) =>
      if i >= |w.calls| || !w.calls[i].Answered? then w
      else if fails then Finish(w, i, true, LogEntry("failed_terminal", "repo_version_error"))
      else
        var c := w.calls[i];
        w.(calls := w.calls[i := Numbered(c.prev, c.f, c.text, LatestVersion(w.rows) + 1)])
    case InsertRow(i, fails, now) =>
      if i >= |w.calls| || !w.calls[i].Numbered? then w
      else if fails then Finish(w, i, true, LogEntry("failed_terminal", "repo_insert_error"))
      else
        var c := w.calls[i];
        Finish(w, i, true, SUCCESS).(
          rows := Inserted(w.rows, NewRow(c.prev, c.f, c.version, c.text, now)),
          lost := w.lost + if c.version in w.rows then 1 else 0)
    case Die(i) =>
      if i >= |w.calls| || w.calls[i].Done? then w else w.(calls := w.calls[i := Dead])
  }

  ghost function Run(cfg: Config, events: seq<Event>): World {
    if events == [] then World(map[], [], [], 0)
    else Step(cfg, Run(cfg, events[..|events| - 1]), events[|events| - 1])
  }

  /** The versions stored are exactly 1, 2, ..., n. */
  ghost predicate Contiguous(rows: Versions) { forall v :: v in rows <==> 1 <= v <= |rows| }

  predicate GoodRow(v: int, row: Row) {
    row.version == v && row.status == "ok" && ValidateAlertOutput(row.text) == ""
  }

  predicate GoodCall(c: Call, n: nat) {
    match c
    case Answered(_, _, text) => ValidateAlertOutput(text) == ""
    case Numbered(_, _, text, version) => ValidateAlertOutput(text) == "" && 1 <= version <= n + 1
    case Done(reached, logs) => logs <= 1 && (reached ==> logs == 1)
    case _ => true
  }

  function LogsOf(c: Call): nat { if c.Done? then c.logs else 0 }

  /** The log writes attempted by the calls that have returned. */
  function Logs(calls: seq<Call>): nat {
    if calls == [] then 0 else Logs(calls[..|calls| - 1]) + LogsOf(calls[|calls| - 1])
  }

  function Successes(log: seq<LogEntry>): nat {
    if log == [] then 0 else Successes(log[..|log| - 1]) + if log[|log| - 1] == SUCCESS then 1 else 0
  }

  ghost predicate Sound(w: World) {
    && Contiguous(w.rows)
    && (forall v :: v in w.rows ==> GoodRow(v, w.rows[v]))
    && (forall i :: 0 <= i < |w.calls| ==> GoodCall(w.calls[i], |w.rows|))
    && Logs(w.calls) == |w.log|
    && Successes(w.log) == |w.rows| + w.lost
  }

  lemma {:induction false} LogsUpdate(calls: seq<Call>, i: nat, c: Call)
    requires i < |calls|
    ensures Logs(calls[i := c]) == Logs(calls) - LogsOf(calls[i]) + LogsOf(c)
    decreases |calls|
  {
    var front := calls[..|calls| - 1];
    if i < |front| {
      LogsUpdate(front, i, c);
      assert calls[i := c][..|calls| - 1] == front[i := c];
    } else {
      assert calls[i := c][..|calls| - 1] == front;
    }
  }

  lemma ContiguousLatest(rows: Versions)
    requires Contiguous(rows)
    ensures LatestVersion(rows) == |rows|
  {
    if Empty(rows) {
      assert 1 !in rows;
    } else {
      assert |rows| >= 1 && |rows| in rows;
    }
  }

  lemma InsertNext(rows: Versions, row: Row)
    requires Contiguous(rows) && 1 <= row.version <= |rows| + 1
    ensures Contiguous(Inserted(rows, row))
    ensures |Inserted(rows, row)| == if row.version in rows then |rows| else |rows| + 1
  {
  }

  /** No rejection is logged as a success. */
  lemma RejectionIsNoSuccess(answer: Answer)
    requires Rejection(answer).Some?
    ensures Rejection(answer).value != SUCCESS
  {
    hide ValidateAlertOutput, SanitizeReason;
    match answer
    case Skipped(reason) => assert ("skipped_" + SanitizeReason(reason))[1] == 'k';
    case _ =>
  }

  lemma AcceptedIsValid(answer: Answer)
    requires Rejection(answer).None?
    ensures answer.Ok? && ValidateAlertOutput(answer.text) == ""
  {
    hide ValidateAlertOutput;
  }

  lemma FinishSound(w: World, i: nat, reached: bool, entry: LogEntry)
    requires Sound(w) && i < |w.calls| && LogsOf(w.calls[i]) == 0 && entry != SUCCESS
    ensures Sound(Finish(w, i, reached, entry))
  {
    hide ValidateAlertOutput;
    LogsUpdate(w.calls, i, Done(reached, 1));
    assert (w.log + [entry])[..|w.log|] == w.log;
  }

  lemma ReplaceSound(w: World, i: nat, c: Call)
    requires Sound(w) && i < |w.calls| && LogsOf(w.calls[i]) == 0 && LogsOf(c) == 0 && GoodCall(c, |w.rows|)
    ensures Sound(w.(calls := w.calls[i := c]))
  {
    hide ValidateAlertOutput;
    LogsUpdate(w.calls, i, c);
  }

  lemma InsertSound(cfg: Config, w: World, i: nat, now: Time)
    requires Sound(w) && i < |w.calls| && w.calls[i].Numbered?
    ensures Sound(Step(cfg, w, InsertRow(i, false, now)))
  {
    hide ValidateAlertOutput, TriggerKind, TriggerDetail, Logs;
    var c := w.calls[i];
    assert GoodCall(c, |w.rows|);
    InsertNext(w.rows, NewRow(c.prev, c.f, c.version, c.text, now));
    LogsUpdate(w.calls, i, Done(true, 1));
    assert (w.log + [SUCCESS])[..|w.log|] == w.log;
  }

  lemma BeginSound(w: World, c: Call)
    requires Sound(w) && (c.Begun? || c == Done(false, 0))
    ensures Sound(w.(calls := w.calls + [c]))
  {
    hide ValidateAlertOutput;
    assert (w.calls + [c])[..|w.calls|] == w.calls;
  }

  lemma NumberSound(w: World, i: nat)
    requires Sound(w) && i < |w.calls| && w.calls[i].Answered?
    ensures var c := w.calls[i];
      Sound(w.(calls := w.calls[i := Numbered(c.prev, c.f, c.text, LatestVersion(w.rows) + 1)]))
  {
    hide ValidateAlertOutput;
    var c := w.calls[i];
    assert GoodCall(c, |w.rows|);
    ContiguousLatest(w.rows);
    ReplaceSound(w, i, Numbered(c.prev, c.f, c.text, LatestVersion(w.rows) + 1));
  }

  lemma StepSound(cfg: Config, w: World, e: Event)
    requires Sound(w)
    ensures Sound(Step(cfg, w, e))
  {
    match e
    case Begin(f) =>
      hide Sound;
      BeginSound(w, if cfg.alertsEnabled then Begun(f) else Done(false, 0));
    case ReadLatestRow(i, fails, now) =>
      hide Sound, GoodCall, Logs;
      if i < |w.calls| && w.calls[i].Begun? {
        if fails {
          FinishSound(w, i, false, LogEntry("failed_terminal", "repo_latest_error"));
        } else {
          PlainCall(Done(false, 0), |w.rows|);
          ReplaceSound(w, i, Done(false, 0));
          PlainCall(Asking(Latest(w.rows), w.calls[i].f), |w.rows|);
          ReplaceSound(w, i, Asking(Latest(w.rows), w.calls[i].f));
        }
      }
    case GetAnswer(i, answer) =>
      hide Sound, Rejection, ValidateAlertOutput;
      if i < |w.calls| && w.calls[i].Asking? {
        if Rejection(answer).Some? {
          RejectionIsNoSuccess(answer);
          FinishSound(w, i, true, Rejection(answer).value);
        } else {
          AcceptedIsValid(answer);
          ReplaceSound(w, i, Answered(w.calls[i].prev, w.calls[i].f, answer.text));
        }
      }
    case ReadVersion(i, fails) =>
      hide Sound;
      if i < |w.calls| && w.calls[i].Answered? {
        if fails {
          FinishSound(w, i, true, LogEntry("failed_terminal", "repo_version_error"));
        } else {
          NumberSound(w, i);
        }
      }
    case InsertRow(i, fails, now) =>
      hide Sound;
      if i < |w.calls| && w.calls[i].Numbered? {
        if fails {
          FinishSound(w, i, true, LogEntry("failed_terminal", "repo_insert_error"));
        } else {
          InsertSound(cfg, w, i, now);
        }
      }
    case Die(i) =>
      hide Sound;
      if i < |w.calls| && !w.calls[i].Done? {
        ReplaceSound(w, i, Dead);
      }
  }

  lemma PlainCall(c: Call, n: nat)
    requires c == Done(false, 0) || c.Asking?
    ensures GoodCall(c, n)
  {
  }

  /**
   * However concurrent calls interleave, fail or die: the versions stored are 1..n, every row
   * has status ok and passes the output check, every call that reached the analyzer and
   * returned attempted exactly one log write, and the log has one success per stored row and
   * one per race lost -- a lost race is logged as a success although nothing was stored.
   */
  lemma {:induction false} EveryInterleavingIsSound(cfg: Config, events: seq<Event>)
    ensures Sound(Run(cfg, events))
    decreases |events|
  {
    if events != [] {
      EveryInterleavingIsSound(cfg, events[..|events| - 1]);
      StepSound(cfg, Run(cfg, events[..|events| - 1]), events[|events| - 1]);
    }
  }

  /** No step changes or removes a stored row, and only an insert adds one: a lost race leaves the table as it is. */
  lemma StepKeepsRows(cfg: Config, w: World, e: Event)
    ensures forall v :: v in w.rows ==> v in Step(cfg, w, e).rows && Step(cfg, w, e).rows[v] == w.rows[v]
    ensures Step(cfg, w, e).lost > w.lost ==> Step(cfg, w, e).rows == w.rows
    ensures !e.InsertRow? ==> Step(cfg, w, e).rows == w.rows
  {
    hide ShouldRefresh, TriggerKind, TriggerDetail, LatestVersion, Latest, Rejection;
  }

  lemma RunTo(cfg: Config, events: seq<Event>, k: nat)
    requires k < |events|
    ensures Run(cfg, events[..k + 1]) == Step(cfg, Run(cfg, events[..k]), events[k])
  {
    assert events[..k + 1][..k] == events[..k];
  }

  /** In every interleaving a stored analysis stays as it was stored. */
  lemma {:induction false} RowsNeverChange(cfg: Config, events: seq<Event>, k: nat, n: nat)
    requires k <= n <= |events|
    ensures var was, now := Run(cfg, events[..k]).rows, Run(cfg, events[..n]).rows;
      forall v :: v in was ==> v in now && now[v] == was[v]
    decreases n - k
  {
    hide Run, Step;
    if k < n {
      RunTo(cfg, events, k);
      StepKeepsRows(cfg, Run(cfg, events[..k]), events[k]);
      RowsNeverChange(cfg, events, k + 1, n);
    }
  }

  /** A call that nothing interrupts has exactly the effect of `AnalyzeOnce`. */
  lemma UninterruptedCall(cfg: Config, w: World, f: Finding, answer: Answer, faults: Faults, now: Time)
    ensures var i := |w.calls|;
      var w1 := Step(cfg, Step(cfg, w, Begin(f)), ReadLatestRow(i, faults.latest, now));
      var w2 := Step(cfg, Step(cfg, w1, GetAnswer(i, answer)), ReadVersion(i, faults.version));
      var end := Step(cfg, w2, InsertRow(i, faults.insert, now));
      var effect := AnalyzeOnce(cfg, w.rows, f, answer, faults, now);
      && end.rows == effect.rows && end.log == w.log + effect.log
      && end.calls == w.calls + [Done(effect.reached, |effect.log|)]
  {
    hide ShouldRefresh, NewRow, LatestVersion, Latest;
    AnswerShape(answer);
    hide Rejection;
  }

  lemma AnswerShape(answer: Answer)
    ensures Rejection(answer).None? ==> answer.Ok?
  {
    hide ValidateAlertOutput, SanitizeReason;
  }

  // ---- calls that do not overlap ------------------------------------------------------------

  datatype Turn = Turn(f: Finding, answer: Answer, faults: Faults, now: Time)

  ghost function RunCalls(cfg: Config, turns: seq<Turn>): Versions {
    if turns == [] then map[] else
      var t := turns[|turns| - 1];
      AnalyzeOnce(cfg, RunCalls(cfg, turns[..|turns| - 1]), t.f, t.answer, t.faults, t.now).rows
  }

  /** The severity has no space, the market is not resolved, and the last row is at most an hour old. */
  ghost predicate Quiet(cfg: Config, rows: Versions, t: Turn) {
    && ' ' !in t.f.severity && ' ' !in t.f.lifecyclePrinted && !IsTerminal(t.f)
    && (Latest(rows).Some? ==> !LifecycleMoved(cfg, Latest(rows).value, t.f, t.now))
  }

  ghost predicate QuietRun(cfg: Config, turns: seq<Turn>) {
    forall i :: 0 <= i < |turns| ==> Quiet(cfg, RunCalls(cfg, turns[..i]), turns[i])
  }

  function RankOf(row: Row): nat { SeverityRank(ExtractPriorSeverity(row.triggerDetail)) }

  ghost predicate Climbing(rows: Versions) {
    && Contiguous(rows)
    && (forall v :: v in rows && v - 1 in rows ==> RankOf(rows[v - 1]) < RankOf(rows[v]))
  }

  lemma {:induction false} RankAtLeast(rows: Versions, v: nat)
    requires Climbing(rows) && v in rows
    ensures v - 1 <= RankOf(rows[v]) <= 4
    decreases v
  {
    if v - 1 in rows {
      RankAtLeast(rows, v - 1);
    }
  }

  lemma QuietCallClimbs(cfg: Config, rows: Versions, t: Turn)
    requires Climbing(rows) && Quiet(cfg, rows, t)
    ensures Climbing(AnalyzeOnce(cfg, rows, t.f, t.answer, t.faults, t.now).rows)
  {
    hide Rejection, ExtractPriorSeverity, TriggerDetail;
    var rows' := AnalyzeOnce(cfg, rows, t.f, t.answer, t.faults, t.now).rows;
    if rows' != rows {
      AcceptedIsValid(t.answer);
      ContiguousLatest(rows);
      var row := NewRow(Latest(rows), t.f, LatestVersion(rows) + 1, t.answer.text, t.now);
      InsertNext(rows, row);
      SeverityRoundTrip(t.f.severity, t.f.lifecyclePrinted);
      assert rows' == rows[row.version := row];
      assert RankOf(row) == SeverityRank(t.f.severity);
    }
  }

  /**
   * Between refreshes forced by time or resolution, each stored analysis is for a strictly
   * higher severity than the one before, so an alert collects at most five of them.
   */
  lemma {:induction false} SeverityClimbs(cfg: Config, turns: seq<Turn>)
    requires QuietRun(cfg, turns)
    ensures Climbing(RunCalls(cfg, turns)) && |RunCalls(cfg, turns)| <= 5
    decreases |turns|
  {
    hide AnalyzeOnce, Quiet, RankOf;
    if turns != [] {
      var before := turns[..|turns| - 1];
      forall i | 0 <= i < |before|
        ensures Quiet(cfg, RunCalls(cfg, before[..i]), before[i])
      {
        assert before[..i] == turns[..i];
      }
      SeverityClimbs(cfg, before);
      QuietCallClimbs(cfg, RunCalls(cfg, before), turns[|turns| - 1]);
    }
    var rows := RunCalls(cfg, turns);
    if |rows| > 0 {
      RankAtLeast(rows, |rows|);
    }
  }
}
