/**
 * Typed routing of Telegram messages (internal/infra/telegram/router.go, lines 52-298 and
 * 371-400), the text guard below it (internal/infra/telegram/guard.go, lines 140-266), and
 * what a send reports back to the alert queue
 * (internal/app/usecase/alertsender/worker.go, lines 61-73 and 344-357).
 */
module TelegramRouting {
  import opened Optional
  import opened TextBytes

  type Surface = string

  predicate IsSignalSurface(s: Surface) {
    s in {"flow_alert", "accumulation_alert", "cluster_alert", "ownership_alert", "news_intel_actionable", "outcome_followup"}
  }

  predicate IsAdminSurface(s: Surface) {
    s in {"signal_quality_report", "watchtower_stats", "strategy_scorecard", "operational_health", "budget_report",
          "suppression_report", "market_close_review"}
  }

  predicate IsBlockedSurface(s: Surface) {
    s in {"generic_market_intel", "daily_political_intel", "no_edge", "prediction_update", "prediction_state_transition",
          "prediction_blocked"}
  }

  datatype Destination = ToSignal | ToAdmin | ToBlocked | ToSuppressed

  datatype RouteDecision = RouteDecision(destination: Destination, chatId: string, enabled: bool, reason: string)

  datatype RouterConfig = RouterConfig(
    signalEnabled: bool, signalChatId: string, adminEnabled: bool, adminChatId: string, allowSameChat: bool,
    adminSignalQualityReports: bool, adminStats: bool, adminStrategyScorecard: bool, adminOperationalHealth: bool,
    adminBudgetReports: bool, adminSuppressionReports: bool)
  {
    /** Lines 190-198: whether Validate returns no error. */
    predicate Valid() {
      && !(adminEnabled && TrimSpace(adminChatId) == "")
      && !(adminChatId != "" && signalChatId != "" && adminChatId == signalChatId && !allowSameChat)
    }

    /** Lines 276-298. */
    predicate AdminSurfaceEnabled(s: Surface) {
      if s == "signal_quality_report" then adminSignalQualityReports
      else if s == "watchtower_stats" then adminStats
      else if s == "strategy_scorecard" then adminStrategyScorecard
      else if s == "operational_health" then adminOperationalHealth
      else if s == "budget_report" then adminBudgetReports
      else if s == "suppression_report" then adminSuppressionReports
      else if s == "market_close_review" then adminSignalQualityReports
      else false
    }

    /** Lines 223-274. */
    function Route(s: Surface): RouteDecision {
      if IsBlockedSurface(s) then RouteDecision(ToBlocked, "", false, "legacy_surface")
      else if IsSignalSurface(s) then
        if !signalEnabled then RouteDecision(ToSuppressed, "", false, "signal_disabled")
        else if TrimSpace(signalChatId) == "" then RouteDecision(ToSuppressed, "", false, "signal_chat_missing")
        else RouteDecision(ToSignal, signalChatId, true, "")
      else if IsAdminSurface(s) then
        if !adminEnabled then RouteDecision(ToSuppressed, "", false, "admin_disabled")
        else if TrimSpace(adminChatId) == "" then RouteDecision(ToSuppressed, "", false, "admin_chat_missing")
        else if !AdminSurfaceEnabled(s) then RouteDecision(ToSuppressed, "", false, "admin_surface_disabled")
        else RouteDecision(ToAdmin, adminChatId, true, "")
      else RouteDecision(ToBlocked, "", false, "unknown_surface")
    }
  }

  // ---- the text guard ------------------------------------------------------------------

  datatype GuardConfig = GuardConfig(
    statsEnabled: bool, updateEnabled: bool, transitionEnabled: bool, blockedEnabled: bool, signalChatId: string)

  const STATS := "Watchtower stats \U{E2}\U{80}\U{94} uptime"
  const UPDATE := "PREDICTION UPDATE"
  const BLOCKED_HEADER := "PREDICTION UPDATE</b> \U{C2}\U{B7} blocked"
  const BLOCKED_PLAIN := "PREDICTION UPDATE \U{C2}\U{B7} blocked"
  const CATALYST := "active catalyst blocks repricing"
  const BLOCKED_UNTIL := "\U{E2}\U{80}\U{A2} blocked until:"
  const STATE := "state: "
  const INTO := " \U{E2}\U{86}\U{92} "
  const INTO_ASCII := " -> "
  const TRANSITION := "state_transition:"
  const ADMIN_BOLD := "<b>Signal quality \U{C2}\U{B7} "

  const ADMIN_MARKERS: seq<string> := [
    ADMIN_BOLD, "Signal quality \U{C2}\U{B7} Daily ", "Signal quality \U{C2}\U{B7} Weekly ",
    "Signal quality \U{C2}\U{B7} Monthly ", "Signal quality \U{C2}\U{B7} Quarterly ", "Signal quality \U{C2}\U{B7} Yearly "]

  predicate ContainsAny(text: string, markers: seq<string>) {
    exists i :: 0 <= i < |markers| && Contains(text, markers[i])
  }

  predicate IsStats(text: string) { Contains(text, STATS) }

  predicate IsPredictionBlocked(text: string) {
    Contains(text, BLOCKED_HEADER) || Contains(text, BLOCKED_PLAIN) || Contains(text, CATALYST) || Contains(text, BLOCKED_UNTIL)
  }

  predicate IsStateTransition(text: string) {
    || (Contains(text, STATE) && (Contains(text, INTO) || Contains(text, INTO_ASCII)))
    || Contains(text, TRANSITION)
  }

  predicate IsPredictionUpdate(text: string) { Contains(text, UPDATE) }

  /** Lines 199-235: the surface a text is suppressed as, if any; the first rule that fires wins. */
  function Classify(cfg: GuardConfig, text: string): Option<Surface> {
    if IsStats(text) && !cfg.statsEnabled then Some("watchtower_stats")
    else if IsPredictionBlocked(text) && !cfg.blockedEnabled then Some("prediction_blocked")
    else if IsStateTransition(text) && !cfg.transitionEnabled then Some("prediction_state_transition")
    else if IsPredictionUpdate(text) && !cfg.updateEnabled then Some("prediction_update")
    else None
  }

  /** Lines 153-158. */
  function ClassifyForChat(cfg: GuardConfig, chatId: string, text: string): Option<Surface> {
    if cfg.signalChatId != "" && chatId == cfg.signalChatId && ContainsAny(text, ADMIN_MARKERS)
      then Some("signal_quality_report") else Classify(cfg, text)
  }

  // ---- sending --------------------------------------------------------------------------

  datatype Delivery = Delivery(chatId: string, text: string)

  /** What the transport answers: a message id, or an error. */
  datatype Answer = Id(messageId: int) | Failure(error: string)

  class Transport {
    var delivered: seq<Delivery>

    constructor ()
      ensures delivered == []
    {
      delivered := [];
    }

    method SendHtml(chatId: string, text: string, answer: Answer) returns (r: Answer)
      modifies this
      ensures r == answer
      ensures delivered == if answer.Id? then old(delivered) + [Delivery(chatId, text)] else old(delivered)
    {
      if answer.Id? {
        delivered := delivered + [Delivery(chatId, text)];
      }
      return answer;
    }
  }

  /** What a send does: the chat it is handed to, if it gets past routing and guard. */
  function Handed(cfg: RouterConfig, guard: GuardConfig, s: Surface, text: string): Option<string> {
    var dec := cfg.Route(s);
    if dec.enabled && ClassifyForChat(guard, dec.chatId, text).None? then Some(dec.chatId) else None
  }

  class Guard {
    const inner: Transport
    const cfg: GuardConfig

    constructor (inner: Transport, cfg: GuardConfig)
      ensures this.inner == inner && this.cfg == cfg
    {
      this.inner := inner;
      this.cfg := cfg;
    }

    /** guard.go, lines 140-148. */
    method SendHtml(chatId: string, text: string, answer: Answer) returns (r: Answer)
      modifies inner
      ensures ClassifyForChat(cfg, chatId, text).Some? ==> r == Id(0) && inner.delivered == old(inner.delivered)
      ensures ClassifyForChat(cfg, chatId, text).None? ==> r == answer
      ensures ClassifyForChat(cfg, chatId, text).None? ==>
        inner.delivered == if answer.Id? then old(inner.delivered) + [Delivery(chatId, text)] else old(inner.delivered)
    {
      if ClassifyForChat(cfg, chatId, text).Some? {
        return Id(0);
      }
      r := inner.SendHtml(chatId, text, answer);
    }
  }

  class Router {
    const cfg: RouterConfig
    const inner: Guard

    constructor (cfg: RouterConfig, inner: Guard)
      ensures this.cfg == cfg && this.inner == inner
    {
      this.cfg := cfg;
      this.inner := inner;
    }

    /** router.go, lines 371-400. */
    method Send(s: Surface, html: string, answer: Answer) returns (r: Answer)
      modifies inner.inner
      ensures match Handed(cfg, inner.cfg, s, html)
        case None => r == Id(0) && inner.inner.delivered == old(inner.inner.delivered)
        case Some(chat) =>
          && r == answer
          && inner.inner.delivered ==
               if answer.Id? then old(inner.inner.delivered) + [Delivery(chat, html)] else old(inner.inner.delivered)
    {
      var dec := cfg.Route(s);
      match dec.destination {
        case ToBlocked => return Id(0);
        case ToSuppressed => return Id(0);
        case _ =>
      }
      if !dec.enabled || dec.chatId == "" {
        return Id(0);
      }
      r := inner.SendHtml(dec.chatId, html, answer);
    }
  }

  // ---- who reaches which chat ---------------------------------------------------------------

  lemma SurfacesAreDisjoint(s: Surface)
    ensures !(IsSignalSurface(s) && IsAdminSurface(s))
    ensures !(IsBlockedSurface(s) && (IsSignalSurface(s) || IsAdminSurface(s)))
  {
  }

  /** Exactly when a message is handed on to the signal chat, or to the admin chat. */
  lemma RouteMeaning(cfg: RouterConfig, s: Surface)
    ensures cfg.Route(s).enabled <==>
      || (IsSignalSurface(s) && cfg.signalEnabled && TrimSpace(cfg.signalChatId) != "")
      || (IsAdminSurface(s) && cfg.adminEnabled && TrimSpace(cfg.adminChatId) != "" && cfg.AdminSurfaceEnabled(s))
    ensures cfg.Route(s).enabled ==>
      cfg.Route(s).chatId == (if IsSignalSurface(s) then cfg.signalChatId else cfg.adminChatId)
    ensures cfg.Route(s).enabled ==> cfg.Route(s).chatId != ""
  {
    hide IsSignalSurface, IsAdminSurface, IsBlockedSurface;
    SurfacesAreDisjoint(s);
    assert TrimSpace("") == "";
  }

  lemma SurfaceNames(s: Surface)
    ensures IsSignalSurface(s) <==>
      || s == "flow_alert" || s == "accumulation_alert" || s == "cluster_alert"
      || s == "ownership_alert" || s == "news_intel_actionable" || s == "outcome_followup"
    ensures IsBlockedSurface(s) <==>
      || s == "generic_market_intel" || s == "daily_political_intel" || s == "no_edge"
      || s == "prediction_update" || s == "prediction_state_transition" || s == "prediction_blocked"
  {
  }

  lemma ReportNames(cfg: RouterConfig, s: Surface)
    ensures IsAdminSurface(s) && cfg.AdminSurfaceEnabled(s) <==>
      || ((s == "signal_quality_report" || s == "market_close_review") && cfg.adminSignalQualityReports)
      || (s == "watchtower_stats" && cfg.adminStats)
      || (s == "strategy_scorecard" && cfg.adminStrategyScorecard)
      || (s == "operational_health" && cfg.adminOperationalHealth)
      || (s == "budget_report" && cfg.adminBudgetReports)
      || (s == "suppression_report" && cfg.adminSuppressionReports)
  {
  }

  /** The routing table, surface by surface and toggle by toggle. */
  lemma RouteBySurface(cfg: RouterConfig, s: Surface)
    ensures var dec, signal := cfg.Route(s), TrimSpace(cfg.signalChatId) != "";
      var toAdmin := cfg.adminEnabled && TrimSpace(cfg.adminChatId) != "";
      var alert := s == "flow_alert" || s == "accumulation_alert" || s == "cluster_alert" || s == "ownership_alert"
        || s == "news_intel_actionable" || s == "outcome_followup";
      var report :=
        || ((s == "signal_quality_report" || s == "market_close_review") && cfg.adminSignalQualityReports)
        || (s == "watchtower_stats" && cfg.adminStats)
        || (s == "strategy_scorecard" && cfg.adminStrategyScorecard)
        || (s == "operational_health" && cfg.adminOperationalHealth)
        || (s == "budget_report" && cfg.adminBudgetReports)
        || (s == "suppression_report" && cfg.adminSuppressionReports);
      var legacy := s == "generic_market_intel" || s == "daily_political_intel" || s == "no_edge"
        || s == "prediction_update" || s == "prediction_state_transition" || s == "prediction_blocked";
      && (dec == RouteDecision(ToSignal, cfg.signalChatId, true, "") <==> alert && cfg.signalEnabled && signal)
      && (dec == RouteDecision(ToAdmin, cfg.adminChatId, true, "") <==> report && toAdmin)
      && (dec.enabled <==> dec.destination == ToSignal || dec.destination == ToAdmin)
      && (dec == RouteDecision(ToBlocked, "", false, "legacy_surface") <==> legacy)
      && (dec == RouteDecision(ToSuppressed, "", false, "signal_disabled") <==> alert && !cfg.signalEnabled)
      && (dec == RouteDecision(ToSuppressed, "", false, "signal_chat_missing") <==> alert && cfg.signalEnabled && !signal)
      && (dec.destination == ToBlocked && !legacy <==> !alert && !legacy && !IsAdminSurface(s))
  {
    SurfaceNames(s);
    ReportNames(cfg, s);
    SurfacesAreDisjoint(s);
    hide TrimSpace, IsSignalSurface, IsAdminSurface, IsBlockedSurface, RouterConfig.AdminSurfaceEnabled;
    assert "legacy_surface"[0] != "signal_disabled"[0] && "signal_disabled"[7] != "signal_chat_missing"[7];
    assert "admin_disabled"[0] == 'a' && "admin_chat_missing"[0] == 'a' && "admin_surface_disabled"[0] == 'a';
  }

  /** What the guard takes a text for, on the phrases themselves; the first rule that fires names it. */
  lemma GuardBySurface(cfg: GuardConfig, chatId: string, text: string)
    ensures var report := cfg.signalChatId != "" && chatId == cfg.signalChatId
        && (Contains(text, "<b>Signal quality \U{C2}\U{B7} ")
          || Contains(text, "Signal quality \U{C2}\U{B7} Daily ") || Contains(text, "Signal quality \U{C2}\U{B7} Weekly ")
          || Contains(text, "Signal quality \U{C2}\U{B7} Monthly ") || Contains(text, "Signal quality \U{C2}\U{B7} Quarterly ")
          || Contains(text, "Signal quality \U{C2}\U{B7} Yearly "));
      var stats := !cfg.statsEnabled && Contains(text, "Watchtower stats \U{E2}\U{80}\U{94} uptime");
      var blocked := !cfg.blockedEnabled
        && (Contains(text, "PREDICTION UPDATE</b> \U{C2}\U{B7} blocked") || Contains(text, "PREDICTION UPDATE \U{C2}\U{B7} blocked")
          || Contains(text, "active catalyst blocks repricing") || Contains(text, "\U{E2}\U{80}\U{A2} blocked until:"));
      var transition := !cfg.transitionEnabled
        && (Contains(text, "state_transition:")
          || (Contains(text, "state: ") && (Contains(text, " \U{E2}\U{86}\U{92} ") || Contains(text, " -> "))));
      var update := !cfg.updateEnabled && Contains(text, "PREDICTION UPDATE");
      var surface := ClassifyForChat(cfg, chatId, text);
      && (surface == None <==> !report && !stats && !blocked && !transition && !update)
      && (surface == Some("signal_quality_report") <==> report)
      && (surface == Some("watchtower_stats") <==> stats && !report)
      && (surface == Some("prediction_blocked") <==> blocked && !report && !stats)
      && (surface == Some("prediction_state_transition") <==> transition && !report && !stats && !blocked)
      && (surface == Some("prediction_update") <==> update && !report && !stats && !blocked && !transition)
  {
    hide Contains;
    var m := ADMIN_MARKERS;
    assert m == [m[0], m[1], m[2], m[3], m[4], m[5]];
    AnyOfSix(text, m);
  }

  lemma AnyOfSix(text: string, m: seq<string>)
    requires |m| == 6
    ensures ContainsAny(text, m) <==>
      || Contains(text, m[0]) || Contains(text, m[1]) || Contains(text, m[2])
      || Contains(text, m[3]) || Contains(text, m[4]) || Contains(text, m[5])
  {
  }

  /** A configuration is refused without an admin chat for enabled reports, and for one chat used as both unless that is allowed. */
  lemma RefusedConfigs(cfg: RouterConfig)
    ensures !cfg.Valid() <==>
      || (cfg.adminEnabled && TrimSpace(cfg.adminChatId) == "")
      || (!cfg.allowSameChat && cfg.adminChatId == cfg.signalChatId && cfg.adminChatId != "")
    ensures cfg.Valid() && cfg.adminEnabled ==>
      forall s :: IsAdminSurface(s) && cfg.AdminSurfaceEnabled(s) ==> cfg.Route(s) == RouteDecision(ToAdmin, cfg.adminChatId, true, "")
  {
    hide TrimSpace;
    forall s | IsAdminSurface(s)
      ensures !IsBlockedSurface(s) && !IsSignalSurface(s)
    {
      SurfacesAreDisjoint(s);
    }
    hide IsAdminSurface, IsSignalSurface, IsBlockedSurface;
  }

  /** A message and the transport's answer to it. */
  datatype Sending = Sending(surface: Surface, text: string, answer: Answer)

  /** A delivery, with the surface it was sent under. */
  datatype Reached = Reached(surface: Surface, chatId: string)

  /** What the chats receive over a trace of sends. */
  function Trace(cfg: RouterConfig, guard: GuardConfig, sends: seq<Sending>): seq<Reached> {
    if sends == [] then [] else
      var last := sends[|sends| - 1];
      var handed := Handed(cfg, guard, last.surface, last.text);
      Trace(cfg, guard, sends[..|sends| - 1]) +
        if handed.Some? && last.answer.Id? then [Reached(last.surface, handed.value)] else []
  }

  /** The two chats are kept apart: each receives its own surfaces only. */
  predicate ChatsApart(cfg: RouterConfig, reached: seq<Reached>) {
    forall r :: r in reached ==>
      && (IsSignalSurface(r.surface) || IsAdminSurface(r.surface))
      && (r.chatId == cfg.signalChatId ==> IsSignalSurface(r.surface))
      && (r.chatId == cfg.adminChatId ==> IsAdminSurface(r.surface) && cfg.AdminSurfaceEnabled(r.surface))
  }

  /** With a valid configuration and two chats, on every trace each chat receives its own surfaces only. */
  lemma {:induction false} EveryTraceKeepsChatsApart(cfg: RouterConfig, guard: GuardConfig, sends: seq<Sending>)
    requires cfg.Valid() && !cfg.allowSameChat
    ensures ChatsApart(cfg, Trace(cfg, guard, sends))
    decreases |sends|
  {
    hide IsSignalSurface, IsAdminSurface, IsBlockedSurface, ClassifyForChat, TrimSpace;
    if sends != [] {
      var last := sends[|sends| - 1];
      EveryTraceKeepsChatsApart(cfg, guard, sends[..|sends| - 1]);
      SurfacesAreDisjoint(last.surface);
      assert cfg.Route(last.surface).enabled ==> cfg.Route(last.surface).chatId != "" by { RouteMeaning(cfg, last.surface); }
    }
  }

  /** Where the same chat is allowed and used for both, one enabled admin report mixes them. */
  lemma SharedChatMixes(cfg: RouterConfig, guard: GuardConfig, s: Surface, text: string, id: int)
    requires IsAdminSurface(s) && cfg.Route(s).enabled && cfg.adminChatId == cfg.signalChatId
    requires ClassifyForChat(guard, cfg.adminChatId, text).None?
    ensures !ChatsApart(cfg, Trace(cfg, guard, [Sending(s, text, Id(id))]))
  {
    hide IsAdminSurface, IsSignalSurface, IsBlockedSurface, ClassifyForChat;
    SurfacesAreDisjoint(s);
    var one := [Sending(s, text, Id(id))];
    assert one[..0] == [];
    assert Trace(cfg, guard, []) == [];
    assert Trace(cfg, guard, one) == [] + [Reached(s, cfg.adminChatId)];
    assert Reached(s, cfg.adminChatId) in Trace(cfg, guard, one);
  }

  /** Whatever surface it is sent under, a text with an admin marker never reaches the guarded signal chat. */
  lemma AdminTextNeverOnSignalChat(cfg: RouterConfig, guard: GuardConfig, s: Surface, text: string)
    requires guard.signalChatId == cfg.signalChatId && ContainsAny(text, ADMIN_MARKERS)
    ensures Handed(cfg, guard, s, text) != Some(cfg.signalChatId)
  {
    hide ContainsAny, Classify, TrimSpace, IsSignalSurface, IsAdminSurface, IsBlockedSurface;
    RouteMeaning(cfg, s);
  }

  // ---- what the alert queue is told -----------------------------------------------------------

  /** worker.go, lines 61-73. */
  function SurfaceFromKind(kind: string): Surface {
    if kind == "trade_anomaly" then "flow_alert"
    else if kind == "accumulation" then "accumulation_alert"
    else if kind == "category_watch" then "cluster_alert"
    else if kind == "ownership_concentration" then "ownership_alert"
    else "flow_alert"
  }

  lemma SurfaceOfKind(kind: string)
    ensures var s := SurfaceFromKind(kind);
      && (s == "accumulation_alert" <==> kind == "accumulation")
      && (s == "cluster_alert" <==> kind == "category_watch")
      && (s == "ownership_alert" <==> kind == "ownership_concentration")
      && (s == "flow_alert" <==> kind != "accumulation" && kind != "category_watch" && kind != "ownership_concentration")
  {
  }

  /** The answer the sender acts on, and where the message went. */
  function Report(cfg: RouterConfig, guard: GuardConfig, s: Surface, text: string, answer: Answer): Answer {
    if Handed(cfg, guard, s, text).Some? then answer else Id(0)
  }

  /**
   * An alert of any kind is a signal surface, so a row is marked sent exactly when the
   * transport accepted the message for the signal chat, or when routing or guard dropped it;
   * a dropped alert is marked sent with message id 0.
   */
  lemma MarkedSentMeans(cfg: RouterConfig, guard: GuardConfig, kind: string, text: string, answer: Answer)
    ensures var s := SurfaceFromKind(kind);
      var dropped := !cfg.signalEnabled || TrimSpace(cfg.signalChatId) == "" || ClassifyForChat(guard, cfg.signalChatId, text).Some?;
      && (Report(cfg, guard, s, text, answer).Id? <==> dropped || answer.Id?)
      && (dropped ==> Report(cfg, guard, s, text, answer) == Id(0))
      && (Handed(cfg, guard, s, text) == if dropped then None else Some(cfg.signalChatId))
  {
    hide ClassifyForChat, TrimSpace;
    var s := SurfaceFromKind(kind);
    assert IsSignalSurface(s) && !IsBlockedSurface(s) && !IsAdminSurface(s) by {
      SurfacesAreDisjoint(s);
    }
    hide IsAdminSurface, IsSignalSurface, IsBlockedSurface;
  }
}
