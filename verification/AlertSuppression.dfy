/**
 * The text guard (internal/infra/telegram/guard.go, lines 140-266) over rendered trade alerts:
 * exactly which findings have their alert dropped.
 */
module AlertSuppression {
  import opened Optional
  import opened TextBytes
  import opened TelegramHtml
  import opened GuardPhrases
  import opened TradeMessage
  import opened TradeMessageFields
  import R = TelegramRouting

  // ---- every external text is in the message ---------------------------------------------------

  lemma ContainsItself(s: string)
    ensures Contains(s, s)
  {
    assert MatchesAt(s, s, 0);
  }

  lemma {:induction false} SpansContain(last: string, spans: seq<Span>, at: Place)
    requires at in SpanPlaces(last, spans)
    ensures Contains(SpansHtml(spans), Escape(at.text))
    decreases |spans|
  {
    hide Contains, Escape, LeadOf;
    var first, rest := SpanHtml(spans[0]), SpansHtml(spans[1..]);
    if spans[0].Field? && at == Place(LeadOf(last), spans[0].text) {
      ContainsItself(first);
      ContainsWithin("", first, rest, first);
      assert "" + first + rest == first + rest;
    } else {
      SpansContain(match spans[0] case Lit(c) => c case Less(r) => r case Raw(t) => t case Field(_) => "", spans[1..], at);
      ContainsWithin(first, rest, "", Escape(at.text));
      assert first + rest + "" == first + rest;
    }
  }

  lemma NodeContains(n: Node, at: Place)
    requires at in NodePlaces(n)
    ensures Contains(NodeHtml(n), Escape(at.text))
  {
    hide Contains, Escape, SpanPlaces, SpansHtml;
    var text := Escape(at.text);
    SpansContain(if n.Bold? then "<b>" else if n.Code? then "<code>" else "", n.spans, at);
    var inner := SpansHtml(n.spans);
    ContainsWithin("<b>", inner, "</b>", text);
    ContainsWithin("<code>", inner, "</code>", text);
    assert "<b>" + inner + "</b>" == Wrapped("b", "/b", inner);
    assert "<code>" + inner + "</code>" == Wrapped("code", "/code", inner);
  }

  /** Every external text of a document is in its HTML, escaped. */
  lemma {:induction false} HtmlContains(nodes: seq<Node>, at: Place)
    requires at in Places(nodes)
    ensures Contains(Html(nodes), Escape(at.text))
    decreases |nodes|
  {
    hide Contains, Escape, NodePlaces, NodeHtml;
    var first, rest := NodeHtml(nodes[0]), Html(nodes[1..]);
    if at in NodePlaces(nodes[0]) {
      NodeContains(nodes[0], at);
      ContainsWithin("", first, rest, Escape(at.text));
      assert "" + first + rest == first + rest;
    } else {
      HtmlContains(nodes[1..], at);
      ContainsWithin(first, rest, "", Escape(at.text));
      assert first + rest + "" == first + rest;
    }
  }

  // ---- what a finding's texts say -----------------------------------------------------------------

  /** Some external text of the alert, or some reachable link, holds the phrase. */
  predicate Mentions(f: Finding, p: Printer, m: string) {
    || (exists i :: 0 <= i < |AlertPlaces(f, p)| && Contains(AlertPlaces(f, p)[i].text, m))
    || (exists i :: 0 <= i < |Reachable(Entries(f, p))| && Contains(Reachable(Entries(f, p))[i].href, m))
  }

  /** Some external text goes on where the wording before it begins the phrase. */
  predicate Completed(f: Finding, p: Printer, m: string) {
    exists i :: 0 <= i < |AlertPlaces(f, p)| && Completes(AlertPlaces(f, p)[i], m)
  }

  /** A phrase that escaping leaves alone, and that no character reference can be part of. */
  predicate Verbatim(m: string) { |m| >= 5 && forall i :: 0 <= i < |m| ==> VerbatimByte(m[i]) }

  predicate VerbatimByte(c: char) { c != '&' && c != '\'' && c != '<' && c != '>' && c != '"' && c != ';' }

  lemma VerbatimIsUnescaped(m: string)
    requires Verbatim(m)
    ensures Unescaped(m) && ';' !in m && |m| >= 5
  {
    assert forall c :: c in m ==> VerbatimByte(c);
  }

  /** The phrases of Classify that hold no markup. */
  predicate Classified(m: string) {
    || m == R.STATS || m == R.UPDATE || m == R.BLOCKED_PLAIN || m == R.CATALYST || m == R.BLOCKED_UNTIL || m == R.STATE
    || m == R.INTO || m == R.TRANSITION
  }

  lemma ShortIsVerbatim(m: string)
    requires m == R.UPDATE || m == R.STATE || m == R.INTO || m == R.TRANSITION
    ensures Verbatim(m)
  {
  }

  lemma BlockedIsVerbatim(m: string)
    requires m == R.BLOCKED_PLAIN || m == R.BLOCKED_UNTIL
    ensures Verbatim(m)
  {
  }

  lemma LongIsVerbatim(m: string)
    requires m == R.STATS || m == R.CATALYST
    ensures Verbatim(m)
  {
  }

  lemma ClassifiedIsVerbatim(m: string)
    requires Classified(m)
    ensures Verbatim(m) && Phrase(m)
  {
    hide Verbatim;
    if m == R.STATS || m == R.CATALYST {
      LongIsVerbatim(m);
    } else if m == R.BLOCKED_PLAIN || m == R.BLOCKED_UNTIL {
      BlockedIsVerbatim(m);
    } else {
      ShortIsVerbatim(m);
    }
  }

  lemma DailyIsVerbatim(m: string)
    requires m == R.ADMIN_MARKERS[1] || m == R.ADMIN_MARKERS[2]
    ensures Verbatim(m)
  {
  }

  lemma MonthlyIsVerbatim(m: string)
    requires m == R.ADMIN_MARKERS[3]
    ensures Verbatim(m)
  {
  }

  lemma YearlyIsVerbatim(m: string)
    requires m == R.ADMIN_MARKERS[4] || m == R.ADMIN_MARKERS[5]
    ensures Verbatim(m)
  {
  }

  lemma AdminIsVerbatim(k: nat)
    requires 0 < k < |R.ADMIN_MARKERS|
    ensures Verbatim(R.ADMIN_MARKERS[k]) && Phrase(R.ADMIN_MARKERS[k])
  {
    hide Verbatim;
    var m := R.ADMIN_MARKERS[k];
    if k < 3 {
      DailyIsVerbatim(m);
    } else if k == 3 {
      MonthlyIsVerbatim(m);
    } else {
      YearlyIsVerbatim(m);
    }
  }

  /** An alert holds a phrase exactly if its texts say so. */
  lemma AlertHolds(f: Finding, p: Printer, m: string)
    requires IsSeverity(f.severity) && Verbatim(m) && Phrase(m)
    ensures Contains(Html(Message(f, p)), m) <==> Mentions(f, p, m) || Completed(f, p, m)
  {
    hide Contains, Escape, Html, Message, AlertPlaces, Reachable, Entries, Phrase, Unescaped, SpacedNodes, Completes, Places, Anchors;
    VerbatimIsUnescaped(m);
    MessageShows(f, p);
    MessageSpaced(f, p);
    DocumentHit(Message(f, p), m);
    forall i | 0 <= i < |AlertPlaces(f, p)|
      ensures Contains(Escape(AlertPlaces(f, p)[i].text), m) <==> Contains(AlertPlaces(f, p)[i].text, m)
      ensures Hit(AlertPlaces(f, p)[i], m) <==> Contains(AlertPlaces(f, p)[i].text, m) || Completes(AlertPlaces(f, p)[i], m)
    {
      EscapeContains(AlertPlaces(f, p)[i].text, m);
    }
    forall i | 0 <= i < |Reachable(Entries(f, p))|
      ensures Contains(Escape(Reachable(Entries(f, p))[i].href), m) <==> Contains(Reachable(Entries(f, p))[i].href, m)
    {
      EscapeContains(Reachable(Entries(f, p))[i].href, m);
    }
  }

  /** A phrase with markup only where a text completes it: escaping leaves none in the texts. */
  lemma AlertHoldsMarkup(f: Finding, p: Printer, m: string)
    requires IsSeverity(f.severity) && Phrase(m) && ('<' in m || '>' in m)
    ensures Contains(Html(Message(f, p)), m) <==> Completed(f, p, m)
  {
    hide Contains, Escape, Html, Message, AlertPlaces, Reachable, Entries, Phrase, SpacedNodes, Completes, Places, Anchors;
    MessageShows(f, p);
    MessageSpaced(f, p);
    DocumentHit(Message(f, p), m);
    forall i | 0 <= i < |AlertPlaces(f, p)|
      ensures Hit(AlertPlaces(f, p)[i], m) <==> Completes(AlertPlaces(f, p)[i], m)
    {
      EscapeHidesMarkup(AlertPlaces(f, p)[i].text, m);
    }
    forall i | 0 <= i < |Reachable(Entries(f, p))|
      ensures !Contains(Escape(Reachable(Entries(f, p))[i].href), m)
    {
      EscapeHidesMarkup(Reachable(Entries(f, p))[i].href, m);
    }
  }

  lemma ContainsTransitive(s: string, t: string, sub: string)
    requires Contains(s, t) && Contains(t, sub)
    ensures Contains(s, sub)
  {
    var i :| 0 <= i <= |s| && MatchesAt(s, t, i);
    assert s == s[..i] + t + s[i + |t|..];
    ContainsWithin(s[..i], t, s[i + |t|..], sub);
  }

  lemma HeaderParts()
    ensures R.BLOCKED_HEADER == R.UPDATE + HEADER_TAIL
  {
  }

  lemma MarkupPhrases()
    ensures Phrase(HEADER_TAIL) && Phrase(R.INTO_ASCII) && Phrase(R.ADMIN_BOLD)
    ensures HEADER_TAIL[0] == '<' && R.INTO_ASCII[2] == '>' && R.ADMIN_BOLD[0] == '<'
    ensures HEADER_TAIL != R.ADMIN_BOLD
  {
    assert HEADER_TAIL[1] != R.ADMIN_BOLD[1];
  }

  lemma CompletedPhrases(f: Finding, p: Printer, m: string)
    requires m != R.BLOCKED_UNTIL && m != R.ADMIN_BOLD && m != R.INTO
    ensures !Completed(f, p, m)
  {
  }

  lemma OtherPhrases()
    ensures HEADER_TAIL != R.BLOCKED_UNTIL && HEADER_TAIL != R.INTO
    ensures R.INTO_ASCII != R.BLOCKED_UNTIL && R.INTO_ASCII != R.INTO && R.INTO_ASCII != R.ADMIN_BOLD
  {
    assert HEADER_TAIL[0] != R.BLOCKED_UNTIL[0] && HEADER_TAIL[0] != R.INTO[0];
    assert R.INTO_ASCII[0] != R.BLOCKED_UNTIL[0] && R.INTO_ASCII[1] != R.INTO[1] && R.INTO_ASCII[0] != R.ADMIN_BOLD[0];
  }

  /** No alert holds the header of a blocked prediction, bold tag included, or the ASCII arrow. */
  lemma NeverInAlerts(f: Finding, p: Printer)
    requires IsSeverity(f.severity)
    ensures !Contains(Html(Message(f, p)), R.BLOCKED_HEADER) && !Contains(Html(Message(f, p)), R.INTO_ASCII)
  {
    hide Contains, Html, Message, Phrase, IsSeverity;
    MarkupPhrases();
    OtherPhrases();
    CompletedPhrases(f, p, HEADER_TAIL);
    CompletedPhrases(f, p, R.INTO_ASCII);
    assert HEADER_TAIL[0] in HEADER_TAIL && R.INTO_ASCII[2] in R.INTO_ASCII;
    AlertHoldsMarkup(f, p, HEADER_TAIL);
    AlertHoldsMarkup(f, p, R.INTO_ASCII);
    if Contains(Html(Message(f, p)), R.BLOCKED_HEADER) {
      HeaderParts();
      ContainsItself(HEADER_TAIL);
      ContainsWithin(R.UPDATE, HEADER_TAIL, "", HEADER_TAIL);
      assert R.UPDATE + HEADER_TAIL + "" == R.UPDATE + HEADER_TAIL;
      ContainsTransitive(Html(Message(f, p)), R.BLOCKED_HEADER, HEADER_TAIL);
    }
  }

  // ---- exactly which alerts are dropped ----------------------------------------------------------------

  /** A text names a periodic report, or a bold one opens with the report's title. */
  predicate LooksAdmin(f: Finding, p: Printer) {
    (exists k :: 0 < k < |R.ADMIN_MARKERS| && Mentions(f, p, R.ADMIN_MARKERS[k])) || Completed(f, p, R.ADMIN_BOLD)
  }

  /** A text says so, or the one behind a bullet opens with the rest of the line. */
  predicate LooksBlocked(f: Finding, p: Printer) {
    || Mentions(f, p, R.BLOCKED_PLAIN) || Mentions(f, p, R.CATALYST)
    || Mentions(f, p, R.BLOCKED_UNTIL) || Completed(f, p, R.BLOCKED_UNTIL)
  }

  /** Some text names a state, and some text, not necessarily the same, holds the arrow or opens with it behind a blank. */
  predicate LooksLikeTransition(f: Finding, p: Printer) {
    || (Mentions(f, p, R.STATE) && (Mentions(f, p, R.INTO) || Completed(f, p, R.INTO)))
    || Mentions(f, p, R.TRANSITION)
  }

  /** The guard's rules, read on the finding. */
  predicate Dropped(f: Finding, p: Printer, guard: R.GuardConfig, chat: string) {
    || (guard.signalChatId != "" && chat == guard.signalChatId && LooksAdmin(f, p))
    || (Mentions(f, p, R.STATS) && !guard.statsEnabled)
    || (LooksBlocked(f, p) && !guard.blockedEnabled)
    || (LooksLikeTransition(f, p) && !guard.transitionEnabled)
    || (Mentions(f, p, R.UPDATE) && !guard.updateEnabled)
  }

  lemma AdminSeen(f: Finding, p: Printer)
    requires IsSeverity(f.severity)
    ensures R.ContainsAny(Html(Message(f, p)), R.ADMIN_MARKERS) <==> LooksAdmin(f, p)
  {
    hide Contains, Html, Message, Mentions, Completed, Phrase, Verbatim, IsSeverity;
    var text := Html(Message(f, p));
    MarkupPhrases();
    assert R.ADMIN_BOLD[0] in R.ADMIN_BOLD;
    AlertHoldsMarkup(f, p, R.ADMIN_BOLD);
    assert R.ADMIN_MARKERS[0] == R.ADMIN_BOLD;
    forall k | 0 < k < |R.ADMIN_MARKERS|
      ensures Contains(text, R.ADMIN_MARKERS[k]) <==> Mentions(f, p, R.ADMIN_MARKERS[k])
    {
      AdminIsVerbatim(k);
      AlertHolds(f, p, R.ADMIN_MARKERS[k]);
      AdminNotCompleted(f, p, k);
    }
  }

  lemma AdminNotCompleted(f: Finding, p: Printer, k: nat)
    requires 0 < k < |R.ADMIN_MARKERS|
    ensures !Completed(f, p, R.ADMIN_MARKERS[k])
  {
    var m := R.ADMIN_MARKERS[k];
    assert m[0] == 'S';
    assert R.BLOCKED_UNTIL[0] != 'S' && R.ADMIN_BOLD[0] != 'S' && R.INTO[0] != 'S';
    CompletedPhrases(f, p, m);
  }

  lemma SimplePhrases()
    ensures R.STATS[0] == 'W' && R.UPDATE[0] == 'P' && R.BLOCKED_PLAIN[0] == 'P' && R.CATALYST[0] == 'a'
    ensures R.STATE[0] == 's' && R.TRANSITION[0] == 's'
    ensures R.BLOCKED_UNTIL[0] == '\U{E2}' && R.ADMIN_BOLD[0] == '<' && R.INTO[0] == ' '
  {
  }

  lemma ClassifiedSeen(f: Finding, p: Printer, m: string)
    requires IsSeverity(f.severity) && Classified(m)
    ensures Contains(Html(Message(f, p)), m) <==> Mentions(f, p, m) || ((m == R.BLOCKED_UNTIL || m == R.INTO) && Completed(f, p, m))
  {
    hide Contains, Html, Message, Mentions, Completed, Phrase, Verbatim, IsSeverity;
    ClassifiedIsVerbatim(m);
    AlertHolds(f, p, m);
    SimplePhrases();
    if m != R.BLOCKED_UNTIL && m != R.INTO {
      CompletedPhrases(f, p, m);
    }
  }

  /**
   * For every finding of an enumerated severity, whatever the printers and the configuration:
   * the guard suppresses its alert exactly if one of the conditions on its external texts
   * holds. The renderer's own wording plays no part.
   */
  lemma GuardDropsAlert(f: Finding, p: Printer, guard: R.GuardConfig, chat: string)
    requires IsSeverity(f.severity)
    ensures R.ClassifyForChat(guard, chat, Html(Message(f, p))).Some? <==> Dropped(f, p, guard, chat)
  {
    hide Contains, Html, Message, Mentions, Completed, IsSeverity, LooksAdmin, R.ContainsAny;
    AdminSeen(f, p);
    NeverInAlerts(f, p);
    ClassifiedSeen(f, p, R.STATS);
    ClassifiedSeen(f, p, R.UPDATE);
    ClassifiedSeen(f, p, R.BLOCKED_PLAIN);
    ClassifiedSeen(f, p, R.CATALYST);
    ClassifiedSeen(f, p, R.BLOCKED_UNTIL);
    ClassifiedSeen(f, p, R.STATE);
    ClassifiedSeen(f, p, R.INTO);
    ClassifiedSeen(f, p, R.TRANSITION);
  }

  /** So an alert reaches the signal chat, or is told success with id 0, by its texts and the configuration alone. */
  lemma AlertReachesChat(f: Finding, p: Printer, router: R.RouterConfig, guard: R.GuardConfig, answer: R.Answer)
    requires IsSeverity(f.severity)
    ensures var text, s, chat := Html(Message(f, p)), R.SurfaceFromKind(f.kind), router.signalChatId;
      var lost := !router.signalEnabled || TrimSpace(chat) == "" || Dropped(f, p, guard, chat);
      && R.Handed(router, guard, s, text) == (if lost then None else Some(chat))
      && R.Report(router, guard, s, text, answer) == (if lost then R.Id(0) else answer)
  {
    hide Html, Message, IsSeverity, Dropped, TrimSpace, R.ClassifyForChat;
    GuardDropsAlert(f, p, guard, router.signalChatId);
    R.MarkedSentMeans(router, guard, f.kind, Html(Message(f, p)), answer);
  }

  lemma TextMarker(f: Finding, p: Printer, i: nat, m: string)
    requires i < |AlertPlaces(f, p)| && Contains(AlertPlaces(f, p)[i].text, m) && Unescaped(m) && ';' !in m && |m| >= 5
    ensures Contains(Html(Message(f, p)), m)
  {
    hide Contains, Html, Message, Escape, AlertPlaces, Places, Anchors;
    var at := AlertPlaces(f, p)[i];
    MessageShows(f, p);
    assert at in Places(Message(f, p));
    HtmlContains(Message(f, p), at);
    EscapeContains(at.text, m);
    ContainsTransitive(Html(Message(f, p)), Escape(at.text), m);
  }

  /**
   * The guard's comments call a false positive on a real flow alert structurally impossible
   * (lines 214-217). With state transitions suppressed any two texts of an alert, or one, that
   * hold `state: ` and an arrow have it dropped, whatever its severity and whatever else it
   * says, and its row is told success with id 0. The market title alone is enough.
   */
  lemma TextsDropAlert(f: Finding, p: Printer, i: nat, j: nat, router: R.RouterConfig, guard: R.GuardConfig, answer: R.Answer)
    requires i < |AlertPlaces(f, p)| && Contains(AlertPlaces(f, p)[i].text, R.STATE)
    requires j < |AlertPlaces(f, p)| && Contains(AlertPlaces(f, p)[j].text, R.INTO)
    requires !guard.transitionEnabled
    ensures var text, s := Html(Message(f, p)), R.SurfaceFromKind(f.kind);
      R.Handed(router, guard, s, text).None? && R.Report(router, guard, s, text, answer) == R.Id(0)
  {
    hide Contains, Html, Message, AlertPlaces, Verbatim;
    ClassifiedIsVerbatim(R.STATE);
    ClassifiedIsVerbatim(R.INTO);
    VerbatimIsUnescaped(R.STATE);
    VerbatimIsUnescaped(R.INTO);
    TextMarker(f, p, i, R.STATE);
    TextMarker(f, p, j, R.INTO);
    Transition(guard, Html(Message(f, p)));
  }

  lemma Transition(guard: R.GuardConfig, text: string)
    requires Contains(text, R.STATE) && Contains(text, R.INTO) && !guard.transitionEnabled
    ensures forall chat :: R.ClassifyForChat(guard, chat, text).Some?
  {
    hide Contains;
    assert R.IsStateTransition(text);
  }

  lemma TitleDropsAlert(f: Finding, p: Printer, router: R.RouterConfig, guard: R.GuardConfig, answer: R.Answer)
    requires Contains(TradeTitle(f), R.STATE) && Contains(TradeTitle(f), R.INTO) && !guard.transitionEnabled
    ensures var text, s := Html(Message(f, p)), R.SurfaceFromKind(f.kind);
      R.Handed(router, guard, s, text).None? && R.Report(router, guard, s, text, answer) == R.Id(0)
  {
    hide Contains, Html, Message, TradeTitle;
    assert AlertPlaces(f, p)[0].text == TradeTitle(f);
    TextsDropAlert(f, p, 0, 0, router, guard, answer);
  }
}
