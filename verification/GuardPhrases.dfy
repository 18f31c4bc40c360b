/**
 * Where a phrase of the text guard (internal/infra/telegram/guard.go, lines 170-266) can stand in
 * a rendered document: inside one external text, or begun by the wording before one and
 * completed by it. The renderer's own wording never holds one.
 */
module GuardPhrases {
  import opened TextBytes
  import opened TelegramHtml
  import opened Wording
  import opened TelegramRouting

  /** What is left of the blocked header when the phrase before its bold tag ends is cut off. */
  const HEADER_TAIL := "</b> \U{C2}\U{B7} blocked"

  predicate Phrase(m: string) {
    || m == STATS || m == UPDATE || m == BLOCKED_PLAIN || m == HEADER_TAIL || m == CATALYST || m == BLOCKED_UNTIL
    || m == STATE || m == INTO || m == INTO_ASCII || m == TRANSITION || m in ADMIN_MARKERS
  }

  // ---- containment and concatenation ------------------------------------------------------------

  lemma ContainsWithin(a: string, y: string, b: string, sub: string)
    requires Contains(y, sub)
    ensures Contains(a + y + b, sub)
  {
    var i :| 0 <= i <= |y| && MatchesAt(y, sub, i);
    var s := a + y + b;
    assert s[|a| + i..|a| + i + |sub|] == y[i..i + |sub|];
    assert MatchesAt(s, sub, |a| + i);
  }

  /** The first `j` bytes of `m` end `a`, the others start `b`. */
  predicate Straddles(a: string, b: string, m: string, j: nat) {
    0 < j < |m| && j <= |a| && a[|a| - j..] == m[..j] && m[j..] <= b
  }

  lemma SplitMatch(a: string, b: string, m: string, i: nat)
    requires i < |a| < i + |m| && MatchesAt(a + b, m, i)
    ensures var j := |a| - i; a[i..] == m[..j] && b[..|m| - j] == m[j..]
  {
    var parts := a[i..] + b[..|m| - (|a| - i)];
    forall k | 0 <= k < |m|
      ensures m[k] == parts[k]
    {
      assert (a + b)[i..i + |m|][k] == (a + b)[i + k];
    }
    assert m == parts;
  }

  lemma ContainsConcat(a: string, b: string, m: string) returns (j: nat)
    requires Contains(a + b, m) && m != ""
    ensures Contains(a, m) || Contains(b, m) || Straddles(a, b, m, j)
  {
    var s := a + b;
    var i :| 0 <= i <= |s| && MatchesAt(s, m, i);
    j := 0;
    if i + |m| <= |a| {
      assert a[i..i + |m|] == s[i..i + |m|];
      assert MatchesAt(a, m, i);
    } else if i >= |a| {
      assert b[i - |a|..i - |a| + |m|] == s[i..i + |m|];
      assert MatchesAt(b, m, i - |a|);
    } else {
      j := |a| - i;
      SplitMatch(a, b, m, i);
    }
  }

  lemma StraddleFound(a: string, b: string, m: string, j: nat)
    requires Straddles(a, b, m, j)
    ensures Contains(a + b, m)
  {
    var s, i := a + b, |a| - j;
    assert s[i..i + |m|] == a[i..] + b[..|m| - j];
    assert m == m[..j] + m[j..];
    assert MatchesAt(s, m, i);
  }

  lemma StraddleBytes(a: string, b: string, m: string, j: nat)
    requires Straddles(a, b, m, j)
    ensures m[j - 1] == a[|a| - 1] && m[j] == b[0] && m[j - 1] in m
    ensures forall k: nat :: k < j ==> a[|a| - j + k] == m[k]
  {
    forall k: nat | k < j
      ensures a[|a| - j + k] == m[k]
    {
      assert a[|a| - j..][k] == m[..j][k];
    }
    assert m[j..][0] == b[0];
  }

  // ---- wording holds no phrase --------------------------------------------------------------------

  lemma PhraseByte(s: string, m: string, i: int, k: nat)
    requires MatchesAt(s, m, i) && k < |m|
    ensures s[i + k] == m[k]
  {
    assert s[i..i + |m|][k] == s[i + k];
  }

  /** The offset of what gives a phrase away. */
  function Telltale(m: string): nat {
    if m == UPDATE || m == BLOCKED_PLAIN || m == INTO_ASCII then 2
    else if m == HEADER_TAIL then 8
    else if m == CATALYST then 16
    else if m == BLOCKED_UNTIL then 4
    else if m == STATE then 1
    else if m == INTO || m == ADMIN_BOLD then 3
    else if m == TRANSITION then 5
    else 0
  }

  predicate Gives(m: string, k: nat) {
    k < |m| &&
    (|| m[k] == 'E' || m[k] == '_'
     || (Next(m, k + 1, 'a') && m[k] == 'W')
     || (Next(m, k + 1, 'i') && m[k] == 'S')
     || (Next(m, k + 1, 'l') && Next(m, k + 2, 'o') && m[k] == 'b')
     || (Next(m, k + 1, 'a') && Next(m, k + 2, 't') && Next(m, k + 3, 'e') && m[k] == 't')
     || (Next(m, k + 1, ' ') && m[k] == '\U{92}')
     || (k > 0 && Next(m, k - 1, '-') && m[k] == '>'))
  }

  lemma PhraseGives(m: string)
    requires Phrase(m)
    ensures Gives(m, Telltale(m))
  {
  }

  lemma QuietHidesPhrases(s: string, m: string)
    requires Quiet(s) && Phrase(m)
    ensures !Contains(s, m)
  {
    hide Phrase;
    if i :| 0 <= i <= |s| && MatchesAt(s, m, i) {
      PhraseGives(m);
      Spelled(s, m, i, Telltale(m));
    }
  }

  lemma Spelled(s: string, m: string, i: int, k: nat)
    requires MatchesAt(s, m, i) && Gives(m, k)
    ensures !Quiet(s)
  {
    forall d: nat | d < |m|
      ensures s[i + d] == m[d]
    {
      PhraseByte(s, m, i, d);
    }
    assert !QuietAt(s, i + k);
  }

  // ---- escaping ---------------------------------------------------------------------------------

  predicate Unescaped(s: string) { forall i :: 0 <= i < |s| ==> EscapeByte(s[i]) == [s[i]] }

  lemma {:induction false} EscapeUnescaped(s: string)
    requires Unescaped(s)
    ensures Escape(s) == s
    decreases |s|
  {
    if s != [] {
      EscapeUnescaped(s[1..]);
    }
  }

  lemma {:induction false} EscapeHasPrefix(t: string, m: string)
    requires Unescaped(m)
    ensures m <= Escape(t) <==> m <= t
    decreases |t|
  {
    if m != [] && t != [] {
      var e := EscapeByte(t[0]);
      assert m[0] != '&' && EscapeByte(m[0]) == [m[0]];
      if e == [t[0]] {
        EscapeHasPrefix(t[1..], m[1..]);
        Headed(m, t);
        assert Escape(t)[1..] == Escape(t[1..]);
        Headed(m, Escape(t));
      } else {
        assert Escape(t)[0] == '&';
      }
    }
  }

  lemma Headed(m: string, t: string)
    requires m != [] && t != []
    ensures m <= t <==> m[0] == t[0] && m[1..] <= t[1..]
  {
    if m[0] == t[0] && m[1..] <= t[1..] {
      assert m == [m[0]] + m[1..] && t == [t[0]] + t[1..];
    }
  }

  lemma ContainsHead(t: string, m: string)
    requires t != [] && m != []
    ensures Contains(t, m) <==> m <= t || Contains(t[1..], m)
  {
    if i :| 0 <= i <= |t| && MatchesAt(t, m, i) {
      if i > 0 {
        assert t[1..][i - 1..i - 1 + |m|] == t[i..i + |m|];
        assert MatchesAt(t[1..], m, i - 1);
      }
    }
    if m <= t {
      assert MatchesAt(t, m, 0);
    }
    if i :| 0 <= i <= |t[1..]| && MatchesAt(t[1..], m, i) {
      assert t[1..][i..i + |m|] == t[i + 1..i + 1 + |m|];
      assert MatchesAt(t, m, i + 1);
    }
  }

  /** Escaping neither makes nor breaks a phrase without special characters. */
  lemma {:induction false} EscapeContains(t: string, m: string)
    requires Unescaped(m) && ';' !in m && |m| >= 5
    ensures Contains(Escape(t), m) <==> Contains(t, m)
    decreases |t|
  {
    hide Contains, EscapeByte;
    if t == [] {
      NothingContains(m);
    } else {
      var e := EscapeByte(t[0]);
      EscapeContains(t[1..], m);
      EscapeHasPrefix(t, m);
      ContainsHead(t, m);
      assert Escape(t) == e + Escape(t[1..]);
      EntityAhead(t[0], Escape(t[1..]), m);
    }
  }

  lemma NothingContains(m: string)
    requires m != ""
    ensures !Contains("", m) && Escape("") == ""
  {
  }

  /** Behind an escaped byte a phrase starts with it or not at all before its end. */
  lemma EntityAhead(c: char, rest: string, m: string)
    requires Unescaped(m) && ';' !in m && |m| >= 5
    ensures var e := EscapeByte(c);
      Contains(e + rest, m) <==> m <= e + rest || Contains(rest, m)
  {
    var e := EscapeByte(c);
    if e == [c] {
      ContainsHead(e + rest, m);
      assert (e + rest)[1..] == rest;
    } else {
      assert e[|e| - 1] == ';';
      if Contains(e + rest, m) {
        var j := ContainsConcat(e, rest, m);
        if Straddles(e, rest, m, j) {
          StraddleBytes(e, rest, m, j);
        } else if Contains(e, m) {
          ShortEntity(e, m);
        }
      }
      if Contains(rest, m) {
        ContainsWithin(e, rest, "", m);
        assert e + rest + "" == e + rest;
      }
      if m <= e + rest {
        assert (e + rest)[0..|m|] == m;
        assert MatchesAt(e + rest, m, 0);
      }
    }
  }

  lemma WholeMatch(s: string, m: string)
    requires Contains(s, m) && |s| <= |m|
    ensures s == m
  {
    var i :| 0 <= i <= |s| && MatchesAt(s, m, i);
    assert s[0..|s|] == s;
  }

  lemma ShortEntity(e: string, m: string)
    requires |e| <= 5 && e != "" && e[0] == '&' && Unescaped(m) && |m| >= 5
    ensures !Contains(e, m)
  {
    assert EscapeByte(m[0]) == [m[0]];
    if Contains(e, m) {
      WholeMatch(e, m);
    }
  }

  lemma HoldsBytes(s: string, m: string)
    requires Contains(s, m)
    ensures forall c :: c in m ==> c in s
  {
    var i :| 0 <= i <= |s| && MatchesAt(s, m, i);
    forall c | c in m
      ensures c in s
    {
      var k :| 0 <= k < |m| && m[k] == c;
      PhraseByte(s, m, i, k);
      assert s[i + k] in s;
    }
  }

  lemma EscapeHidesMarkup(t: string, m: string)
    requires '<' in m || '>' in m
    ensures !Contains(Escape(t), m)
  {
    hide Contains;
    EscapeIsPlain(t);
    if Contains(Escape(t), m) {
      HoldsBytes(Escape(t), m);
    }
  }

  // ---- where an external text stands ----------------------------------------------------------------

  /** What follows an external text: a tag, the end of the line, a parenthesis or a quote. */
  predicate Stops(c: char) { c == '<' || c == '\n' || c == ')' || c == '"' }

  /** In a bold span: one '<', that of its tag. */
  predicate Bolded(before: string) { "<b" <= before && forall i :: 0 < i < |before| ==> before[i] != '<' }

  /** The wording an external text may stand behind: `last` ends `before`, what its node holds so far. */
  predicate GoodLead(before: string, last: string) {
    && |last| <= |before| && before[|before| - |last|..] == last
    && (|| last == "<b>" || last == "<code>" || last == BULLET || (last == MIDDOT && Bolded(before))
        || (last != "" && last[|last| - 1] in {'(', '=', '"'})
        || (|last| >= 2 && last[|last| - 1] == ' ' && last[|last| - 2] in {':', ' '}))
  }

  /** The phrase is begun by the wording and completed by the text. */
  predicate Completes(at: Place, m: string) {
    || (at.lead.AfterBullet? && m == BLOCKED_UNTIL && "blocked until:" <= at.text)
    || (at.lead.AfterBold? && m == ADMIN_BOLD && "Signal quality \U{C2}\U{B7} " <= at.text)
    || ((at.lead.AfterBullet? || at.lead.AfterBlank?) && m == INTO && "\U{E2}\U{86}\U{92} " <= at.text)
  }

  predicate Hit(at: Place, m: string) { Contains(Escape(at.text), m) || Completes(at, m) }

  // ---- no phrase but at such a place ---------------------------------------------------------------

  /** Where a phrase may be broken after a blank, a tag, a parenthesis, a sign or a quote. */
  predicate Break(m: string, j: nat) {
    || (m == BLOCKED_UNTIL && j == 4) || (m == ADMIN_BOLD && j == 3) || ((m == INTO || m == INTO_ASCII) && j == 1)
  }

  /** A good lead may end in the bytes before position `j`. */
  predicate LeadEnd(m: string, j: nat)
    requires 0 < j < |m|
  {
    || m[j - 1] in {'(', '=', '"', '>'}
    || (m[j - 1] == ' ' && (j == 1 || m[j - 2] in {':', ' ', '\U{A2}', '\U{B7}'}))
  }

  /**
   * Nothing that follows an external text stands in the phrase; and it breaks as above, or behind
   * a '>' that ends no opening tag, or behind a middle dot with a telltale before it.
   */
  predicate BrokenAt(m: string, j: nat)
    requires 0 < j < |m|
  {
    && !Stops(m[j])
    && (LeadEnd(m, j) ==>
      || Break(m, j)
      || (j >= 2 && m[j - 1] == '>' && m[j - 2] in {'-', 'b'} && (m[j - 2] == 'b' ==> j >= 3 && m[j - 3] == '/'))
      || (j >= 2 && m[j - 1] == ' ' && m[j - 2] == '\U{B7}' && ((m == HEADER_TAIL && j == 8) || Telltale(m) + 3 < j)))
  }

  lemma UpdateBreaks(m: string, j: nat)
    requires (m == UPDATE || m == BLOCKED_PLAIN) && 0 < j < |m|
    ensures BrokenAt(m, j)
  {
  }

  lemma BlockedBreaks(m: string, j: nat)
    requires (m == HEADER_TAIL || m == BLOCKED_UNTIL) && 0 < j < |m|
    ensures BrokenAt(m, j)
  {
  }

  lemma StatsBreaks(m: string, j: nat)
    requires m == STATS && 0 < j < |m|
    ensures BrokenAt(m, j)
  {
  }

  lemma CatalystBreaks(m: string, j: nat)
    requires m == CATALYST && 0 < j < |m|
    ensures BrokenAt(m, j)
  {
  }

  lemma TransitionBreaks(m: string, j: nat)
    requires (m == STATE || m == INTO || m == INTO_ASCII || m == TRANSITION) && 0 < j < |m|
    ensures BrokenAt(m, j)
  {
  }

  lemma AdminBreaks(m: string, j: nat)
    requires (m == ADMIN_MARKERS[0] || m == ADMIN_MARKERS[1]) && 0 < j < |m|
    ensures BrokenAt(m, j)
  {
  }

  lemma WeeklyBreaks(m: string, j: nat)
    requires (m == ADMIN_MARKERS[2] || m == ADMIN_MARKERS[3]) && 0 < j < |m|
    ensures BrokenAt(m, j)
  {
  }

  lemma YearlyBreaks(m: string, j: nat)
    requires (m == ADMIN_MARKERS[4] || m == ADMIN_MARKERS[5]) && 0 < j < |m|
    ensures BrokenAt(m, j)
  {
  }

  lemma PhraseBreaks(m: string, j: nat)
    requires Phrase(m) && 0 < j < |m|
    ensures BrokenAt(m, j)
  {
    hide BrokenAt;
    if m == UPDATE || m == BLOCKED_PLAIN {
      UpdateBreaks(m, j);
    } else if m == HEADER_TAIL || m == BLOCKED_UNTIL {
      BlockedBreaks(m, j);
    } else if m == STATS {
      StatsBreaks(m, j);
    } else if m == CATALYST {
      CatalystBreaks(m, j);
    } else if m == STATE || m == INTO || m == INTO_ASCII || m == TRANSITION {
      TransitionBreaks(m, j);
    } else if m == ADMIN_MARKERS[0] || m == ADMIN_MARKERS[1] {
      AdminBreaks(m, j);
    } else if m == ADMIN_MARKERS[2] || m == ADMIN_MARKERS[3] {
      WeeklyBreaks(m, j);
    } else {
      assert forall k :: 0 <= k < 4 ==> m != ADMIN_MARKERS[k];
      YearlyBreaks(m, j);
    }
  }

  /** A phrase begun by wording behind which a text may stand: it breaks at the end of that wording. */
  lemma Seam(x: string, before: string, last: string, m: string, j: nat)
    requires Quiet(x + before) && GoodLead(before, last) && Phrase(m) && 0 < j < |m| && j <= |x + before|
    requires forall k: nat :: k < j ==> (x + before)[|x + before| - j + k] == m[k]
    ensures Break(m, j)
    ensures m == BLOCKED_UNTIL ==> last == BULLET
    ensures m == ADMIN_BOLD ==> last == "<b>"
    ensures m == INTO || m == INTO_ASCII ==> last != "" && last[|last| - 1] == ' '
  {
    hide Phrase, Quiet, Telltale, Bolded, Break, BrokenAt, GoodLead, LeadEnd;
    SeamBytes(x, before, last, m, j);
    PhraseBreaks(m, j);
    SeamOrDot(x, before, last, m, j);
    if !Break(m, j) {
      if m == HEADER_TAIL && j == 8 {
        NoTailBeforeTitle(x, before);
      } else {
        PhraseGives(m);
        SpelledBefore(x + before, m, j, Telltale(m));
      }
      assert false;
    } else {
      BreakLead(last, m, j);
    }
  }

  /** The bytes the phrase has in common with the lead. */
  predicate SharesEnd(last: string, m: string, j: nat)
    requires 0 < j < |m|
  {
    && last != "" && last[|last| - 1] == m[j - 1]
    && (|last| >= 2 && j >= 2 ==> last[|last| - 2] == m[j - 2])
    && (|last| >= 3 && j >= 3 ==> last[|last| - 3] == m[j - 3])
  }

  lemma SeamBytes(x: string, before: string, last: string, m: string, j: nat)
    requires GoodLead(before, last) && 0 < j < |m| && j <= |x + before|
    requires forall k: nat :: k < j ==> (x + before)[|x + before| - j + k] == m[k]
    ensures SharesEnd(last, m, j) && LeadEnd(m, j)
  {
    hide GoodLead, LeadEnd;
    var run := x + before;
    LeadBytes(x, before, last);
    assert run[|run| - j + (j - 1)] == m[j - 1];
    assert j >= 2 ==> run[|run| - j + (j - 2)] == m[j - 2];
    assert j >= 3 ==> run[|run| - j + (j - 3)] == m[j - 3];
    EndOfLead(before, last, m, j);
  }

  lemma EndOfLead(before: string, last: string, m: string, j: nat)
    requires GoodLead(before, last) && 0 < j < |m| && SharesEnd(last, m, j)
    ensures LeadEnd(m, j)
  {
    hide Bolded;
    assert BULLET[3] == ' ' && BULLET[2] == '\U{A2}' && MIDDOT[3] == ' ' && MIDDOT[2] == '\U{B7}';
  }

  /** Not at a tag: the lead that ends in one is `<b>` or `<code>`. */
  lemma SeamOrDot(x: string, before: string, last: string, m: string, j: nat)
    requires GoodLead(before, last) && 0 < j < |m| && SharesEnd(last, m, j) && LeadEnd(m, j) && BrokenAt(m, j)
    ensures Break(m, j)
      || (j >= 2 && m[j - 1] == ' ' && m[j - 2] == '\U{B7}' && last == MIDDOT && Bolded(before)
          && ((m == HEADER_TAIL && j == 8) || Telltale(m) + 3 < j))
  {
    hide Bolded, Telltale, Break;
  }

  lemma BreakLead(last: string, m: string, j: nat)
    requires 0 < j < |m| && SharesEnd(last, m, j) && Break(m, j) && (exists before :: GoodLead(before, last))
    ensures m == BLOCKED_UNTIL ==> last == BULLET
    ensures m == ADMIN_BOLD ==> last == "<b>"
    ensures m == INTO || m == INTO_ASCII ==> last != "" && last[|last| - 1] == ' '
  {
    hide Bolded;
  }

  lemma LeadBytes(x: string, before: string, last: string)
    requires GoodLead(before, last)
    ensures var run := x + before;
      && last != "" && run[|run| - 1] == last[|last| - 1]
      && (|last| >= 2 ==> run[|run| - 2] == last[|last| - 2]) && (|last| >= 3 ==> run[|run| - 3] == last[|last| - 3])
  {
    var run := x + before;
    forall k: nat | k < |last|
      ensures run[|run| - |last| + k] == last[k]
    {
      assert before[|before| - |last|..][k] == last[k];
    }
    assert |last| >= 1 ==> run[|run| - |last| + (|last| - 1)] == last[|last| - 1];
    assert |last| >= 2 ==> run[|run| - |last| + (|last| - 2)] == last[|last| - 2];
    assert |last| >= 3 ==> run[|run| - |last| + (|last| - 3)] == last[|last| - 3];
  }

  lemma SpelledBefore(run: string, m: string, j: nat, k: nat)
    requires j <= |run| && j < |m| && k + 3 < j && Gives(m, k)
    requires forall d: nat :: d < j ==> run[|run| - j + d] == m[d]
    ensures !Quiet(run)
  {
    var p := |run| - j;
    assert run[p + k] == m[k] && run[p + (k + 1)] == m[k + 1] && run[p + (k + 2)] == m[k + 2] && run[p + (k + 3)] == m[k + 3];
    assert k > 0 ==> run[p + (k - 1)] == m[k - 1];
    assert !QuietAt(run, p + k);
  }

  lemma NoTailBeforeTitle(x: string, before: string)
    requires Bolded(before) && |x + before| >= 8
    ensures exists k: nat :: k < 8 && (x + before)[|x + before| - 8 + k] != HEADER_TAIL[k]
  {
    var run := x + before;
    var p := |run| - 8;
    assert before[0] == '<' && before[1] == 'b';
    if p < |x| {
      assert run[p + (|x| - p)] != HEADER_TAIL[|x| - p];
    } else if p > |x| {
      assert run[p + 0] != HEADER_TAIL[0];
    } else {
      assert run[p + 1] != HEADER_TAIL[1];
    }
  }

  // ---- one external text ------------------------------------------------------------------------------

  /** A seam between wording and an escaped text is one that `Completes` describes. */
  lemma SeamCompletes(x: string, before: string, last: string, text: string, m: string, j: nat)
    requires Quiet(x + before) && GoodLead(before, last) && Phrase(m) && Straddles(x + before, Escape(text), m, j)
    ensures Completes(Place(LeadOf(last), text), m)
  {
    hide Quiet, GoodLead, Phrase, Escape;
    StraddleBytes(x + before, Escape(text), m, j);
    Seam(x, before, last, m, j);
    if m == INTO_ASCII {
      NotEscaped(text, m[j..], 1);
    } else {
      SeamTail(m, j);
      EscapeHasPrefix(text, m[j..]);
    }
  }

  lemma NotEscaped(text: string, m: string, k: nat)
    requires k < |m| && m[k] == '>'
    ensures !(m <= Escape(text))
  {
    EscapeIsPlain(text);
    assert forall c: char :: c in Escape(text) ==> c != '>';
  }

  function Ending(m: string): string {
    if m == BLOCKED_UNTIL then "blocked until:" else if m == ADMIN_BOLD then "Signal quality \U{C2}\U{B7} "
    else "\U{E2}\U{86}\U{92} "
  }

  function Beginning(m: string): string { if m == BLOCKED_UNTIL then BULLET else if m == ADMIN_BOLD then "<b>" else " " }

  lemma UntilParts()
    ensures BLOCKED_UNTIL == BULLET + "blocked until:" && Unescaped("blocked until:")
  {
  }

  lemma BoldParts()
    ensures ADMIN_BOLD == "<b>" + "Signal quality \U{C2}\U{B7} "
  {
  }

  lemma SignalIsUnescaped()
    ensures Unescaped("Signal quality \U{C2}\U{B7} ")
  {
  }

  lemma IntoParts()
    ensures INTO == " " + "\U{E2}\U{86}\U{92} " && Unescaped("\U{E2}\U{86}\U{92} ")
    ensures |INTO| == 5 && |BLOCKED_UNTIL| == 18
  {
  }

  lemma SeamTail(m: string, j: nat)
    requires Break(m, j) && m != INTO_ASCII
    ensures m == Beginning(m) + Ending(m) && j == |Beginning(m)| && Unescaped(Ending(m))
    ensures 0 < j < |m| && m[j..] == Ending(m) && m[..j] == Beginning(m)
  {
    hide Unescaped;
    UntilParts();
    BoldParts();
    SignalIsUnescaped();
    IntoParts();
  }

  /** And every one it describes is such a seam. */
  lemma CompletesAtSeam(x: string, before: string, last: string, text: string, m: string)
    requires GoodLead(before, last) && Phrase(m) && Completes(Place(LeadOf(last), text), m)
    ensures Contains(x + before + Escape(text), m)
  {
    hide Phrase, Contains, Escape;
    var run := x + before;
    var j := if m == BLOCKED_UNTIL then 4 else if m == ADMIN_BOLD then 3 else 1;
    SeamTail(m, j);
    EscapeHasPrefix(text, m[j..]);
    LeadBytes(x, before, last);
    BeginsPhrase(run, last, m, j);
    StraddleFound(run, Escape(text), m, j);
  }

  lemma BeginsPhrase(run: string, last: string, m: string, j: nat)
    requires |last| <= |run| && run[|run| - |last|..] == last && last != ""
    requires || (m == BLOCKED_UNTIL && last == BULLET && j == 4) || (m == ADMIN_BOLD && last == "<b>" && j == 3)
             || (m == INTO && last[|last| - 1] == ' ' && j == 1)
    ensures j <= |run| && j < |m| && run[|run| - j..] == m[..j]
  {
    if m == INTO {
      assert last[|last| - 1] == run[|run| - |last|..][|last| - 1] == run[|run| - 1];
    }
  }

  lemma StopsHere(a: string, b: string, m: string)
    requires Phrase(m) && b != "" && Stops(b[0])
    ensures Contains(a + b, m) <==> Contains(a, m) || Contains(b, m)
  {
    hide Phrase, Stops, Contains;
    if Contains(a + b, m) {
      assert m != "" by { PhraseIsLong(m); }
      var j := ContainsConcat(a, b, m);
      if Straddles(a, b, m, j) {
        StraddleBytes(a, b, m, j);
        PhraseBreaks(m, j);
      }
    }
    if Contains(a, m) {
      ContainsWithin("", a, b, m);
      assert "" + a + b == a + b;
    }
    if Contains(b, m) {
      ContainsWithin(a, b, "", m);
      assert a + b + "" == a + b;
    }
  }

  lemma PhraseIsLong(m: string)
    requires Phrase(m)
    ensures |m| >= 4
  {
  }

  /** Wording, an external text, and what follows it: a phrase hits the text or stands behind it. */
  lemma TextHit(x: string, before: string, last: string, text: string, rest: string, m: string)
    requires Quiet(x + before) && GoodLead(before, last) && Phrase(m) && rest != "" && Stops(rest[0])
    ensures Contains(x + before + Escape(text) + rest, m) <==> Hit(Place(LeadOf(last), text), m) || Contains(rest, m)
  {
    hide Quiet, GoodLead, Phrase, Stops, Contains, Escape, Completes, LeadOf;
    var run, e := x + before, Escape(text);
    StopsHere(run + e, rest, m);
    if Contains(run + e, m) {
      PhraseIsLong(m);
      var j := ContainsConcat(run, e, m);
      QuietHidesPhrases(run, m);
      if Straddles(run, e, m, j) {
        SeamCompletes(x, before, last, text, m, j);
      }
    }
    if Contains(e, m) {
      ContainsWithin(run, e, "", m);
      assert run + e + "" == run + e;
    }
    if Completes(Place(LeadOf(last), text), m) {
      CompletesAtSeam(x, before, last, text, m);
    }
  }

  /** A text that is itself quiet is not hit. */
  lemma QuietNotHit(at: Place, m: string)
    requires Quiet(at.text) && Escape(at.text) == at.text && Phrase(m)
    ensures !Hit(at, m)
  {
    hide Quiet, Phrase, Contains, Escape;
    QuietHidesPhrases(at.text, m);
    if Completes(at, m) {
      LoudEnding(at.text, m);
    }
  }

  lemma LoudEnding(text: string, m: string)
    requires (m == BLOCKED_UNTIL || m == ADMIN_BOLD || m == INTO) && Ending(m) <= text
    ensures !Quiet(text)
  {
    var k := if m == INTO then 2 else 0;
    assert text[k] == Ending(m)[k] && text[k + 1] == Ending(m)[k + 1] && (m != INTO ==> text[k + 2] == Ending(m)[k + 2]);
    assert !QuietAt(text, k);
  }

  // ---- a whole document ---------------------------------------------------------------------------------

  predicate OwnWording(s: string) { Quiet(s) && Escape(s) == s }

  /** The text is followed by one of the stops: the end of its span, or the next wording. */
  predicate Followed(spans: seq<Span>, wrapped: bool)
    requires spans != []
  {
    if |spans| == 1 then wrapped else spans[1].Lit? && spans[1].cell != "" && Stops(spans[1].cell[0])
  }

  /** Every external text stands behind a good lead and before a stop, or is no more than wording itself. */
  predicate Spaced(before: string, last: string, spans: seq<Span>, wrapped: bool)
    decreases |spans|
  {
    spans == [] ||
    match spans[0]
    case Lit(cell) => Spaced(before + cell, cell, spans[1..], wrapped)
    case Less(rest) => Spaced(before + ("&lt;" + rest), rest, spans[1..], wrapped)
    case Raw(text) => OwnWording(text) && Spaced(before + text, text, spans[1..], wrapped)
    case Field(text) =>
      if Followed(spans, wrapped) then GoodLead(before, last) && Spaced("", "", spans[1..], wrapped)
      else OwnWording(text) && Spaced(before + text, "", spans[1..], wrapped)
  }

  predicate SpacedNode(n: Node) {
    match n
    case Text(spans) => Spaced("", "", spans, false)
    case Bold(spans) => Spaced("<b>", "<b>", spans, true)
    case Code(spans) => Spaced("<code>", "<code>", spans, true)
    case Link(_, caption) => OwnWording(caption)
  }

  predicate SpacedNodes(nodes: seq<Node>) { forall i :: 0 <= i < |nodes| ==> SpacedNode(nodes[i]) }

  predicate AnyHit(places: seq<Place>, m: string) { exists i :: 0 <= i < |places| && Hit(places[i], m) }

  predicate AnyHref(anchors: seq<Anchor>, m: string) {
    exists i :: 0 <= i < |anchors| && Contains(Escape(anchors[i].href), m)
  }

  lemma AnyHitConcat(a: seq<Place>, b: seq<Place>, m: string)
    ensures AnyHit(a + b, m) <==> AnyHit(a, m) || AnyHit(b, m)
  {
    hide Hit;
    var s := a + b;
    if i :| 0 <= i < |a| && Hit(a[i], m) {
      assert Hit(s[i], m);
    }
    if i :| 0 <= i < |b| && Hit(b[i], m) {
      assert Hit(s[|a| + i], m);
    }
  }

  lemma QuietLess(rest: Cell)
    ensures Quiet("&lt;" + rest)
  {
    QuietConcat("&lt;", rest);
  }

  lemma Glue(x: string, before: string, c: string, rest: string, tail: string)
    ensures x + before + (c + rest) + tail == x + (before + c) + rest + tail
  {
  }

  lemma QuietMore(x: string, before: string, c: string)
    requires Quiet(x + before) && Quiet(c)
    ensures Quiet(x + (before + c))
  {
    QuietConcat(x + before, c);
    assert x + before + c == x + (before + c);
  }

  /** The spans of a node behind the wording `x + before`; `y` is the wording they end in. */
  lemma {:induction false} SpansHit(x: string, before: string, last: string, spans: seq<Span>, wrapped: bool, tail: string, m: string)
    returns (y: string)
    requires Quiet(x + before) && Phrase(m) && Spaced(before, last, spans, wrapped)
    requires wrapped ==> tail != "" && Stops(tail[0])
    ensures Quiet(y)
    ensures Contains(x + before + SpansHtml(spans) + tail, m) <==> AnyHit(SpanPlaces(last, spans), m) || Contains(y + tail, m)
    decreases |spans|
  {
    hide Quiet, Phrase, Stops, Contains, Escape, Hit, LeadOf, GoodLead;
    if spans == [] {
      y := x + before;
      assert x + before + SpansHtml(spans) == y;
    } else {
      var rest := SpansHtml(spans[1..]);
      match spans[0]
      case Lit(cell) =>
        QuietMore(x, before, cell);
        Glue(x, before, cell, rest, tail);
        y := SpansHit(x, before + cell, cell, spans[1..], wrapped, tail, m);
      case Less(more) =>
        QuietLess(more);
        QuietMore(x, before, "&lt;" + more);
        Glue(x, before, "&lt;" + more, rest, tail);
        y := SpansHit(x, before + ("&lt;" + more), more, spans[1..], wrapped, tail, m);
      case Raw(text) =>
        QuietMore(x, before, text);
        Glue(x, before, text, rest, tail);
        y := SpansHit(x, before + text, text, spans[1..], wrapped, tail, m);
      case Field(text) =>
        var at := Place(LeadOf(last), text);
        AnyHitConcat([at], SpanPlaces("", spans[1..]), m);
        OneHit(at, m);
        if Followed(spans, wrapped) {
          StopsNext(spans, wrapped, tail);
          TextHit(x, before, last, text, rest + tail, m);
          assert x + before + (Escape(text) + rest) + tail == x + before + Escape(text) + (rest + tail);
          EmptyIsQuiet();
          y := SpansHit("", "", "", spans[1..], wrapped, tail, m);
          assert "" + "" + rest + tail == rest + tail;
        } else {
          QuietNotHit(at, m);
          QuietMore(x, before, text);
          Glue(x, before, text, rest, tail);
          y := SpansHit(x, before + text, "", spans[1..], wrapped, tail, m);
        }
    }
  }

  lemma OneHit(at: Place, m: string)
    ensures AnyHit([at], m) <==> Hit(at, m)
  {
    hide Hit;
    assert [at][0] == at;
  }

  lemma EmptyIsQuiet()
    ensures Quiet("" + "") && Quiet("")
  {
  }

  lemma StopsNext(spans: seq<Span>, wrapped: bool, tail: string)
    requires spans != [] && Followed(spans, wrapped) && (wrapped ==> tail != "" && Stops(tail[0]))
    ensures var rest := SpansHtml(spans[1..]) + tail; rest != "" && Stops(rest[0])
  {
    hide Stops;
    if |spans| > 1 {
      assert spans[1..][0] == spans[1];
    }
  }

  lemma WrappedHit(x: string, open: string, close: string, spans: seq<Span>, tail: string, m: string) returns (y: string)
    requires Quiet(x) && Quiet(open) && Quiet(close) && close != "" && Stops(close[0])
    requires Phrase(m) && Spaced(open, open, spans, true)
    ensures Quiet(y)
    ensures Contains(x + (open + (SpansHtml(spans) + close)) + tail, m) <==> AnyHit(SpanPlaces(open, spans), m) || Contains(y + tail, m)
  {
    hide Quiet, Phrase, Stops, Contains, Hit, SpansHtml, Spaced;
    QuietConcat(x, open);
    var z := SpansHit(x, open, open, spans, true, close + tail, m);
    assert x + (open + (SpansHtml(spans) + close)) + tail == x + open + SpansHtml(spans) + (close + tail);
    QuietConcat(z, close);
    y := z + close;
    assert z + (close + tail) == y + tail;
  }

  const ANCHOR := "<a href=\""

  lemma TagsAreQuiet()
    ensures Quiet("<b>") && Quiet("</b>") && Quiet("<code>") && Quiet("</code>")
  {
  }

  lemma AnchorIsQuiet()
    ensures Quiet(ANCHOR) && Quiet("\">") && Quiet("</a>") && GoodLead(ANCHOR, ANCHOR) && LeadOf(ANCHOR) == Elsewhere
  {
    assert ANCHOR[|ANCHOR| - |ANCHOR|..] == ANCHOR;
  }

  lemma LinkBytes(href: string, caption: string)
    requires Escape(caption) == caption
    ensures NodeHtml(Link(href, caption)) == ANCHOR + (Escape(href) + ("\">" + (caption + "</a>")))
  {
    hide Escape;
    var e := Escape(href);
    assert "<" + AnchorBody(href) + ">" == ANCHOR + (e + "\">");
    assert "<" + "/a" + ">" == "</a>";
    assert (ANCHOR + (e + "\">")) + (caption + "</a>") == ANCHOR + (e + ("\">" + (caption + "</a>")));
  }

  lemma WrapBytes(spans: seq<Span>)
    ensures NodeHtml(Bold(spans)) == "<b>" + (SpansHtml(spans) + "</b>")
    ensures NodeHtml(Code(spans)) == "<code>" + (SpansHtml(spans) + "</code>")
  {
    hide SpansHtml;
    assert "<" + "b" + ">" == "<b>" && "<" + "/b" + ">" == "</b>";
    assert "<" + "code" + ">" == "<code>" && "<" + "/code" + ">" == "</code>";
  }

  lemma Regroup(x: string, a: string, e: string, y: string, tail: string)
    ensures x + (a + (e + y)) + tail == x + a + e + (y + tail)
  {
  }

  lemma LinkHit(x: string, href: string, caption: string, tail: string, m: string) returns (y: string)
    requires Quiet(x) && OwnWording(caption) && Phrase(m)
    ensures Quiet(y)
    ensures Contains(x + NodeHtml(Link(href, caption)) + tail, m) <==> Contains(Escape(href), m) || Contains(y + tail, m)
  {
    hide Quiet, Phrase, Contains, Escape, GoodLead, LeadOf, NodeHtml;
    AnchorIsQuiet();
    QuietConcat(x, ANCHOR);
    QuietConcat(caption, "</a>");
    QuietConcat("\">", caption + "</a>");
    y := "\">" + (caption + "</a>");
    LinkBytes(href, caption);
    Regroup(x, ANCHOR, Escape(href), y, tail);
    TextHit(x, ANCHOR, ANCHOR, href, y + tail, m);
  }

  lemma NodeHit(x: string, n: Node, tail: string, m: string) returns (y: string)
    requires Quiet(x) && SpacedNode(n) && Phrase(m)
    ensures Quiet(y)
    ensures Contains(x + NodeHtml(n) + tail, m) <==>
      AnyHit(NodePlaces(n), m) || (n.Link? && Contains(Escape(n.href), m)) || Contains(y + tail, m)
  {
    hide Quiet, Phrase, Contains, Escape, Hit, Spaced, SpanPlaces, SpansHtml, AnyHit;
    match n
    case Text(spans) =>
      assert x + "" == x;
      y := SpansHit(x, "", "", spans, false, tail, m);
    case Bold(spans) =>
      TagsAreQuiet();
      WrapBytes(spans);
      y := WrappedHit(x, "<b>", "</b>", spans, tail, m);
    case Code(spans) =>
      TagsAreQuiet();
      WrapBytes(spans);
      y := WrappedHit(x, "<code>", "</code>", spans, tail, m);
    case Link(href, caption) =>
      NothingHit(m);
      y := LinkHit(x, href, caption, tail, m);
  }

  lemma NothingHit(m: string)
    ensures !AnyHit([], m)
  {
  }

  lemma {:induction false} NodesHit(x: string, nodes: seq<Node>, m: string)
    requires Quiet(x) && SpacedNodes(nodes) && Phrase(m)
    ensures Contains(x + Html(nodes), m) <==> AnyHit(Places(nodes), m) || AnyHref(Anchors(nodes), m)
    decreases |nodes|
  {
    hide Quiet, Phrase, Contains, Escape, Hit, SpacedNode, NodeHtml, NodePlaces;
    if nodes == [] {
      assert x + Html(nodes) == x;
      QuietHidesPhrases(x, m);
    } else {
      var n, rest := nodes[0], nodes[1..];
      var y := NodeHit(x, n, Html(rest), m);
      NodesHit(y, rest, m);
      assert x + Html(nodes) == x + NodeHtml(n) + Html(rest);
      AnyHitConcat(NodePlaces(n), Places(rest), m);
      AnyHrefConcat(n, rest, m);
    }
  }

  lemma AnyHrefConcat(n: Node, rest: seq<Node>, m: string)
    ensures AnyHref(Anchors([n] + rest), m) <==> (n.Link? && Contains(Escape(n.href), m)) || AnyHref(Anchors(rest), m)
    ensures [n] + rest != [] && ([n] + rest)[1..] == rest
  {
    hide Contains, Escape;
    var all := [n] + rest;
    assert all[1..] == rest && all[0] == n;
    var tail := Anchors(rest);
    if n.Link? {
      var s := [Anchor(n.href, n.caption)] + tail;
      assert Anchors(all) == s;
      assert forall i :: 0 <= i < |tail| ==> s[i + 1] == tail[i];
      if AnyHref(tail, m) {
        var i :| 0 <= i < |tail| && Contains(Escape(tail[i].href), m);
        assert Contains(Escape(s[i + 1].href), m);
      }
      if Contains(Escape(n.href), m) {
        assert Contains(Escape(s[0].href), m);
      }
    } else {
      assert Anchors(all) == [] + tail && [] + tail == tail;
    }
  }

  /**
   * Where a document holds a phrase of the guard: exactly if one of its external texts or hrefs
   * does, escaped, or one of its texts completes what the wording before it begins.
   */
  lemma DocumentHit(nodes: seq<Node>, m: string)
    requires SpacedNodes(nodes) && Phrase(m)
    ensures Contains(Html(nodes), m) <==> AnyHit(Places(nodes), m) || AnyHref(Anchors(nodes), m)
  {
    hide *;
    EmptyIsQuiet();
    NodesHit("", nodes, m);
    assert "" + Html(nodes) == Html(nodes);
  }
}
