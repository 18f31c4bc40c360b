/**
 * The message splitter (internal/infra/alerting/safe_split.go, lines 32-116).
 *
 * `Split` is the loop as a function of the number of rounds it has been given, and
 * `SafeSplitForTelegram` is the source's loop proved to compute it. The flag `seeded`
 * selects what line 62 scans from: `true` is the code, which starts the scan from the
 * carried stack although the carried tags are already re-opened in the text; `false`
 * is the discipline its comments describe (lines 17-22 and 202-204).
 */
module SafeSplit {
  import opened Optional
  import opened TextBytes
  import opened TagScan

  const MAX := 4000      // TelegramMaxMessageChars
  const RESERVE := 64    // closerBudget
  const CAP := MAX - RESERVE

  // ---- where to cut (lines 89-116) ------------------------------------------

  /** A boundary in the last quarter of the window, in the source's order of preference, or -1. */
  function SoftCut(s: string, cap: nat): int
    requires cap <= |s|
  {
    var window, quarter := s[..cap], cap * 3 / 4;
    if LastIndex(window, "\n\n") > quarter then LastIndex(window, "\n\n") + 2
    else if LastIndex(window, "\n") > quarter then LastIndex(window, "\n") + 1
    else if LastIndex(window, ". ") > quarter then LastIndex(window, ". ") + 2
    else if LastIndex(window, " ") > quarter then LastIndex(window, " ") + 1
    else -1
  }

  /** The last position up to `cap` that is not inside a tag, or 0. */
  function Retreat(s: string, cap: nat): (r: nat)
    requires cap <= |s|
    ensures r <= cap
  {
    if cap > 0 && (s[cap - 1] == '<' || InsideTag(s, cap)) then Retreat(s, cap - 1) else cap
  }

  function Cut(s: string, cap: nat): nat {
    if cap >= |s| then |s|
    else if SoftCut(s, cap) >= 0 then SoftCut(s, cap)
    else if Retreat(s, cap) == 0 then cap
    else Retreat(s, cap)
  }

  lemma {:induction false} RetreatMeaning(s: string, cap: nat)
    requires cap <= |s|
    ensures Retreat(s, cap) > 0 ==> !InsideTag(s, Retreat(s, cap))
    ensures forall k :: Retreat(s, cap) < k <= cap ==> s[k - 1] == '<' || InsideTag(s, k)
  {
    if cap > 0 && (s[cap - 1] == '<' || InsideTag(s, cap)) {
      RetreatMeaning(s, cap - 1);
    }
  }

  lemma CutInWindow(s: string, cap: nat)
    requires 0 < cap < |s|
    ensures 0 < Cut(s, cap) <= cap
  {
    if SoftCut(s, cap) >= 0 {
      SoftCutMeaning(s, cap);
    }
  }

  /**
   * A cut makes progress and stays in the window; it either follows a blank in the last
   * quarter, or it is the last position outside every tag, or the whole window is one tag.
   */
  lemma CutMeaning(s: string, cap: nat)
    requires 0 < cap < |s|
    ensures 0 < Cut(s, cap) <= cap
    ensures var cut := Cut(s, cap);
      || (cut > cap * 3 / 4 && IsBlank(s[cut - 1]))
      || (!InsideTag(s, cut) && forall k :: cut < k <= cap ==> s[k - 1] == '<' || InsideTag(s, k))
      || (cut == cap && forall k :: 0 < k <= cap ==> s[k - 1] == '<' || InsideTag(s, k))
  {
    if SoftCut(s, cap) >= 0 {
      SoftCutMeaning(s, cap);
    } else {
      RetreatMeaning(s, cap);
    }
  }

  lemma SoftCutMeaning(s: string, cap: nat)
    requires 0 < cap < |s| && SoftCut(s, cap) >= 0
    ensures cap * 3 / 4 < SoftCut(s, cap) <= cap && IsBlank(s[SoftCut(s, cap) - 1])
  {
    var window := s[..cap];
    SeparatorEnd(window, "\n\n");
    SeparatorEnd(window, "\n");
    SeparatorEnd(window, ". ");
    SeparatorEnd(window, " ");
  }

  lemma SeparatorEnd(window: string, sep: string)
    requires |sep| > 0
    ensures var i := LastIndex(window, sep);
      i >= 0 ==> i + |sep| <= |window| && window[i + |sep| - 1] == sep[|sep| - 1]
  {
    var i := LastIndex(window, sep);
    LastIndexMeaning(window, sep);
    if i >= 0 {
      assert window[i..i + |sep|][|sep| - 1] == window[i + |sep| - 1];
    }
  }

  // ---- the same on byte positions ------------------------------------------------

  /** `sep` stands at byte `i`, wholly in the window and beyond three quarters of it. */
  predicate LateAt(s: string, cap: nat, sep: string, i: int) {
    cap * 3 / 4 < i && i + |sep| <= cap <= |s| && forall k :: 0 <= k < |sep| ==> s[i + k] == sep[k]
  }

  predicate HasLate(s: string, cap: nat, sep: string) { exists i :: 0 <= i <= cap && LateAt(s, cap, sep, i) }

  /** `cut` is right behind the last late `sep`. */
  predicate BehindLast(s: string, cap: nat, sep: string, cut: int) {
    LateAt(s, cap, sep, cut - |sep|) && forall k :: cut - |sep| < k <= cap ==> !LateAt(s, cap, sep, k)
  }

  /** A '<' before position `k` has no '>' between the two. */
  predicate OpenAt(s: string, k: int)
    requires k <= |s|
  {
    exists p :: 0 <= p < k && s[p] == '<' && forall q :: p < q < k ==> s[q] != '>'
  }

  /**
   * Where the source wants a text longer than `cap` to be cut: behind the last late blank line;
   * without one behind the last late newline, then sentence end, then blank; failing all, at the
   * last position outside every tag, or at `cap` if there is none.
   */
  predicate IsPreferred(s: string, cap: nat, cut: nat)
    requires cap < |s|
  {
    if HasLate(s, cap, "\n\n") then BehindLast(s, cap, "\n\n", cut)
    else if HasLate(s, cap, "\n") then BehindLast(s, cap, "\n", cut)
    else if HasLate(s, cap, ". ") then BehindLast(s, cap, ". ", cut)
    else if HasLate(s, cap, " ") then BehindLast(s, cap, " ", cut)
    else if exists k :: 0 < k <= cap && !OpenAt(s, k) then
      0 < cut <= cap && !OpenAt(s, cut) && forall k :: cut < k <= cap ==> OpenAt(s, k)
    else cut == cap
  }

  lemma LateIsLast(s: string, cap: nat, sep: string)
    requires cap < |s| && |sep| > 0
    ensures var i := LastIndex(s[..cap], sep);
      if i > cap * 3 / 4 then HasLate(s, cap, sep) && BehindLast(s, cap, sep, i + |sep|) else !HasLate(s, cap, sep)
  {
    var window, i := s[..cap], LastIndex(s[..cap], sep);
    LastIndexMeaning(window, sep);
    forall k | cap * 3 / 4 < k
      ensures LateAt(s, cap, sep, k) <==> MatchesAt(window, sep, k)
    {
      if k + |sep| <= cap {
        assert window[k..k + |sep|] == sep <==> forall m :: 0 <= m < |sep| ==> s[k + m] == sep[m];
      }
    }
  }

  lemma InsideIsOpen(s: string, k: nat)
    requires k <= |s|
    ensures InsideTag(s, k) <==> OpenAt(s, k)
    ensures k > 0 && s[k - 1] == '<' ==> OpenAt(s, k)
  {
    var t := s[..k];
    LastIndexMeaning(t, "<");
    LastIndexMeaning(t, ">");
    forall p | 0 <= p < k
      ensures MatchesAt(t, "<", p) <==> s[p] == '<'
      ensures MatchesAt(t, ">", p) <==> s[p] == '>'
    {
      assert t[p..p + 1] == [s[p]];
    }
    if InsideTag(s, k) {
      assert s[LastIndex(t, "<")] == '<';
    }
  }

  /** The code cuts where it says it prefers to. */
  lemma CutIsPreferred(s: string, cap: nat)
    requires cap < |s|
    ensures IsPreferred(s, cap, Cut(s, cap))
  {
    hide LastIndex, HasLate, BehindLast, InsideTag, OpenAt;
    LateIsLast(s, cap, "\n\n");
    LateIsLast(s, cap, "\n");
    LateIsLast(s, cap, ". ");
    LateIsLast(s, cap, " ");
    if SoftCut(s, cap) < 0 {
      RetreatMeaning(s, cap);
      forall k | 0 < k <= cap
        ensures OpenAt(s, k) <==> InsideTag(s, k)
        ensures s[k - 1] == '<' ==> OpenAt(s, k)
      {
        InsideIsOpen(s, k);
      }
    }
  }

  method PreferredCut(s: string, limit: nat) returns (cut: nat)
    ensures cut == Cut(s, limit)
    ensures limit >= |s| ==> cut == |s|
    ensures limit < |s| ==> IsPreferred(s, limit, cut)
  {
    if limit < |s| {
      CutIsPreferred(s, limit);
    }
    hide IsPreferred;
    var cap := limit;
    if cap >= |s| {
      return |s|;
    }
    var window := s[..cap];
    var i := LastIndex(window, "\n\n");
    if i > cap * 3 / 4 {
      return i + 2;
    }
    i := LastIndex(window, "\n");
    if i > cap * 3 / 4 {
      return i + 1;
    }
    i := LastIndex(window, ". ");
    if i > cap * 3 / 4 {
      return i + 2;
    }
    i := LastIndex(window, " ");
    if i > cap * 3 / 4 {
      return i + 1;
    }
    while cap > 0 && (s[cap - 1] == '<' || InsideTag(s, cap))
      invariant cap <= limit
      invariant Retreat(s, cap) == Retreat(s, limit)
    {
      cap := cap - 1;
    }
    if cap == 0 {
      return |window|;
    }
    return cap;
  }

  // ---- the loop (lines 45-83) -------------------------------------------------

  /** `carry` is `openTags`; the source's `remaining` is the carried tags re-opened before `rest`. */
  datatype State = State(parts: seq<string>, carry: seq<string>, rest: string)

  function Remaining(st: State): string { Openers(st.carry) + st.rest }

  predicate Going(st: State) { |Remaining(st)| > MAX }

  /** Lines 66-68: the chunk cut down so that it and `closers` bytes fit, but never below one byte. */
  function Shrunk(chunk: string, closers: nat): string {
    if |chunk| + closers <= MAX || |chunk| <= 1 then chunk
    else if closers >= MAX then chunk[..1]
    else chunk[..MAX - closers]
  }

  function CutOf(st: State): (cut: nat)
    requires Going(st)
    ensures 0 < cut <= CAP < |Remaining(st)|
  {
    CutInWindow(Remaining(st), CAP);
    Cut(Remaining(st), CAP)
  }

  function ChunkOf(st: State): string
    requires Going(st)
  {
    TrimRight(Remaining(st)[..CutOf(st)])
  }

  function SeedOf(st: State, seeded: bool): seq<string> { if seeded then st.carry else [] }

  function Round(st: State, seeded: bool): State
    requires Going(st)
  {
    var chunk := ChunkOf(st);
    var carried := StackAfter(SeedOf(st, seeded), chunk);
    var closers := Closers(carried);
    State(st.parts + [Shrunk(chunk, |closers|) + closers], carried, TrimLeft(Remaining(st)[CutOf(st)..]))
  }

  /** `kept` is as much of the chunk's front as fits beside `closers` bytes, but never less than one byte. */
  predicate LongestFit(kept: string, chunk: string, closers: nat) {
    && |kept| <= |chunk| && kept == chunk[..|kept|]
    && (|kept| + closers <= 4000 || |kept| <= 1)
    && (kept == chunk || |kept| + closers == 4000 || (|kept| == 1 && closers >= 4000))
  }

  /**
   * A round of a text of more than 4000 bytes: it is cut at the preferred position within 3936
   * bytes, the chunk loses its trailing blanks and the rest its leading ones, the tags open at
   * the cut are closed behind as much of the chunk as fits, and carried to the rest.
   */
  lemma RoundMeans(st: State, seeded: bool) returns (cut: nat, kept: string)
    requires |Remaining(st)| > 4000
    ensures Going(st) && 0 < cut <= 3936 && IsPreferred(Remaining(st), 3936, cut)
    ensures var text, next := Remaining(st), Round(st, seeded);
      && next.carry == StackAfter(if seeded then st.carry else [], TrimRight(text[..cut]))
      && next.rest == TrimLeft(text[cut..])
      && LongestFit(kept, TrimRight(text[..cut]), |Closers(next.carry)|)
      && next.parts == st.parts + [kept + Closers(next.carry)]
  {
    hide Cut, IsPreferred, StackAfter, Closers, TrimRight, TrimLeft;
    CutIsPreferred(Remaining(st), CAP);
    cut := CutOf(st);
    kept := Shrunk(ChunkOf(st), |Closers(Round(st, seeded).carry)|);
  }

  /** At most `n` rounds of the loop. */
  function Rounds(st: State, n: nat, seeded: bool): State
    decreases n
  {
    if n == 0 || !Going(st) then st else Rounds(Round(st, seeded), n - 1, seeded)
  }

  function Start(body: string): State { State([], [], body) }

  function Finish(st: State): seq<string> {
    if TrimSpace(Remaining(st)) != "" then st.parts + [Remaining(st)] else st.parts
  }

  /** The parts, or `None` while the loop still has rounds to do after `rounds` of them. */
  function Split(body: string, rounds: nat, seeded: bool): Option<seq<string>> {
    var b := TrimSpace(body);
    if b == "" then Some([])
    else if |b| <= MAX then Some([b])
    else
      var st := Rounds(Start(b), rounds, seeded);
      if Going(st) then None else Some(Finish(st))
  }

  method ShrinkToFit(whole: string, closers: string) returns (chunk: string)
    ensures chunk == Shrunk(whole, |closers|)
  {
    chunk := whole;
    while |chunk| + |closers| > MAX && |chunk| > 1
      invariant |chunk| <= |whole| && chunk == whole[..|chunk|]
      invariant |chunk| == |whole| || (|chunk| + |closers| >= MAX && |chunk| >= 1)
    {
      chunk := chunk[..|chunk| - 1];
    }
  }

  /** One turn of the loop, lines 46-78; `st` is the state the caller's variables stand for. */
  method SplitRound(remaining: string, openTags: seq<string>, ghost st: State)
    returns (part: string, carried: seq<string>, next: string)
    requires Going(st) && st.carry == openTags && Remaining(st) == remaining
    ensures Round(st, true).parts == st.parts + [part] && Round(st, true).carry == carried
    ensures Remaining(Round(st, true)) == next
  {
    var cut := PreferredCut(remaining, CAP);
    assert cut == CutOf(st);
    var chunk := TrimRight(remaining[..cut]);
    carried := TagStack(openTags, chunk);
    var closers := CloserForStack(carried);
    var shown := ShrinkToFit(chunk, closers);
    part := shown + closers;
    next := TrimLeft(remaining[cut..]);
    if |carried| > 0 {
      var reopened := OpenerForStack(carried);
      next := reopened + next;
    }
  }

  /** Lines 32-84, given `rounds` turns of its loop. */
  method SafeSplitForTelegram(input: string, rounds: nat) returns (result: Option<seq<string>>)
    ensures result == Split(input, rounds, true)
    ensures TrimSpace(input) == "" ==> result == Some([])
    ensures 0 < |TrimSpace(input)| <= 4000 ==> result == Some([TrimSpace(input)])
  {
    hide Round, TrimSpace;
    var body := TrimSpace(input);
    if body == "" {
      return Some([]);
    }
    if |body| <= MAX {
      return Some([body]);
    }
    var parts: seq<string> := [];
    var remaining := body;
    var openTags: seq<string> := [];
    var left := rounds;
    ghost var st := Start(body);
    while |remaining| > MAX && left > 0
      invariant st.parts == parts && st.carry == openTags && Remaining(st) == remaining
      invariant Rounds(st, left, true) == Rounds(Start(body), rounds, true)
      decreases left
    {
      var part, carried, next := SplitRound(remaining, openTags, st);
      parts := parts + [part];
      openTags := carried;
      remaining := next;
      st := Round(st, true);
      left := left - 1;
    }
    if |remaining| > MAX {
      return None;
    }
    if TrimSpace(remaining) != "" {
      parts := parts + [remaining];
    }
    return Some(parts);
  }
}
