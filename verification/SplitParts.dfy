/**
 * What every body gets from the splitter, tidy or not, under either discipline: how long its
 * parts are, and where text is lost.
 */
module SplitParts {
  import opened TextBytes
  import opened TagScan
  import opened SafeSplit
  import opened SplitRuns
  import opened SplitAsWritten

  /** No message in the making starts with a blank. */
  predicate StartsInk(st: State) { Remaining(st) != [] ==> !IsBlank(Remaining(st)[0]) }

  predicate Inky(st: State) { StartsInk(st) && AllSupported(st.carry) }

  lemma ChunkIsInk(st: State)
    requires Going(st) && StartsInk(st)
    ensures ChunkOf(st) != []
  {
    hide WithoutBlankTail;
    var pre := Remaining(st)[..CutOf(st)];
    WithoutBlankTailMeaning(pre, |pre|);
    assert pre[0] == Remaining(st)[0] && pre[0..|pre|] == pre && pre[0] in pre;
  }

  lemma InkyRound(st: State, seeded: bool)
    requires Going(st) && Inky(st)
    ensures Inky(Round(st, seeded))
  {
    hide Closers, Openers, Run, AllSupported, WithoutBlankTail, LeadingBlanks;
    var next, post := Round(st, seeded), Remaining(st)[CutOf(st)..];
    assert AllSupported(SeedOf(st, seeded)) by { NoneSupported(); }
    RunSupported(Open(SeedOf(st, seeded)), ChunkOf(st));
    LeadingBlanksMeaning(post);
    if next.carry == [] {
      NoOpeners();
      assert Remaining(next) == next.rest;
    } else {
      FirstIsTag(next.carry);
    }
  }

  // ---- the size of a part -------------------------------------------------------------------

  /** A part breaks the 4000-byte cap exactly if its closers alone fill it. */
  lemma PartSize(st: State, seeded: bool)
    requires Going(st) && Inky(st)
    ensures var next := Round(st, seeded);
      |next.parts| == |st.parts| + 1 && st.parts <= next.parts
      && (|next.parts[|st.parts|]| <= MAX <==> |Closers(next.carry)| < MAX)
  {
    hide ChunkOf, Closers, StackAfter, Remaining;
    ChunkIsInk(st);
  }

  /** In none of the next `n` rounds do the closers alone fill a message. */
  predicate ClosersFit(st: State, n: nat, seeded: bool)
    decreases n
  {
    n == 0 || !Going(st)
    || (|Closers(Round(st, seeded).carry)| < MAX && ClosersFit(Round(st, seeded), n - 1, seeded))
  }

  predicate AllFit(parts: seq<string>, from: nat) { forall i :: from <= i < |parts| ==> |parts[i]| <= MAX }

  lemma {:induction false} NewPartsFit(st: State, n: nat, seeded: bool)
    requires Inky(st)
    ensures var end := Rounds(st, n, seeded);
      st.parts <= end.parts && (AllFit(end.parts, |st.parts|) <==> ClosersFit(st, n, seeded))
    decreases n
  {
    hide Round, Going, Inky, Closers;
    if n > 0 && Going(st) {
      PartSize(st, seeded);
      InkyRound(st, seeded);
      var next := Round(st, seeded);
      NewPartsFit(next, n - 1, seeded);
      var end := Rounds(st, n, seeded);
      assert end.parts[|st.parts|] == next.parts[|st.parts|];
    }
  }

  lemma {:induction false} TrimmedStart(s: string)
    ensures TrimSpaceLeft(s) == [] || !IsSpace(TrimSpaceLeft(s)[0])
    decreases |s|
  {
    if s != [] && IsSpace(s[0]) {
      TrimmedStart(s[1..]);
    }
  }

  lemma {:induction false} TrimRightIsPrefix(s: string)
    ensures TrimSpaceRight(s) <= s
    decreases |s|
  {
    if s != [] && IsSpace(s[|s| - 1]) {
      TrimRightIsPrefix(s[..|s| - 1]);
    }
  }

  lemma StartIsInky(body: string)
    ensures Inky(Start(TrimSpace(body)))
  {
    var st := Start(TrimSpace(body));
    TrimmedStart(body);
    TrimRightIsPrefix(TrimSpaceLeft(body));
    NoneSupported();
    assert Remaining(st) == TrimSpace(body);
  }

  /** For every body, whatever its markup: the parts keep the cap exactly if no closers alone ever fill it. */
  lemma PartSizes(body: string, rounds: nat, seeded: bool)
    requires Split(body, rounds, seeded).Some?
    ensures AllFit(Split(body, rounds, seeded).value, 0) <==> ClosersFit(Start(TrimSpace(body)), rounds, seeded)
  {
    hide TrimSpace, ClosersFit, Inky, Rounds;
    var b := TrimSpace(body);
    StartIsInky(body);
    assert Remaining(Start(b)) == b;
    NewPartsFit(Start(b), rounds, seeded);
    if |b| <= MAX {
      NoRound(Start(b), rounds, seeded);
    } else {
      var end, parts := Rounds(Start(b), rounds, seeded), Split(body, rounds, seeded).value;
      assert end.parts <= parts && |parts| <= |end.parts| + 1;
      assert |parts| > |end.parts| ==> |parts[|end.parts|]| <= MAX;
    }
  }

  lemma NoRound(st: State, n: nat, seeded: bool)
    requires !Going(st)
    ensures ClosersFit(st, n, seeded)
  {
  }

  // ---- text that is lost -----------------------------------------------------------------------

  /** Chunk and closers do not fit one message. */
  predicate Overflows(st: State, seeded: bool)
    requires Going(st)
  {
    |ChunkOf(st)| > 1 && |ChunkOf(st)| + |Closers(Round(st, seeded).carry)| > MAX
  }

  /**
   * A round sends `front`, drops the blanks `gap` and leaves the rest; `lost`, what the shrink
   * loop cuts off, is neither sent nor left. Something is lost exactly when chunk and closers
   * do not fit together.
   */
  lemma RoundLoses(st: State, seeded: bool) returns (front: string, lost: string, gap: string)
    requires Going(st)
    ensures Remaining(st) == front + lost + gap + Round(st, seeded).rest && AllBlank(gap)
    ensures Round(st, seeded).parts == st.parts + [front + Closers(Round(st, seeded).carry)]
    ensures lost != "" <==> Overflows(st, seeded)
    ensures lost != "" ==> !IsBlank(lost[|lost| - 1])
  {
    hide Round, Closers, Shrunk, WithoutBlankTail, LeadingBlanks, Cut, Inky, AllBlank, Going, Remaining;
    var s, cut, next := Remaining(st), CutOf(st), Round(st, seeded);
    var m, n := WithoutBlankTail(s[..cut], |s[..cut]|), LeadingBlanks(s[cut..]);
    BlanksDropped(s[..cut], s[cut..]);
    Resplit(s, cut, m, n);
    RoundShape(st, seeded);
    front := Shrunk(ChunkOf(st), |Closers(next.carry)|);
    ShrunkIsPrefix(ChunkOf(st), |Closers(next.carry)|);
    lost, gap := ChunkOf(st)[|front|..], s[..cut][m..] + s[cut..][..n];
    assert ChunkOf(st) == front + lost;
    WithoutBlankTailMeaning(s[..cut], |s[..cut]|);
  }

  /** In none of the next `n` rounds do they fail to fit. */
  predicate NeverOverflows(st: State, n: nat, seeded: bool)
    decreases n
  {
    n == 0 || !Going(st) || (!Overflows(st, seeded) && NeverOverflows(Round(st, seeded), n - 1, seeded))
  }

  /** One round: the text sent, the text cut off, the blanks dropped, and the state after it. */
  datatype Turn = Turn(front: string, lost: string, gap: string, next: State)

  /** A run from `st` to `end`, each turn of which accounts for every byte of the remainder it met. */
  predicate Accounts(st: State, turns: seq<Turn>, end: State)
    decreases |turns|
  {
    if turns == [] then st == end else
      var t := turns[0];
      && Remaining(st) == t.front + t.lost + t.gap + t.next.rest
      && AllBlank(t.gap) && (t.lost != "" ==> !IsBlank(t.lost[|t.lost| - 1]))
      && t.next.parts == st.parts + [t.front + Closers(t.next.carry)]
      && Accounts(t.next, turns[1..], end)
  }

  predicate LosesNothing(turns: seq<Turn>) { forall i :: 0 <= i < |turns| ==> turns[i].lost == "" }

  lemma FirstLoses(first: Turn, later: seq<Turn>)
    ensures LosesNothing([first] + later) <==> first.lost == "" && LosesNothing(later)
  {
    var turns := [first] + later;
    assert turns[0] == first && forall i :: 0 <= i < |later| ==> turns[i + 1] == later[i];
    if LosesNothing(turns) {
      forall i | 0 <= i < |later|
        ensures later[i].lost == ""
      {
        assert turns[i + 1].lost == "";
      }
    }
  }

  /** A whole run, of any body under either discipline, loses no text exactly if no round overflows. */
  lemma {:induction false} RunLoses(st: State, n: nat, seeded: bool) returns (turns: seq<Turn>)
    ensures Accounts(st, turns, Rounds(st, n, seeded))
    ensures LosesNothing(turns) <==> NeverOverflows(st, n, seeded)
    decreases n
  {
    hide Round, Going, Overflows, AllBlank, Closers, Remaining;
    if n == 0 || !Going(st) {
      turns := [];
    } else {
      var front, lost, gap := RoundLoses(st, seeded);
      var later := RunLoses(Round(st, seeded), n - 1, seeded);
      var first := Turn(front, lost, gap, Round(st, seeded));
      turns := [first] + later;
      assert turns[1..] == later;
      FirstLoses(first, later);
    }
  }

  lemma Resplit(s: string, cut: nat, m: nat, n: nat)
    requires m <= cut <= |s| && cut + n <= |s|
    ensures s == s[..cut][..m] + (s[..cut][m..] + s[cut..][..n]) + s[cut..][n..]
  {
  }

  lemma BlanksDropped(pre: string, post: string)
    ensures AllBlank(pre[WithoutBlankTail(pre, |pre|)..] + post[..LeadingBlanks(post)])
  {
    hide WithoutBlankTail, LeadingBlanks;
    var m := WithoutBlankTail(pre, |pre|);
    WithoutBlankTailMeaning(pre, |pre|);
    LeadingBlanksMeaning(post);
    assert pre[m..] == pre[m..|pre|];
  }

  lemma RoundShape(st: State, seeded: bool)
    requires Going(st)
    ensures var next, closers := Round(st, seeded), Closers(Round(st, seeded).carry);
      && next.parts == st.parts + [Shrunk(ChunkOf(st), |closers|) + closers]
      && next.rest == Remaining(st)[CutOf(st)..][LeadingBlanks(Remaining(st)[CutOf(st)..])..]
    ensures ChunkOf(st) == Remaining(st)[..CutOf(st)][..WithoutBlankTail(Remaining(st)[..CutOf(st)], |Remaining(st)[..CutOf(st)]|)]
  {
    hide Closers, StackAfter, Shrunk, Cut, Remaining, WithoutBlankTail, LeadingBlanks;
  }

  lemma ShrunkIsPrefix(chunk: string, closers: nat)
    ensures Shrunk(chunk, closers) <= chunk
    ensures Shrunk(chunk, closers) == chunk <==> |chunk| <= 1 || |chunk| + closers <= MAX
  {
  }
}
