/**
 * Whole runs of the splitter: every part valid HTML on its own, at most 4000 bytes, no
 * text lost, and the loop ends. The documented discipline has all four for every body cut
 * properly, tidy and lined ones among them. SplitAsWritten and SplitExact say more.
 */
module SplitRuns {
  import opened TextBytes
  import opened TagScan
  import opened SafeSplit
  import opened SplitTheorems

  predicate ValidPart(part: string) { WellNested(part) && |part| <= MAX }

  predicate AllValid(parts: seq<string>) { forall p :: p in parts ==> ValidPart(p) }

  /** Text whose cuts are clean: no blank in any tag, or a line break in every window. */
  predicate Cuttable(s: string) { Tidy(s) || Lined(s) }

  /** Properly nested, and no deeper than the reserve. */
  predicate Shallow(b: string) { WellNested(b) && ShallowTags(b) }

  /** Bodies the splitter is meant for. */
  predicate Good(b: string) { Shallow(b) && Cuttable(b) }

  // ---- no text is lost ---------------------------------------------------------------

  /** One part: the tags re-opened, the text taken from the body, the tags closed, the blanks dropped after it. */
  datatype Slice = Slice(before: seq<string>, piece: string, after: seq<string>, gap: string)

  function PartOf(s: Slice): string { Openers(s.before) + s.piece + Closers(s.after) }

  function PartsOf(slices: seq<Slice>): seq<string> {
    if slices == [] then [] else PartsOf(slices[..|slices| - 1]) + [PartOf(slices[|slices| - 1])]
  }

  /** The text of the slices, blanks included. */
  function Weave(slices: seq<Slice>): string {
    if slices == [] then [] else
      var last := slices[|slices| - 1];
      Weave(slices[..|slices| - 1]) + last.piece + last.gap
  }

  /** Each slice re-opens what the previous one closed, and only blanks are dropped. */
  predicate Linked(slices: seq<Slice>) {
    && (forall i :: 0 <= i < |slices| ==> AllBlank(slices[i].gap))
    && (forall i :: 0 < i < |slices| ==> slices[i].before == slices[i - 1].after)
    && (slices != [] ==> slices[0].before == [])
  }

  function LastAfter(slices: seq<Slice>): seq<string> {
    if slices == [] then [] else slices[|slices| - 1].after
  }

  /** The parts carry the whole body, up to blanks at the cuts. */
  ghost predicate Carries(parts: seq<string>, body: string) {
    exists slices :: Linked(slices) && PartsOf(slices) == parts && Weave(slices) == body && LastAfter(slices) == []
  }

  lemma Extend(slices: seq<Slice>, s: Slice)
    requires Linked(slices) && AllBlank(s.gap) && s.before == LastAfter(slices)
    ensures Linked(slices + [s]) && LastAfter(slices + [s]) == s.after
    ensures PartsOf(slices + [s]) == PartsOf(slices) + [PartOf(s)]
    ensures Weave(slices + [s]) == Weave(slices) + s.piece + s.gap
  {
    assert (slices + [s])[..|slices|] == slices;
  }

  // ---- the documented discipline -------------------------------------------------------

  /**
   * Where a documented run stands in the body `b`: what is sent, then the rest; the tags
   * carried are those open at that point of `b`.
   */
  ghost predicate Following(b: string, slices: seq<Slice>, st: State) {
    && Weave(slices) + st.rest == b
    && Linked(slices) && LastAfter(slices) == st.carry && PartsOf(slices) == st.parts
    && Run(START, Weave(slices)) == Open(st.carry)
    && AllSupported(st.carry) && AllValid(st.parts)
  }

  lemma FollowingIsSound(b: string, slices: seq<Slice>, st: State)
    requires Shallow(b) && Following(b, slices, st)
    ensures Sound(st) && Residue(st) == START && |Openers(st.carry)| <= RESERVE
  {
    RunConcat(START, Weave(slices), st.rest);
    assert b[..|Weave(slices)|] == Weave(slices);
    OpenersShape(st.carry);
  }

  /** The cut lies outside every tag and behind the re-opened ones. */
  predicate ProperCut(st: State)
    requires Going(st)
  {
    CleanCut(st) && |Openers(st.carry)| < CutOf(st)
  }

  /** So do all cuts of the next `n` documented rounds. It looks at the cuts, not at the parts. */
  predicate CutsProperly(st: State, n: nat)
    decreases n
  {
    n == 0 || !Going(st) || (ProperCut(st) && CutsProperly(Round(st, false), n - 1))
  }

  /** A round reads past the tags it re-opened. */
  lemma CutPastOpeners(st: State)
    requires Going(st) && AllSupported(st.carry) && |Openers(st.carry)| <= RESERVE && Tidy(st.rest)
    ensures |Openers(st.carry)| < CutOf(st)
  {
    var a, s := Openers(st.carry), Remaining(st);
    CutMeaning(s, CAP);
    OpenersEnd(st.carry);
    InsideTagIsScan(START, st.rest, 0);
    assert OutsideWithin(st.rest, 0);
    var k :| 0 < k <= LONGEST && !InsideTag(st.rest, k);
    InsideAfter(a, st.rest, k);
    InsideNext(s, |a| + k - 1);
  }

  /** The cuts of a body the splitter is meant for are clean, and so are those of what is left. */
  lemma CuttableRound(st: State, seeded: bool)
    requires Going(st) && AllSupported(st.carry) && |Openers(st.carry)| <= RESERVE && Cuttable(st.rest)
    ensures ProperCut(st) && Cuttable(Round(st, seeded).rest)
  {
    hide Round, Tidy, Lined, CleanCut, Openers, AllSupported;
    if Tidy(st.rest) {
      TidyCut(st);
      CutPastOpeners(st);
      TidyRound(st, seeded);
    } else {
      LinedCut(st);
      LinedRound(st, seeded);
    }
  }

  lemma Slicing(a: string, rest: string, cut: nat, m: nat, n: nat)
    requires |a| <= m <= cut && cut + n <= |a| + |rest|
    ensures (a + rest)[..cut][..m] == a + rest[..m - |a|]
    ensures (a + rest)[cut..][n..] == rest[cut + n - |a|..]
    ensures rest == rest[..m - |a|] + rest[m - |a|..cut + n - |a|] + rest[cut + n - |a|..]
    ensures rest[m - |a|..cut + n - |a|] == (a + rest)[..cut][m..] + (a + rest)[cut..][..n]
  {
  }

  /** Trimming the text before a cut does not reach into the re-opened tags. */
  lemma TrimStopsAtOpeners(names: seq<string>, pre: string)
    requires AllSupported(names) && Openers(names) <= pre
    ensures |Openers(names)| <= WithoutBlankTail(pre, |pre|)
  {
    hide Openers, WithoutBlankTail, AllSupported;
    var a, m := Openers(names), WithoutBlankTail(pre, |pre|);
    WithoutBlankTailMeaning(pre, |pre|);
    OpenersShape(names);
    if names == [] {
      assert a == [] by { NoOpeners(); }
    } else {
      assert |a| > 0 && pre[|a| - 1] == '>';
      assert forall k :: m <= k < |pre| ==> pre[k] in pre[m..|pre|];
    }
  }

  lemma NoOpeners()
    ensures Openers([]) == []
  {
  }

  /** A round's chunk is the re-opened tags and a piece of the rest; only blanks are dropped. */
  lemma Pieces(st: State, seeded: bool) returns (piece: string, gap: string)
    requires Going(st) && AllSupported(st.carry) && |Openers(st.carry)| < CutOf(st)
    ensures ChunkOf(st) == Openers(st.carry) + piece && AllBlank(gap)
    ensures st.rest == piece + gap + Round(st, seeded).rest
    ensures |piece + gap| > 0
  {
    hide StackAfter, Closers, Shrunk, Openers, WithoutBlankTail, LeadingBlanks, AllSupported;
    var a, cut := Openers(st.carry), CutOf(st);
    var pre, post := (a + st.rest)[..cut], (a + st.rest)[cut..];
    var m, n := WithoutBlankTail(pre, |pre|), LeadingBlanks(post);
    assert pre[..|a|] == a;
    TrimStopsAtOpeners(st.carry, pre);
    Slicing(a, st.rest, cut, m, n);
    piece, gap := st.rest[..m - |a|], st.rest[m - |a|..cut + n - |a|];
    assert AllBlank(gap) by {
      WithoutBlankTailMeaning(pre, |pre|);
      LeadingBlanksMeaning(post);
      assert pre[m..] == pre[m..|pre|];
    }
  }

  /** The text sent so far, one slice further on, still leaves open exactly what is carried. */
  lemma SentSoFar(carry: seq<string>, sent: string, piece: string, gap: string, next: seq<string>)
    requires Run(START, sent) == Open(carry) && AllSupported(carry) && AllBlank(gap)
    requires Run(START, Openers(carry) + piece) == Open(next)
    ensures Run(START, sent + piece + gap) == Open(next)
  {
    RunConcat(START, sent, piece);
    RunConcat(START, Openers(carry), piece);
    OpenersEnd(carry);
    RunConcat(START, sent + piece, gap);
    BlanksKeepState(Open(next), gap);
  }

  lemma Regroup(w: string, p: string, g: string, r: string)
    ensures w + (p + g + r) == w + p + g + r
  {
  }

  /** A round that emits the slice `s` keeps the run following the body. */
  lemma FollowOn(b: string, slices: seq<Slice>, st: State, s: Slice, next: State)
    requires Following(b, slices, st)
    requires s.before == st.carry && s.after == next.carry && AllBlank(s.gap)
    requires st.rest == s.piece + s.gap + next.rest
    requires Run(START, Weave(slices) + s.piece + s.gap) == Open(next.carry)
    requires next.parts == st.parts + [PartOf(s)] && ValidPart(PartOf(s))
    requires AllSupported(next.carry)
    ensures Following(b, slices + [s], next)
  {
    Extend(slices, s);
    Regroup(Weave(slices), s.piece, s.gap, next.rest);
  }

  /** The closers of what is carried fit, because they are the closers at a point of the body. */
  lemma CarryIsShallow(b: string, sent: string, rest: string, carry: seq<string>)
    requires ShallowTags(b) && b == sent + rest && Run(START, sent) == Open(carry)
    ensures |Closers(carry)| <= RESERVE
  {
    assert b[..|sent|] == sent;
  }

  lemma DocumentedRound(b: string, slices: seq<Slice>, st: State) returns (more: seq<Slice>)
    requires Shallow(b) && Following(b, slices, st) && Going(st) && ProperCut(st)
    ensures Following(b, more, Round(st, false)) && |Round(st, false).rest| < |st.rest|
  {
    FollowingIsSound(b, slices, st);
    RoundResidue(st, false);
    var piece, gap := Pieces(st, false);
    var next := Round(st, false);
    var s := Slice(st.carry, piece, next.carry, gap);
    SentSoFar(st.carry, Weave(slices), piece, gap, next.carry);
    var sent := Weave(slices) + piece + gap;
    Regroup(Weave(slices), piece, gap, next.rest);
    CarryIsShallow(b, sent, next.rest, next.carry);
    RoundPart(st, false);
    FollowOn(b, slices, st, s, next);
    more := slices + [s];
  }

  lemma {:induction false} DocumentedRun(b: string, slices: seq<Slice>, st: State, n: nat) returns (all: seq<Slice>)
    requires Shallow(b) && Following(b, slices, st) && CutsProperly(st, n) && |st.rest| <= n
    ensures Following(b, all, Rounds(st, n, false)) && !Going(Rounds(st, n, false))
    decreases n
  {
    hide Round, Following, Run, Shallow, ProperCut;
    FollowingIsSound(b, slices, st);
    if Going(st) {
      var more := DocumentedRound(b, slices, st);
      all := DocumentedRun(b, more, Round(st, false), n - 1);
    } else {
      all := slices;
    }
  }

  /** Bodies whose cuts are clean are cut properly throughout. */
  lemma {:induction false} CuttableRun(b: string, slices: seq<Slice>, st: State, n: nat)
    requires Shallow(b) && Following(b, slices, st) && Cuttable(st.rest)
    ensures CutsProperly(st, n)
    decreases n
  {
    hide Round, Following, Run, Shallow, ProperCut, Cuttable;
    if n > 0 && Going(st) {
      FollowingIsSound(b, slices, st);
      CuttableRound(st, false);
      var more := DocumentedRound(b, slices, st);
      CuttableRun(b, more, Round(st, false), n - 1);
    }
  }

  // ---- the end of a run --------------------------------------------------------------

  lemma {:induction false} TrimKeepsLast(s: string)
    requires s != [] && !IsSpace(s[|s| - 1])
    ensures TrimSpace(s) != []
    ensures TrimSpaceLeft(s) != [] && !IsSpace(TrimSpaceLeft(s)[|TrimSpaceLeft(s)| - 1])
    decreases |s|
  {
    if IsSpace(s[0]) {
      TrimKeepsLast(s[1..]);
    }
  }

  lemma {:induction false} TrimRightEnd(s: string)
    ensures TrimSpaceRight(s) == [] || !IsSpace(TrimSpaceRight(s)[|TrimSpaceRight(s)| - 1])
    decreases |s|
  {
    if s != [] && IsSpace(s[|s| - 1]) {
      TrimRightEnd(s[..|s| - 1]);
    }
  }

  lemma {:induction false} OnlySpaces(s: string, c: char)
    requires TrimSpaceLeft(s) == [] && !IsSpace(c)
    ensures c !in s
    decreases |s|
  {
    if s != [] {
      OnlySpaces(s[1..], c);
    }
  }

  lemma {:induction false} SpacesOnTheRight(s: string, c: char)
    requires TrimSpaceRight(s) == [] && !IsSpace(c)
    ensures c !in s
    decreases |s|
  {
    if s != [] {
      SpacesOnTheRight(s[..|s| - 1], c);
    }
  }

  lemma {:induction false} TrimLeftKeeps(s: string, c: char)
    requires c in s && !IsSpace(c)
    ensures c in TrimSpaceLeft(s)
    decreases |s|
  {
    if IsSpace(s[0]) {
      TrimLeftKeeps(s[1..], c);
    }
  }

  /** A message made of white space only opens no tag. */
  lemma BlankMessage(s: string)
    requires TrimSpace(s) == []
    ensures WellNested(s)
  {
    if '<' in s {
      TrimLeftKeeps(s, '<');
      SpacesOnTheRight(TrimSpaceLeft(s), '<');
    }
    RunOutside(START, s);
  }

  /** The last message of a documented run is the last slice. */
  lemma LastPart(b: string, slices: seq<Slice>, st: State)
    requires Shallow(b) && Following(b, slices, st) && !Going(st)
    requires b != [] && !IsSpace(b[|b| - 1])
    ensures Following(b, slices, st) && AllValid(Finish(st)) && Carries(Finish(st), b)
  {
    FollowingIsSound(b, slices, st);
    ResidueOfRemaining(st);
    var last := Slice(st.carry, st.rest, [], "");
    Extend(slices, last);
    var all := slices + [last];
    var rem := Remaining(st);
    assert PartOf(last) == rem by { assert Closers([]) == ""; }
    assert Weave(all) == b by { assert Weave(slices) + st.rest + "" == b; }
    if TrimSpace(rem) == [] {
      BlankRest(st);
      assert st.rest == [] by {
        if st.rest != [] {
          assert rem[|rem| - 1] == b[|b| - 1];
          TrimKeepsLast(rem);
        }
      }
      assert Linked(slices) && PartsOf(slices) == Finish(st) && Weave(slices) == b && LastAfter(slices) == [];
    } else {
      assert ValidPart(rem);
      assert Linked(all) && PartsOf(all) == Finish(st) && Weave(all) == b && LastAfter(all) == [];
    }
  }

  lemma BlankRest(st: State)
    requires AllSupported(st.carry) && TrimSpace(Remaining(st)) == []
    ensures st.carry == []
  {
    var s := Remaining(st);
    if st.carry != [] {
      OpenersShape(st.carry);
      var a := Openers(st.carry);
      assert s[|a| - 1] == '>';
      TrimLeftKeeps(s, '>');
      SpacesOnTheRight(TrimSpaceLeft(s), '>');
    }
  }

  lemma StartFollows(b: string)
    ensures Following(b, [], Start(b))
  {
    assert Weave([]) + b == b;
  }

  /** A body cut properly throughout is split into valid parts that carry all of it. */
  lemma ProperlyCutSplit(body: string)
    requires Shallow(TrimSpace(body)) && CutsProperly(Start(TrimSpace(body)), |TrimSpace(body)|)
    ensures var r := Split(body, |body|, false);
      r.Some? && AllValid(r.value) && Carries(r.value, TrimSpace(body))
  {
    hide CutsProperly, Rounds, Shallow, TrimSpaceLeft, TrimSpaceRight, Following, ValidPart;
    var b := TrimSpace(body);
    if b == "" {
      assert Linked([]) && PartsOf([]) == [] && Weave([]) == b && LastAfter([]) == [];
    } else {
      TrimRightEnd(TrimSpaceLeft(body));
      StartFollows(b);
      assert Remaining(Start(b)) == b;
      if |b| <= MAX {
        TrimKeepsLast(b);
        LastPart(b, [], Start(b));
        assert Finish(Start(b)) == [b];
      } else {
        TrimIsShorter(body);
        var slices := DocumentedRun(b, [], Start(b), |b|);
        LastPart(b, slices, Rounds(Start(b), |b|, false));
        RoundsLonger(Start(b), |b|, |body|, false);
      }
    }
  }

  lemma {:induction false} RoundsAdd(st: State, m: nat, n: nat, seeded: bool)
    ensures Rounds(st, m + n, seeded) == Rounds(Rounds(st, m, seeded), n, seeded)
    decreases m
  {
    hide Round, Going;
    if m > 0 && Going(st) {
      RoundsAdd(Round(st, seeded), m - 1, n, seeded);
    }
  }

  /** A run that has ended stays as it is. */
  lemma RoundsLonger(st: State, m: nat, n: nat, seeded: bool)
    requires m <= n && !Going(Rounds(st, m, seeded))
    ensures Rounds(st, n, seeded) == Rounds(st, m, seeded)
  {
    hide Going, Round;
    RoundsAdd(st, m, n - m, seeded);
  }

  /**
   * The documented discipline: for every body whose markup is properly nested and no deeper
   * than the reserve, and whose cuts are clean, the loop ends, every part is valid HTML of at most 4000 bytes,
   * and the parts carry the whole body.
   */
  lemma DocumentedSplit(body: string)
    requires Good(TrimSpace(body))
    ensures var r := Split(body, |body|, false);
      r.Some? && AllValid(r.value) && Carries(r.value, TrimSpace(body))
  {
    hide Following, Cuttable, Shallow, CutsProperly, Split, AllValid, Carries, TrimSpace;
    var b := TrimSpace(body);
    StartFollows(b);
    CuttableRun(b, [], Start(b), |b|);
    ProperlyCutSplit(body);
  }

  lemma {:induction false} TrimIsShorter(s: string)
    ensures |TrimSpace(s)| <= |s|
  {
    TrimLeftShorter(s);
    TrimRightShorter(TrimSpaceLeft(s));
  }

  lemma {:induction false} TrimLeftShorter(s: string)
    ensures |TrimSpaceLeft(s)| <= |s|
    decreases |s|
  {
    if s != [] && IsSpace(s[0]) {
      TrimLeftShorter(s[1..]);
    }
  }

  lemma {:induction false} TrimRightShorter(s: string)
    ensures |TrimSpaceRight(s)| <= |s|
    decreases |s|
  {
    if s != [] && IsSpace(s[|s| - 1]) {
      TrimRightShorter(s[..|s| - 1]);
    }
  }
}
