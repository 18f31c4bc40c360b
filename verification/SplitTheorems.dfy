/**
 * One round of the splitter: where a tidy body may be cut, and what a round does to the
 * tags that are carried on. The whole runs are in SplitRuns.
 */
module SplitTheorems {
  import opened TextBytes
  import opened TagScan
  import opened SafeSplit

  // ---- the conditions, all of them checkable on the body -------------------------

  /** No blank inside a tag: a cut at a blank then never lands inside one. */
  predicate BlankFreeTags(s: string) {
    forall i :: 0 <= i < |s| && IsBlank(s[i]) ==> !InsideTag(s, i)
  }

  /** The longest tag the window can hold behind a full reserve of re-opened tags. */
  const LONGEST := CAP - RESERVE

  predicate OutsideWithin(s: string, i: nat) {
    i + LONGEST <= |s| ==> exists k :: i < k <= i + LONGEST && !InsideTag(s, k)
  }

  /** Every tag ends within `LONGEST` bytes. */
  predicate ShortTags(s: string) {
    forall i: nat :: i <= |s| && !InsideTag(s, i) ==> OutsideWithin(s, i)
  }

  /** The closers fit the reserve wherever the body is cut. */
  predicate ShallowTags(s: string) {
    forall i :: 0 <= i <= |s| ==> |Closers(Run(START, s[..i]).stack)| <= RESERVE
  }

  predicate Tidy(s: string) { BlankFreeTags(s) && ShortTags(s) }

  // ---- positions inside and outside tags -----------------------------------------

  /** Whether a position is inside a tag does not depend on the open tags. */
  lemma {:induction false} TagIgnoresStack(s: Scan, t: Scan, text: string)
    requires s.tag == t.tag
    ensures Run(s, text).tag == Run(t, text).tag
    decreases |text|
  {
    if text != [] {
      TagIgnoresStack(Step(s, text[0]), Step(t, text[0]), text[1..]);
    }
  }

  /** Behind text that ends outside a tag, positions keep their meaning. */
  lemma InsideAfter(a: string, b: string, i: nat)
    requires Run(START, a).tag.None? && i <= |b|
    ensures InsideTag(a + b, |a| + i) <==> InsideTag(b, i)
  {
    hide *;
    InsideAfterAt(a, b, i, a + b, |a| + i);
  }

  lemma InsideAfterAt(a: string, b: string, i: nat, s: string, k: nat)
    requires Run(START, a).tag.None? && i <= |b| && s == a + b && k == |a| + i
    ensures InsideTag(s, k) <==> InsideTag(b, i)
  {
    var front, back := s[..k], b[..i];
    assert front == a + back;
    assert Run(START, front).tag == Run(START, back).tag by {
      RunConcat(START, a, back);
      TagIgnoresStack(Run(START, a), START, back);
    }
    InsideTagIsScan(START, s, k);
    InsideTagIsScan(START, b, i);
  }

  lemma TidySuffix(a: string, b: string)
    requires Tidy(a + b) && Run(START, a).tag.None?
    ensures Tidy(b)
  {
    var s := a + b;
    forall i | 0 <= i < |b| && IsBlank(b[i])
      ensures !InsideTag(b, i)
    {
      assert s[|a| + i] == b[i];
      InsideAfter(a, b, i);
    }
    forall i: nat | i <= |b| && !InsideTag(b, i)
      ensures OutsideWithin(b, i)
    {
      InsideAfter(a, b, i);
      assert OutsideWithin(s, |a| + i);
      if i + LONGEST <= |b| {
        var k :| |a| + i < k <= |a| + i + LONGEST && !InsideTag(s, k);
        InsideAfter(a, b, k - |a|);
        assert i < k - |a| <= i + LONGEST && !InsideTag(b, k - |a|);
      }
    }
  }

  lemma {:induction false} OpenersShape(names: seq<string>)
    requires AllSupported(names)
    ensures forall c :: c in Openers(names) ==> !IsBlank(c)
    ensures names != [] ==> Openers(names)[|Openers(names)| - 1] == '>'
    ensures |Openers(names)| <= |Closers(names)|
    decreases |names|
  {
    if names != [] {
      var front, last := names[..|names| - 1], names[|names| - 1];
      OpenersShape(front);
      SupportedName(last);
    }
  }

  // ---- one round -------------------------------------------------------------------

  predicate CleanCut(st: State)
    requires Going(st)
  {
    !InsideTag(Remaining(st), CutOf(st))
  }

  /** The scanner's verdict on what is still to be sent, read from the carried tags. */
  function Residue(st: State): Scan { Run(Open(st.carry), st.rest) }

  predicate Sound(st: State) {
    AllSupported(st.carry) && Residue(st).tag.None? && Residue(st).nested
  }

  lemma SoundSupported(st: State)
    requires Sound(st)
    ensures AllSupported(st.carry)
  {
  }

  lemma ResidueOfRemaining(st: State)
    requires AllSupported(st.carry)
    ensures Run(START, Remaining(st)) == Residue(st)
    ensures forall seed :: Residue(st).nested ==> Run(Open(seed), Remaining(st)) == Under(seed, Residue(st))
  {
    RunConcat(START, Openers(st.carry), st.rest);
    RunOpeners(START, st.carry);
    assert [] + st.carry == st.carry;
    forall seed | Residue(st).nested
      ensures Run(Open(seed), Remaining(st)) == Under(seed, Residue(st))
    {
      RunUnder(seed, START, Remaining(st));
      assert seed + [] == seed;
    }
  }

  lemma {:induction false} BlanksKeepState(s: Scan, blanks: string)
    requires s.tag.None? && AllBlank(blanks)
    ensures Run(s, blanks) == s
  {
    RunOutside(s, blanks);
  }

  /** Trailing blanks outside tags do not change where a scan stands. */
  lemma TrimmedChunk(s: Scan, pre: string)
    requires s.tag.None? && Run(s, pre).tag.None?
    ensures Run(s, TrimRight(pre)) == Run(s, pre)
  {
    var m := WithoutBlankTail(pre, |pre|);
    var chunk, blanks := pre[..m], pre[m..];
    assert pre[m..|pre|] == blanks;
    WithoutBlankTailMeaning(pre, |pre|);
    assert pre == chunk + blanks;
    RunConcat(s, chunk, blanks);
    var t := Run(s, chunk);
    if t.tag.Some? {
      RunInside(t, blanks);
    } else {
      BlanksKeepState(t, blanks);
    }
  }

  lemma TrimmedRest(s: Scan, post: string)
    requires s.tag.None?
    ensures Run(s, TrimLeft(post)) == Run(s, post)
  {
    var n := LeadingBlanks(post);
    LeadingBlanksMeaning(post);
    assert post == post[..n] + post[n..];
    RunConcat(s, post[..n], post[n..]);
    BlanksKeepState(s, post[..n]);
  }

  /**
   * The equation behind everything below. After a round the tags carried are those really
   * open at the cut, and what is left to send reads as before -- on top of the seed. With
   * the documented empty seed nothing accumulates; with the code's seed every round leaves
   * the carried tags open once more.
   */
  lemma RoundResidue(st: State, seeded: bool)
    requires Going(st) && CleanCut(st) && Sound(st)
    ensures Residue(Round(st, seeded)) == Under(SeedOf(st, seeded), Residue(st))
    ensures Sound(Round(st, seeded))
    ensures Run(Open(SeedOf(st, seeded)), ChunkOf(st)) == Open(Round(st, seeded).carry)
  {
    var s, cut, seed := Remaining(st), CutOf(st), SeedOf(st, seeded);
    var pre, post := s[..cut], s[cut..];
    assert s == pre + post;
    ResidueOfRemaining(st);
    RunConcat(Open(seed), pre, post);
    var mid := Run(Open(seed), pre);
    NestedOnlyFalls(mid, post);
    InsideTagIsScan(Open(seed), s, cut);
    TrimmedChunk(Open(seed), pre);
    RunSupported(Open(seed), pre);
    TrimmedRest(mid, post);
  }

  /** A round that starts from an empty seed emits a valid part, if the closers fit. */
  lemma RoundPart(st: State, seeded: bool)
    requires Going(st) && CleanCut(st) && Sound(st) && SeedOf(st, seeded) == []
    requires |Closers(Round(st, seeded).carry)| <= RESERVE
    ensures Round(st, seeded).parts == st.parts + [ChunkOf(st) + Closers(Round(st, seeded).carry)]
    ensures WellNested(ChunkOf(st) + Closers(Round(st, seeded).carry))
    ensures |ChunkOf(st) + Closers(Round(st, seeded).carry)| <= MAX
  {
    RoundResidue(st, seeded);
    var chunk, carried := ChunkOf(st), Round(st, seeded).carry;
    RunConcat(START, chunk, Closers(carried));
    RunClosers(START, carried);
    assert [] + carried == carried;
    assert |chunk| <= CAP;
  }

  // ---- cuts of tidy text ---------------------------------------------------------------

  /** The scan one byte further on. */
  lemma InsideNext(s: string, k: nat)
    requires k < |s|
    ensures s[k] == '<' ==> InsideTag(s, k + 1)
    ensures s[k] != '<' && !InsideTag(s, k) ==> !InsideTag(s, k + 1)
  {
    InsideTagIsScan(START, s, k);
    InsideTagIsScan(START, s, k + 1);
    assert s[..k + 1] == s[..k] + [s[k]];
    RunConcat(START, s[..k], [s[k]]);
    var t := Run(START, s[..k]);
    assert Run(t, [s[k]]) == Run(Step(t, s[k]), []);
  }

  lemma OpenersEnd(names: seq<string>)
    requires AllSupported(names)
    ensures Run(START, Openers(names)) == Open(names)
  {
    RunOpeners(START, names);
    assert [] + names == names;
  }

  /** A re-opened tag in front of tidy text leaves it tidy. */
  lemma TidyOpener(name: string, s: string)
    requires Supported(name) && Tidy(s)
    ensures Tidy(Opener(name) + s)
  {
    hide InsideTag, Supported;
    var a := Opener(name);
    var t := a + s;
    SupportedName(name);
    RunToken(START, name);
    forall i | 0 <= i < |a|
      ensures !IsBlank(t[i])
    {
      assert t[i] == a[i];
    }
    forall i | 0 <= i < |t| && IsBlank(t[i])
      ensures !InsideTag(t, i)
    {
      assert t[i] == s[i - |a|];
      InsideAfter(a, s, i - |a|);
    }
    forall i: nat | i <= |t| && !InsideTag(t, i)
      ensures OutsideWithin(t, i)
    {
      if i + LONGEST <= |t| {
        if i < |a| {
          InsideAfter(a, s, 0);
          assert i < |a| <= i + LONGEST && !InsideTag(t, |a|) by { InsideTagIsScan(START, s, 0); }
        } else {
          InsideAfter(a, s, i - |a|);
          assert OutsideWithin(s, i - |a|);
          var k :| i - |a| < k <= i - |a| + LONGEST && !InsideTag(s, k);
          InsideAfter(a, s, k);
          assert i < |a| + k <= i + LONGEST && !InsideTag(t, |a| + k);
        }
      }
    }
  }

  lemma {:induction false} TidyOpeners(names: seq<string>, s: string)
    requires AllSupported(names) && Tidy(s)
    ensures Tidy(Openers(names) + s)
    decreases |names|
  {
    if names == [] {
      assert Openers(names) + s == s;
    } else {
      var front, last := names[..|names| - 1], names[|names| - 1];
      TidyOpener(last, s);
      TidyOpeners(front, Opener(last) + s);
      assert Openers(front) + (Opener(last) + s) == Openers(names) + s;
    }
  }

  /** In tidy text some position within the window, not behind a '<', is outside every tag. */
  lemma OutsideSoon(s: string) returns (k: nat)
    requires Tidy(s) && |s| >= LONGEST
    ensures 0 < k <= LONGEST && !InsideTag(s, k) && s[k - 1] != '<'
  {
    assert !InsideTag(s, 0) by {
      InsideTagIsScan(START, s, 0);
    }
    assert OutsideWithin(s, 0);
    k :| 0 < k <= LONGEST && !InsideTag(s, k);
    InsideNext(s, k - 1);
  }

  /** No cut of tidy text lands inside a tag. */
  lemma TidyCut(st: State)
    requires Going(st) && AllSupported(st.carry) && Tidy(st.rest)
    ensures CleanCut(st)
  {
    hide InsideTag, Openers, Cut, Tidy, AllSupported;
    var s, cut := Remaining(st), CutOf(st);
    TidyOpeners(st.carry, st.rest);
    var k := OutsideSoon(s);
    CutMeaning(s, CAP);
    if cut > CAP * 3 / 4 && IsBlank(s[cut - 1]) {
      TidyBlank(s, cut - 1);
      InsideNext(s, cut - 1);
    }
  }

  lemma TidyBlank(s: string, i: nat)
    requires Tidy(s) && i < |s| && IsBlank(s[i])
    ensures !InsideTag(s, i)
  {
  }

  lemma TidyRound(st: State, seeded: bool)
    requires Going(st) && AllSupported(st.carry) && Tidy(st.rest)
    ensures Tidy(Round(st, seeded).rest)
  {
    var s, cut := Remaining(st), CutOf(st);
    var pre, post := s[..cut], s[cut..];
    assert s == pre + post;
    TidyCut(st);
    TidyOpeners(st.carry, st.rest);
    InsideTagIsScan(START, s, cut);
    TidySuffix(pre, post);
    var n := LeadingBlanks(post);
    LeadingBlanksMeaning(post);
    assert post == post[..n] + post[n..];
    BlanksKeepState(START, post[..n]);
    TidySuffix(post[..n], post[n..]);
  }

  // ---- lined text ------------------------------------------------------------------------

  /** The positions of the window's last quarter. */
  const LINE := CAP - CAP * 3 / 4 - 1

  /** No newline inside a tag; other blanks may be. */
  predicate LineFreeTags(s: string) {
    forall i :: 0 <= i < |s| && s[i] == '\n' ==> !InsideTag(s, i)
  }

  predicate HasLine(s: string, i: nat)
    requires i + LINE <= |s|
  {
    exists k :: i <= k < i + LINE && s[k] == '\n'
  }

  /** Every run of `LINE` bytes holds a newline. */
  predicate ShortLines(s: string) {
    forall i: nat :: i + LINE <= |s| ==> HasLine(s, i)
  }

  /** Text whose every window ends in a line break outside all tags. */
  predicate Lined(s: string) { LineFreeTags(s) && ShortLines(s) }

  lemma LinedSuffix(a: string, b: string)
    requires Lined(a + b) && Run(START, a).tag.None?
    ensures Lined(b)
  {
    hide InsideTag;
    var s := a + b;
    forall i | 0 <= i < |b| && b[i] == '\n'
      ensures !InsideTag(b, i)
    {
      assert s[|a| + i] == b[i];
      InsideAfter(a, b, i);
    }
    forall i: nat | i + LINE <= |b|
      ensures HasLine(b, i)
    {
      assert HasLine(s, |a| + i);
      var k :| |a| + i <= k < |a| + i + LINE && s[k] == '\n';
      assert b[k - |a|] == '\n';
    }
  }

  /** Where the last quarter of the window holds a newline, the cut follows one. */
  lemma CutAfterLine(s: string, k: nat)
    requires |s| > CAP && CAP * 3 / 4 < k < CAP && s[k] == '\n'
    ensures CAP * 3 / 4 < Cut(s, CAP) && s[Cut(s, CAP) - 1] == '\n'
  {
    hide LastIndex;
    var window := s[..CAP];
    LastIndexMeaning(window, "\n");
    assert window[k..k + 1] == "\n";
    assert MatchesAt(window, "\n", k);
    SeparatorEnd(window, "\n\n");
    SeparatorEnd(window, "\n");
  }

  /** The cuts of lined text are clean and lie behind the re-opened tags. */
  lemma LinedCut(st: State)
    requires Going(st) && AllSupported(st.carry) && |Openers(st.carry)| <= RESERVE && Lined(st.rest)
    ensures CleanCut(st) && |Openers(st.carry)| < CutOf(st)
  {
    hide InsideTag, Openers, Cut, AllSupported;
    var a, s, cut := Openers(st.carry), Remaining(st), CutOf(st);
    var i := CAP * 3 / 4 + 1 - |a|;
    assert HasLine(st.rest, i);
    var k :| i <= k < i + LINE && st.rest[k] == '\n';
    assert s[|a| + k] == '\n';
    CutAfterLine(s, |a| + k);
    OpenersEnd(st.carry);
    assert st.rest[cut - 1 - |a|] == '\n';
    InsideAfter(a, st.rest, cut - 1 - |a|);
    InsideNext(s, cut - 1);
  }

  lemma LinedRound(st: State, seeded: bool)
    requires Going(st) && AllSupported(st.carry) && |Openers(st.carry)| <= RESERVE && Lined(st.rest)
    ensures Lined(Round(st, seeded).rest)
  {
    hide InsideTag, Openers, Cut, AllSupported, Lined, LeadingBlanks;
    var a, cut := Openers(st.carry), CutOf(st);
    LinedCut(st);
    OpenersEnd(st.carry);
    var p, post := st.rest[..cut - |a|], st.rest[cut - |a|..];
    assert st.rest == p + post && Remaining(st)[cut..] == post;
    InsideAfter(a, st.rest, cut - |a|);
    InsideTagIsScan(START, st.rest, cut - |a|);
    LinedSuffix(p, post);
    var n := LeadingBlanks(post);
    LeadingBlanksMeaning(post);
    assert post == post[..n] + post[n..];
    BlanksKeepState(START, post[..n]);
    LinedSuffix(post[..n], post[n..]);
  }
}
