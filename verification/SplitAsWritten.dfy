/**
 * The splitter as the code has it (line 62 scans from the carried stack). Exactly when do
 * its parts come out valid, and when does its loop end at all?
 */
module SplitAsWritten {
  import opened TextBytes
  import opened TagScan
  import opened SafeSplit
  import opened SplitTheorems
  import opened BareTags
  import opened SplitRuns

  /**
   * No supported tag is open at any cut but the last: as long as nothing is carried the next
   * cut follows; at the first cut with a tag open, everything left must fit one message.
   */
  predicate CarriesOnce(st: State)
    requires st.carry == []
    decreases |st.rest|
  {
    !Going(st) ||
    (RestShrinks(st);
     var next := Round(st, true);
     if next.carry == [] then CarriesOnce(next) else !Going(next))
  }

  lemma RestShrinks(st: State)
    requires st.carry == [] && Going(st)
    ensures |Round(st, true).rest| < |st.rest|
  {
    var post := Remaining(st)[CutOf(st)..];
    assert |TrimLeft(post)| <= |post|;
  }

  /** The stacks re-opened before each of the next `n` rounds, the latest first. */
  function CarriedBefore(st: State, n: nat): seq<string>
    decreases n
  {
    if n == 0 || !Going(st) then [] else CarriedBefore(Round(st, true), n - 1) + st.carry
  }

  /** Text whose cuts leave the scan of the rest as it was: clean ones, or ones in tags it ignores. */
  predicate Steady(s: string) { Tidy(s) || Bare(s) }

  lemma SteadyRound(st: State, seeded: bool)
    requires Going(st) && Sound(st) && Steady(st.rest)
    ensures Residue(Round(st, seeded)) == Under(SeedOf(st, seeded), Residue(st))
    ensures Sound(Round(st, seeded)) && Steady(Round(st, seeded).rest)
  {
    hide Round, Sound, Tidy, Bare, Residue;
    if Tidy(st.rest) {
      SoundSupported(st);
      TidyCut(st);
      RoundResidue(st, seeded);
      TidyRound(st, seeded);
    } else {
      BareRound(st, seeded);
    }
  }

  /** What the code leaves open at the end is every stack it re-opened except the last. */
  lemma {:induction false} LeftOpen(st: State, n: nat)
    requires Sound(st) && Steady(st.rest)
    ensures var end := Rounds(st, n, true);
      Residue(end) == Under(CarriedBefore(st, n), Residue(st)) && Sound(end)
    decreases n
  {
    hide Round, Sound, Steady, Residue;
    if n == 0 || !Going(st) {
      assert Sound(st);
      assert [] + Residue(st).stack == Residue(st).stack;
    } else {
      SteadyRound(st, true);
      var next := Round(st, true);
      LeftOpen(next, n - 1);
      UnderUnder(CarriedBefore(next, n - 1), st.carry, Residue(st));
    }
  }

  lemma UnderUnder(a: seq<string>, b: seq<string>, s: Scan)
    ensures Under(a, Under(b, s)) == Under(a + b, s)
  {
    assert a + (b + s.stack) == a + b + s.stack;
  }

  /** A run that re-opened nothing before its last cut is one that `CarriesOnce` describes. */
  lemma {:induction false} NothingReopened(st: State, n: nat)
    requires st.carry == [] && CarriedBefore(st, n) == [] && !Going(Rounds(st, n, true))
    ensures CarriesOnce(st)
    decreases n
  {
    hide Round;
    if Going(st) {
      var next := Round(st, true);
      assert CarriedBefore(next, n - 1) == [];
      if next.carry == [] {
        RestShrinks(st);
        NothingReopened(next, n - 1);
      }
    }
  }

  /** While at most the last cut carries tags, the code and the documented discipline agree. */
  lemma {:induction false} SameRun(st: State, n: nat)
    requires st.carry == [] && CarriesOnce(st)
    ensures Rounds(st, n, true) == Rounds(st, n, false)
    decreases n
  {
    hide Round;
    if n > 0 && Going(st) {
      SeedlessRound(st);
      RestShrinks(st);
      var next := Round(st, true);
      if next.carry == [] {
        SameRun(next, n - 1);
      }
    }
  }

  lemma SeedlessRound(st: State)
    requires Going(st) && st.carry == []
    ensures Round(st, true) == Round(st, false)
  {
  }

  /** The last message is valid only if nothing is left open in it. */
  lemma ClosedAtTheEnd(st: State)
    requires Sound(st) && AllValid(Finish(st))
    ensures Residue(st) == START
  {
    hide Run, Residue, Sound, TrimSpace;
    SoundSupported(st);
    ResidueOfRemaining(st);
    if TrimSpace(Remaining(st)) == [] {
      BlankMessage(Remaining(st));
    } else {
      assert Finish(st)[|st.parts|] == Remaining(st);
      assert ValidPart(Remaining(st));
    }
  }

  lemma StartIsSound(b: string)
    requires WellNested(b)
    ensures Sound(Start(b)) && Residue(Start(b)) == START && Remaining(Start(b)) == b
  {
    hide Run;
    NoneSupported();
  }

  /** If the code returns and every part is well nested, no tag was open before the last cut. */
  lemma ValidOnlyIfCarriesOnce(body: string, rounds: nat)
    requires WellNested(TrimSpace(body)) && Steady(TrimSpace(body))
    requires Split(body, rounds, true).Some? && AllValid(Split(body, rounds, true).value)
    ensures CarriesOnce(Start(TrimSpace(body)))
  {
    hide Round, Sound, Residue, TrimSpace, WellNested, Steady, Rounds, CarriedBefore, AllValid, Finish, Remaining;
    var b := TrimSpace(body);
    var st := Start(b);
    if b != "" {
      StartIsSound(b);
      if |b| > MAX {
        var end := Rounds(st, rounds, true);
        LeftOpen(st, rounds);
        ClosedAtTheEnd(end);
        assert CarriedBefore(st, rounds) + [] == [];
        NothingReopened(st, rounds);
      }
    } else {
      NothingToSplit(st);
    }
  }

  lemma NothingToSplit(st: State)
    requires st == Start("")
    ensures !Going(st)
  {
  }

  /** A body that carries tags over its last cut at most is split as documented. */
  lemma CarriesOnceIsEnough(body: string)
    requires Good(TrimSpace(body)) && CarriesOnce(Start(TrimSpace(body)))
    ensures var r := Split(body, |body|, true);
      r.Some? && AllValid(r.value) && Carries(r.value, TrimSpace(body))
  {
    hide Round, Good, CarriesOnce, AllValid, TrimSpace, Finish;
    SameRun(Start(TrimSpace(body)), |body|);
    DocumentedSplit(body);
    assert Split(body, |body|, true) == Split(body, |body|, false);
  }

  // ---- bodies with line breaks, where later cuts may not be clean ------------------------------

  /** The closers of any two stacks of the body fit the reserve together. */
  predicate HalfShallow(b: string) {
    forall i :: 0 <= i <= |b| ==> 2 * |Closers(Run(START, b[..i]).stack)| <= RESERVE
  }

  lemma RoundKeepsParts(st: State, seeded: bool)
    requires Going(st)
    ensures st.parts <= Round(st, seeded).parts
  {
    hide ChunkOf, CutOf, Remaining, StackAfter, Shrunk, Closers, TrimLeft;
  }

  lemma {:induction false} PartsStay(st: State, n: nat, seeded: bool)
    ensures st.parts <= Rounds(st, n, seeded).parts
    decreases n
  {
    hide Round, Going;
    if n > 0 && Going(st) {
      RoundKeepsParts(st, seeded);
      PartsStay(Round(st, seeded), n - 1, seeded);
    }
  }

  lemma {:induction false} FirstCloser(names: seq<string>)
    requires names != [] && AllSupported(names)
    ensures !Run(START, Closers(names)).nested
  {
    var front, last := names[..|names| - 1], names[|names| - 1];
    SupportedName(last);
    assert Closer(last) == "<" + ("/" + last) + ">";
    RunToken(START, "/" + last);
    RunConcat(START, Closer(last), Closers(front));
    if Run(START, Closers(names)).nested {
      NestedOnlyFalls(Run(START, Closer(last)), Closers(front));
    }
  }

  /** A part that starts from carried tags closes them twice. */
  lemma CarriedPartIsInvalid(st: State)
    requires Going(st) && CleanCut(st) && Sound(st) && st.carry != []
    requires |Closers(st.carry)| + |Closers(Round(st, false).carry)| <= RESERVE
    ensures var next := Round(st, true);
      |next.parts| == |st.parts| + 1 && st.parts <= next.parts && !WellNested(next.parts[|st.parts|])
  {
    hide Closers, Run, Remaining, ChunkOf, TrimLeft, CleanCut;
    var chunk, x := ChunkOf(st), Round(st, false).carry;
    RoundResidue(st, false);
    RoundResidue(st, true);
    RunUnder(st.carry, START, chunk);
    assert st.carry + [] == st.carry;
    assert Round(st, true).carry == st.carry + x;
    ClosersConcat(st.carry, x);
    assert |chunk| <= CAP by { ChunkInWindow(st); }
    RunConcat(START, chunk, Closers(x) + Closers(st.carry));
    RunConcat(Open(x), Closers(x), Closers(st.carry));
    RunClosers(START, x);
    assert [] + x == x;
    FirstCloser(st.carry);
  }

  lemma ChunkInWindow(st: State)
    requires Going(st)
    ensures |ChunkOf(st)| <= CAP
  {
  }

  /** A run that carries tags over a cut and is not at its end leaves an invalid part for good. */
  lemma {:induction false} InvalidUnlessCarriesOnce(b: string, slices: seq<Slice>, st: State, n: nat)
    requires Shallow(b) && HalfShallow(b) && Following(b, slices, st) && Cuttable(st.rest)
    requires st.carry == [] && !CarriesOnce(st)
    ensures Going(Rounds(st, n, true)) || exists part :: part in Rounds(st, n, true).parts && !WellNested(part)
    decreases n
  {
    hide Round, Shallow, HalfShallow, Following, Going, WellNested, Cuttable, ProperCut;
    if n > 0 {
      var next := Round(st, true);
      SeedlessRound(st);
      RestShrinks(st);
      FollowingIsSound(b, slices, st);
      CuttableRound(st, false);
      var more := DocumentedRound(b, slices, st);
      if next.carry == [] {
        InvalidUnlessCarriesOnce(b, more, next, n - 1);
      } else if n > 1 {
        CarriedOn(b, more, next);
        PartsStay(Round(next, true), n - 2, true);
        var part := Round(next, true).parts[|next.parts|];
        assert Rounds(st, n, true) == Rounds(Round(next, true), n - 2, true);
        assert part in Rounds(st, n, true).parts;
      }
    }
  }

  lemma CarriedOn(b: string, slices: seq<Slice>, st: State)
    requires Shallow(b) && HalfShallow(b) && Following(b, slices, st) && Cuttable(st.rest)
    requires st.carry != [] && Going(st)
    ensures var next := Round(st, true);
      |next.parts| == |st.parts| + 1 && st.parts <= next.parts && !WellNested(next.parts[|st.parts|])
  {
    hide Round, CleanCut, Sound, Residue;
    FollowingIsSound(b, slices, st);
    CuttableRound(st, false);
    var more := DocumentedRound(b, slices, st);
    CarryIsHalf(b, Weave(slices), st.rest, st.carry);
    CarryIsHalf(b, Weave(more), Round(st, false).rest, Round(st, false).carry);
    CarriedPartIsInvalid(st);
  }

  lemma CarryIsHalf(b: string, sent: string, rest: string, carry: seq<string>)
    requires HalfShallow(b) && sent + rest == b && Run(START, sent) == Open(carry)
    ensures 2 * |Closers(carry)| <= RESERVE
  {
    assert b[..|sent|] == sent;
  }

  lemma HalfShallowOnlyIf(body: string, rounds: nat)
    requires Good(TrimSpace(body)) && HalfShallow(TrimSpace(body))
    requires Split(body, rounds, true).Some? && AllValid(Split(body, rounds, true).value)
    ensures CarriesOnce(Start(TrimSpace(body)))
  {
    hide TrimSpace, Shallow, Cuttable, HalfShallow, CarriesOnce, Rounds, Remaining;
    var b := TrimSpace(body);
    assert Remaining(Start(b)) == b by { StartRemains(b); }
    if |b| <= MAX {
      NothingCarried(b);
    } else {
      PartsAreReturned(body, rounds, true);
      StartFollows(b);
      if !CarriesOnce(Start(b)) {
        InvalidUnlessCarriesOnce(b, [], Start(b), rounds);
      }
    }
  }

  lemma PartsAreReturned(body: string, rounds: nat, seeded: bool)
    requires |TrimSpace(body)| > MAX && Split(body, rounds, seeded).Some?
    requires AllValid(Split(body, rounds, seeded).value)
    ensures var end := Rounds(Start(TrimSpace(body)), rounds, seeded);
      !Going(end) && forall part :: part in end.parts ==> WellNested(part)
  {
    hide TrimSpace, Rounds, Remaining, Going, WellNested;
    var end := Rounds(Start(TrimSpace(body)), rounds, seeded);
    forall part | part in end.parts
      ensures part in Split(body, rounds, seeded).value
    {
    }
  }

  lemma StartRemains(b: string)
    ensures Remaining(Start(b)) == b
  {
  }

  lemma NothingCarried(b: string)
    requires |b| <= MAX
    ensures CarriesOnce(Start(b))
  {
    StartRemains(b);
  }

  // ---- exactly when the code does what it says -------------------------------------------------

  /**
   * The code as written meets its documentation on a body exactly when no supported tag is
   * open at any cut but the last; then it also ends, within as many rounds as the body has
   * bytes, and loses no text. The body is tidy, or its tags take half the reserve at most.
   */
  lemma AsWrittenSplit(body: string)
    requires Good(TrimSpace(body)) && (Tidy(TrimSpace(body)) || HalfShallow(TrimSpace(body)))
    ensures (exists rounds :: Split(body, rounds, true).Some? && AllValid(Split(body, rounds, true).value))
        <==> CarriesOnce(Start(TrimSpace(body)))
    ensures CarriesOnce(Start(TrimSpace(body))) ==>
      var r := Split(body, |body|, true);
      r.Some? && AllValid(r.value) && Carries(r.value, TrimSpace(body))
  {
    hide Split, Good, Tidy, CarriesOnce, AllValid, TrimSpace, HalfShallow;
    if CarriesOnce(Start(TrimSpace(body))) {
      CarriesOnceIsEnough(body);
      assert Split(body, |body|, true).Some? && AllValid(Split(body, |body|, true).value);
    }
    if rounds :| Split(body, rounds, true).Some? && AllValid(Split(body, rounds, true).value) {
      if Tidy(TrimSpace(body)) {
        assert WellNested(TrimSpace(body)) && Steady(TrimSpace(body)) by {
          GoodAndTidy(TrimSpace(body));
        }
        ValidOnlyIfCarriesOnce(body, rounds);
      } else {
        HalfShallowOnlyIf(body, rounds);
      }
    }
  }

  lemma GoodAndTidy(b: string)
    requires Good(b) && Tidy(b)
    ensures WellNested(b) && Steady(b)
  {
  }

  // ---- bodies that carry nothing ----------------------------------------------------------

  /** No tag is open at any newline. */
  predicate LinesClosed(s: string) {
    forall i :: 0 <= i < |s| && s[i] == '\n' ==> Run(START, s[..i]) == START
  }

  predicate Calm(s: string) { Lined(s) && LinesClosed(s) }

  lemma LinesClosedSuffix(a: string, b: string)
    requires LinesClosed(a + b) && Run(START, a) == START
    ensures LinesClosed(b)
  {
    var s := a + b;
    forall i | 0 <= i < |b| && b[i] == '\n'
      ensures Run(START, b[..i]) == START
    {
      assert s[|a| + i] == b[i] && s[..|a| + i] == a + b[..i];
      RunConcat(START, a, b[..i]);
    }
  }

  /** A round of a calm run cuts where no tag is open. */
  lemma CalmRound(st: State)
    requires Going(st) && st.carry == [] && Calm(st.rest)
    ensures Round(st, true).carry == [] && Calm(Round(st, true).rest)
  {
    hide InsideTag, Cut, Lined, Run, LinesClosed, LeadingBlanks, WithoutBlankTail;
    var s, cut := Remaining(st), CutOf(st);
    NoOpeners();
    NoneSupported();
    assert s == st.rest;
    LinedRound(st, true);
    LineBefore(st);
    var pre, post := s[..cut], s[cut..];
    TrimmedChunk(START, pre);
    assert s == pre + post;
    LinesClosedSuffix(pre, post);
    var n := LeadingBlanks(post);
    LeadingBlanksMeaning(post);
    assert post == post[..n] + post[n..];
    BlanksKeepState(START, post[..n]);
    LinesClosedSuffix(post[..n], post[n..]);
  }

  lemma LineBefore(st: State)
    requires Going(st) && st.carry == [] && Calm(st.rest) && Remaining(st) == st.rest
    ensures Run(START, Remaining(st)[..CutOf(st)]) == START
  {
    hide InsideTag, Cut, Run, LinesClosed, LineFreeTags, Remaining;
    var s := Remaining(st);
    assert HasLine(s, CAP * 3 / 4 + 1);
    var k :| CAP * 3 / 4 < k < CAP && s[k] == '\n';
    CutAfterLine(s, k);
    AfterLine(s, CutOf(st));
  }

  lemma AfterLine(s: string, cut: nat)
    requires LinesClosed(s) && 0 < cut <= |s| && s[cut - 1] == '\n'
    ensures Run(START, s[..cut]) == START
  {
    hide Run;
    assert s[..cut] == s[..cut - 1] + [s[cut - 1]];
    RunConcat(START, s[..cut - 1], [s[cut - 1]]);
    RunOutside(START, [s[cut - 1]]);
  }

  lemma {:induction false} CalmCarriesNothing(st: State)
    requires st.carry == [] && Calm(st.rest)
    ensures CarriesOnce(st)
    decreases |st.rest|
  {
    hide Round, Calm, Going;
    if Going(st) {
      RestShrinks(st);
      CalmRound(st);
      CalmCarriesNothing(Round(st, true));
    }
  }

  // ---- when the loop does not end -------------------------------------------------------

  lemma InsideOpener(name: string, k: nat)
    requires Supported(name) && 0 < k < |Opener(name)|
    ensures InsideTag(Opener(name), k)
  {
    var op, read := Opener(name), name[..k - 1];
    SupportedName(name);
    InsideTagIsScan(START, op, k);
    assert op[..k] == "<" + read;
    RunConcat(START, "<", read);
    assert Run(START, "<") == Run(Step(START, '<'), []);
    RunInside(Run(START, "<"), read);
  }

  /** A cut within the re-opened tags falls between two of them. */
  lemma {:induction false} CutAmongOpeners(names: seq<string>, k: nat) returns (j: nat)
    requires AllSupported(names) && k <= |Openers(names)| && !InsideTag(Openers(names), k)
    ensures j <= |names| && Openers(names)[..k] == Openers(names[..j])
    decreases |names|
  {
    hide InsideTag, Run;
    if k == |Openers(names)| {
      j := |names|;
      assert names[..j] == names;
      return;
    }
    var front, last := names[..|names| - 1], names[|names| - 1];
    var a, op := Openers(front), Opener(last);
    OpenersEnd(front);
    if k > |a| {
      InsideAfter(a, op, k - |a|);
      InsideOpener(last, k - |a|);
      assert false;
    }
    SameOnPrefix(a, op, k);
    j := CutAmongOpeners(front, k);
    assert names[..j] == front[..j];
  }

  lemma SameOnPrefix(a: string, b: string, k: nat)
    requires k <= |a|
    ensures (a + b)[..k] == a[..k] && (InsideTag(a + b, k) <==> InsideTag(a, k))
  {
    assert (a + b)[..k] == a[..k];
  }

  lemma OpenersDrop(names: seq<string>, j: nat, k: nat)
    requires j <= |names| && k <= |Openers(names)| && Openers(names)[..k] == Openers(names[..j])
    ensures k == |Openers(names[..j])| && Openers(names)[k..] == Openers(names[j..])
  {
    OpenersConcat(names[..j], names[j..]);
    assert names == names[..j] + names[j..];
  }

  /** The tags re-opened fill the window: only tags are read, and all are carried on again. */
  predicate Stuck(st: State) {
    AllSupported(st.carry) && |Openers(st.carry)| >= CAP && Going(st)
  }

  lemma FirstOpenerEnds(names: seq<string>, rest: string) returns (k: nat)
    requires AllSupported(names) && names != []
    ensures 0 < k <= 8 && k <= |Openers(names)| && Openers(names)[k - 1] == '>'
    ensures !InsideTag(Openers(names) + rest, k)
  {
    hide Openers, Opener, InsideTag, Run, Supported;
    var first, later := names[0], names[1..];
    var op := Opener(first);
    k := |op|;
    OpenerShape(first);
    OpenersConcat([first], later);
    assert names == [first] + later;
    OneOpener(first);
    var s := Openers(names) + rest;
    assert s == op + (Openers(later) + rest);
    assert s[..k] == op;
    InsideTagIsScan(START, s, k);
  }

  lemma OneOpener(name: string)
    ensures Openers([name]) == Opener(name)
  {
    NoOpeners();
    assert [name][..0] == [];
  }

  lemma OpenerShape(name: string)
    requires Supported(name)
    ensures 0 < |Opener(name)| <= 8 && Opener(name)[|Opener(name)| - 1] == '>'
    ensures Run(START, Opener(name)).tag.None?
  {
    SupportedName(name);
    RunToken(START, name);
  }

  lemma StuckCut(st: State)
    requires Stuck(st)
    ensures CleanCut(st) && CutOf(st) <= |Openers(st.carry)|
    ensures !InsideTag(Openers(st.carry), CutOf(st))
    ensures !IsBlank(Openers(st.carry)[CutOf(st) - 1])
  {
    hide InsideTag, AllSupported, Openers, Cut;
    var a, s, cut := Openers(st.carry), Remaining(st), CutOf(st);
    OpenersShape(st.carry);
    CutMeaning(s, CAP);
    assert a[cut - 1] in a;
    assert s[cut - 1] == a[cut - 1];
    if st.carry == [] {
      NoOpeners();
    } else {
      var k := FirstOpenerEnds(st.carry, st.rest);
      assert s[k - 1] == a[k - 1];
      SameOnPrefix(a, st.rest, cut);
    }
  }

  /** Once stuck, always stuck: a round only makes the list of re-opened tags longer. */
  lemma StuckRound(st: State)
    requires Stuck(st)
    ensures Stuck(Round(st, true))
  {
    var a, cut := Openers(st.carry), CutOf(st);
    StuckCut(st);
    var j := CutAmongOpeners(st.carry, cut);
    OpenersDrop(st.carry, j, cut);
    var read, left := st.carry[..j], st.carry[j..];
    StuckChunk(st, read);
    OpenersConcat(st.carry, read);
    StuckRest(st, left);
  }

  lemma StuckChunk(st: State, read: seq<string>)
    requires Stuck(st) && read <= st.carry && CutOf(st) <= |Openers(st.carry)|
    requires !IsBlank(Openers(st.carry)[CutOf(st) - 1])
    requires Openers(st.carry)[..CutOf(st)] == Openers(read)
    ensures Round(st, true).carry == st.carry + read
  {
    var a, cut := Openers(st.carry), CutOf(st);
    assert (a + st.rest)[..cut] == a[..cut];
    NoTrailingBlank(a[..cut]);
    RunOpeners(Open(st.carry), read);
  }

  lemma StuckRest(st: State, left: seq<string>)
    requires Stuck(st) && CutOf(st) <= |Openers(st.carry)| && Openers(st.carry)[CutOf(st)..] == Openers(left)
    ensures left != [] ==> |Round(st, true).rest| == |Remaining(st)| - CutOf(st)
    ensures left == [] ==> CutOf(st) == |Openers(st.carry)|
  {
    if left != [] {
      FirstIsTag(left);
      var post := Remaining(st)[CutOf(st)..];
      assert post[0] == Openers(left)[0];
    }
  }

  lemma NoTrailingBlank(s: string)
    requires s != [] && !IsBlank(s[|s| - 1])
    ensures TrimRight(s) == s
  {
  }

  lemma {:induction false} FirstIsTag(names: seq<string>)
    requires names != []
    ensures Openers(names)[0] == '<'
    decreases |names|
  {
    if |names| > 1 {
      FirstIsTag(names[..|names| - 1]);
    }
  }

  /** Once the re-opened tags fill the window the loop never ends. */
  lemma {:induction false} NeverEnds(st: State, n: nat)
    requires Stuck(st)
    ensures Going(Rounds(st, n, true))
    decreases n
  {
    hide Round;
    if n > 0 {
      StuckRound(st);
      NeverEnds(Round(st, true), n - 1);
    }
  }

  /** The position behind the re-opened tags is one to cut at. */
  lemma BehindOpeners(st: State)
    requires AllSupported(st.carry)
    ensures !InsideTag(Remaining(st), |Openers(st.carry)|)
    ensures st.carry != [] ==> |Openers(st.carry)| > 0 && Remaining(st)[|Openers(st.carry)| - 1] == '>'
  {
    hide InsideTag, Openers;
    var a, s := Openers(st.carry), Remaining(st);
    OpenersEnd(st.carry);
    OpenersShape(st.carry);
    InsideTagIsScan(START, s, |a|);
    assert s[..|a|] == a;
  }

  /** Unless they fill the window, a cut never falls before the end of the re-opened tags. */
  lemma CutBehindOpeners(st: State)
    requires Going(st) && AllSupported(st.carry) && !Stuck(st)
    ensures |Openers(st.carry)| <= CutOf(st)
  {
    hide InsideTag, Openers, Cut, AllSupported;
    var a, s, cut := Openers(st.carry), Remaining(st), CutOf(st);
    CutMeaning(s, CAP);
    OpenersShape(st.carry);
    BehindOpeners(st);
    assert forall k :: 0 <= k < |a| ==> s[k] == a[k] && a[k] in a;
    if st.carry == [] {
      NoOpeners();
    }
  }

  /**
   * A round that is not stuck takes text from what is left, or, when it cuts right behind the
   * re-opened tags, doubles those.
   */
  lemma UnstuckRound(st: State)
    requires Going(st) && AllSupported(st.carry) && !Stuck(st)
    ensures var next := Round(st, true);
      && AllSupported(next.carry)
      && (|next.rest| < |st.rest| || (|next.rest| <= |st.rest| && next.carry == st.carry + st.carry && st.carry != []))
  {
    hide InsideTag, Openers, AllSupported, LeadingBlanks, Run;
    var a, cut := Openers(st.carry), CutOf(st);
    CutBehindOpeners(st);
    RunSupported(Open(st.carry), ChunkOf(st));
    assert Remaining(st)[cut..] == st.rest[cut - |a|..];
    if cut == |a| {
      OpenersShape(st.carry);
      if st.carry == [] {
        NoOpeners();
      }
      assert Remaining(st)[..cut] == a && a[|a| - 1] == '>';
      NoTrailingBlank(a);
      RunOpeners(Open(st.carry), st.carry);
    }
  }

  /** What an unstuck round brings down: the text left, or the room left in the window. */
  lemma {:induction false} EndsUnlessStuck(st: State) returns (n: nat)
    requires AllSupported(st.carry)
    ensures !Going(Rounds(st, n, true)) || Stuck(Rounds(st, n, true))
    decreases |st.rest|, CAP - |Openers(st.carry)|
  {
    hide Round, Going, Openers, AllSupported;
    if !Going(st) || Stuck(st) {
      n := 0;
    } else {
      UnstuckRound(st);
      if st.carry != [] {
        OpenersConcat(st.carry, st.carry);
        OpenersShape(st.carry);
      }
      var next := Round(st, true);
      var k := EndsUnlessStuck(next);
      n := k + 1;
    }
  }

  /** Given turns enough, the loop of the code comes to its end. */
  ghost predicate Ends(b: string) { exists n: nat :: !Going(Rounds(Start(b), n, true)) }

  /** At some turn the re-opened tags fill the window. */
  ghost predicate GetsStuck(b: string) { exists n: nat :: Stuck(Rounds(Start(b), n, true)) }

  /** For every body, tidy or not: the loop ends exactly if the re-opened tags never fill the window. */
  lemma EndsIffNeverStuck(b: string)
    ensures Ends(b) <==> !GetsStuck(b)
  {
    hide Rounds, Going, Stuck;
    if Ends(b) && GetsStuck(b) {
      var n: nat :| !Going(Rounds(Start(b), n, true));
      var m: nat :| Stuck(Rounds(Start(b), m, true));
      StuckForGood(Start(b), m, n);
    } else {
      NoneSupported();
      var n := EndsUnlessStuck(Start(b));
    }
  }

  /** The function returns, given turns enough, exactly for those bodies. */
  lemma ReturnsIffNeverStuck(body: string)
    ensures (exists rounds :: Split(body, rounds, true).Some?) <==> !GetsStuck(TrimSpace(body))
  {
    hide Rounds, Stuck, TrimSpace, Finish, GetsStuck;
    var b := TrimSpace(body);
    EndsIffNeverStuck(b);
    assert Remaining(Start(b)) == b;
    if |b| <= MAX {
      RoundsOfNothing(Start(b));
      assert Split(body, 0, true).Some?;
    } else if Ends(b) {
      var n: nat :| !Going(Rounds(Start(b), n, true));
      assert Split(body, n, true).Some?;
    }
  }

  lemma RoundsOfNothing(st: State)
    ensures Rounds(st, 0, true) == st
  {
  }

  /** A run that is stuck at some point has not ended at any. */
  lemma StuckForGood(st: State, m: nat, n: nat)
    requires Stuck(Rounds(st, m, true))
    ensures Going(Rounds(st, n, true))
  {
    hide Round;
    if n >= m {
      RoundsAdd(st, m, n - m, true);
      NeverEnds(Rounds(st, m, true), n - m);
    } else {
      RoundsAdd(st, n, m - n, true);
    }
  }
}
