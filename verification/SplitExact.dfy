/**
 * Exactly which bodies the splitter handles, whatever blanks their tags hold: a cut inside a
 * tag spoils the part before it for good, and a cut right behind the re-opened tags repeats
 * for ever.
 */
module SplitExact {
  import opened Optional
  import opened TextBytes
  import opened TagScan
  import opened SafeSplit
  import opened SplitTheorems
  import opened BareTags
  import opened SplitRuns
  import opened SplitAsWritten

  // ---- a part that ends inside a tag ----------------------------------------------------------

  lemma LowerName(body: string)
    ensures TagName(body) == UpToBlank(if IsClosing(body) then ToLower(body[1..]) else ToLower(body))
  {
  }

  /** The name of a tag does not depend on what follows a blank; without one it goes on to the end. */
  lemma GluedName(read: string, tail: string, name: string)
    requires !Supported(TagName(read + tail))
    ensures !Supported(TagName(read + ("</" + name)))
  {
    hide Supported, TagName;
    var glued := read + ("</" + name);
    var closing := read != [] && read[0] == '/';
    var r := if closing then read[1..] else read;
    SlashFirst(read, tail);
    SlashFirst(read, "</" + name);
    LowerName(read + tail);
    LowerName(glued);
    LowerConcat(r, tail);
    LowerConcat(r, "</" + name);
    UpToBlankConcat(ToLower(r), ToLower(tail));
    UpToBlankConcat(ToLower(r), ToLower("</" + name));
    if forall c :: c in ToLower(r) ==> !EndsName(c) {
      assert TagName(glued) == ToLower(r) + UpToBlank(ToLower("</" + name));
      LowerAngle(name);
      assert TagName(glued)[|ToLower(r)|] == '<';
      if Supported(TagName(glued)) {
        SupportedIsPlain(TagName(glued));
      }
    }
  }

  lemma SlashFirst(read: string, tail: string)
    ensures read != [] ==> (IsClosing(read + tail) <==> read[0] == '/')
    ensures read != [] ==> (read + tail)[1..] == read[1..] + tail
  {
    if read != [] {
      assert (read + tail)[..1] == [read[0]];
    }
  }

  lemma LowerAngle(name: string)
    ensures var t := UpToBlank(ToLower("</" + name)); t != [] && t[0] == '<'
  {
    assert ("</" + name)[0] == '<';
  }

  lemma {:induction false} ClosersPop(s: Scan, names: seq<string>)
    requires s.tag.None? && AllSupported(names)
    ensures |Run(s, Closers(names)).stack| >= |s.stack| - |names|
    decreases |names|
  {
    hide Run, Supported;
    if names == [] {
      assert Closers(names) == [];
      RunNothing(s);
    } else {
      var front, last := names[..|names| - 1], names[|names| - 1];
      SupportedName(last);
      assert Closer(last) == "<" + ("/" + last) + ">";
      RunToken(s, "/" + last);
      RunConcat(s, Closer(last), Closers(front));
      ClosersPop(Run(s, Closer(last)), front);
    }
  }

  lemma RunNothing(s: Scan)
    ensures Run(s, []) == s
  {
  }

  /** The first closer is swallowed by the tag, so one opened tag stays open. */
  lemma UnfinishedPart(chunk: string, tail: string)
    requires Run(START, chunk).tag.Some? && AllSupported(Run(START, chunk).stack)
    requires !Supported(TagName(Run(START, chunk).tag.value + tail))
    ensures !WellNested(chunk + Closers(Run(START, chunk).stack))
  {
    hide Run, Supported, TagName;
    var t := Run(START, chunk);
    if t.stack == [] {
      assert chunk + Closers(t.stack) == chunk;
    } else {
      var front, last := t.stack[..|t.stack| - 1], t.stack[|t.stack| - 1];
      var glue := "</" + last;
      SupportedName(last);
      var after := Scan(t.stack, None, t.nested);
      Swallow(t, glue, tail, last);
      assert Closers(t.stack) == (glue + ">") + Closers(front);
      RunConcat(START, chunk, (glue + ">") + Closers(front));
      RunConcat(t, glue + ">", Closers(front));
      ClosersPop(after, front);
    }
  }

  lemma Swallow(t: Scan, glue: string, tail: string, name: string)
    requires t.tag.Some? && glue == "</" + name && '>' !in name && !Supported(TagName(t.tag.value + tail))
    ensures Run(t, glue + ">") == Scan(t.stack, None, t.nested)
  {
    hide Run, Supported, TagName;
    var full := t.(tag := Some(t.tag.value + glue));
    RunInside(t, glue);
    RunConcat(t, glue, ">");
    OneByte(full, '>');
    GluedName(t.tag.value, tail, name);
    IgnoredTag(t.stack, t.nested, t.tag.value + glue);
  }

  /** An unclean cut of bare text makes a part that is not well nested. */
  lemma UncleanPart(st: State)
    requires Going(st) && Sound(st) && Bare(st.rest) && !CleanCut(st)
    requires |Closers(Round(st, false).carry)| <= RESERVE
    ensures var next := Round(st, false);
      |next.parts| == |st.parts| + 1 && st.parts <= next.parts && !WellNested(next.parts[|st.parts|])
  {
    hide Run, Supported, TagName, Remaining, CleanCut, Sound, Bare, Cut, Closers, TrimRight, TrimLeft, AllSupported;
    var pre, chunk := Remaining(st)[..CutOf(st)], ChunkOf(st);
    var more, rest := UncleanTag(st, []);
    TrimmedStack(START, pre);
    var t, mid := Run(START, chunk), Run(START, pre);
    NoneSupported();
    RunSupported(START, chunk);
    assert t.tag.value + (mid.tag.value[|t.tag.value|..] + more) == mid.tag.value + more;
    UnfinishedPart(chunk, mid.tag.value[|t.tag.value|..] + more);
    assert |chunk| <= CAP by { ChunkInWindow(st); }
  }

  // ---- a round that gets nowhere -----------------------------------------------------------------

  /** The cut falls right behind the re-opened tags. */
  predicate Stalled(st: State) {
    Going(st) && CleanCut(st) && AllSupported(st.carry) && 0 < |Openers(st.carry)| == CutOf(st) <= RESERVE
  }

  lemma StalledRound(st: State)
    requires Stalled(st)
    ensures Stalled(Round(st, false))
  {
    hide Run, InsideTag, Cut, Openers, AllSupported;
    var a, s := Openers(st.carry), Remaining(st);
    CutMeaning(s, CAP);
    OpenersShape(st.carry);
    assert s[..|a|] == a && s[|a|..] == st.rest;
    assert a[|a| - 1] in a;
    NoTrailingBlank(a);
    OpenersEnd(st.carry);
    InsideNext(s, |a|);
    assert s[|a|] == '<' && st.rest[0] == '<';
    assert Round(st, false).carry == st.carry && Round(st, false).rest == st.rest;
  }

  lemma {:induction false} StalledForGood(st: State, n: nat)
    requires Stalled(st)
    ensures Going(Rounds(st, n, false))
    decreases n
  {
    hide Round;
    if n > 0 {
      StalledRound(st);
      StalledForGood(Round(st, false), n - 1);
    }
  }

  // ---- the documented discipline, exactly -----------------------------------------------------------

  /** Where a run follows the body, what is carried after a cut are the tags open there. */
  lemma CarryAtCut(b: string, sent: string, st: State)
    requires ShallowTags(b) && b == sent + st.rest && Run(START, sent) == Open(st.carry)
    requires Going(st) && AllSupported(st.carry) && |Openers(st.carry)| <= CutOf(st)
    requires Run(START, Remaining(st)[..CutOf(st)]).stack == Round(st, false).carry
    ensures |Closers(Round(st, false).carry)| <= RESERVE
  {
    hide Run, Closers, Round, Openers, Cut, AllSupported;
    var a, cut := Openers(st.carry), CutOf(st);
    var p := st.rest[..cut - |a|];
    assert Remaining(st)[..cut] == a + p;
    OpenersEnd(st.carry);
    RunConcat(START, a, p);
    RunConcat(START, sent, p);
    assert b[..|sent| + |p|] == sent + p;
  }

  lemma RestIsBare(b: string, sent: string, rest: string, carry: seq<string>)
    requires Bare(b) && b == sent + rest && Run(START, sent) == Open(carry)
    ensures Bare(rest)
  {
    BareConcat(START, sent, rest);
    BareIgnoresStack(Open(carry), START, rest);
  }

  predicate Spoils(st: State, next: State) {
    |next.parts| > |st.parts| && st.parts <= next.parts && !WellNested(next.parts[|st.parts|])
  }

  /** A cut that is not proper spoils its part, or repeats for ever. */
  lemma ImproperRound(b: string, slices: seq<Slice>, st: State)
    requires Shallow(b) && Bare(b) && Following(b, slices, st) && Going(st) && !ProperCut(st)
    ensures Stalled(st) || Spoils(st, Round(st, false))
  {
    hide Run, Round, Openers, Cut, AllSupported, InsideTag, Bare, Sound, Closers;
    FollowingIsSound(b, slices, st);
    SoundSupported(st);
    CutBehindOpeners(st);
    if !CleanCut(st) {
      RestIsBare(b, Weave(slices), st.rest, st.carry);
      ChunkStack(st);
      CarryAtCut(b, Weave(slices), st);
      UncleanPart(st);
    }
  }

  lemma ChunkStack(st: State)
    requires Going(st) && !CleanCut(st)
    ensures Run(START, Remaining(st)[..CutOf(st)]).stack == Round(st, false).carry
  {
    hide Run, Remaining, Cut, InsideTag, TrimRight, TrimLeft, Shrunk, Closers;
    InsideTagIsScan(START, Remaining(st), CutOf(st));
    TrimmedStack(START, Remaining(st)[..CutOf(st)]);
  }

  /** Unless all its cuts are proper, a run never ends or has a part that is not well nested. */
  lemma {:induction false} ImproperRun(b: string, slices: seq<Slice>, st: State, m: nat, n: nat)
    requires Shallow(b) && Bare(b) && Following(b, slices, st) && !CutsProperly(st, m)
    ensures Going(Rounds(st, n, false)) || exists part :: part in Rounds(st, n, false).parts && !WellNested(part)
    decreases m
  {
    hide Round, Shallow, Bare, Following, Going, WellNested, ProperCut;
    if n > 0 {
      var next := Round(st, false);
      if ProperCut(st) {
        var more := DocumentedRound(b, slices, st);
        ImproperRun(b, more, next, m - 1, n - 1);
      } else {
        ImproperRound(b, slices, st);
        if Stalled(st) {
          StalledForGood(st, n);
        } else {
          PartsStay(next, n - 1, false);
          assert next.parts[|st.parts|] in Rounds(st, n, false).parts;
        }
      }
    }
  }

  lemma ValidOnlyIfProper(body: string, rounds: nat)
    requires Shallow(TrimSpace(body)) && Bare(TrimSpace(body))
    requires Split(body, rounds, false).Some? && AllValid(Split(body, rounds, false).value)
    ensures CutsProperly(Start(TrimSpace(body)), |TrimSpace(body)|)
  {
    hide TrimSpace, Shallow, Bare, Rounds, Remaining, CutsProperly;
    var b := TrimSpace(body);
    assert Remaining(Start(b)) == b by { StartRemains(b); }
    if |b| <= MAX {
      NothingToCut(Start(b), |b|);
    } else {
      PartsAreReturned(body, rounds, false);
      StartFollows(b);
      if !CutsProperly(Start(b), |b|) {
        ImproperRun(b, [], Start(b), |b|, rounds);
      }
    }
  }

  lemma NothingToCut(st: State, n: nat)
    requires !Going(st)
    ensures CutsProperly(st, n)
  {
  }

  /** Some number of turns makes the function return valid parts only. */
  ghost predicate SplitsValidly(body: string, seeded: bool) {
    exists rounds :: Split(body, rounds, seeded).Some? && AllValid(Split(body, rounds, seeded).value)
  }

  /** As many turns as the body has bytes do, and no text is lost. */
  ghost predicate SplitsInFull(body: string, seeded: bool) {
    var r := Split(body, |body|, seeded);
    r.Some? && AllValid(r.value) && Carries(r.value, TrimSpace(body))
  }

  /**
   * The documented discipline on bare bodies, tags with attributes included: it gives valid
   * parts exactly if every cut lies outside all tags and behind the re-opened ones; then it
   * ends and loses nothing.
   */
  lemma DocumentedExactly(body: string)
    requires Shallow(TrimSpace(body)) && Bare(TrimSpace(body))
    ensures SplitsValidly(body, false) <==> CutsProperly(Start(TrimSpace(body)), |TrimSpace(body)|)
    ensures SplitsValidly(body, false) ==> SplitsInFull(body, false)
  {
    hide Split, TrimSpace, Shallow, Bare, CutsProperly, AllValid, Carries;
    if CutsProperly(Start(TrimSpace(body)), |TrimSpace(body)|) {
      ProperlyCutSplit(body);
      assert Split(body, |body|, false).Some? && AllValid(Split(body, |body|, false).value);
    } else if rounds :| Split(body, rounds, false).Some? && AllValid(Split(body, rounds, false).value) {
      ValidOnlyIfProper(body, rounds);
    }
  }

  /** The code as written: moreover no supported tag may be open at any cut but the last. */
  lemma AsWrittenExactly(body: string)
    requires Shallow(TrimSpace(body)) && Bare(TrimSpace(body))
    ensures SplitsValidly(body, true) <==>
      CarriesOnce(Start(TrimSpace(body))) && CutsProperly(Start(TrimSpace(body)), |TrimSpace(body)|)
    ensures SplitsValidly(body, true) ==> SplitsInFull(body, true)
  {
    hide Split, TrimSpace, Bare, CutsProperly, AllValid, Carries, CarriesOnce, Steady, ShallowTags, WellNested;
    var b := TrimSpace(body);
    DocumentedExactly(body);
    if SplitsValidly(body, true) {
      var rounds :| Split(body, rounds, true).Some? && AllValid(Split(body, rounds, true).value);
      BareIsSteady(b);
      ValidOnlyIfCarriesOnce(body, rounds);
    }
    if CarriesOnce(Start(b)) {
      forall rounds: nat
        ensures Split(body, rounds, true) == Split(body, rounds, false)
      {
        SameSplit(body, rounds);
      }
    }
  }

  lemma BareIsSteady(b: string)
    requires Bare(b)
    ensures Steady(b)
  {
  }

  lemma SameSplit(body: string, rounds: nat)
    requires CarriesOnce(Start(TrimSpace(body)))
    ensures Split(body, rounds, true) == Split(body, rounds, false)
  {
    hide CarriesOnce, Rounds, TrimSpace;
    SameRun(Start(TrimSpace(body)), rounds);
  }
}
