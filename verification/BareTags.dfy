/**
 * Bare text: no tag holds a '<', and tags with a supported name hold nothing but it. A cut may
 * then fall inside a tag and still be harmless to the scan of what is left: a tag that can be
 * cut is one the scanner ignores.
 */
module BareTags {
  import opened Optional
  import opened TextBytes
  import opened TagScan
  import opened SafeSplit
  import opened SplitTheorems

  predicate BlankFree(s: string) { forall c :: c in s ==> !IsBlank(c) }

  predicate BareByte(s: Scan, c: char) {
    s.tag.Some? ==> c != '<' && (c == '>' && Supported(TagName(s.tag.value)) ==> BlankFree(s.tag.value))
  }

  predicate BareFrom(s: Scan, text: string)
    decreases |text|
  {
    text == [] || (BareByte(s, text[0]) && BareFrom(Step(s, text[0]), text[1..]))
  }

  predicate Bare(text: string) { BareFrom(START, text) }

  lemma {:induction false} BareConcat(s: Scan, a: string, b: string)
    ensures BareFrom(s, a + b) <==> BareFrom(s, a) && BareFrom(Run(s, a), b)
    decreases |a|
  {
    hide BareByte, Step;
    if a == [] {
      assert a + b == b;
    } else {
      assert (a + b)[0] == a[0] && (a + b)[1..] == a[1..] + b;
      BareConcat(Step(s, a[0]), a[1..], b);
    }
  }

  lemma {:induction false} BareIgnoresStack(s: Scan, t: Scan, text: string)
    requires s.tag == t.tag
    ensures BareFrom(s, text) <==> BareFrom(t, text)
    decreases |text|
  {
    if text != [] {
      BareIgnoresStack(Step(s, text[0]), Step(t, text[0]), text[1..]);
    }
  }

  lemma {:induction false} BareOutside(s: Scan, text: string)
    requires s.tag.None? && '<' !in text
    ensures BareFrom(s, text)
    decreases |text|
  {
    if text != [] {
      BareOutside(s, text[1..]);
    }
  }

  lemma {:induction false} BareInside(s: Scan, text: string)
    requires s.tag.Some? && '>' !in text && BareFrom(s, text)
    ensures '<' !in text
    decreases |text|
  {
    if text != [] {
      BareInside(Step(s, text[0]), text[1..]);
    }
  }

  lemma StepAt(s: string, k: nat)
    requires k < |s|
    ensures Run(START, s[..k + 1]) == Step(Run(START, s[..k]), s[k])
  {
    assert s[..k + 1] == s[..k] + [s[k]];
    RunConcat(START, s[..k], [s[k]]);
    var t := Run(START, s[..k]);
    assert Run(t, [s[k]]) == Run(Step(t, s[k]), []);
  }

  /** A tag that goes on gets longer with every byte. */
  lemma {:induction false} TagGrows(s: string, i: nat, n: nat)
    requires i + n <= |s| && n > 0
    requires forall k :: i < k <= i + n ==> InsideTag(s, k)
    ensures var t := Run(START, s[..i + n]).tag; t.Some? && |t.value| >= n - 1
    decreases n
  {
    hide InsideTag, Run;
    assert InsideTag(s, i + n);
    InsideTagIsScan(START, s, i + n);
    if n > 1 {
      TagGrows(s, i, n - 1);
      StepAt(s, i + n - 1);
    }
  }

  // ---- openers are bare ----------------------------------------------------------------------

  lemma {:induction false} BareBody(s: Scan, body: string)
    requires s.tag.Some? && '<' !in body && '>' !in body
    ensures BareFrom(s, body)
    decreases |body|
  {
    if body != [] {
      BareBody(Step(s, body[0]), body[1..]);
    }
  }

  lemma BareTag(s: Scan, body: string)
    requires s.tag.None? && '<' !in body && '>' !in body && (Supported(TagName(body)) ==> BlankFree(body))
    ensures BareFrom(s, "<" + body + ">")
  {
    hide Run, TagName, Supported;
    var begun := s.(tag := Some(""));
    BareBody(begun, body);
    RunInside(begun, body);
    assert "" + body == body;
    var full := s.(tag := Some(body));
    OneByte(s, '<');
    OneByte(full, '>');
    BareConcat(s, "<", body);
    BareConcat(s, "<" + body, ">");
    RunConcat(s, "<", body);
  }

  lemma OneByte(s: Scan, c: char)
    ensures BareFrom(s, [c]) <==> BareByte(s, c)
    ensures Run(s, [c]) == Step(s, c)
  {
    assert [c][1..] == [];
  }

  lemma {:induction false} BareOpeners(names: seq<string>)
    requires AllSupported(names)
    ensures Bare(Openers(names))
    decreases |names|
  {
    hide Run, Supported;
    if names != [] {
      var front, last := names[..|names| - 1], names[|names| - 1];
      BareOpeners(front);
      SupportedName(last);
      BareTag(Open(front), last);
      OpenersEnd(front);
      BareConcat(START, Openers(front), Opener(last));
    }
  }

  lemma BareRemaining(st: State)
    requires AllSupported(st.carry) && Bare(st.rest)
    ensures Bare(Remaining(st))
  {
    BareOpeners(st.carry);
    OpenersEnd(st.carry);
    BareConcat(START, Openers(st.carry), st.rest);
    BareIgnoresStack(START, Open(st.carry), st.rest);
  }

  // ---- names of tags ---------------------------------------------------------------------------

  predicate EndsName(c: char) { c == ' ' || c == '\t' }

  lemma {:induction false} UpToBlankConcat(a: string, b: string)
    ensures (exists c :: c in a && EndsName(c)) ==> UpToBlank(a + b) == UpToBlank(a)
    ensures (forall c :: c in a ==> !EndsName(c)) ==> UpToBlank(a + b) == a + UpToBlank(b)
    decreases |a|
  {
    if a == [] {
      assert a + b == b;
    } else {
      assert (a + b)[0] == a[0] && (a + b)[1..] == a[1..] + b;
      UpToBlankConcat(a[1..], b);
      assert a[0] in a && forall c :: c in a[1..] ==> c in a;
      assert [a[0]] + (a[1..] + UpToBlank(b)) == a + UpToBlank(b);
    }
  }

  lemma {:induction false} LowerKeepsBlanks(s: string)
    ensures forall i :: 0 <= i < |s| ==> ToLower(s)[i] == Lower(s[i])
    decreases |s|
  {
    if s != [] {
      LowerKeepsBlanks(s[1..]);
    }
  }

  lemma {:induction false} LowerConcat(a: string, b: string)
    ensures ToLower(a + b) == ToLower(a) + ToLower(b)
    decreases |a|
  {
    if a == [] {
      assert a + b == b;
    } else {
      assert (a + b)[0] == a[0] && (a + b)[1..] == a[1..] + b;
      LowerConcat(a[1..], b);
    }
  }

  /** A supported tag without blanks has one of the eight names, with or without the slash. */
  lemma BlankFreeTagIsShort(body: string)
    requires BlankFree(body) && Supported(TagName(body))
    ensures |body| <= 7
  {
    var name := if IsClosing(body) then body[1..] else body;
    LowerKeepsBlanks(name);
    var low := ToLower(name);
    assert forall i :: 0 <= i < |low| ==> name[i] in body;
    UpToBlankConcat(low, "");
    assert low + "" == low;
    SupportedIsPlain(TagName(body));
  }

  /** A tag cut behind a blank, or one that fills a window, is not one the scanner stacks. */
  lemma CutTagIsIgnored(read: string, more: string)
    requires Supported(TagName(read + more)) ==> BlankFree(read + more)
    requires (exists c :: c in read && IsBlank(c)) || |read| > 7
    ensures !Supported(TagName(read + more))
  {
    hide Supported, TagName;
    if Supported(TagName(read + more)) {
      assert forall c :: c in read ==> c in read + more;
      BlankFreeTagIsShort(read + more);
    }
  }

  // ---- what is left behind a cut -------------------------------------------------------------------

  /** An unfinished tag of bare text is finished by a '>' with no '<' before it. */
  lemma FinishTag(s: Scan, text: string) returns (more: string, rest: string)
    requires s.tag.Some? && BareFrom(s, text) && Run(s, text).tag.None?
    ensures text == more + (">" + rest) && '<' !in more && '>' !in more
    ensures Supported(TagName(s.tag.value + more)) ==> BlankFree(s.tag.value + more)
    ensures Run(s, text) == Run(Apply(s.stack, s.nested, s.tag.value + more), rest)
    ensures BareFrom(Open(s.stack), rest)
  {
    hide Run, TagName, Supported, Apply;
    var k := IndexByte(text, '>');
    if k < 0 {
      RunInside(s, text);
      assert false;
    }
    more, rest := text[..k], text[k + 1..];
    assert text == more + ([text[k]] + rest);
    var full := s.(tag := Some(s.tag.value + more));
    RunInside(s, more);
    RunConcat(s, more, ">" + rest);
    RunConcat(full, ">", rest);
    BareConcat(s, more, ">" + rest);
    BareConcat(full, ">", rest);
    BareInside(s, more);
    OneByte(full, '>');
    BareIgnoresStack(Step(full, '>'), Open(s.stack), rest);
  }

  /** Where the scan stands at an unclean cut: inside a tag that it ignores. */
  lemma UncleanTag(st: State, seed: seq<string>) returns (more: string, rest: string)
    requires Going(st) && Sound(st) && Bare(st.rest) && !CleanCut(st)
    ensures var mid := Run(Open(seed), Remaining(st)[..CutOf(st)]);
      && mid.tag.Some? && mid.nested && Remaining(st)[CutOf(st)..] == more + (">" + rest)
      && '<' !in more && '>' !in more && !Supported(TagName(mid.tag.value + more))
      && Run(Scan(mid.stack, None, true), rest) == Under(seed, Residue(st)) && Bare(rest)
  {
    hide Run, TagName, Supported, Apply, Remaining, Sound, Residue, InsideTag, Cut, AllSupported;
    var s, cut := Remaining(st), CutOf(st);
    var pre, post := s[..cut], s[cut..];
    var mid := Run(Open(seed), pre);
    assert s == pre + post;
    BareRemaining(st) by { SoundSupported(st); }
    InsideTagIsScan(Open(seed), s, cut);
    RunConcat(Open(seed), pre, post);
    SoundEnds(st, seed);
    NestedOnlyFalls(mid, post);
    BareIgnoresStack(START, Open(seed), s);
    BareConcat(Open(seed), pre, post);
    more, rest := FinishTag(mid, post);
    CutIsDeep(st, seed);
    CutTagIsIgnored(mid.tag.value, more);
    IgnoredTag(mid.stack, mid.nested, mid.tag.value + more);
    BareIgnoresStack(Open(mid.stack), START, rest);
  }

  lemma SoundEnds(st: State, seed: seq<string>)
    requires Sound(st)
    ensures Run(Open(seed), Remaining(st)) == Under(seed, Residue(st))
    ensures Residue(st).tag.None? && Residue(st).nested
  {
    ResidueOfRemaining(st);
  }

  lemma IgnoredTag(stack: seq<string>, nested: bool, body: string)
    requires !Supported(TagName(body))
    ensures Apply(stack, nested, body) == Scan(stack, None, nested)
  {
  }

  /** At an unclean cut the tag read so far holds a blank or fills the window. */
  lemma CutIsDeep(st: State, seed: seq<string>)
    requires Going(st) && !CleanCut(st)
    ensures var mid := Run(Open(seed), Remaining(st)[..CutOf(st)]);
      mid.tag.Some? && ((exists c :: c in mid.tag.value && IsBlank(c)) || |mid.tag.value| > 7)
  {
    hide Run, Remaining, InsideTag, Cut;
    var s, cut := Remaining(st), CutOf(st);
    var mid := Run(Open(seed), s[..cut]);
    InsideTagIsScan(Open(seed), s, cut);
    CutMeaning(s, CAP);
    if IsBlank(s[cut - 1]) {
      BlankInTag(s, cut, Open(seed));
    } else {
      InsideAll(s, cut);
      TagGrows(s, 0, cut);
      TagIgnoresStack(START, Open(seed), s[..cut]);
    }
  }

  lemma BlankInTag(s: string, cut: nat, seed: Scan)
    requires 0 < cut <= |s| && IsBlank(s[cut - 1]) && Run(seed, s[..cut]).tag.Some? && seed.tag.None?
    ensures exists c :: c in Run(seed, s[..cut]).tag.value && IsBlank(c)
  {
    hide Run;
    var front, c := s[..cut - 1], s[cut - 1];
    assert s[..cut] == front + [c];
    RunConcat(seed, front, [c]);
    OneByte(Run(seed, front), c);
    assert c in Run(seed, s[..cut]).tag.value;
  }

  lemma InsideAll(s: string, cut: nat)
    requires 0 < cut <= |s| && forall k :: 0 < k <= cut ==> s[k - 1] == '<' || InsideTag(s, k)
    ensures forall k :: 0 < k <= cut ==> InsideTag(s, k)
  {
    hide InsideTag;
    forall k | 0 < k <= cut
      ensures InsideTag(s, k)
    {
      InsideNext(s, k - 1);
    }
  }

  /** Blanks at the end of a scan that stands inside a tag are inside it. */
  lemma BlanksInTag(s: Scan, chunk: string, blanks: string)
    requires s.tag.None? && AllBlank(blanks) && Run(s, chunk + blanks).tag.Some?
    ensures var t := Run(s, chunk);
      t.tag.Some? && Run(s, chunk + blanks) == t.(tag := Some(t.tag.value + blanks))
  {
    RunConcat(s, chunk, blanks);
    var t := Run(s, chunk);
    if t.tag.Some? {
      RunInside(t, blanks);
    } else {
      BlanksKeepState(t, blanks);
    }
  }

  lemma TrimmedStack(s: Scan, pre: string)
    requires s.tag.None? && Run(s, pre).tag.Some?
    ensures var t := Run(s, TrimRight(pre));
      t.tag.Some? && t.stack == Run(s, pre).stack && t.nested == Run(s, pre).nested
      && t.tag.value <= Run(s, pre).tag.value
  {
    hide Run, WithoutBlankTail, AllBlank;
    var m := WithoutBlankTail(pre, |pre|);
    WithoutBlankTailMeaning(pre, |pre|);
    assert pre[m..|pre|] == pre[m..] && pre == pre[..m] + pre[m..];
    BlanksInTag(s, pre[..m], pre[m..]);
  }

  /** The rest of an ignored tag, read as text, changes nothing. */
  lemma LeftoverTag(s: Scan, more: string, rest: string)
    requires s.tag.None? && '<' !in more && Bare(rest)
    ensures Run(s, TrimLeft(more + (">" + rest))) == Run(s, rest)
    ensures Bare(TrimLeft(more + (">" + rest)))
  {
    hide Run, TrimLeft;
    var post, front := more + (">" + rest), more + ">";
    assert post == front + rest;
    RunOutside(s, front);
    RunConcat(s, front, rest);
    TrimmedRest(s, post);
    RunOutside(START, front);
    BareOutside(START, front);
    BareConcat(START, front, rest);
    BareTrimmed(post);
  }

  lemma BareTrimmed(post: string)
    requires Bare(post)
    ensures Bare(TrimLeft(post))
  {
    var n := LeadingBlanks(post);
    LeadingBlanksMeaning(post);
    assert post == post[..n] + post[n..];
    BlanksKeepState(START, post[..n]);
    BareConcat(START, post[..n], post[n..]);
  }

  /** The equation of RoundResidue holds of every cut of bare text, clean or not. */
  lemma BareRound(st: State, seeded: bool)
    requires Going(st) && Sound(st) && Bare(st.rest)
    ensures Residue(Round(st, seeded)) == Under(SeedOf(st, seeded), Residue(st))
    ensures Sound(Round(st, seeded)) && Bare(Round(st, seeded).rest)
  {
    hide Run, Sound, Bare, Residue, CleanCut, Openers, Closers, Shrunk, Remaining, Round, Cut;
    if CleanCut(st) {
      RoundResidue(st, seeded);
      CleanBareRest(st, seeded);
    } else {
      UncleanRound(st, seeded);
    }
  }

  lemma CleanBareRest(st: State, seeded: bool)
    requires Going(st) && Sound(st) && Bare(st.rest) && CleanCut(st)
    ensures Bare(Round(st, seeded).rest)
  {
    hide Run, Openers, Closers, Shrunk, Remaining, Cut, TrimLeft, InsideTag, Sound;
    var s, cut := Remaining(st), CutOf(st);
    SoundSupported(st);
    BareRemaining(st);
    assert s == s[..cut] + s[cut..];
    InsideTagIsScan(START, s, cut);
    BareConcat(START, s[..cut], s[cut..]);
    BareIgnoresStack(Run(START, s[..cut]), START, s[cut..]);
    BareTrimmed(s[cut..]);
  }

  lemma UncleanRound(st: State, seeded: bool)
    requires Going(st) && Sound(st) && Bare(st.rest) && !CleanCut(st)
    ensures Residue(Round(st, seeded)) == Under(SeedOf(st, seeded), Residue(st))
    ensures Sound(Round(st, seeded)) && Bare(Round(st, seeded).rest)
  {
    hide Run, Openers, Closers, Shrunk, Remaining, Cut, TrimLeft, TrimRight, TagName, CleanCut, AllSupported;
    var s, cut, seed := Remaining(st), CutOf(st), SeedOf(st, seeded);
    assert AllSupported(seed) by {
      SoundSupported(st);
      NoneSupported();
    }
    var more, rest := UncleanTag(st, seed);
    SoundEnds(st, seed);
    RunSupported(Open(seed), s[..cut]);
    TrimmedStack(Open(seed), s[..cut]);
    var mid := Run(Open(seed), s[..cut]);
    LeftoverTag(Open(mid.stack), more, rest);
  }
}
