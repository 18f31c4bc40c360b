/**
 * One long bold span, `<b>XX...X</b>`, sent through the splitter as written: from 8000
 * bytes on some part is invalid, and from 60000 bytes on the loop never ends.
 */
module BoldSpan {
  import opened Optional
  import opened TextBytes
  import opened TagScan
  import opened SafeSplit
  import opened SplitTheorems
  import opened SplitRuns
  import opened SplitAsWritten
  import opened SplitParts

  function Xs(n: nat): (r: string)
    ensures |r| == n && forall c :: c in r ==> c == 'X'
  {
    if n == 0 then [] else ['X'] + Xs(n - 1)
  }

  /** `n` nested bold tags. */
  function Bolds(n: nat): (r: seq<string>)
    ensures |r| == n && forall name :: name in r ==> name == "b"
  {
    if n == 0 then [] else Bolds(n - 1) + ["b"]
  }

  function Body(n: nat): string { Opener("b") + Xs(n) + Closer("b") }

  lemma {:induction false} BoldOpeners(n: nat)
    ensures |Openers(Bolds(n))| == 3 * n && AllSupported(Bolds(n))
    decreases n
  {
    if n > 0 {
      BoldOpeners(n - 1);
    }
  }

  lemma BoldsAdd(m: nat, n: nat)
    ensures Bolds(m) + Bolds(n) == Bolds(m + n)
  {
    var s := Bolds(m) + Bolds(n);
    assert forall i :: 0 <= i < |s| ==> s[i] in Bolds(m) || s[i] in Bolds(n);
    AllBolds(s);
  }

  lemma {:induction false} AllBolds(s: seq<string>)
    requires forall name :: name in s ==> name == "b"
    ensures s == Bolds(|s|)
    decreases |s|
  {
    if s != [] {
      var front := s[..|s| - 1];
      assert forall name :: name in front ==> name in s;
      AllBolds(front);
      assert s[|s| - 1] in s && s == front + ["b"];
    }
  }

  lemma {:induction false} XsDrop(n: nat, k: nat)
    requires k <= n
    ensures Xs(n)[..k] == Xs(k) && Xs(n)[k..] == Xs(n - k)
    decreases k
  {
    if k > 0 {
      XsDrop(n - 1, k - 1);
    }
  }

  /** A window without blanks that ends outside every tag is taken whole. */
  lemma WholeWindow(s: string, window: string)
    requires |s| > CAP && |window| == CAP && window <= s
    requires forall c :: c in window ==> !IsBlank(c)
    requires !InsideTag(s, CAP) && window[CAP - 1] != '<'
    ensures Cut(s, CAP) == CAP
  {
    assert s[..CAP] == window;
    NoSeparator(window, "\n\n");
    NoSeparator(window, "\n");
    NoSeparator(window, ". ");
    NoSeparator(window, " ");
    assert s[CAP - 1] == window[CAP - 1];
  }

  lemma NoSeparator(window: string, sep: string)
    requires sep != [] && IsBlank(sep[|sep| - 1])
    requires forall c :: c in window ==> !IsBlank(c)
    ensures LastIndex(window, sep) == -1
  {
    SeparatorEnd(window, sep);
  }

  /** One round on re-opened tags followed by plain text that reaches past the window. */
  lemma PlainRound(st: State, names: seq<string>, x: nat, tail: string)
    requires Remaining(st) == Openers(names) + Xs(x) + tail && AllSupported(names) && Going(st)
    requires |Openers(names)| < CAP < |Openers(names)| + x
    ensures Round(st, true).carry == st.carry + names
    ensures Round(st, true).rest == Xs(x - (CAP - |Openers(names)|)) + tail
    ensures ChunkOf(st) == Openers(names) + Xs(CAP - |Openers(names)|)
  {
    hide InsideTag, Cut, Openers, AllSupported, Run, Xs;
    var a, s := Openers(names), Remaining(st);
    var k := CAP - |a|;
    var window, behind := a + Xs(k), Xs(x - k) + tail;
    XsDrop(x, k);
    Regrouped(a, Xs(x), k, tail);
    assert s == window + behind && s[..CAP] == window && s[CAP..] == behind;
    WindowShape(names, k);
    RunConcat(Open(st.carry), a, Xs(k));
    RunOpeners(Open(st.carry), names);
    RunOutside(Open(st.carry + names), Xs(k));
    InsideTagIsScan(Open(st.carry), s, CAP);
    WholeWindow(s, window);
    NoTrailingBlank(window);
    assert behind[0] == Xs(x - k)[0] && Xs(x - k)[0] in Xs(x - k);
  }

  lemma Regrouped(a: string, xs: string, k: nat, tail: string)
    requires k <= |xs|
    ensures a + xs + tail == a + xs[..k] + (xs[k..] + tail)
  {
  }

  lemma WindowShape(names: seq<string>, k: nat)
    requires AllSupported(names) && k > 0
    ensures var window := Openers(names) + Xs(k);
      (forall c :: c in window ==> !IsBlank(c)) && window[|window| - 1] == 'X'
  {
    OpenersShape(names);
    assert Xs(k)[k - 1] in Xs(k);
  }

  predicate InSpan(st: State, m: nat, x: nat) {
    st.carry == Bolds(m) && st.rest == Xs(x) + Closer("b")
  }

  /** The bold tags re-opened double with every round. */
  lemma Doubling(st: State, m: nat, x: nat)
    requires InSpan(st, m, x) && 3 * m < CAP && x >= MAX
    ensures Going(st) && InSpan(Round(st, true), 2 * m, x - (CAP - 3 * m))
  {
    hide Round, Openers;
    BoldOpeners(m);
    assert Remaining(st) == Openers(Bolds(m)) + Xs(x) + Closer("b");
    PlainRound(st, Bolds(m), x, Closer("b"));
    BoldsAdd(m, m);
  }

  /** Plain bytes needed from `m` re-opened tags on, until the tags fill the window. */
  function Needed(m: nat): nat
    requires m > 0
    decreases CAP - 3 * m
  {
    if 3 * m >= CAP then MAX else MAX + Needed(2 * m)
  }

  lemma {:induction false} SpanNeverEnds(st: State, m: nat, x: nat, n: nat)
    requires 0 < m && InSpan(st, m, x) && x >= Needed(m)
    ensures Going(Rounds(st, n, true))
    decreases n
  {
    hide Round;
    if 3 * m >= CAP {
      BoldOpeners(m);
      NeverEnds(st, n);
    } else {
      Doubling(st, m, x);
      if n > 0 {
        SpanNeverEnds(Round(st, true), 2 * m, x - (CAP - 3 * m), n - 1);
      }
    }
  }

  lemma FirstRound(n: nat)
    requires n >= MAX
    ensures Going(Start(Body(n))) && InSpan(Round(Start(Body(n)), true), 1, n - (CAP - 3))
  {
    hide Round;
    var st := Start(Body(n));
    assert Bolds(1) == ["b"] by { assert Bolds(0) == []; }
    assert Openers(Bolds(1)) == Opener("b") by { assert Bolds(1)[..0] == []; NoOpeners(); }
    assert Remaining(st) == Openers(Bolds(1)) + Xs(n) + Closer("b") by { NoOpeners(); }
    PlainRound(st, Bolds(1), n, Closer("b"));
  }

  lemma Unpadded(n: nat)
    ensures TrimSpace(Body(n)) == Body(n)
  {
    var b := Body(n);
    assert b[0] == '<' && b[|b| - 1] == '>';
  }

  // ---- the span is a body the splitter is meant for ---------------------------------

  lemma InText(n: nat, i: nat)
    requires 3 <= i <= 3 + n
    ensures Run(START, Body(n)[..i]) == Open(["b"])
  {
    var read := Xs(n)[..i - 3];
    assert Body(n)[..i] == Opener("b") + read;
    XsDrop(n, i - 3);
    RunConcat(START, Opener("b"), read);
    BoldToken();
    RunOutside(Open(["b"]), read);
  }

  lemma BoldToken()
    ensures Run(START, Opener("b")) == Open(["b"]) && Run(Open(["b"]), Closer("b")) == START
  {
    SupportedName("b");
    RunToken(START, "b");
    RunClosers(START, ["b"]);
    assert [] + ["b"] == ["b"];
    assert Closers(["b"]) == Closer("b") by { assert ["b"][..0] == []; assert Closer("b") + Closers([]) == Closer("b"); }
  }

  lemma InOpener(n: nat, i: nat)
    requires i < 3
    ensures Run(START, Body(n)[..i]).stack == [] && (i > 0 ==> InsideTag(Body(n), i))
  {
    InsideTagIsScan(START, Body(n), i);
    if i > 0 {
      var read := "b"[..i - 1];
      assert Body(n)[..i] == "<" + read;
      RunConcat(START, "<", read);
      assert Run(START, "<") == Run(Step(START, '<'), []);
      RunInside(Run(START, "<"), read);
    } else {
      assert Body(n)[..i] == [];
    }
  }

  lemma InCloser(n: nat, i: nat)
    requires 3 + n < i < 7 + n
    ensures Run(START, Body(n)[..i]).stack == ["b"]
  {
    var text, read := Body(n)[..3 + n], "/b"[..i - n - 4];
    assert Body(n)[..i] == text + ("<" + read);
    InText(n, 3 + n);
    RunConcat(START, text, "<" + read);
    RunConcat(Open(["b"]), "<", read);
    var begun := Step(Open(["b"]), '<');
    assert Run(Open(["b"]), "<") == Run(begun, []);
    assert '>' !in "/b";
    RunInside(begun, read);
  }

  lemma SpanIsNested(n: nat)
    ensures WellNested(Body(n))
  {
    InText(n, 3 + n);
    var text := Opener("b") + Xs(n);
    assert Body(n)[..3 + n] == text;
    RunConcat(START, text, Closer("b"));
    BoldToken();
  }

  lemma SpanIsShallow(n: nat)
    ensures ShallowTags(Body(n))
  {
    var b := Body(n);
    assert |Closers(["b"])| == 4 by { assert ["b"][..0] == []; assert Closers([]) == []; }
    forall i | 0 <= i <= |b|
      ensures |Closers(Run(START, b[..i]).stack)| <= RESERVE
    {
      if i < 3 {
        InOpener(n, i);
      } else if i <= 3 + n {
        InText(n, i);
      } else if i < 7 + n {
        InCloser(n, i);
      } else {
        assert b[..i] == b;
        SpanIsNested(n);
      }
    }
  }

  lemma SpanIsTidy(n: nat)
    ensures Tidy(Body(n))
  {
    var b := Body(n);
    forall i | 0 <= i < |b|
      ensures !IsBlank(b[i])
    {
      if 3 <= i < 3 + n {
        assert b[i] == Xs(n)[i - 3] && Xs(n)[i - 3] in Xs(n);
      }
    }
    forall i: nat | i <= |b| && !InsideTag(b, i)
      ensures OutsideWithin(b, i)
    {
      if i + LONGEST <= |b| {
        if 0 < i < 3 {
          InOpener(n, i);
        } else {
          var k := if i == 0 then 3 else i + 1;
          InText(n, k);
          InsideTagIsScan(START, b, k);
          assert i < k <= i + LONGEST && !InsideTag(b, k);
        }
      }
    }
  }

  lemma SpanIsGood(n: nat)
    ensures Good(Body(n)) && Tidy(Body(n))
  {
    hide *;
    SpanIsNested(n);
    SpanIsTidy(n);
    SpanIsShallow(n);
    GoodFrom(Body(n));
  }

  lemma GoodFrom(b: string)
    requires WellNested(b) && Tidy(b) && ShallowTags(b)
    ensures Good(b)
  {
    hide WellNested, Tidy, ShallowTags;
  }

  /**
   * From 8000 bytes of bold text on, the code never returns only valid parts, although the
   * documented discipline does.
   */
  lemma LongSpanIsInvalid(n: nat, rounds: nat)
    requires n >= 8000
    ensures var r := Split(Body(n), rounds, true); r.None? || !AllValid(r.value)
    ensures var r := Split(Body(n), |Body(n)|, false); r.Some? && AllValid(r.value)
  {
    hide Round, TrimSpace, Good, AllValid;
    Unpadded(n);
    SpanIsGood(n);
    DocumentedSplit(Body(n));
    CarriedTwice(n);
    if Split(Body(n), rounds, true).Some? && AllValid(Split(Body(n), rounds, true).value) {
      GoodAndTidy(Body(n));
      ValidOnlyIfCarriesOnce(Body(n), rounds);
    }
  }

  lemma CarriedTwice(n: nat)
    requires n >= 8000
    ensures !CarriesOnce(Start(Body(n)))
  {
    hide Round;
    FirstRound(n);
    var next := Round(Start(Body(n)), true);
    assert next.carry != [];
    assert |Remaining(next)| > MAX;
  }

  /** From 60000 bytes of bold text on, the code never returns. */
  lemma LongSpanNeverReturns(n: nat, rounds: nat)
    requires n >= 60000
    ensures Split(Body(n), rounds, true) == None
  {
    hide Round, TrimSpace;
    var st := Start(Body(n));
    Unpadded(n);
    FirstRound(n);
    if rounds > 0 {
      NeededFromOne();
      SpanNeverEnds(Round(st, true), 1, n - (CAP - 3), rounds - 1);
    }
  }

  lemma NeededFromOne()
    ensures Needed(1) <= 50000
  {
    assert Needed(2048) == MAX;
    assert Needed(1024) == MAX + Needed(2048);
    assert Needed(512) == MAX + Needed(1024);
    assert Needed(256) == MAX + Needed(512);
    assert Needed(128) == MAX + Needed(256);
    assert Needed(64) == MAX + Needed(128);
    assert Needed(32) == MAX + Needed(64);
    assert Needed(16) == MAX + Needed(32);
    assert Needed(8) == MAX + Needed(16);
    assert Needed(4) == MAX + Needed(8);
    assert Needed(2) == MAX + Needed(4);
  }

  // ---- text that is lost -----------------------------------------------------------------

  const DEPTH := 17

  /** Seventeen nested bold tags around plain text: their closers take 68 bytes. */
  function DeepBody(n: nat): string { Openers(Bolds(DEPTH)) + Xs(n) + Closers(Bolds(DEPTH)) }

  lemma {:induction false} BoldClosers(n: nat)
    ensures |Closers(Bolds(n))| == 4 * n
    decreases n
  {
    if n > 0 {
      BoldClosers(n - 1);
    }
  }

  lemma DeepChunk(a: string, k: nat, closers: nat)
    requires |a| + k == CAP && MAX - CAP < closers < MAX - |a|
    ensures Shrunk(a + Xs(k), closers) == a + Xs(MAX - closers - |a|)
  {
    hide Xs;
    XsDrop(k, MAX - closers - |a|);
    assert (a + Xs(k))[..MAX - closers] == a + Xs(k)[..MAX - closers - |a|];
  }

  /** The first part of such a body stops four bytes short of what the next one starts with: they are lost. */
  lemma DeepSpanLosesText(n: nat)
    requires n >= MAX
    ensures WellNested(DeepBody(n))
    ensures var st, names := Start(DeepBody(n)), Bolds(DEPTH);
      && Going(st)
      && Round(st, true).parts == [Openers(names) + Xs(3881) + Closers(names)]
      && Round(st, true).rest == Xs(n - 3885) + Closers(names)
  {
    hide Openers, Closers, Xs, AllSupported, Run, Shrunk, Bolds, Cut, Round, ChunkOf, Remaining, Going, LeadingBlanks,
         WithoutBlankTail, DeepBody, WellNested;
    var st, names := Start(DeepBody(n)), Bolds(DEPTH);
    BoldOpeners(DEPTH);
    BoldClosers(DEPTH);
    DeepStart(n);
    DeepIsNested(n);
    PlainRound(st, names, n, Closers(names));
    DeepChunk(Openers(names), 3885, 68);
    RoundShape(st, true);
  }

  lemma DeepStart(n: nat)
    requires n >= MAX
    ensures var st, names := Start(DeepBody(n)), Bolds(DEPTH);
      && Going(st) && Remaining(st) == Openers(names) + Xs(n) + Closers(names)
      && st.parts == [] && st.carry + names == names
  {
    hide Closers, Xs, Bolds;
    NoOpeners();
  }

  lemma DeepIsNested(n: nat)
    ensures WellNested(DeepBody(n))
  {
    hide Openers, Closers, Xs, AllSupported, Run, Bolds;
    var names := Bolds(DEPTH);
    BoldOpeners(DEPTH);
    RunOpeners(START, names);
    RunConcat(START, Openers(names), Xs(n));
    RunOutside(START.(stack := [] + names), Xs(n));
    RunConcat(START, Openers(names) + Xs(n), Closers(names));
    RunClosers(START, names);
  }
}
