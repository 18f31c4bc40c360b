/**
 * The splitter's tag scanner (internal/infra/alerting/safe_split.go, lines 118-216):
 * which supported tags a chunk of Telegram HTML leaves open, and the closers and
 * openers written for such a stack.
 *
 * `Scan` is the reference: a one-byte-at-a-time automaton. The method `TagStack` is
 * the source's index-jumping loop, proved to compute the automaton's stack.
 */
module TagScan {
  import opened Optional
  import opened TextBytes

  /**
   * `stack` is the source's stack of open tags; `tag` is the text read since an
   * unfinished '<'; `nested` records whether every supported closing tag so far
   * closed the innermost open tag.
   */
  datatype Scan = Scan(stack: seq<string>, tag: Option<string>, nested: bool)

  predicate Supported(name: string) {
    name in {"b", "i", "u", "s", "code", "pre", "strong", "em"}
  }

  predicate AllSupported(stack: seq<string>) {
    forall name :: name in stack ==> Supported(name)
  }

  lemma NoneSupported()
    ensures AllSupported([])
  {
  }

  function UpToBlank(s: string): string {
    if s == [] || s[0] == ' ' || s[0] == '\t' then [] else [s[0]] + UpToBlank(s[1..])
  }

  predicate IsClosing(tagBody: string) { HasPrefix(tagBody, "/") }

  function TagName(tagBody: string): string {
    UpToBlank(ToLower(if IsClosing(tagBody) then tagBody[1..] else tagBody))
  }

  /** The last position of `name` in `stack`, or -1. */
  function LastOf(stack: seq<string>, name: string): (k: int)
    ensures -1 <= k < |stack|
  {
    if stack == [] then -1
    else if stack[|stack| - 1] == name then |stack| - 1
    else LastOf(stack[..|stack| - 1], name)
  }

  function Pop(stack: seq<string>, name: string): seq<string> {
    var k := LastOf(stack, name);
    if k < 0 then stack else stack[..k] + stack[k + 1..]
  }

  /** The effect of one complete tag `<tagBody>`. */
  function Apply(stack: seq<string>, nested: bool, tagBody: string): (after: Scan)
    ensures after.tag.None?
  {
    var name := TagName(tagBody);
    if !Supported(name) then Scan(stack, None, nested)
    else if IsClosing(tagBody) then
      Scan(Pop(stack, name), None, nested && stack != [] && stack[|stack| - 1] == name)
    else Scan(stack + [name], None, nested)
  }

  function Step(s: Scan, c: char): Scan {
    match s.tag
    case None => if c == '<' then s.(tag := Some("")) else s
    case Some(body) => if c == '>' then Apply(s.stack, s.nested, body) else s.(tag := Some(body + [c]))
  }

  function Run(s: Scan, text: string): Scan
    decreases |text|
  {
    if text == [] then s else Run(Step(s, text[0]), text[1..])
  }

  /** Outside any tag, with `stack` open and no nesting error. */
  function Open(stack: seq<string>): Scan { Scan(stack, None, true) }

  const START: Scan := Open([])

  /** A message that is valid on its own: properly nested, every tag finished and closed. */
  predicate WellNested(text: string) { Run(START, text) == START }

  function StackAfter(seed: seq<string>, chunk: string): seq<string> {
    Run(Open(seed), chunk).stack
  }

  lemma {:induction false} LastOfMeans(stack: seq<string>, name: string)
    ensures var k := LastOf(stack, name);
      if k < 0 then name !in stack else stack[k] == name && name !in stack[k + 1..]
    decreases |stack|
  {
    if stack != [] && stack[|stack| - 1] != name {
      LastOfMeans(stack[..|stack| - 1], name);
      var k := LastOf(stack, name);
      assert stack[k + 1..] == stack[..|stack| - 1][k + 1..] + [stack[|stack| - 1]];
    }
  }

  lemma {:induction false} UpToBlankMeans(s: string)
    ensures var n := |UpToBlank(s)|;
      && n <= |s| && UpToBlank(s) == s[..n] && ' ' !in s[..n] && '\t' !in s[..n]
      && (n < |s| ==> s[n] == ' ' || s[n] == '\t')
    decreases |s|
  {
    if s != [] && s[0] != ' ' && s[0] != '\t' {
      UpToBlankMeans(s[1..]);
      assert s[..|UpToBlank(s)|] == [s[0]] + s[1..][..|UpToBlank(s)| - 1];
    }
  }

  /** A tag's name: what follows the slash, in lower case, up to the first blank or tab. */
  lemma TagNameMeans(tagBody: string)
    ensures var closing := |tagBody| > 0 && tagBody[0] == '/';
      var raw := ToLower(if closing then tagBody[1..] else tagBody);
      var n := |TagName(tagBody)|;
      && (IsClosing(tagBody) <==> closing)
      && n <= |raw| && TagName(tagBody) == raw[..n] && ' ' !in raw[..n] && '\t' !in raw[..n]
      && (n < |raw| ==> raw[n] == ' ' || raw[n] == '\t')
  {
    assert |tagBody| > 0 ==> tagBody[..1] == [tagBody[0]];
    UpToBlankMeans(ToLower(if IsClosing(tagBody) then tagBody[1..] else tagBody));
  }

  /**
   * A complete tag, on the names it meets: one of the eight known names is pushed by an opening
   * tag; a closing tag takes away the topmost one of its name, if there is any; every other tag
   * is passed over. Nesting is kept unless a closing tag does not close the innermost open tag.
   */
  lemma TagMeans(stack: seq<string>, nested: bool, tagBody: string)
    ensures var name, closing := TagName(tagBody), |tagBody| > 0 && tagBody[0] == '/';
      var known := name == "b" || name == "i" || name == "u" || name == "s"
        || name == "code" || name == "pre" || name == "strong" || name == "em";
      var after := Apply(stack, nested, tagBody);
      && (!known ==> after.stack == stack && after.nested == nested)
      && (known && !closing ==> after.stack == stack + [name] && after.nested == nested)
      && (known && closing && name !in stack ==> after.stack == stack && !after.nested)
      && (known && closing && name in stack ==>
        exists k: nat :: k < |stack| && stack[k] == name && name !in stack[k + 1..]
          && after.stack == stack[..k] + stack[k + 1..]
          && (after.nested <==> nested && k == |stack| - 1))
  {
    hide TagName, ToLower;
    TagNameMeans(tagBody);
    var name := TagName(tagBody);
    LastOfMeans(stack, name);
    if name in stack {
      var k := LastOf(stack, name);
      assert k >= 0;
      assert stack[|stack| - 1] == name ==> k == |stack| - 1;
    }
  }

  // ---- composition -------------------------------------------------------

  /** Scanning composes: the automaton's state is all that a later chunk needs. */
  lemma {:induction false} RunConcat(s: Scan, a: string, b: string)
    ensures Run(s, a + b) == Run(Run(s, a), b)
    decreases |a|
  {
    if a == [] {
      assert a + b == b;
    } else {
      assert (a + b)[0] == a[0] && (a + b)[1..] == a[1..] + b;
      RunConcat(Step(s, a[0]), a[1..], b);
    }
  }

  /** Text without '<' outside a tag changes nothing. */
  lemma {:induction false} RunOutside(s: Scan, text: string)
    requires s.tag.None? && '<' !in text
    ensures Run(s, text) == s
    decreases |text|
  {
    if text != [] {
      RunOutside(s, text[1..]);
    }
  }

  /** Text without '>' inside a tag is collected. */
  lemma {:induction false} RunInside(s: Scan, text: string)
    requires s.tag.Some? && '>' !in text
    ensures Run(s, text) == s.(tag := Some(s.tag.value + text))
    decreases |text|
  {
    if text == [] {
      assert s.tag.value + text == s.tag.value;
    } else {
      RunInside(Step(s, text[0]), text[1..]);
      assert s.tag.value + [text[0]] + text[1..] == s.tag.value + text;
    }
  }

  lemma RunToken(s: Scan, body: string)
    requires s.tag.None? && '>' !in body
    ensures Run(s, "<" + body + ">") == Apply(s.stack, s.nested, body)
  {
    var begun := s.(tag := Some(""));
    RunConcat(s, "<" + body, ">");
    RunConcat(s, "<", body);
    assert Run(s, "<") == Run(Step(s, '<'), "") == begun;
    RunInside(begun, body);
    assert "" + body == body;
    var full := s.(tag := Some(body));
    assert Run(full, ">") == Run(Step(full, '>'), "");
  }

  /** Once a nesting error is recorded it stays recorded. */
  lemma {:induction false} NestedOnlyFalls(s: Scan, text: string)
    requires Run(s, text).nested
    ensures s.nested
    decreases |text|
  {
    if text != [] {
      NestedOnlyFalls(Step(s, text[0]), text[1..]);
    }
  }

  function Under(below: seq<string>, s: Scan): Scan { s.(stack := below + s.stack) }

  /** Properly nested text never looks below the stack it started with. */
  lemma {:induction false} RunUnder(below: seq<string>, s: Scan, text: string)
    requires Run(s, text).nested
    ensures Run(Under(below, s), text) == Under(below, Run(s, text))
    decreases |text|
  {
    if text != [] {
      var t := Step(s, text[0]);
      NestedOnlyFalls(t, text[1..]);
      assert Step(Under(below, s), text[0]) == Under(below, t) by {
        if s.tag.Some? && text[0] == '>' {
          ApplyUnder(below, s.stack, s.nested, s.tag.value);
        }
      }
      RunUnder(below, t, text[1..]);
    }
  }

  lemma ApplyUnder(below: seq<string>, stack: seq<string>, nested: bool, body: string)
    requires Apply(stack, nested, body).nested
    ensures Apply(below + stack, nested, body) == Under(below, Apply(stack, nested, body))
  {
    var name := TagName(body);
    if Supported(name) {
      if IsClosing(body) {
        var all := below + stack;
        assert LastOf(all, name) == |all| - 1 && LastOf(stack, name) == |stack| - 1;
        assert all[..|all| - 1] + all[|all|..] == below + (stack[..|stack| - 1] + stack[|stack|..]);
      } else {
        assert below + stack + [name] == below + (stack + [name]);
      }
    }
  }

  // ---- only supported names are ever stacked -------------------------------

  lemma {:induction false} RunSupported(s: Scan, text: string)
    requires AllSupported(s.stack)
    ensures AllSupported(Run(s, text).stack)
    decreases |text|
  {
    if text != [] {
      RunSupported(Step(s, text[0]), text[1..]);
    }
  }

  // ---- closers and openers -------------------------------------------------

  function Opener(name: string): string { "<" + name + ">" }
  function Closer(name: string): string { "</" + name + ">" }

  /** `<tag>` for every tag, outermost first. */
  function Openers(stack: seq<string>): (r: string)
    ensures |r| >= 2 * |stack|
  {
    if stack == [] then [] else Openers(stack[..|stack| - 1]) + Opener(stack[|stack| - 1])
  }

  /** `</tag>` for every tag, innermost first. */
  function Closers(stack: seq<string>): (r: string)
    ensures |r| >= 3 * |stack|
  {
    if stack == [] then [] else Closer(stack[|stack| - 1]) + Closers(stack[..|stack| - 1])
  }

  predicate LowerCase(name: string) {
    forall i :: 0 <= i < |name| ==> 'a' <= name[i] <= 'z'
  }

  lemma SupportedIsPlain(name: string)
    requires Supported(name)
    ensures 1 <= |name| <= 6 && LowerCase(name)
  {
  }

  lemma SupportedName(name: string)
    requires Supported(name)
    ensures '>' !in name && '>' !in "/" + name && '<' !in name && 1 <= |name| <= 6
    ensures forall c :: c in name ==> !IsBlank(c)
    ensures !IsClosing(name) && IsClosing("/" + name)
    ensures TagName(name) == name && TagName("/" + name) == name
  {
    SupportedIsPlain(name);
    PlainName(name);
  }

  lemma PlainName(name: string)
    requires 1 <= |name| && LowerCase(name)
    ensures '>' !in name && '>' !in "/" + name && '<' !in name
    ensures forall c :: c in name ==> !IsBlank(c)
    ensures !IsClosing(name) && IsClosing("/" + name)
    ensures TagName(name) == name && TagName("/" + name) == name
  {
    assert ("/" + name)[1..] == name;
    assert name[..1] == [name[0]];
    assert ("/" + name)[..1] == "/";
    Plain(name);
  }

  lemma {:induction false} Plain(name: string)
    requires LowerCase(name)
    ensures ToLower(name) == name && UpToBlank(name) == name
    decreases |name|
  {
    if name != [] {
      Plain(name[1..]);
    }
  }

  /** Reading the openers of `names` pushes exactly `names`. */
  lemma {:induction false} RunOpeners(s: Scan, names: seq<string>)
    requires s.tag.None? && AllSupported(names)
    ensures Run(s, Openers(names)) == s.(stack := s.stack + names)
    decreases |names|
  {
    if names == [] {
      assert s.stack + names == s.stack;
    } else {
      var front, last := names[..|names| - 1], names[|names| - 1];
      RunOpeners(s, front);
      RunConcat(s, Openers(front), Opener(last));
      SupportedName(last);
      RunToken(s.(stack := s.stack + front), last);
      assert s.stack + front + [last] == s.stack + names;
    }
  }

  /** Reading the closers of `names` pops exactly `names`, without a nesting error. */
  lemma {:induction false} RunClosers(s: Scan, names: seq<string>)
    requires s.tag.None? && AllSupported(names)
    ensures Run(s.(stack := s.stack + names), Closers(names)) == s
    decreases |names|
  {
    if names == [] {
      assert s.stack + names == s.stack;
    } else {
      var front, last := names[..|names| - 1], names[|names| - 1];
      var full := s.(stack := s.stack + names);
      SupportedName(last);
      assert Closer(last) == "<" + ("/" + last) + ">";
      RunToken(full, "/" + last);
      assert full.stack[|full.stack| - 1] == last;
      assert LastOf(full.stack, last) == |full.stack| - 1;
      assert Pop(full.stack, last) == s.stack + front;
      RunConcat(full, Closer(last), Closers(front));
      RunClosers(s, front);
    }
  }

  lemma {:induction false} OpenersConcat(a: seq<string>, b: seq<string>)
    ensures Openers(a + b) == Openers(a) + Openers(b)
    decreases |b|
  {
    if b == [] {
      assert a + b == a;
    } else {
      var front, last := b[..|b| - 1], b[|b| - 1];
      assert (a + b)[..|a + b| - 1] == a + front;
      OpenersConcat(a, front);
    }
  }

  /** Closers of two stacks joined: those of the inner one come first. */
  lemma {:induction false} ClosersConcat(a: seq<string>, b: seq<string>)
    ensures Closers(a + b) == Closers(b) + Closers(a)
    decreases |b|
  {
    if b == [] {
      assert a + b == a;
    } else {
      var front, last := b[..|b| - 1], b[|b| - 1];
      assert (a + b)[..|a + b| - 1] == a + front;
      ClosersConcat(a, front);
    }
  }

  // ---- inside a tag --------------------------------------------------------

  /** Line 121: an unclosed '<' lies to the left of position `i`. */
  predicate InsideTag(s: string, i: nat)
    requires i <= |s|
  {
    var lt := LastIndex(s[..i], "<");
    lt >= 0 && lt > LastIndex(s[..i], ">")
  }

  lemma LastIndexSnoc(s: string, c: char, d: char)
    ensures LastIndex(s + [c], [d]) == if c == d then |s| else LastIndex(s, [d])
  {
    var t := s + [c];
    LastIndexMeaning(t, [d]);
    LastIndexMeaning(s, [d]);
    forall k | 0 <= k < |s|
      ensures MatchesAt(t, [d], k) <==> MatchesAt(s, [d], k)
    {
      assert t[k..k + 1] == [t[k]] && s[k..k + 1] == [s[k]];
    }
    assert t[|s|..|s| + 1] == [c];
    var r := LastIndex(t, [d]);
    assert !MatchesAt(t, [d], |s| + 1);
    if c == d {
      assert MatchesAt(t, [d], |s|);
    } else {
      var q := LastIndex(s, [d]);
      assert !MatchesAt(t, [d], |s|);
      assert !MatchesAt(s, [d], |s|);
    }
  }

  /** The look-behind test and the automaton agree on every prefix. */
  lemma {:induction false} InsideTagIsScan(seed: Scan, s: string, i: nat)
    requires i <= |s| && seed.tag.None?
    ensures InsideTag(s, i) <==> Run(seed, s[..i]).tag.Some?
    decreases i
  {
    if i == 0 {
      assert s[..i] == [];
    } else {
      InsideTagIsScan(seed, s, i - 1);
      var p, c := s[..i - 1], s[i - 1];
      assert s[..i] == p + [c];
      RunConcat(seed, p, [c]);
      var t := Run(seed, p);
      assert Run(t, [c]) == Run(Step(t, c), []);
      LastIndexSnoc(p, c, '<');
      LastIndexSnoc(p, c, '>');
    }
  }

  // ---- the source's loops --------------------------------------------------

  lemma ReadToken(at: Scan, plain: string, body: string, rest: string)
    requires at.tag.None? && '<' !in plain && '>' !in body
    ensures Run(at, plain + ("<" + body + ">" + rest)) == Run(Apply(at.stack, at.nested, body), rest)
  {
    var token := "<" + body + ">";
    RunOutside(at, plain);
    RunToken(at, body);
    RunConcat(at, plain, token + rest);
    RunConcat(at, token, rest);
  }

  lemma CutToken(text: string, lt: nat, gt: nat)
    requires lt + gt < |text| && 1 <= gt && text[lt] == '<' && text[lt + gt] == '>'
    ensures text == text[..lt] + ("<" + text[lt + 1..lt + gt] + ">" + text[lt + gt + 1..])
  {
    assert text[lt..lt + 1] == "<" && text[lt + gt..lt + gt + 1] == ">";
  }

  /** What one turn of the loop reads: plain text up to `j`, then the tag that ends at `j + gt`. */
  lemma ReadTag(at: Scan, text: string, lt: nat, gt: nat, body: string, rest: string)
    requires at.tag.None? && lt == IndexByte(text, '<')
    requires gt == IndexByte(text[lt..], '>')
    requires 1 <= gt && lt + gt < |text| && body == text[lt + 1..lt + gt] && rest == text[lt + gt + 1..]
    ensures Run(at, text) == Run(Apply(at.stack, at.nested, body), rest)
  {
    assert text[lt..][gt] == text[lt + gt];
    CutToken(text, lt, gt);
    assert text[lt + 1..lt + gt] == text[lt..][..gt][1..];
    ReadToken(at, text[..lt], body, rest);
  }

  lemma RunStep(s: Scan, c: char, rest: string)
    ensures Run(s, [c] + rest) == Run(Step(s, c), rest)
    ensures Run(s, []) == s
  {
    assert ([c] + rest)[1..] == rest;
  }

  /** The loop's exits: no tag starts, or the last one never ends. */
  lemma NoMoreTags(at: Scan, text: string)
    requires at.tag.None?
    requires var lt := IndexByte(text, '<'); lt == -1 || IndexByte(text[lt..], '>') == -1
    ensures Run(at, text).stack == at.stack
  {
    hide Run, IndexByte;
    var lt := IndexByte(text, '<');
    if lt == -1 {
      RunOutside(at, text);
    } else {
      RunOutside(at, text[..lt]);
      RunConcat(at, text[..lt], text[lt..]);
      assert text == text[..lt] + text[lt..];
      assert text[lt..] == ['<'] + text[lt..][1..];
      RunStep(at, '<', text[lt..][1..]);
      RunInside(Step(at, '<'), text[lt..][1..]);
    }
  }

  lemma SliceOfSlice(s: string, i: nat, lt: nat, gt: nat)
    requires i + lt + gt <= |s| && 1 <= gt
    ensures s[i..][lt..] == s[i + lt..]
    ensures s[i..][lt + 1..lt + gt] == s[i + lt + 1..i + lt + gt]
    ensures i + lt + gt < |s| ==> s[i..][lt + gt + 1..] == s[i + lt + gt + 1..]
  {
  }

  /** One turn of the loop below, in its own indices. */
  lemma Turn(at: Scan, chunk: string, i: nat, j: nat, gt: nat)
    requires at.tag.None? && i <= j < |chunk| && j - i == IndexByte(chunk[i..], '<')
    requires gt == IndexByte(chunk[j..], '>')
    ensures 1 <= gt && j + gt < |chunk|
    ensures Run(at, chunk[i..]) == Run(Apply(at.stack, at.nested, chunk[j + 1..j + gt]), chunk[j + gt + 1..])
  {
    hide Run, Apply, IndexByte;
    var body, rest := chunk[j + 1..j + gt], chunk[j + gt + 1..];
    SliceOfSlice(chunk, i, j - i, gt);
    ReadTag(at, chunk[i..], j - i, gt, body, rest);
  }

  /** Lines 147-185. */
  method TagStack(seed: seq<string>, chunk: string) returns (stack: seq<string>)
    ensures stack == StackAfter(seed, chunk)
  {
    hide Run, Apply, IndexByte;
    stack := seed;
    ghost var at := Open(seed);
    ghost var goal := Run(at, chunk);
    var i := 0;
    assert chunk[0..] == chunk;
    while i < |chunk|
      invariant 0 <= i <= |chunk|
      invariant at.stack == stack && at.tag.None?
      invariant Run(at, chunk[i..]) == goal
    {
      var lt := IndexByte(chunk[i..], '<');
      if lt < 0 {
        NoMoreTags(at, chunk[i..]);
        return;
      }
      var j := lt + i;
      SliceOfSlice(chunk, i, lt, 1);
      var gt := IndexByte(chunk[j..], '>');
      if gt < 0 {
        NoMoreTags(at, chunk[i..]);
        return;
      }
      var tagBody := chunk[j + 1..j + gt];
      Turn(at, chunk, i, j, gt);
      i := j + gt + 1;
      stack := ApplyTag(stack, tagBody, at.nested);
      at := Apply(at.stack, at.nested, tagBody);
    }
    assert chunk[i..] == [];
    RunStep(at, ' ', []);
  }

  /** Lines 162-182: one complete tag. */
  method ApplyTag(before: seq<string>, tagBody: string, ghost nested: bool) returns (stack: seq<string>)
    ensures stack == Apply(before, nested, tagBody).stack
  {
    stack := before;
    var closing := IsClosing(tagBody);
    var name := TagName(tagBody);
    if !Supported(name) {
      return;
    }
    if closing {
      stack := PopTop(stack, name);
      return;
    }
    stack := stack + [name];
  }

  /** Lines 174-179: pop the top occurrence of `name`. */
  method PopTop(before: seq<string>, name: string) returns (stack: seq<string>)
    ensures stack == Pop(before, name)
  {
    stack := before;
    var k := |stack| - 1;
    assert before[..k + 1] == before;
    while k >= 0
      invariant -1 <= k < |before| && stack == before
      invariant LastOf(before[..k + 1], name) == LastOf(before, name)
    {
      if stack[k] == name {
        stack := stack[..k] + stack[k + 1..];
        return;
      }
      assert before[..k + 1][..k] == before[..k];
      k := k - 1;
    }
  }

  /** Lines 189-200. */
  method CloserForStack(stack: seq<string>) returns (b: string)
    ensures b == Closers(stack)
  {
    b := "";
    if |stack| == 0 {
      return;
    }
    var i := |stack| - 1;
    assert stack[..|stack|] == stack;
    while i >= 0
      invariant -1 <= i < |stack|
      invariant b + Closers(stack[..i + 1]) == Closers(stack)
    {
      assert stack[..i + 1][..i] == stack[..i];
      b := b + "</";
      b := b + stack[i];
      b := b + ">";
      i := i - 1;
    }
  }

  /** Lines 205-216. */
  method OpenerForStack(stack: seq<string>) returns (b: string)
    ensures b == Openers(stack)
  {
    b := "";
    if |stack| == 0 {
      return;
    }
    for i := 0 to |stack|
      invariant b == Openers(stack[..i])
    {
      assert stack[..i + 1][..i] == stack[..i];
      b := b + "<";
      b := b + stack[i];
      b := b + ">";
    }
    assert stack[..|stack|] == stack;
  }
}
