/**
 * The loops of internal/infra/alerting/telegram.go: the sections of a trade alert appended to a
 * strings.Builder step by step, and `money`'s grouping.
 */
module TradeMessageWriters {
  import opened TextBytes
  import opened TagScan
  import opened TelegramHtml
  import opened Wording
  import opened TradeMessage
  import opened TradeMessageTheorems
  import opened TradeMessageText
  import TradeIngest

  // ---- strings.Builder ---------------------------------------------------------------------

  /** `text` is what has been written; `nodes` is the document it spells. */
  class Builder {
    var text: string
    ghost var nodes: seq<Node>

    ghost predicate Valid() reads this { text == Html(nodes) }

    constructor ()
      ensures Valid() && nodes == []
    {
      text, nodes := "", [];
    }

    method Write(line: seq<Node>)
      requires Valid()
      modifies this
      ensures Valid() && nodes == old(nodes) + line
    {
      HtmlConcat(nodes, line);
      text := text + Html(line);
      nodes := nodes + line;
    }
  }

  // ---- money (lines 968-983) -----------------------------------------------------------------

  /** What the loop still writes from position `i` on. */
  function SeparatorAt(s: string, i: nat): string {
    if 0 < i < |s| && (|s| - i) % 3 == 0 then "," else ""
  }

  lemma {:induction false} GroupedFromFront(s: string)
    requires |s| > 0
    ensures Grouped(s) == [s[0]] + (if |s| > 1 && (|s| - 1) % 3 == 0 then "," else "") + Grouped(s[1..])
    decreases |s|
  {
    if |s| > 3 {
      var front, back := s[..|s| - 3], s[|s| - 3..];
      GroupedFromFront(front);
      if |s| > 4 {
        assert s[1..][..|s| - 4] == front[1..] && s[1..][|s| - 4..] == back;
      } else {
        assert s[1..] == back && front[1..] == [];
      }
    }
  }

  lemma OneDigit(s: string, i: nat)
    requires i < |s|
    ensures Grouped(s[i..]) == [s[i]] + SeparatorAt(s, i + 1) + Grouped(s[i + 1..])
  {
    hide Grouped;
    GroupedFromFront(s[i..]);
    assert s[i..][1..] == s[i + 1..];
  }

  method MoneyDigits(s: string) returns (out: string)
    ensures out == Grouped(s)
  {
    hide Grouped, SeparatorAt;
    out := "";
    assert s[0..] == s && SeparatorAt(s, 0) == "" by {
      NoSeparatorAtStart(s);
    }
    for i := 0 to |s|
      invariant out + SeparatorAt(s, i) + Grouped(s[i..]) == Grouped(s)
    {
      OneDigit(s, i);
      ghost var more := Grouped(s[i + 1..]);
      assert SeparatorAt(s, i) == (if i > 0 && (|s| - i) % 3 == 0 then "," else "") by {
        SeparatorInside(s, i);
      }
      if i > 0 && (|s| - i) % 3 == 0 {
        out := out + ",";
      }
      out := out + [s[i]];
    }
    SeparatorAtEnd(s);
  }

  lemma NoSeparatorAtStart(s: string)
    ensures SeparatorAt(s, 0) == ""
  {
  }

  lemma SeparatorInside(s: string, i: nat)
    requires i < |s|
    ensures SeparatorAt(s, i) == if i > 0 && (|s| - i) % 3 == 0 then "," else ""
  {
  }

  lemma SeparatorAtEnd(s: string)
    ensures SeparatorAt(s, |s|) == "" && Grouped(s[|s|..]) == ""
  {
  }

  /** Reading the figure without its commas gives the digits back. */
  function WithoutCommas(s: string): string {
    if s == [] then [] else (if s[0] == ',' then [] else [s[0]]) + WithoutCommas(s[1..])
  }

  lemma {:induction false} WithoutCommasConcat(a: string, b: string)
    ensures WithoutCommas(a + b) == WithoutCommas(a) + WithoutCommas(b)
    decreases |a|
  {
    if a == [] {
      assert a + b == b;
    } else {
      assert (a + b)[0] == a[0] && (a + b)[1..] == a[1..] + b;
      WithoutCommasConcat(a[1..], b);
    }
  }

  lemma {:induction false} NoCommas(s: string)
    requires ',' !in s
    ensures WithoutCommas(s) == s
    decreases |s|
  {
    if s != [] {
      NoCommas(s[1..]);
    }
  }

  /** Grouping only inserts commas: no digit is lost or moved. */
  lemma {:induction false} GroupingKeepsDigits(s: string)
    requires ',' !in s
    ensures WithoutCommas(Grouped(s)) == s
    decreases |s|
  {
    hide WithoutCommas;
    if |s| <= 3 {
      NoCommas(s);
    } else {
      GroupingKeepsDigits(s[..|s| - 3]);
      OneGroup(Grouped(s[..|s| - 3]), s[|s| - 3..]);
    }
  }

  lemma OneComma()
    ensures WithoutCommas(",") == ""
  {
    var comma := ",";
    assert comma[0] == ',' && comma[1..] == "";
  }

  lemma OneGroup(a: string, b: string)
    requires ',' !in b
    ensures WithoutCommas(a + "," + b) == WithoutCommas(a) + b
  {
    hide WithoutCommas;
    WithoutCommasConcat(a + ",", b);
    WithoutCommasConcat(a, ",");
    NoCommas(b);
    OneComma();
  }

  /** A comma stands at every fourth byte from the right, and nowhere else. */
  lemma {:induction false} CommaPlaces(s: string)
    requires ',' !in s && s != ""
    ensures forall i :: 0 <= i < |Grouped(s)| ==> (Grouped(s)[i] == ',' <==> (|Grouped(s)| - i) % 4 == 0)
    decreases |s|
  {
    if |s| > 3 {
      CommaPlaces(s[..|s| - 3]);
      var front, back := Grouped(s[..|s| - 3]), s[|s| - 3..];
      forall i | 0 <= i < |Grouped(s)|
        ensures Grouped(s)[i] == ',' <==> (|Grouped(s)| - i) % 4 == 0
      {
        assert Grouped(s)[i] == if i < |front| then front[i] else if i == |front| then ',' else back[i - |front| - 1];
      }
    }
  }

  /** The number a string of digits stands for. */
  function Value(digits: string): int {
    if digits == "" then 0 else 10 * Value(digits[..|digits| - 1]) + digits[|digits| - 1] as int - 48
  }

  /** Printing a number yields its digits, without a leading zero. */
  lemma {:induction false} DigitsMean(n: nat)
    ensures var s := TradeIngest.Digits(n); Value(s) == n && (n > 0 ==> s[0] != '0')
    decreases n
  {
    var s := TradeIngest.Digits(n);
    if n >= 10 {
      DigitsMean(n / 10);
      assert s[..|s| - 1] == TradeIngest.Digits(n / 10);
    } else {
      assert s[..0] == "";
    }
  }

  /** Below a thousand two decimals; from there on the whole dollars, in groups of three digits. */
  lemma MoneyMeans(p: Printer, v: real)
    ensures v < 1000.0 ==> Money(p, v) == p.fixed(v, 2)
    ensures v >= 1000.0 ==>
      var s, digits := Money(p, v), WithoutCommas(Money(p, v));
      && Value(digits) as real <= v < Value(digits) as real + 1.0 && digits != "" && digits[0] != '0'
      && (forall c :: c in digits ==> '0' <= c <= '9')
      && (forall i :: 0 <= i < |s| ==> (s[i] == ',' <==> (|s| - i) % 4 == 0))
  {
    if v >= 1000.0 {
      var digits := TradeIngest.Digits(v.Floor);
      assert ',' !in digits;
      GroupingKeepsDigits(digits);
      CommaPlaces(digits);
      DigitsMean(v.Floor);
      assert Money(p, v) == Grouped(digits);
    }
  }

  // ---- the sections with loops ------------------------------------------------------------------

  method WriteLinks(b: Builder, f: Finding, p: Printer)
    requires b.Valid()
    modifies b
    ensures b.Valid() && b.nodes == old(b.nodes) + Links(f, p)
  {
    hide Html, Heading, LinkLine, Entries;
    var entries := Entries(f, p);
    var any := false;
    for i := 0 to |entries|
      invariant any <==> exists k :: 0 <= k < i && entries[k].href != ""
    {
      if entries[i].href != "" {
        any := true;
        break;
      }
    }
    if !any {
      return;
    }
    assert AnyLink(entries);
    b.Write(Heading(LINKS));
    for i := 0 to |entries|
      invariant b.Valid() && b.nodes == old(b.nodes) + Heading(LINKS) + LinkLines(entries[..i])
    {
      assert entries[..i + 1][..i] == entries[..i];
      if entries[i].href != "" {
        b.Write(LinkLine(entries[i]));
      }
    }
    assert entries[..|entries|] == entries;
  }

  method WriteRecentAnnotationsBlock(b: Builder, f: Finding, p: Printer)
    requires b.Valid()
    modifies b
    ensures b.Valid() && b.nodes == old(b.nodes) + Annotations(f, p)
  {
    hide Html, Heading, AnnotationLines;
    if |f.recentAnnotations| == 0 {
      return;
    }
    b.Write(Heading(ANNOTATIONS));
    WriteAnnotationLines(b, FirstThree(f.recentAnnotations), p);
  }

  method WriteAnnotationLines(b: Builder, notes: seq<AnnotationRef>, p: Printer)
    requires b.Valid()
    modifies b
    ensures b.Valid() && b.nodes == old(b.nodes) + AnnotationLines(notes, p)
  {
    hide Html, Annotation;
    for i := 0 to |notes|
      invariant b.Valid() && b.nodes == old(b.nodes) + AnnotationLines(notes[..i], p)
    {
      assert notes[..i + 1][..i] == notes[..i];
      b.Write(Annotation(notes[i], p));
    }
    assert notes[..|notes|] == notes;
  }

  method WriteNoteLines(b: Builder, lines: seq<string>)
    requires b.Valid()
    modifies b
    ensures b.Valid() && b.nodes == old(b.nodes) + NoteLines(lines)
  {
    hide Html, NoteLine;
    for i := 0 to |lines|
      invariant b.Valid() && b.nodes == old(b.nodes) + NoteLines(lines[..i])
    {
      assert lines[..i + 1][..i] == lines[..i];
      b.Write(NoteLine(i, lines[i]));
    }
    assert lines[..|lines|] == lines;
  }

  method WriteAnalystNote(b: Builder, f: Finding, p: Printer)
    requires b.Valid()
    modifies b
    ensures b.Valid() && b.nodes == old(b.nodes) + AnalystNote(f, p)
  {
    hide Html, Heading, Blocked, Annotations, NoteLines, TrimSpace, SplitLines;
    b.Write(Blocked(f));
    var note := TrimSpace(f.analystNote);
    if note == "" {
      WriteRecentAnnotationsBlock(b, f, p);
      return;
    }
    b.Write(Heading(AI_ANALYSIS));
    WriteNoteLines(b, SplitLines(note));
    WriteRecentAnnotationsBlock(b, f, p);
  }

  /**
   * Lines 398-406. The text is the list of labels, figures and texts the source's format strings
   * spell; for a severity without markup it is well nested and shows every field verbatim.
   */
  method FormatTradeAnomaly(f: Finding, p: Printer) returns (text: string)
    ensures text == Html(Message(f, p)) == Cat(AlertSays(f, p))
    ensures Markless(f.severity) ==> WellNested(text) && Shown(text) == Words(Message(f, p))
  {
    hide Html, Header, Why, TradeBlock, Links, AnalystNote, WellNested, Shown, Words, Markless, Cat, AlertSays;
    var b := new Builder();
    b.Write(Header(f, p));
    b.Write(Why(f, p));
    b.Write(TradeBlock(f, p));
    WriteLinks(b, f, p);
    WriteAnalystNote(b, f, p);
    assert b.nodes == Message(f, p);
    MessageSays(f, p);
    if Markless(f.severity) {
      MessageReads(f, p);
    }
    return b.text;
  }
}
