/** Byte strings and the few `strings` helpers the repository's code relies on. */
module TextBytes {

  /** The first index of `c` in `s`, or -1. */
  function IndexByte(s: string, c: char): (r: int)
    ensures -1 <= r < |s|
    ensures r == -1 ==> c !in s
    ensures r >= 0 ==> s[r] == c && c !in s[..r]
  {
    if s == [] then -1
    else if s[0] == c then 0
    else
      var k := IndexByte(s[1..], c);
      if k < 0 then -1 else
        assert s[..k + 1] == [s[0]] + s[1..][..k];
        k + 1
  }

  predicate MatchesAt(s: string, sep: string, i: int) {
    0 <= i && i + |sep| <= |s| && s[i..i + |sep|] == sep
  }

  /** The greatest index at most `from` where `sep` occurs in `s`, or -1. */
  function LastIndexUpTo(s: string, sep: string, from: int): (r: int)
    requires -1 <= from
    ensures -1 <= r <= from
    decreases from
  {
    if from < 0 then -1
    else if MatchesAt(s, sep, from) then from
    else LastIndexUpTo(s, sep, from - 1)
  }

  /** The start of the last occurrence of `sep` in `s`, or -1. */
  function LastIndex(s: string, sep: string): (r: int)
    ensures -1 <= r <= |s|
  {
    LastIndexUpTo(s, sep, |s|)
  }

  lemma {:induction false} LastIndexUpToMeaning(s: string, sep: string, from: int)
    requires -1 <= from
    ensures var r := LastIndexUpTo(s, sep, from);
      (r >= 0 ==> MatchesAt(s, sep, r)) && forall k :: r < k <= from ==> !MatchesAt(s, sep, k)
    decreases from
  {
    if from >= 0 && !MatchesAt(s, sep, from) {
      LastIndexUpToMeaning(s, sep, from - 1);
    }
  }

  lemma LastIndexMeaning(s: string, sep: string)
    ensures var r := LastIndex(s, sep);
      (r >= 0 ==> MatchesAt(s, sep, r)) && forall k :: r < k <= |s| ==> !MatchesAt(s, sep, k)
  {
    LastIndexUpToMeaning(s, sep, |s|);
  }

  predicate Contains(s: string, sub: string) {
    exists i :: 0 <= i <= |s| && MatchesAt(s, sub, i)
  }

  predicate HasPrefix(s: string, p: string) {
    |p| <= |s| && s[..|p|] == p
  }

  // ---- trimming ----------------------------------------------------------

  /** The cut set the splitter trims with. */
  predicate IsBlank(c: char) { c == ' ' || c == '\t' || c == '\n' }

  /** The one-byte characters `strings.TrimSpace` removes. */
  predicate IsSpace(c: char) { IsBlank(c) || c == '\r' || c == 11 as char || c == 12 as char }

  predicate AllBlank(s: string) { forall c :: c in s ==> IsBlank(c) }

  /** How many blanks `s` starts with. */
  function LeadingBlanks(s: string): (n: nat)
    ensures n <= |s|
  {
    if s != [] && IsBlank(s[0]) then 1 + LeadingBlanks(s[1..]) else 0
  }

  lemma {:induction false} LeadingBlanksMeaning(s: string)
    ensures var n := LeadingBlanks(s);
      AllBlank(s[..n]) && (n < |s| ==> !IsBlank(s[n]))
  {
    if s != [] && IsBlank(s[0]) {
      LeadingBlanksMeaning(s[1..]);
      var n := LeadingBlanks(s);
      assert s[..n] == [s[0]] + s[1..][..n - 1];
    }
  }

  /** The length of `s[..n]` without its trailing blanks. */
  function WithoutBlankTail(s: string, n: nat): (m: nat)
    requires n <= |s|
    ensures m <= n
  {
    if n > 0 && IsBlank(s[n - 1]) then WithoutBlankTail(s, n - 1) else n
  }

  lemma {:induction false} WithoutBlankTailMeaning(s: string, n: nat)
    requires n <= |s|
    ensures var m := WithoutBlankTail(s, n);
      AllBlank(s[m..n]) && (m > 0 ==> !IsBlank(s[m - 1]))
    decreases n
  {
    if n > 0 && IsBlank(s[n - 1]) {
      WithoutBlankTailMeaning(s, n - 1);
      var m := WithoutBlankTail(s, n);
      assert s[m..n] == s[m..n - 1] + [s[n - 1]];
    }
  }

  function TrimLeft(s: string): string { s[LeadingBlanks(s)..] }
  function TrimRight(s: string): string { s[..WithoutBlankTail(s, |s|)] }

  function TrimSpaceLeft(s: string): string {
    if s != [] && IsSpace(s[0]) then TrimSpaceLeft(s[1..]) else s
  }

  function TrimSpaceRight(s: string): string {
    if s != [] && IsSpace(s[|s| - 1]) then TrimSpaceRight(s[..|s| - 1]) else s
  }

  function TrimSpace(s: string): string { TrimSpaceRight(TrimSpaceLeft(s)) }

  /** The splitter's left trim removes all blanks, tabs and newlines in front, and nothing else. */
  lemma FrontTrimmed(s: string)
    ensures var i := |s| - |TrimLeft(s)|;
      && 0 <= i && TrimLeft(s) == s[i..]
      && (forall k :: 0 <= k < i ==> s[k] == ' ' || s[k] == '\t' || s[k] == '\n')
      && (i < |s| ==> s[i] != ' ' && s[i] != '\t' && s[i] != '\n')
  {
    LeadingBlanksMeaning(s);
    var i := LeadingBlanks(s);
    assert forall k :: 0 <= k < i ==> s[..i][k] == s[k] && s[..i][k] in s[..i];
  }

  /** Its right trim does the same at the end. */
  lemma EndTrimmed(s: string)
    ensures var n := |TrimRight(s)|;
      && n <= |s| && TrimRight(s) == s[..n]
      && (forall k :: n <= k < |s| ==> s[k] == ' ' || s[k] == '\t' || s[k] == '\n')
      && (n > 0 ==> s[n - 1] != ' ' && s[n - 1] != '\t' && s[n - 1] != '\n')
  {
    WithoutBlankTailMeaning(s, |s|);
    var n := WithoutBlankTail(s, |s|);
    var tail := s[n..|s|];
    assert forall k :: n <= k < |s| ==> tail[k - n] == s[k] && tail[k - n] in tail;
  }

  /** `TrimSpace` removes white space at both ends and nothing else; what is left neither starts nor ends with any. */
  lemma {:induction false} SpaceTrimmed(s: string) returns (i: nat, n: nat)
    ensures i <= n <= |s| && TrimSpace(s) == s[i..n]
    ensures forall k :: 0 <= k < i || n <= k < |s| ==> IsSpace(s[k])
    ensures i < n ==> !IsSpace(s[i]) && !IsSpace(s[n - 1])
    ensures forall c :: IsSpace(c) <==> c in " \t\n\r\U{0B}\U{0C}"
  {
    i := SpaceTrimmedLeft(s);
    var m := SpaceTrimmedRight(s[i..]);
    n := i + m;
    assert s[i..][..m] == s[i..n];
    assert forall k :: i <= k < |s| ==> s[i..][k - i] == s[k];
  }

  lemma {:induction false} SpaceTrimmedLeft(s: string) returns (i: nat)
    ensures i <= |s| && TrimSpaceLeft(s) == s[i..] && (i < |s| ==> !IsSpace(s[i]))
    ensures forall k :: 0 <= k < i ==> IsSpace(s[k])
    decreases |s|
  {
    i := 0;
    if s != [] && IsSpace(s[0]) {
      var j := SpaceTrimmedLeft(s[1..]);
      i := j + 1;
      assert forall k :: 1 <= k < |s| ==> s[1..][k - 1] == s[k];
    }
  }

  lemma {:induction false} SpaceTrimmedRight(s: string) returns (n: nat)
    ensures n <= |s| && TrimSpaceRight(s) == s[..n] && (n > 0 ==> !IsSpace(s[n - 1]))
    ensures forall k :: n <= k < |s| ==> IsSpace(s[k])
    decreases |s|
  {
    n := |s|;
    if s != [] && IsSpace(s[|s| - 1]) {
      n := SpaceTrimmedRight(s[..|s| - 1]);
    }
  }

  // ---- ASCII case --------------------------------------------------------

  function Lower(c: char): char {
    if 'A' <= c <= 'Z' then ((c as int) + 32) as char else c
  }

  function ToLower(s: string): (r: string)
    ensures |r| == |s|
  {
    if s == [] then [] else [Lower(s[0])] + ToLower(s[1..])
  }

  function Upper(c: char): char {
    if 'a' <= c <= 'z' then ((c as int) - 32) as char else c
  }

  function ToUpper(s: string): (r: string)
    ensures |r| == |s|
  {
    if s == [] then [] else [Upper(s[0])] + ToUpper(s[1..])
  }

  /** Case changes only the 26 ASCII letters, byte by byte. */
  lemma {:induction false} CaseAt(s: string, k: nat)
    requires k < |s|
    ensures ToUpper(s)[k] as int == if 97 <= s[k] as int <= 122 then s[k] as int - 32 else s[k] as int
    ensures ToLower(s)[k] as int == if 65 <= s[k] as int <= 90 then s[k] as int + 32 else s[k] as int
    decreases k
  {
    if k > 0 {
      CaseAt(s[1..], k - 1);
    }
  }
}
