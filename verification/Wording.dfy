/**
 * What the alert renderer writes of its own (internal/infra/alerting/telegram.go): bytes that
 * need no escaping and that, however they are put together, never spell a phrase of the text
 * guard (internal/infra/telegram/guard.go, lines 170-266).
 */
module Wording {

  predicate IsMark(c: char) { c == '<' || c == '>' || c == '&' }

  predicate Markless(s: string) { forall i :: 0 <= i < |s| ==> !IsMark(s[i]) }

  predicate Next(s: string, i: int, c: char) { 0 <= i < |s| && s[i] == c }

  /**
   * Every guard phrase holds one of: 'E', '_', "Wa", "Si", "blo", "tate", the last byte of an
   * arrow with a blank behind it, "->". None starts at `i`, whatever follows the text.
   */
  predicate QuietAt(s: string, i: nat)
    requires i < |s|
  {
    && s[i] != 'E' && s[i] != '_'
    && (s[i] == 'W' ==> i + 1 < |s| && s[i + 1] != 'a')
    && (s[i] == 'S' ==> i + 1 < |s| && s[i + 1] != 'i')
    && (s[i] == 'b' ==> i + 1 < |s| && (s[i + 1] == 'l' ==> i + 2 < |s| && s[i + 2] != 'o'))
    && (s[i] == 't' && Next(s, i + 1, 'a') ==> i + 2 < |s| && (s[i + 2] == 't' ==> i + 3 < |s| && s[i + 3] != 'e'))
    && (s[i] == '\U{92}' ==> i + 1 < |s| && s[i + 1] != ' ')
    && (s[i] == '>' ==> i > 0 && s[i - 1] != '-')
  }

  /** Nor does one end at its start. */
  predicate Quiet(s: string) {
    !Next(s, 0, 'a') && forall i :: 0 <= i < |s| ==> QuietAt(s, i)
  }

  lemma QuietConcat(a: string, b: string)
    requires Quiet(a) && Quiet(b)
    ensures Quiet(a + b)
  {
    var s := a + b;
    forall i | 0 <= i < |s|
      ensures QuietAt(s, i)
    {
      if i < |a| {
        assert QuietAt(a, i);
        assert forall k :: 0 <= k < |a| ==> s[k] == a[k];
      } else {
        assert QuietAt(b, i - |a|);
        assert forall k :: 0 <= k < |b| ==> s[|a| + k] == b[k];
      }
    }
  }

  // ---- figures -----------------------------------------------------------------------------

  predicate IsFigureByte(c: char) { '0' <= c <= '9' || c in "+-.,: UTC" }

  /** A printed number or time. */
  predicate IsFigure(s: string) { s != "" && s[0] != ' ' && forall i :: 0 <= i < |s| ==> IsFigureByte(s[i]) }

  lemma FigureIsQuiet(s: string)
    requires forall i :: 0 <= i < |s| ==> IsFigureByte(s[i])
    ensures Markless(s) && Quiet(s)
  {
  }
}
