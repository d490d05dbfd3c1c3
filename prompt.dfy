/** Prompt composition (pages/SmartWork.tsx:20): `template.replace(/\[.*?\]/, input)`.
    The pattern matches the earliest `[` that has a `]` after it on the same line,
    up to the first such `]`; only that one match is replaced, and the replacement
    text is read with JavaScript's `$` substitution patterns. */
module Prompt {
  import opened Wrappers

  /** The code points a regular-expression `.` does not match without the `s` flag. */
  predicate IsLineTerminator(c: char) {
    c == '\n' || c == '\r' || c == '\U{2028}' || c == '\U{2029}'
  }

  /** `[` at `i` and `]` at `j` delimit a match of `\[.*?\]`: nothing in between
      is a `]` (the lazy `.*?` stops at the first) or a line terminator. */
  predicate IsMatchAt(s: string, i: int, j: int) {
    0 <= i < j < |s| && s[i] == '[' && s[j] == ']'
    && forall m :: i < m < j ==> s[m] != ']' && !IsLineTerminator(s[m])
  }

  /** Whether some match of the pattern starts at `i`. */
  predicate MatchStartsAt(s: string, i: int) {
    exists j :: 0 <= j < |s| && IsMatchAt(s, i, j)
  }

  /** The end of the lazy `.*?\]` begun just after a `[` at `from - 1`. */
  function FindClose(s: string, from: nat): (r: Option<nat>)
    requires from <= |s|
    ensures r.Some? ==> from <= r.value < |s| && s[r.value] == ']'
    ensures r.Some? ==> forall m :: from <= m < r.value ==> s[m] != ']' && !IsLineTerminator(s[m])
    ensures r.None? ==> forall j :: from <= j < |s| && s[j] == ']' ==>
      exists m :: from <= m < j && IsLineTerminator(s[m])
    decreases |s| - from
  {
    if from == |s| then None
    else if s[from] == ']' then Some(from)
    else if IsLineTerminator(s[from]) then None
    else FindClose(s, from + 1)
  }

  /** The leftmost match at or after `from`, as the regular-expression search finds it. */
  function FindPlaceholder(s: string, from: nat): (r: Option<(nat, nat)>)
    requires from <= |s|
    ensures r.Some? ==> from <= r.value.0 && IsMatchAt(s, r.value.0, r.value.1)
    ensures r.Some? ==> forall i :: from <= i < r.value.0 ==> !MatchStartsAt(s, i)
    ensures r.None? ==> forall i :: from <= i < |s| ==> !MatchStartsAt(s, i)
    decreases |s| - from
  {
    if from == |s| then None
    else if s[from] == '[' && from + 1 <= |s| && FindClose(s, from + 1).Some? then
      Some((from, FindClose(s, from + 1).value))
    else
      var r := FindPlaceholder(s, from + 1);
      assert !MatchStartsAt(s, from);
      r
  }

  /** `GetSubstitution` for a pattern with no capture groups: `$$` is `$`, `$&` the
      match, `` $` `` the text before it, `$'` the text after it; any other `$`
      stands for itself. */
  function Expand(replacement: string, matched: string, before: string, after: string): string
    decreases |replacement|
  {
    if |replacement| == 0 then ""
    else if replacement[0] == '$' && |replacement| >= 2 && replacement[1] == '$' then
      "$" + Expand(replacement[2..], matched, before, after)
    else if replacement[0] == '$' && |replacement| >= 2 && replacement[1] == '&' then
      matched + Expand(replacement[2..], matched, before, after)
    else if replacement[0] == '$' && |replacement| >= 2 && replacement[1] == '`' then
      before + Expand(replacement[2..], matched, before, after)
    else if replacement[0] == '$' && |replacement| >= 2 && replacement[1] == '\'' then
      after + Expand(replacement[2..], matched, before, after)
    else
      [replacement[0]] + Expand(replacement[1..], matched, before, after)
  }

  /** Text without `$` is inserted literally. */
  lemma {:induction false} ExpandLiteral(replacement: string, matched: string, before: string, after: string)
    requires '$' !in replacement
    ensures Expand(replacement, matched, before, after) == replacement
    decreases |replacement|
  {
    if |replacement| > 0 {
      assert '$' !in replacement[1..] by {
        forall m | 0 <= m < |replacement| - 1 ensures replacement[1..][m] != '$' {
          assert replacement[1..][m] == replacement[m + 1];
        }
      }
      ExpandLiteral(replacement[1..], matched, before, after);
      assert replacement == [replacement[0]] + replacement[1..];
    }
  }

  /** The match the search reports: a match with no match starting before it. */
  predicate IsFirstMatch(s: string, i: int, j: int) {
    IsMatchAt(s, i, j) && forall h :: 0 <= h < i ==> !MatchStartsAt(s, h)
  }

  /** There is at most one first match. */
  lemma FirstMatchUnique(s: string, i: int, j: int, i': int, j': int)
    requires IsFirstMatch(s, i, j) && IsFirstMatch(s, i', j')
    ensures i == i' && j == j'
  {
    assert MatchStartsAt(s, i);
    assert MatchStartsAt(s, i');
  }

  /** The full prompt: the template with its first placeholder replaced by `input`. */
  function ComposePrompt(template: string, input: string): (r: string)
    ensures (forall i :: 0 <= i < |template| ==> !MatchStartsAt(template, i)) ==> r == template
    ensures forall i, j :: IsFirstMatch(template, i, j) ==>
      r == template[..i]
           + Expand(input, template[i..j + 1], template[..i], template[j + 1..])
           + template[j + 1..]
  {
    match FindPlaceholder(template, 0)
    case None =>
      assert forall i, j :: IsMatchAt(template, i, j) ==> MatchStartsAt(template, i);
      template
    case Some((i, j)) =>
      assert MatchStartsAt(template, i);
      assert forall i', j' :: IsFirstMatch(template, i', j') ==> i' == i && j' == j by {
        forall i', j' | IsFirstMatch(template, i', j') ensures i' == i && j' == j {
          FirstMatchUnique(template, i, j, i', j');
        }
      }
      template[..i] + Expand(input, template[i..j + 1], template[..i], template[j + 1..]) + template[j + 1..]
  }

  /** With no `$` in the input, the prompt is the text before the placeholder,
      the input, and everything after the placeholder, later brackets included. */
  lemma ComposeLiteral(template: string, input: string, i: nat, j: nat)
    requires '$' !in input
    requires IsFirstMatch(template, i, j)
    ensures ComposePrompt(template, input) == template[..i] + input + template[j + 1..]
  {
    ExpandLiteral(input, template[i..j + 1], template[..i], template[j + 1..]);
  }

  /** Only the first placeholder is filled: with no `[` before it, a bracketed
      segment on one line is replaced and everything after it, further
      placeholders included, is kept. */
  lemma ComposeFirstOnly(before: string, inside: string, rest: string, input: string)
    requires '[' !in before && '$' !in input
    requires forall m :: 0 <= m < |inside| ==> inside[m] != ']' && !IsLineTerminator(inside[m])
    ensures ComposePrompt(before + "[" + inside + "]" + rest, input) == before + input + rest
  {
    var t := before + "[" + inside + "]" + rest;
    var i, j := |before|, |before| + |inside| + 1;
    assert forall m :: i < m < j ==> t[m] == inside[m - i - 1];
    assert IsMatchAt(t, i, j);
    forall h | 0 <= h < i ensures !MatchStartsAt(t, h) {
      assert t[h] == before[h];
    }
    ComposeLiteral(t, input, i, j);
    assert t[..i] == before;
    assert t[j + 1..] == rest;
  }
}
