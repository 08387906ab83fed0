/**
  The substitution `re.sub(r"\x1B(?:[@-Z\\-_]|\[[0-?]*[ -/]*[@-~])", "", text)` that the
  log views apply before display. The pattern removes the ECMA-48 escape sequences: ESC
  followed by one byte of the C1 set (section 5.3 of ECMA-48: 0x40-0x5A and 0x5C-0x5F), and
  control sequences ESC '[' parameter bytes (0x30-0x3F), intermediate bytes (0x20-0x2F) and
  a final byte (0x40-0x7E) (section 5.4).

  The match at a position is deterministic: the parameter and intermediate classes are
  disjoint from each other and from the final class, so backtracking out of either greedy
  run can never let the final byte match. A failed match keeps the character and the scan
  goes on at the next one, as `re.sub` does.
 */
module Ansi {

  const ESC: char := '\U{1B}'

  /** Second byte of a two-byte escape: `[@-Z\\-_]`. */
  predicate IsC1Final(c: char) { ('@' <= c <= 'Z') || ('\\' <= c <= '_') }

  predicate IsParameter(c: char) { '0' <= c <= '?' }

  predicate IsIntermediate(c: char) { ' ' <= c <= '/' }

  predicate IsFinal(c: char) { '@' <= c <= '~' }

  /** End of the greedy run `[0-?]*` that starts at i. */
  function SkipParameters(s: string, i: nat): (j: nat)
    requires i <= |s|
    ensures i <= j <= |s|
    ensures forall k :: i <= k < j ==> IsParameter(s[k])
    ensures j < |s| ==> !IsParameter(s[j])
    decreases |s| - i
  {
    if i < |s| && IsParameter(s[i]) then SkipParameters(s, i + 1) else i
  }

  /** End of the greedy run `[ -/]*` that starts at i. */
  function SkipIntermediates(s: string, i: nat): (j: nat)
    requires i <= |s|
    ensures i <= j <= |s|
    ensures forall k :: i <= k < j ==> IsIntermediate(s[k])
    ensures j < |s| ==> !IsIntermediate(s[j])
    decreases |s| - i
  {
    if i < |s| && IsIntermediate(s[i]) then SkipIntermediates(s, i + 1) else i
  }

  /** Length of the pattern's match at the start of s, or 0 when it does not match there. */
  function EscapeAt(s: string): (m: nat)
    ensures m <= |s|
    ensures m != 0 ==> 2 <= m && s[0] == ESC
  {
    if |s| < 2 || s[0] != ESC then 0
    else if IsC1Final(s[1]) then 2
    else if s[1] == '[' then
      var q := SkipIntermediates(s, SkipParameters(s, 2));
      if q < |s| && IsFinal(s[q]) then q + 1 else 0
    else 0
  }

  /** The text with every match of the pattern removed, scanning left to right. */
  function StripAnsi(s: string): (r: string)
    ensures |r| <= |s|
    decreases |s|
  {
    if s == [] then []
    else
      var m := EscapeAt(s);
      if m != 0 then StripAnsi(s[m..]) else [s[0]] + StripAnsi(s[1..])
  }

  /** a can be obtained from b by deleting characters. */
  predicate IsSubsequence(a: string, b: string)
    decreases |b|
  {
    a == [] || (b != [] && ((a[0] == b[0] && IsSubsequence(a[1..], b[1..])) || IsSubsequence(a, b[1..])))
  }

  lemma {:induction false} SubsequenceOfLonger(a: string, c: string, b: string)
    requires IsSubsequence(a, b)
    ensures IsSubsequence(a, c + b)
    decreases |c|
  {
    if c != [] && a != [] {
      SubsequenceOfLonger(a, c[1..], b);
      assert (c + b)[1..] == c[1..] + b;
      assert IsSubsequence(a, (c + b)[1..]);
    } else if c == [] {
      assert c + b == b;
    }
  }

  /** Text without ESC comes back unchanged. */
  lemma {:induction false} StripAnsiWithoutEscape(s: string)
    requires ESC !in s
    ensures StripAnsi(s) == s
    decreases |s|
  {
    if s != [] {
      assert s[0] != ESC;
      StripAnsiWithoutEscape(s[1..]);
    }
  }

  /** Stripping only deletes characters: the result is a subsequence of the input. */
  lemma {:induction false} StripAnsiIsSubsequence(s: string)
    ensures IsSubsequence(StripAnsi(s), s)
    decreases |s|
  {
    if s != [] {
      var m := EscapeAt(s);
      StripAnsiIsSubsequence(s[if m != 0 then m else 1..]);
      if m != 0 {
        SubsequenceOfLonger(StripAnsi(s[m..]), s[..m], s[m..]);
        assert s[..m] + s[m..] == s;
      } else {
        var r := StripAnsi(s);
        assert r[0] == s[0] && r[1..] == StripAnsi(s[1..]);
      }
    }
  }

  lemma {:induction false} SkipParametersExtend(s: string, t: string, i: nat)
    requires i <= |s| && t != [] && t[0] == ESC
    ensures SkipParameters(s + t, i) == SkipParameters(s, i)
    decreases |s| - i
  {
    if i < |s| && IsParameter(s[i]) {
      SkipParametersExtend(s, t, i + 1);
    }
  }

  lemma {:induction false} SkipIntermediatesExtend(s: string, t: string, i: nat)
    requires i <= |s| && t != [] && t[0] == ESC
    ensures SkipIntermediates(s + t, i) == SkipIntermediates(s, i)
    decreases |s| - i
  {
    if i < |s| && IsIntermediate(s[i]) {
      SkipIntermediatesExtend(s, t, i + 1);
    }
  }

  /** A match that starts in s never depends on a following text that starts with ESC. */
  lemma EscapeAtExtend(s: string, t: string)
    requires s != [] && t != [] && t[0] == ESC
    ensures EscapeAt(s + t) == EscapeAt(s)
  {
    if 2 <= |s| && s[0] == ESC && !IsC1Final(s[1]) && s[1] == '[' {
      SkipParametersExtend(s, t, 2);
      SkipIntermediatesExtend(s, t, SkipParameters(s, 2));
    }
  }

  /** Stripping distributes over a split point just before an ESC. */
  lemma {:induction false} StripAnsiSplitAtEscape(s: string, t: string)
    requires t != [] && t[0] == ESC
    ensures StripAnsi(s + t) == StripAnsi(s) + StripAnsi(t)
    decreases |s|
  {
    if s != [] {
      EscapeAtExtend(s, t);
      var m := EscapeAt(s);
      var n := if m != 0 then m else 1;
      assert (s + t)[n..] == s[n..] + t;
      StripAnsiSplitAtEscape(s[n..], t);
    } else {
      assert s + t == t;
    }
  }

  /** A complete control sequence: ESC '[' parameters, intermediates, final byte. */
  predicate IsControlSequence(params: string, inter: string, final: char) {
    (forall k :: 0 <= k < |params| ==> IsParameter(params[k]))
    && (forall k :: 0 <= k < |inter| ==> IsIntermediate(inter[k]))
    && IsFinal(final)
  }

  lemma ControlSequenceMatchesWhole(params: string, inter: string, final: char, post: string)
    requires IsControlSequence(params, inter, final)
    ensures var csi := [ESC, '['] + params + inter + [final];
            EscapeAt(csi + post) == |csi|
  {
    var csi := [ESC, '['] + params + inter + [final];
    var s := csi + post;
    var p := SkipParameters(s, 2);
    assert forall k :: 2 <= k < 2 + |params| ==> s[k] == params[k - 2];
    assert s[2 + |params|] == (inter + [final])[0];
    assert p == 2 + |params|;
    var q := SkipIntermediates(s, p);
    assert forall k :: p <= k < p + |inter| ==> s[k] == inter[k - p];
    assert s[p + |inter|] == final;
    assert q == p + |inter|;
  }

  /** A complete control sequence anywhere in the text is removed entirely, and only it. */
  lemma StripAnsiRemovesControlSequence(pre: string, params: string, inter: string, final: char, post: string)
    requires IsControlSequence(params, inter, final)
    ensures StripAnsi(pre + ([ESC, '['] + params + inter + [final]) + post) == StripAnsi(pre) + StripAnsi(post)
  {
    var csi := [ESC, '['] + params + inter + [final];
    assert pre + csi + post == pre + (csi + post);
    StripAnsiSplitAtEscape(pre, csi + post);
    ControlSequenceMatchesWhole(params, inter, final, post);
    assert (csi + post)[|csi|..] == post;
  }

  /** A two-byte escape ESC c with c in the C1 range is removed entirely, and only it. */
  lemma StripAnsiRemovesTwoByteEscape(pre: string, c: char, post: string)
    requires IsC1Final(c)
    ensures StripAnsi(pre + [ESC, c] + post) == StripAnsi(pre) + StripAnsi(post)
  {
    var e := [ESC, c];
    assert pre + e + post == pre + (e + post);
    StripAnsiSplitAtEscape(pre, e + post);
    assert (e + post)[2..] == post;
  }
}
