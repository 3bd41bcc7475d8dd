/** The operations of System.String that the hosts editor uses, over Dafny
    strings (sequences of Unicode scalar values): the ordinal Contains and
    Trim, and StartsWith, whose culture-sensitive comparison is approximated
    by an ordinal prefix test. */
module Text {

  /** Char.IsWhiteSpace: the space separators, the line and paragraph
      separators, the controls U+0009 to U+000D and U+0085. */
  predicate IsWhiteSpace(c: char)
  {
    || ('\t' <= c <= '\r')
    || c == ' '
    || c == '\U{85}'
    || c == '\U{A0}'
    || c == '\U{1680}'
    || ('\U{2000}' <= c <= '\U{200A}')
    || c == '\U{2028}'
    || c == '\U{2029}'
    || c == '\U{202F}'
    || c == '\U{205F}'
    || c == '\U{3000}'
  }

  /** String.StartsWith, approximated by a character-by-character comparison. */
  predicate StartsWith(s: string, prefix: string)
  {
    |prefix| <= |s| && s[..|prefix|] == prefix
  }

  /** `sub` occurs in `s` starting at offset `i`. */
  predicate OccursAt(s: string, sub: string, i: nat)
  {
    i + |sub| <= |s| && s[i..i + |sub|] == sub
  }

  /** String.Contains: `sub` occurs in `s` at some offset. */
  predicate Contains(s: string, sub: string)
    decreases |s|
  {
    StartsWith(s, sub) || (s != [] && Contains(s[1..], sub))
  }

  /** Contains agrees with "`sub` occurs in `s` at some offset". */
  lemma {:induction false} ContainsAt(s: string, sub: string)
    ensures Contains(s, sub) <==> exists i: nat :: OccursAt(s, sub, i)
    decreases |s|
  {
    if StartsWith(s, sub) {
      assert OccursAt(s, sub, 0);
    }
    if s == [] {
      if i: nat :| OccursAt(s, sub, i) {
        assert StartsWith(s, sub);
      }
    } else {
      ContainsAt(s[1..], sub);
      if Contains(s[1..], sub) {
        var i: nat :| OccursAt(s[1..], sub, i);
        OccursAtShift(s, sub, i);
      }
      if i: nat :| OccursAt(s, sub, i) {
        if i == 0 {
          assert StartsWith(s, sub);
        } else {
          OccursAtShift(s, sub, i - 1);
        }
      }
    }
  }

  /** An occurrence in `s[1..]` is an occurrence in `s` one place later. */
  lemma OccursAtShift(s: string, sub: string, i: nat)
    requires s != []
    ensures OccursAt(s[1..], sub, i) <==> OccursAt(s, sub, i + 1)
  {
    if i + 1 + |sub| <= |s| {
      assert s[1..][i..i + |sub|] == s[i + 1..i + 1 + |sub|];
    }
  }

  /** A string contains every string it ends with. */
  lemma {:induction false} ContainsSuffix(a: string, b: string)
    ensures Contains(a + b, b)
    decreases |a|
  {
    if a != [] {
      assert (a + b)[1..] == a[1..] + b;
      ContainsSuffix(a[1..], b);
    }
  }

  /** A string cannot contain `sub` when the first character of `sub` is
      at none of the offsets where an occurrence could start. */
  lemma FirstCharAbsent(s: string, sub: string)
    requires sub != []
    requires forall i :: 0 <= i <= |s| - |sub| ==> s[i] != sub[0]
    ensures !Contains(s, sub)
  {
    ContainsAt(s, sub);
  }

  /** The number of white-space characters at the start of `s`. */
  function LeadingWhiteSpace(s: string): (n: nat)
    ensures n <= |s|
    ensures n < |s| ==> !IsWhiteSpace(s[n])
    decreases |s|
  {
    if s != [] && IsWhiteSpace(s[0]) then 1 + LeadingWhiteSpace(s[1..]) else 0
  }

  /** The number of white-space characters at the end of `s`. */
  function TrailingWhiteSpace(s: string): (n: nat)
    ensures n <= |s|
    ensures n < |s| ==> !IsWhiteSpace(s[|s| - 1 - n])
    decreases |s|
  {
    if s != [] && IsWhiteSpace(s[|s| - 1]) then 1 + TrailingWhiteSpace(s[..|s| - 1]) else 0
  }

  /** The characters counted by LeadingWhiteSpace are white space. */
  lemma {:induction false} LeadingWhiteSpaceRun(s: string)
    ensures forall i :: 0 <= i < LeadingWhiteSpace(s) ==> IsWhiteSpace(s[i])
    decreases |s|
  {
    if s != [] && IsWhiteSpace(s[0]) {
      LeadingWhiteSpaceRun(s[1..]);
      assert forall i :: 1 <= i < |s| ==> s[i] == s[1..][i - 1];
    }
  }

  /** The characters counted by TrailingWhiteSpace are white space. */
  lemma {:induction false} TrailingWhiteSpaceRun(s: string)
    ensures forall i :: |s| - TrailingWhiteSpace(s) <= i < |s| ==> IsWhiteSpace(s[i])
    decreases |s|
  {
    if s != [] && IsWhiteSpace(s[|s| - 1]) {
      TrailingWhiteSpaceRun(s[..|s| - 1]);
      assert forall i :: 0 <= i < |s| - 1 ==> s[i] == s[..|s| - 1][i];
    }
  }

  /** String.Trim(): `s` without leading and trailing white space; what is
      left neither starts nor ends with white space. */
  function Trim(s: string): (t: string)
    ensures |t| <= |s|
    ensures t == [] || (!IsWhiteSpace(t[0]) && !IsWhiteSpace(t[|t| - 1]))
  {
    var rest := s[LeadingWhiteSpace(s)..];
    rest[..|rest| - TrailingWhiteSpace(rest)]
  }

  /** Trim cuts only white space: its result is a slice of `s`, and every
      character before or after that slice is white space. */
  lemma TrimCutsWhiteSpace(s: string)
    ensures exists i, j ::
      && 0 <= i <= j <= |s|
      && Trim(s) == s[i..j]
      && (forall k :: 0 <= k < i ==> IsWhiteSpace(s[k]))
      && (forall k :: j <= k < |s| ==> IsWhiteSpace(s[k]))
  {
    var lo := LeadingWhiteSpace(s);
    var rest := s[lo..];
    var hi := lo + |rest| - TrailingWhiteSpace(rest);
    LeadingWhiteSpaceRun(s);
    TrailingWhiteSpaceRun(rest);
    assert Trim(s) == s[lo..hi];
    forall k | hi <= k < |s|
      ensures IsWhiteSpace(s[k])
    {
      assert s[k] == rest[k - lo];
    }
  }

  /** Trim leaves a string alone that has no white space at either end. */
  lemma TrimUnchanged(s: string)
    requires s != [] && !IsWhiteSpace(s[0]) && !IsWhiteSpace(s[|s| - 1])
    ensures Trim(s) == s
  {
    assert LeadingWhiteSpace(s) == 0 && s[0..] == s;
    assert TrailingWhiteSpace(s) == 0 && s[..|s|] == s;
  }

  /** White space in front of `s` is counted along with the leading white
      space of `s`. */
  lemma {:induction false} LeadingWhiteSpacePadding(pad: string, s: string)
    requires forall i :: 0 <= i < |pad| ==> IsWhiteSpace(pad[i])
    ensures LeadingWhiteSpace(pad + s) == |pad| + LeadingWhiteSpace(s)
    decreases |pad|
  {
    if pad != [] {
      assert (pad + s)[1..] == pad[1..] + s;
      LeadingWhiteSpacePadding(pad[1..], s);
    } else {
      assert pad + s == s;
    }
  }

  /** Leading white space makes no difference to Trim. */
  lemma TrimSkipsPadding(pad: string, s: string)
    requires forall i :: 0 <= i < |pad| ==> IsWhiteSpace(pad[i])
    ensures Trim(pad + s) == Trim(s)
  {
    var n := LeadingWhiteSpace(s);
    LeadingWhiteSpacePadding(pad, s);
    assert (pad + s)[|pad| + n..] == s[n..];
  }
}
