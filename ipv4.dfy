/** The coarse address check of the connect action: the pattern
    `^\d{1,3}(\.\d{1,3}){3}$`, four groups of one to three digits joined by
    dots. There is no check that a group lies in 0..255. */
module IPv4 {

  /** The regular-expression class `\d`, restricted to the ASCII digits. */
  predicate IsDigit(c: char)
  {
    '0' <= c <= '9'
  }

  /** A group `\d{1,3}`. */
  predicate IsDigitGroup(g: string)
  {
    1 <= |g| <= 3 && forall i :: 0 <= i < |g| ==> IsDigit(g[i])
  }

  /** The length of the run of digits at the start of `s`. */
  function LeadingDigits(s: string): (k: nat)
    ensures k <= |s|
    decreases |s|
  {
    if s != [] && IsDigit(s[0]) then 1 + LeadingDigits(s[1..]) else 0
  }

  /** The first `LeadingDigits(s)` characters are digits and the one after
      them, if any, is not. */
  lemma {:induction false} LeadingDigitsRun(s: string)
    ensures forall i :: 0 <= i < LeadingDigits(s) ==> IsDigit(s[i])
    ensures LeadingDigits(s) < |s| ==> !IsDigit(s[LeadingDigits(s)])
    decreases |s|
  {
    if s != [] && IsDigit(s[0]) {
      LeadingDigitsRun(s[1..]);
      assert forall i :: 1 <= i < |s| ==> s[i] == s[1..][i - 1];
    }
  }

  /** The matcher: a group, then `dots` times a dot and a group, then the end.
      A group takes the whole run of digits in front of it, since what
      follows a group is a dot or the end and neither is a digit. */
  predicate MatchesGroups(s: string, dots: nat)
    decreases dots
  {
    var k := LeadingDigits(s);
    && 1 <= k <= 3
    && if dots == 0 then k == |s|
       else k < |s| && s[k] == '.' && MatchesGroups(s[k + 1..], dots - 1)
  }

  /** Regex.IsMatch(ip, @"^\d{1,3}(\.\d{1,3}){3}$") on an already trimmed `ip`. */
  predicate IsIPv4Format(ip: string)
  {
    MatchesGroups(ip, 3)
  }

  /** The language of the pattern, stated directly: four digit groups
      joined by dots. */
  ghost predicate IsDottedQuad(s: string)
  {
    exists a, b, c, d ::
      && IsDigitGroup(a) && IsDigitGroup(b) && IsDigitGroup(c) && IsDigitGroup(d)
      && s == a + "." + b + "." + c + "." + d
  }

  /** The address check accepts exactly the four digit groups joined by dots. */
  lemma FormatIsDottedQuad(s: string)
    ensures IsIPv4Format(s) <==> IsDottedQuad(s)
  {
    if IsIPv4Format(s) {
      MatchedIsDottedQuad(s);
    }
    if IsDottedQuad(s) {
      var a, b, c, d :| && IsDigitGroup(a) && IsDigitGroup(b) && IsDigitGroup(c) && IsDigitGroup(d)
                        && s == a + "." + b + "." + c + "." + d;
      JoinedGroupsAccepted(a, b, c, d);
    }
  }

  /** Every string the check accepts is four digit groups joined by dots. */
  lemma MatchedIsDottedQuad(s: string)
    requires IsIPv4Format(s)
    ensures IsDottedQuad(s)
  {
    var a, r1 := FirstGroup(s, 3);
    var b, r2 := FirstGroup(r1, 2);
    var c, d := FirstGroup(r2, 1);
    LastGroup(d);
    SameJoin(a, b, c, d);
  }

  /** A matched string with dots to come starts with a digit group and a dot. */
  lemma FirstGroup(s: string, dots: nat) returns (g: string, rest: string)
    requires dots > 0 && MatchesGroups(s, dots)
    ensures IsDigitGroup(g) && MatchesGroups(rest, dots - 1) && s == g + "." + rest
  {
    var k := LeadingDigits(s);
    LeadingDigitsRun(s);
    g, rest := s[..k], s[k + 1..];
    assert forall i :: 0 <= i < k ==> g[i] == s[i];
    assert s == s[..k] + [s[k]] + s[k + 1..];
  }

  /** A matched string with no dot to come is one digit group. */
  lemma LastGroup(s: string)
    requires MatchesGroups(s, 0)
    ensures IsDigitGroup(s)
  {
    LeadingDigitsRun(s);
  }

  /** A digit group that ends at offset `j`, where a non-digit or the end
      follows, is the whole leading run of digits. */
  lemma {:induction false} LeadingDigitsOfGroup(s: string, j: nat)
    requires j <= |s|
    requires forall i :: 0 <= i < j ==> IsDigit(s[i])
    requires j < |s| ==> !IsDigit(s[j])
    ensures LeadingDigits(s) == j
    decreases j
  {
    if j > 0 {
      LeadingDigitsOfGroup(s[1..], j - 1);
    }
  }

  /** An accepted address holds only digits and dots, so in particular no
      white space. */
  lemma {:induction false} AcceptedCharacters(s: string, dots: nat)
    requires MatchesGroups(s, dots)
    ensures forall i :: 0 <= i < |s| ==> IsDigit(s[i]) || s[i] == '.'
    decreases dots
  {
    LeadingDigitsRun(s);
    if dots > 0 {
      var k := LeadingDigits(s);
      AcceptedCharacters(s[k + 1..], dots - 1);
      forall i | 0 <= i < |s| ensures IsDigit(s[i]) || s[i] == '.' {
        if i > k {
          assert s[i] == s[k + 1..][i - k - 1];
        }
      }
    }
  }

  /** A digit group and a dot in front of a string the matcher accepts
      with one dot fewer. */
  lemma PrependGroup(g: string, rest: string, dots: nat)
    requires IsDigitGroup(g) && dots > 0
    requires MatchesGroups(rest, dots - 1)
    ensures MatchesGroups(g + "." + rest, dots)
  {
    var s := g + "." + rest;
    LeadingDigitsOfGroup(s, |g|);
    assert s[|g| + 1..] == rest;
  }

  /** A single digit group is accepted where no dot is expected. */
  lemma LastGroupAccepted(d: string)
    requires IsDigitGroup(d)
    ensures MatchesGroups(d, 0)
  {
    LeadingDigitsOfGroup(d, |d|);
  }

  /** Four digit groups joined by dots pass the check, whatever their
      values. */
  lemma JoinedGroupsAccepted(a: string, b: string, c: string, d: string)
    requires IsDigitGroup(a) && IsDigitGroup(b) && IsDigitGroup(c) && IsDigitGroup(d)
    ensures IsIPv4Format(a + "." + b + "." + c + "." + d)
  {
    var cd := c + "." + d;
    var bcd := b + "." + cd;
    LastGroupAccepted(d);
    PrependGroup(c, d, 1);
    PrependGroup(b, cd, 2);
    PrependGroup(a, bcd, 3);
    SameJoin(a, b, c, d);
  }

  /** Joining four strings with dots does not depend on grouping. Kept as a
      lemma of its own: proved inside a caller, the sequence equality makes
      the solver search through the matcher's definition. */
  lemma SameJoin(a: string, b: string, c: string, d: string)
    ensures a + "." + (b + "." + (c + "." + d)) == a + "." + b + "." + c + "." + d
  {
  }

  /** A matched string has a group of one to three digits and `dots` more
      groups, each after a dot; so an address that passes the check has
      between 7 and 15 characters. */
  lemma {:induction false} AcceptedLength(s: string, dots: nat)
    requires MatchesGroups(s, dots)
    ensures 2 * dots + 1 <= |s| <= 4 * dots + 3
    decreases dots
  {
    if dots > 0 {
      var k := LeadingDigits(s);
      AcceptedLength(s[k + 1..], dots - 1);
    }
  }

  /** Out-of-range groups pass the check: "999.999.999.999" is accepted. */
  lemma OutOfRangeAccepted()
    ensures IsIPv4Format("999" + "." + "999" + "." + "999" + "." + "999")
  {
    JoinedGroupsAccepted("999", "999", "999", "999");
  }

  /** The empty string and "1.2.3" are too short to pass. */
  lemma TooShortRejected(s: string)
    requires |s| < 7
    ensures !IsIPv4Format(s)
  {
    if IsIPv4Format(s) {
      AcceptedLength(s, 3);
    }
  }

  /** One group more than expected fails: after an accepted string, a dot
      and a further group leave input the matcher does not consume. So
      "1.2.3.4.5" is rejected. */
  lemma {:induction false} ExtraGroupRejected(s: string, g: string, dots: nat)
    requires MatchesGroups(s, dots)
    ensures !MatchesGroups(s + "." + g, dots)
    decreases dots
  {
    var k := LeadingDigits(s);
    assert s + "." + g == s + ("." + g);
    LeadingDigitsAppend(s, "." + g);
    if dots > 0 {
      var rest := s[k + 1..];
      assert (s + ("." + g))[k + 1..] == rest + "." + g;
      ExtraGroupRejected(rest, g, dots - 1);
    }
  }

  /** The run of digits at the start of `s + u` stops inside `s` where the
      run of `s` does, and otherwise continues into `u`. */
  lemma {:induction false} LeadingDigitsAppend(s: string, u: string)
    ensures LeadingDigits(s + u) == if LeadingDigits(s) < |s| then LeadingDigits(s) else |s| + LeadingDigits(u)
    decreases |s|
  {
    if s == [] {
      assert s + u == u;
    } else if IsDigit(s[0]) {
      assert (s + u)[1..] == s[1..] + u;
      LeadingDigitsAppend(s[1..], u);
    }
  }

  /** An address of five groups fails the check. */
  lemma FiveGroupsRejected(a: string, b: string, c: string, d: string, e: string)
    requires IsDigitGroup(a) && IsDigitGroup(b) && IsDigitGroup(c) && IsDigitGroup(d)
    ensures !IsIPv4Format(a + "." + b + "." + c + "." + d + "." + e)
  {
    JoinedGroupsAccepted(a, b, c, d);
    ExtraGroupRejected(a + "." + b + "." + c + "." + d, e, 3);
  }

  /** A group of four digits fails the check. */
  lemma LongGroupRejected()
    ensures !IsIPv4Format("1234.1.1.1")
  {
    LeadingDigitsOfGroup("1234.1.1.1", 4);
  }

  /** The input box's placeholder text fails the check. */
  lemma PlaceholderRejected()
    ensures !IsIPv4Format("Enter IP address...")
  {
    LeadingDigitsOfGroup("Enter IP address...", 0);
  }
}
