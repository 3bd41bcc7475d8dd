/** The four button handlers of the hosts editor, with the file's lines
    already read: connect to an address, point at loopback, add the
    auxiliary bundle, and remove every redirect. Each computes the list of
    lines that is written back. */
module HostsEdit {
  import opened Text
  import opened Lines
  import opened IPv4
  import opened HostsState

  /** What connect and localhost write: every line that mentions the game
      host removed, then one line pointing the game host at `address`. */
  function WithProdMapping(lines: seq<string>, address: string): (written: seq<string>)
  {
    Removed(lines, MentionsProd) + [address + " " + ProdHost]
  }

  /** Whether a line occurs verbatim in `lines` (List.Contains). */
  function PresentIn(lines: seq<string>): (present: string -> bool)
  {
    (b: string) => b in lines
  }

  /** The bundle lines that do not occur verbatim in `lines`, in bundle order. */
  function MissingBundleLines(lines: seq<string>): (missing: seq<string>)
  {
    Removed(AwsRedirectLines, PresentIn(lines))
  }

  /** What the AWS button writes: the file followed by its missing bundle lines. */
  function WithAws(lines: seq<string>): (written: seq<string>)
  {
    lines + MissingBundleLines(lines)
  }

  /** Whether a line's trimmed text is one of `bundle`. */
  function TrimmedIn(bundle: seq<string>): (matches: string -> bool)
  {
    (l: string) => Trim(l) in bundle
  }

  /** A line the disconnect button removes: it mentions the game host, or
      its trimmed text is a bundle line. */
  predicate IsRedirectLine(line: string)
  {
    MentionsProd(line) || Trim(line) in AwsRedirectLines
  }

  /** What the disconnect button writes: every redirect line removed. */
  function Disconnected(lines: seq<string>): (written: seq<string>)
  {
    Removed(lines, IsRedirectLine)
  }

  /** The connect handler either rejects the typed address or writes lines. */
  datatype ConnectOutcome = Written(edited: seq<string>) | InvalidAddress

  /** BtnConnect_Click: trim the typed text; reject it unless it has the
      shape of an IPv4 address; otherwise drop every line mentioning the
      game host and append "<address> <game host>". */
  method ConnectClick(lines: seq<string>, ipText: string) returns (outcome: ConnectOutcome)
    ensures outcome.InvalidAddress? <==> !IsIPv4Format(Trim(ipText))
    ensures outcome.Written? ==> outcome.edited == WithProdMapping(lines, Trim(ipText))
  {
    var ip := Trim(ipText);
    if !IsIPv4Format(ip) {
      return InvalidAddress;
    }
    var edited := RemoveAll(lines, MentionsProd);
    edited := edited + [ip + " " + ProdHost];
    return Written(edited);
  }

  /** BtnLocalhost_Click: drop every line mentioning the game host and
      append the loopback line for it. */
  method LocalhostClick(lines: seq<string>) returns (edited: seq<string>)
    ensures edited == WithProdMapping(lines, Loopback)
  {
    edited := RemoveAll(lines, MentionsProd);
    edited := edited + [LocalhostLine];
  }

  /** BtnAWS_Click: append each bundle line, in order, unless the list
      already holds it verbatim. */
  method AwsClick(lines: seq<string>) returns (edited: seq<string>)
    ensures edited == WithAws(lines)
  {
    BundleDistinct();
    edited := lines;
    for i := 0 to |AwsRedirectLines|
      invariant edited == lines + Removed(AwsRedirectLines[..i], PresentIn(lines))
    {
      var line := AwsRedirectLines[i];
      ghost var added := Removed(AwsRedirectLines[..i], PresentIn(lines));
      assert AwsRedirectLines[..i + 1][..i] == AwsRedirectLines[..i];
      assert line !in added;
      if line !in edited {
        edited := edited + [line];
      }
    }
    assert AwsRedirectLines[..|AwsRedirectLines|] == AwsRedirectLines;
  }

  /** BtnDisconnect_Click: drop every line mentioning the game host, then
      for each bundle line drop every line whose trimmed text equals it. */
  method DisconnectClick(lines: seq<string>) returns (edited: seq<string>)
    ensures edited == Disconnected(lines)
  {
    var afterProd := RemoveAll(lines, MentionsProd);
    edited := afterProd;
    RemovedNothing(afterProd, TrimmedIn(AwsRedirectLines[..0]));
    for i := 0 to |AwsRedirectLines|
      invariant edited == Removed(afterProd, TrimmedIn(AwsRedirectLines[..i]))
    {
      var aws := AwsRedirectLines[i];
      var sameAsAws := (l: string) => Trim(l) == aws;
      edited := RemoveAll(edited, sameAsAws);
      TrimmedInStep(AwsRedirectLines, i);
      RemovedTwice(afterProd, TrimmedIn(AwsRedirectLines[..i]), sameAsAws, TrimmedIn(AwsRedirectLines[..i + 1]));
    }
    assert AwsRedirectLines[..|AwsRedirectLines|] == AwsRedirectLines;
    RemovedTwice(lines, MentionsProd, TrimmedIn(AwsRedirectLines), IsRedirectLine);
  }

  /** Matching the first `i + 1` bundle lines is matching the first `i` or
      the next one. */
  lemma TrimmedInStep(bundle: seq<string>, i: nat)
    requires i < |bundle|
    ensures forall x :: TrimmedIn(bundle[..i + 1])(x) == (TrimmedIn(bundle[..i])(x) || Trim(x) == bundle[i])
  {
    assert bundle[..i + 1] == bundle[..i] + [bundle[i]];
  }

  // Connect and localhost

  /** After connect or localhost the new mapping is the last line, no other
      line mentions the game host, and the other lines of the file are kept,
      in their order and with their multiplicities. */
  lemma ProdMappingShape(lines: seq<string>, address: string)
    ensures var r := WithProdMapping(lines, address);
      && |r| >= 1
      && r[|r| - 1] == address + " " + ProdHost
      && (forall i :: 0 <= i < |r| - 1 ==> !MentionsProd(r[i]))
      && IsSubsequence(r[..|r| - 1], lines)
      && (forall x :: !MentionsProd(x) ==> multiset(r[..|r| - 1])[x] == multiset(lines)[x])
  {
    var kept := Removed(lines, MentionsProd);
    var r := WithProdMapping(lines, address);
    assert r[..|r| - 1] == kept;
    RemovedIsSubsequence(lines, MentionsProd);
    forall x | !MentionsProd(x)
      ensures multiset(kept)[x] == multiset(lines)[x]
    {
      RemovedCount(lines, MentionsProd, x);
    }
  }

  /** The flags after connect or localhost: custom exactly when the address
      does not start with "127.0.0.1", localhost exactly when the address is
      "127.0.0.1", and the bundle flag as before. */
  lemma ProdMappingFlags(lines: seq<string>, address: string)
    ensures Classify(WithProdMapping(lines, address))
         == RedirectState(!StartsWith(address, Loopback), address == Loopback, Classify(lines).aws)
  {
    MappingCustomFlag(lines, address);
    MappingLocalhostFlag(lines, address);
    MappingBundleFlag(lines, address);
  }

  /** Only the appended line mentions the game host; so the custom flag is
      set exactly when that line, and hence the address, does not start with
      the loopback address. */
  lemma MappingCustomFlag(lines: seq<string>, address: string)
    ensures Classify(WithProdMapping(lines, address)).custom == !StartsWith(address, Loopback)
  {
    var r := WithProdMapping(lines, address);
    ContainsSuffix(address + " ", ProdHost);
    assert MentionsProd(r[|r| - 1]);
    assert forall i :: 0 <= i < |r| - 1 ==> !MentionsProd(r[i]);
    assert ' ' !in Loopback;
    StartsWithBeforeSeparator(address, ' ', ProdHost, Loopback);
  }

  /** The loopback line mentions the game host, so it can only be the
      appended line, which it is exactly when the address is the loopback
      address. */
  lemma MappingLocalhostFlag(lines: seq<string>, address: string)
    ensures Classify(WithProdMapping(lines, address)).localhost == (address == Loopback)
  {
    var r := WithProdMapping(lines, address);
    var added := address + " " + ProdHost;
    LocalhostLineMentionsProd();
    assert forall i :: 0 <= i < |r| - 1 ==> r[i] != LocalhostLine;
    assert r[|r| - 1] == added;
    if added == LocalhostLine {
      assert added[..|address|] == address;
      assert LocalhostLine[..|Loopback|] == Loopback;
    }
  }

  /** No bundle line mentions the game host, so none is removed and none is
      the appended line. */
  lemma MappingBundleFlag(lines: seq<string>, address: string)
    ensures forall j :: 0 <= j < |AwsRedirectLines| ==>
      (AwsRedirectLines[j] in WithProdMapping(lines, address) <==> AwsRedirectLines[j] in lines)
    ensures Classify(WithProdMapping(lines, address)).aws == Classify(lines).aws
  {
    var r := WithProdMapping(lines, address);
    var added := address + " " + ProdHost;
    ContainsSuffix(address + " ", ProdHost);
    BundleAvoidsProd();
    forall j | 0 <= j < |AwsRedirectLines|
      ensures AwsRedirectLines[j] in r <==> AwsRedirectLines[j] in lines
    {
      var b := AwsRedirectLines[j];
      assert b != added;
      if b in lines {
        var k :| 0 <= k < |lines| && lines[k] == b;
        assert b in Removed(lines, MentionsProd);
      }
    }
  }

  /** "<a><c><rest>" starts with `p` exactly when `a` does, provided the
      separator `c` does not occur in `p`. */
  lemma StartsWithBeforeSeparator(a: string, c: char, rest: string, p: string)
    requires c !in p
    ensures StartsWith(a + [c] + rest, p) <==> StartsWith(a, p)
  {
    var s := a + [c] + rest;
    if |a| < |p| <= |s| {
      assert s[..|p|][|a|] == c;
      assert p[|a|] != c;
    }
    if StartsWith(a, p) {
      assert s[..|p|] == a[..|p|];
    }
  }

  /** After the localhost button the localhost flag is set, the custom flag
      is clear, and the bundle flag is as before. */
  lemma LocalhostFlags(lines: seq<string>)
    ensures Classify(WithProdMapping(lines, Loopback)) == RedirectState(false, true, Classify(lines).aws)
  {
    ProdMappingFlags(lines, Loopback);
  }

  /** After connect or localhost at most one of the custom and localhost
      flags holds, and exactly one holds when the address is not a
      "127.0.0.1..." look-alike. */
  lemma ProdMappingExclusive(lines: seq<string>, address: string)
    ensures var st := Classify(WithProdMapping(lines, address));
      && !(st.custom && st.localhost)
      && (st.custom || st.localhost <==> address == Loopback || !StartsWith(address, Loopback))
  {
    ProdMappingFlags(lines, address);
  }

  /** For an empty file connect writes the one mapping line. */
  lemma EmptyFileConnect()
    ensures WithProdMapping([], "10.0.0.5") == ["10.0.0.5 " + ProdHost]
  {
    assert Removed([], MentionsProd) == [];
    assert "10.0.0.5" + " " == "10.0.0.5 ";
  }

  /** The loopback address, and the loopback address with one or two
      more digits such as "127.0.0.10", pass the address check. */
  lemma LoopbackPrefixAccepted(extra: string)
    requires |extra| <= 2 && forall i :: 0 <= i < |extra| ==> IsDigit(extra[i])
    ensures IsIPv4Format(Loopback + extra)
  {
    var last := "1" + extra;
    assert IsDigitGroup("127") && IsDigitGroup("0") && IsDigitGroup(last);
    JoinedGroupsAccepted("127", "0", "0", last);
    LoopbackSplit(extra);
  }

  /** The loopback address followed by `extra`, cut into its four groups.
      Kept as a lemma of its own, so that the equality on the literal is
      proved apart from the matcher's definition. */
  lemma LoopbackSplit(extra: string)
    ensures Loopback + extra == "127" + "." + "0" + "." + "0" + "." + ("1" + extra)
  {
  }

  /** Yet the line that connect writes for such a look-alike starts with
      "127.0.0.1" and is not the loopback line, so on a file that lacks a
      bundle line no flag is set and the disconnect button stays hidden
      although a redirect of the game host is in the file. */
  lemma LoopbackLookalikeFlags(lines: seq<string>, extra: string)
    requires extra != [] && !Classify(lines).aws
    ensures Classify(WithProdMapping(lines, Loopback + extra)) == RedirectState(false, false, false)
    ensures ButtonsFor(Classify(WithProdMapping(lines, Loopback + extra))).disconnect == Collapsed
  {
    var ip := Loopback + extra;
    ProdMappingFlags(lines, ip);
    assert ip[..|Loopback|] == Loopback;
  }

  // Auxiliary bundle

  /** The AWS button keeps the file as an unchanged prefix and appends
      exactly the bundle lines that were missing, in bundle order, each
      once; afterwards every bundle line is present. */
  lemma AwsAppendsMissing(lines: seq<string>)
    ensures var r := WithAws(lines);
      && r[..|lines|] == lines
      && (forall i :: |lines| <= i < |r| ==> r[i] in AwsRedirectLines && r[i] !in lines)
      && IsSubsequence(r[|lines|..], AwsRedirectLines)
      && (forall j :: 0 <= j < |AwsRedirectLines| && AwsRedirectLines[j] !in lines ==>
            multiset(r[|lines|..])[AwsRedirectLines[j]] == 1)
      && (forall j :: 0 <= j < |AwsRedirectLines| ==> AwsRedirectLines[j] in r)
  {
    var missing := MissingBundleLines(lines);
    var r := WithAws(lines);
    assert r[|lines|..] == missing;
    RemovedIsSubsequence(AwsRedirectLines, PresentIn(lines));
    BundleDistinct();
    forall j | 0 <= j < |AwsRedirectLines| && AwsRedirectLines[j] !in lines
      ensures multiset(missing)[AwsRedirectLines[j]] == 1
    {
      var b := AwsRedirectLines[j];
      RemovedCount(AwsRedirectLines, PresentIn(lines), b);
      assert multiset(AwsRedirectLines)[b] == 1 by {
        assert AwsRedirectLines == [AwsRedirectLines[0], AwsRedirectLines[1], AwsRedirectLines[2]];
      }
    }
    forall j | 0 <= j < |AwsRedirectLines|
      ensures AwsRedirectLines[j] in r
    {
      if AwsRedirectLines[j] !in lines {
        assert AwsRedirectLines[j] in missing;
      }
    }
  }

  /** After the AWS button the bundle flag is set and the other two flags
      are as before. */
  lemma AwsFlags(lines: seq<string>)
    ensures Classify(WithAws(lines)) == Classify(lines).(aws := true)
  {
    var missing := MissingBundleLines(lines);
    AwsAppendsMissing(lines);
    BundleAvoidsProd();
    assert forall i :: 0 <= i < |missing| ==> !MentionsProd(missing[i]);
    AppendKeepsProdFlags(lines, missing);
  }

  /** Appending lines that do not mention the game host leaves the custom
      and localhost flags as they were. */
  lemma AppendKeepsProdFlags(lines: seq<string>, extra: seq<string>)
    requires forall i :: 0 <= i < |extra| ==> !MentionsProd(extra[i])
    ensures Classify(lines + extra).custom == Classify(lines).custom
    ensures Classify(lines + extra).localhost == Classify(lines).localhost
  {
    LocalhostLineMentionsProd();
    var r := lines + extra;
    assert forall i :: 0 <= i < |r| ==> r[i] == if i < |lines| then lines[i] else extra[i - |lines|];
  }

  /** Pressing the AWS button twice writes what pressing it once does. */
  lemma AwsIdempotent(lines: seq<string>)
    ensures WithAws(WithAws(lines)) == WithAws(lines)
  {
    var r := WithAws(lines);
    AwsAppendsMissing(lines);
    RemovedEverything(AwsRedirectLines, PresentIn(r));
  }

  // The refresh after each handler

  /** After connect to an address not starting with "127.0.0.1", the
      connect button is hidden, localhost is offered, the AWS button is as
      before and disconnect is offered. */
  lemma RefreshAfterConnect(lines: seq<string>, address: string)
    requires !StartsWith(address, Loopback)
    ensures Refresh(Read(WithProdMapping(lines, address)))
         == Buttons(Collapsed, Visible, Refresh(Read(lines)).aws, Visible)
  {
    ProdMappingFlags(lines, address);
    assert address != Loopback by {
      assert StartsWith(Loopback, Loopback);
    }
  }

  /** After localhost the localhost button is hidden, connect is offered,
      the AWS button is as before and disconnect is offered. */
  lemma RefreshAfterLocalhost(lines: seq<string>)
    ensures Refresh(Read(WithProdMapping(lines, Loopback)))
         == Buttons(Visible, Collapsed, Refresh(Read(lines)).aws, Visible)
  {
    LocalhostFlags(lines);
  }

  /** After the AWS button it is hidden, disconnect is offered, and connect
      and localhost are as before. */
  lemma RefreshAfterAws(lines: seq<string>)
    ensures Refresh(Read(WithAws(lines))) == Refresh(Read(lines)).(aws := Collapsed, disconnect := Visible)
  {
    AwsFlags(lines);
  }

  /** After disconnect connect, localhost and AWS are offered and disconnect
      is hidden. */
  lemma RefreshAfterDisconnect(lines: seq<string>)
    ensures Refresh(Read(Disconnected(lines))) == Buttons(Visible, Visible, Visible, Collapsed)
  {
    DisconnectFlags(lines);
  }

  // Disconnect

  /** After disconnect no line mentions the game host, no line's trimmed
      text is a bundle line, and every other line of the file is kept in
      its order and with its multiplicity. */
  lemma DisconnectShape(lines: seq<string>)
    ensures var r := Disconnected(lines);
      && (forall i :: 0 <= i < |r| ==> !MentionsProd(r[i]) && Trim(r[i]) !in AwsRedirectLines)
      && IsSubsequence(r, lines)
      && (forall x :: !IsRedirectLine(x) ==> multiset(r)[x] == multiset(lines)[x])
  {
    RemovedIsSubsequence(lines, IsRedirectLine);
    forall x | !IsRedirectLine(x)
      ensures multiset(Disconnected(lines))[x] == multiset(lines)[x]
    {
      RemovedCount(lines, IsRedirectLine, x);
    }
  }

  /** After disconnect all three flags are clear, so connect, localhost and
      AWS are offered and disconnect is hidden. */
  lemma DisconnectFlags(lines: seq<string>)
    ensures Classify(Disconnected(lines)) == RedirectState(false, false, false)
    ensures ButtonsFor(Classify(Disconnected(lines))) == Buttons(Visible, Visible, Visible, Collapsed)
  {
    DisconnectClearsProd(lines);
    DisconnectClearsBundle(lines);
  }

  /** No line left by disconnect mentions the game host, the loopback line
      for it included. */
  lemma DisconnectClearsProd(lines: seq<string>)
    ensures !Classify(Disconnected(lines)).custom && !Classify(Disconnected(lines)).localhost
  {
    var r := Disconnected(lines);
    assert forall i :: 0 <= i < |r| ==> !MentionsProd(r[i]);
    LocalhostLineMentionsProd();
  }

  /** The first bundle line is its own trimmed text, so disconnect removes it. */
  lemma DisconnectClearsBundle(lines: seq<string>)
    ensures !Classify(Disconnected(lines)).aws
  {
    BundleLinesAreRedirects();
    assert AwsRedirectLines[0] !in Disconnected(lines);
  }

  /** Every bundle line is one that disconnect removes. */
  lemma BundleLinesAreRedirects()
    ensures forall j :: 0 <= j < |AwsRedirectLines| ==> IsRedirectLine(AwsRedirectLines[j])
  {
    BundleTrimmed();
  }

  /** Pressing disconnect twice writes what pressing it once does. */
  lemma DisconnectIdempotent(lines: seq<string>)
    ensures Disconnected(Disconnected(lines)) == Disconnected(lines)
  {
    RemovedNothing(Disconnected(lines), IsRedirectLine);
  }

  /** A bundle line indented by white space is not "present" for the AWS
      button, which appends all three bundle lines after it. */
  lemma IndentedBundleLineAdded(pad: string, j: nat)
    requires pad != [] && forall i :: 0 <= i < |pad| ==> IsWhiteSpace(pad[i])
    requires j < |AwsRedirectLines|
    ensures WithAws([pad + AwsRedirectLines[j]]) == [pad + AwsRedirectLines[j]] + AwsRedirectLines
  {
    var lines := [pad + AwsRedirectLines[j]];
    assert lines[0][0] == pad[0];
    assert forall k :: 0 <= k < |AwsRedirectLines| ==> AwsRedirectLines[k][0] == '1';
    assert forall k :: 0 <= k < |AwsRedirectLines| ==> !PresentIn(lines)(AwsRedirectLines[k]);
    RemovedNothing(AwsRedirectLines, PresentIn(lines));
  }

  /** More generally, an indented bundle line is invisible to the AWS
      button: adding one to any file leaves the missing bundle lines as
      they were. */
  lemma IndentedBundleLineIgnored(lines: seq<string>, pad: string, j: nat)
    requires pad != [] && forall i :: 0 <= i < |pad| ==> IsWhiteSpace(pad[i])
    requires j < |AwsRedirectLines|
    ensures MissingBundleLines(lines + [pad + AwsRedirectLines[j]]) == MissingBundleLines(lines)
  {
    var line := pad + AwsRedirectLines[j];
    assert line[0] == pad[0];
    forall k | 0 <= k < |AwsRedirectLines|
      ensures PresentIn(lines + [line])(AwsRedirectLines[k]) == PresentIn(lines)(AwsRedirectLines[k])
    {
      assert AwsRedirectLines[k][0] == '1';
      assert AwsRedirectLines[k] != line;
    }
    RemovedAgree(AwsRedirectLines, PresentIn(lines + [line]), PresentIn(lines));
  }

  /** Disconnect removes that same indented line, as its trimmed text is a
      bundle line. */
  lemma IndentedBundleLineRemoved(pad: string, j: nat)
    requires forall i :: 0 <= i < |pad| ==> IsWhiteSpace(pad[i])
    requires j < |AwsRedirectLines|
    ensures Disconnected([pad + AwsRedirectLines[j]]) == []
  {
    PaddedBundleLineTrimmed(pad, j);
    TrimmedBundleLineRemoved(pad + AwsRedirectLines[j]);
  }

  /** Trimming a bundle line with white space in front gives the bundle line. */
  lemma PaddedBundleLineTrimmed(pad: string, j: nat)
    requires forall i :: 0 <= i < |pad| ==> IsWhiteSpace(pad[i])
    requires j < |AwsRedirectLines|
    ensures Trim(pad + AwsRedirectLines[j]) == AwsRedirectLines[j]
  {
    TrimSkipsPadding(pad, AwsRedirectLines[j]);
    BundleTrimmed();
  }

  /** A line whose trimmed text is a bundle line does not survive disconnect. */
  lemma TrimmedBundleLineRemoved(line: string)
    requires Trim(line) in AwsRedirectLines
    ensures Disconnected([line]) == []
  {
    assert IsRedirectLine(line);
    RemovedEverything([line], IsRedirectLine);
  }

  /** Disconnect drops the bundle lines and keeps a line after them that is
      too short to mention the game host or to be a bundle line. */
  lemma BundleThenShortLineDisconnect(line: string)
    requires |line| < |ProdHost|
    ensures Disconnected(AwsRedirectLines + [line]) == [line]
  {
    BundleLinesAreRedirects();
    RemovedEverything(AwsRedirectLines, IsRedirectLine);
    ContainsAt(line, ProdHost);
    assert |AwsRedirectLines[0]| == 40 && |AwsRedirectLines[1]| == 50 && |AwsRedirectLines[2]| == 50;
    assert !IsRedirectLine(line);
    RemovedNothing([line], IsRedirectLine);
    RemovedAppend(AwsRedirectLines, [line], IsRedirectLine);
  }

  /** A file holding the three bundle lines and a comment keeps only the
      comment after disconnect. */
  lemma BundleAndCommentDisconnect()
    ensures Disconnected(AwsRedirectLines + ["# local entries"]) == ["# local entries"]
  {
    BundleThenShortLineDisconnect("# local entries");
  }
}
