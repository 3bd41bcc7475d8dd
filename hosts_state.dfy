/** The redirect policy of the hosts editor, the three flags it reads off the
    hosts file, and which buttons the window shows for them. */
module HostsState {
  import opened Text
  import opened Lines

  /** The game service host whose resolution is redirected. */
  const ProdHost: string := "prod.gamev92.portalworldsgame.com"

  /** The loopback address. */
  const Loopback: string := "127.0.0.1"

  /** The line that points the game host at the loopback address. */
  const LocalhostLine: string := Loopback + " " + ProdHost

  /** The auxiliary bundle: three cloud-service hosts pointed at loopback
      ("127.0.0.1 lambda.us-east-1.amazonaws.com" and so on). */
  const AwsRedirectLines: seq<string> := [
    Loopback + " lambda.us-east-1.amazonaws.com",
    Loopback + " ec2-34-237-73-93.compute-1.amazonaws.com",
    Loopback + " cognito-identity.us-east-1.amazonaws.com"
  ]

  /** A line that mentions the game host anywhere, a comment included. */
  predicate MentionsProd(line: string)
  {
    Contains(line, ProdHost)
  }

  /** A line that mentions the game host and does not start with the
      loopback address (so "127.0.0.10 ..." is not one). */
  predicate IsCustomRedirect(line: string)
  {
    MentionsProd(line) && !StartsWith(line, Loopback)
  }

  /** The state derived from the file on every refresh. */
  datatype RedirectState = RedirectState(custom: bool, localhost: bool, aws: bool)

  /** The three flags of CheckHostsFile. */
  function Classify(lines: seq<string>): (st: RedirectState)
    ensures st.custom <==> exists i :: 0 <= i < |lines| && MentionsProd(lines[i]) && !StartsWith(lines[i], Loopback)
    ensures st.localhost <==> exists i :: 0 <= i < |lines| && lines[i] == LocalhostLine
    ensures st.aws <==> forall j :: 0 <= j < |AwsRedirectLines| ==> AwsRedirectLines[j] in lines
  {
    RedirectState(
      Any(lines, IsCustomRedirect),
      LocalhostLine in lines,
      All(AwsRedirectLines, (b: string) => b in lines))
  }

  datatype Visibility = Visible | Collapsed

  /** The visibility of the four action buttons. */
  datatype Buttons = Buttons(connect: Visibility, localhost: Visibility, aws: Visibility, disconnect: Visibility)

  /** Each of connect, localhost and AWS shows exactly when its own redirect
      is absent; disconnect shows exactly when some redirect is present, that
      is, exactly when one of the other three is hidden. So at least one
      button is always offered. */
  function ButtonsFor(st: RedirectState): (b: Buttons)
    ensures b.connect == Visible <==> !st.custom
    ensures b.localhost == Visible <==> !st.localhost
    ensures b.aws == Visible <==> !st.aws
    ensures b.disconnect == Visible <==> (b.connect == Collapsed || b.localhost == Collapsed || b.aws == Collapsed)
    ensures b.connect == Visible || b.localhost == Visible || b.aws == Visible || b.disconnect == Visible
  {
    Buttons(
      if st.custom then Collapsed else Visible,
      if st.localhost then Collapsed else Visible,
      if st.aws then Collapsed else Visible,
      if st.custom || st.localhost || st.aws then Visible else Collapsed)
  }

  /** What reading the hosts file gives: nothing when it does not exist. */
  datatype HostsRead = NotFound | Read(lines: seq<string>)

  /** RefreshUI: hide all four buttons, then show them by the state of the
      file; when the file is missing every button stays hidden. */
  function Refresh(file: HostsRead): (b: Buttons)
  {
    match file
    case NotFound => Buttons(Collapsed, Collapsed, Collapsed, Collapsed)
    case Read(lines) => ButtonsFor(Classify(lines))
  }

  /** After a refresh every button is hidden exactly when the hosts file is
      missing: for a file that exists some button is always offered. */
  lemma RefreshHidesAllIffMissing(file: HostsRead)
    ensures Refresh(file) == Buttons(Collapsed, Collapsed, Collapsed, Collapsed) <==> file.NotFound?
  {
    if file.Read? {
      var b := ButtonsFor(Classify(file.lines));
      assert b.connect == Visible || b.localhost == Visible || b.aws == Visible || b.disconnect == Visible;
    }
  }

  /** A commented-out line that mentions the game host still counts as a
      custom redirect, as it does not start with the loopback address. */
  lemma CommentCountsAsCustom(lines: seq<string>, i: nat)
    requires i < |lines| && MentionsProd(lines[i])
    requires lines[i] != [] && lines[i][0] == '#'
    ensures Classify(lines).custom
  {
    assert !StartsWith(lines[i], Loopback) by {
      assert Loopback[0] == '1';
    }
  }

  /** The loopback line for the game host mentions the game host. */
  lemma LocalhostLineMentionsProd()
    ensures MentionsProd(LocalhostLine)
  {
    ContainsSuffix(Loopback + " ", ProdHost);
  }

  /** No bundle line mentions the game host: none has a 'p' early enough
      for the host name to fit after it. */
  lemma BundleAvoidsProd()
    ensures forall j :: 0 <= j < |AwsRedirectLines| ==> !MentionsProd(AwsRedirectLines[j])
  {
    forall j | 0 <= j < |AwsRedirectLines|
      ensures !MentionsProd(AwsRedirectLines[j])
    {
      var b := AwsRedirectLines[j];
      assert forall i :: 0 <= i < |Loopback| + 1 ==> b[i] != 'p';
      assert forall i :: |Loopback| + 1 <= i <= |b| - |ProdHost| ==> b[i] != 'p';
      FirstCharAbsent(b, ProdHost);
    }
  }

  /** Trim leaves every bundle line as it is. */
  lemma BundleTrimmed()
    ensures forall j :: 0 <= j < |AwsRedirectLines| ==> Trim(AwsRedirectLines[j]) == AwsRedirectLines[j]
  {
    forall j | 0 <= j < |AwsRedirectLines|
      ensures Trim(AwsRedirectLines[j]) == AwsRedirectLines[j]
    {
      var b := AwsRedirectLines[j];
      assert b[0] == '1' && b[|b| - 1] == 'm';
      TrimUnchanged(b);
    }
  }

  /** The bundle lines are pairwise different. */
  lemma BundleDistinct()
    ensures forall j, k :: 0 <= j < k < |AwsRedirectLines| ==> AwsRedirectLines[j] != AwsRedirectLines[k]
  {
    assert AwsRedirectLines[0][10] == 'l';
    assert AwsRedirectLines[1][10] == 'e';
    assert AwsRedirectLines[2][10] == 'c';
  }
}
