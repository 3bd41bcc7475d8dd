# Hosts editor redirect model

PWTools is a small Windows tool that edits the system hosts file so that the
game service host `prod.gamev92.portalworldsgame.com` resolves to an address
the user chooses. The tool can also point that host at loopback, or point a
fixed bundle of three cloud-service hosts at loopback. Its main window derives
three flags from the hosts file:

- **custom**: some line mentions the game host and does not start with
  `127.0.0.1`.
- **localhost**: the loopback line `127.0.0.1 <game host>` is present.
- **aws**: every bundle line is present verbatim.

Each flag shows or hides one of four buttons. Each button reads the file,
edits its lines and writes them back.

This project models that reconciliation logic over the file's lines, a
`seq<string>`, and proves what every edit does to the lines and to the flags.

- `text.dfy` (module `Text`) has the string operations the tool uses. The
  ordinal `String.Contains` and `String.Trim` are modelled as they are, with
  Trim using the white-space set of `Char.IsWhiteSpace`. The tool's
  `String.StartsWith` compares by the current culture and is approximated
  here by an ordinal prefix test.
- `lines.dfy` (module `Lines`) has LINQ's `Any`/`All` and `List.RemoveAll`.
  `Removed` states what RemoveAll leaves; `RemoveAll` is its single-pass loop.
  Around them are lemmas: the result is a subsequence of the input, element
  counts are kept, and two removals in a row equal one removal of either
  predicate.
- `ipv4.dfy` (module `IPv4`) is the address check
  `^\d{1,3}(\.\d{1,3}){3}$`. It is a matcher proved equivalent to "four digit
  groups joined by dots", together with what that check accepts and rejects.
- `hosts_state.dfy` (module `HostsState`) has the constants, the flag
  computation of `CheckHostsFile`, the button-visibility rule and `RefreshUI`.
- `hosts_edit.dfy` (module `HostsEdit`) has the four click handlers as methods
  over the lines just read, each proved against a specification function.
  Lemmas about those functions give the shape of the written file, the flags
  it produces, and idempotence.

Behaviour of the code that the lemmas establish:

- Connecting to an address such as `127.0.0.10` is accepted. The line written
  for it starts with `127.0.0.1` but is not the loopback line, so neither the
  custom nor the localhost flag is set. On a file lacking a bundle line, the
  disconnect button is then hidden although the file redirects the game host
  (`LoopbackLookalikeFlags`).
- The AWS button looks lines up verbatim, but disconnect compares trimmed
  lines. An indented bundle line is therefore invisible to the AWS button:
  adding one to any file leaves the missing bundle lines as they were
  (`IndentedBundleLineIgnored`). A file holding only that indented line
  gets all three bundle lines appended (`IndentedBundleLineAdded`).
  Disconnect removes the indented line (`IndentedBundleLineRemoved`).
- There is no range check: `999.999.999.999` is accepted.

Only `CheckHostsFile` (MainWindow.xaml.cs:49-53) tests that the hosts file
exists. The click handlers call `File.ReadAllLines` unguarded, so a missing
file throws there (see "Left out").

## Model

| member | source | states |
|---|---|---|
| Text.ContainsAt | PWTools/MainWindow.xaml.cs:56 | `Contains(s, sub)` holds exactly when `sub` occurs in `s` at some offset |
| Text.FirstCharAbsent | PWTools/MainWindow.xaml.cs:77 | a line cannot contain the host when the host's first character is at no offset where an occurrence could start |
| Text.ContainsSuffix | PWTools/MainWindow.xaml.cs:78 | a line ending in the host name contains it, so the written mapping line mentions the host |
| Text.Trim | PWTools/MainWindow.xaml.cs:68 | the trimmed text is no longer than the input and neither starts nor ends with white space |
| Text.TrimCutsWhiteSpace | PWTools/MainWindow.xaml.cs:68 | the trimmed text is a slice of the input, and every character before or after the slice is white space |
| Text.TrimUnchanged | PWTools/MainWindow.xaml.cs:118 | a line with no white space at either end is its own trimmed text |
| Text.TrimSkipsPadding | PWTools/MainWindow.xaml.cs:118 | white space in front of a line does not change its trimmed text |
| Text.LeadingWhiteSpaceRun | PWTools/MainWindow.xaml.cs:68 | the characters Trim skips at the start are white space, and the next one is not |
| Text.TrailingWhiteSpaceRun | PWTools/MainWindow.xaml.cs:68 | the characters Trim skips at the end are white space |
| Lines.Any | PWTools/MainWindow.xaml.cs:56 | `Any(s, p)` holds exactly when some element satisfies `p` |
| Lines.All | PWTools/MainWindow.xaml.cs:58 | `All(s, p)` holds exactly when every element satisfies `p` |
| Lines.Removed | PWTools/MainWindow.xaml.cs:77 | every survivor of RemoveAll comes from the input and fails the predicate; every input element that fails the predicate survives; the result is no longer than the input |
| Lines.RemoveAll | PWTools/MainWindow.xaml.cs:77 | the single-pass removal loop leaves exactly `Removed(lines, drop)` |
| Lines.RemovedIsSubsequence | PWTools/MainWindow.xaml.cs:77 | the lines RemoveAll leaves keep their original order |
| Lines.RemovedCount | PWTools/MainWindow.xaml.cs:77 | RemoveAll drops every copy of a matching line and keeps every copy of a non-matching one |
| Lines.RemovedNothing | PWTools/MainWindow.xaml.cs:118 | RemoveAll with a predicate no line satisfies changes nothing |
| Lines.RemovedEverything | PWTools/MainWindow.xaml.cs:118 | RemoveAll with a predicate every line satisfies leaves nothing |
| Lines.RemovedAgree | PWTools/MainWindow.xaml.cs:102 | RemoveAll by two predicates that agree on every element leaves the same list |
| Lines.RemovedAppend | PWTools/MainWindow.xaml.cs:115-118 | RemoveAll on a concatenation is the concatenation of RemoveAll on its parts |
| Lines.RemovedTwice | PWTools/MainWindow.xaml.cs:115-118 | RemoveAll by `p` and then by `q` equals one RemoveAll by `p or q` |
| IPv4.FormatIsDottedQuad | PWTools/MainWindow.xaml.cs:69 | the address check accepts a string exactly when it is four groups of one to three ASCII digits joined by dots |
| IPv4.MatchedIsDottedQuad | PWTools/MainWindow.xaml.cs:69 | every accepted string splits into four digit groups joined by dots |
| IPv4.JoinedGroupsAccepted | PWTools/MainWindow.xaml.cs:69 | any four digit groups joined by dots are accepted, whatever their numeric values |
| IPv4.FirstGroup | PWTools/MainWindow.xaml.cs:69 | a matched string with groups still to come is a digit group, a dot, and a string matched with one dot fewer |
| IPv4.LastGroup | PWTools/MainWindow.xaml.cs:69 | a matched string with no dot left is a single digit group |
| IPv4.LeadingDigitsRun | PWTools/MainWindow.xaml.cs:69 | the leading run the matcher takes as a group is all digits and is followed by a non-digit or the end |
| IPv4.LeadingDigitsOfGroup | PWTools/MainWindow.xaml.cs:69 | a run of digits ending before a non-digit or the end is exactly the leading run |
| IPv4.AcceptedCharacters | PWTools/MainWindow.xaml.cs:69 | an accepted address contains only digits and dots |
| IPv4.AcceptedLength | PWTools/MainWindow.xaml.cs:69 | an accepted address has between 7 and 15 characters |
| IPv4.OutOfRangeAccepted | PWTools/MainWindow.xaml.cs:69 | `999.999.999.999` passes: no group is checked against 0..255 |
| IPv4.TooShortRejected | PWTools/MainWindow.xaml.cs:69-73 | strings shorter than 7 characters, such as the empty string and `1.2.3`, are rejected |
| IPv4.ExtraGroupRejected | PWTools/MainWindow.xaml.cs:69 | an accepted string followed by a dot and anything more is rejected |
| IPv4.FiveGroupsRejected | PWTools/MainWindow.xaml.cs:69-73 | five groups joined by dots, such as `1.2.3.4.5`, are rejected |
| IPv4.LongGroupRejected | PWTools/MainWindow.xaml.cs:69-73 | a group of four digits (`1234.1.1.1`) is rejected |
| IPv4.PlaceholderRejected | PWTools/MainWindow.xaml.cs:69 | the input box's placeholder text `Enter IP address...` is rejected by the check |
| IPv4.LeadingDigitsAppend | PWTools/MainWindow.xaml.cs:69 | the leading digit run of a concatenation stops inside the first part or continues into the second |
| IPv4.PrependGroup | PWTools/MainWindow.xaml.cs:69 | a digit group and a dot in front of a string matched with one dot fewer is matched |
| IPv4.LastGroupAccepted | PWTools/MainWindow.xaml.cs:69 | a single digit group is matched when no dot is expected |
| HostsState.Classify | PWTools/MainWindow.xaml.cs:55-58 | custom holds exactly when some line mentions the game host and does not start with `127.0.0.1`; localhost holds exactly when some line equals `127.0.0.1 <game host>`; aws holds exactly when every bundle line occurs verbatim |
| HostsState.ButtonsFor | PWTools/MainWindow.xaml.cs:60-63 | connect, localhost and AWS are each visible exactly when their own flag is clear; disconnect is visible exactly when one of them is hidden; at least one button is always visible |
| HostsState.RefreshHidesAllIffMissing | PWTools/MainWindow.xaml.cs:125-132 | after a refresh all four buttons are collapsed exactly when the hosts file is missing; for an existing file some button is always visible |
| HostsState.CommentCountsAsCustom | PWTools/MainWindow.xaml.cs:56 | a commented-out line that mentions the game host sets the custom flag |
| HostsState.LocalhostLineMentionsProd | PWTools/MainWindow.xaml.cs:57 | the loopback line contains the game host |
| HostsState.BundleAvoidsProd | PWTools/MainWindow.xaml.cs:15-22 | no bundle line contains the game host |
| HostsState.BundleTrimmed | PWTools/MainWindow.xaml.cs:15-20 | every bundle line is its own trimmed text |
| HostsState.BundleDistinct | PWTools/MainWindow.xaml.cs:15-20 | the three bundle lines are pairwise different |
| HostsEdit.ConnectClick | PWTools/MainWindow.xaml.cs:66-78 | the typed text is rejected exactly when its trimmed text fails the address check (nothing is written); otherwise the written lines are the file without its game-host lines plus `<trimmed ip> <game host>` |
| HostsEdit.LocalhostClick | PWTools/MainWindow.xaml.cs:85-90 | the written lines are the file without its game-host lines plus the loopback line |
| HostsEdit.AwsClick | PWTools/MainWindow.xaml.cs:97-104 | the loop appending each absent bundle line writes the file followed by its missing bundle lines in bundle order |
| HostsEdit.DisconnectClick | PWTools/MainWindow.xaml.cs:111-118 | the removal of game-host lines followed by one trimmed-match removal per bundle line writes the file without any redirect line |
| HostsEdit.TrimmedInStep | PWTools/MainWindow.xaml.cs:117-118 | matching the first `i + 1` bundle lines is matching the first `i` or the next one |
| HostsEdit.ProdMappingShape | PWTools/MainWindow.xaml.cs:77-78 | after connect or localhost the new mapping is the last line, no earlier line mentions the game host, and the other lines survive in order with their multiplicities |
| HostsEdit.ProdMappingFlags | PWTools/MainWindow.xaml.cs:77-78 | after connect to `address`: custom exactly when `address` does not start with `127.0.0.1`, localhost exactly when `address` is `127.0.0.1`, aws unchanged |
| HostsEdit.MappingCustomFlag | PWTools/MainWindow.xaml.cs:56 | only the appended line can set custom, and it does exactly when the address does not start with `127.0.0.1` |
| HostsEdit.MappingLocalhostFlag | PWTools/MainWindow.xaml.cs:57 | the loopback line is present after connect exactly when the address is `127.0.0.1` |
| HostsEdit.MappingBundleFlag | PWTools/MainWindow.xaml.cs:58 | each bundle line is in the file connect or localhost writes exactly when it was in the file read, so the aws flag is unchanged |
| HostsEdit.StartsWithBeforeSeparator | PWTools/MainWindow.xaml.cs:56 | `a + " " + rest` starts with a space-free prefix exactly when `a` does |
| HostsEdit.LocalhostFlags | PWTools/MainWindow.xaml.cs:89-90 | after localhost the localhost flag is set, custom is clear and aws is unchanged |
| HostsEdit.ProdMappingExclusive | PWTools/MainWindow.xaml.cs:77-78 | after connect at most one of custom and localhost holds, and one holds unless the address is a look-alike of `127.0.0.1` |
| HostsEdit.EmptyFileConnect | PWTools/MainWindow.xaml.cs:77-78 | connect to `10.0.0.5` on an empty file writes the single line `10.0.0.5 <game host>` |
| HostsEdit.LoopbackPrefixAccepted | PWTools/MainWindow.xaml.cs:69 | `127.0.0.1` followed by up to two more digits, such as `127.0.0.10`, passes the address check |
| HostsEdit.LoopbackLookalikeFlags | PWTools/MainWindow.xaml.cs:56-63 | on any file lacking a bundle line, connecting to `127.0.0.1` followed by more characters sets no flag, and the disconnect button stays hidden |
| HostsEdit.RefreshAfterConnect | PWTools/MainWindow.xaml.cs:77-82 | after connect to an address not starting with `127.0.0.1` and the refresh, connect is collapsed, localhost and disconnect are visible, and the AWS button is as it was before |
| HostsEdit.RefreshAfterLocalhost | PWTools/MainWindow.xaml.cs:89-94 | after localhost and the refresh, localhost is collapsed, connect and disconnect are visible, and the AWS button is as it was before |
| HostsEdit.AwsAppendsMissing | PWTools/MainWindow.xaml.cs:100-104 | the file is an unchanged prefix; each appended line is a bundle line that was absent; appended lines keep bundle order; each absent bundle line is appended once; afterwards every bundle line is present |
| HostsEdit.AwsFlags | PWTools/MainWindow.xaml.cs:100-104 | after the AWS button the aws flag is set and custom and localhost are unchanged |
| HostsEdit.AppendKeepsProdFlags | PWTools/MainWindow.xaml.cs:56-57 | appending lines that do not mention the game host leaves custom and localhost unchanged |
| HostsEdit.AwsIdempotent | PWTools/MainWindow.xaml.cs:100-104 | pressing the AWS button twice writes what pressing it once writes |
| HostsEdit.RefreshAfterAws | PWTools/MainWindow.xaml.cs:100-108 | after the AWS button and the refresh, AWS is collapsed, disconnect is visible, and connect and localhost are as they were before |
| HostsEdit.DisconnectShape | PWTools/MainWindow.xaml.cs:115-118 | after disconnect no line mentions the game host, no line's trimmed text is a bundle line, and every other line survives in order with its multiplicity |
| HostsEdit.DisconnectFlags | PWTools/MainWindow.xaml.cs:115-118 | after disconnect all three flags are clear, so connect, localhost and AWS are visible and disconnect is hidden |
| HostsEdit.RefreshAfterDisconnect | PWTools/MainWindow.xaml.cs:115-122 | after disconnect and the refresh, connect, localhost and AWS are visible and disconnect is collapsed |
| HostsEdit.DisconnectClearsProd | PWTools/MainWindow.xaml.cs:115 | after disconnect neither custom nor localhost holds |
| HostsEdit.DisconnectClearsBundle | PWTools/MainWindow.xaml.cs:117-118 | after disconnect the aws flag is clear |
| HostsEdit.BundleLinesAreRedirects | PWTools/MainWindow.xaml.cs:117-118 | every bundle line is removed by disconnect |
| HostsEdit.DisconnectIdempotent | PWTools/MainWindow.xaml.cs:115-118 | pressing disconnect twice writes what pressing it once writes |
| HostsEdit.IndentedBundleLineAdded | PWTools/MainWindow.xaml.cs:102 | a file holding only an indented bundle line gets all three bundle lines appended by the AWS button |
| HostsEdit.IndentedBundleLineIgnored | PWTools/MainWindow.xaml.cs:100-104 | adding a bundle line indented by white space to any file leaves the bundle lines the AWS button appends as they were |
| HostsEdit.IndentedBundleLineRemoved | PWTools/MainWindow.xaml.cs:118 | disconnect removes that indented bundle line |
| HostsEdit.PaddedBundleLineTrimmed | PWTools/MainWindow.xaml.cs:118 | trimming an indented bundle line gives the bundle line |
| HostsEdit.TrimmedBundleLineRemoved | PWTools/MainWindow.xaml.cs:118 | a line whose trimmed text is a bundle line does not survive disconnect |
| HostsEdit.BundleThenShortLineDisconnect | PWTools/MainWindow.xaml.cs:115-118 | disconnect drops the three bundle lines and keeps a line after them that is shorter than the game host name |
| HostsEdit.BundleAndCommentDisconnect | PWTools/MainWindow.xaml.cs:115-118 | a file of the three bundle lines and the comment `# local entries` keeps only the comment after disconnect |

## Left out

- File I/O is not modelled: `File.Exists`, `File.ReadAllLines` and `File.WriteAllLines`. The handlers take the lines read as input and return the lines to write. Line splitting and line endings on read and write are outside the model.
- A missing, unreadable or unwritable hosts file inside a click handler is not modelled. `File.ReadAllLines` or `File.WriteAllLines` throws there (writing needs administrator rights) and the handler does not catch it.
- The read-modify-write race with other processes editing the hosts file is not modelled, because the model has no concurrency.
- The backup copy in `CreateHostsBackupIfMissing` is not modelled, because it is file I/O only.
- Message boxes and control plumbing are not modelled. Neither is the button state at start-up when the file is missing: `CheckHostsFile` returns before touching the buttons, so they keep their designer defaults.
- `TxtIP_GotFocus`, which clears the placeholder text, is not modelled, because it is UI plumbing. The placeholder itself appears in `PlaceholderRejected`.
- The registry handler `BtnModifyRegistry_Click` and `GenerateRandomCognitoId` are not part of this model. They use the Windows registry and `System.Random`.
- IPv4.IsDigit: accepts only the ASCII digits 0-9. The .NET class `\d` also matches the other Unicode decimal digits.
- IPv4.MatchesGroups: the .NET `$` anchor also matches before a final newline. This changes nothing here, because the input is trimmed first and a newline is white space.
- Text.StartsWith: compares character by character. The source's `StartsWith("127.0.0.1")` uses the current culture. For this ASCII prefix the two agree, except under culture rules that ignore some characters.
- Text.IsWhiteSpace: the fixed white-space set of `Char.IsWhiteSpace`. Strings are sequences of Unicode scalar values, not UTF-16 code units.
- Lines.RemoveAll: modelled on a sequence value. The compaction of `List<T>` in place is not modelled.
