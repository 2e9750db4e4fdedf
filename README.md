# A verified model of the tunnel bot's orchestration core

`tunnel-m.py` is a Telegram bot that sets up a 6to4 + GRE-over-IPv6 + IPsec tunnel between
an "Iran" server and a "Kharej" (abroad) server. It logs in to both over SSH, renders their
configuration files and runs fixed command lists on each. The bot keeps its tunnels in an
SQLite table, and later checks them with `ping`, or tears them down.

This project models the logic under the Telegram, SSH and SQLite layers, and proves what
that logic guarantees:

- **Validators.** The input validators — the hour, the IPv4 address, the MTU range, the
  access check — are modelled down to Python's `int()` and the regular expression.
- **Command results.** `execute_ssh_command` shapes an SSH outcome into a result string.
  Callers then test that string for the failure mark "خطا".
- **Fail-fast loops.** Each loop runs its command list on the Iran server, then on the
  Kharej server.
- **Health check.** `ping_ssh` runs a module check, an interface check and a ping, then
  reads the packet-loss and round-trip fields out of the output.
- **Rendering.** The boot script, `ipsec.conf`, `ipsec.secrets`, the recycle script and the
  crontab line are rendered for each end.
- **Table.** The `tunnels` table is a sequence of records in table order. It supports
  insert, select all or by owner, select by name with `fetchone()`, and delete by id. Admin
  menu buttons are labelled "name (کاربر: owner)" and read back as the name.
- **Wizard.** The conversation is a transition function over the `ServerConfig` states and
  the FSM data dictionary (`Wizard.Step`). A class `Sessions.Session` has one method per
  handler, each proved to do what `Step` does.

The model is built from these modules:

- `Text`: `str.strip`, decimal digits, `str(n)`, substring search, `split`/`join`.
- `Validators`: `int()`, `is_valid_crontab_hour`, `is_valid_ip`, the MTU check and
  `check_user_access`.
- `Executor`: `execute_ssh_command`'s result shaping and the failure test.
- `Remote`: the SSH oracle, the event history, and the class `Channel` with the loops as
  methods.
- `Roles`: the two ends and their fixed names and addresses.
- `Health`: `ping_ssh`.
- `Render`: the file templates and the command lists.
- `Store`: the table, the button labels and the class `TunnelStore`.
- `Wizard`: the conversation as a function.
- `Sessions`: the class `Session`, one method per handler.
- `Steps`: per-handler and whole-run guarantees.
- `Outcomes`: what the server-facing handlers leave behind.

Several outside inputs are parameters of the model:
- **SSH.** An oracle `(history, event) -> outcome` answers each `Connect` (the login test) and
  `Run` (a command) event. The answer is either an exception message or a stdout/stderr pair.
  Because the oracle sees the whole history, a server can answer differently over time.
- **Configuration.** `ADMIN_ID` and `ALLOWED_USER_IDS` come in through `Wizard.Env`.
- **IDs.** The value `uuid.uuid4()` would draw comes with each message as `freshId`.

Several behaviours of the code may be unexpected. The model follows the code in each case:

- **Wizard navigation.**
  - Going back keeps every answer already given, including the one for the question
    being left.
  - Back from the tunnel-name question goes to the main menu, still without clearing the
    data.
  - Back from the Iran server address goes to the tunnel name, not to the tunnel-type menu.
  - The text back key in an MTU question asks the same question again. Only the inline
    button goes back a question.
  - The tunnel-type menu does not react to the home and back keys of the questions. It
    answers them as invalid choices.
- **Validation and storage.**
  - Addresses are validated stripped but stored as typed, surrounding whitespace and all.
  - The tunnel name, the pre-shared key and the hour are stored stripped.
  - The manual MTU is checked with `int()` on the raw text and stored as typed.
- **Remote commands.**
  - A server command "fails" only when its result text contains "خطا". An exit status is
    never looked at.
  - A command that only wrote an ordinary error to stderr counts as succeeded.
  - A command that printed the mark counts as failed.
- **Health check.**
  - When every SSH command of a check raises (an unreachable server), each result is a
    non-empty error text. Both pre-checks then pass, and the tunnel is reported
    "disconnected", not "error", provided the error message, the server address and the
    ping target hold no '%'. The error text repeats all three, and a "0% packet loss"
    inside it would read as connected.
  - The interface check looks for the *peer's* GRE address on the local interface.
- **Saving.**
  - The record is saved before the crontab commands run. A crontab failure leaves the
    record in the table.
  - An id that is already taken makes the INSERT raise. The handler then stops with the
    chat still in the hour question, the hour now in the data.
- **Entry.** `/start` starts the bot only while the chat has no state. In any other state it is taken as the answer to the current question.

## Model

| member | source | states |
|---|---|---|
| Text.StripSurrounded | tunnel-m.py:499 | `strip()` removes exactly the whitespace around a text that starts and ends with a non-space character |
| Text.StripEmptyIff | tunnel-m.py:499-500 | a text strips to nothing exactly when it is all whitespace (the empty-name and empty-key rejections) |
| Text.StripIdempotent | tunnel-m.py:561 | stripping twice is stripping once |
| Text.StripUnchanged | tunnel-m.py:1321 | a text with no whitespace at either end is its own stripped form |
| Text.ValueOfNatToString | tunnel-m.py:988 | `str(n)` is a digit string that reads back as n |
| Text.FourDigits | tunnel-m.py:937 | the rendering of a four-digit number, digit by digit |
| Text.FindFrom | tunnel-m.py:326 | the result is the first position at or after i where the pattern occurs, and None only when it occurs nowhere there |
| Text.Before | tunnel-m.py:326 | `s.split(t)[0]` is a prefix of s, and a proper one exactly when s contains t |
| Text.SplitJoin | tunnel-m.py:1162 | joining parts without the separator and splitting again gives the parts back |
| Text.SplitAppend | tunnel-m.py:1162 | splitting at a separator splits the two sides independently |
| Text.SplitFirst | tunnel-m.py:326 | a string that splits into several parts is its first part, a separator, then the rest |
| Validators.Magnitude | tunnel-m.py:103 | a magnitude is produced exactly for digit runs with single underscores between digits, the form `int()` takes |
| Validators.PyIntOfNatToString | tunnel-m.py:103 | `int()` reads back the decimal rendering of every natural number |
| Validators.PyIntSigned | tunnel-m.py:103 | `int()` negates after "-" and ignores "+" |
| Validators.PyIntOfStripped | tunnel-m.py:1321-1322 | for a text `int()` accepts, stripping it first gives the same number |
| Validators.PyIntRejectsInfoSeparator | tunnel-m.py:983-984 | `int()` refuses "1400" followed by U+001F, so the manual MTU check rejects it, though its stripped form "1400" passes |
| Validators.HourAcceptsExactly | tunnel-m.py:101-106 | the hour validator accepts `str(n)` exactly when n <= 23 |
| Validators.HourRejects | tunnel-m.py:101-106 | "1__2" (a `ValueError`) and "24" (out of range) are rejected |
| Validators.HourAcceptsSurrounded | tunnel-m.py:101-106 | text with surrounding whitespace is accepted, as `int()` strips |
| Validators.HourAcceptsPersianDigit | tunnel-m.py:101-106 | a Persian digit is accepted |
| Validators.HourAcceptsUnderscore | tunnel-m.py:101-106 | "1_2" is accepted as 12 |
| Validators.ValidHourHasNoSpace | tunnel-m.py:1321-1322 | an accepted stripped hour has no whitespace |
| Validators.StrippedHourParses | tunnel-m.py:1321-1322 | an accepted stripped hour parses |
| Validators.ParsedHasNoSpace | tunnel-m.py:1321-1322 | text that `int()` accepts once stripped holds no whitespace |
| Validators.MtuAcceptsExactly | tunnel-m.py:982-1011 | the MTU check accepts `str(n)` exactly when 1280 <= n <= 1500 |
| Validators.RenderedMtu | tunnel-m.py:1093-1096 | every n in 1280..1500 rendered is accepted |
| Validators.MtuDefaultsAccepted | tunnel-m.py:937 | the defaults "1480" and "1424" lie in the accepted range |
| Validators.MtuBoundsRejected | tunnel-m.py:1093-1116 | "1279" and "1501" are rejected |
| Validators.MtuWordRejected | tunnel-m.py:1110-1116 | a non-number is rejected (the `ValueError` branch) |
| Validators.OctetPatternIff | tunnel-m.py:109 | the octet alternation matches exactly the 1-3 digit strings of value at most 255 |
| Validators.DottedPatternIff | tunnel-m.py:109 | the n-dot pattern matches exactly the strings that split at dots into n + 1 octets |
| Validators.IsValidIpIff | tunnel-m.py:108-110 | `is_valid_ip` accepts a dotted quad, optionally followed by one newline (`$`), and nothing else |
| Validators.StrippedIpIff | tunnel-m.py:561 | on stripped text the validator accepts exactly the dotted quads |
| Validators.AcceptsPlainAddress | tunnel-m.py:108-110 | "192.168.1.1" is accepted |
| Validators.AcceptsLeadingZeros | tunnel-m.py:109 | leading zeros are let through |
| Validators.RejectsLargeOctet | tunnel-m.py:109 | an octet of 256 is rejected |
| Validators.RejectsThreeOctets | tunnel-m.py:109 | three octets are rejected |
| Validators.CheckUserAccess | tunnel-m.py:116-121 | admin exactly for the admin id, user exactly for another allowed id, none otherwise |
| Executor.ShapeResult | tunnel-m.py:1401-1420 | an exception or a permission problem gives a marked error text ending with the command; an exception's text carries its message; otherwise stdout, or stderr when stdout is empty |
| Executor.MarkedIsFailure | tunnel-m.py:449 | a marked error text is a failure for every caller |
| Executor.FailureIff | tunnel-m.py:1413-1416 | a result fails exactly on an exception, a permission problem, or a marked text from the command itself |
| Executor.PrintedMarkIsFailure | tunnel-m.py:773 | a command that only printed the mark is taken as failed |
| Executor.SilentErrorIsSuccess | tunnel-m.py:1416 | a command that only wrote a plain error to stderr is taken as succeeded |
| Remote.BatchSpec | tunnel-m.py:1255-1264 | one loop runs the commands in order, stops right after the first failure and returns it, and runs them all when none fails |
| Remote.BothSucceedsIff | tunnel-m.py:771-791 | the two-host loop succeeds exactly when every command on both hosts succeeds |
| Remote.BothOrder | tunnel-m.py:771-791 | every Iran command runs before any Kharej command, and Kharej is only contacted after all of Iran's succeeded |
| Remote.Channel.TestConnection | tunnel-m.py:627-631 | records one login event; true exactly when the login did not raise |
| Remote.Channel.Execute | tunnel-m.py:1401-1420 | records one command event and returns the shaped result |
| Remote.Channel.RunBatch | tunnel-m.py:1255-1264 | the loop's failure and new history are those of the specification loop |
| Remote.Channel.RunOnBoth | tunnel-m.py:1255-1287 | the two loops' failure and new history are those of the specification |
| Roles.Peer | tunnel-m.py:1162 | the other end differs from this one |
| Roles.SidesDistinct | tunnel-m.py:1151-1152 | the ends have different IPv6 addresses, GRE addresses, identities and device names |
| Health.InterfaceOfPeer | tunnel-m.py:142 | pinging the other end's GRE address checks this end's own GRE device |
| Health.Search | tunnel-m.py:165 | `re.search` finds the leftmost match, and none only when none exists |
| Health.SearchLeftmost | tunnel-m.py:165 | the search returns k exactly when k is the leftmost match |
| Health.DigitRunEnd | tunnel-m.py:165 | `\d+` extends to the end of the digit run |
| Health.DotDigitRunEnd | tunnel-m.py:167 | `[\d.]+` extends to the end of the run |
| Health.LossAt | tunnel-m.py:165 | a match is a non-empty digit run followed by "% packet loss" |
| Health.RttAt | tunnel-m.py:167 | a match is a non-empty run of digits and dots |
| Health.RttReadsAverage | tunnel-m.py:167-168 | wherever "rtt min/avg/max/mdev = " is followed by four runs of digits and dots, joined by "/" and ended by " ms", the pattern matches there and group 1 is the second run, the average |
| Health.Classify | tunnel-m.py:162-171 | a connected result carries "N/A" or a non-empty run of digits and dots; an error result is always the missing-output error |
| Health.ClassifyRtt | tunnel-m.py:165-169 | for non-empty output whose leftmost loss figure is 0: the result is connected with "N/A" exactly when the round-trip pattern matches nowhere, and otherwise connected with group 1 of the leftmost match |
| Health.ClassifyIff | tunnel-m.py:162-171 | error exactly for empty output; connected exactly when the leftmost loss match is 0; disconnected otherwise |
| Health.NoPercentDisconnected | tunnel-m.py:165-171 | non-empty output without "%" reads as disconnected |
| Health.ReadsNoLossReport | tunnel-m.py:165-169 | a "0% packet loss" report with a round-trip line is connected with the average field |
| Health.ReadsTotalLossReport | tunnel-m.py:170-171 | "100% packet loss" is disconnected carrying the output |
| Health.HealthyLoss | tunnel-m.py:165 | the loss field of the healthy report is "0" |
| Health.HealthyRtt | tunnel-m.py:167 | the round-trip match of the healthy report is its average field |
| Health.PingSteps | tunnel-m.py:131-171 | an empty stripped module check is the module error, then an empty stripped interface check is the address error, otherwise the ping output is classified; the commands run in that order |
| Health.PingPasses | tunnel-m.py:131-155 | with both checks passing, the health is the classification of the ping output |
| Health.RaisedResult | tunnel-m.py:1417-1420 | a raised command gives a non-empty error text, even stripped |
| Health.UnreachableReadsDisconnected | tunnel-m.py:131-171 | when every command raises and the error message, address and target hold no '%', the check reports disconnected |
| Health.Ping | tunnel-m.py:123-171 | the method's history and health are those of the specification |
| Render.FileLines | tunnel-m.py:1161-1174 | a rendered file splits at newlines into its lines and an empty tail |
| Render.SitWords | tunnel-m.py:1162 | split by the shell at runs of blanks, the 6to4 line is `ip tunnel add`, its device, `mode sit remote`, the words of the peer's address, `local`, then the words of its own address, whatever the addresses hold |
| Render.FieldsAtBlank | tunnel-m.py:1162 | a blank splits a line into the words before it and the words after it |
| Render.TypedAddressWord | tunnel-m.py:561-562 | an address typed as blanks around a dotted quad strips to that quad, passes `is_valid_ip`, and is one shell word, the quad |
| Render.GreWords | tunnel-m.py:1168 | split by the shell at runs of blanks, the GRE line's words are `ip -6 tunnel add`, its device, `mode ip6gre remote`, the peer's IPv6 address, `local` and its own IPv6 address |
| Render.TunnelsMirror | tunnel-m.py:1161-1206 | for addresses that are one shell word each, each end's 6to4 and GRE remote is the other end's local address, and the 6to4 addresses are the typed words |
| Render.TypedAddressesMirror | tunnel-m.py:1161-1206 | for addresses typed as blanks around dotted quads, each end's 6to4 remote is the other end's quad and its local address its own quad |
| Render.ConnMirror | tunnel-m.py:1175-1222 | one end's left address, id and subnet are the other end's right ones; the other settings are shared |
| Render.TeeArgumentIff | tunnel-m.py:1244 | the argument the shell hands to `echo` is the rendered file exactly when the file has no single quote |
| Render.SecretsIntactIff | tunnel-m.py:1191 | the `echo` argument of the secrets command is the rendered secrets file exactly when the key has no single quote |
| Render.SecretsShared | tunnel-m.py:1191-1223 | both ends write the same secrets file, with the fifth command |
| Render.CleanupRemovesWritten | tunnel-m.py:427-445 | every file a configuration command writes with `tee` is removed by the cleanup of the same end |
| Render.ApplyWrites | tunnel-m.py:1243-1253 | the four writing commands are `tee` commands to their files |
| Render.CleanupRemoves | tunnel-m.py:427-431 | the cleanup removes each written file |
| Render.CleanupDeletesDevices | tunnel-m.py:432-433 | whatever addresses are typed, the device word of each of the boot script's tunnel lines is one that the same end's cleanup deletes |
| Render.CrontabFieldsOf | tunnel-m.py:1348 | a schedule for a spaceless hour has the fields 0, the hour, *, *, * |
| Render.CrontabFields | tunnel-m.py:1321-1348 | an accepted hour gives the five fields with the stripped hour |
| Render.CrontabTakesUnderscore | tunnel-m.py:1348 | "1_2" passes and reaches cron verbatim |
| Render.CrontabTakesPersianDigit | tunnel-m.py:1348 | a Persian digit passes and reaches cron verbatim |
| Store.Visible | tunnel-m.py:242-245 | the admin sees every row, a user exactly their own rows |
| Store.AdminSeesTable | tunnel-m.py:242-243 | the admin's result is the whole table in table order |
| Store.VisibleAppend | tunnel-m.py:242-245 | the visible rows keep the table's order: a newly added row comes last when the caller may see it |
| Store.Labels | tunnel-m.py:258-262 | one button per visible row |
| Store.LabelOpens | tunnel-m.py:326-333 | button i is the label of the i-th newest visible row; when that row's name holds no separator, looking the button up with the caller's owner filter finds a visible row of the same name |
| Store.FindByName | tunnel-m.py:329-333 | a found row matches name and owner filter; none only when no row matches |
| Store.FindByNameFirst | tunnel-m.py:333 | `fetchone()` returns the earliest matching row |
| Store.FoundIsVisible | tunnel-m.py:329-333 | a lookup finds only rows the caller may see |
| Store.WithoutId | tunnel-m.py:473 | the rows left are exactly those with another id |
| Store.WithoutIdCount | tunnel-m.py:473 | with distinct ids, exactly one row goes when the id is present, none otherwise |
| Store.WithoutIdKeepsDistinct | tunnel-m.py:473 | deleting keeps the ids distinct |
| Store.InsertKeepsDistinct | tunnel-m.py:23 | adding a row with a new id keeps the ids distinct |
| Store.LabelRoundTrip | tunnel-m.py:260-326 | a button text leads back to the tunnel's name exactly when the name lacks " (کاربر:" |
| Store.AdminLabelSelectsFirst | tunnel-m.py:326-333 | two same-named tunnels: the second one's admin button selects the first |
| Store.TunnelStore.Insert | tunnel-m.py:1118-1135 | the INSERT appends exactly when the id is new and otherwise leaves the table |
| Store.TunnelStore.DeleteById | tunnel-m.py:471-475 | the new table is the old one without the id |
| Wizard.Missing | tunnel-m.py:617-619 | None exactly when every key is present; otherwise a missing key of the list |
| Wizard.MissingFirst | tunnel-m.py:617-619 | the key reported is the first key of the list that the data lacks |
| Wizard.PlanFailsFast | tunnel-m.py:1255-1287 | a plan fails exactly when some command fails, and its history is ordered |
| Wizard.Fresh | tunnel-m.py:182-183 | a new chat has no state and meets the data invariant |
| Wizard.Revisit | tunnel-m.py:552-560 | going back to an earlier question keeps the invariant |
| Wizard.Answer | tunnel-m.py:569 | storing the current question's answer lets the wizard move on |
| Wizard.NavigateCollected | tunnel-m.py:549-560 | home and back keep the invariant |
| Wizard.StrippedCollected | tunnel-m.py:485-515 | the name and key questions keep the invariant and never raise |
| Wizard.AddressCollected | tunnel-m.py:547-576 | the address questions keep the invariant and never raise |
| Wizard.UsernameCollected | tunnel-m.py:578-599 | the username questions keep the invariant and never raise |
| Wizard.IranPasswordCollected | tunnel-m.py:601-652 | the Iran password question keeps the invariant and never raises |
| Wizard.KharejPasswordCollected | tunnel-m.py:708-804 | the Kharej password question keeps the invariant and never raises |
| Wizard.Mtu6to4TextCollected | tunnel-m.py:968-1011 | the manual 6to4 MTU keeps the invariant |
| Wizard.ProcessConfigCollected | tunnel-m.py:1137-1149 | the configuration's lookups never raise after the GRE MTU |
| Wizard.AfterConfigCollected | tunnel-m.py:1151-1305 | both loop outcomes keep the invariant |
| Wizard.CrontabHourCollected | tunnel-m.py:1307-1399 | the hour question keeps the invariant and never raises a `KeyError` |
| Wizard.CrontabHourEnds | tunnel-m.py:1345-1399 | a valid hour stops at a taken id with the hour stored, or ends in the main menu |
| Wizard.MtuGreButtonCollected | tunnel-m.py:1013-1077 | the GRE MTU buttons keep the invariant |
| Wizard.MtuGreTextCollected | tunnel-m.py:1079-1116 | the manual GRE MTU keeps the invariant |
| Wizard.SelectCollected | tunnel-m.py:309-380 | the status menu ends without a state or in the main menu |
| Wizard.DeleteCollected | tunnel-m.py:382-483 | the delete menu ends without a state or in the main menu |
| Sessions.Session.GoHome | tunnel-m.py:537-545 | `state.finish()` then the main menu, as `Wizard.BackToMain` |
| Sessions.Session.Navigate | tunnel-m.py:549-560 | handles exactly the home and back keys, as `Wizard.Navigate`, and otherwise changes nothing |
| Sessions.Session.Answer | tunnel-m.py:569-576 | stores one value and sets the next state, nothing else |
| Sessions.Session.RunPlan | tunnel-m.py:1255-1287 | the channel's history and failure are those of `Wizard.RunPlan` |
| Sessions.Session.OnIdle | tunnel-m.py:182-215 | new state and reply are those of `Wizard.OnIdle` |
| Sessions.Session.OnMainMenu | tunnel-m.py:217-307 | new state and reply are those of `Wizard.OnMainMenu` |
| Sessions.Session.OnSelectTunnel | tunnel-m.py:309-380 | new state and reply are those of `Wizard.OnSelectTunnel` |
| Sessions.Session.OnDeleteTunnel | tunnel-m.py:382-483 | new state, table and reply are those of `Wizard.OnDeleteTunnel` |
| Sessions.Session.OnTunnelMenu | tunnel-m.py:517-535 | new state and reply are those of `Wizard.OnTunnelMenu` |
| Sessions.Session.OnStripped | tunnel-m.py:485-515 | new state and reply are those of `Wizard.OnStripped` |
| Sessions.Session.OnAddress | tunnel-m.py:547-576 | new state and reply are those of `Wizard.OnAddress` |
| Sessions.Session.OnUsername | tunnel-m.py:578-599 | new state and reply are those of `Wizard.OnUsername` |
| Sessions.Session.OnIranPassword | tunnel-m.py:601-652 | new state and reply are those of `Wizard.OnIranPassword` |
| Sessions.Session.OnKharejPassword | tunnel-m.py:708-804 | new state and reply are those of `Wizard.OnKharejPassword` |
| Sessions.Session.ProcessConfig | tunnel-m.py:1137-1305 | new state and reply are those of `Wizard.ProcessConfig` |
| Sessions.Session.AfterConfig | tunnel-m.py:1243-1305 | new state and reply are those of `Wizard.AfterConfig` on the loops' outcome |
| Sessions.Session.OnMtu6to4Button | tunnel-m.py:900-966 | new state and reply are those of `Wizard.OnMtu6to4Button` |
| Sessions.Session.OnMtuGreButton | tunnel-m.py:1013-1077 | new state and reply are those of `Wizard.OnMtuGreButton` |
| Sessions.Session.OnMtu6to4Text | tunnel-m.py:968-1011 | new state and reply are those of `Wizard.OnMtu6to4Text` |
| Sessions.Session.OnMtuGreText | tunnel-m.py:1079-1116 | new state and reply are those of `Wizard.OnMtuGreText` |
| Sessions.Session.OnCrontabHour | tunnel-m.py:1307-1399 | new state, table and reply are those of `Wizard.OnCrontabHour` |
| Sessions.Session.Handle | tunnel-m.py:182-1399 | the handler for the input's kind in the chat's state leaves the state and reply `Wizard.Step` gives |
| Steps.DeleteKeepsIds | tunnel-m.py:471-475 | deleting keeps the table's ids distinct |
| Steps.CrontabKeepsIds | tunnel-m.py:1345-1346 | saving keeps the table's ids distinct |
| Steps.StrippedAnswers | tunnel-m.py:485-515 | home and back first; rejected exactly for all-whitespace text, changing nothing |
| Steps.AddressAnswers | tunnel-m.py:547-576 | home and back first; rejected exactly when the stripped text is not a dotted quad |
| Steps.UsernameAnswers | tunnel-m.py:578-599 | home and back first; any other text is taken |
| Steps.IranPasswordAnswers | tunnel-m.py:601-652 | home and back first; never rejected; table unchanged |
| Steps.KharejPasswordAnswers | tunnel-m.py:708-804 | home and back first; never rejected; table unchanged |
| Steps.Mtu6to4TextAnswers | tunnel-m.py:968-1011 | rejected exactly when the MTU check fails; back stays on the question |
| Steps.MtuGreTextAnswers | tunnel-m.py:1079-1116 | rejected exactly when the MTU check fails; table unchanged |
| Steps.ProcessConfigKeepsRows | tunnel-m.py:1137-1305 | the configuration keeps the table and always answers |
| Steps.MtuGreButtonKeepsRows | tunnel-m.py:1013-1077 | the buttons keep the table; "back_to_main" goes home, "back_to_mtu_6to4" back |
| Steps.CrontabHourAnswers | tunnel-m.py:1307-1329 | rejected exactly when the stripped hour fails the validator |
| Steps.SelectTunnelLists | tunnel-m.py:309-324 | access first, then the back key; always ends in no state or the main menu |
| Steps.DeleteTunnelLists | tunnel-m.py:382-397 | access first, then the back key; always ends in no state or the main menu |
| Steps.IdleTextSound | tunnel-m.py:182-215 | `/start` keeps every guarantee |
| Steps.MainMenuTextSound | tunnel-m.py:217-307 | the main menu keeps every guarantee |
| Steps.SelectTunnelTextSound | tunnel-m.py:309-380 | the status menu keeps every guarantee |
| Steps.DeleteTunnelTextSound | tunnel-m.py:382-483 | the delete menu keeps every guarantee |
| Steps.TunnelMenuTextSound | tunnel-m.py:517-535 | the tunnel-type menu keeps every guarantee |
| Steps.TunnelNameTextSound | tunnel-m.py:485-515 | the tunnel name keeps every guarantee |
| Steps.IranServerIPTextSound | tunnel-m.py:547-576 | the Iran server address keeps every guarantee |
| Steps.IranUsernameTextSound | tunnel-m.py:578-599 | the Iran username keeps every guarantee |
| Steps.IranPasswordTextSound | tunnel-m.py:601-652 | the Iran password keeps every guarantee |
| Steps.KharejServerIPTextSound | tunnel-m.py:654-683 | the Kharej server address keeps every guarantee |
| Steps.KharejUsernameTextSound | tunnel-m.py:685-706 | the Kharej username keeps every guarantee |
| Steps.KharejPasswordTextSound | tunnel-m.py:708-804 | the Kharej password keeps every guarantee |
| Steps.IranIPTextSound | tunnel-m.py:806-835 | the Iran tunnel address keeps every guarantee |
| Steps.KharejIPTextSound | tunnel-m.py:837-866 | the Kharej tunnel address keeps every guarantee |
| Steps.PSKTextSound | tunnel-m.py:868-898 | the pre-shared key keeps every guarantee |
| Steps.Mtu6to4TextSound | tunnel-m.py:968-1011 | the manual 6to4 MTU keeps every guarantee |
| Steps.Mtu6to4ButtonSound | tunnel-m.py:900-966 | the 6to4 MTU buttons keep every guarantee |
| Steps.MtuGreTextSound | tunnel-m.py:1079-1116 | the manual GRE MTU keeps every guarantee |
| Steps.MtuGreButtonSound | tunnel-m.py:1013-1077 | the GRE MTU buttons keep every guarantee |
| Steps.CrontabHourTextSound | tunnel-m.py:1307-1399 | the hour keeps every guarantee |
| Steps.IgnoredSound | tunnel-m.py:900 | a button where no callback handler is registered changes nothing |
| Steps.StepIsSound | tunnel-m.py:182-1399 | every message in every state keeps the data invariant, distinct ids, home/back, validation and the access check |
| Steps.HomeFromAnyQuestion | tunnel-m.py:537-545 | home in any question drops the data and shows the main menu |
| Steps.BackFromAnyQuestion | tunnel-m.py:487-497 | back in any question sets the previous state and keeps the data (TunnelName to MainMenu, CrontabHour to MTU_GRE, ...) |
| Steps.RejectedIff | tunnel-m.py:561-568 | an answer is rejected exactly when its question does not accept it, and a rejection changes nothing |
| Steps.NoAccessGuards | tunnel-m.py:219-228 | without access, no state is left before `/start`, and a menu message ends the session |
| Steps.Run | tunnel-m.py:1426-1428 | one reply per message |
| Steps.RunKeepsInvariants | tunnel-m.py:182-1399 | no run of messages from a sound chat raises a `KeyError` or breaks the primary key |
| Steps.FreshNeverCrashes | tunnel-m.py:182-1399 | a new chat never crashes, whatever is sent |
| Steps.NoAccessRun | tunnel-m.py:182-192 | a caller without access changes nothing, however many messages |
| Outcomes.IranPasswordOutcome | tunnel-m.py:615-652 | one login test; on to the Kharej server exactly when it did not raise, otherwise the data is dropped |
| Outcomes.KharejPasswordOutcome | tunnel-m.py:722-804 | after a login that did not raise, the prerequisites run in order; on to the tunnel addresses exactly when all succeed |
| Outcomes.ConfigOutcome | tunnel-m.py:1137-1305 | the ends are configured mirrored; on to the hour exactly when every command succeeded, only then with the IPv6 addresses stored |
| Outcomes.CrontabRecord | tunnel-m.py:1118-1135 | the saved record holds every value as collected |
| Outcomes.CrontabOutcome | tunnel-m.py:1321-1399 | a valid hour saves first, unless the id is taken; then the same crontab line on both ends, ordered; installed exactly when both succeed; the main menu either way |
| Outcomes.DeleteOutcome | tunnel-m.py:427-483 | the row goes exactly when every cleanup command on both ends succeeded; the commands run ordered |
| Outcomes.UserDeletesOnlyOwn | tunnel-m.py:402-406 | a user's delete never removes another user's tunnel |
| Outcomes.AddressStoredRaw | tunnel-m.py:561-569 | " 192.168.1.1 " is accepted and stored with its spaces |

## Left out

- The Telegram layer is not modelled: keyboards, `send_message`/`edit_text`, `escape_md` and the prompt texts. Replies are reduced to the branch a handler took, and a failing `send_message` is not modelled.
- paramiko is an oracle: timeouts, host keys and the SSH transport are not modelled, only each call's outcome.
- The status report and the health value inside `ping_ssh` are modelled, but not its `except` branch (lines 172-180). Only a failing `send_message` could reach that branch, because `execute_ssh_command` catches every exception.
- `ORDER BY created_at DESC` is modelled as reverse table order. Rows that share a timestamp are not ordered by it.
- SQLite's connections and cursors are not modelled; the table is a sequence of records.
- `is_valid_ipv6` (lines 112-114) is never called, so it is not modelled.
- `main`, `start_polling`, asyncio and storage shutdown are process plumbing and are not modelled. `Steps.Run` only stands for a sequence of updates to one chat.
- Several chats at once are not modelled: the model is one chat at a time.
- `uuid.uuid4()` and the `config` values are parameters.
- Non-text messages are not modelled: a message is its text, a button press its callback data.
- `Wizard.OnIdle`: only the exact text "/start" starts a chat that has no state. aiogram's command filter also accepts "/START", "/start@botname" and "/start" followed by arguments; that matching is not modelled. In a chat that has a state, "/start" is an ordinary answer to the current question, for example a tunnel name.
- `int()`'s decimal digits, and the digits that the `\d` of the packet-loss pattern and of the round-trip pattern matches (`Health.LossAt`, `Health.DigitRunEnd`, `Health.DotDigitRunEnd`, which share `Validators.IsDecimal`), are limited to ASCII, Arabic-Indic and Persian digits. Other Unicode digit blocks and the 4300-digit conversion limit are not modelled.
- `Text.IsSpace` keeps to the characters `str.isspace()` accepts in the Basic Multilingual Plane. `Validators.IsIntSpace`, the whitespace `int()` skips, is the same set without the information separators U+001C to U+001F.
- Render.TeeArgumentIff: `echo` adds a newline after its argument, so the file `tee` writes is the argument followed by a newline. The model stops at the argument the shell hands to `echo`.
- `Render.TunnelsMirror`: an address whose surrounding whitespace holds a line break, or characters that `strip()` removes but the shell does not split at (a no-break space, a carriage return), is not covered. A line break would end the `ip tunnel add` command early, and the boot script's lines are modelled without line breaks.
- `Health.Classify`: the round trip is stated as a run of digits and dots, not as a number.
