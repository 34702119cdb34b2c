# XmrSignerCompanion core, modelled in Dafny

XmrSignerCompanion is a Qt desktop companion for an offline Monero signer. It drives a
`monero-wallet-rpc` child process, talks JSON-RPC to that wallet and to a `monerod` daemon,
decides whether a daemon address is local, maps dates to restore heights, and runs a wizard.
The wizard shows a dot step indicator, an animated QR display of UR fragments, and a camera
scanner with a progress frame.

This project models that core, one Dafny module per source file:

| module | file | models |
|---|---|---|
| `JsonRpc` | json_rpc.dfy | the shared vocabulary: JSON values, Qt's defaulting accessors (`toInt`, `toObject`, `QString::toInt`), decimal rendering, the JSON-RPC envelope, the reply as an input, `int`/`unsigned` casts, C++ truncating division, the packed version number |
| `DaemonRpc` | daemon_rpc.dfy | `DaemonJsonRpc`: the monerod client, its version string and its sync percentage |
| `WalletRpc` | wallet_rpc.dfy | `WalletJsonRpc`: the wallet-rpc client, the parameters of every call, the version bug |
| `WalletRpcManager` | wallet_rpc_manager.dfy | `WalletRpcManager`: the child process's command line, start/stop, the RPC call, and the error and finished signals |
| `NetworkChecker` | network_checker.dfy | the local-address classification and the monerod probe |
| `RestoreHeight` | restore_height.dfy | `RestoreHeightLookup`: the date/height table, both lookups and the table file parser |
| `DotProgress` | dot_indicator.dfy | `QDotProgressIndicator` |
| `Wizard` | main_window.dfy | `MainWindow`: page navigation, titles, indicator sync |
| `ProgressFrameState` | progress_frame.dfy | `ProgressFrame`: the scan state, its timer and the spinning arc's angle |
| `ScanWidget` | scan_widget.dfy | `QrCodeScanWidget`: frame states, the processing animation, starting and stopping a capture, decoding, frame hand-off |
| `URWidgetState` | ur_widget.dfy | `URWidget`: the fragment list, the display cycle, the "k/n" label |

Widgets whose fields change in place are classes. Their methods state the whole new state
(`modifies this` and `old(...)`). Pure computations are functions, with lemmas about them.

Inputs the program cannot compute are method parameters:
- the HTTP reply (`Reply`: a received document or a network error);
- whether a URL parses;
- the host name lookup's result;
- whether the child process starts or stops in time;
- the UR encoder's parts and the decoder's outcome.

Every request a method would post is returned as a `Post` value: URL, content type and JSON body.
Signals and callbacks are recorded in sequences.

## Model

| member | source | states |
|---|---|---|
| JsonRpc.CastToInt | walletjsonrpc.cpp:111-127 | `static_cast<int>` of an unsigned argument lands in the `int` range, congruent modulo 2^32, unchanged below 2^31 |
| JsonRpc.CastRoundTrip | walletjsonrpc.cpp:111-127 | casting an unsigned index to `int` loses nothing: casting back gives it again, and the result is negative exactly when the index is 2^31 or more |
| JsonRpc.TruncDiv | daemonjsonrpc.cpp:104 | C++ `/` truncates toward zero: Euclidean division for non-negative operands, minus the quotient of the magnitudes for a negative dividend over a positive divisor, non-negative when the signs agree |
| JsonRpc.TruncDivRemainder | daemonjsonrpc.cpp:104 | for every non-zero divisor the remainder `a - q·b` is zero or has the dividend's sign, and is smaller than the divisor in magnitude: the quotient is rounded toward zero |
| JsonRpc.TruncDivExamples | daemonjsonrpc.cpp:104 | -7/2 is -3, 7/-2 is -3, -7/-2 is 3, and 95000/1000 is 95 |
| JsonRpc.Field | daemonjsonrpc.cpp:76-77 | a missing key reads as null |
| JsonRpc.ToInt | daemonjsonrpc.cpp:77 | `toInt()` always yields an `int`-range value (0 for anything that is not an in-range integer) |
| JsonRpc.ToObject | daemonjsonrpc.cpp:76 | `toObject()` of a non-object is the empty object |
| JsonRpc.NatToString | daemonjsonrpc.cpp:81 | decimal rendering is a non-empty digit string without a leading zero |
| JsonRpc.IntToString | walletrpcmanager.cpp:66 | `QString::number` starts with '-' exactly for negatives and has no '.' |
| JsonRpc.ParseNatToString | daemonjsonrpc.cpp:81 | reading a rendered natural number back gives the number |
| JsonRpc.ParseIntToString | walletrpcmanager.cpp:66 | reading a rendered integer back gives the integer |
| JsonRpc.IntToStringInjective | walletrpcmanager.cpp:66 | different integers render differently |
| JsonRpc.Trim | utils/RestoreHeightLookup.h:92 | `trimmed()` leaves no white space at either end |
| JsonRpc.TrimIsSlice | utils/RestoreHeightLookup.h:92 | the trimmed text is a contiguous piece of the input with only white space before and after it |
| JsonRpc.QtToInt | utils/RestoreHeightLookup.h:96 | `QString::toInt()` always yields an `int`-range value (0 on malformed text or overflow) |
| JsonRpc.QtToIntOfNumber | walletrpcmanager.cpp:66 | `toInt` of `QString::number(i)` is `i` for every `int` |
| JsonRpc.Envelope | daemonjsonrpc.cpp:39-43 | the request is an object with exactly four members |
| JsonRpc.EnvelopeRoundTrip | daemonjsonrpc.cpp:39-43 | the envelope reads back as its method and parameters |
| JsonRpc.EnvelopeOnly | daemonjsonrpc.cpp:39-43 | only the envelope built from a method and parameters reads back as them |
| JsonRpc.ReplyObject | daemonjsonrpc.cpp:56-64 | a network error yields the empty object; a received object is returned whole |
| JsonRpc.RpcUrlScheme | daemonjsonrpc.cpp:45 | the URL starts with "https://" exactly when TLS is on and with "http://" exactly when it is off |
| JsonRpc.LowBits | daemonjsonrpc.cpp:78-79 | `x & (2^k - 1)` lies in 0..2^k-1 |
| JsonRpc.VersionMajor | daemonjsonrpc.cpp:78 | `(version >> 16) & 0xFF` lies in 0..255 |
| JsonRpc.VersionMinor | daemonjsonrpc.cpp:79 | `version & 0xFF` lies in 0..255 |
| JsonRpc.VersionUnpacksPacked | daemonjsonrpc.cpp:76-81 | a version packed as major·2^16 + minor decodes to that major and minor |
| JsonRpc.IndexOf | daemonjsonrpc.cpp:81 | the first position of a character, or the length when it is absent |
| JsonRpc.ParseVersionParts | daemonjsonrpc.cpp:81 | any two integers rendered as "%1.%2" read back as that pair |
| JsonRpc.VersionStringRoundTrip | daemonjsonrpc.cpp:76-81 | "major.minor" determines both components: splitting it at the dot gives them back |
| JsonRpc.VersionExamples | daemonjsonrpc.cpp:76-81 | 0x00010002 renders "1.2"; 0 renders "0.0" |
| DaemonRpc.ResultInt | daemonjsonrpc.cpp:87-88 | an integer member of `result` is in the `int` range, and 0 when `result` is not an object |
| DaemonRpc.SyncPercentage | daemonjsonrpc.cpp:98-105 | defined exactly when the remote height is non-zero and `local * 100` does not overflow |
| DaemonRpc.SyncPercentageBounds | daemonjsonrpc.cpp:98-105 | for 0 ≤ local ≤ remote the percentage is within 0..100 and is 100 exactly when local equals remote |
| DaemonRpc.MissingResultDecodesToZero | daemonjsonrpc.cpp:84-96 | a reply without a `result` object gives heights 0 and version "0.0" |
| DaemonRpc.SyncedExample | daemonjsonrpc.cpp:98-105 | heights 950 of 1000 give 95 |
| DaemonRpc.DaemonJsonRpc.constructor | daemonjsonrpc.h:15-20 | host, port and TLS are stored, by default "localhost", 18081 and off; the credentials are empty |
| DaemonRpc.DaemonJsonRpc.SetAuthentication | daemonjsonrpc.cpp:21-25 | both credentials are replaced and nothing else |
| DaemonRpc.DaemonJsonRpc.HandleAuthenticationRequired | daemonjsonrpc.cpp:27-34 | the authenticator receives the stored user and password |
| DaemonRpc.DaemonJsonRpc.MakeRequest | daemonjsonrpc.cpp:37-65 | posts the envelope as JSON to the client's URL; returns the reply object, or the empty object on a network error |
| DaemonRpc.DaemonJsonRpc.GetInfo | daemonjsonrpc.cpp:67-70 | posts `get_info` with no parameters as JSON to the daemon's `/json_rpc` URL and returns the reply object |
| DaemonRpc.DaemonJsonRpc.GetVersion | daemonjsonrpc.cpp:72-82 | posts `get_version` as JSON to the daemon's `/json_rpc` URL; the string reads back as the major and minor of the `version` member |
| DaemonRpc.DaemonJsonRpc.GetHeight | daemonjsonrpc.cpp:84-89 | posts `get_info` as JSON to the daemon's `/json_rpc` URL and returns `result.height`, 0 on a network error |
| DaemonRpc.DaemonJsonRpc.GetLocalHeight | daemonjsonrpc.cpp:91-96 | posts `get_info` as JSON to the daemon's `/json_rpc` URL and returns `result.height_without_bootstrap`, 0 on a network error |
| DaemonRpc.DaemonJsonRpc.GetSynced | daemonjsonrpc.cpp:98-105 | posts `get_info` as JSON to the daemon's `/json_rpc` URL; that one reply gives both heights and the truncated percentage; a network error gives a zero divisor, a division by zero in the source (see Findings), which the model reports as no value |
| WalletRpc.IndicesRoundTrip | walletjsonrpc.cpp:111-142 | an index array decodes to the same unsigned indices, in order |
| WalletRpc.IndexArray | walletjsonrpc.cpp:118-122 | the loop appends each index, cast to `int`, in order |
| WalletRpc.StringArray | walletjsonrpc.cpp:103 | `fromStringList` keeps length, order and every string |
| WalletRpc.WalletResult | walletjsonrpc.cpp:51-59 | a network error yields the empty object |
| WalletRpc.ErrorReplyReadsEmpty | walletjsonrpc.cpp:51-54 | an error reply without `result` yields the empty object, like a network error |
| WalletRpc.WalletVersionMajorIsZero | walletjsonrpc.cpp:250-257 | as written, the major part is always 0 and the string is "0." followed by the minor |
| WalletRpc.WalletVersionMisreads | walletjsonrpc.cpp:254 | version 0x00010002 renders "0.2" as written and "1.2" as intended |
| WalletRpc.AddConnectionParams | walletjsonrpc.cpp:96-102 | address, trusted and ssl_support are set; each SSL path is present exactly when non-empty |
| WalletRpc.AddCredentialParams | walletjsonrpc.cpp:103-106 | fingerprints present exactly when non-empty, ssl_allow_any_cert always, user name and password exactly when non-empty; earlier keys kept |
| WalletRpc.BuildDaemonParams | walletjsonrpc.cpp:91-108 | the `set_daemon` parameters hold exactly the given connection and credential settings and no other key |
| WalletRpc.WalletJsonRpc.constructor | walletjsonrpc.h:15-20 | host, port and TLS stored, by default "localhost", 18082 and off; the posting URL is empty, because it is never assigned |
| WalletRpc.WalletJsonRpc.SetAuthentication | walletjsonrpc.cpp:21-25 | both credentials are replaced |
| WalletRpc.WalletJsonRpc.HandleAuthenticationRequired | walletjsonrpc.cpp:27-32 | the authenticator receives the stored credentials |
| WalletRpc.WalletJsonRpc.MakeRequest | walletjsonrpc.cpp:34-60 | posts the envelope to the stored URL; returns the reply's `result` object, empty on a network error |
| WalletRpc.WalletJsonRpc.SetDaemon | walletjsonrpc.cpp:91-109 | posts `set_daemon` as JSON to the stored URL with exactly the daemon parameters; every parameter after the address defaults as walletjsonrpc.h:22-25 declares: not trusted, "autodetect", empty SSL paths, no fingerprints, any-certificate off, empty credentials |
| WalletRpc.WalletJsonRpc.GetBalance | walletjsonrpc.cpp:111-127 | posts `get_balance` as JSON to the stored URL with the account index, the indices only when non-empty, and both flags; by default no indices and both flags off |
| WalletRpc.WalletJsonRpc.GetAddress | walletjsonrpc.cpp:129-142 | posts `get_address` as JSON to the stored URL with the account index and the indices, under `address_index`, only when non-empty; by default no indices |
| WalletRpc.WalletJsonRpc.ValidateAddress | walletjsonrpc.cpp:144-152 | posts `validate_address` as JSON to the stored URL with the address and both flags, off by default |
| WalletRpc.WalletJsonRpc.GetHeight | walletjsonrpc.cpp:154-157 | posts `get_height` as JSON to the stored URL with no parameters |
| WalletRpc.WalletJsonRpc.Transfer | walletjsonrpc.cpp:159-183 | posts `transfer` as JSON to the stored URL with destinations, account, the subaddresses only when non-empty, priority, ring size, unlock time, and the flags; by default account 0, no subaddresses, priority 0, ring size 7, unlock time 0 and every flag off |
| WalletRpc.WalletJsonRpc.SubmitTransfer | walletjsonrpc.cpp:185-191 | posts `submit_transfer` as JSON to the stored URL with exactly `tx_data_hex` |
| WalletRpc.WalletJsonRpc.StopWallet | walletjsonrpc.cpp:193-196 | posts `stop_wallet` as JSON to the stored URL with no parameters |
| WalletRpc.WalletJsonRpc.ExportOutputs | walletjsonrpc.cpp:198-204 | posts `export_outputs` as JSON to the stored URL with exactly `all`, on by default |
| WalletRpc.WalletJsonRpc.ImportKeyImages | walletjsonrpc.cpp:206-213 | posts `import_key_images` as JSON to the stored URL with the offset and the signed key images |
| WalletRpc.WalletJsonRpc.Refresh | walletjsonrpc.cpp:215-221 | posts `refresh` as JSON to the stored URL with exactly the start height, 0 by default |
| WalletRpc.WalletJsonRpc.RescanSpent | walletjsonrpc.cpp:223-226 | posts `rescan_spent` as JSON to the stored URL with no parameters |
| WalletRpc.WalletJsonRpc.GenerateViewOnlyWallet | walletjsonrpc.cpp:228-243 | posts `generate_from_keys` as JSON to the stored URL with exactly the restore height, file name, address, spend key, view key, password and auto-save flag |
| WalletRpc.WalletJsonRpc.CloseWallet | walletjsonrpc.cpp:245-248 | posts `close_wallet` as JSON to the stored URL with no parameters |
| WalletRpc.WalletJsonRpc.GetVersion | walletjsonrpc.cpp:250-257 | posts `get_version` as JSON to the stored URL; as written, the string is exactly "0." followed by the minor of the `version` member, and reads back as major 0 and that minor (see Findings) |
| WalletRpc.WalletJsonRpc.EstimateTxSizeAndWeight | walletjsonrpc.cpp:259-269 | posts `estimate_tx_size_and_weight` as JSON to the stored URL with the input, output and ring counts and `rct` |
| WalletRpcManager.LowerChar | walletrpcmanager.cpp:40 | upper-case ASCII letters move to lower case; other characters stay |
| WalletRpcManager.ToLower | walletrpcmanager.cpp:40 | the same length, and lower-casing character by character |
| WalletRpcManager.ToLowerIdempotent | walletrpcmanager.cpp:40 | lower-casing a stored name changes nothing |
| WalletRpcManager.NetworkNamesNormalise | walletrpcmanager.cpp:40-73 | "TestNet", "TESTNET", "Stagenet", "MainNet" normalise to the names the launcher compares with |
| WalletRpcManager.WalletRpcArguments | walletrpcmanager.cpp:65-73 | six fixed-order arguments (port, login, wallet dir), then `--testnet` or `--stagenet` exactly for those networks |
| WalletRpcManager.PortArgumentRoundTrip | walletrpcmanager.cpp:66 | the port argument reads back as the configured port |
| WalletRpcManager.ProcessErrorMessage | walletrpcmanager.cpp:132-147 | the failed-to-start and crashed messages, and the generic one for every other error |
| WalletRpcManager.FinishedSignals | walletrpcmanager.cpp:149-159 | always ends with `walletRPCStopped`, preceded by one error exactly on a crash or a non-zero exit code |
| WalletRpcManager.ProcessErrorMessagesDistinct | walletrpcmanager.cpp:132-147 | the message tells failed-to-start, crash and other apart |
| WalletRpcManager.ExitCodeMessageInjective | walletrpcmanager.cpp:154-156 | different exit codes give different messages |
| WalletRpcManager.DiedSignals | walletrpcmanager.cpp:132-159 | when the process dies, a crash exit reaches both handlers (the crash message twice), a non-zero exit code gives one error, a clean exit none; always ending in `walletRPCStopped` |
| WalletRpcManager.StartSignals | walletrpcmanager.cpp:75-85 | a start emits `walletRPCStarted` alone exactly when the process started; otherwise it ends with "Failed to start wallet-rpc process", preceded by the error handler's failed-to-start message when the process failed to start |
| WalletRpcManager.StopInTimeEmitsStoppedTwice | walletrpcmanager.cpp:88-97 | a stop whose process finishes within the wait emits `walletRPCStopped` twice, first from the finished handler and then from `stopWalletRPC`, with only errors before them |
| WalletRpcManager.CrashReportedAlike | walletrpcmanager.cpp:139-153 | the error handler and the finished handler report a crash with the same text |
| WalletRpcManager.Manager.constructor | walletrpcmanager.cpp:32-45 | the network name is stored lower-cased; not running; no signals; by default an empty program path, "mainnet" and port 18082, as walletrpcmanager.h:17-20 declares |
| WalletRpcManager.Manager.Arguments | walletrpcmanager.cpp:65-73 | the appended list equals the argument specification |
| WalletRpcManager.Manager.StartWalletRpc | walletrpcmanager.cpp:59-86 | already running: true with no effect; otherwise the process is started with those arguments, the signals are StartSignals of the start outcome, and the result is true exactly when the process started |
| WalletRpcManager.Manager.StopWalletRpc | walletrpcmanager.cpp:88-97 | not running: no effect; otherwise terminate and a 5 s wait; a process that finishes in time is stopped and its handlers' DiedSignals come before `stopWalletRPC`'s own `walletRPCStopped`; one that does not is killed and still counts as running |
| WalletRpcManager.Manager.ProcessDied | walletrpcmanager.cpp:132-159 | the process's death emits DiedSignals and leaves the manager not running |
| WalletRpcManager.Manager.MakeRpcCall | walletrpcmanager.cpp:104-130 | posts the envelope to `http://localhost:<port>/json_rpc`; a network error emits one error and yields the empty object |
| WalletRpcManager.Manager.HandleProcessError | walletrpcmanager.cpp:132-147 | emits exactly one error with the error's message |
| WalletRpcManager.Manager.HandleProcessFinished | walletrpcmanager.cpp:149-159 | emits the finished signals |
| NetworkChecker.FromOctets | networkchecker.cpp:40 | the address's first and second octets are the given ones |
| NetworkChecker.PrivateIPv4ByOctets | networkchecker.cpp:39-44 | local exactly for 10/8, 172.16/12, 192.168/16 and 169.254/16; loopback exactly for 127/8 |
| NetworkChecker.LocalIPv4Examples | networkchecker.cpp:33-53 | 127.0.0.1, 192.168.1.20, 172.31.255.255 and 169.254.0.7 are local; 172.32.0.1 and 8.8.8.8 are not |
| NetworkChecker.LocalIPv6ByPrefix | networkchecker.cpp:46-49 | an IPv6 address is local exactly in fe80::/10 or fc00::/7 |
| NetworkChecker.LoopbackIsLocal | networkchecker.cpp:35-37 | every loopback address is local |
| NetworkChecker.IsDomainOrIpLocal | networkchecker.cpp:9-31 | a literal address decides alone; a failed lookup is not local; otherwise local exactly when some resolved address is |
| NetworkChecker.OnRpcReplyFinished | networkchecker.cpp:83-100 | valid exactly when `result` is an object holding `status` and `version`; never on a network error |
| NetworkChecker.ProbeRejects | networkchecker.cpp:93-95 | an error body, a result missing `version`, or a non-object result is rejected |
| NetworkChecker.ProbeAccepts | networkchecker.cpp:93-95 | any body whose result holds `status` and `version` is accepted, whatever their values |
| NetworkChecker.ProbeIsNotEnvelope | networkchecker.cpp:67-70 | the probe body has no `params` member, so it is not a client envelope |
| NetworkChecker.CheckMonerodRpc | networkchecker.cpp:55-81 | an invalid URL calls back false without posting; otherwise posts the probe to the address and calls back once with the reply's verdict |
| RestoreHeight.UniqueKeys | utils/RestoreHeightLookup.h:17 | in a key-sorted table a key has one value |
| RestoreHeight.FirstAbove | utils/RestoreHeightLookup.h:66-72 | the first entry whose height exceeds the given one, every entry before it at or below it |
| RestoreHeight.DaysToReach | utils/RestoreHeightLookup.h:74-77 | the least number of 720-block days that reaches the height |
| RestoreHeight.Split | utils/RestoreHeightLookup.h:91-95 | at least one part, none containing the separator |
| RestoreHeight.SplitJoin | utils/RestoreHeightLookup.h:91-95 | joining the parts with the separator gives the text back, empty parts included |
| RestoreHeight.SplitAtSeparator | utils/RestoreHeightLookup.h:95-96 | a line holding ':' splits into at least two parts |
| RestoreHeight.RecordOf | utils/RestoreHeightLookup.h:92-96 | a line yields no record exactly when it is blank after trimming |
| RestoreHeight.LastValue | utils/RestoreHeightLookup.h:96 | a value found is one of the key's records; no value means no record has that key |
| RestoreHeight.LastValueIsLast | utils/RestoreHeightLookup.h:96 | the value found comes from a record of the key with no later record of that key: later lines win |
| RestoreHeight.LineRecords | utils/RestoreHeightLookup.h:91-97 | a blank line adds nothing; any other line adds the `toInt` of its first two ':'-separated fields |
| RestoreHeight.InsertKeepsLastValues | utils/RestoreHeightLookup.h:96 | after `data[k] = v` the table still maps each key to its last assigned value |
| RestoreHeight.RestoreHeightLookup.constructor | utils/RestoreHeightLookup.h:18 | the network type is stored; the table is empty |
| RestoreHeight.RestoreHeightLookup.Insert | utils/RestoreHeightLookup.h:96 | the entry is set, other keys are kept, and the table stays key-sorted |
| RestoreHeight.RestoreHeightLookup.DateToHeight | utils/RestoreHeightLookup.h:20-59 | testnet gives 1; a date at or before the first key gives 1; else the height of the last key at or before the date minus 5 days of blocks, or past the end, extrapolated at one block per 120 s, truncating |
| RestoreHeight.RestoreHeightLookup.HeightToTimestamp | utils/RestoreHeightLookup.h:61-80 | stops at the first entry above the height and gives the previous timestamp (0 when there is none); past the end, whole days are added until the height is reached |
| RestoreHeight.RestoreHeightLookup.FromFile | utils/RestoreHeightLookup.h:86-99 | the table maps each timestamp to the height its last line gives, blank lines skipped |
| DotProgress.StepAfterSet | qdotprogressindicator.cpp:16-22 | the step changes exactly when the new one differs and is in range, and then to that step |
| DotProgress.StepAfterNext | qdotprogressindicator.cpp:24-29 | one step forward exactly when not on the last step, otherwise unchanged |
| DotProgress.StepAfterPrevious | qdotprogressindicator.cpp:31-36 | one step back exactly when not on the first step, otherwise unchanged |
| DotProgress.MovesStayInRange | qdotprogressindicator.cpp:16-36 | set, next and previous keep an in-range step in range |
| DotProgress.NextThenPrevious | qdotprogressindicator.cpp:24-36 | forward then back returns, except from the last step; back then forward returns, except from the first |
| DotProgress.TotalNotClamped | qdotprogressindicator.cpp:10-14 | shrinking the total below the step leaves it out of range, and next cannot repair it |
| DotProgress.DotProgressIndicator.constructor | qdotprogressindicator.cpp:4-8 | ten steps, current step 0 |
| DotProgress.DotProgressIndicator.SetTotalSteps | qdotprogressindicator.cpp:10-14 | the total is replaced; the current step is kept |
| DotProgress.DotProgressIndicator.SetCurrentStep | qdotprogressindicator.cpp:16-22 | follows StepAfterSet and keeps the indicator valid |
| DotProgress.DotProgressIndicator.Next | qdotprogressindicator.cpp:24-29 | follows StepAfterNext and keeps the indicator valid |
| DotProgress.DotProgressIndicator.Previous | qdotprogressindicator.cpp:31-36 | follows StepAfterPrevious and keeps the indicator valid |
| Wizard.NextIndex | mainwindow.cpp:56-58 | the next page, wrapping from the last to the first |
| Wizard.PrevIndex | mainwindow.cpp:66-68 | the previous page, wrapping from the first to the last |
| Wizard.NextPrevInverse | mainwindow.cpp:53-71 | next and previous undo each other on every page |
| Wizard.Title | mainwindow.cpp:80-113 | pages 0 to 8 have a non-empty title; every other index has the empty one |
| Wizard.TitlesDistinct | mainwindow.cpp:82-109 | the nine titles are pairwise different |
| Wizard.CheckLogic | mainwindow.cpp:115-118 | the navigation check always passes |
| Wizard.MainWindow.constructor | mainwindow.cpp:6-18 | page 0, its title, previous disabled, indicator on step 0 |
| Wizard.MainWindow.SyncDotIndicator | mainwindow.cpp:80-113 | the indicator is moved as `setCurrentStep` does and the title is set |
| Wizard.MainWindow.SetCurrentIndex | mainwindow.cpp:73 | changing the page re-syncs the indicator and title |
| Wizard.MainWindow.Next | mainwindow.cpp:53-61 | goes to the next page (wrapping); indicator and title follow |
| Wizard.MainWindow.Prev | mainwindow.cpp:63-71 | goes to the previous page (wrapping); indicator and title follow |
| ProgressFrameState.NextAngle | qrcode/scanner/progressframe.cpp:67-74 | 10 degrees more, back to 0 at a full turn, staying a multiple of 10 within a turn |
| ProgressFrameState.TicksWithinTurn | qrcode/scanner/progressframe.cpp:67-74 | k ticks from 0 reach 10k degrees within the first turn |
| ProgressFrameState.FullTurnReturns | qrcode/scanner/progressframe.cpp:67-74 | 36 ticks from 0 come back to 0 |
| ProgressFrameState.TicksPeriodic | qrcode/scanner/progressframe.cpp:67-74 | the animation repeats every 36 ticks |
| ProgressFrameState.ProgressFrame.constructor | qrcode/scanner/progressframe.cpp:3-10 | idle, angle 0, timer stopped |
| ProgressFrameState.ProgressFrame.SetState | qrcode/scanner/progressframe.cpp:12-32 | the arc restarts; the timer runs exactly while processing |
| ProgressFrameState.ProgressFrame.UpdateProgress | qrcode/scanner/progressframe.cpp:67-74 | one tick of NextAngle; state and timer unchanged |
| ScanWidget.NextAnimationProgress | qrcode/scanner/QrCodeScanWidget.cpp:134-141 | one percent more, back to 0 after 99 |
| ScanWidget.CurrentLength | qrcode/scanner/QrCodeScanWidget.cpp:76-77 | the length to draw is 0 exactly when the perimeter is, lies between 0 and the perimeter (of either sign), and is the whole perimeter at progress 0 |
| ScanWidget.StartSide | qrcode/scanner/QrCodeScanWidget.cpp:83 | the quarter of the animation the progress falls in |
| ScanWidget.FourSidesArePerimeter | qrcode/scanner/QrCodeScanWidget.cpp:96-109 | the four sides visited from any start side, in either order, add up to the perimeter |
| ScanWidget.WalkShape | qrcode/scanner/QrCodeScanWidget.cpp:96-131 | from any iteration on, the loop draws connected lines, at most one per remaining side, the first from the current point; the sides before the last line are shorter in total than the remaining length, and those up to it are not |
| ScanWidget.WalkLinks | qrcode/scanner/QrCodeScanWidget.cpp:96-131 | from any iteration on, at most one line per remaining side and at least one while a side remains, connected, the first from the current point |
| ScanWidget.WalkCount | qrcode/scanner/QrCodeScanWidget.cpp:96-131 | the number of lines drawn depends only on the side lengths and the remaining length |
| ScanWidget.CountBounds | qrcode/scanner/QrCodeScanWidget.cpp:96-131 | at most one line per remaining side, and at least one while a side remains |
| ScanWidget.CountBelow | qrcode/scanner/QrCodeScanWidget.cpp:111-120 | the sides drawn whole before the last line are shorter in total than the remaining length |
| ScanWidget.CountReaches | qrcode/scanner/QrCodeScanWidget.cpp:111-130 | when the length fits in the remaining sides, the sides up to and including the last line reach it |
| ScanWidget.DrawnLinesShape | qrcode/scanner/QrCodeScanWidget.cpp:79-131 | for a rectangle without negative sides and a length up to the perimeter: nothing is drawn exactly when the length is 0, otherwise at most four connected lines from the start corner, the last on the side where the length runs out |
| ScanWidget.ReversedWalkFollowsSides | qrcode/scanner/QrCodeScanWidget.cpp:96-131 | with the sides taken in decreasing order, every line from a side's start corner on starts at its own side's start corner and runs along that side |
| ScanWidget.ReversedAnimationFollowsSides | qrcode/scanner/QrCodeScanWidget.cpp:96-131 | with the sides taken in decreasing order, every line of the animation, for any length and start side, starts at its side's start corner and runs along that side |
| ScanWidget.AnimationLeavesSides | qrcode/scanner/QrCodeScanWidget.cpp:96-131 | as written, at progress 0 on any rectangle wider and taller than one pixel the lines are the top edge right to left, a single point at the top left corner, the top edge again left to right, and the right edge; the second and third are not on the sides they are drawn for |
| ScanWidget.DrawProcessingAnimation | qrcode/scanner/QrCodeScanWidget.cpp:74-93 | nothing when the length to draw is 0; otherwise the loop's lines from the start side's start corner, sides in increasing order as written |
| ScanWidget.DrawSides | qrcode/scanner/QrCodeScanWidget.cpp:93-131 | the loop's lines are exactly the walk from the start corner |
| ScanWidget.DrawSide | qrcode/scanner/QrCodeScanWidget.cpp:97-130 | one iteration draws a line from the current point: a whole side, after which the walk goes on with the rest of the length, or the final partial line |
| ScanWidget.EstimateAfterProcessing | qrcode/scanner/QrCodeScanWidget.cpp:173-180 | entering processing replaces the estimate; already processing adds to it |
| ScanWidget.CaptureOutcome | qrcode/scanner/QrCodeScanWidget.cpp:238-275 | after `startCapture` the thread runs exactly when it already ran or the capture got past its checks (permission granted and a non-empty camera combo box); a new running camera replaces the old one exactly when, besides, a video input is still attached, and otherwise the camera is unchanged; the banner is hidden exactly when a camera was selected, or when a pending request or a camera detached since the last refresh left an already hidden banner alone; the frame is Idle and the mode and the UR bar's visibility follow the argument |
| ScanWidget.StopFindsNoCamera | qrcode/scanner/QrCodeScanWidget.cpp:238-275 | a widget without a camera still has none after a capture whose permission was denied or is pending, that found an empty combo box, or that found every listed camera detached since the last refresh, and only then; in the last case the scan thread runs all the same; `stop` as written then meets a null camera (see Findings) |
| ScanWidget.DoneIsFinal | qrcode/scanner/QrCodeScanWidget.cpp:389-392 | once a result was delivered, any run of further scans changes nothing |
| ScanWidget.FinishedAtMostOnce | qrcode/scanner/QrCodeScanWidget.cpp:389-418 | over any run of scans `finished` is emitted at most once: either nothing is emitted and no result delivered, or exactly one value is appended and the scan is done |
| ScanWidget.QrCodeScanWidget.constructor | qrcode/scanner/QrCodeScanWidget.cpp:13-72 | idle, timer stopped, no estimate, plain mode, banner hidden, nothing decoded, frames handled, thread stopped, no `finished` yet, no camera |
| ScanWidget.QrCodeScanWidget.UpdateFrameState | qrcode/scanner/QrCodeScanWidget.cpp:192-202 | the state is stored; the animation timer runs exactly for Processing, which restarts the animation at 0; nothing else changes |
| ScanWidget.QrCodeScanWidget.AnimateProcessing | qrcode/scanner/QrCodeScanWidget.cpp:134-141 | one NextAnimationProgress tick and nothing else; the invariant (animation below 100, timer running exactly while processing) is kept |
| ScanWidget.QrCodeScanWidget.OnFrameStateProcessing | qrcode/scanner/QrCodeScanWidget.cpp:163-167 | Processing with the animation restarted and the estimate raised to at least 5000 µs; nothing else changes |
| ScanWidget.QrCodeScanWidget.OnProcessingTimeEstimate | qrcode/scanner/QrCodeScanWidget.cpp:169-171 | only the estimate changes |
| ScanWidget.QrCodeScanWidget.OnFrameStateProcessingFor | qrcode/scanner/QrCodeScanWidget.cpp:173-180 | Processing, with the estimate per EstimateAfterProcessing; the animation restarts only on entering processing; nothing else changes |
| ScanWidget.QrCodeScanWidget.OnProgressUpdate | qrcode/scanner/QrCodeScanWidget.cpp:159-161 | only the percentage changes |
| ScanWidget.QrCodeScanWidget.OnFrameStateProgressPercent | qrcode/scanner/QrCodeScanWidget.cpp:182-186 | the Progress state with the timer stopped and the percentage stored; nothing else changes |
| ScanWidget.QrCodeScanWidget.StartCapture | qrcode/scanner/QrCodeScanWidget.cpp:238-275 | the new state is the one CaptureOutcome describes, every other field unchanged, and the invariant is kept |
| ScanWidget.QrCodeScanWidget.StartCamera | qrcode/scanner/QrCodeScanWidget.cpp:263-274 | with an empty combo box the banner says so; otherwise `onCameraSwitched(0)` runs against the video inputs attached now (the combo box's count and the live count are separate inputs), and the scan thread runs; nothing else changes |
| ScanWidget.QrCodeScanWidget.ShowError | qrcode/scanner/QrCodeScanWidget.cpp:254-255 | the banner shows the given text; nothing else changes |
| ScanWidget.QrCodeScanWidget.OnCameraSwitched | qrcode/scanner/QrCodeScanWidget.cpp:334-379 | an index outside the list of video inputs attached now changes nothing; otherwise the old camera, if any, is replaced by a new one that starts, and the banner is hidden; nothing else in the model changes |
| ScanWidget.QrCodeScanWidget.OnDecoded | qrcode/scanner/QrCodeScanWidget.cpp:389-418 | after a result or on a rejected UR part nothing changes; plain text is stored and finishes with `finished(true)`; an accepted UR part shows Recognized and the decoder's percentage on the UR bar, and finishes with the decoder's success once it completes; nothing else changes |
| ScanWidget.QrCodeScanWidget.AcceptPart | qrcode/scanner/QrCodeScanWidget.cpp:394-411 | the decoder's new state, Recognized with the timer stopped, the UR bar at the decoder's percentage when it lies in 0..100, and on completion the latch, the thread stopped and `finished(success)`; nothing else changes |
| ScanWidget.QrCodeScanWidget.Finish | qrcode/scanner/QrCodeScanWidget.cpp:407-411 | the latch is set, the thread stopped and one `finished(success)` appended; nothing else changes |
| ScanWidget.QrCodeScanWidget.Reset | qrcode/scanner/QrCodeScanWidget.cpp:277-284 | empty result, latch cleared, UR bar at 0, a fresh decoder, thread running, frames handled; nothing else changes |
| ScanWidget.QrCodeScanWidget.RestartScan | qrcode/scanner/QrCodeScanWidget.cpp:281-283 | a fresh decoder, the thread running and frames handled; nothing else changes |
| ScanWidget.QrCodeScanWidget.Stop | qrcode/scanner/QrCodeScanWidget.cpp:286-289 | as written: needs a camera, because `m_camera->stop()` has no null check (see Findings); the camera and the scan thread stop; nothing else changes |
| ScanWidget.QrCodeScanWidget.StopChecked | qrcode/scanner/QrCodeScanWidget.cpp:286-289 | with the null check the source makes elsewhere: callable in every state; the scan thread stops, a camera, if any, stops, and none is created; nothing else changes |
| ScanWidget.QrCodeScanWidget.Pause | qrcode/scanner/QrCodeScanWidget.cpp:291-293 | only the frame hand-off stops |
| ScanWidget.QrCodeScanWidget.HandleFrameCaptured | qrcode/scanner/QrCodeScanWidget.cpp:303-316 | a non-null frame is queued exactly while frames are handled and the thread runs; nothing else changes |
| ScanWidget.QrCodeScanWidget.GetURType | qrcode/scanner/QrCodeScanWidget.cpp:433-439 | empty unless the decoder succeeded, then the decoded type |
| ScanWidget.QrCodeScanWidget.GetURData | qrcode/scanner/QrCodeScanWidget.cpp:420-431 | empty unless the decoder succeeded, then the payload |
| URWidgetState.Advance | qrcode/scanner/URWidget.cpp:54-65 | the cursor after a tick is below the fragment count: one more, or 0 after the last |
| URWidgetState.OrbitAdd | qrcode/scanner/URWidget.cpp:50-66 | ticks compose |
| URWidgetState.OrbitInOrder | qrcode/scanner/URWidget.cpp:50-66 | before wrapping, successive ticks show successive fragments |
| URWidgetState.FullCycle | qrcode/scanner/URWidget.cpp:50-66 | after n ticks the same fragment is shown again |
| URWidgetState.EveryPartShown | qrcode/scanner/URWidget.cpp:50-66 | every fragment is shown within n ticks from any start |
| URWidgetState.LabelRoundTrip | qrcode/scanner/URWidget.cpp:60 | the "k/n" label reads back as the one-based position and the count |
| URWidgetState.URWidget.constructor | qrcode/scanner/URWidget.cpp:9-17 | the settings are stored; no encoder, no parts, timer stopped |
| URWidgetState.URWidget.SetData | qrcode/scanner/URWidget.cpp:19-48 | empty data stops the timer with no parts; otherwise the list holds the encoder's first `seq_len` parts in order and the timer runs at the set speed |
| URWidgetState.URWidget.NextQR | qrcode/scanner/URWidget.cpp:50-66 | shows the fragment under the reduced cursor (or the encoder's next part with fountain coding) with its label, and advances the cursor |
| URWidgetState.URWidget.SetOptions | qrcode/scanner/URWidget.cpp:68-72 | the same type and data are set again: with data, the new encoder is installed and its first `seq_len` parts listed in order, with the timer at the set speed; empty data stops the timer and keeps the encoder; the cursor, the shown fragment, its label and the settings stay |
| URWidgetState.URWidget.OnSettingsChanged | qrcode/scanner/URWidget.cpp:74-78 | the three settings are stored; nothing else changes |

## Left out

- HTTP transport, the blocking `QEventLoop`, and `QNetworkAccessManager` ownership: the reply is an input and the request an output.
- The `QJsonDocument` text encoding: bodies are JSON values.
- Floating-point JSON numbers are not modelled. `toInt` on a double that holds an integer is modelled as 0.
- The TTL cache for `get_info`: the source has only a TODO comment for it (daemonjsonrpc.cpp:67).
- `QHostAddress` text parsing and DNS resolution (networkchecker.cpp:12, 18): the parsed literal and the lookup result are inputs. IPv4-mapped IPv6 loopback addresses are not distinguished.
- `QUrl` validity (networkchecker.cpp:57): an input.
- The asynchronous callback is recorded synchronously, and the manager's `deleteLater` is left out.
- `QProcess` itself: whether the process starts (`StartOutcome`), and whether it finishes within the 5 s wait and with which exit code and status (`StopOutcome`), are inputs. The handlers' signals that Qt delivers during those waits are modelled.
- WalletRpcManager.Manager.constructor: walletrpcmanager.h:18 declares a `walletDirPath` parameter that the definition in walletrpcmanager.cpp:32-36 does not take; the model follows the definition, and the wallet directory is the fixed `/tmp` of the arguments.
- WalletRpc.WalletJsonRpc.ExportOutputs: walletjsonrpc.h:44 declares a `QString` result, but the definition at walletjsonrpc.cpp:198 returns the `QJsonObject`; the model follows the definition.
- `getExecutableDir` and `findShippedWalletRpc` are file-system lookups and are not part of this model.
- The manager's destructor (walletrpcmanager.cpp:47-50) only calls `stopWalletRPC`, which `StopWalletRpc` models; object destruction itself is not modelled.
- `QString::toLower`, `trimmed` and `toInt` are modelled on ASCII only. Unicode case mapping and white space are left out.
- `RestoreHeightLookup.FromFile` reads text, not a file. `heightToDate` is a pure conversion to `QDateTime` and is left out.
- RestoreHeight.RestoreHeightLookup.DateToHeight: requires a non-empty table off testnet. The source reads `values.at(0)` without a check, which is undefined behaviour. The `i == 0` branch inside the loop is dead, because the first key is below the date there.
- RestoreHeight.RestoreHeightLookup.HeightToTimestamp: `time_t` and `int` overflow of the day-stepping loop is not modelled.
- 32-bit wrap-around is modelled where the source casts: `static_cast<int>` and `toInt`. Heights, the fragment cursor, the processing estimate and the animation's `(width + height) * 2` are unbounded integers.
- DaemonRpc.SyncPercentage: where `local * 100` overflows `int` or `remote` is 0 (see Findings), both undefined behaviour in C++, the model reports no value instead of a wrapped percentage or a crash.
- ScanWidget.DrawnLinesShape: stated for rectangles without negative sides and lengths up to the perimeter. The drawing itself (`DrawProcessingAnimation`) is modelled for every rectangle; the source returns early only when the length to draw is 0.
- Painting: `paintEvent`, pens, colours and the frame geometry are left out; `drawProcessingAnimation` is reduced to the sequence of lines it draws.
- The camera device is not part of this model: `QCamera`, `QMediaDevices`, the capture session, `refreshCameraList`, the exposure controls, the camera's lost-connection and error banners, and `videoFrameToImage`. `startCapture`, `onCameraSwitched` and `stop` are modelled by their effect on the banner, on whether a camera exists and runs, and on the scan thread. The permission answer, the number of entries in the camera combo box (filled at the last `refreshCameraList`) and the number of video inputs attached when `onCameraSwitched` runs are inputs, and they may differ. The callback of a pending permission request, which calls `startCapture` again, is not modelled.
- ScanWidget.QrCodeScanWidget.constructor: the UR bar's initial value and its format text come from the form file, which is not part of this model, so the constructor leaves the bar's value unconstrained.
- RestoreHeight.RecordOf: requires every non-blank line to hold a ':'. On a line without one the source reads `spl.at(1)` out of range (utils/RestoreHeightLookup.h:96), which is undefined behaviour, so the model excludes such lines.
- RestoreHeight.RestoreHeightLookup.FromFile: requires every line of the text to be well formed, for the same reason as `RecordOf`.
- `QrScanThread`, the ZXing decoder and the UR/CBOR/QR libraries are not part of this model. Decoder outcomes and encoder parts are inputs.
- `getURError` is left out: it forwards the decoder library's error text.
- URWidgetState.URWidget: the header declares no initial values for the fragment length, speed and fountain flag, so the constructor takes them as parameters.
- The `URSettingsDialog` is not part of this model, and its `settingsChanged` signal is not connected to `onSettingsChanged` in the code shown.
- `URWidget` fragment-length bounds and the QR image rendering are left out.
- WalletRpc.WalletJsonRpc.MakeRequest: `m_url` is never assigned in walletjsonrpc.cpp, so every wallet request goes to the empty URL. Qt answers a request without a URL scheme with a network error; the model leaves the wallet reply as an unconstrained input instead. The commented-out variant that built the URL from host and port is not modelled.
- Wizard.MainWindow: the previous button is disabled at construction and never re-enabled in mainwindow.cpp, and the model keeps it so. The page widgets' own logic is outside this model.

## Findings

| source | as written | input that shows it | evidently intended | confidence | as-written member | corrected member |
|---|---|---|---|---|---|---|
| walletjsonrpc.cpp:254 | `version & 0xFF00 >> 16`: `>>` binds tighter than `&`, so this is `version & 0` and the major part is always 0 | `version` = 0x00010002 renders "0.2" | `(version >> 16) & 0xFF`, as daemonjsonrpc.cpp:78 does, rendering "1.2" | high; not executed | WalletRpc.WalletVersionMisreads, WalletRpc.WalletJsonRpc.GetVersion | JsonRpc.VersionStringRoundTrip |
| qrcode/scanner/QrCodeScanWidget.cpp:96-131 | the loop takes the sides in increasing order (top, right, bottom, left), while each whole-side line moves counterclockwise and ends at the start of the side before it | progress 0 on a 100×50 rectangle: the second line is the point (0, 0) and the third runs along the top from (0, 0) to (99, 0); the left and bottom edges are never drawn | take the sides in decreasing order, `(startSide + 4 - side) % 4`, so that every line runs along its own side | medium; not executed | ScanWidget.AnimationLeavesSides | ScanWidget.ReversedAnimationFollowsSides |
| daemonjsonrpc.cpp:98-105 | `local * 100 / remote` with no check of `remote`; every network error and every error reply reads `height` as 0, so `getSynced` divides by zero, which is undefined behaviour in C++ (a crash on x86) | a `get_info` request that fails with a network error: `remote` is 0 | check `remote` before dividing; for 0 ≤ local ≤ remote with remote > 0 the percentage lies in 0..100 and is 100 exactly when synced | high; not executed | DaemonRpc.DaemonJsonRpc.GetSynced, DaemonRpc.MissingResultDecodesToZero | DaemonRpc.SyncPercentageBounds |
| qrcode/scanner/QrCodeScanWidget.cpp:286-289 | `stop` calls `m_camera->stop()` without the null check the exposure handlers (:44, :60) and `onCameraSwitched` (:345) make; `m_camera` stays null until `onCameraSwitched` creates a camera | `startCapture` with the camera permission denied or still pending, with an empty camera combo box, or with the listed camera detached since the last refresh (the thread then starts without a camera), then `stop`: `m_camera` is null | stop the camera only when there is one | high; not executed | ScanWidget.QrCodeScanWidget.Stop, ScanWidget.StopFindsNoCamera | ScanWidget.QrCodeScanWidget.StopChecked |
