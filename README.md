# ForestVPN CLI and daemon — a verified Dafny model

This project models the decision logic of the ForestVPN command-line client and its privileged helper daemon `forestd`.

- **The daemon's request handler** (`forestd/main.go`). One connection is served by a loop. Each iteration reads a frame and stops on the quit sentinel. Otherwise it appends `"connect"` and `"disconnect"` to `knownActions` and splits the frame on white space. A request is accepted when it has at least two tokens and its first token is a substring of the joined known actions. An accepted verb runs `wg-quick up|down <cfg>` (or whatever command the previous iteration left behind), and `status` probes `wg show`. Every other request is answered with -1. Each non-quit iteration that does not panic writes one status. A blank frame panics at `request[0]`, and an accepted verb that is not an exact name panics on a nil command. The panic is not recovered, so it ends the daemon process and with it every connection (the `Crashed` ending). The loop is the class `Forestd.Handler`, whose method `HandleRequest` is proved equal to the state machine `Forestd.Serve`. The lemmas are about `Serve` and its single step `Forestd.Step`.
- **The location helpers** (`src/actions/location.go`), in module `Locations`:
  - the premium rule;
  - the wrapper map;
  - the country filter;
  - the in-place sort;
  - the rows of `location list`;
  - the sections of the WireGuard configuration that `SetLocation` writes.
- **The current CLI** (`src/main.go`), in module `Client`:
  - the entitlement gate of `state up`;
  - the already-up and already-down guards;
  - `location set`, with its name/UUID lookup (module `Cli`, shared with the older CLI) and its deny rule;
  - the error display (module `Display`).
- **The older CLI** (`src/cmd/main.go`), in module `LegacyClient`:
  - the random default location picked at login;
  - `location set`;
  - the up/down sequencing of `state up` and `state down`.

Library functions the code relies on are modelled in `GoStrings`: `strings.Fields`, `Join`, `Split`, `Contains`, `EqualFold`, `cases.Title` on one word, and Go's string `<`. `uuid.Parse` and `UUID.String` are modelled in `Uuid`. The environment is passed in as data: frames, process outcomes, probe output, the interface status, errors of external calls, the current time and the random draw. Times are integer nanoseconds.

One might expect a premium bundle expiring two days from now to pass `state up` with no warning, but the code warns. In the code `days` is then 2, which is below 3, so the "less than 3 days" warning is printed. The model follows the code, and `Client.PremiumTwoDaysLeftWarns` proves the warning.

## Model

| member | source | states |
|---|---|---|
| Forestd.Execute | forestd/main.go:112-127 | the exit code is returned only when Wait fails with an ExitError; a clean exit, a failed Start and any other Wait error all give 0 |
| Forestd.IsActiveWireGuard | forestd/main.go:100-107 | 1 exactly when `wg show` printed something, 0 exactly when it printed nothing; a probe error plays no part |
| Forestd.RunCmd | forestd/main.go:112-117 | a Cmd that already started a process starts nothing and reports 0; otherwise the status is `execute`'s; a process is started exactly when the Cmd had not started one and Start succeeds |
| Forestd.Step | forestd/main.go:44-88 | one iteration: it quits exactly on the sentinel and then changes nothing; otherwise knownActions gains the two verbs; started processes are only ever added |
| Forestd.Accepted | forestd/main.go:62 | the guard: accepted only with at least two tokens and a first token no longer than the joined known actions; a first token that is a prefix of them is always accepted |
| Forestd.Dispatch | forestd/main.go:57-80 | the branch on the tokens never quits and keeps knownActions; it panics exactly on no tokens, or on an accepted non-exact verb with no command built yet |
| Forestd.RunVerb | forestd/main.go:62-75 | the accepted branch stores the config, panics exactly for a non-exact verb with a nil command, otherwise holds a command and appends its status; it starts at most one process |
| Forestd.Serve | forestd/main.go:44-90 | the loop over the frames it is given: it serves at most one request per frame, and known actions and started processes only grow |
| Forestd.QuitWritesNothing | forestd/main.go:51-54 | a frame equal to the quit sentinel ends the loop with the state, and so the responses, unchanged |
| Forestd.StepResponds | forestd/main.go:82-88 | an iteration that continues appends exactly its own status to the responses; one that stops appends nothing; it stops by quitting exactly on the sentinel |
| Forestd.ServeAnswersEachRequest | forestd/main.go:44-90 | after a run of the loop there is one new response per served frame, and the earlier responses are a prefix |
| Forestd.ServeStopsEarly | forestd/main.go:44-54 | the loop waits for input only after serving every frame; a disconnect or panic stops it before the end, and a disconnect stops it on a sentinel frame |
| Forestd.ServeStopsAtFirstSentinel | forestd/main.go:51-54 | no served frame was the quit sentinel |
| Forestd.StepKeepsKnownActions | forestd/main.go:56 | every non-quit iteration appends "connect" and "disconnect", the list keeps its repeated shape, and index 0 and 1 stay "connect" and "disconnect" |
| Forestd.KnownActionsHead | forestd/main.go:67-70 | after one or more iterations knownActions[0] is "connect" and knownActions[1] is "disconnect" |
| Forestd.JoinedKnownActions | forestd/main.go:62 | the string the substring test searches is "connectdisconnect" repeated once per iteration |
| Forestd.ExactVerbsAccepted | forestd/main.go:62 | "connect" and "disconnect" pass the substring test from the first iteration on |
| Forestd.DisAccepted | forestd/main.go:62 | the non-verb "dis" passes the substring test from the first iteration on |
| Forestd.StatusNeverAccepted | forestd/main.go:62-77 | "status" never passes the substring test, so it always reaches the status branch |
| Forestd.DisconnectConnectAcceptance | forestd/main.go:56-62 | "disconnectconnect" passes the substring test exactly from the second iteration on, because knownActions grows |
| Forestd.StepDispatches | forestd/main.go:51-58 | a non-quit iteration dispatches on the tokens of the frame with the two verbs appended |
| Forestd.ExactVerbRunsWgQuick | forestd/main.go:62-75 | "connect cfg" and "disconnect cfg" build `wg-quick up cfg` and `wg-quick down cfg`, store cfg, and respond with `execute`'s status; the process is started unless Start fails |
| Forestd.NonExactVerbWithoutCommandPanics | forestd/main.go:62-73 | an accepted verb that is not an exact name panics on the nil command when no command was built before |
| Forestd.NonExactVerbReusesCommand | forestd/main.go:62-75 | an accepted verb that is not an exact name re-executes the stale command with the new cfg stored; a command that already ran yields 0 and starts nothing |
| Forestd.FirstRequestDisPanics | forestd/main.go:62-73 | "dis cfg" as the first request of a connection panics |
| Forestd.StatusVerbProbes | forestd/main.go:76-77 | "status", with or without extra tokens, responds with the probe's result whatever the probe error, and starts nothing |
| Forestd.OtherRequestAnswersError | forestd/main.go:78-79 | any other request, "connect" without an argument included, responds -1 and leaves command, config and started processes alone |
| Forestd.BlankFramePanics | forestd/main.go:57-58 | a blank frame that is not the sentinel panics at request[0] |
| Forestd.StepKeepsLaunches | forestd/main.go:62-75 | each iteration keeps the invariant that every command held or started is `wg-quick up/down <non-empty cfg>` |
| Forestd.ServeKeepsLaunches | forestd/main.go:44-90 | the loop as a whole keeps that invariant |
| Forestd.NoLaunchWithoutConfig | forestd/main.go:62-71 | from a fresh connection, every process ever started is `wg-quick up/down` with a non-empty config |
| Forestd.Handler.constructor | forestd/main.go:38-42 | a handler starts with no command, no known actions, status 0, empty config and an open connection |
| Forestd.Handler.HandleRequest | forestd/main.go:36-90 | the loop leaves the handler in the state `Serve` computes, and closes the connection exactly when it quit or panicked |
| Forestd.Handler.Answer | forestd/main.go:62-80 | the branch on the tokens updates the fields as `Dispatch` says and reports a panic exactly when `Dispatch` panics |
| Forestd.Handler.RunAccepted | forestd/main.go:62-75 | the accepted-verb branch updates command, config, status and started processes as `RunVerb` says |
| GoStrings.Fields | forestd/main.go:57 | every field is non-empty and free of white space |
| GoStrings.FieldsEmptyIff | forestd/main.go:57-58 | a frame has no fields exactly when it is all white space |
| GoStrings.FieldsOfJoin | forestd/main.go:57 | splitting words joined with single spaces gives back the words |
| GoStrings.ContainsFromOccurrence | forestd/main.go:62 | an occurrence at some position makes Contains true |
| GoStrings.OccurrenceFromContains | forestd/main.go:62 | Contains true yields a position of an occurrence |
| GoStrings.Split | src/cmd/main.go:559-560 | a split has at least one piece, so `msg[0]` exists, and no piece contains the separator |
| GoStrings.JoinSplit | src/main.go:502-504 | joining a split with its separator gives back the string |
| GoStrings.SplitJoin | src/main.go:502-504 | splitting pieces joined with a separator they lack gives back the pieces |
| GoStrings.TitleWord | src/main.go:500-502 | `cases.Title` on one word: the same length, the first character in upper case and every later one in lower case (ASCII) |
| GoStrings.Join | src/main.go:503 | `strings.Join`: a join of one or more parts starts with the first part; `JoinSplit` and `SplitJoin` tie it to `Split` |
| GoStrings.Contains | forestd/main.go:62 | `strings.Contains`: a match needs the substring to be no longer than the string, and a prefix always matches |
| GoStrings.EqualFold | src/main.go:401 | `strings.EqualFold` on ASCII: equal strings fold equal, and folded-equal strings agree at every position up to letter case |
| GoStrings.Less | src/actions/location.go:65 | Go's `<` on strings: irreflexive, and a proper prefix is smaller |
| GoStrings.EqualFoldSameLength | src/main.go:407-410 | case-insensitively equal strings have the same length |
| Uuid.Parse | src/main.go:396 | a UUID parses only from 32, 36, 38 or 45 characters, and yields 32 hexadecimal digits |
| Uuid.String | src/main.go:409 | `UUID.String`: 36 characters with hyphens at positions 8, 13, 18 and 23 |
| Uuid.StringNeverEmpty | src/main.go:407-415 | the canonical text of a parsed UUID never equals the empty id of the zero location |
| Locations.IsPremiumLocation | src/actions/location.go:160-168 | false exactly for the Helsinki and Falkenstein ids |
| Locations.EmptyIdIsPremium | src/actions/location.go:164-165 | the empty id counts as premium |
| Locations.GetLocationWrappers | src/actions/location.go:152-158 | one wrapper per location, same length and order, premium exactly when not Helsinki or Falkenstein |
| Locations.ByCountry | src/actions/location.go:53-61 | every kept location is from the input and matches the country up to case |
| Locations.FilterLocationsByCountry | src/actions/location.go:53-61 | the append loop computes `ByCountry` |
| Locations.ByCountryCounts | src/actions/location.go:55-58 | each matching location is kept as often as it occurs, and a non-matching one never |
| Locations.ByCountryAppend | src/actions/location.go:54-60 | filtering keeps order: the filter of a concatenation is the concatenation of the filters |
| Locations.SortsBefore | src/actions/location.go:64-66 | the comparator: a location sorts before another only when both its name and its country name differ from the other's |
| Locations.ComparatorNotStrictWeakOrder | src/actions/location.go:64-66 | the comparator has incomparable pairs (a,a)~(b,a) and (b,a)~(b,b) with (a,a) before (b,b), so it is no strict weak order |
| Locations.SortLocations | src/actions/location.go:63-67 | the sort rearranges the array in place: same multiset of locations |
| Locations.Row | src/actions/location.go:37-41 | a row is [name, country, id, mark], with the mark "*" exactly for a premium wrapper |
| Locations.Rows | src/actions/location.go:36-42 | one row per shown location, holding its id, marked "*" exactly when the location is premium |
| Locations.RowMarksPremium | src/actions/location.go:37-41 | the Premium column holds "*" exactly for locations other than Helsinki and Falkenstein |
| Locations.ListLocations | src/actions/location.go:29-42 | the rows are [city, country, id, mark] of a rearrangement of the locations, filtered by country only when a country is given |
| Locations.SetLocation | src/actions/location.go:74-136 | the section-building loop computes `Config`: the sections, or the first error |
| Locations.InterfaceSection | src/actions/location.go:77-92 | the Interface section: Address and DNS joined with ",", and the private key |
| Locations.AllowedIps | src/actions/location.go:100-115 | darwin and windows always get 0.0.0.0/0; only the SSH-client exclusion elsewhere can fail |
| Locations.PeerSection | src/actions/location.go:117-132 | a Peer section has at least AllowedIPs, Endpoint and PublicKey, and AllowedIPs comes first, joined with ", " |
| Locations.PeerSections | src/actions/location.go:94-136 | on success there is one section named Peer per peer |
| Locations.Config | src/actions/location.go:77-136 | fails exactly when the Peer sections fail; on success the Interface section comes first, followed by one section per peer |
| Locations.PeerSectionsFailureSticks | src/actions/location.go:110-113 | the first failing peer's error is the error of the whole call |
| Locations.PeerSectionsShape | src/actions/location.go:94-136 | the Peer sections succeed exactly when every peer's AllowedIPs do, and then are one per peer in peer order |
| Locations.ConfigShape | src/actions/location.go:77-98 | a configuration is the Interface section (Address, PrivateKey, DNS) followed by one Peer section per peer in order |
| Locations.DesktopRoutesEverything | src/actions/location.go:101-102 | on darwin and windows nothing fails and every peer gets AllowedIPs 0.0.0.0/0 |
| Locations.RouteAllJoined | src/actions/location.go:117 | the darwin/windows AllowedIPs value is exactly "0.0.0.0/0" |
| Locations.NoSshClientKeepsAllowedIps | src/actions/location.go:104-117 | elsewhere, without an SSH client, a peer keeps its AllowedIPs joined with ", " |
| Locations.PresharedKeyOnlyWhenSet | src/actions/location.go:129-132 | a PresharedKey entry is written exactly when the peer's key is non-empty, and holds that key |
| Cli.FirstNamed | src/main.go:399-406 | the index found is of a location with that name up to case, and no earlier one has it; none means no location has it |
| Cli.FindLocation | src/main.go:394-415 | a non-UUID argument selects the first location with that name; a UUID argument never sets found; when nothing is found the location stays the zero value |
| Display.FirstWord | src/main.go:502 | the first piece is a prefix without a space, ending at the first space or the end |
| Display.Shown | src/main.go:500-503 | the displayed text has the message's length, and a message that does not start with a space shows its first character upper-cased |
| Display.FormatError | src/main.go:499-505 | the displayed error is the message with its first word title-cased and the rest unchanged |
| Display.ShownKeepsRest | src/cmd/main.go:558-561 | the display keeps the length and every character from the first space on |
| Display.ShownFoldsToMessage | src/main.go:501-504 | the display differs from the message only in letter case |
| Display.LeadingSpaceShownUnchanged | src/main.go:502-504 | a message that starts with a space is shown as it is |
| Client.UpGate | src/main.go:227-248 | the gate denies exactly when now is strictly after the expiry |
| Client.UpGateCases | src/main.go:234-248 | which verdict holds: location unavailable for an expired premium bundle on a premium location, the session-over denial for any other expiry, the trial warning for a free bundle with under 5 minutes left, the 3-day warning for a premium bundle with under 3 days left |
| Client.ThreeDaysNeverZero | src/main.go:231-246 | three truncated days need at least 72 hours left, so the `days == 3 && left.Hours() == 0` disjunct never holds |
| Client.MinutesBelowFive | src/main.go:244 | with time left, fewer than 5 truncated minutes means less than 5 minutes left |
| Client.DaysBelowThree | src/main.go:246 | with time left, fewer than 3 truncated days means less than 3 days left |
| Client.ExpiryMomentNotExpired | src/main.go:234 | at the moment of expiry the gate does not deny |
| Client.PremiumTwoDaysLeftWarns | src/main.go:246-247 | a premium bundle with two days left gets the 3-day warning |
| Client.StateUp | src/main.go:201-267 | `state up` asks for at most one SetUp, and succeeds exactly when the interface was down, the bundle is not expired, SetUp succeeds and the interface is up afterwards |
| Client.StateUpTransitions | src/main.go:207-251 | SetUp is requested exactly when the interface is down and not expired; otherwise `state up` exits 1 with no transition, printing "State is already up and running" when it was up |
| Client.StateUpAtMostOneWarning | src/main.go:234-264 | an allowed `state up` prints at most one warning, then "Connected to …" or the "state.status is false" error |
| Client.StateDown | src/main.go:272-302 | an exit prints "State is already down"; "Disconnected" is printed exactly when the command succeeds |
| Client.StateDownTransitions | src/main.go:280-299 | SetDown exactly when up; exit 1 exactly when already down; success exactly when SetDown succeeds and the interface is down afterwards |
| Client.LocationSetDenied | src/main.go:428-434 | the deny rule refuses only when the billing has expired or the bundle is the free one |
| Client.LocationSetDeniedCases | src/main.go:428-434 | an expired billing feature is always refused; an unexpired premium bundle and an unexpired free location never are |
| Client.GatesDisagreeOnPremiumLocation | src/main.go:431 | an unexpired free bundle with 5 or more minutes left may `state up` on a premium location that `location set` refuses |
| Client.LocationSet | src/main.go:372-462 | busy when connected; "UUID or name required" for an empty argument; "no such location: arg" for a UUID or an unknown name; otherwise the first location with the name, refused by the deny rule, failed with the configuration write's error when not on OpenWRT, or selected, with the configuration written unless on OpenWRT |
| LegacyClient.NonPremium | src/cmd/main.go:187-191 | the kept wrappers are free ones from the input |
| LegacyClient.NonPremiumAppend | src/cmd/main.go:187-191 | the filter keeps order: the free wrappers of a concatenation are the concatenation of the free wrappers |
| LegacyClient.NonPremiumCounts | src/cmd/main.go:187-191 | every free wrapper is kept as often as it occurs, and a premium one never |
| LegacyClient.LoginSet | src/cmd/main.go:184-192 | the set a user may be given holds only wrappers from the input, and only free ones for a free user |
| LegacyClient.LocationSetFor | src/cmd/main.go:184-192 | locationSet is all wrappers for a premium user, otherwise the free ones in order, as `NonPremiumAppend` and `NonPremiumCounts` state |
| LegacyClient.PickAsWritten | src/cmd/main.go:194-195 | the pick as written: in bounds of wrappedLocations, and a panic exactly when locationSet is empty |
| LegacyClient.PickAsWrittenCanBePremium | src/cmd/main.go:194-195 | a free user with a premium location listed first is given that premium location |
| LegacyClient.Pick | src/cmd/main.go:194-195 | the corrected pick is an element of locationSet, and fails exactly when it is empty |
| LegacyClient.PickReachesEvery | src/cmd/main.go:194 | every element of locationSet is the pick of some draw |
| LegacyClient.PickRespectsSubscription | src/cmd/main.go:184-195 | with the corrected pick a free user is only given a free location |
| LegacyClient.EmptyLoginSet | src/cmd/main.go:194 | the draw panics exactly when a free user has only premium locations, or a premium user none |
| LegacyClient.LoginPick | src/cmd/main.go:179-195 | the login code as written: it builds locationSet with the append loop and applies the index drawn over it to wrappedLocations, giving `PickAsWritten` |
| LegacyClient.LocationSet | src/cmd/main.go:442-492 | logged out prints the hint; an empty argument errors; a UUID or an unknown name gives "no such location: arg"; otherwise the first location with the name, with no deny rule |
| LegacyClient.StateUp | src/cmd/main.go:314-354 | `state up` requests at most two transitions, and prints "Connected to city, country" exactly when signed in with a location, any SetDown and the SetUp succeed, and the interface is up afterwards |
| LegacyClient.StateUpSequencing | src/cmd/main.go:315-352 | no transition without a user or a location; an up interface gets SetDown before SetUp; a failed SetDown stops before SetUp; down afterwards gives "state set up error"; never exits |
| LegacyClient.StateDown | src/cmd/main.go:360-393 | `state down` never exits, and prints "Disconnected" exactly when a signed-in user's up interface is set down without error and is down afterwards |
| LegacyClient.StateDownSequencing | src/cmd/main.go:361-392 | SetDown exactly for a logged-in user with an up interface; "state set down error" exactly when still up afterwards; "Not connected" otherwise |

## Left out

- Network plumbing is not modelled: the TCP listener, the accept loop, the goroutine per connection, and `Read`/`Write` with `DELIMITER` and `QUIT_SIGN`, whose definitions are not part of this model. The handler gets its frames as a sequence, one `Round` each. The quit sentinel is a parameter. A read error only logged is carried as a flag.
- `wg-quick` and `wg show` are not executed: they are abstract outcomes (clean exit, exit code, start failure, other wait error; stdout bytes and an error flag).
- Panics are not modelled past the handler: the `Crashed` ending stands for a goroutine panic that is not recovered, which ends the whole daemon process, but the other connections and the process exit are outside the model.
- The `%c` encoding of a status is not modelled: responses are the integer statuses the handler attempts to write; a failed `Write` is only logged, so delivery is not modelled.
- Logging (`log.Printf`), Sentry, colours and the `time.Sleep` calls are left out. `os.Exit` is an `Exit` ending.
- All HTTP and persistence is left out: sign-in, the API client, billing features, `LoadDevice`, `UpdateDevice`, `UpdateProfileDevice`, session files and `JsonDump`. Their results are parameters, and their errors are not modelled, except SetUp/SetDown errors, the error of the configuration write in `location set` of the current CLI, and the interface status before and after.
- `Locations.SetLocation`: ini serialisation, the file path and `SaveTo` are left out. It returns the sections it asks for. Repeated `NewSection("Peer")` calls are not modelled as ini.v1 merges them into one section. `NewSection` and `NewKey` errors are not modelled, because they cannot occur for these non-empty names.
- The tablewriter rendering of `location list` is left out; the model yields the rows.
- `Locations.SortLocations`: only the permutation is promised, because `sort.Slice` with a comparator that is not a strict weak order promises no order. The body is an insertion sort by the same comparator; the pdqsort algorithm is not modelled.
- Float time arithmetic is not modelled: `left.Hours()/24` and `left.Minutes()` become truncating division of integer nanoseconds, and `left.Hours() == 0` becomes `left == 0`. Rounding at float precision is ignored, as is int64 saturation of `Sub`.
- `strings.EqualFold` and `cases.Title` fold only ASCII letters. Unicode folding and title-casing, and cases.Title's word breaks inside a space-free piece, are not modelled.
- Strings are sequences of characters, not UTF-8 bytes. Go's `len` counts bytes, which differs for non-ASCII text.
- `Uuid.Parse`: the 38-character form does not check its braces, following the library. The error values are left out.
- `utils.GetActiveSshClient`, `utils.ExcludeDisallowedIps`, `utils.IsOpenWRT`, `actions.State`, `actions.GetWrappedLocations` and `actions.IsPremiumUser` are parameters of the model: the SSH client text, an exclusion function, a flag, the up/down status with transition errors, the wrapped locations, and a flag.
- `rand.Intn` is a `draw` parameter reduced modulo the set size, so every index is covered; the generator itself is left out.
- The remaining commands of both CLIs are left out, as they are only calls to external services: account, login and logout flows, `status`, `whoami`, `location ls` output and version.

## Findings

| source | as written | input that shows it | evidently intended | confidence | as-written member | corrected member |
|---|---|---|---|---|---|---|
| src/cmd/main.go:194-195 | the index is drawn over `locationSet` but used on `wrappedLocations` | a free user where wrappedLocations = [premium location, Helsinki]: locationSet = [Helsinki], index 0 gives the premium location | index `locationSet`, so a free user only gets a free location | high; not executed | LegacyClient.PickAsWritten, LegacyClient.LoginPick, LegacyClient.PickAsWrittenCanBePremium | LegacyClient.Pick, LegacyClient.PickRespectsSubscription |
