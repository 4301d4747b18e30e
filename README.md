# rvmm core, modelled in Dafny

rvmm runs ephemeral GitHub Actions runners on macOS. Each runner lives in a
tart virtual machine. The program runs a sequential loop:

1. Make sure the VM image is cached, pulling it from a registry when needed.
2. Ask GitHub for a runner registration token.
3. Clone a fresh VM, start it and wait for its IP address, then for SSH.
4. Register an ephemeral runner inside the VM, run it until its job is done,
   and stop and delete the VM.

Around this loop are several other parts:

- validation of the configuration record;
- a terminal UI, of which this project models:
  - the configuration form (focus movement, CSV labels, field mapping,
    required inputs);
  - the menu stack;
  - the footer showing the last line of the log, with escape sequences
    stripped;
- a log tailer that follows a log file by byte offset and sends each new line
  to an analytics sink;
- launchd management of the runner daemon and its monitor agent.

The model follows the Go code file by file:

| Dafny module | Go file |
|---|---|
| `Vm`, class `VMManager` | `internal/runner/vm.go` |
| `Loop` | `internal/runner/loop.go` |
| `Ssh`, class `SSHClient` | `internal/runner/ssh.go` |
| `GitHub` | `internal/runner/github.go` |
| `Config` | `internal/config/validation.go` (record from `config.go`, defaults from `internal/tui/config_io.go`) |
| `Logging` | `internal/tui/logging.go` |
| `ConfigForm`, class `Form` | `internal/tui/config_form.go` |
| `Menu`, class `MenuState` | `internal/tui/menu_entry.go` |
| `LogTail`, classes `Sink` and `LogTailer` | `internal/monitor/logtail.go` |
| `Launchd` | `internal/daemon/launchd.go` |

Three support modules hold shared definitions:

- `Strings` holds the Go `strings`/`strconv` operations the code relies on
  (`HasPrefix`, `Contains`, `Index`, `Split`, `Join`, `TrimSpace`,
  `ReplaceAll`, `Itoa`/`Atoi`), with their own round-trip lemmas.
- `Wrappers` holds `Option` and `Result`.
- `Effects` models the outside world:
  - every external command (`tart`, `ssh`, `ssh-keygen`, `launchctl`, file
    removal) is a `Command` value;
  - a `Host` object records, in order, every command the code issues;
  - what a command answers is an `Outcome` parameter (`Done(output)` or
    `Failed(reason, output)`).

Polling loops (`waitForIP`, `WaitForSSH`, the tailer's ticker) run over a
finite sequence of events: a tick with its answer, the context being done, or
the timer firing. Running out of events stands for the timeout. The runner's
infinite `for` loop runs over a finite sequence of per-turn outcomes (`Cycle`).
Running out of turns is reported as `StillRunning`. A turn records whether the
context is cancelled at its head and when `runOnce` returns; these flags and
the cancellation events of the turn's waits are separate inputs. `Loop.Coherent`
says when a sequence of turns describes one context that stays cancelled once
cancelled, and the lemmas that need this assume it.

Oracles stand in for calls whose behaviour cannot be seen:

- `url.Parse` is `urlParses`;
- `json.Unmarshal` of the token response is `parse`;
- the HTTP client is `send`, which maps the request it is handed to the
  answer (or to how the exchange failed);
- PostHog's answer to an event is `accepts`.

## Model

| member | source | states |
|---|---|---|
| Config.Validate | internal/config/validation.go:10-43 | returns no error exactly when the six checks pass; otherwise the error is the messages of the failed checks joined by "; " |
| Config.ProblemsAreFailingChecks | internal/config/validation.go:13-40 | the problems collected are exactly the failing checks, in the fixed order token, endpoint, runner URL, image, username, password |
| Config.FailingEarlyChecks | internal/config/validation.go:14-21 | the token check, then at most one of the two endpoint checks, come before the later checks |
| Config.FailingLaterChecks | internal/config/validation.go:22-37 | the runner URL, image, username and password checks each fail on their own, in that order |
| Config.FailingMembers | internal/config/validation.go:13-40 | a check is collected exactly when it is listed and fails |
| Config.FailingInOrder | internal/config/validation.go:13-40 | collecting the failures keeps the checks' order |
| Config.AllChecked | internal/config/validation.go:13-40 | every kind of problem is one of the checks made |
| Config.ProblemsExact | internal/config/validation.go:13-40 | a problem is reported if and only if its check fails |
| Config.ProblemsEmptyIff | internal/config/validation.go:39-42 | no message is collected exactly when the record is acceptable |
| Config.EndpointReportedOnce | internal/config/validation.go:17-21 | the registration endpoint is never reported both as missing and as malformed |
| Config.ProblemsInCheckOrder | internal/config/validation.go:13-40 | the messages come in check order, each at most once |
| Config.MessagesDistinct | internal/config/validation.go:15-36 | different failed checks have different messages |
| Config.MessageLengthOf | internal/config/validation.go:15-36 | the length of each check's message |
| Config.ProblemsOnlyReadCheckedFields | internal/config/validation.go:10-43 | two records that agree on the six checked fields validate alike |
| Config.Messages | internal/config/validation.go:39-42 | one message per problem |
| Vm.RegistryPath | internal/runner/vm.go:36-48 | with no registry URL the image name is used; otherwise the path starts with the URL and a slash |
| Vm.RegistryPathCases | internal/runner/vm.go:37-47 | the three cases: no URL gives the image name; an already prefixed name is unchanged; otherwise the URL, "/" and the name |
| Vm.NoDoublePrefix | internal/runner/vm.go:42-45 | the registry prefix appears twice only if the image name already held it twice |
| Vm.RegistryPathIdempotent | internal/runner/vm.go:36-48 | resolving a resolved path again changes nothing |
| Vm.RegistryPathExamples | internal/runner/vm.go:36-48 | worked examples: prefixed, bare and unprefixed image names |
| Vm.CachePathShape | internal/runner/vm.go:51-56 | the cache path is HOME/.tart/cache/OCIs/ followed by the registry path with every ':' turned into '/'; that part holds no ':' |
| Vm.CachePathOf | internal/runner/vm.go:55 | joining the five path elements gives the cache directory followed by the tail |
| Vm.NonEmptyKeepsAll | internal/runner/vm.go:55 | path joining keeps every element when none is empty |
| Vm.IpRegexIsDottedQuad | internal/runner/vm.go:17 | the address pattern accepts exactly four non-empty digit runs separated by three dots |
| Vm.ScanQuadPieces | internal/runner/vm.go:17 | the pattern's scanner accepts exactly the text whose dot-separated pieces are the remaining digit groups |
| Vm.ScanDigits | internal/runner/vm.go:17 | a run of digits moves the pattern's scan on within a group |
| Vm.ScanQuadOfRuns | internal/runner/vm.go:17 | four digit runs joined by dots match the pattern |
| Vm.IpRegexAcceptsTypical | internal/runner/vm.go:17 | "192.168.64.10" matches |
| Vm.IpRegexAcceptsOutOfRange | internal/runner/vm.go:17 | "999.999.999.999" matches: group values are not range-checked |
| Vm.IpRegexRejectsExamples | internal/runner/vm.go:17 | "", "not-an-ip" and "1.2.3" do not match |
| Vm.LocalName | internal/runner/vm.go:84-87 | the name before the first ':' when that colon is past index 0, else the whole reference |
| Vm.Candidates | internal/runner/vm.go:96-107 | the candidates start with the full image name |
| Vm.FirstListedSpec | internal/runner/vm.go:96-107 | the chosen candidate is listed and no earlier one is; none is chosen exactly when no candidate is listed |
| Vm.FirstListedCons | internal/runner/vm.go:96-107 | the lookup tries candidates front to back |
| Vm.SelectImageIsFirstListed | internal/runner/vm.go:95-111 | the image is found exactly when some candidate is listed; the reference is then the first listed candidate, else the registry path |
| Vm.SeenAll | internal/runner/vm.go:263-286 | one select event per poll |
| Vm.SeenAt | internal/runner/vm.go:269-284 | each poll's answer is reduced on its own |
| Vm.IpWaitStep | internal/runner/vm.go:263-286 | one select event: a done context ends with its error, the timer with the timeout, a tick either answers or keeps polling, with the commands it issues |
| Vm.AddressIsDottedQuad | internal/runner/vm.go:276-277 | an address taken from `tart ip` is its trimmed output and is a dotted quad |
| Vm.IpWaitYieldsDottedQuad | internal/runner/vm.go:263-286 | an address is returned only if some `tart ip` printed it, trimmed, as a dotted quad |
| Vm.IpWaitAt | internal/runner/vm.go:263-286 | the address returned is that of the first tick that shows one |
| Vm.IpWaitOkHasAnswer | internal/runner/vm.go:263-286 | when an address is returned, a first answering tick exists |
| Vm.IpWaitOkIff | internal/runner/vm.go:263-286 | an address is returned exactly when some tick shows one before the context is done or the timer fires |
| Vm.IpWaitNeverAnswered | internal/runner/vm.go:265-268 | without an answering tick the wait fails, with the timeout when no cancellation came |
| Vm.VMManager.constructor | internal/runner/vm.go:28-33 | the manager keeps its configuration and starts with no image reference |
| Vm.VMManager.Login | internal/runner/vm.go:59-78 | issues nothing and returns no error without a registry URL or user name; otherwise logs in and wraps a failure |
| Vm.VMManager.ImageExists | internal/runner/vm.go:81-112 | issues `tart list`; on failure keeps the image reference and returns the error; otherwise the reference becomes the first listed candidate or the registry path, and found says which |
| Vm.VMManager.PullImage | internal/runner/vm.go:115-151 | clears the tart directory and pulls the registry path; a pull failure is the error, else the resize outcome decides |
| Vm.VMManager.Clone | internal/runner/vm.go:218-235 | clones from the image reference, or from the registry path when it is empty; error exactly when the clone fails |
| Vm.VMManager.Start | internal/runner/vm.go:238-248 | issues `tart run`; error exactly when the start fails |
| Vm.VMManager.ProbeIp | internal/runner/vm.go:270-283 | one tick: `tart ip`, and `ssh-keygen -R` for an address it shows |
| Vm.VMManager.WaitForIP | internal/runner/vm.go:251-287 | the result and the commands issued are those of the reference wait over the events |
| Vm.VMManager.Select | internal/runner/vm.go:264-285 | one pass of the select agrees with the reference wait on the remaining events |
| Vm.VMManager.Stop | internal/runner/vm.go:290-300 | issues `tart stop`; error exactly when it fails |
| Vm.VMManager.Delete | internal/runner/vm.go:303-313 | issues `tart delete`; error exactly when it fails |
| Vm.VMManager.Cleanup | internal/runner/vm.go:316-325 | stops, then deletes, the same instance and reports nothing |
| Ssh.EffectiveLabels | internal/runner/ssh.go:115-118 | the configured labels, or ["self-hosted"] when there are none |
| Ssh.SshWaitStep | internal/runner/ssh.go:36-58 | one select event: a done context or the timer ends the wait, a successful probe ends it well, a failed probe keeps polling, with the probe it issues |
| Ssh.SshWaitOkIff | internal/runner/ssh.go:36-58 | SSH is available exactly when a probe succeeds before the context is done or the timer fires |
| Ssh.SshWaitAllFail | internal/runner/ssh.go:38-41 | when every probe fails, the wait ends with the timeout error |
| Ssh.LabelsRoundTrip | internal/runner/ssh.go:121-127 | labels without commas, joined with ",", split back into the same labels |
| Ssh.LabelsCommas | internal/runner/ssh.go:121-127 | the joined labels hold exactly one comma fewer than there are labels |
| Ssh.LabelsEnds | internal/runner/ssh.go:121-127 | the joined labels start with the first label and end with the last |
| Ssh.ConfigCommandWords | internal/runner/ssh.go:129-135 | with no spaces in its parts, the `config.sh` command splits into exactly the intended words, the name being the configured runner name |
| Ssh.SSHClient.constructor | internal/runner/ssh.go:21-26 | the client keeps its configuration |
| Ssh.SSHClient.WaitForSSH | internal/runner/ssh.go:29-59 | the result and the probes issued are those of the reference wait over the events |
| Ssh.SSHClient.Execute | internal/runner/ssh.go:62-86 | runs the command on `user@ip`; a failure reads "SSH command failed: …" |
| Ssh.SSHClient.ExecuteWithOutput | internal/runner/ssh.go:89-109 | returns the command's output even when it fails; the error is wrapped the same way |
| Ssh.SSHClient.LabelsString | internal/runner/ssh.go:120-127 | the `+=` loop yields the labels joined by "," |
| Ssh.SSHClient.ConfigureRunner | internal/runner/ssh.go:112-138 | issues the `config.sh` command with the runner URL, token, runner name and the effective labels joined by ","; error exactly when it fails |
| Ssh.SSHClient.RunRunner | internal/runner/ssh.go:141-148 | issues exactly `source ~/.zprofile && ./actions-runner/run.sh` with output shown |
| GitHub.TokenRequestHeaders | internal/runner/github.go:42-49 | the request is a POST to the endpoint with the bearer token, the v3 media type and API version 2022-11-28 |
| GitHub.TokenOkIff | internal/runner/github.go:42-79 | a token is obtained exactly when the request is built, the client's answer to the token request has status 201, the body parses and the token is not empty; the token returned is that token and never empty |
| GitHub.TokenAnswersTokenRequest | internal/runner/github.go:42-54 | the client is asked only the token request, a POST to the endpoint with the bearer token, the v3 media type and API version 2022-11-28: two clients that answer it alike give the same result |
| GitHub.NonCreatedIgnoresBody | internal/runner/github.go:62-64 | any other status gives an error with the code and body, and the parser is never consulted |
| GitHub.CreatedButUnusable | internal/runner/github.go:66-73 | an unparseable body and an empty token are errors, each with its own message |
| GitHub.StatusErrorReadsBack | internal/runner/github.go:63 | the status error holds the code in decimal, readable back, and ends with the body |
| Loop.RunID | internal/runner/loop.go:177-179 | the run identifier is 2 to 8 decimal digits |
| Loop.RunIDCollides | internal/runner/loop.go:177-179 | two different pairs of draws can give the same identifier |
| Loop.DecimalWidth | internal/runner/loop.go:178 | a draw below 10^k is written with at most k digits |
| Loop.FirstTrue | internal/runner/loop.go:118-151 | the first failing stage, if any |
| Loop.IterateErr | internal/runner/loop.go:99-175 | the error of `runOnce` is the error of its first failing stage |
| Loop.StageErrorIsFirstFailure | internal/runner/loop.go:106-151 | an error arises exactly when some stage fails, and it starts with the text of the first failing stage |
| Loop.IterateFirstFailure | internal/runner/loop.go:106-151 | `runOnce` succeeds exactly when no stage fails; otherwise its error names the first stage that failed |
| Loop.IterateIgnoresRunnerExit | internal/runner/loop.go:155-164 | the runner's exit and the stop's outcome never change the result |
| Loop.IterateCleansUp | internal/runner/loop.go:106-115 | without a token nothing is issued; with one, the first command is the `tart clone` of the instance and the last is a `tart delete` of the same name, each issued exactly once |
| Loop.BootShape | internal/runner/loop.go:118-138 | booting clones the instance first and deletes nothing |
| Loop.SessionQuiet | internal/runner/loop.go:141-164 | working on the VM neither clones nor deletes one |
| Loop.AttemptShape | internal/runner/loop.go:118-164 | the attempt starts with the clone and clones no second time |
| Loop.ThenTally | internal/runner/loop.go:118-151 | a later step runs only when the earlier one succeeded |
| Loop.TallyAppend | internal/runner/loop.go:99-175 | clones and deletes count additively over the command log |
| Loop.IpWaitLogQuiet | internal/runner/vm.go:263-286 | waiting for the address neither clones nor deletes |
| Loop.SshWaitLogQuiet | internal/runner/ssh.go:36-58 | waiting for SSH neither clones nor deletes |
| Loop.BootVm | internal/runner/loop.go:117-138 | clone, start and wait for the address, as the reference boot; on success the address is the one the wait found |
| Loop.SessionOnVm | internal/runner/loop.go:140-164 | wait for SSH, configure, run and stop, as the reference session |
| Loop.RunAttempt | internal/runner/loop.go:117-174 | the steps after the cleanup is deferred, as the reference attempt |
| Loop.RunOnce | internal/runner/loop.go:99-175 | the error and the commands issued are those of the reference iteration |
| Loop.PrepareCycle | internal/runner/loop.go:51-85 | the head of a turn: proceeds exactly when not cancelled, no shutdown flag, and the image is cached or pulled; exit, image reference and commands as the reference |
| Loop.RunCycle | internal/runner/loop.go:50-96 | one turn of the loop as the reference turn |
| Loop.RunLoopAt | internal/runner/loop.go:50-96 | the loop unfolds one turn at a time |
| Loop.RunCycles | internal/runner/loop.go:50-96 | the loop as the reference loop over the turns |
| Loop.Run | internal/runner/loop.go:18-97 | the dependency check and the login come first; their failures are returned; then the loop |
| Loop.RunFailsOnlyAtSetup | internal/runner/loop.go:20-78 | `Run` returns an error only for a missing dependency, a failed login, or an uncached image with no registry configured |
| Loop.LoopFailsOnlyWithoutRegistry | internal/runner/loop.go:67-95 | failed image checks, pulls and iterations never end the loop with an error; only the missing registry does |
| Loop.LoopStopsOnlyOnRequest | internal/runner/loop.go:51-92 | the loop returns nil only on cancellation, on a configured shutdown flag, or on cancellation after a failed iteration |
| Loop.TurnExits | internal/runner/loop.go:51-92 | a turn ends the loop only with nil or the missing-registry error, and a stop request at its head returns nil at once with nothing issued |
| Loop.StopRequestEndsLoop | internal/runner/loop.go:51-64 | a cancellation, or a configured shutdown flag file, at the head of any turn makes the loop return nil, unless it had already returned the missing-registry error |
| Loop.IterationOutcome | internal/runner/loop.go:87-95 | after `runOnce`: success goes on; failure returns nil when the context is cancelled and otherwise sleeps ten seconds and goes on |
| Loop.CancelledWaitStops | internal/runner/loop.go:88-92 | for coherent turns, a failed iteration whose IP or SSH wait met the cancellation returns nil |
| Loop.CoherentLoopStops | internal/runner/loop.go:51-92 | for coherent turns, no turn runs after one that met a cancellation: the loop returns nil, or had returned the missing-registry error |
| Loop.RunSetupFailures | internal/runner/loop.go:18-45 | a missing dependency is returned as the error; a failed login is returned wrapped; otherwise `Run` ends as the loop does |
| Loop.PrepareQuiet | internal/runner/loop.go:51-85 | the head of a turn neither clones nor deletes |
| Loop.CycleBalanced | internal/runner/loop.go:50-96 | every turn deletes as many instances as it clones |
| Loop.LoopBalanced | internal/runner/loop.go:50-96 | the loop issues as many `tart delete` commands for runner instances as it issues `tart clone` commands for them |
| Loop.RunLeavesNoInstances | internal/runner/loop.go:18-97 | however `Run` ends, it has issued a `tart delete` for every `tart clone` of a runner instance it issued |
| Logging.StripFrom | internal/tui/logging.go:84-115 | the stripped output is clean and never longer than the input |
| Logging.StripAnsiCodes | internal/tui/logging.go:84-115 | the three-state byte loop computes the reference stripping |
| Logging.StripAppend | internal/tui/logging.go:88-112 | stripping a concatenation continues from the state the first part ends in |
| Logging.StripIsSubsequence | internal/tui/logging.go:84-115 | the output only deletes input bytes, keeping the order of the rest |
| Logging.StripKeepsClean | internal/tui/logging.go:92-100 | clean text passes unchanged |
| Logging.StripIdempotent | internal/tui/logging.go:84-115 | stripping twice is stripping once |
| Logging.CsiBodySkipped | internal/tui/logging.go:107-110 | inside a control sequence, bytes up to the first letter produce nothing |
| Logging.CsiRemoved | internal/tui/logging.go:101-111 | ESC '[' … up to and including the first letter disappears entirely |
| Logging.EscapePairRemoved | internal/tui/logging.go:101-106 | ESC followed by another byte drops both |
| Logging.TrimLeftSpec | internal/tui/logging.go:80 | what the left trim drops from the front is white space |
| Logging.TrimRightSpec | internal/tui/logging.go:80 | what the right trim drops from the back is white space |
| Logging.TrimAsciiShape | internal/tui/logging.go:80 | the trimmed text is a slice of the input with only white space outside it, and it neither starts nor ends with white space |
| Logging.SanitizeShape | internal/tui/logging.go:74-82 | a sanitised line is clean, has no carriage return and no white space at either end |
| Logging.SanitizeLogLine | internal/tui/logging.go:74-82 | the steps compute the reference sanitising |
| Logging.FitLine | internal/tui/logging.go:117-128 | unchanged when the width is not positive or the line fits; otherwise exactly `width` bytes, ending in "..." after a prefix of the line when the width exceeds 3 |
| Logging.Window | internal/tui/logging.go:42-48 | the last min(size, 8192) bytes of the file |
| Logging.TrimNewlinesSpec | internal/tui/logging.go:58 | what is dropped from the back is line feeds only |
| Logging.LastNonEmpty | internal/tui/logging.go:64-69 | the backward loop finds the last non-empty entry, or none |
| Logging.LastLogLineReadsWindow | internal/tui/logging.go:42-48 | the line shown depends on the last 8192 bytes alone |
| Logging.LastLogLineIsLastVisible | internal/tui/logging.go:58-71 | the line shown is the last one that sanitises to something; nothing is shown exactly when every line sanitises to nothing |
| Logging.ReadLastLogLine | internal/tui/logging.go:27-72 | the reading computes the reference last line; an unreadable file shows nothing |
| ConfigForm.SplitLabels | internal/tui/config_form.go:224-234 | the appending loop computes the reference CSV split |
| ConfigForm.NonEmptyTrimmedAppend | internal/tui/config_form.go:226-233 | the pieces keep their order |
| ConfigForm.TrimSpaceWithin | internal/tui/config_form.go:228 | trimming adds no character |
| ConfigForm.NonEmptyTrimmedClean | internal/tui/config_form.go:226-233 | kept pieces without commas are clean labels |
| ConfigForm.SplitCSVClean | internal/tui/config_form.go:224-234 | every label is non-empty, trimmed and holds no comma |
| ConfigForm.NonEmptyTrimmedOfClean | internal/tui/config_form.go:226-233 | clean labels pass unchanged |
| ConfigForm.SplitCSVOfJoin | internal/tui/config_form.go:224-234 | comma-joined pieces split back into their non-empty trimmed forms, in order |
| ConfigForm.LabelsRoundTrip | internal/tui/config_form.go:224-234 | clean labels survive joining with commas and splitting again |
| ConfigForm.JoinNonEmpty | internal/tui/config_form.go:127 | labels that start with a non-empty label join to non-empty text |
| ConfigForm.SetEmptyKeeps | internal/tui/config_form.go:161-222 | an empty input leaves the runner name, labels, file paths, daemon settings and runner limit unchanged |
| ConfigForm.SetThenGet | internal/tui/config_form.go:116-222 | reading a plain field back after storing a value gives that value, for the overwritten fields even when empty |
| ConfigForm.SetLeavesOthers | internal/tui/config_form.go:116-222 | storing one field leaves every other field unchanged |
| ConfigForm.SetKeepsTruncateSize | internal/tui/config_form.go:161-222 | no input touches the truncation size |
| ConfigForm.RunnerLimitRule | internal/tui/config_form.go:195-200 | the runner limit changes only to a value of at least 1 spelled in decimal, and every such value can be entered |
| ConfigForm.SetLabels | internal/tui/config_form.go:173-176 | a non-empty labels input becomes its comma-separated pieces, all clean |
| ConfigForm.SetGetIdentity | internal/tui/config_form.go:116-222 | storing back the text an input was filled with changes nothing |
| ConfigForm.TrimAll | internal/tui/config_form.go:101-105 | one trimmed text per input |
| ConfigForm.FirstMissing | internal/tui/config_form.go:101-105 | the first required input whose trimmed text is empty, and none before it |
| ConfigForm.FirstMissingReported | internal/tui/config_form.go:101-105 | the error is "<label> is required" for the first missing required input |
| ConfigForm.FormOkIsComplete | internal/tui/config_form.go:99-114 | the form passes exactly when no required input is missing and the record validates |
| ConfigForm.FillLeaves | internal/tui/config_form.go:101-107 | a field without an input keeps its value |
| ConfigForm.FillKeepsTruncateSize | internal/tui/config_form.go:101-107 | filling never touches the truncation size |
| ConfigForm.FillStores | internal/tui/config_form.go:101-107 | a plain field edited by one input ends up holding that input's text |
| ConfigForm.RequiredInputs | internal/tui/config_form.go:27-68 | the required inputs are exactly those of the six fields validation insists on |
| ConfigForm.KeysDistinct | internal/tui/config_form.go:27-68 | every field has one input |
| ConfigForm.KeysInOrder | internal/tui/config_form.go:27-68 | the form has nineteen inputs, one per field, in the order the fields are declared |
| ConfigForm.FillKeepsRequired | internal/tui/config_form.go:101-107 | a required field that is filled in stays set while the other inputs are stored |
| ConfigForm.FillSetsRequired | internal/tui/config_form.go:101-107 | a filled-in required input leaves its field set |
| ConfigForm.FormRequiresGitHubFields | internal/tui/config_form.go:27-68 | the token, endpoint and runner URL inputs are required |
| ConfigForm.FormRequiresImageFields | internal/tui/config_form.go:27-68 | the VM user, password and image inputs are required |
| ConfigForm.FilledRequiredFields | internal/tui/config_form.go:101-107 | with no required input missing, the six checked fields are set |
| ConfigForm.FormOnlyRejectsEndpointURL | internal/tui/config_form.go:99-114 | once every required input is filled in, validation can only object to an endpoint that is not a URL |
| ConfigForm.OnlyEndpointCanFail | internal/config/validation.go:10-43 | with the six fields set, only the endpoint's form is still checked |
| ConfigForm.StoresInput | internal/tui/config_form.go:99-114 | an input no later input shares a key with is stored, trimmed, by a successful form |
| ConfigForm.FormStoresInputs | internal/tui/config_form.go:99-114 | a successful form holds each input's trimmed text in its plain field |
| ConfigForm.FormResetsTruncateSize | internal/tui/config_form.go:99-114 | the form resets the truncation size it does not show to the default |
| ConfigForm.NextFocus | internal/tui/config_form.go:81-97 | starting in range, the focus stays in range |
| ConfigForm.FocusIsModular | internal/tui/config_form.go:83-94 | tab and down move to focus+1 mod n; shift+tab and up move to focus−1 mod n |
| ConfigForm.FocusBackAndForth | internal/tui/config_form.go:83-94 | back undoes forward and forward undoes back |
| ConfigForm.FocusOtherKeys | internal/tui/config_form.go:83-94 | any other key leaves the focus where it is |
| ConfigForm.InitialValues | internal/tui/config_form.go:27-68 | one initial text per input |
| ConfigForm.Form.constructor | internal/tui/config_form.go:27-68 | every input shows its field of the record and the first is focused |
| ConfigForm.Form.UpdateFocus | internal/tui/config_form.go:81-97 | the focus moves as the reference rule says and stays in range |
| ConfigForm.Form.ToConfig | internal/tui/config_form.go:99-114 | the loop with its early return computes the reference form result |
| Menu.NewMenuModel | internal/tui/menu_entry.go:30-43 | one item per entry, in order, at size 0 x 0 |
| Menu.MenuHeight | internal/tui/menu_entry.go:45-47 | at least 4, and the window height less 14 when that is larger |
| Menu.MenuHeightTall | internal/tui/menu_entry.go:45-47 | from 18 rows on, the height less 14 |
| Menu.PushShape | internal/tui/menu_entry.go:49-53 | pushing deepens the stack by one, with the shown menu on top, and shows the new menu sized to the window |
| Menu.PopEmpty | internal/tui/menu_entry.go:55-58 | popping an empty stack reports false and changes nothing |
| Menu.PushThenPop | internal/tui/menu_entry.go:49-63 | a pop after a push reports true and restores the view from before the push |
| Menu.PopThenPush | internal/tui/menu_entry.go:49-63 | pushing back the menu a pop replaced restores the stack |
| Menu.ResizeAllUniform | internal/tui/menu_entry.go:65-71 | every menu gets the same width and menu height; depth, order and entries are kept |
| Menu.ResizeThenPushPop | internal/tui/menu_entry.go:49-71 | after a resize, pushing and popping at the same window size keep every menu the same size |
| Menu.MenuState.constructor | internal/tui/menu_entry.go:30-43 | starts with the root menu and an empty stack |
| Menu.MenuState.PushMenu | internal/tui/menu_entry.go:49-53 | the fields change as the reference push says |
| Menu.MenuState.PopMenu | internal/tui/menu_entry.go:55-63 | the result and fields are as the reference pop says |
| Menu.MenuState.ResizeMenus | internal/tui/menu_entry.go:65-71 | the in-place loop computes the reference resize |
| LogTail.Pieces | internal/monitor/logtail.go:138-156 | the scanner's pieces hold no line feed |
| LogTail.NonEmpty | internal/monitor/logtail.go:142-145 | the lines kept are non-empty lines of the input |
| LogTail.PollAbsent | internal/monitor/logtail.go:99-105 | a missing file: nothing sent, no error, offset unchanged |
| LogTail.PollTruncated | internal/monitor/logtail.go:117-124 | a file shorter than the offset is read from offset 0 |
| LogTail.PollIdle | internal/monitor/logtail.go:127-130 | a file as long as the offset sends nothing and keeps the offset |
| LogTail.PollSendsNewLines | internal/monitor/logtail.go:133-167 | a clean read sends exactly the non-empty lines after the offset, in order, without line endings, and moves the offset to the end |
| LogTail.TokensFree | internal/monitor/logtail.go:138-156 | no line sent holds a line feed |
| LogTail.PollStaysInFile | internal/monitor/logtail.go:98-178 | the offset never passes the end of the file |
| LogTail.SeekThenPollIsQuiet | internal/monitor/logtail.go:74-130 | seeking to the end and polling the unchanged file sends nothing |
| LogTail.PollIncremental | internal/monitor/logtail.go:133-167 | a file growing by whole lines is sent line for line: two polls send what one poll of the grown file sends |
| LogTail.PartialLineSentInTwo | internal/monitor/logtail.go:138-167 | a line cut by a poll is sent as two events |
| LogTail.PiecesAppend | internal/monitor/logtail.go:138-156 | after a line feed, the pieces of the rest follow on |
| LogTail.TokensAppend | internal/monitor/logtail.go:138-156 | after a line feed, the lines of the rest follow on |
| LogTail.NonEmptyAppend | internal/monitor/logtail.go:142-145 | skipping empty lines keeps the order |
| LogTail.FollowLast | internal/monitor/logtail.go:56-69 | following the ticks advances one poll per tick |
| LogTail.FollowQuietFile | internal/monitor/logtail.go:56-69 | a file nobody writes to is followed without an event, whatever errors the reads hit |
| LogTail.StartSkipsOldLines | internal/monitor/logtail.go:38-71 | lines written before `Start` are never sent |
| LogTail.Tagged | internal/monitor/logtail.go:148 | one event per line |
| LogTail.Sink.constructor | internal/monitor/logtail.go:148 | the sink starts with no events |
| LogTail.Sink.Capture | internal/monitor/logtail.go:148-154 | the event is handed over; the error is absent exactly when it is accepted |
| LogTail.LogTailer.constructor | internal/monitor/logtail.go:26-35 | a new tailer starts at offset 0 and polls every 2 seconds |
| LogTail.LogTailer.Start | internal/monitor/logtail.go:38-71 | seeks to the end, polls once per tick, and returns the context's error; the offset and events are those of the reference follow |
| LogTail.LogTailer.PollEach | internal/monitor/logtail.go:56-69 | the ticks' polls, failures only logged, as the reference follow |
| LogTail.LogTailer.SeekToEnd | internal/monitor/logtail.go:74-95 | the offset becomes the file size; a missing file changes nothing and is no error |
| LogTail.LogTailer.CheckAndReadNewLines | internal/monitor/logtail.go:98-178 | the offset, error and events sent are those of the reference poll |
| LogTail.LogTailer.SendLines | internal/monitor/logtail.go:138-156 | every non-empty line goes to the sink, whatever the sink answers |
| Launchd.Domain | internal/daemon/launchd.go:200-206 | "system" exactly when the path starts with /Library/LaunchDaemons/, else "gui/<uid>" |
| Launchd.MonitorLabel | internal/daemon/launchd.go:223 | the daemon's label followed by ".monitor" |
| Launchd.MonitorPlistWithoutSuffix | internal/daemon/launchd.go:224 | a path without ".plist" is unchanged |
| Launchd.MonitorPlistRewritesFirst | internal/daemon/launchd.go:224 | only the first ".plist" becomes ".monitor.plist", so the path differs from the daemon's |
| Launchd.MonitorSameDomain | internal/daemon/launchd.go:200-206 | the monitor's plist is in the daemon's domain |
| Launchd.DefaultDaemonIsSystem | internal/daemon/launchd.go:200-206 | the default daemon plist is in the system domain |
| Launchd.IsRunning | internal/daemon/launchd.go:189-198 | issues `launchctl print`; running exactly when it succeeds; never an error |
| Launchd.BootOutAndRemove | internal/daemon/launchd.go:129-142 | bootout then removal; only a failed removal is an error |
| Launchd.Uninstall | internal/daemon/launchd.go:116-148 | with no plist prints "not installed", issues nothing and returns no error; otherwise boots out and removes, ignoring a bootout failure and returning a removal failure |
| Launchd.UninstallMonitor | internal/daemon/launchd.go:306-339 | the same steps on the monitor agent's plist |
| Launchd.UninstallMonitorLeavesDaemon | internal/daemon/launchd.go:306-339 | when the daemon's plist path contains `.plist`, uninstalling the monitor never removes the daemon's plist and uses the daemon's domain |
| Launchd.UninstallMonitorWithoutSuffixRemovesDaemonPlist | internal/daemon/launchd.go:306-339 | when the daemon's plist path contains no `.plist`, the monitor's plist path is the daemon's, so uninstalling the monitor removes the daemon's plist |

## Left out

- External programs, HTTP, the file system, launchd and the logger are not
  modelled. They are the `Outcome`/`Poll` parameters, oracles and the `Host`
  command log described above. The text of log messages is left out.
- Time is not modelled: the tickers, the five-minute timeouts, the 30-second
  cleanup context and the `time.Sleep` back-offs. A finite sequence of events
  replaces them, and running out of events stands for the timer.
- Concurrency is not modelled:
  - the signal goroutine is a cancellation flag per loop turn;
  - the `vmDone` wait after stopping the VM is left out (its outcome never
    changes the result);
  - the tailer's goroutines are left out.
- Loop.Cycle: a turn's two cancellation flags and the cancellation events of
  its IP and SSH waits are independent inputs, so the model admits turns in
  which a wait was cancelled but the context is not cancelled afterwards.
  Only the lemmas that require `Loop.Coherent` exclude these; the others hold
  for every sequence of turns.
- Vm.VMManager.Cleanup: the outcome of the deferred `tart stop` and
  `tart delete` is ignored, as in the source, so a `tart delete` that fails
  leaves the instance behind. The cleanup lemmas count the delete commands
  issued, not instances actually removed.
- Loop.RunID: the two `rand.Intn(10000)` draws are parameters; randomness is
  not modelled.
- Vm.VMManager.PullImage: `resizeCachedImage` (internal/runner/vm.go:153-215)
  is one outcome. Its disk-size arithmetic and `truncate`/`cp` calls are not
  modelled, and neither are the commands of its temporary VM
  (`truncate_instance`): its `tart clone`, `tart run`, `tart ip`, SSH commands,
  `tart stop` and `tart delete` do not appear in the command log. Its deferred
  `tart stop` and `tart delete` run on the iteration's own context
  (internal/runner/vm.go:175-178), so a cancellation during its boot or waits
  can leave that clone behind. Loop.LoopBalanced and Loop.RunLeavesNoInstances
  count only the runner instance's commands.
- Vm.CachePath: `filepath.Join` is modelled without its lexical clean-up
  (`..`, doubled slashes).
- `ImageExists`, `Clone`, `Stop`, `Delete` and the other commands are issued
  with `exec.CommandContext`. Whether the context is cancelled while a command
  runs is part of the outcome parameter.
- `loop.go:149` calls `ConfigureRunner` with four arguments. `ssh.go:112`
  takes three and names the runner after `cfg.GitHub.RunnerName`. The model
  follows `ssh.go`.
- Logging.TrimAscii: `strings.TrimSpace` is modelled on ASCII white space
  only. The footer works on bytes, and Unicode spaces are not trimmed.
- Logging.ReadLastLogLine: a short `file.Read` is not modelled. The window is
  assumed to be read whole, and a failed open, stat, seek or read is the
  absent content.
- `tickLogTail` (internal/tui/logging.go:17-25) only schedules
  `readLastLogLine` every second. It is not modelled.
- LogTail: the scanner's 64 KiB token limit is the abstract `ScanFault`: the
  number of lines read before the scan failed.
- LogTail.Sink.Capture: the PostHog HTTP call is the oracle `accepts`.
- ConfigForm.Form: the text-input widgets are reduced to their texts. The
  512-character limit, the password echo mode and the cursor/blur state are
  not modelled. Nor is the sanitising `textinput.SetValue` applies (tabs and
  newlines become spaces, other control characters are dropped), so
  ConfigForm.SetGetIdentity holds for the stored texts, not for a field
  holding such characters as the widget would show it. `Update` (internal/tui/config_form.go:70-79) forwards a key to
  the focused widget and is not modelled.
- ConfigForm.NextFocus: keys are the strings bubbletea reports. The model
  does not check that the form has at least one input, and neither does the
  source.
- ConfigForm.Set: `setFieldValue` updates the record in place. It is
  modelled as a function from record to record.
- Menu: the list widget is reduced to its item titles and its size. Item
  delegates, filtering and styling are not modelled.
- `Install`, `InstallMonitor`, `Status` and `StatusMonitor`
  (internal/daemon/launchd.go:28-113, 151-186, 209-303, 342-378) are not
  modelled:
  - they render plist templates and status reports;
  - their launchd decisions reuse `launchctlDomain`, the monitor names and the
    same `launchctl print` probe as `IsRunning`, which are modelled.
- `cmd/daemon.go` calls `Install` with three arguments while `launchd.go:28`
  takes four. That call is outside the model.
- `os.Getuid()` is the parameter `uid`.
- `internal/tui/app.go` repeats older copies of the logging and form helpers.
  Those copies are not modelled; `logging.go` and `config_form.go` are.
- `config.go` loading through viper and `config_io.go` file I/O are not
  modelled. `defaultConfig` (internal/tui/config_io.go:36-57) is the constant
  `Config.DefaultConfig`.
