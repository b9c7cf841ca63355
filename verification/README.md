# Verified model of contextq-server

contextq-server puts the contextq command-line tool behind an HTTP endpoint. It keeps namespaces and
access keys in files that many processes read and change at once, runs contextq for authenticated
requests with bounded output, and is installed and administered over SSH by a controller. This
project models those parts in Dafny and proves what they promise.

`dafny verify dfyconfig.toml` checks everything.

## Structure

| file | models |
|---|---|
| `Text.dfy` | the string functions of Go's standard library that the server uses |
| `Token.dfy` | key tokens: printing, both key-ID parsers, the Authorization header |
| `Paths.dfy` | namespace names and directories, with a lexical model of `filepath.Clean` and `Join` |
| `KeyList.dfy` | the list of key records: duplicate scan, filter loop, first-match scan, and the map it stands for |
| `History.dfy` | serial histories of that list |
| `Protocol.dfy` | any number of concurrent store calls, one system call a step, with failures, process crashes and power loss |
| `Invariant.dfy`, `Preservation.dfy` | the inductive invariant of the protocol and its preservation by every step |
| `Guarantees.dfy`, `Convergence.dfy` | what follows for callers, and what a failure-free run reaches |
| `Draws.dfy` | where a reported key comes from, over every run |
| `Durability.dfy`, `Revocation.dfy` | which directory syncs a namespace and a revocation need in order to last |
| `Returns.dfy`, `Failures.dfy`, `Counterexamples.dfy` | how calls return, which failed calls have made their change, and runs that show where the promises end |
| `Store.dfy`, `Linear.dfy` | the store as a class, one call at a time, over all namespaces; and the steps of the protocol as such calls |
| `Shell.dfy` | shell quoting against a lexer for the shell language |
| `Output.dfy`, `Responses.dfy`, `Exec.dfy`, `Requests.dfy` | captured output, the endpoint's responses and gate, all requests around the semaphore |
| `Controller.dfy` | the administration commands on saved targets and on the server's files |
| `Bootstrap.dfy` | the bootstrap as steps on a host |
| `Script.dfy`, `ScriptReader.dfy`, `ScriptLines.dfy`, `Unit.dfy` | the text of the bootstrap script: the parts that carry fields, the whole as a shell reads it, its lines without fields word by word, and the files in it as systemd and Caddy read them |
| `ScriptRun.dfy`, `ScriptSteps.dfy`, `ScriptOutcome.dfy` | a shell that runs that text on a host, and why a run of it is the bootstrap |

SHA-256, Unicode case folding, JSON validity and the error code of a JSON body are function
parameters: every result holds whatever they compute. Random bytes, clocks, failures, crashes, the
output of a child process and the interleaving of steps are choices of the environment.

## What the model found

* `Init` that finds both files in place reports success without a directory sync. If their writer
  died before its own sync, a power loss can take away a namespace that was reported as initialised.
  It survives everything that may happen later if and only if some directory sync of the run covered
  both files (`Durability.ReportedSurvives`), and its creation time is final if and only if one
  covered `namespace.json` (`Durability.CreationTimeStable`). `Counterexamples` holds the runs.
* An error return of `IssueKey` or `RevokeKey` may have committed its change: it has if and only if
  the failure came after the rename (`Failures.FailedCallsCommitExactly`).
* A revocation takes effect with its rename, but until a directory sync has covered that version a
  power loss brings the revoked key back, and later readers accept it again
  (`Revocation.RevocationCanBeUndone`). `Revocation.RevocationLasts` says exactly when it is final; one
  that was reported as a success is (`Revocation.ReportedRevocationHolds`).
* `IssueKey` does not look for ID collisions: a token that was reported as issued can be rejected from
  the start (`Counterexamples.ReportedTokenCanBeRejected`); `Counterexamples.FirstUse` and
  `KeyList.AcceptedAfterIssue` say exactly when.
* The two key-ID parsers differ on exactly the tokens with an empty third or fourth part
  (`Token.ParsersAgree`).
* An empty write to a full `boundedBuffer` marks it truncated although nothing is lost
  (`Output.EmptyWriteMarks`; the exact condition is `Output.OverflowMeaning`). `os/exec` makes none.
* The client cuts a response at 4 MiB without saying so. Output is printed whole exactly if it fits;
  it always does when the server's limit is no larger (`Exec.ExecuteAndPrint`).
* Revoking a key through one target leaves a dead key in every other target of the namespace that
  saved it (`Controller.SharedKeyIsOrphaned`), and in this one if the controller does not learn of the
  success or cannot write its configuration. A key saved under an ID that was taken is dead from the
  start. `Controller.DoAgreesExactly` shows that there is no other way to lose agreement.
* A run of the bootstrap script that dies while it appends to the Caddyfile is not repaired by the
  next one, unless nothing or all of the text was written (`Bootstrap.ConvergesAfterTornAppend`).
* Caddy's files are validated only after they, the binaries and the unit have been replaced and the
  service restarted: a script that fails there leaves all of it changed and Caddy on its old
  configuration (`ScriptOutcome.ScriptIsBootstrap`), until a run that Caddy accepts (`Bootstrap.ConvergesAfterPrefix`).

## Model

| member | source | states |
|---|---|---|
| Guarantees.SerialHistory | internal/namespace/store.go:183-217 | in every reachable state, for any interleaving, failure, crash or power loss: the versions of `keys.json` form a serial history; a version is appended exactly when a call renames its key file, and it is that call's effect (the empty list, one key under the given label, or the removal of the given ID); only a power loss takes back versions, never durable ones |
| Guarantees.ReportsAreKept | internal/namespace/store.go:212-218 | in every reachable state every change that was reported as a success is in the history as what was reported, is durable, and was reported in the order of versions |
| Preservation.NextInv | internal/namespace/store.go:95-135 | every step of every call, and every failure, crash and power loss, keeps the invariant that ties locks, pending writes, published files and reported results together |
| Preservation.NoRival | internal/namespace/store.go:415-426 | two different locks suffice: when a call has decided on a write, no other call has, and no call holding the other lock can lose its change to it |
| Guarantees.InitNeverOverwrites | internal/namespace/store.go:108-133 | while an `Init` is about to write the empty key file there is no key file, and no issue or revocation is past its read |
| Guarantees.RecoveryIsConsistent | internal/namespace/store.go:376-413 | after a power loss the names refer to complete files of the right namespace, and every change reported as a success is in the history that is found |
| Guarantees.WritersAreDurable | internal/namespace/store.go:404-412 | a call that wrote the key file itself leaves both files durable when its directory sync succeeds |
| Guarantees.DurableForever | internal/namespace/store.go:404-412 | once durable, both files exist in every later state of every run |
| Durability.ReportedSurvives | internal/namespace/store.go:126-132 | over every run: a reported namespace with its key file is there, unchanged, after whatever happens later if and only if some earlier step synced the directory when it held both files |
| Durability.CreationTimeStable | internal/namespace/store.go:110-121 | over every run: after a report of `Init` that still stands, some later call can report another creation time if and only if no step synced the directory when it held `namespace.json` |
| Durability.BothDurable | internal/namespace/store.go:404-412 | both files are durable if and only if one directory sync of the run covered both |
| Counterexamples.ReportedNamespaceCanVanish | internal/namespace/store.go:110-132 | a reachable state in which `Init` has reported success and a power loss removes both files |
| Counterexamples.CreationTimesCanDiffer | internal/namespace/store.go:117-121 | a run in which two successful calls of `Init` for one namespace report different creation times, after such a loss |
| Counterexamples.FailureMayHaveCommitted | internal/namespace/store.go:404-412 | a call that fails after its rename reports an error although its change is made: an issued key is in the key file, and a revoked ID is not |
| Failures.FailedCallsCommitExactly | internal/namespace/store.go:404-412 | over every run: an issue or revocation that returns an error has renamed its file if and only if its failure came after the rename, and then its change is in the history |
| Counterexamples.FirstUse | internal/namespace/store.go:194-216 | from every quiet reachable state `IssueKey` reports success for a free label, and its token is then accepted if and only if its ID was not in use or the first key with the ID has the same digest |
| Counterexamples.ReportedTokenCanBeRejected | internal/namespace/store.go:194-216 | a run in which `IssueKey` reports success for a token that `Authenticate` then rejects, because the ID was drawn before |
| Guarantees.InitsAgree | internal/namespace/store.go:107-121 | successful calls of `Init` in the same epoch report the same namespace, creation time included |
| Guarantees.EpochEnds | internal/namespace/store.go:117-121 | an epoch ends only when a power loss removes a metadata file that no directory sync had covered |
| Guarantees.AuthenticateIsAtomic | internal/namespace/store.go:266-295 | whatever happens between the open of the key file and the answer, the answer is the verdict of the version current at the open, and never a corrupt file |
| Guarantees.RevocationIsImmediate | internal/namespace/store.go:280-294 | for a revocation that is in the present history: a reader that opened its version or a later one has rejected every token with the ID, unless the ID was issued again before |
| Revocation.RevokedIsRejected | internal/namespace/store.go:249-262 | over every run from the rename of a revocation on: each `Authenticate` that had not opened the key file by then rejects every token with the ID, until the ID is issued again or a power loss takes that version away |
| Revocation.RevocationLasts | internal/namespace/store.go:404-412 | a revocation is in the history from its rename on while no power loss takes its version away, and in every future if and only if some step since its rename synced that version |
| Revocation.RevocationCanBeUndone | internal/namespace/store.go:404-412 | right after every such rename a power loss is possible that brings the key back and makes readers answer as before the revocation |
| Revocation.ReportedRevocationHolds | internal/namespace/store.go:239-264 | a revocation that was reported as a success is in the history of every later state |
| Guarantees.IssuedKeysAuthenticate | internal/namespace/store.go:202-216 | with a fresh ID, a reader that opens the file after the issue accepts the token exactly if no revocation of the ID lies between, and then returns the issued record without its digest |
| Guarantees.LabelsUnique | internal/namespace/store.go:172-192 | in every version in every reachable state all labels are trimmed, valid and pairwise different up to case |
| Guarantees.OneKeyPerLabel | internal/namespace/store.go:188-192 | of two reported issues under labels equal up to case, the first key was revoked between them |
| Convergence.ExactlyOneWins | internal/namespace/store.go:183-219 | of any number of concurrent issues under labels equal up to case, with no failure and no revocation and the label free at the start, exactly one succeeds and the others report a duplicate label |
| Convergence.InitCompletes | internal/namespace/store.go:95-135 | from every point of `Init`, a call that meets no failure returns success with the full layout, keeping the keys and the namespace that were there |
| Convergence.ReinitConverges | internal/namespace/store.go:95-135 | from every reachable state with the lock free, and so from every crash of an earlier call, a new `Init` does the same, and reports the namespace that was there or the one it made |
| Convergence.NoCallNoLock | internal/namespace/store.go:415-426 | when no call is alive both locks are free |
| Returns.EveryCallCanReturn | internal/namespace/store.go:415-426 | nothing deadlocks: in every reachable state every live call can be brought to return without a failure, by letting at most the holder of its lock go first |
| Returns.RefusalsAreRight | internal/namespace/store.go:172-263 | every error a call returns is due to a failure it met, or was true of the version of the files current at a step it made; no call finds a corrupt file or foreign metadata |
| Linear.StepsAreCalls | internal/namespace/store.go:183-217 | every step but a power loss leaves the files as they are or is a rename that has the effect and the answer of the call run on its own on the files of that moment: the contracts of the class |
| Linear.RefusalsAreCalls | internal/namespace/store.go:172-193 | a refused call is refused with the error that the call run on its own meets on the files of the moment in which it looked |
| Linear.AuthenticateIsCall | internal/namespace/store.go:266-295 | `Authenticate` answers as the call run on its own does on the files of the moment in which it opened the key file, whatever happens before its answer |
| Linear.InitFinds | internal/namespace/store.go:110-132 | an `Init` that finds everything in place answers as the call run on its own, which changes nothing |
| History.LabelsWellFormed | internal/namespace/store.go:310-320 | every version of a serial history has trimmed, valid, pairwise different labels |
| History.StaysUntilRevoked | internal/namespace/store.go:249-257 | a record leaves the list only by the revocation of its ID |
| History.SameLabelNeedsRevocation | internal/namespace/store.go:188-192 | between two issues under labels equal up to case the first key was revoked |
| History.RejectedAfterRevocation | internal/namespace/store.go:280-294 | after a revocation every token with the ID is rejected until the ID is issued again |
| History.AcceptedUntilRevoked | internal/namespace/store.go:280-294 | with fresh IDs a token is accepted by exactly the versions from its issue up to its revocation |
| Text.TrimSpaceMeaning | internal/namespace/store.go:173 | trimming a label takes away nothing but space, on both sides |
| Text.FieldsMeaning | internal/api/server.go:157 | fields are not empty, hold no space, and together are all that is not space, in order |
| KeyList.HasLabel | internal/namespace/store.go:188-192 | the duplicate scan finds exactly the labels that are in use up to case |
| KeyList.ValidLabelMeaning | internal/namespace/store.go:310-320 | a label is valid if and only if it has 1 to 120 bytes of UTF-8 and no character of the two control blocks |
| KeyList.Filter | internal/namespace/store.go:249-260 | the filter loop computes the list without the ID and reports exactly whether it was there |
| KeyList.WithoutKeepsOrder | internal/namespace/store.go:249-257 | that list is the subsequence of exactly the records with other IDs, in their old order |
| KeyList.FindKey | internal/namespace/store.go:279-294 | the scan answers by the first record with the ID, compares its digest, and blanks the digest it returns |
| KeyList.VerdictIsLookup | internal/namespace/store.go:279-294 | that answer is a lookup in the map of the list and a comparison of digests |
| KeyList.AppendInserts | internal/namespace/store.go:206-211 | appending a record inserts one binding when its ID is fresh and changes no lookup otherwise |
| KeyList.FilterRemoves | internal/namespace/store.go:249-261 | revoking an ID removes exactly its binding |
| KeyList.RecordMatches | internal/namespace/store.go:202-211 | the stored digest and ID of an issued key are those its token is checked against |
| KeyList.AcceptedAfterIssue | internal/namespace/store.go:194-216 | a token is accepted right after its issue if and only if its ID was not in use or the first record with it holds the same digest |
| Store.NewStore | internal/namespace/store.go:65-74 | refuses exactly a blank root, and a relative one when the working directory is unknown; otherwise the root is the cleaned absolute path |
| Store.Store.WriteAtomic | internal/namespace/store.go:376-413 | only the target changes, to the whole new document, and only if the rename was reached; the temporary name is gone |
| Store.Store.Init | internal/namespace/store.go:95-135 | wherever its directories or its two writes fail: no file that is there is changed, success leaves both files and reports the metadata on disk, and answer and files are the specified ones for every failure |
| Store.InitKeeps | internal/namespace/store.go:107-134 | however far it gets, `Init` adds no file but its two and changes no namespace's keys |
| Store.Store.IssueKey | internal/namespace/store.go:172-219 | refuses with the right error and no change, or appends one record to this namespace only, or fails before or after the rename; after a success the last record has the label trimmed, the time of the call, an ID and a token spelled out from the bytes drawn, and the digest of that token |
| Draws.ReportedKeysWereDrawn | internal/namespace/store.go:194-215 | over every run, each key that was reported as issued carries the label its call was given, and the time and bytes of the step in which that call decided, spelled out, with the digest of the reported token |
| Store.Store.RevokeKey | internal/namespace/store.go:239-264 | refuses with the right error and no change, or removes the ID from this namespace only, or fails before or after the rename |
| Store.Store.Authenticate | internal/namespace/store.go:266-295 | changes nothing and gives the answer of the specification, with its distinct error cases |
| Store.Store.ListKeys | internal/namespace/store.go:221-237 | returns every record, with its digest blanked by an in-place loop over a copy, oldest first |
| Store.IssueInserts | internal/namespace/store.go:206-214 | issuing changes one binding of one namespace's map; every other namespace's map is the same |
| Store.RevokeRemoves | internal/namespace/store.go:249-262 | revoking removes one binding of one namespace's map; every other namespace's map is the same |
| Store.AuthenticateIsLookup | internal/namespace/store.go:266-295 | authentication succeeds with a record if and only if the namespace exists and its own map binds the token's ID to that record with the token's digest |
| Store.OthersUntouched | internal/namespace/store.go:80-85 | rewriting one namespace's key file leaves the keys of every other one as they were |
| Store.MetadataNamed | internal/namespace/store.go:107-110 | the metadata of a namespace is `namespace.json` in its directory |
| Store.KeysNamed | internal/namespace/store.go:183-184 | its keys are in `keys.json` |
| Store.VersionsRead | internal/namespace/store.go:345-357 | key files are written with version 1, and no other version is read |
| Paths.NamespaceIsChild | internal/namespace/store.go:80-85 | for a clean absolute root every accepted name is a direct child of it, spelled root, slash, name |
| Paths.NamesAccepted | internal/namespace/store.go:34 | every name of up to 63 letters, digits, dots, underscores and dashes that starts with a letter or digit is accepted |
| Paths.NamespacesDisjoint | internal/namespace/store.go:34 | the directories of distinct names are not prefixes of each other |
| Paths.ContextqInside | internal/namespace/store.go:87-93 | the command's data root lies strictly inside its own namespace's directory |
| Paths.FilesDisjoint | internal/namespace/store.go:80-93 | a file of one namespace is never a file of another |
| Paths.CleanIdempotent | internal/namespace/store.go:65-74 | cleaning a path twice changes nothing more |
| Token.HexRoundTrip | internal/namespace/store.go:202 | hexadecimal encoding is inverted by the decoder of section 8 of RFC 4648, and contains no separator |
| Token.B64RoundTrip | internal/namespace/store.go:203 | unpadded base64url is inverted by the decoder of sections 5 and 3.2 of RFC 4648 |
| Token.HexDigits | internal/namespace/store.go:202 | each byte is written as two digits, the high one first |
| Token.HexAlphabet | internal/namespace/store.go:202 | the digits are those of table 5 of RFC 4648, in lower case |
| Token.B64Alphabet | internal/namespace/store.go:203 | the alphabet is that of table 2 of RFC 4648 |
| Token.SextetsInOrder | internal/namespace/store.go:203 | three bytes and their four sextets are the same 24 bits |
| Token.PrintScan | internal/namespace/store.go:202-203 | scanning a printed token gives back its ID and secret bytes |
| Token.PrintInjective | internal/namespace/store.go:202-203 | different IDs or secrets print differently |
| Token.StoreKeyIdMeaning | internal/namespace/store.go:322-328 | the store's parser accepts exactly `cqk_k_<mid>_<rest>` with both parts present and no underscore in the first, and returns `k_<mid>` |
| Token.PrintedKeyId | internal/app/remote.go:584-590 | both parsers recover the ID of every issued token, even when its secret's encoding holds underscores |
| Token.ParsersAgree | internal/app/remote.go:584-590 | the controller's parser agrees with the store's on all tokens that one accepts, and the tokens on which they differ are exactly characterised |
| Token.BearerRoundTrip | internal/api/server.go:156-162 | the header that the client sends is read back as the key if and only if the key is not empty and holds no space |
| Token.BearerTokenMeaning | internal/api/server.go:156-162 | for every header: it yields a token if and only if it has two fields of which the first is the scheme in any case, and the token is the second |
| Token.PrintedIsB64Token | internal/app/remote.go:393 | every issued token is a b64token of section 2.1 of RFC 6750 and survives the header |
| Shell.ShellCommand | internal/remote/command.go:99-105 | the loop builds the specified text, which the shell splits into exactly the arguments when none holds NUL |
| Shell.CommandRoundTrip | internal/remote/command.go:95-105 | lexing the command line gives exactly the arguments, for all strings; it cannot be read if and only if an argument holds NUL |
| Shell.CommandInjective | internal/remote/command.go:95-105 | different argument lists give different command lines |
| Shell.AndListRoundTrip | internal/app/remote.go:462-466 | commands joined with `&&` are read back as the same list of commands; the line cannot be read if and only if an argument holds NUL |
| Shell.AssignmentRoundTrip | internal/setup/bootstrap.go:127-129 | `NAME='...'` is read as one assignment of exactly the original value, and cannot be read if and only if the value holds NUL |
| Output.BoundedBuffer.constructor | internal/api/runner.go:47-48 | a new buffer is empty and not marked |
| Output.BoundedBuffer.Write | internal/api/runner.go:77-90 | reports the full length of every write, and keeps the buffer the first `limit` bytes of all writes, however they are cut |
| Output.BoundedBuffer.Bytes | internal/api/runner.go:92-96 | returns the first `limit` bytes of everything written |
| Output.OverflowMeaning | internal/api/runner.go:77-87 | the mark is set if and only if the total exceeds the limit or the last write met a full buffer |
| Output.OverflowIsLoss | internal/api/runner.go:77-87 | with non-empty writes the mark says exactly that bytes were lost |
| Output.EmptyWriteMarks | internal/api/runner.go:79-82 | an empty write to a full buffer sets the mark without losing a byte |
| Output.RunCommand | internal/api/runner.go:28-69 | the limit error occurs exactly if an output exceeds the normalised limit; otherwise the result carries both outputs whole and each other outcome is exactly characterised |
| Exec.ValidateArgs | internal/api/server.go:164-212 | accepts exactly the argument lists of an allowed command, within the limits, without NUL and without a controlled flag before `--`; each error names its cause, and the first offender where there is one |
| Exec.ControlledFlags | internal/api/server.go:201-204 | the flags that belong to the server are exactly six, and three of them with any value |
| Exec.ControlledValuesRefused | internal/api/server.go:193-206 | whatever its value, such a flag before `--` is refused |
| Exec.CommandsOffered | internal/api/server.go:168-187 | exactly ten commands are offered |
| Exec.ExecuteAndPrint | internal/app/remote.go:400-406 | the client prints exactly for successful, complete, valid output, byte for byte if and only if it fits 4 MiB, and always with the default limit; it gets no response exactly when it has gone, 504 exactly for a timeout, and what contextq itself reported with 404, 409 or 400 exactly for the codes of each, and 502 for every other code and for none |
| Exec.RunnerIsGated | internal/api/server.go:75-130 | over every run the runner is only called for requests whose header has the scheme and a token of a key that their own namespace had at the moment of authentication: the first key with the token's ID holds the digest of that whole token; and only with acceptable arguments, in that namespace's directory |
| Exec.CarriesKeyIsAuthenticate | internal/api/server.go:82-88 | a request carries such a key if and only if the store's own `Authenticate` accepts its token on the files that show those keys |
| Exec.AuthenticationDecides | internal/api/server.go:77-88 | a request that carries a key of its readable namespace is admitted without a response; every other request is answered with 401 and ends |
| Exec.CheckDecides | internal/api/server.go:90-106 | an admitted request goes on if and only if its body was read and its arguments are acceptable, and is otherwise answered with 400 |
| Exec.WaitingStarts | internal/api/server.go:119-130 | a waiting request can start if and only if a permit is free, and then the runner is called in its namespace's directories with its arguments; one that gives up is answered with 503 |
| Exec.GoodRequestRuns | internal/api/server.go:75-130 | from every state with a free permit, a request that carries a key and has acceptable arguments reaches the runner with no response before |
| Exec.PermitsWithin | internal/api/server.go:119-127 | over every run no more commands run at once than configured, or 32 |
| Exec.SilentOnlyForTheGone | internal/api/server.go:129-154 | over every run a finished request has had one response, or none if and only if the runner was called for it and reported cancellation |
| Requests.SemaphoreBounds | internal/api/server.go:119-127 | over every interleaving the permits in use are the requests between acquire and return, at most the capacity, and none when all are finished |
| Requests.OneAnswerEach | internal/api/server.go:75-154 | every finished request has had exactly the answer that belongs to what the runner returned for it, or exactly one refusal if the runner was not called, and 401 if it was not authenticated |
| Requests.CallsAreGated | internal/api/server.go:108-130 | every call of the runner has the directories and arguments of a request that was authenticated, at some earlier event, against the keys its own namespace had then |
| Controller.RunAgrees | internal/app/remote.go:248-314 | over every run of `remote-init`, `remote key add` and `remote key revoke` with one target a namespace and no taken ID, each saved key stays empty or accepted; commands may fail anywhere, a revocation only before its change |
| Controller.DoAgreesExactly | internal/app/remote.go:248-357 | wherever server or controller fail, and whatever ID is drawn: a command keeps agreement if and only if it neither revokes a key that some target still saves afterwards nor saves a key whose ID was taken |
| Controller.FreshNeverCollides | internal/app/remote.go:546-556 | a command that draws an ID which is not in use never saves a taken one |
| Controller.SharedKeyIsOrphaned | internal/app/remote.go:346-357 | a state with agreement in which a wholly successful revocation leaves another target with a dead key |
| Controller.RevokeAgreesExactly | internal/app/remote.go:346-357 | after a revocation that took effect the saved keys are all accepted if and only if the revoked one was saved in no target but this one, and its success was learned of and written |
| Controller.InitIssuesOnlyWithoutKey | internal/app/remote.go:245-263 | `remote-init` adds exactly one key, to its target's namespace, if none is saved there and initialisation and issue get that far, and otherwise changes no namespace's keys; for every ID drawn |
| Controller.Admin.RemoteKeyAdd | internal/app/remote.go:546-556 | every saved key that was accepted stays accepted, even when the call fails on either side of its change; if it succeeds, the store accepts the printed token if and only if its ID was not taken |
| Controller.Admin.KeyAdd | internal/app/remote.go:287-319 | carried out on the store, whatever fails: with `--no-save` no target changes; otherwise only this target's key does, to the token just printed, and exactly if all went well. The command keeps agreement, and the key it saves is accepted, if and only if it saves none whose ID was taken |
| Controller.Admin.KeyRevoke | internal/app/remote.go:336-359 | carried out on the store: no target changes but this one, whose key is cleared exactly if it is the revoked one and all went well. The command keeps agreement exactly if no target is left with the revoked key; after a success its own target is not, and the store has no key with the ID |
| Controller.Admin.RemoteInit | internal/app/remote.go:245-264 | carried out on the store, whatever fails: the part of `remote-init --apply` after the bootstrap script changes no target but its own, and that one's key only if none was saved, to the token just issued. It keeps agreement if and only if it saves no key whose ID was taken; after a success the target has a key, which the store accepts exactly then if there was agreement before |
| Controller.AddChangesTargets | internal/app/remote.go:307-314 | the saved targets after `remote key add`: this target's key is replaced by the printed token exactly if saving was asked for and nothing failed |
| Controller.InitChangesTargets | internal/app/remote.go:245-263 | the saved targets after `remote-init`: the key is filled in exactly if there was none and nothing failed |
| Controller.KeysAfterCommand | internal/app/remote.go:287-357 | every namespace's keys after `remote key add` and `remote key revoke`: one more at the end, or all but one ID, in the target's namespace only, and only if the server got that far |
| Bootstrap.FullIsFinal | internal/setup/bootstrap.go:97-122 | a full run takes every host to one final state, given in closed form |
| Bootstrap.ConvergesAfterPrefix | internal/setup/bootstrap.go:97-122 | a full run after any prefix of a run, even with other binaries, ends where a single full run does |
| Bootstrap.ConvergesAfterTornWrite | internal/setup/bootstrap.go:101-110 | the same when the first run died while writing any of its `.new` files |
| Bootstrap.ConvergesAfterTornAppend | internal/setup/bootstrap.go:111-112 | when it died while appending the import line, a full run ends where a single one does if and only if nothing or all of the text was written |
| Bootstrap.ConvergesAfterKill | internal/setup/bootstrap.go:85-88 | the same when the first run could not clean up, but for its own uploads |
| Bootstrap.NothingLeftBehind | internal/setup/bootstrap.go:101-110 | a full run leaves no `.new` file and no upload, installs the four files, changes no other file but the Caddyfile, and adds exactly one group, one user and the script's directories |
| Bootstrap.RunsAreIdempotent | internal/setup/bootstrap.go:111-112 | n runs end where one does, and append the import line once if it was missing and never if it was there |
| Script.HereDocRoundTrip | internal/setup/bootstrap.go:106-111 | by section 2.7.4 of the POSIX.1-2017 Shell Command Language a document is read back as written if and only if none of its lines is the delimiter |
| Script.UnitRoundTrip | internal/setup/bootstrap.go:106-107 | for single-line fields the shell writes exactly the intended unit and goes on behind it |
| Script.SnippetRoundTrip | internal/setup/bootstrap.go:110 | the same for the Caddy snippet |
| Unit.UnitMeaning | internal/setup/bootstrap.go:106-107 | read line by line, the unit sets user, group, working directory and writable path once each, to the target's, and starts the server with exactly the eight intended arguments |
| Unit.SnippetMeaning | internal/setup/bootstrap.go:110 | read line by line, the snippet hands the site to the address the server listens on |
| Script.BlockRoundTrip | internal/setup/bootstrap.go:75-88 | a block of assignments is read back as exactly its names and values, and cannot be read if and only if a value holds NUL |
| Script.VariablesRoundTrip | internal/setup/bootstrap.go:75-88 | every variable of the script ends up with the value it was generated from, for all values without NUL |
| ScriptReader.ReadRendered | internal/setup/bootstrap.go:106-111 | a script is read back line by line: every here-document whole, and no line inside one as a command |
| ScriptReader.ScriptRoundTrip | internal/setup/bootstrap.go:71-124 | around any lines that open no document and assign nothing, a shell finds both documents in the one text of a script and works with exactly the fields it was generated from |
| ScriptLines.FixedAreOrdinary | internal/setup/bootstrap.go:72-123 | the lines of the script that hold no field, as they are, are such lines |
| ScriptLines.BootstrapScriptRoundTrip | internal/setup/bootstrap.go:71-124 | a shell that reads the script as it is generated finds both documents in it and works with exactly the fields it was generated from; what its lines do is stated by `ScriptOutcome` |
| ScriptReader.AssignmentOpensNothing | internal/setup/bootstrap.go:75-88 | an assignment opens no here-document, whatever its value |
| ScriptReader.OrdinaryLine | internal/setup/bootstrap.go:90-123 | a line without an equals sign that opens no document assigns nothing |
| ScriptRun.SplitSpelled | internal/setup/bootstrap.go:90-123 | a shell splits a line of the script into exactly the words it is spelled with |
| ScriptRun.TokensMeant | internal/setup/bootstrap.go:90-123 | those words come to what was meant: operators, text, and variables expanded with their suffixes |
| ScriptOutcome.ScriptPerformsSteps | internal/setup/bootstrap.go:71-124 | on every host with the uploads, a shell that runs the text of the script, line by line, ends where the steps of the bootstrap end, performed in their order; up to the validation if Caddy refuses its files |
| ScriptOutcome.ScriptIsBootstrap | internal/setup/bootstrap.go:71-124 | with its trap, a run of the text exits with 0 and leaves the closed-form final state of the bootstrap, or exits with 1 and leaves what a run that stops at the validation leaves |
| ScriptOutcome.ScriptInstalls | internal/setup/bootstrap.go:71-124 | in terms of the fields alone: after a run of the text the host has both binaries, the unit, the snippet and the import line in their places, no uploads, and the service and Caddy running on them |

## Left out

- contextq itself, how it reads its arguments, and what it keeps in its own data root.
- HTTP, TLS, JSON syntax, logging, timers, signals, graceful shutdown, SSH and SCP processes: they appear as outcomes or choices of the environment.
- JSON is a faithful encoding of a complete file; a file that does not parse is one value, `Torn`.
- Temporary names are never reused, and temporary files that a crash leaves behind are not counted as files of the store.
- Opening a lock file, creating its directory, `chmod` and closing a file are not steps of their own; their failures are failures of the neighbouring step.
- The entry of the namespace directory in the data root is taken to be durable; only renames inside it can be lost.
- Under its lock a writer opens and reads a file in one step; no other step could come between with an effect on it.
- `Store.List`, which reads the metadata of every namespace; of `ListKeys`, the order of keys of one age, which the library's sort leaves open.
- Labels are sequences of Unicode scalar values; invalid UTF-8 is not modelled.
- The shell lexer gives up on double quotes, expansions and command substitution, which quoted words never contain; a digit before a redirection is not told from a word.
- Option defaults, validation and the derived fields (snippet path, import line, staging directory, site) in `BootstrapScript`: its fields are any single lines.
- ScriptReader.ScriptRoundTrip: a quotation that spans lines is not read, and a trailing comment is scanned as text; the script has neither.
- In a run of the script's text: file modes and owners, the checks for root and for the commands it needs, which are presumed to succeed, and the loop around the latter; a command that fails for a reason of its own ends a run, which is then a prefix of it.
- systemd's own escapes in the unit's arguments: they are split at blanks.
- Controller.RunAgrees: one server and the keys of its targets; the steps of one command are not interleaved with those of another controller.
- Requests.OneAnswerEach: that a request is ever answered depends on the runner and the deadline, and is not stated.
- `remote namespace init`, `remote key list`, `doctor`, `SSHArgs`, `SCPArgs`, binary inspection, version output and flag parsing: they would add only easy members.
