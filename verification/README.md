# OpenZCode: verified models

This project models the parts of OpenZCode where correctness depends on more than one
function, and proves what they promise.

| part | files | question answered |
|---|---|---|
| Cron expressions | `calendar`, `cron`, `cronwindow` | which minute `nextRun` returns, and for which expressions it always finds one |
| Automation scheduler | `scheduler`, `tick`, `claimonce`, `fireonce`, `runaccounting` | what several processes that tick on one store can and cannot do |
| MCP regression gates | `json`, `keys`, `reviewgate`, `compliancegate`, `…proofs`, `complianceexample` | the gates as preorders, and compaction that does not change verdicts |
| Release publishing | `publish`, `publishproofs`, `publishrun`, `publishcrash` | consistency of channel keys under crashes, reruns and concurrent attempts |
| Memory store | `text`, `memoryformat`, `memory`, `memorystore` | the index always lists exactly the memory files; printed files read back |
| Layered roles | `roles` | a closed form of the layer fold |
| Module checksums | `bazelfields`, `bazeltokens`, `bazelsha`, `bazelinsert`, `bazelblocks`, `bazelmodule`, `bazelupdate`, `bazelblank` | exactly when an update passes the check, and what it leaves alone |
| Kernel bridge | `bridge`, `bridgeclass` | requests, approvals and tool events over every run |
| Smaller parts | `wrapperargs`, `difflines`, `templates`, `versions`, `releases` | a fixpoint, a counter, a substitution, a version round trip |

Code that changes state step by step is written as classes and loops and proved against
functions; code made of expressions is written as functions. The theorems are about those
functions, and about runs of them.

## Where the code differs from what is said about it

- **Double firing.** The claim by compare-and-set is described as preventing double fires
  (`packages/cli/src/automations.js:77-81`, `README.en.md:160`). The bookkeeping write after
  the claim is unconditional. If it lands after another process has claimed the new time,
  it puts that claimed time back, and the time is claimed and fired again:
  `ClaimOnce.DoubleFire` is such a run. `ClaimOnce.OvertakenWriteRevives` says exactly which
  writes put a claimed time back, `ClaimOnce.RevivedIsClaimedAgain` that such a time can be
  claimed again, and `FireOnce.ClaimedAndFiredAtMostOnce` that without such a write every
  time is claimed and fired at most once.
- **Search window.** The comment at `packages/cli/src/cron.js:108` speaks of about two
  years; the code searches 366 days. `CronWindow.AlwaysFound` says for which expressions
  that is enough, whatever the start.
- **Repeated checksum update.** Updating a module file twice is not always the same as
  updating it once: where a checksum was inserted before a blank line, the second update
  drops the blank line (`BazelBlank.BlankLineLost`). `BazelUpdate.UpdateThenCheck` gives
  the exact condition.
- **Checksums that are not lower-case hex.** The update replaces only lower-case hex, the
  check reads any quoted value. Where the first checksum is not lower-case hex and is in
  front of the path, an update that succeeds does not pass the check
  (`BazelBlank.EarlyChecksumStays`). `BazelUpdate.UpdateThenCheck` gives the exact condition
  here too.
- **Placeholders in arguments.** The placeholders of a command template are replaced one
  after the other, so an argument can be substituted again. `Templates.HarmlessIsExact`
  says for which arguments this makes no difference after any of the replacements.
  The final text alone can be right for more arguments (`Templates.OnlyTheWayIsWrong`);
  `Templates.FinalIsExact` says for which, as long as no value ends in a `$` that a later
  replacement could complete.
- **Skipped checks.** A compliance report whose coverage rests on skipped checks is valid
  and can be compacted, and the compact baseline is then rejected
  (`ComplianceExample.SkippedDoesNotRevalidate`).
- **Run counts.** A tick that reads a row before the bookkeeping of an earlier run counts
  both runs as one (`RunAccounting.Undercounted`), even where nothing fires twice.
- **Wrapper arguments.** Parsing and building again changes nothing unless the manifest
  path that is inserted is `--` (`WrapperArgs.WrapperFixpoint`).

## Model

| member | source | states |
|---|---|---|
| Calendar.DateOf | packages/cli/src/cron.js:90-94 | the date of a day is valid and is the one with that day number |
| Calendar.DateOfDayNumber | packages/cli/src/cron.js:90-94 | every valid date is the date of its own day number, so the two are inverse |
| Calendar.YearLength | packages/cli/src/cron.js:90-94 | consecutive years are 365 or 366 days apart, by the Gregorian leap rule |
| Calendar.MonthStartNextYear | packages/cli/src/cron.js:108 | how far apart the same day of two consecutive years is |
| Cron.Add | packages/cli/src/cron.js:17-21 | the loop adds exactly the numbers from start to end in steps, each reduced for Sunday |
| Cron.CollectParts | packages/cli/src/cron.js:22-37 | the comma-separated parts are all accepted or the first bad one is an error, and the set is their union |
| Cron.ParseField | packages/cli/src/cron.js:14-39 | a field is accepted exactly when every part is, with the union of the parts as values |
| Cron.ParseFieldSafe | packages/cli/src/cron.js:53-67 | month-name lists take their own branch, all other fields the general one |
| Cron.ParseCron | packages/cli/src/cron.js:70-88 | an expression parses exactly when it has five fields that all parse |
| Cron.UnionMembers | packages/cli/src/cron.js:22-37 | a number is in a field's set exactly when some part's progression contains it |
| Cron.FieldInRange | packages/cli/src/cron.js:14-39 | every value of an accepted field lies in the field's range and the set is not empty |
| Cron.ParsedIsValid | packages/cli/src/cron.js:70-88 | every parsed expression has five fields with nonempty sets in range; months are in range unless the month field is a name list |
| Cron.NextRunIsLeast | packages/cli/src/cron.js:103-113 | the result is the least minute after the start that matches; there is none exactly when no minute of the window matches |
| Cron.NextRun | packages/cli/src/cron.js:103-113 | the loop returns that least minute, and errors exactly for bad expressions and empty windows |
| CronWindow.AlwaysFound | packages/cli/src/cron.js:90-113 | a next run is found from every start exactly when the expression fires every year |
| CronWindow.ExpressionAlwaysFound | packages/cli/src/cron.js:70-113 | the same for every accepted expression |
| CronWindow.MissedAfterLeapDay | packages/cli/src/cron.js:103-113 | an expression that fires on leap days only is missed from a start after a leap day |
| CronWindow.WindowIsTight | packages/cli/src/cron.js:108 | a start and an expression whose run is the very last minute of the window |
| Scheduler.NextIsLater | packages/cli/src/automations.js:46-51 | the time after a run is strictly later than the time it is computed from |
| Tick.Storage.AutomationClaim | packages/cli/src/storage/sqlite.js:204-209 | compare-and-set: it succeeds exactly when the row holds the expected time, never for a missing time, and only then changes it |
| Tick.Storage.AutomationUpdate | packages/cli/src/storage/sqlite.js:185-196 | an update overwrites the count, the last and next times and the status of an existing row whatever they hold |
| Tick.CommitRow | packages/cli/src/automations.js:89-105 | claiming and recording a row that is as it was read leaves exactly the recorded row |
| Tick.TickAlone | packages/cli/src/automations.js:82-111 | a tick that runs alone fires the due rows in order up to the limit, and is a run of the step system |
| FireOnce.ClaimedAndFiredAtMostOnce | packages/cli/src/automations.js:82-111 | in every run whose bookkeeping writes put no claimed time back, each time is claimed at most once, later claims are for later times, each time is fired at most once and only after a claim |
| ClaimOnce.OvertakenWriteRevives | packages/cli/src/automations.js:95-105 | after such a run, a bookkeeping write brings a claimed time back exactly when it is overtaken and does not complete the row |
| ClaimOnce.ReadAndClaim | packages/cli/src/automations.js:82-93 | a tick that reads a row claims the time the row holds, claimed before or not |
| ClaimOnce.RevivedIsClaimedAgain | packages/cli/src/automations.js:82-111 | after such a write, if the row is enabled and due first for an idle process, the run goes on to claim one time twice |
| ClaimOnce.DoubleFire | packages/cli/src/automations.js:82-111 | a run of three processes in which one time is claimed twice and fired twice |
| RunAccounting.RunCountIsFires | packages/cli/src/automations.js:95-108 | `runCount` counts the recorded runs, fires never exceed it, it never exceeds `maxRuns`, and all are equal once nothing is in flight or lost |
| RunAccounting.Undercounted | packages/cli/src/automations.js:82-108 | a run in which no claimed time is put back and two fired runs leave `runCount` at 1 |
| FireOnce.OneShotFiresOnce | packages/cli/src/automations.js:46-51 | in such a run an automation that fires twice is not a one-shot one |
| RunAccounting.CompletedForever | packages/cli/src/automations.js:95-105 | a completed automation never changes again and gets no further run |
| RunAccounting.PromptIsQuiet | packages/cli/src/automations.js:86-105 | bookkeeping that lands before the new time is due is enough for the results on counts and completed rows |
| RunAccounting.StepKeepsFull | packages/cli/src/automations.js:82-111 | every step of every process keeps the accounting invariant |
| ReviewGate.RequiredReviewChecks | kernel/scripts/mcp_conformance/review_regressions.py:859-1029 | the validator's loops compute the checks and errors that the functions define |
| ReviewGate.ReadCaseChecks | kernel/scripts/mcp_conformance/review_regressions.py:969-989 | the checks of a full case are read into the map, one error per bad or repeated one |
| ReviewGate.EvaluateGate | kernel/scripts/mcp_conformance/review_regressions.py:1070-1110 | the gate's lists and its verdict |
| ReviewGateProofs.ListsInOrder | kernel/scripts/mcp_conformance/review_regressions.py:1070-1110 | every list selected from the sorted checks is in sorted order |
| ReviewGateProofs.GateReflexive | kernel/scripts/mcp_conformance/review_regressions.py:1070-1110 | a report passes against itself exactly when it is valid |
| ReviewGateProofs.GateTransitive | kernel/scripts/mcp_conformance/review_regressions.py:1070-1110 | if B passes against A and C against B, C passes against A |
| ReviewGateProofs.CompactRevalidates | kernel/scripts/mcp_conformance/review_regressions.py:1032-1067 | the compact form of a valid report validates, to the same checks |
| ReviewGateProofs.CompactKeepsVerdict | kernel/scripts/mcp_conformance/review_regressions.py:1032-1110 | replacing a baseline by its compact form changes no list of the gate for any candidate |
| ReviewGateProofs.CompactIdempotent | kernel/scripts/mcp_conformance/review_regressions.py:1032-1067 | compacting twice is compacting once |
| ComplianceGate.RequiredRegressionChecks | kernel/scripts/mcp_conformance/run_codex_compliance.py:1459-1679 | the validator's loops compute the checks and errors that the functions define |
| ComplianceGate.ReadCompact | kernel/scripts/mcp_conformance/run_codex_compliance.py:1493-1591 | compact baselines are read bucket by bucket, with the coverage errors of each mode |
| ComplianceGate.CompareChecks | kernel/scripts/mcp_conformance/run_codex_compliance.py:1767-1809 | the comparison loops sort failures and baselines into the four lists |
| ComplianceGate.EvaluateGate | kernel/scripts/mcp_conformance/run_codex_compliance.py:1744-1809 | the gate's lists and its verdict |
| ComplianceGateProofs.ListsInOrder | kernel/scripts/mcp_conformance/run_codex_compliance.py:1767-1809 | every list selected from the sorted checks is in sorted order |
| ComplianceGateProofs.GateReflexive | kernel/scripts/mcp_conformance/run_codex_compliance.py:1744-1809 | a report passes against itself exactly when it is valid, states an authentication policy and has no shipping-version failure |
| ComplianceGateProofs.GateTransitive | kernel/scripts/mcp_conformance/run_codex_compliance.py:1744-1809 | if B passes against A and C against B, C passes against A |
| ComplianceGateProofs.ValidCoverage | kernel/scripts/mcp_conformance/run_codex_compliance.py:1459-1679 | a valid report has, for every mode, exactly the scenarios of the catalogue and a case for each of the two transports |
| ComplianceGateProofs.CompactRevalidatesIff | kernel/scripts/mcp_conformance/run_codex_compliance.py:1682-1726 | the compact form validates exactly when the checks that are not skipped already cover everything |
| ComplianceGateProofs.CompactKeepsVerdict | kernel/scripts/mcp_conformance/run_codex_compliance.py:1682-1809 | for every candidate the four lists are unchanged, and the verdict with its errors is the same exactly when the checks that are not skipped cover everything |
| ComplianceGateProofs.CompactIdempotent | kernel/scripts/mcp_conformance/run_codex_compliance.py:1682-1726 | compacting twice is compacting once |
| ComplianceExample.PassedRevalidates | kernel/scripts/mcp_conformance/run_codex_compliance.py:1459-1726 | a concrete full report that is valid and whose compact form is valid |
| ComplianceExample.SkippedDoesNotRevalidate | kernel/scripts/mcp_conformance/run_codex_compliance.py:1459-1809 | a concrete full report that is valid and compacts to a baseline that is not valid and that no candidate passes against |
| PublishProofs.StepKeeps | kernel/.github/scripts/publish_r2_release.py:268-505 | every step of every attempt, and a crash at any point, keeps the invariant |
| PublishProofs.VersionedIsConsistent | kernel/.github/scripts/publish_r2_release.py:412-505 | a store that holds nothing but versioned objects with their own checksums is consistent |
| PublishProofs.ChannelsAlwaysConsistent | kernel/.github/scripts/publish_r2_release.py:412-505 | in every run from a consistent store a channel holds metadata that matches the stored `release.json`, and every listed asset is stored as listed |
| PublishProofs.ChannelEqualsReleaseJson | kernel/.github/scripts/publish_r2_release.py:486-505 | with a digest without collisions the channel equals the stored `release.json` |
| PublishProofs.InstallersAlwaysConsistent | kernel/.github/scripts/publish_r2_release.py:268-285 | every installer alias is the stored asset of a published release |
| PublishProofs.VersionedForever | kernel/.github/scripts/publish_r2_release.py:189-217 | versioned objects never change once stored |
| PublishProofs.PointedAtForever | kernel/.github/scripts/publish_r2_release.py:412-505 | what a channel pointed at stays valid after the channel moves on |
| PublishRun.Bucket.PutNoOverwrite | kernel/.github/scripts/publish_r2_release.py:189-217 | an existing object stays, a missing one is stored with its digest |
| PublishRun.Bucket.VerifyRemote | kernel/.github/scripts/publish_r2_release.py:220-265 | missing, verified or conflicting, exactly by the stored object's size and digest |
| PublishRun.CollectResults | kernel/.github/scripts/publish_r2_release.py:309-328 | the published list is in release order whatever order the uploads complete in |
| PublishRun.FindPublished | kernel/.github/scripts/publish_r2_release.py:331-365 | it finds exactly the stored assets, and fails exactly when one of them conflicts |
| PublishRun.UploadRemaining | kernel/.github/scripts/publish_r2_release.py:288-328 | the missing assets are stored if they are intact, and nothing else changes |
| PublishRun.MergePublished | kernel/.github/scripts/publish_r2_release.py:412-434 | the entries found before and those added now make up the list of all assets, in release order |
| PublishRun.PublishInstallers | kernel/.github/scripts/publish_r2_release.py:268-285 | both aliases move, or the run stops with a prefix of them moved |
| PublishRun.PublishVersion | kernel/.github/scripts/publish_r2_release.py:412-478 | everything under the version is stored exactly when nothing conflicts and every file is intact |
| PublishRun.MovePointers | kernel/.github/scripts/publish_r2_release.py:479-505 | which installer and channel keys have moved when it stops |
| PublishRun.Finalize | kernel/.github/scripts/publish_r2_release.py:412-505 | it succeeds exactly when the plan is publishable, then leaves the published store, and otherwise one from which it can be repeated |
| PublishRun.RerunConverges | kernel/.github/scripts/publish_r2_release.py:412-505 | from a partially published store a plan can be finished, with the store an undisturbed run produces |
| PublishCrash.CrashesConverge | kernel/.github/scripts/publish_r2_release.py:412-505 | any steps of any number of attempts at a plan, each crashed anywhere, leave such a partially published store, so finishing leads to the store an undisturbed run produces |
| PublishCrash.OthersDoNotMatter | kernel/.github/scripts/publish_r2_release.py:189-505 | with attempts at other releases interleaved, the plan can still be published and everything under its version, its channels and its installers end up as in an undisturbed run |
| PublishRun.PublishedIsConsistent | kernel/.github/scripts/publish_r2_release.py:479-505 | a successful run points its channels at stored metadata and stored assets |
| MemoryFormat.SafeNameIdempotent | packages/cli/src/memory.js:31-37 | a sanitised name is its own sanitised form and holds no path separator |
| MemoryFormat.SafeNameIsSafe | packages/cli/src/memory.js:31-37 | a sanitised name is nonempty, of word characters, dots and hyphens, without either at its ends |
| MemoryFormat.ParsePrinted | packages/cli/src/memory.js:50-60 | parsing a printed file gives its name and description, and the trimmed rest whatever it holds |
| MemoryFormat.IndexLineReadBack | packages/cli/src/memory.js:106-133 | a printed index line parses to its entry |
| Memory.WriteReadBack | packages/cli/src/memory.js:180-194 | a written file reads back as the sanitised name, the one-line truncated description less one quote at each end, and exactly the trimmed body |
| Memory.IndexReadBack | packages/cli/src/memory.js:87-136 | a printed index reads back as its entries, one per line, in order |
| Memory.MemoryEntry | packages/cli/src/memory.js:87-107 | the entry derived from a memory file names its key and can be printed and read back |
| Memory.AppendKeepsMeta | packages/cli/src/memory.js:197-214 | text added at the end never changes the frontmatter of a file |
| MemoryStore.BuildLines | packages/cli/src/memory.js:87-109 | one line per file, in the comparator's order |
| MemoryStore.ListingExact | packages/cli/src/memory.js:87-136 | reading the index gives exactly one entry for each file, derived from its content |
| MemoryStore.Store.RebuildIndex | packages/cli/src/memory.js:87-110 | the index lists the files again, sorted, and no file changes |
| MemoryStore.Store.Write | packages/cli/src/memory.js:180-194 | it succeeds exactly for writable names, changes that file only, and keeps the index exact |
| MemoryStore.Store.Append | packages/cli/src/memory.js:197-221 | it succeeds exactly for nonblank text, every file keeps its content as a prefix, and the index stays exact |
| MemoryStore.Store.ListIndex | packages/cli/src/memory.js:122-136 | after any writes and appends it returns exactly one entry for each memory |
| MemoryStore.Store.Read | packages/cli/src/memory.js:139-155 | it finds a memory exactly when the sanitised name has a file, and returns that file's body |
| Roles.PresentIffDescribed | kernel/codex-rs/agent-roles/src/loader.rs:100-113 | a role is in the final map exactly when some layer's version of it has a description |
| Roles.FirstDescribed | kernel/codex-rs/agent-roles/src/loader.rs:100-113 | if some layer's version has a description, there is a first such layer |
| Roles.DescribedFrom | kernel/codex-rs/agent-roles/src/loader.rs:100-113 | with the first such layer, every field of the final role is the one of the highest layer at or above it that sets the field |
| Roles.HighestIs | kernel/codex-rs/agent-roles/src/loader.rs:166-173 | that field is set by some layer from the given one on and by no higher one, and is missing exactly if none sets it |
| Roles.BelowContributesNothing | kernel/codex-rs/agent-roles/src/loader.rs:100-113 | layers below the first described one have no influence |
| Roles.RejectedIffUndescribed | kernel/codex-rs/agent-roles/src/loader.rs:103-112 | a layer's role is rejected exactly when neither it nor a lower layer describes the role |
| Roles.FirstOfEachIs | kernel/codex-rs/agent-roles/src/loader.rs:46-73 | a name is collected exactly if it has a well-formed entry, with the role of the first one |
| Roles.CollectDeclared | kernel/codex-rs/agent-roles/src/loader.rs:46-73 | the first readable declaration of each name counts, and its files are skipped in discovery |
| Roles.Discover | kernel/codex-rs/agent-roles/src/loader.rs:290-335 | the first readable file of each name counts, skipped files do not |
| Roles.ReadLayer | kernel/codex-rs/agent-roles/src/loader.rs:75-98 | declared roles win over discovered ones of the same layer |
| Roles.MergeLayer | kernel/codex-rs/agent-roles/src/loader.rs:100-113 | one layer is merged over the lower ones, with a warning for each rejected role |
| Roles.LoadLayers | kernel/codex-rs/agent-roles/src/loader.rs:34-117 | the loop computes the fold over all layers, and fails exactly when a directory cannot be listed |
| Roles.LoadWithoutLayers | kernel/codex-rs/agent-roles/src/loader.rs:125-145 | it loads exactly the lists without unreadable, undescribed or repeated roles, and then every role of the list |
| Roles.LoadAgentRoles | kernel/codex-rs/agent-roles/src/loader.rs:23-117 | which of the two paths is taken, and its result |
| BazelTokens.SameValue | kernel/.github/scripts/rusty_v8_module_bazel.py:64-69 | exchanging one field of a block for another leaves the value of every other field |
| BazelSha.HexSwap | kernel/.github/scripts/rusty_v8_module_bazel.py:179-186 | exchanging the first lower-case hex checksum for another leaves a checksum in front of it first, and otherwise makes the new one first |
| BazelSha.Replaced | kernel/.github/scripts/rusty_v8_module_bazel.py:179-186 | a replaced checksum is found exactly if the first one was lower-case hex, other fields keep their values, and replacing again changes nothing |
| BazelInsert.Inserted | kernel/.github/scripts/rusty_v8_module_bazel.py:188-196 | an inserted checksum is found exactly if none is seen up to the path, other fields keep their values, and writing it again changes nothing exactly when no blank line follows |
| BazelBlocks.Reparse | kernel/.github/scripts/rusty_v8_module_bazel.py:72-96 | a text whose blocks are replaced by blocks is cut into the same parts again |
| BazelModule.WithShaWorks | kernel/.github/scripts/rusty_v8_module_bazel.py:179-196 | writing a checksum into any block, by either branch: exactly when it is the one found afterwards, and exactly when writing it again changes nothing |
| BazelModule.HexOrNoneIsSound | kernel/.github/scripts/rusty_v8_module_bazel.py:179-196 | it is found afterwards in every block without a checksum or with a first one in lower-case hex |
| BazelModule.WithShaStays | kernel/.github/scripts/rusty_v8_module_bazel.py:179-196 | the block stays one block with the same end |
| BazelBlank.BlankLineLost | kernel/.github/scripts/rusty_v8_module_bazel.py:199-217 | module files, for any version, name and path, that pass the check after one update and are changed by a second |
| BazelBlank.BlankLineExample | kernel/.github/scripts/rusty_v8_module_bazel.py:199-217 | one of these files |
| BazelBlank.EarlyChecksumStays | kernel/.github/scripts/rusty_v8_module_bazel.py:166-217 | module files, for any version, name and path, that an update changes without passing the check |
| BazelBlank.EarlyChecksumExample | kernel/.github/scripts/rusty_v8_module_bazel.py:166-217 | one of these files |
| BazelUpdate.EntrySetOk | kernel/.github/scripts/rusty_v8_module_bazel.py:111-138 | no entry error exactly when every manifest file has exactly one entry and there is no other entry |
| BazelUpdate.ChecksumsMatch | kernel/.github/scripts/rusty_v8_module_bazel.py:141-157 | no checksum error exactly when every entry holds its manifest checksum |
| BazelUpdate.UpdateModule | kernel/.github/scripts/rusty_v8_module_bazel.py:199-217 | the loop builds the updated text, and raises exactly where the function is undefined |
| BazelUpdate.CheckModule | kernel/.github/scripts/rusty_v8_module_bazel.py:166-176 | the check passes exactly when entries and checksums agree with the manifest |
| BazelUpdate.UpdateThenCheck | kernel/.github/scripts/rusty_v8_module_bazel.py:72-217 | for every module file: a successful update passes the check exactly when the first checksum of every entry that has one in lower-case hex is such a one, and other entries show none up to the path; it changes nothing but entries, can be repeated, and is idempotent exactly when no blank line follows a path that got a checksum |
| Bridge.RequestsAlwaysOk | packages/app/host/kernel-bridge.js:210-221 | in every run ids are below `nextId`, every issued request is pending or settled, and both only if its message could not be sent |
| Bridge.SettledForever | packages/app/host/kernel-bridge.js:88-97 | a settled request keeps its first outcome for the rest of the run |
| Bridge.LateResponseIgnored | packages/app/host/kernel-bridge.js:88-97 | a response to an answered or timed-out request changes nothing |
| Bridge.AnsweredOnce | packages/app/host/kernel-bridge.js:106-137 | in every run each stored approval is answered at most once |
| Bridge.ToolEventsAlternate | packages/app/host/kernel-bridge.js:157-203 | in every run start and end events of an id that only commands use strictly alternate, and the id is cached exactly in between |
| Bridge.ToolEventsFollowNotices | packages/app/host/kernel-bridge.js:157-203 | in every run start and end events of an id that no command uses alternate exactly when its started and completed notices do, and then the id is cached exactly in between |
| BridgeClass.KernelBridge.Request | packages/app/host/kernel-bridge.js:210-221 | a request takes the next id and is pending, or is rejected at once without a process |
| BridgeClass.KernelBridge.Timeout | packages/app/host/kernel-bridge.js:214-217 | an expired request is forgotten and settled |
| BridgeClass.KernelBridge.Shutdown | packages/app/host/kernel-bridge.js:263-266 | the process is killed, and nothing pending is settled or forgotten |
| BridgeClass.KernelBridge.HandleMessage | packages/app/host/kernel-bridge.js:88-104 | a message takes the step of the run model |
| BridgeClass.KernelBridge.HandleServerRequest | packages/app/host/kernel-bridge.js:106-124 | a kernel request is shown and stored under its id |
| BridgeClass.KernelBridge.Approve | packages/app/host/kernel-bridge.js:127-137 | it forgets a stored approval and answers it, or throws if the process is gone; an unknown one is reported |
| BridgeClass.KernelBridge.HandleItem | packages/app/host/kernel-bridge.js:157-203 | an item notice changes the cache and the events as the run model says |
| BridgeClass.KernelBridge.AlwaysSafe | packages/app/host/kernel-bridge.js:34-221 | all run results hold of the object whatever was called before |
| Templates.Substitute | packages/cli/src/commands.js:53-56 | the loop of replacements; one simultaneous substitution if the template holds no `$$` and the arguments are harmless, as all arguments without `$` are |
| Templates.JoinSplit | packages/cli/src/commands.js:55-56 | splitting and joining is replacing from the left |
| Templates.SequentialIsSimultaneous | packages/cli/src/commands.js:53-56 | for harmless arguments the replacements one after the other equal one left-to-right pass |
| Templates.HarmlessIsExact | packages/cli/src/commands.js:53-56 | given arguments agree after every replacement on all templates without `$$` exactly if they are harmless |
| Templates.SequentialIsStaged | packages/cli/src/commands.js:53-56 | if no value ends in a `$` that a later replacement could complete, the replacements equal one pass with each value as the later replacements leave it |
| Templates.FinalIsExact | packages/cli/src/commands.js:53-56 | such arguments give the final text of one pass on all templates without `$$` exactly if each value comes out of the later replacements unchanged |
| Templates.OnlyTheWayIsWrong | packages/cli/src/commands.js:53-56 | arguments that are not harmless and give the right final text on all templates without `$$` |
| Templates.ArgumentsNeedNoDollar | packages/cli/src/commands.js:53-56 | arguments with a dollar sign for which they differ |
| Templates.TemplateNeedsNoDoubleDollar | packages/cli/src/commands.js:53-56 | a template with two dollar signs for which they differ |
| WrapperArgs.ParseWrapperArgs | kernel/tools/argument-comment-lint/wrapper_common.py:53-101 | the loop ends in the state of the step function |
| WrapperArgs.BuildFinalArgs | kernel/tools/argument-comment-lint/wrapper_common.py:104-120 | inserted defaults, lint arguments, and cargo arguments after a separator |
| WrapperArgs.ParseJoined | kernel/tools/argument-comment-lint/wrapper_common.py:53-101 | parsing lint and cargo arguments joined by a separator gives both lists back, with the flags they have by themselves |
| WrapperArgs.WrapperFixpoint | kernel/tools/argument-comment-lint/wrapper_common.py:53-120 | for every argument list, building from the parse of what was built changes nothing exactly when the path is not `--` or is not inserted |
| WrapperArgs.SeparatorAsPath | kernel/tools/argument-comment-lint/wrapper_common.py:53-120 | the empty argument list with path `--` is not a fixpoint |
| DiffLines.AcceptedLineCounts | kernel/codex-rs/analytics/src/accepted_lines.rs:27-61 | the loop computes the counts of the step function |
| DiffLines.GitDiffCounts | kernel/codex-rs/analytics/src/accepted_lines.rs:27-61 | counting a printed diff gives the structural totals, whatever the texts of its lines |
| DiffLines.CountsConcat | kernel/codex-rs/analytics/src/accepted_lines.rs:27-61 | counts add up when the first text ends its last line and the second starts a file |
| Versions.ParsePrint | kernel/sdk/python/release_version.py:9-12 | every printed version matches the normalised pattern, with its groups |
| Versions.PrintParse | kernel/sdk/python/release_version.py:9-12 | every string that matches is a printed version |
| Releases.TagRoundTrip | kernel/sdk/python/release_version.py:45-82 | normalising the release version or the tag of an accepted version gives its normal form |
| Releases.TagsInjective | kernel/sdk/python/release_version.py:45-82 | two accepted versions have the same tag exactly when they normalise alike |
| Releases.NormalizedStays | kernel/sdk/python/release_version.py:68-82 | a normalised version is its own normal form |
| Releases.PublisherAcceptsExactly | kernel/.github/scripts/publish_r2_release.py:37-40 | which normalised versions have a release version the publisher accepts |
| Releases.RuntimeIsPublishable | kernel/sdk/python/release_version.py:35-42 | every accepted runtime version has a release version the publisher accepts |
| Releases.RuntimeRoundTrip | kernel/sdk/python/release_version.py:35-46 | a runtime version resolves exactly when it is accepted, and its tag normalises back to it |

## Left out

- Daylight saving, host time zones and the range limits of the ECMAScript `Date`: the calendar is the proleptic Gregorian one at a fixed offset.
- JavaScript number parsing in cron fields: it is a parameter, so the results hold for every way of reading numbers.
- Letter case beyond ASCII, and UTF-16 lengths: strings are sequences of Unicode scalars.
- `runNow`, `update`, `pause` and the service around the scheduler: they rewrite rows outside the tick protocol.
- Tick.TickAlone: runs without interruption; interleavings are the subject of the step system.
- A `fire` callback that throws: a run counts as fired when the callback is called.
- ISO strings in the store: times are milliseconds, and the store compares times rather than strings.
- SQL and the JSON store: a claim is one atomic step, as is each update and each query.
- Scenario catalogues and required case lists of the two gates: they are parameters.
- JSON numbers that are not finite, and the texts of error messages; exceptions from unhashable values count as validation errors.
- Case digits beyond ASCII in check identities.
- Object key strings, the network and subprocess calls of the publisher: keys are a datatype and puts and reads are atomic.
- The upfront download of all assets: downloads are checked where they are used.
- The order of index lines: it is the one of an arbitrary comparator, in place of `localeCompare`.
- `promptSection`, and memory files that were not written through the store.
- File-system failures of the memory store and of role files other than unreadable ones and unlistable directories.
- TOML syntax and path resolution of role files: a file is unreadable or gives a role.
- The manifest parser of the module checksums: a manifest is a map whose checksums are lower-case hex.
- RunAccounting.RunCountIsFires: asks that no tick reads a row between a claim of it and its bookkeeping, because the bookkeeping of two overlapping runs writes the same count; `RunAccounting.Undercounted` is such a run.
- DiffLines.CountsConcat: asks that the first text ends its last line and that the second starts a file, because a line cut in two or a `+++ ` line inside a hunk counts differently.
- Templates.Substitute: says nothing simpler than the sequence of replacements where the arguments are not harmless or the template holds `$$`.
- Templates.FinalIsExact: asks that no value ends in a `$` that a later replacement could complete; `Templates.HarmlessIsExact` has no such condition.
- MemoryStore.Store.Read: does not return the list of linked memories that `read` appends to the body.
- PublishRun.Finalize: does not return the list that the script prints; `PublishRun.MergePublished` computes it.
- `send`, `newThread` and the process events of the bridge: they are built from the modelled calls.
- Payloads of events beyond the fields shown, which are texts.
- Discovery and naming of slash commands.
- Overflow of the two diff counters after 2^64 lines.
- The commit-hash event, remote URLs and every other part of the analytics crate.
- The user interface, the agent loop, sandboxing, packaging and CI scripts.
