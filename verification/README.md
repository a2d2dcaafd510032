# Verification of the guardian gate, release publication, regression gates and their helpers

A Dafny model of the parts of the repository whose promises span many calls, with proofs of those
promises. `dafny verify dfyconfig.toml` checks all of it. Each module follows one source file or one
aspect of it:

- **The guardian gate** (`desktop/main.js`, `desktop/similarity.js`, `desktop/store.js`). `Similarity`
  is the trigram index, `Noise` the output filter, `SessionStore` the per-thread log files. `Gate` gives
  one function per handler over the shared maps; a handler body runs without interruption, so a run is a
  sequence of steps. `GateStates`, `GateRetries`, `GateProvenance`, `GateMemory` and `GateLog` prove what
  runs keep. `Guardian` is the object with the maps as fields and the thread files beside it; each of its
  methods is proved to do what `Gate` says. Values of a request that have no text form, or are nested too
  deep to be written as JSON again, on which the handlers throw midway, are part of the model.
  What a regular expression matches is a parameter; the rule labels are the real ones, because the key
  encodings depend on them.
- **Release publication** (`codex/.github/scripts/publish_r2_release.py`). `ReleaseMetadata` reads the list
  of assets. `Release` gives the keys and the steps of any number of interleaved runs over one bucket; a
  crash or a failed call is a run that takes no further step. `ReleaseSafety` is the invariant over all interleavings, `ReleaseResume` the
  resumption of one stopped run, `ReleaseRun` the commands as loops over a store object. A digest is an
  injective function of contents.
- **Regression gates** (`codex/scripts/mcp_conformance/review_regressions.py`,
  `run_codex_compliance.py`). Reports are JSON values as Python sees them (`Json`). `ReviewGate` and
  `ComplianceGate` give validation, compaction and gate; `ComplianceBaseline` and `ComplianceReports` the
  theorems on the second; `ReviewGateRun` and `ComplianceRun` the loops. Error messages are structured
  values, in the order the programs append them.
- **The MODULE.bazel rewriter** (`codex/.github/scripts/rusty_v8_module_bazel.py`). `ModuleBazel` reads a
  text line by line; `ModuleDigests` treats one block, `ModuleUpdate` the whole text, `ModuleRun` the loops.
- **The MCP fixture server** (`codex/scripts/mcp_conformance/server.py`). `McpServer` is the dispatch,
  `McpRuns` the stdio loop and the lifecycle, `McpHttp` the session table and the objects, `McpCatalog` the
  listings. It implements JSON-RPC 2.0 (sections 4.1 and 5) and the Lifecycle section of MCP revision
  2025-06-18.
- **Two folds**: `Trajectory` (`webui/src/trajectory/model.ts`) and `DiffCount`
  (`codex/codex-rs/analytics/src/accepted_lines.rs`).

`Text` and `Ordering` hold what these share: splitting and joining strings, Python's order on strings and
tuples, and sorted listings of sets.

## Where the code does less than it promises

Each of these is proved with its exact condition; the lemmas that show a failing input are named.

- A review post can fail after it claimed its idempotency key: the body `null`
  (`GateRetries.NullBodyStrandsItsKey`), or an object without a text form where a tool name, a turn id, a
  command part or an output part is turned into a string (`GateRetries.UnprintableToolStrandsItsKey`;
  `GateRetries.StopsExactly` gives the guard). Its key then answers "unknown review" ever after
  (`GateRetries.FailedPostStrandsItsKey`), and every key resolves exactly while no post does that
  (`GateRetries.KeysResolveExactly`). A post without a key is taken for a repeat exactly when a client chose
  the key the counter draws next (`GateRetries.KeylessPostsAreFresh`).
- A tool call can be left without any response: the call `null`, a tool name without a text form, or a tool
  or arguments nested too deep to be written again make the handler throw before it answers or asks
  (`GateRetries.NullCallHangs`). The calls that hang are exactly those (`GateRetries.HangingCalls`), and every
  call posted is ended once or held by one question exactly when there are none (`GateRetries.EachCallEndsOnce`).
- A verdict is set before its log entry is written, and the entry is lost when the thread id has no text or
  something in the body is nested too deep to be written again; a review body's own `kind` or `review_id` is spread over the entry, and feed items may claim any kind. One
  entry per decision, in its thread's file, holds along a run exactly while none of that happens
  (`GateLog.LogMatchesStep`, `GateLog.LogMatchesRun`); two bodies that name each other's review make the log
  wrong and then right again (`GateLog.SwappedIdsMatchAgain`).
- One event per review and per call that is read holds exactly while no feed item claims a gate kind and no post fails after
  its event (`GateLog.FirehoseStep`, `GateLog.FirehoseRun`).
- `desktop/store.js` says a crash loses at most one line; a torn line also swallows the next entry
  (`SessionStore.TornLineTakesTwo`), and an append adds its entry exactly when the file ends where a line ends
  (`SessionStore.AppendAddsItsEntry`).
- The noise filter looks at the whole text first: no noisy line gets through exactly when the whole text
  trips a rule or no line does (`Noise.NoNoiseGetsThrough`), and a rule anchored to the start of the text
  misses a later line (`Noise.LaterLineAlone`).
- The stdio loop of the fixture server ends at the first line that its reader gives up on, or whose response
  or notifications cannot be encoded (`McpRuns.LoopEndsAtTheFirst`, `McpRuns.LineEndsTheLoop`); every request is
  answered exactly when no line does that (`McpRuns.RequestsAnsweredInOrder`).
- A compact conformance baseline drops skipped checks, and is then refused unless every required case and
  scenario also has a check that passed or failed (`ComplianceBaseline.CompactKeepsChecks`); whatever the
  catalogue, a report of skipped checks shows it (`ComplianceReports.SkippedReportLosesItsBaseline`).
- Whatever the digest, a checksum update can leave a text that fails the check (`ModuleWitness.UpdateFailsItsOwnCheck`), can
  change again when repeated (`ModuleWitness.SecondUpdateChangesAgain`), and can drop or repeat blank lines
  (`ModuleDigests.WithShaTouchesOneLine`).
- File headers that no `diff --git` line introduces are counted as changed lines
  (`DiffCount.BareHeadersAreCounted`).

## Model

| member | source | states |
|---|---|---|
| Similarity.HashTrigram | desktop/similarity.js:14-16 | the hashing loop is 32-bit FNV-1a reduced to a slot |
| Similarity.Embed | desktop/similarity.js:10-22 | the embedding loop yields the count vector of the text's trigrams |
| Similarity.CauchySchwarz | desktop/similarity.js:24 | the square of a dot product is at most the product of the squared norms |
| Similarity.SimBounds | desktop/similarity.js:18-24 | similarity lies between 0 and 1 |
| Similarity.CosineSquared | desktop/similarity.js:18-24 | the model's similarity is the square of the cosine of the normalised vectors, and reaches a squared threshold exactly when the cosine reaches the threshold |
| Similarity.SimSymmetric | desktop/similarity.js:24 | similarity is symmetric |
| Similarity.SelfSimilarity | desktop/similarity.js:10-24 | every non-empty text has similarity 1 with itself, the empty one 0 |
| Similarity.IndexedTextHits | desktop/similarity.js:42-50 | a remembered non-empty text is found again at every threshold up to 1 |
| Similarity.SameAtBothThresholds | desktop/similarity.js:42-50 | an answer at a stricter threshold is the answer at the looser one |
| Similarity.TextsStayDistinct | desktop/similarity.js:34-58 | any sequence of additions and removals keeps the texts pairwise distinct |
| Similarity.RubbishStore.AddText | desktop/similarity.js:34-40 | a text is appended unless it is there, and the size is returned |
| Similarity.RubbishStore.Match | desktop/similarity.js:42-50 | the earliest entry of maximal similarity, and nothing exactly when none reaches the threshold |
| Similarity.RubbishStore.RemoveText | desktop/similarity.js:52-58 | the one entry with this text goes, the others keep their order |
| Noise.TrimmingIsExact | desktop/main.js:138-145 | when the filter fires it keeps exactly the clean lines in order, drops at least one, accounts for every line, and finds its own output clean |
| Noise.NoNoiseGetsThrough | desktop/main.js:138-145 | no noisy line is passed on exactly when the whole text trips a rule or no line does |
| Noise.LaterLineAlone | desktop/main.js:138-145 | an anchored rule that trips only on a later line leaves the output untouched, that line included |
| SessionStore.SafeNames | desktop/store.js:12 | sanitising is idempotent, and two ids share a file exactly when they sanitise alike |
| SessionStore.AppendReadsBack | desktop/store.js:14-31 | what an append does to any file: the torn last line and the new one are read as one |
| SessionStore.AppendAddsItsEntry | desktop/store.js:14-31 | an append adds its entry to what is read back exactly when the file ends where a line ends, and is lost otherwise |
| SessionStore.TornLineTakesTwo | desktop/store.js:2-3 | a file with a torn line from which the next entry is lost too |
| SessionStore.Store.Append | desktop/store.js:14-16 | an append goes to the file of its thread and to no other |
| SessionStore.Store.Read | desktop/store.js:26-32 | a thread reads back the entries appended under its file name, in order |
| GateStates.StepKeeps | desktop/main.js:243-506 | every step keeps ids fresh, waiting reviews paired with their questions, and calls answered at most once |
| GateStates.RunKeeps | desktop/main.js:243-506 | every run keeps that invariant |
| GateStates.ThreadsOnRecord | desktop/main.js:397-401 | the thread on record for a review is the one its post named, for good |
| GateRetries.ReviewsAdvance | desktop/main.js:262-273 | a review is never forgotten, a verdict never changes, and a waiting review is decided only by the answer to its own question |
| GateRetries.PollsSettle | desktop/main.js:362-372 | polls of one review read pending until one constant verdict |
| GateRetries.SettledTwice | desktop/main.js:262-273 | settling a question again changes nothing |
| GateRetries.EachCallEndsOnce | desktop/main.js:262-318 | no tool call is ended twice, held twice, or ended while held; every call posted is ended or held exactly when none threw before |
| GateRetries.HangingCalls | desktop/main.js:275-304 | the calls left without a response or a question are exactly those whose text or event could not be made |
| GateRetries.NullCallHangs | desktop/main.js:282-284 | the response to a call that is null stays open after any further run |
| GateRetries.RepeatChangesNothing | desktop/main.js:382-383 | a repeated key leaves the whole state and answers with its review |
| GateRetries.OneReviewPerKey | desktop/main.js:382-385 | over any run all posts with a key refer to the review of the first |
| GateRetries.StopsExactly | desktop/main.js:387-470 | a body that is read ends in an exception exactly on these guards, and never when its values have texts |
| GateRetries.KeysResolveExactly | desktop/main.js:380-470 | every key refers to a known review exactly when no post failed after claiming its key |
| GateRetries.FailedPostStrandsItsKey | desktop/main.js:383-470 | the key of a failed post answers "unknown review" after any further run |
| GateRetries.NullBodyStrandsItsKey | desktop/main.js:380-387 | a null body leaves its key unresolved for good |
| GateRetries.UnprintableToolStrandsItsKey | desktop/main.js:388-450 | so does a prompt that trips a rule and whose tool name has no text |
| GateRetries.KeylessPostsAreFresh | desktop/main.js:382-383 | a post without a key is new, except when a client chose the very key the counter draws |
| GateProvenance.KeyInjective | desktop/main.js:307 | `name\|hits` determines the name and the hit list |
| GateProvenance.GrantIsLatestAnswer | desktop/main.js:464-482 | a turn grant is the latest answer given for that turn and hit list |
| GateProvenance.AllowProvenance | desktop/main.js:374-488 | a step allows a review exactly on a clean post, a saved allow, a turn grant, or a human allow for its question |
| GateProvenance.CallProvenance | desktop/main.js:275-319 | a step allows a tool call exactly on no hits, a saved allow, or a human allow for the question holding it |
| GateProvenance.EveryAllowHasGrounds | desktop/main.js:243-488 | in every run from boot each allow has those grounds, traced to the boot file and the answers given |
| GateProvenance.AskAllIsNeverGranted | desktop/main.js:465-482 | in every run from boot no turn has a grant for an ask-all challenge, and none is settled by a grant |
| GateMemory.DenialIsRemembered | desktop/main.js:270 | a denied text enters the blocked index |
| GateMemory.RememberedUntilPruned | desktop/main.js:187-204 | only pruning the text itself takes it out again |
| GateMemory.DeniedTextIsNeverClean | desktop/main.js:299-303 | after a denial, and until pruned, no request with that text is found clean, whatever happens in between |
| GateLog.LogMatchesStep | desktop/main.js:397-406 | each decided review has exactly one entry, with its verdict, in the file of its thread and in no other; a step keeps that exactly when it can write its entries, and writes them under their own kind and id |
| GateLog.LogMatchesRun | desktop/main.js:397-506 | that holds at every point of a run exactly when every step does so |
| GateLog.SwappedIdsMatchAgain | desktop/main.js:398-401 | a run whose log is wrong after one post and right after the next |
| GateLog.FreshPostAnnounces | desktop/main.js:392-395 | a fresh post appends exactly one review event, with its own tool and hits, unless it fails on the skip list |
| GateLog.FirehoseStep | desktop/main.js:392-395 | the surplus of events over reviews, or over calls read, grows by exactly the posing feed items and the posts that fail after their event |
| GateLog.FirehoseRun | desktop/main.js:44-506 | from boot there are never too few events, and exactly one each exactly when no step did that |
| Guardian.Guardian.HandleReviewPost | desktop/main.js:374-488 | the handler over the mutable maps is the review step of the model, reply included |
| Guardian.Guardian.HandleToolcall | desktop/main.js:275-319 | the handler is the tool-call step |
| Guardian.Guardian.SettleQuestion | desktop/main.js:262-273 | settle is the answer step |
| Guardian.Guardian.Challenge | desktop/main.js:293-303 | the hit list: rules, the two indexes, and ask-all when nothing else |
| Guardian.Guardian.JudgeReview | desktop/main.js:412-470 | the order of skip list, hits, saved rule and turn grant |
| Guardian.Guardian.HandleActivities | desktop/main.js:490-506 | the items of the feed are announced and filed in order, up to one that cannot be filed |
| Guardian.Guardian.HandleEvent | desktop/main.js:44-62 | a feed event is logged, a blocked one seeds the index, a keyed one is copied to its thread |
| Guardian.Guardian.ReadThread | desktop/store.js:26-32 | while the log matches, reading a thread yields the one entry of each review decided in it and none of any other |
| Release.ReleaseKeyInjective | codex/.github/scripts/publish_r2_release.py:292 | a versioned key determines its version and its name |
| Release.KeyFamiliesApart | codex/.github/scripts/publish_r2_release.py:279-284 | versioned, channel and installer keys never coincide |
| ReleaseMetadata.GetReleaseMetadata | codex/.github/scripts/publish_r2_release.py:102-126 | the metadata is accepted exactly when some entry is considered and all of those are well formed with distinct names; the assets are exactly theirs, sorted by name, none called release.json |
| ReleaseSafety.StepSafe | codex/.github/scripts/publish_r2_release.py:288-505 | one step of any run keeps the bucket safe and versioned objects unchanged |
| ReleaseSafety.PublicationSafety | codex/.github/scripts/publish_r2_release.py:412-505 | in every interleaving of runs stopped anywhere, a channel holds the release.json of its version and every asset it lists is there with exactly its digest; versioned objects never change |
| ReleaseSafety.InstallersComeFromReleases | codex/.github/scripts/publish_r2_release.py:268-286 | each bootstrap alias is the installer of a version whose release.json is published |
| ReleaseResume.StepProgress | codex/.github/scripts/publish_r2_release.py:412-505 | what a single run has done to the bucket after any of its steps |
| ReleaseResume.ResumeUploads | codex/.github/scripts/publish_r2_release.py:331-365 | from any bucket between the start and the end of the uploads a run ends alike |
| ReleaseResume.ResumeWrites | codex/.github/scripts/publish_r2_release.py:452-505 | from any point of the writes after the uploads a run ends alike |
| ReleaseResume.Convergence | codex/.github/scripts/publish_r2_release.py:412-505 | a finalize run stopped after any step and run again ends in the bucket, and with the verdict, of an uninterrupted run |
| ReleaseResume.FinishedRun | codex/.github/scripts/publish_r2_release.py:412-505 | a run that takes all its steps is the uninterrupted run |
| ReleaseRun.Store.PutAndVerify | codex/.github/scripts/publish_r2_release.py:170-265 | validate, put, then head-object against size and digest and for a checksum |
| ReleaseRun.Store.FindPublishedAssets | codex/.github/scripts/publish_r2_release.py:331-365 | exactly the assets in place are reported, and any object with other contents stops the run |
| ReleaseRun.Store.PublishAssets | codex/.github/scripts/publish_r2_release.py:309-328 | whatever the order of completion, every intact asset is uploaded, success means all are placed, and each is reported once in the order given |
| ReleaseRun.Store.PublishInstallers | codex/.github/scripts/publish_r2_release.py:268-286 | no alias is touched when one installer is missing; otherwise each is put and verified before the next |
| ReleaseRun.Store.FinalizeRelease | codex/.github/scripts/publish_r2_release.py:412-512 | the command leaves the bucket and verdict of the model, never puts an asset that was there, and reports each asset once in sorted order |
| ReviewGate.AcceptedFullReport | codex/scripts/mcp_conformance/review_regressions.py:939-1029 | an accepted report lists every required case exactly once with at least one check, and exactly its checks and verdicts are recovered |
| ReviewGate.CompactKeepsChecks | codex/scripts/mcp_conformance/review_regressions.py:1032-1067 | whatever is accepted compacts to a baseline that is accepted and validates to the same checks |
| ReviewGate.GateSeesCompactAlike | codex/scripts/mcp_conformance/review_regressions.py:1070-1110 | the gate gives the same result against report and compact baseline, on either side |
| ReviewGate.CompactTwice | codex/scripts/mcp_conformance/review_regressions.py:1032-1067 | compacting twice is compacting once |
| ReviewGate.GateReflexive | codex/scripts/mcp_conformance/review_regressions.py:1070-1110 | a report passes against itself exactly when it is valid |
| ReviewGate.GateTransitive | codex/scripts/mcp_conformance/review_regressions.py:1070-1110 | passing is transitive |
| ReviewGate.GatePartition | codex/scripts/mcp_conformance/review_regressions.py:1082-1099 | every baseline check is exactly one of still passing, regressed, known failing, fixed or missing |
| ReviewGate.GateListsFailures | codex/scripts/mcp_conformance/review_regressions.py:1082-1090 | a candidate check is listed as known or new exactly when it fails, and never as both |
| ReviewGate.FailedCount | codex/scripts/mcp_conformance/review_regressions.py:1003-1004 | the total less the passing checks is the number of failing checks |
| ReviewGateRun.RequiredReviewChecks | codex/scripts/mcp_conformance/review_regressions.py:859-1029 | the validating loops compute the validation of the model |
| ReviewGateRun.EvaluateReviewRegressionGate | codex/scripts/mcp_conformance/review_regressions.py:1070-1110 | the gate's two passes list exactly the sets of the model, sorted |
| ComplianceGate.FullScanOk | codex/scripts/mcp_conformance/run_codex_compliance.py:1593-1679 | an accepted full report runs only scenarios of the complete catalogue, and its checks are well formed |
| ComplianceReports.FullReportStatuses | codex/scripts/mcp_conformance/run_codex_compliance.py:1593-1679 | a full report yields exactly the statuses its required cases report, identity by identity |
| ComplianceBaseline.AcceptedScenarios | codex/scripts/mcp_conformance/run_codex_compliance.py:1459-1679 | acceptance of either form means complete catalogues and no scenario outside them |
| ComplianceBaseline.CompactKeepsChecks | codex/scripts/mcp_conformance/run_codex_compliance.py:1682-1726 | compaction keeps every check that passed or failed, and the baseline is accepted exactly when every required case and scenario has one |
| ComplianceBaseline.GateSeesCompactAlike | codex/scripts/mcp_conformance/run_codex_compliance.py:1744-1809 | the same lists against report and compact baseline on either side, and the same result exactly under that condition |
| ComplianceBaseline.CompactTwice | codex/scripts/mcp_conformance/run_codex_compliance.py:1682-1726 | compacting twice is compacting once, exactly when the baseline is accepted |
| ComplianceBaseline.GateReflexive | codex/scripts/mcp_conformance/run_codex_compliance.py:1744-1809 | a report passes against itself exactly when it could become a baseline |
| ComplianceBaseline.GateTransitive | codex/scripts/mcp_conformance/run_codex_compliance.py:1744-1809 | passing is transitive |
| ComplianceBaseline.GateAccountsForFailures | codex/scripts/mcp_conformance/run_codex_compliance.py:1772-1798 | what the new, known, fixed and missing lists say about the statuses on both sides |
| ComplianceReports.SkippedReportLosesItsBaseline | codex/scripts/mcp_conformance/run_codex_compliance.py:1682-1726 | for every catalogue, a valid report of skipped checks whose compact baseline is refused |
| ComplianceRun.RequiredRegressionChecks | codex/scripts/mcp_conformance/run_codex_compliance.py:1459-1679 | the validating loops compute the validation of the model |
| ComplianceRun.EvaluateRegressionGate | codex/scripts/mcp_conformance/run_codex_compliance.py:1744-1809 | the gate's two passes list exactly the sets of the model, sorted |
| ModuleBazel.RenderParse | codex/.github/scripts/rusty_v8_module_bazel.py:11 | the segments of a text render back to it |
| ModuleBazel.ParseRender | codex/.github/scripts/rusty_v8_module_bazel.py:11 | rendered segments are found again as they were |
| ModuleDigests.ShaLineFields | codex/.github/scripts/rusty_v8_module_bazel.py:64-69 | a written line reads back as its digest, carries no other field and closes no block |
| ModuleDigests.WithShaKeepsFields | codex/.github/scripts/rusty_v8_module_bazel.py:179-196 | writing a digest keeps the block's name and file |
| ModuleDigests.WithShaReads | codex/.github/scripts/rusty_v8_module_bazel.py:179-196 | the block then reads as that digest exactly when no other sha256 line precedes it |
| ModuleDigests.WithShaAgain | codex/.github/scripts/rusty_v8_module_bazel.py:179-196 | writing it again changes nothing exactly when no blank line follows an added line |
| ModuleDigests.WithShaTouchesOneLine | codex/.github/scripts/rusty_v8_module_bazel.py:179-196 | all other lines stay exactly when no blank line follows the replaced line or precedes the download line |
| ModuleUpdate.EntrySetOk | codex/.github/scripts/rusty_v8_module_bazel.py:111-138 | no entry errors means some entries, one per file, for exactly the manifest's files |
| ModuleUpdate.UpdateOutside | codex/.github/scripts/rusty_v8_module_bazel.py:199-217 | every line outside the selected blocks is unchanged |
| ModuleUpdate.UpdateFindsBlocksAgain | codex/.github/scripts/rusty_v8_module_bazel.py:199-217 | the same blocks are found again, in order, each rewritten |
| ModuleUpdate.UpdateSatisfiesCheck | codex/.github/scripts/rusty_v8_module_bazel.py:166-217 | a successful update passes the check exactly when no selected block has another sha256 line first |
| ModuleUpdate.UpdateTwice | codex/.github/scripts/rusty_v8_module_bazel.py:199-217 | a second update is the identity exactly when no blank line follows an added line |
| ModuleWitness.UpdateFailsItsOwnCheck | codex/.github/scripts/rusty_v8_module_bazel.py:166-217 | a text whose update fails the check, for every digest |
| ModuleWitness.SecondUpdateChangesAgain | codex/.github/scripts/rusty_v8_module_bazel.py:199-217 | a text that a second update changes again, for every digest |
| ModuleRun.RustyV8HttpFiles | codex/.github/scripts/rusty_v8_module_bazel.py:72-96 | the scan for blocks finds the entries of the model |
| ModuleRun.ModuleEntrySetErrors | codex/.github/scripts/rusty_v8_module_bazel.py:111-138 | the loop over entries reports duplicates, unknown files and missing blocks of the model |
| ModuleRun.ModuleChecksumErrors | codex/.github/scripts/rusty_v8_module_bazel.py:141-157 | the loop reports missing and wrong digests |
| ModuleRun.CheckModuleBazelText | codex/.github/scripts/rusty_v8_module_bazel.py:166-176 | the check reports both kinds of errors in order |
| ModuleRun.SpliceRenders | codex/.github/scripts/rusty_v8_module_bazel.py:208-217 | splicing new blocks between the old text by offsets is rewriting the segments |
| ModuleRun.UpdateModuleBazelText | codex/.github/scripts/rusty_v8_module_bazel.py:199-217 | the splicing loop computes the update of the model |
| McpServer.HandleModernAnswers | codex/scripts/mcp_conformance/server.py:364-485 | every modern request gets one well-formed response under its own id, server/discover under the id of its profile |
| McpRuns.HandleAnswers | codex/scripts/mcp_conformance/server.py:306-572 | a well-formed notification gets no response, any other message exactly one |
| McpRuns.RequestsAnsweredInOrder | codex/scripts/mcp_conformance/server.py:1641-1671 | the responses match the served requests one to one, in order, by id, and all requests exactly when no line is unreadable or has an answer that cannot be encoded |
| McpRuns.LoopEndsAtTheFirst | codex/scripts/mcp_conformance/server.py:1647-1671 | the loop serves exactly the lines before the first such line |
| McpRuns.LineEndsTheLoop | codex/scripts/mcp_conformance/server.py:1647-1671 | the loop stops at a further line exactly when it is such a line, and then writes nothing for any line after it |
| McpRuns.LifecycleState | codex/scripts/mcp_conformance/server.py:350-516 | a legacy connection is initialized exactly after initialize and then notifications/initialized |
| McpRuns.ResultsFollowHandshake | codex/scripts/mcp_conformance/server.py:487-572 | in legacy modes results other than initialize's come only after that handshake |
| McpRuns.ModernForgets | codex/scripts/mcp_conformance/server.py:364-485 | in modern mode no answer depends on history |
| McpHttp.RefusalsLeaveNoTrace | codex/scripts/mcp_conformance/server.py:1433-1488 | requests refused by path, origin, content type, length or parser answer an error and leave the sessions as they are |
| McpHttp.SessionsIsolated | codex/scripts/mcp_conformance/server.py:1412-1431 | a step leaves every session but its own alone |
| McpHttp.SessionsIndependent | codex/scripts/mcp_conformance/server.py:1542-1568 | the table holds for each session what that session's own events make of it |
| McpHttp.SessionLifecycle | codex/scripts/mcp_conformance/server.py:1542-1568 | a session is initialized exactly when its handshake is complete and it was not deleted since |
| McpHttp.HttpResultsFollowHandshake | codex/scripts/mcp_conformance/server.py:1433-1568 | over HTTP a legacy result needs that on its own session |
| McpHttp.DeletedSessionIsSilent | codex/scripts/mcp_conformance/server.py:1412-1431 | a deleted session never yields a result again |
| McpHttp.ModernHttpForgets | codex/scripts/mcp_conformance/server.py:1489-1509 | modern HTTP answers depend on no earlier request |
| McpHttp.Connection.Handle | codex/scripts/mcp_conformance/server.py:306-348 | the dispatch on a mutable connection is the model's |
| McpHttp.RunStdio | codex/scripts/mcp_conformance/server.py:1641-1671 | the stdio loop writes what the model says |
| McpHttp.FixtureHttpServer.DoDelete | codex/scripts/mcp_conformance/server.py:1412-1431 | DELETE on the session table |
| McpHttp.FixtureHttpServer.DoPost | codex/scripts/mcp_conformance/server.py:1433-1568 | POST: the checks of a request, then the session table |
| McpCatalog.PagesMakeTheCatalogue | codex/scripts/mcp_conformance/server.py:574-605 | following the cursors collects the whole tool catalogue once, in order, and ends, except under the repeated-cursor profile |
| McpCatalog.ResourcePages | codex/scripts/mcp_conformance/server.py:1040-1065 | the two resource pages are the two resources |
| McpCatalog.CatalogueSizes | codex/scripts/mcp_conformance/server.py:273-290 | the boundary catalogues hold exactly 1024 and 1025 tools |
| Trajectory.MarkSystemSkips | webui/src/trajectory/model.ts:101-114 | exactly the unblocked calls with two earlier identical calls are marked |
| Trajectory.MarkingIsIdempotent | webui/src/trajectory/model.ts:101-114 | marking twice is marking once |
| Trajectory.ComputeTotals | webui/src/trajectory/model.ts:155-167 | the loop computes the totals |
| Trajectory.MarkingChangesTotals | webui/src/trajectory/model.ts:101-167 | marking changes the totals only by the number of marks and their tokens |
| Trajectory.TokensPartitioned | webui/src/trajectory/model.ts:157-163 | input, output and call tokens make up the total |
| Trajectory.HookTokensWithinInput | webui/src/trajectory/model.ts:157-163 | with token counts that are not negative, hook tokens are at most the input tokens |
| Trajectory.HookRows | webui/src/trajectory/model.ts:128-140 | the pass and the sort yield the stably sorted per-plugin rows |
| Trajectory.TableAccountsForHooks | webui/src/trajectory/model.ts:128-140 | the table is sorted, keeps ties in order, has one row per plugin and conserves fires and tokens |
| DiffCount.AcceptedLineCounts | codex/codex-rs/analytics/src/accepted_lines.rs:27-61 | the loop counts as the single pass of the model |
| DiffCount.ExactOnGitDiffs | codex/codex-rs/analytics/src/accepted_lines.rs:27-61 | on the text of every structured diff the counts are the true ones, whatever its hunk lines look like |
| DiffCount.CountsAddUp | codex/codex-rs/analytics/src/accepted_lines.rs:27-61 | counts of two diffs add up exactly unless the first ends in a hunk and the second begins with a bare header |
| DiffCount.BareHeadersAreCounted | codex/codex-rs/analytics/src/accepted_lines.rs:27-61 | headers without a `diff --git` line are counted |

## Left out

- HTTP, JSON and file plumbing, Electron windows, the flash timer, island placement and the deep scan of `desktop/main.js`; a request is a parsed value and a write is an append.
- The 30-second automatic denial lives in island.html, which is not part of this model; it is the answer "no".
- Regular expressions of `desktop/main.js` are predicates; of the noise rules only what `Noise.LineBased` says is used.
- Floating point: similarity is the squared cosine in real numbers, compared with the squared thresholds.
- Similarity.Embed: gives the counts of the trigrams; what their division by the norm comes to is Similarity.CosineSquared.
- Similarity.Fold: lower-cases ASCII letters only, and a character outside the basic multilingual plane counts as one unit; no theorem depends on either.
- The gate theorems are about one process: the id counter restarts with the program, while log files and saved rules persist.
- GateLog.FirehoseRun: counts events against reviews and calls; it does not tie one event to one id, because events carry no id.
- SessionStore.SafeNames: file names that differ only in case are different files, as on file systems that distinguish case.
- A value of a request counts by its text, so the number 5 and the string "5" are the same id; a write that the file system refuses is not modelled.
- Guardian: the maps are fields of value type reassigned in place; the two indexes and the thread files are objects of their own.
- Guardian.Guardian.ReadThread: an entry in a file stands for its kind, review id, verdict and decider; the rest of the body is not modelled.
- ReleaseRun.Store.PutAndVerify: of the CRC64NVME checksum only its presence is modelled.
- SHA-256 and the AWS and GitHub commands; a failed command is a stopped run. Of a version the theorems use only the characters its pattern allows.
- ReleaseMetadata.GetReleaseMetadata: takes parsed fields, and an asset name with a slash, of which the program would keep only the last part, is not modelled.
- ReleaseResume.Convergence: is about one run at a time; interleaved runs are the subject of ReleaseSafety.PublicationSafety.
- Python's crash on unhashable values (a list where a source, status or transport name belongs) is modelled as a malformed entry; both refuse the report.
- Floats in reports are real numbers, so NaN and rounding are not modelled.
- The list of scenarios of each mode and the decimal digits of Unicode are parameters of ComplianceGate.
- ModuleBazel reads fields that stand on one line, as its own comment describes; a field split over lines, which the expressions would also match, is not modelled. Manifest parsing is left out: digests are lower-case hexadecimal, which it enforces.
- In the fixture server the bodies of tools, resources, prompts and subscriptions, the fixed documents, and the `data` members of errors are parameters or omitted; header validation is a flag; SSE framing and argument parsing are left out.
- McpServer.HandleModernAnswers: what the bodies put into a result is a parameter; that it comes back once under the request's id is what is proved.
- McpRuns.HandleAnswers: the same for both modes.
- McpHttp.DeletedSessionIsSilent: a request is one step; the server is threaded and locks the table alone, so a request that looked its session up before the DELETE may still answer after it.
- McpHttp.FixtureHttpServer.DoPost: whether an origin names the local host is a parameter; a body on which the reader gives up, and an answer that cannot be encoded, on both of which the connection closes without a response, are not modelled.
- McpRuns.RequestsAnsweredInOrder: assumes of the tool bodies that what they send ahead of a response are notifications.
- Token and duration counts of the trajectory are integers; other fields of a record are omitted because no fold reads them.
- Line counts of a diff are unbounded; u64 overflow is not modelled.
- React views, mock data, the agent graph store, agent identity, notarisation, packaging and build scripts: outside the model.
