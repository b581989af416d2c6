# A verified model of AICoder

AICoder is a coding agent: a run loop asks a language model for the next step, executes the tools it
requests, and keeps a persistent plan, a change journal, an evidence memory and a set of external MCP
servers around it. This project models its stateful core in Dafny and proves what the parts promise each
other. `dafny verify dfyconfig.toml` checks everything.

| module | what it models |
|---|---|
| `AgentRuntime` | the run loop: a class whose methods update the same flags, caches and counters, one method per phase of a turn |
| `RunProtocol`, `CallProcessing` | what a turn and a call make of the state they meet, as functions, and what holds of every turn, call and run |
| `RunHistory`, `ResumedRuns` | the meaning of the runtime flags over the log of calls of one run, and over chains of resumed runs |
| `PlanProgress`, `AgentPlan` | the persistent plan and how it follows the flags |
| `FailureTracking`, `LoopGuard`, `ResultCache`, `Tools` | failure counts and circuit, repeated batches, the cache of results, the classified tool calls |
| `TrimMessages`, `ToolProtocol` | context trimming and the text tool-call protocol |
| `FileModes`, `FileEdit`, `ChangeJournal`, `DirectoryTree`, `CreatedDirectories`, `ArchiveExtraction`, `WorkspaceRestore` | edits, the backup-before-mutation gate, and the four kinds of rollback of files and directories |
| `McpService`, `EventStream` | the transactions over keyring and registry, and the reply parser of HTTP sessions |
| `CodexServer` | the request demultiplexer over a shared queue |
| `EvidenceMemory` | the hot map of file evidence over its durable table, and the recall of unchanged reads |

Code that works step by step is a class or a method with loops, proved against a function or a predicate on
values; lemmas then prove what the source promises about that specification. Model replies, tool outcomes,
text classifiers, clocks, faults, arrivals and operator stops are arbitrary: they are parameters, function
values or nondeterministic choices. Ghost fields of a run log every call, batch and guard question; the
promises over whole runs are stated over those logs.

## What does not hold as documented

The code is modelled as it is. Where it falls short of what it says, the lemmas give the exact condition.

- `trim_messages` fails on a list holding nothing but the system message (`TrimMessages.Trim`).
- A refused `file_edit` can still change its target: text mode turns CRLF into LF, the read-back check then
  fails, and the text put back is the translated one (`FileEdit.RefusalKeepsFilesExactlyWhen`).
- The exactly-once check of `replace` counts occurrences that do not overlap (`FileEdit.ExactlyOnceMeans`).
- Every edit, even one that is refused after writing, and every rollback clear the set-user-id, set-group-id and sticky
  bits of the target, and a file of mode zero comes back from a rollback with mode 0600
  (`FileEdit.EditsClearSpecialBits`, `FileEdit.RefusalKeepsFilesExactlyWhen`, `ChangeJournal.RollbackUndoesTheEdit`,
  `ChangeJournal.RollbackLosesSpecialBits`).
- The record of a failed edit has no digest of the result, so its rollback does not notice newer work
  (`ChangeJournal.ErrorRecordsSkipTheNewerWorkCheck`).
- A recovery copy that is not what its record says is noticed only after it replaced the target
  (`ChangeJournal.OpenRecordsRollBack`).
- The record of a failed directory creation still names its target, so its rollback removes an empty directory that
  someone made there later (`CreatedDirectories.RollBackFailedCreation`).
- Rolling back a created directory leaves the directories that were created above it
  (`CreatedDirectories.RollbackIsExactExactlyWhenTheParentExisted`).
- A workspace rollback clears the workspace before it reads the archive. What it extracts passes the data filter of
  `tarfile`, so even a complete snapshot changes a file of mode 0664 or 0444
  (`WorkspaceRestore.GroupWritableFilesComeBackChanged`), and a snapshot that selects files (the one of a Git root)
  loses every file it did not select and every directory without a selected entry, the repository included
  (`WorkspaceRestore.RollbackIsExactExactlyWhenComplete`, `WorkspaceRestore.GitRootLosesItsRepository`).
- The rollback of a saved MCP server writes the previous entry through the validator: it is exact exactly for
  entries the validator accepts unchanged (`McpService.Service.RestoreEntry`).
- Reads of the keyring fail quietly. A secret that could not be read for the snapshot is deleted by the rollback
  (`McpService.Service.SaveServer`, and for one concrete run `McpService.RefusedSaveLosesAnUnreadKey`), one that could
  not be read while stored fields were listed survives the cleanup or the removal
  (`McpService.OnlyItsFieldsRemainExactlyWhen`, `McpService.EmptiedExactlyWhen`).
- The verification gate is about the last effect only: a self-verifying edit opens it although an earlier code
  edit was never checked (`RunHistory.SelfVerifyingEditOpensTheGate`, `RunHistory.EveryEffectVerifiedExactlyWhen`).
- A call that a stage policy denies is reported as a success. Such a denied test opens the verification gate, and such a
  denied read the inspection gate of a resumed run (`RunHistory.DeniedCallsOpenTheGates`); the log both gates judge by
  says what really ran exactly when there is no such denial (`RunHistory.LogTellsWhatRanExactlyWhen`).
- A check that is classified as changing state marks the implementation step done although the run has seen no
  mutation, and a recalled read classified that way withdraws the persisted proof; only the safe direction holds
  for the plan (`PlanProgress.PersistedMutationIsEqualExactlyWhen`, `PlanProgress.RecalledReadKeepsThePlan`).
- An answer that begins with DONE and also requests calls completes the run without asking for the mutation the
  settings require (`RunProtocol.AdmittedBatch`).
- A read that fails after its file changed makes later recalls of it untrue (`EvidenceMemory.ReadSession.FileRead`,
  `EvidenceMemory.UntrueRecall`), and a failing database leaves a hot entry without its row
  (`EvidenceMemory.EvidenceStore.InspectFile`, `EvidenceMemory.FailingWriteBreaksCoherence`).
- The queue of the Codex client keeps every message but not their order: messages passed over move behind
  (`CodexServer.Searched`).
- The event-stream parser ignores all fields but `data` and strips all leading white space of it, not one space
  as section 9.2.6 of the WHATWG HTML standard says (`EventStream.Data`).

## Model

| member | source | states |
|---|---|---|
| AgentRuntime.AgentRun.Run | aicoder/agent_runtime.py:1261-1306 | For every script: the turns taken are those of the script in order, each as the turn specification says; the run ends with the first turn that ends it, else it pauses once the limit is reached and no request of the host is open, at the latest two turns beyond; state, result and the number of model turns are those of the script; plan, guard and checkpoint agree with the result; a completed run with enforced verification has its last effect verified (and tested where required); every promise below holds over the whole log |
| AgentRuntime.AgentRun.CompletedRunsAreVerified | aicoder/agent_runtime.py:1563-1564 | The gate in terms of the log of calls: the flags a completion is judged by mean that the last effect verified itself or was followed by a successful check of a known mutation, and for required tests by a successful test |
| AgentRuntime.AgentRun.ValidRunsKeepTheirPromises | aicoder/agent_runtime.py:2033-2043 | Every reachable state of a run keeps: risky calls of a resumed run come after a fresh inspection, failures stay bounded, mutating batches are never repeated, reuse is faithful in a stable world, the cache holds at most 64 entries, the stored plan forgets no mutation and invents no proof |
| AgentRuntime.AgentRun.TakeTurn | aicoder/agent_runtime.py:1281-1318 | Result and state after one turn are those of the turn specification for the reply at hand (RunProtocol says in plain terms what that is for every kind of reply); a yield or an operator stop calls no model, any other turn exactly once |
| AgentRuntime.AgentRun.TextTurn | aicoder/agent_runtime.py:1470-1640 | Requests sent and result of an answer without calls are those of the specification, and the run invariant holds afterwards |
| AgentRuntime.AgentRun.AskForMore | aicoder/agent_runtime.py:1479-1609 | Of the gates of a final answer, in the order of the source, the first closed one decides what is asked for, or that there is no hope because it was asked for before |
| AgentRuntime.AgentRun.CompletionSignal | aicoder/agent_runtime.py:1765-1832 | The completion call ends the run exactly when it is alone in its batch, has a summary, and no gate is closed; otherwise it counts as a failed call that ran nothing, and may have asked for the audit |
| AgentRuntime.AgentRun.DoneTurn | aicoder/agent_runtime.py:2502-2567 | A DONE answer with calls completes the run exactly when the verification gate and the audit are met, and otherwise asks for what is missing or gives up; it does not ask for a required mutation |
| AgentRuntime.AgentRun.Complete | aicoder/agent_runtime.py:846-888 | The completion guard is asked once; its refusal fails the run and the plan, otherwise plan and result are completed and a cleared checkpoint stays cleared |
| AgentRuntime.AgentRun.CompletePlan | aicoder/agent_runtime.py:865-888 | The completed plan keeps every invariant of the run: unneeded steps are skipped, done ones stay done |
| AgentRuntime.AgentRun.SaveJournal | aicoder/agent_runtime.py:727-750 | Never writes a checkpoint for a completed plan, and changes neither steps nor status of the plan |
| AgentRuntime.AgentRun.Pause | aicoder/agent_runtime.py:1006-1014 | A paused result leaves a paused plan and a valid run |
| AgentRuntime.AgentRun.ProcessTool | aicoder/agent_runtime.py:1943-2090 | Which of circuit, reuse, denial, recall and execution answers a call, what the model is told, and the whole situation afterwards; only a rejection ends the run |
| AgentRuntime.AgentRun.RunTool | aicoder/agent_runtime.py:2091-2194 | An executed call is logged with the outcome the world gives, the world moves on with it, cache, circuit, counts, flags and recorded reads move as specified, and the model is told the outcome |
| AgentRuntime.AgentRun.TurnDown | aicoder/agent_runtime.py:2008-2043 | A denied call runs nothing, is logged as turned down, and moves nothing but the failure counts and the circuit |
| AgentRuntime.AgentRun.Recall | aicoder/agent_runtime.py:2045-2090 | A recalled read keeps every invariant and moves nothing but the mutation flag, as the flag specification says |
| AgentRuntime.AgentRun.Reuse | aicoder/agent_runtime.py:1971-2007 | A reused result keeps all invariants and counts as an inspection attempt, but never opens the inspection gate |
| AgentRuntime.AgentRun.Dispatch | aicoder/agent_runtime.py:2137-2194 | After an execution the cache is still faithful in a stable world; a successful state mutation empties the cache and the failure circuit; a successful read may be recorded |
| AgentRuntime.AgentRun.Settle | aicoder/agent_runtime.py:2195-2283 | After a call that ran or was turned down flags, counts, circuit and requests are those specified and the whole run invariant holds again; exactly a rejection by the user ends the run |
| AgentRuntime.AgentRun.TrackFailure | aicoder/agent_runtime.py:2195-2231 | The failure count of one signature grows by one, a call is blocked from its third equal failure on or after a hard time-out, the circuit keeps holding, and a check that keeps failing alike is noticed |
| AgentRuntime.AgentRun.Progress | aicoder/agent_runtime.py:2261-2283 | A successful call moves runtime flags and plan together: flags keep their meaning over the log and the plan stays on the safe side |
| AgentRuntime.AgentRun.MoveFlags | aicoder/agent_runtime.py:2265-2283 | The flags after a successful call: a new effect withdraws test, verification and verification request |
| AgentRuntime.AgentRun.RecordToolProgress | aicoder/agent_runtime.py:760-844 | The plan steps set one by one are those of the specification, which the lemmas of PlanProgress are about |
| AgentRuntime.AgentRun.AdmitBatch | aicoder/agent_runtime.py:1642-1737 | Every requested batch is logged with whether it runs; what the guard remembers afterwards, and that this keeps a mutating batch from running twice in a row, through resets and polling |
| AgentRuntime.AgentRun.CallTurn | aicoder/agent_runtime.py:1642-1760 | State and result of an answer with calls are those of the specification; exactly one batch is requested per answer, and a batch that is not admitted runs no call |
| AgentRuntime.AgentRun.RunBatch | aicoder/agent_runtime.py:1746-1756 | The loop over the calls gives the situation, the told results and the end of the batch specification: calls in order until one ends the run |
| AgentRuntime.AgentRun.AfterBatch | aicoder/agent_runtime.py:2301-2500 | The run pauses after a batch exactly when it stalls, and what the guard remembers then |
| AgentRuntime.PreparePlan | aicoder/agent_runtime.py:675-710 | When a plan is created, resumed, left out, or an error, and with which progress flags; only a named plan that is missing or completed is an error |
| AgentRuntime.ResumeAfter | aicoder/agent_runtime.py:1205-1211 | A run resumed from what another left begins with flags that forget no mutation and invent no proof, with the inspection gate closed, and extends the chain of runs by one link |
| RunProtocol.IterationLimit | aicoder/agent_runtime.py:1261-1261 | The limit lies between one and the configured maximum; a request between them is used as it is, none or a larger one gives the maximum |
| AgentRuntime.CacheAfterExecution | aicoder/agent_runtime.py:2137-2146 | Executing a call keeps every cached result equal to what executing it now would return |
| RunHistory.FlagsKeepTheirMeaning | aicoder/agent_runtime.py:2261-2273 | Over every call: mutation, verification and test flag hold exactly if the log says so |
| RunHistory.FlagsAreOrdered | aicoder/agent_runtime.py:2261-2273 | Tested implies verified implies mutated |
| RunHistory.SelfVerifyingEditOpensTheGate | aicoder/agent_runtime.py:796-819 | After an effect that neither verified itself nor was checked, a self-verifying edit opens the gate although that effect stays unproven |
| RunHistory.EveryEffectVerifiedExactlyWhen | aicoder/agent_runtime.py:2265-2271 | When the gate is passed, every effect is proven exactly unless the last effect verified itself and an earlier one did not, with no check after it |
| RunHistory.RiskStep | aicoder/agent_runtime.py:2033-2043 | One more call keeps risky calls behind a fresh inspection |
| RunHistory.RunMeansStep | aicoder/agent_runtime.py:2261-2283 | All flag meanings and the inspection gate are kept by one more call of any kind |
| ResumedRuns.CompletedStoryIsVerified | aicoder/agent_runtime.py:1205-1205 | For any chain of resumed runs: when the last run passes the gate, the last effect of all their calls together verified itself or was followed by a successful check |
| ResumedRuns.ChainsTell | aicoder/agent_runtime.py:1205-1205 | The flags a chain leaves in the plan tell the truth about its whole story |
| ResumedRuns.StoryGoesOn | aicoder/agent_runtime.py:1205-1205 | A proof of one more run is a proof of the story so far |
| PlanProgress.ExecutedCallKeepsThePlan | aicoder/agent_runtime.py:775-844 | An executed call keeps the plan sound and on the safe side, and the persisted proof equal to the runtime one |
| PlanProgress.RecalledReadKeepsThePlan | aicoder/agent_runtime.py:2075-2080 | A recalled read keeps the safe side; the persisted proof stays equal exactly unless the read is classified as a mutation of a verified run |
| PlanProgress.PlanMayKnowMoreMutations | aicoder/agent_runtime.py:796-833 | A check classified as an effect, run before any mutation, marks implementation done while the run knows no mutation |
| PlanProgress.FinishingKeepsThePlan | aicoder/agent_runtime.py:865-886 | Completing a plan keeps it sound, on the safe side and equal in its proof |
| AgentPlan.Plan.SetStep | aicoder/agent_plan.py:141-148 | The loop changes the first step with the id and no other |
| AgentPlan.Plan.Create | aicoder/agent_plan.py:179-206 | A new plan is stored, running, with three ordered steps and no progress flags |
| AgentPlan.Plan.Resume | aicoder/agent_runtime.py:695-704 | A resumed plan keeps its steps and counts the resume |
| AgentPlan.Plan.Save | aicoder/agent_plan.py:208-215 | The stored plan is the current one |
| AgentPlan.FlagsOfShaped | aicoder/agent_plan.py:150-155 | The progress flags of a plan with its three steps |
| AgentPlan.WithStatusOfShaped | aicoder/agent_plan.py:141-148 | Setting a step of such a plan touches exactly that step |
| FailureTracking.FailureTracker.Observe | aicoder/failure_tracking.py:138-149 | Counts per signature; no family with a count above the retry budget is retryable |
| FailureTracking.CircuitStep | aicoder/agent_runtime.py:2195-2210 | A failure of a call that was not blocked keeps: beyond two, every failure of a family belongs to a different blocked call |
| FailureTracking.FailuresAreBounded | aicoder/agent_runtime.py:1943-1970 | One failure family is met at most two times plus once for every different call |
| FailureTracking.AlwaysBoundedStep | aicoder/agent_runtime.py:1943-1970 | That bound holds at every moment of a run, counted since the last successful state mutation |
| ResultCache.PutKeepsTheCacheSound | aicoder/agent_runtime.py:2142-2146 | Through overwriting and dropping the oldest entry the cache stays duplicate free, within 64 entries and faithful |
| ResultCache.PutThenLookup | aicoder/agent_runtime.py:1971-1976 | A stored result is found again and no other entry is lost except the oldest of a full cache |
| LoopGuard.AgentLoopGuard.ObserveCalls | aicoder/executor.py:238-249 | How often in a row a batch was requested |
| LoopGuard.AgentLoopGuard.Observe | aicoder/executor.py:251-266 | How often the same calls gave results with the same last 1200 characters within the window |
| LoopGuard.AgentLoopGuard.ObserveSemanticStall | aicoder/executor.py:268-290 | How often the same bag of no-progress signatures recurred since the last progress |
| LoopGuard.BatchStep | aicoder/agent_runtime.py:1642-1737 | What the guard remembers and the absence of repeated mutating batches are kept by one more batch |
| LoopGuard.AnotherBatchInBetween | aicoder/executor.py:238-249 | Between two executions of the same mutating batch a different batch was requested |
| TrimMessages.Trim | aicoder/executor.py:1463-1495 | Fails exactly on a one-element list; otherwise the result is the specified one, whose size in characters KeptTextFitsTheLimit states |
| TrimMessages.BudgetStart | aicoder/executor.py:1467-1479 | The backward scan finds the longest run of newest messages within the budget |
| TrimMessages.OwnedStart | aicoder/executor.py:1480-1494 | The two loops over tool results reach the owner or the first message past them |
| TrimMessages.SuffixNeverOrphansToolResults | aicoder/executor.py:1480-1495 | System message plus contiguous suffix that never opens with a tool result and reaches back only to the owning assistant call |
| TrimMessages.ToolFreeLogsKeepTheLongestSuffix | aicoder/executor.py:1463-1479 | Without tool results the suffix is the longest within both limits, newest message always kept |
| TrimMessages.TrimIsIdempotent | aicoder/executor.py:1463-1495 | Trimming a trimmed conversation of at least two messages changes nothing |
| TrimMessages.TrimIsDetermined | aicoder/executor.py:1463-1495 | The specification has exactly one result |
| ToolProtocol.ParseSequence | aicoder/executor.py:1329-1365 | A text yields calls exactly when it is well formed (which the lemmas on rendered calls, prose and fences spell out), and then the decoding of every block in order |
| ToolProtocol.DecodeAll | aicoder/executor.py:1341-1360 | The cursor loop decodes all blocks and collects exactly the text between them, or fails |
| ToolProtocol.EveryBlockIsAMatch | aicoder/executor.py:69-73 | Every block is a match of the block expression where it lies |
| ToolProtocol.EveryMatchIsCovered | aicoder/executor.py:1337-1337 | No match of the block expression is missed |
| ToolProtocol.MatchRendered | aicoder/executor.py:69-73 | A rendered call is matched as a whole, whatever follows |
| ToolProtocol.RenderThenParse | aicoder/executor.py:1329-1365 | Round trip: rendering any list of calls and parsing gives that list, for every JSON printer the decoder inverts |
| ToolProtocol.StripToolCalls | aicoder/executor.py:1446-1453 | The v2 branch applies exactly when the text is well formed with prose allowed, and removes exactly the blocks up to outer white space |
| ToolProtocol.BlocksAndGapsPartitionTheText | aicoder/executor.py:1341-1358 | Blocks and the pieces between them make up the text |
| FileEdit.FileSystem.RunFileEdit | aicoder/executor.py:1748-1820 | Reply and files, modes included, are those of the specification, through write, read-back and undo |
| FileEdit.FileSystem.AtomicWrite | aicoder/executor.py:1632-1649 | Only the target changes, keeping the nine permission bits of its mode |
| FileEdit.SuccessChangesExactlyTheTarget | aicoder/executor.py:1748-1820 | Success changes the target and nothing else, to the planned text, and really changes it; its mode stays exactly when it sets no special bit |
| FileEdit.RefusalKeepsFilesExactlyWhen | aicoder/executor.py:1810-1817 | A refused edit leaves all files unchanged exactly unless it asks to store a carriage return over a file that holds one or sets a special mode bit |
| FileEdit.RefusedEditCanRewriteItsTarget | aicoder/executor.py:1810-1817 | A concrete refused edit that rewrites its target |
| FileEdit.OtherFilesAreKept | aicoder/executor.py:1748-1820 | No file but the target is ever touched |
| FileEdit.ExactlyOnceMeans | aicoder/executor.py:1786-1789 | The exactly-once check accepts exactly texts with a leftmost match and none after its end |
| FileEdit.OverlappingMatchesAreAccepted | aicoder/executor.py:1786-1789 | A text with two overlapping matches is accepted |
| FileEdit.ReadsBackUnchanged | aicoder/executor.py:1810-1812 | Text mode reads back what was written exactly when it holds no carriage return |
| FileEdit.EditKeepsPythonSound | aicoder/executor.py:1707-1731 | One edit without the opt-out keeps a parsing Python file parsing |
| FileEdit.PythonKeepsParsing | aicoder/executor.py:1707-1731 | So does any sequence of edits |
| ChangeJournal.Journal.PrepareFileChange | aicoder/change_journal.py:87-107 | A copy of an existing file and the permission bits of its mode are noted before the change, or its absence, unless the target is no regular file or the backup store cannot be written |
| ChangeJournal.Journal.RunGatedEdit | aicoder/executor.py:2717-2727 | No edit starts exactly when the recovery copy cannot be made; otherwise reply and files are those of the edit and its outcome is recorded |
| ChangeJournal.Journal.Rollback | aicoder/change_journal.py:219-258 | A rollback that is not approved is refused and changes nothing; exactly when there is no such record, no approval, or the record was rolled back already it is refused for that reason; a completed one is marked; reply and state are those of the specification |
| ChangeJournal.FaithfulIsKept | aicoder/change_journal.py:205-211 | Every recovery copy a record points to keeps being what the record says |
| ChangeJournal.ChangedFilesAreBackedUp | aicoder/executor.py:2717-2727 | No file is changed before its old text is stored |
| ChangeJournal.RollbackUndoesTheEdit | aicoder/change_journal.py:219-258 | Rolling back restores the files exactly unless the target had mode zero or a special mode bit |
| ChangeJournal.NewerWorkIsNeverOverwritten | aicoder/change_journal.py:213-217 | The rollback of a success completes exactly when the target holds what the action left, and otherwise changes no file |
| ChangeJournal.ErrorRecordsSkipTheNewerWorkCheck | aicoder/executor.py:2965-2968 | The record of a refused edit is rolled back over any regular file now at the target |
| ChangeJournal.ReverseRollbackRestoresEverything | aicoder/change_journal.py:219-258 | Any sequence of successful edits is undone, contents and modes, by rolling back in reverse order, exactly unless one of its targets had mode zero or a special mode bit |
| ChangeJournal.RolledBackAtMostOnce | aicoder/change_journal.py:228-229 | Over any history no record is rolled back successfully twice |
| WorkspaceRestore.Workspace.RemoveExceptBackup | aicoder/change_journal.py:269-282 | Removes the subtree except for the store and the directories above it |
| WorkspaceRestore.Workspace.RemoveChildren | aicoder/change_journal.py:284-285 | The loop over a directory removes what removing each entry alone would |
| WorkspaceRestore.Workspace.RestoreSnapshot | aicoder/change_journal.py:264-293 | Clears, then extracts member by member; an unreadable archive is noticed only after clearing, a member that cannot be extracted stops half way |
| WorkspaceRestore.ClearingSparesTheStore | aicoder/change_journal.py:269-285 | Clearing removes exactly what lies below the root outside the store and not above it |
| WorkspaceRestore.RestoredRegionEqualsTheArchive | aicoder/change_journal.py:286-293 | Afterwards the region holds exactly the members and the directories above them, with the modes the data filter gives; everything else is untouched and the tree is proper |
| WorkspaceRestore.ArchivesLeaveOutTheStore | aicoder/workspace_backup.py:250-330 | Neither a member of a snapshot nor a directory implied by one lies in the store |
| WorkspaceRestore.RollbackIsExactExactlyWhenComplete | aicoder/change_journal.py:263-293 | Whatever happened since, the region is as before exactly when every file of it was selected with a mode the filter keeps and every directory lies at or above something selected |
| WorkspaceRestore.GitRootLosesItsRepository | aicoder/workspace_backup.py:192-248 | The snapshot of a Git root leaves out its repository, so a rollback removes it |
| CreatedDirectories.DirectoryJournal.RunDirectoryCreate | aicoder/executor.py:1823-1839 | When a directory is created, when the call is blocked because its absence cannot be noted, and that nothing else changes; an existing path makes the record irreversible |
| CreatedDirectories.DirectoryJournal.Rollback | aicoder/change_journal.py:259-263 | Completes exactly for an approved, open record whose directory exists and is empty, and removes only it |
| CreatedDirectories.CreatingKeepsATree | aicoder/executor.py:1836-1836 | A created directory is empty and leaves a proper tree |
| CreatedDirectories.RollbackIsExactExactlyWhenTheParentExisted | aicoder/change_journal.py:259-263 | The old tree is back exactly when the directory above existed before |
| CreatedDirectories.LeftoversAreAbove | aicoder/change_journal.py:259-263 | Right after the creation, a rollback loses nothing and leaves over only directories above the target |
| McpService.Service.SaveServer | aicoder/mcp_service.py:83-132 | Succeeds exactly when no step fails and the mode has its credential. On failure the registry is as before and the keyring loses exactly the secrets the snapshot failed to read; on success the entry is stored, the keyring holds the field the mode stands for, supplied or stored and not empty, and field by field for each of the six modes no other managed field but those that could not be read |
| McpService.Service.SaveSteps | aicoder/mcp_service.py:98-119 | Exactly which faults and missing credentials stop the forward steps, and what they leave behind either way |
| McpService.Service.CleanupObsoleteFields | aicoder/mcp_service.py:71-80 | Exactly the managed fields of other modes that can be read are removed, and when a failing deletion stops it |
| McpService.Service.AuthorizeAndSave | aicoder/mcp_service.py:150-185 | The same guarantees for authorization around a nested save, whose own reads and steps may fail too, and exactly when it succeeds |
| McpService.Service.AuthorizeSteps | aicoder/mcp_service.py:165-174 | Credentials, authorization and nested save together persist the supplied credentials |
| McpService.NestedSave | aicoder/mcp_service.py:165-174 | Storing, authorizing and saving without credentials is saving the supplied ones |
| McpService.Service.RemoveServer | aicoder/mcp_service.py:187-208 | How a removal ends, from its faults; it removes the entry and every managed secret that can be read; a rolled back one restores both stores exactly when the snapshot missed no secret and the entry can be written back |
| McpService.Service.TestCandidate | aicoder/mcp_service.py:231-243 | When the test passes; the keyring is as before exactly when the snapshot missed no secret, whatever the test says |
| McpService.Service.RollBack | aicoder/mcp_service.py:120-132 | The handlers restore the keyring but for the missed secrets and, for an entry that can be written back, the registry |
| McpService.Service.RestoreEntry | aicoder/mcp_service.py:124-131 | The registry is back exactly when the previous entry can be written back unchanged |
| McpService.Keyring.Restore | aicoder/mcp_credentials.py:78-97 | Of the managed fields exactly the snapshot is stored, nothing else changed |
| McpService.RestoreIsExactExactlyWhen | aicoder/mcp_credentials.py:73-97 | Restoring a snapshot loses exactly the secrets it missed |
| McpService.Registry.Put | aicoder/mcp_registry.py:207-213 | Stores the validated entry under its name |
| McpService.Registry.Remove | aicoder/mcp_registry.py:215-219 | Removes one entry |
| EventStream.ParseEventStream | aicoder/mcp_registry.py:330-367 | The line fold returns the reply its payloads specify |
| EventStream.Consume | aicoder/mcp_registry.py:335-350 | One finished group: an answer or error is final, otherwise the first message is remembered |
| EventStream.ReplyIsDetermined | aicoder/mcp_registry.py:330-367 | Every stream has exactly one reply |
| EventStream.DecodableStreamsNeverFail | aicoder/mcp_registry.py:330-367 | If all payloads decode: the first message with the expected id, else the first message, else nothing |
| EventStream.ErrorsMatterOnlyBeforeTheAnswer | aicoder/mcp_registry.py:330-367 | The parse fails exactly when an undecodable payload comes before any answer |
| CodexServer.CodexAppServer.Request | aicoder/account_providers.py:607-632 | Consumes nothing but the first message with its own id; every other message stays queued; it ends without a waiting reply only when it was not sent, the process has exited, or no poll is left to reach it |
| CodexServer.CodexAppServer.Search | aicoder/account_providers.py:614-632 | The receive loop takes the first wanted message and puts the passed-over ones back; it does not give up on a wanted message that waits while there are polls for it and those before it |
| CodexServer.CodexAppServer.Receive | aicoder/account_providers.py:593-605 | Takes the oldest message, a waiting one at the first poll; fails exactly when the polls run out or meet the exit of the process with nothing waiting |
| CodexServer.CodexAppServer.WaitNotification | aicoder/account_providers.py:644-659 | Consumes only the first notification of the kind, which carries no id, and takes it if it waits in reach of the polls |
| CodexServer.CodexAppServer.LoginChatgpt | aicoder/account_providers.py:680-716 | Over two requests and a wait in between, exactly the start reply, the completion of this login and the account reply are consumed, as far as they came; a start reply without login id or address ends it; every other message stays queued |
| CodexServer.SearchingConserves | aicoder/account_providers.py:607-659 | Searching neither loses nor duplicates a message |
| CodexServer.SearchKeepsBalance | aicoder/account_providers.py:607-659 | Queued, held and consumed messages stay all delivered ones under any arrivals |
| EvidenceMemory.EvidenceStore.InspectFile | aicoder/evidence_memory.py:163-211 | Result, hot map and row of one inspection; coherence is kept exactly when the database works, nothing is written, or the row already says the same |
| EvidenceMemory.WarmRecentFiles | aicoder/evidence_memory.py:143-155 | The hot map starts with the most recent rows of the workspace |
| EvidenceMemory.EvidenceStore.constructor | aicoder/evidence_memory.py:65-71 | A new store is coherent and warm |
| EvidenceMemory.Recheck | aicoder/evidence_memory.py:163-211 | Unchanged means the recorded content, always with a forced hash, otherwise if size and time stamp tell contents apart |
| EvidenceMemory.ReadSession.FileRead | aicoder/agent_runtime.py:2045-2090 | A recall is true while records and readings are in step; exactly a failing read of a key read before whose file has changed breaks that |
| AgentRuntime.AgentRun.constructor | aicoder/agent_runtime.py:1195-1222 | A new or resumed run starts valid and open, with the flags of the resumed plan or none, and the inspection gate closed exactly for a resumed run |
| AgentRuntime.AgentRun.ProcessCall | aicoder/agent_runtime.py:1746-1931 | One call as the call specification says: an operator stop before it, completion call, host tool or ordinary tool; the run invariant holds after each |
| AgentRuntime.AgentRun.ObserveBatch | aicoder/agent_runtime.py:2301-2400 | When a batch stalls the run, what the guard remembers of it, and that a run which only inspects is told to implement once |
| AgentRuntime.AgentRun.NoAnswer | aicoder/agent_runtime.py:1351-1414 | Only a failure that cannot be retried fails the run; an interruption or a transient failure pauses it |
| AgentRuntime.AgentRun.RecordFailure | aicoder/agent_runtime.py:790-793 | A failed or denied call stores the plan again and moves no flag |
| CreatedDirectories.RemovingKeepsATree | aicoder/change_journal.py:259-263 | Removing an empty directory leaves a proper tree |
| FileEdit.FindIsLeftmost | aicoder/executor.py:1786-1789 | The search finds the leftmost occurrence, or there is none |
| McpService.Service.SetAll | aicoder/mcp_service.py:99-103 | Supplied credentials are stored for this server only; success means exactly that every one is supported and could be written |
| McpService.Service.DeleteAll | aicoder/mcp_service.py:198-202 | Only managed secrets of the server are deleted; success, exactly when no found one resists, leaves exactly those that could not be read |
| McpService.Service.Contact | aicoder/mcp_service.py:110-115 | Contacting a server touches nothing but the tokens of an OAuth server |
| AgentRuntime.AgentRun.StoryIsVerified | aicoder/agent_runtime.py:1205-1205 | The gate of a completed run speaks for every run it was resumed from |
| AgentRuntime.RunAndResume | aicoder/agent_runtime.py:1205-1205 | Running and resuming any number of times: when the last run completes with enforced verification, the last effect of all runs together is proven |
| ResumedRuns.ChainGrows | aicoder/agent_runtime.py:1205-1205 | A run that leaves what it carries extends the chain |
| RunHistory.TwoEditsPassTheGateUnchecked | aicoder/agent_runtime.py:796-819 | A code edit and a self-verifying edit, with no check at all, pass the gate |
| PlanProgress.PersistedMutationIsEqualExactlyWhen | aicoder/agent_runtime.py:775-844 | The persisted mutation flag equals the runtime one exactly when a mutation is known, or both were unset and the call is no check classified as an effect |
| ChangeJournal.RollbackUndoesOne | aicoder/change_journal.py:219-258 | Over files some of whose modes did not come back, a rollback restores all but an unusual mode of its target |
| ChangeJournal.ReverseRollbackRestoresContents | aicoder/change_journal.py:219-258 | Undoing a sequence of edits gives back every file, targets with the permission bits of their modes and the fallback where there is none |
| ArchiveExtraction.FilterKeepsExactlyPlainModes | aicoder/change_journal.py:293-293 | The data filter keeps exactly modes that let the owner read and write, others not write, and set no special bit or lone execute bit |
| ArchiveExtraction.OneKeepsATree | aicoder/change_journal.py:286-293 | Extracting one member, with the missing directories above it, leaves a proper tree |
| ArchiveExtraction.NeverBlocked | aicoder/change_journal.py:286-293 | Members of one snapshot never stand in each other's way |
| ArchiveExtraction.ExtractedAt | aicoder/change_journal.py:286-293 | Members recorded from one tree extract completely, in any order: what stands in scope, what is left elsewhere |
| WorkspaceRestore.TakeSnapshot | aicoder/workspace_backup.py:267-318 | Exactly the listed entries outside the store are recorded |
| WorkspaceRestore.GroupWritableFilesComeBackChanged | aicoder/change_journal.py:293-293 | A selected file of mode 0664 or 0444 comes back with mode 0644 |
| McpService.Keyring.Snapshot | aicoder/mcp_credentials.py:73-75 | The stored secrets but those that cannot be read |
| McpService.OnlyItsFieldsRemainExactlyWhen | aicoder/mcp_service.py:71-80 | After a save only the fields of the mode are stored exactly when no other field with a secret escaped the search |
| McpService.EmptiedExactlyWhen | aicoder/mcp_service.py:197-202 | A removal leaves no managed secret exactly when none escaped the search |
| McpService.RefusedSaveLosesAnUnreadKey | aicoder/mcp_credentials.py:57-63 | A refused save after one failed read deletes the stored key |
| EvidenceMemory.FailingWriteBreaksCoherence | aicoder/evidence_memory.py:195-211 | One failing write leaves a hot entry without its row |
| EvidenceMemory.UntrueRecall | aicoder/agent_runtime.py:2058-2093 | A read, a failing read of the changed file, and a recall of the first although the file holds something else |
| CodexServer.CodexAppServer.AwaitLogin | aicoder/account_providers.py:695-716 | Only the completion of this login is consumed, and it is if it waits in reach of the polls; everything before it is held back |
| CodexServer.CodexAppServer.Account | aicoder/account_providers.py:661-662 | The nested account request consumes only its own reply |
| ToolProtocol.Execute | aicoder/executor.py:1337-1365 | Calls come out exactly when there are blocks, none in a fence, all decode, and what surrounds them is acceptable |
| FileModes.MaskKeepsExactlyOrdinaryModes | aicoder/executor.py:1634-1634 | The mask keeps exactly modes without special bits |
| FileEdit.EditsClearSpecialBits | aicoder/executor.py:1632-1643 | A program of mode 4755 has mode 0755 after a successful edit and after a refused one |
| ChangeJournal.ModeComesBackExactlyWhen | aicoder/change_journal.py:100-106 | A mode comes back from edit and rollback exactly when it is not zero and sets no special bit |
| ChangeJournal.RollbackLosesSpecialBits | aicoder/change_journal.py:100-106 | A program of mode 4755 comes back from any edit and its rollback with mode 0755 |
| CreatedDirectories.RollBackFailedCreation | aicoder/change_journal.py:259-263 | The record of a failed creation removes an empty directory that stands at its target later, whoever made it |
| RunHistory.LogTellsWhatRanExactlyWhen | aicoder/executor.py:2676-2688 | The log the gates judge by says what really ran exactly when no call was denied without an error |
| RunHistory.ReallyInspectedExactlyWhen | aicoder/executor.py:2676-2688 | A resumed run really inspected exactly when an inspection succeeded that was not denied |
| RunHistory.DeniedCallsOpenTheGates | aicoder/executor.py:2676-2688 | A denied test opens the verification gate after an edit, a denied read the inspection gate |
| RunProtocol.RunIsDetermined | aicoder/agent_runtime.py:1264-1280 | One script leads to one number of turns and one result |
| RunProtocol.TextCompletesExactlyWhen | aicoder/agent_runtime.py:1470-1640 | An answer without calls completes the run (or fails it through the guard) exactly when it is usable, a required mutation was made or its absence justified, a mutation is verified and tested as enforced, a required tool was used or asked for, and a due audit was asked for; it moves no log, flag or memory |
| RunProtocol.EveryTextAsksOrEnds | aicoder/agent_runtime.py:1479-1609 | An answer without calls that leaves the run open has sent exactly one more request, for the first thing it lacks, so at most five in a row leave it open |
| RunProtocol.CompletionPassesTheGate | aicoder/agent_runtime.py:1563-1564 | Whichever way a turn completes a run with enforced verification, its flags say that a mutation is verified, and tested where required |
| RunProtocol.AdmissionTable | aicoder/agent_runtime.py:1642-1737 | By how often in a row a batch is requested: what runs, what is answered by a request for something else, and what pauses the run |
| RunProtocol.ReadingBatchesRunTwice | aicoder/agent_runtime.py:1642-1700 | A batch with no mutating call runs a second time, and a third time exactly while polling |
| RunProtocol.StallsExactlyWhen | aicoder/agent_runtime.py:2301-2500 | A finished batch stalls exactly with a fifth equal failure of a check, a sixth equal outcome of the same calls, or a fourth equal bag of no-progress signatures without an effect, unless the run is being told to implement |
| RunProtocol.DeclinedBatchRunsNothing | aicoder/agent_runtime.py:1659-1737 | A batch the guard declines runs no call and changes nothing but what the guard and the host noted |
| RunProtocol.AdmittedBatch | aicoder/agent_runtime.py:1739-2567 | An admitted batch: its calls decide first, then a stall, then DONE with its gates, else the next turn |
| RunProtocol.NoAnswerEndsTheRun | aicoder/agent_runtime.py:1276-1414 | A yield, a stop, an interruption or a model failure ends the run with the result the source gives, and changes nothing |
| RunProtocol.FineFirstAnswerCompletes | aicoder/agent_runtime.py:1470-1640 | A run whose first answer is fine takes one turn and completes with that answer |
| RunProtocol.LogTellsTheRun | aicoder/agent_runtime.py:2091-2231 | At every moment of a run each logged outcome is what the tool gave in the world of that moment, only executed calls moved the world, the failure counts are those of the log, and a call is blocked only after its own hard time-out or three failures of its family |
| CallProcessing.AnsweredExactlyWhen | aicoder/agent_runtime.py:1943-2090 | Condition by condition, when a call of an ordinary tool is stopped, reused, denied, recalled or executed |
| CallProcessing.HostToolsRunNothing | aicoder/agent_runtime.py:1765-1931 | Meta tools and the completion call run nothing and move neither flags, cache, circuit nor counts |
| CallProcessing.ToldWhatHappened | aicoder/agent_runtime.py:1943-2194 | The model is told the outcome of the call, the kept result with its introduction, or the text of the host; only a failing check of a known mutation can stall a batch |
| CallProcessing.BatchFollowsTheRequests | aicoder/agent_runtime.py:1746-1756 | Calls are logged in the order requested; a batch that does not end the run answers all of them; what ended it is a stop, a rejection or the completion call |
| CallProcessing.CircuitTellsOn | aicoder/agent_runtime.py:2195-2231 | One more call keeps: counts are those of the log, and a call is blocked only for a hard time-out or three failures of its family |
| AgentRuntime.AgentRun.StartBatch | aicoder/agent_runtime.py:1739-1756 | State and result of an admitted batch are those of the specification |
| AgentRuntime.AgentRun.FollowBatch | aicoder/agent_runtime.py:2301-2567 | Requests, memory and result after the results of a batch are those of the specification |
| AgentRuntime.AgentRun.CountFailure | aicoder/agent_runtime.py:2195-2231 | The new count, the circuit and the stall of a failing call, written out |
| AgentRuntime.AgentRun.HandOver | aicoder/agent_runtime.py:1281-1298 | A yield leaves the plan running and the run valid |
| AgentRuntime.AnsweredAtOnce | aicoder/agent_runtime.py:1470-1640 | A fresh run that need not change anything and is answered at once makes one model call, runs no tool and completes with that answer |
| RunHistory.GateAfterAChange | aicoder/agent_runtime.py:2261-2273 | Tool by tool: after the last change of state the gate is passed exactly when that change read itself back or test, lint or a checking command passed later, and the stricter gate exactly when test passed later |
| RunHistory.GateWithoutAChange | aicoder/agent_runtime.py:2261-2273 | Without a change of state the gate is passed exactly with a proof a resumed plan brought along or a check of a mutation known before |
| RunHistory.InspectedMeans | aicoder/agent_runtime.py:2147-2148 | The inspection gate is opened exactly by a successful read or another inspecting tool |
| LoopGuard.MutatingCallsAreNotRepeated | aicoder/agent_runtime.py:1642-1737 | A batch with a mutating call never runs right after the same batch was requested |
| ChangeJournal.OpenRecordsRollBack | aicoder/change_journal.py:219-258 | Outcome by outcome, what the approved rollback of an open record gives and leaves; a copy that is not what its record says is noticed only after it replaced the target |
| ToolProtocol.FoundTicksAreFirst | aicoder/executor.py:1323-1323 | The search for fence marks finds the first triple backtick, or there is none |
| ToolProtocol.FencedExactlyWhen | aicoder/executor.py:1321-1326 | With all marks of a text between its pieces, a position in a piece is fenced exactly when an odd number of marks precedes it and another one follows |
| ToolProtocol.BlocksInAnyFenceAreInert | aicoder/executor.py:1338-1339 | When a block starts in any closed fence nothing of the text is executed, for every decoder and both prose settings |
| ToolProtocol.FencedBlocksAreInert | aicoder/executor.py:1338-1339 | The same between the first two marks of a text, the marks counted in |
| ToolProtocol.RenderedExamplesAreInert | aicoder/executor.py:1321-1339 | Rendered calls between two marks are never executed |
| ToolProtocol.CallsBeforeAnUnclosedMark | aicoder/executor.py:1321-1326 | A mark that is never closed makes no fence: the calls before it come out |
| ToolProtocol.CallsAfterAClosedFence | aicoder/executor.py:1321-1326 | The calls after a closed fence come out |
| ToolProtocol.ProseIsTolerated | aicoder/executor.py:1341-1365 | Round trip with prose: text without the opening word around rendered calls changes nothing, where it is allowed and no fence covers a call |
| TrimMessages.CharsAreCounted | aicoder/executor.py:1456-1460 | What the loops add up is the length of the texts and of the JSON list of tool calls, and 32 for each message |
| TrimMessages.KeptTextFitsTheLimit | aicoder/executor.py:1456-1479 | Without tool results and with a positive limit, what is kept beyond the newest message fits the larger of 4096 and the limit in characters of its texts, and the next older message in the window would not have fitted |
| TrimMessages.NoLimitKeepsTheWindow | aicoder/executor.py:1467-1467 | Without a positive limit the count window alone decides |
| TrimMessages.OversizedMessageIsDropped | aicoder/executor.py:1470-1479 | A concrete conversation whose middle message is too long keeps its first and last message |
| FileEdit.EditSucceedsExactlyWhen | aicoder/executor.py:1748-1820 | In plain terms, exactly when an edit is carried out |
| FileEdit.SuccessWrites | aicoder/executor.py:1766-1800 | What each operation leaves: the given text, the old text and the given one, or the old text with its leftmost match replaced; a new file has mode 0600 |
| FileEdit.PendingIsAskedFor | aicoder/executor.py:1766-1796 | The text computed is the one the operation asks for; a replacement needs a leftmost match with none after its end |
| FileEdit.ReadInParts | aicoder/executor.py:1810-1812 | Text mode reads a text part by part, unless a cut goes through a DOS line end |
| FileEdit.LineEndsAreTranslated | aicoder/executor.py:1810-1812 | A DOS line end and a lone carriage return both read as one newline |
| McpService.SavedByMode | aicoder/mcp_service.py:57-80 | What a save leaves of a server, mode by mode and field by field |
| McpService.SavesWithoutFaults | aicoder/mcp_service.py:98-119 | A save without a fault succeeds exactly when the supplied fields are supported and the field the mode stands for is supplied or stored |
| McpService.SavedWithItsOwnCredential | aicoder/mcp_service.py:57-63 | A concrete API-key server is saved with an API key, which is all the keyring holds then, and refused with any other credential |
| EventStream.WrittenEventsAreRead | aicoder/mcp_registry.py:330-367 | Round trip: events written as data lines, with white space before the data, carriage returns after lines and comments or other fields between them, are read back as the data of each event joined by newlines |
| EventStream.LineIsRead | aicoder/mcp_registry.py:350-359 | A data line is read as its text, a comment or another field as nothing |
| EventStream.TrimmedIsPrefix | aicoder/mcp_registry.py:350-350 | Trimming removes carriage returns at the end of a line and nothing else |
| CallProcessing.SignalCompletesExactlyWhen | aicoder/agent_runtime.py:1765-1832 | The completion call completes the run exactly when it is alone, has a summary and every gate named is open; when only the audit is missing it is asked for, once |
| CallProcessing.AfterAChange | aicoder/agent_runtime.py:2137-2146 | After a successful call of a tool that is no check: a mutating one empties cache and circuit, another one is cached, and an effect withdraws the request for verification |
| CallProcessing.ReadsTellOn | aicoder/agent_runtime.py:2183-2283 | One more call keeps: while a required mutation is missing the inspections of the log are counted, and only ranges that were read are recalled |
| RunProtocol.OpenRequestsAreFollowed | aicoder/agent_runtime.py:1264-1280 | A run no turn ends takes every turn up to the limit, stops there or one turn later only when no repair, verification or audit was asked for, and takes the turns beyond only while one was |
| LoopGuard.CountIsMultiplicity | aicoder/executor.py:251-266 | Repeats are counted as often as they occur |
| LoopGuard.SignaturesOfBatch | aicoder/executor.py:268-290 | The bag of a batch is the sum of the signatures of its results |
| LoopGuard.LastAppended | aicoder/executor.py:251-266 | The window drops the oldest entry and keeps the rest in order |
| ToolProtocol.ParseTheExample | aicoder/executor.py:1329-1365 | A concrete call in the taught format is parsed, and between two fence marks it is not |
| ToolProtocol.LeftoverMarkersReject | aicoder/executor.py:1361-1364 | A line outside the blocks that opens a call rejects the whole text, for every decoder and both prose settings |
| ToolProtocol.UnfinishedCallRejectsAll | aicoder/executor.py:1329-1365 | Rendered calls followed by one that never ends are rejected as a whole |
| ToolProtocol.CoveredMeans | aicoder/executor.py:1337-1337 | A covered position lies between start and end of one of the matches |
| ToolProtocol.EveryTextIsTicked | aicoder/executor.py:1321-1326 | Every text is pieces with its fence marks between them, so the fence laws speak of every text |
| ToolProtocol.DecodedTo | aicoder/executor.py:1348-1356 | What the arguments of a block decode to, JSON value by JSON value |
| ToolProtocol.StripTakesTheEnds | aicoder/executor.py:1347-1347 | Stripping takes white space off both ends and nothing else |
| TrimMessages.OwnersAreKept | aicoder/executor.py:1480-1490 | The assistant message whose calls the first kept tool results answer is kept with them |
| FileEdit.RefusedBecause | aicoder/executor.py:1748-1800 | Which check refuses an edit, and that such a refusal changes nothing |
| McpService.CanonicalRegistries | aicoder/mcp_registry.py:207-213 | An empty registry is canonical, every written entry keeps it so, and in a canonical registry every entry can be put back |
| EventStream.FirstAnswerExists | aicoder/mcp_registry.py:330-367 | Where a payload answers there is a first one that does |
| EventStream.ExampleStream | aicoder/mcp_registry.py:330-367 | A concrete stream with DOS line ends |
| McpService.FaultsThatMatter | aicoder/mcp_service.py:98-119 | Which faults stop a save that would succeed without them, the fields of each mode named |
| McpService.NestedSaves | aicoder/mcp_service.py:165-174 | The nested save succeeds exactly when saving the supplied credentials would |
| FailureTracking.FailuresInTheLogAreBounded | aicoder/agent_runtime.py:1943-1970 | Read off the log: in any stretch without a state change that begins a run or follows one, a failure family is met at most twice plus once for every different call, the tools named |
| RunHistory.RiskComesAfterARead | aicoder/agent_runtime.py:2033-2043 | Spelled out: in a resumed run a mutating or destructive call that ran has a successful read or other inspection before it |
| RunHistory.ReallyMeans | aicoder/executor.py:2676-2688 | A call whose result says it was denied, although it is no error, did not run; every other entry is what happened |
| RunHistory.ReusesAndRecallsMean | aicoder/agent_runtime.py:1971-2007 | Spelled out: what a faithful reuse and the absence of recalls counted as mutations promise |

## Left out

- AgentRuntime.AgentRun.SaveJournal: whether writing a checkpoint works is a free choice; its contents are not modelled.
- AgentRuntime.AgentRun.ProcessTool: the texts the host answers with are an input, except that of a reused result; the
  loop guard compares these texts, the source compares them with the tool name in front.
- AgentRuntime.AgentRun.Run: an exception of another kind than the model client's, a failing plan store and a missing
  tool catalogue end the program outside the loop and are not modelled.
- AgentRuntime.PreparePlan: stored plans are assumed to be ones this program stored (three steps, implementation not
  done before inspection); every save proves that of what it stores.
- ResultCache.PutKeepsTheCacheSound: faithfulness of reuse assumes that the world changes only when a call classified
  as a state mutation succeeds; a failing mutation that changed something does not clear the cache in the source.
- McpService.Service.RollBack: the steps of a rollback succeed, its reads included; a keyring or registry that fails
  while it is restored is not modelled.
- McpService.Service.SaveServer: contacting a server may store OAuth tokens but never loses one; the registry file can
  be read.
- FileEdit.FileSystem.RunFileEdit: disk errors between the checks and the end of the write, and parent directories
  created on the way.
- ChangeJournal.Journal.RunGatedEdit: journal records keep their restore data unchanged; long paths that the journal
  would shorten are not modelled.
- WorkspaceRestore.Workspace.RestoreSnapshot: symbolic links, special files, owners, directory modes, other devices below
  the workspace, and checks of member names beyond an all-or-nothing refusal.
- EvidenceMemory.EvidenceStore.InspectFile: one writer of the table; the file does not change between being read and
  being recorded.
- ToolProtocol.ParseSequence: the legacy and native call formats; white space outside ASCII.
- CodexServer.CodexAppServer.Request: ids are integers; time passes as polls, each of which takes at most one message;
  the transport below the queue is not modelled.
- EventStream.ParseEventStream: plain JSON bodies; ids other than integers.
- Prompts, events, heartbeats, performance counters, hooks' side effects, feature memories and the tool catalogue's
  expansion: observers or inputs that cannot change a run's promises.
- Settings rollback, enabling and disabling of servers, OAuth and HTTP transport, provider command lines, terminals,
  Docker, systemd, Git and shell execution: easy members or foreign processes.
- Regular-expression classifiers, JSON, SHA-256, SQLite and Python's parser: uninterpreted functions, a digest being the
  text it identifies.
