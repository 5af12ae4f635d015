# A verified model of the agent dashboard's shared state

The dashboard and the hooks of its coding agents share small files: one JSON record per agent,
a marker file per worktree, transcripts that only grow, and a usage table. Several processes read
and write them at once, and most readers take shortcuts. This project models the parts that keep
that state correct or make reading it cheap, and proves that they do.

| module | models |
|---|---|
| `AgentRecord`, `Hooks`, `AgentStore` | the agent record, what each hook decides to write from an unlocked read, and the locked merge that Node and Go perform |
| `HookEffects`, `HookSequences` | what one hook run leaves on a record, for every event, and what successive runs do: one-shot signals, the pending question, the effort level |
| `StateProtocol`, `StateTheorems`, `StateProgress`, `StateCounts`, `StateStamps` | every interleaving of hooks and dashboard goroutines over the sidecar lock, the temporary file and the rename, with a clock, failing writes and deletion |
| `MarkerClaim` | the race for a worktree's marker file, and its reaper |
| `UsageReader`, `UsageTotals`, `UsageCacheModule` | token usage read through a cache of running totals, and what the totals add up to |
| `ClaudeConversation`, `CodexRollout` | the incremental conversation readers and the codex scans for a pending plan or question |
| `PendingTools` | the scans of a Claude transcript for a call that still waits for the user |
| `Ledger`, `Persist`, `Accounting`, `Recompute` | the daily usage table, the per-day deltas, the way from transcripts to rows, and the proportional rewrite |
| `Prune` | garbage collection of agent records |
| `ShellSpawn`, `SkillGen`, `Shortkeys` | spawn commands against the POSIX shell's quoting rules, the skill preprocessor, the shortkey rewriter |
| `Domain`, `Conversation`, `BlockingTools` | values that several components pass to each other |
| `Lines`, `Text`, `Seqs`, `Options` | files as bytes and lines, white space, concatenation, optional values |

Files are byte sequences split at newlines; decoding one line is a parameter from bytes to an
optional event, so nothing depends on JSON. Float64 is `real`; truncating conversions are written
out. Clocks, tmux, git and the file system's answers are parameters or steps. Where the source
updates objects or loops over local variables, the model is a class or a method with a loop, proved
against a function; the theorems are about that function.

Some properties hold only under a condition, and each condition is proved exact or necessary:

* A bound on how long lock holders stay ensures mutual exclusion exactly when it is at most the five
  seconds after which waiters take a lock for abandoned (`ExclusionExactly`).
* A reporter that starts a subagent counts it exactly when the count it is merged onto is still the one
  it read without the lock (`StartCountedExactly`; `StartsCanBeLost` for any two at once).
* The end of a subagent is lost exactly when its entry meets a stop state while the agent still works
  (`CountAfterReporter`).
* Claims on a marker agree exactly for session ids of which no truncated or trimmed content passes
  for another (`ClaimsAgreeExactly`); ids of one length qualify.
* Re-reading lines appended during a usage scan is harmless exactly when their counted entries carry
  message ids (`ResumeExact`); incremental tagging of notifications agrees exactly when none is left
  waiting inside the prefix (`AppendAgreesExactly`).
* Both conversation readers resume at the size seen before the scan, so lines appended while a scan is
  under way are read twice. At every limit that does no harm exactly when they show nothing or the
  window of the limit looks the same after the second time; in a rollout whose entries all differ, the
  latter means a positive limit of at most the number of late entries. In a Claude transcript they must also
  bring no plan card and leave the same notification waiting (`LateLinesExact`). There, too, a plan
  call after a card shown at a slug always leaves both cards (`OutdatedCardStays`).
* A tail scan is wrong exactly when the fragment of a line that is left at the cut decodes to a call
  by itself and nothing else stands (`TailScanSound`; `FragmentCanMislead` gives such files for every decoder).
* Pruning never empties the set of agents, except when every record names a pane and carries a time
  before Go's zero time (`EmptiesExactly`).

The code differs from its documentation in two places, and the model follows the code. The header
of the fast hook says that per-agent files need no locking
(adapters/codex/hooks/agent-state-fast.js:9); its writes take the sidecar lock. The comment on
`hasPendingToolCall` says that system-generated tool results are not human input
(internal/conversation/conversation.go:1079-1081); a result that carries the question's id does end
the wait there, though not in `LastPendingBlockingTool`.

`dafny verify dfyconfig.toml` checks the project.

## Model

| member | source | states |
|---|---|---|
| StateTheorems.MutualExclusion | internal/state/filelock.go:29-51 | In every interleaving of Go and Node writers in which no holder outlives the stale bound, at most one process is in its critical section. |
| StateTheorems.ReadersSeeCommits | internal/state/filelock.go:53-70 | A lock-free reader finds no file, the original record, or the whole record some rename put there; never a torn one. |
| StateTheorems.CommitsSerialize | adapters/claude-code/packages/agent-state/index.js:98-147 | Without deletion the file always equals the landed writes replayed in commit order, and each of them merged onto exactly the record its predecessor left: no update is lost. |
| StateTheorems.PinSurvives | internal/state/state.go:560-583 | Between two points of any run a pinned state keeps its value, whatever the fast hook and the reporter write, unless another writer that sets it lands. |
| StateTheorems.ProtectedWritersKeepStopStates | adapters/codex/hooks/agent-state-fast.js:337-346 | Whatever commits fall between the unlocked read and the locked write, no step of a fast-hook PostToolUse, a SubagentStop or a Stop with a pending tool moves the state on disk out of the stop state it is in. |
| StateTheorems.FinalSubagentStopLands | adapters/codex/hooks/agent-state-reporter.js:266-303 | In every run in which a SubagentStop without a pending tool, counting the subagents down to none, holds the lock over a stop state, its next step decides on a record that keeps the state and carries every other field of its entry; it is never refused. |
| StateTheorems.FinalStopCommitted | adapters/codex/hooks/agent-state-reporter.js:297-303 | Every commit of such a SubagentStop over a stop state, in any run, keeps that state and lands every other field. |
| StateTheorems.GuardRefuses | adapters/claude-code/packages/agent-state/index.js:122-128 | In no run has a guarded write without preservation landed over one of the four stop states, not even with its other fields. |
| StateTheorems.LateCommitOverStop | adapters/codex/hooks/agent-state-reporter.js:297-325 | Of the late writers only two kinds ever land over a stop state: the fast hook's update that names no state, and the last SubagentStop. |
| StateTheorems.FixedCommits | internal/state/state.go:296-316 | Every commit of a pin, a stamp or a plain hook, in any run, leaves exactly the fields it was given and every other one as it was. |
| StateStamps.CommitsCarryStart | adapters/codex/hooks/agent-state-fast.js:310-340 | Whatever a hook commits, in any run and however long it waited for the lock, carries the time of its first step as its sequence. |
| StateTheorems.RenameLandsFields | adapters/claude-code/packages/agent-state/index.js:130-142 | In every run, the rename of a writer leaves each of its fields on disk, save the state and the sequence that guard and ordering own. |
| StateTheorems.OverdueHolderLosesExclusion | internal/state/filelock.go:42-46 | A concrete run in which a holder stays one millisecond past the five seconds ends with two processes in the critical section. |
| StateTheorems.ExclusionExactly | internal/state/filelock.go:42-46 | For every bound: exclusion holds in all runs whose holders stay no longer than the bound if and only if the bound is at most the five seconds after which a lock is taken for abandoned. |
| StateTheorems.SeqNeverDecreases | adapters/claude-code/packages/agent-state/index.js:104-120 | With sequences stamped from a clock that does not run backwards, the sequence on disk never decreases over any run. |
| StateTheorems.GreatestSeqWins | adapters/claude-code/packages/agent-state/index.js:112-136 | Once the unguarded state write with the greatest sequence is through, the state on disk is its own, whatever order the writes arrived in and whatever pins, stamps, guarded, preserving, older or unfinished writes the other processes make. |
| StateTheorems.Usurp | adapters/claude-code/packages/agent-state/filelock.js:44-50 | A waiter that finds an overdue lock removes it and holds its own four steps later. |
| StateProtocol.NextInv | internal/state/filelock.go:29-70 | Every step, failure, tick and deletion keeps the invariant: the holder's lock is its own, its commit was computed from what the file still holds, the file is the last commit, every commit merged onto its predecessor. |
| StateProtocol.StepLocal | internal/state/filelock.go:42-48 | While holders are prompt no waiter reaches the branch that removes the lock, and every write a process carries is one its job may ask for. |
| StateProtocol.RequestOk | adapters/codex/hooks/agent-state-reporter.js:297-325 | Whatever record a hook read without the lock, its request never sets a pin, carries a sequence no newer than the clock, is guarded or stateless when its event is protected, and guards and preserves when it is the last SubagentStop. |
| StateProgress.CallsEnd | internal/state/filelock.go:25-51 | In every run whatever, a process is through after at most 1208 steps of its own: the bounded retries bound the wait for the lock. |
| StateProgress.NothingLeftBehind | internal/state/filelock.go:29-51 | Once every process is through, no lock is left and the file is the replay of the writes that landed. |
| StateCounts.CountNeverNegative | adapters/codex/hooks/agent-state-reporter.js:102-107 | In every interleaving with prompt lock holders, in which only the reporter writes it, the subagent count on disk stays non-negative. |
| StateCounts.StartsCanBeLost | adapters/codex/hooks/agent-state-reporter.js:102-107 | The count is not conserved: for any two starting reporters, any time and any record whose sequence is not ahead of it, there is a run in which both read before either has written, both land, and one start is counted. |
| StateCounts.CommitsOwnCount | adapters/codex/hooks/agent-state-reporter.js:102-134 | In every run with prompt holders, a reporter's commit holds the count of the record it read without the lock, plus one for a start, less one but never below zero for an end, whatever record it is merged onto. |
| StateCounts.StartCountedExactly | adapters/codex/hooks/agent-state-reporter.js:102-107 | In every such run a committed start adds one to the count it is merged onto if and only if that count is still the one the reporter read. |
| HookSequences.AskedThenAnswered | adapters/codex/hooks/agent-state-fast.js:208-234 | A question asked is stored and shown as such; when its tool is done the question is cleared while the state stays. |
| HookSequences.BlockedOnce | adapters/codex/hooks/agent-state-fast.js:200-206 | A block reported by another hook shows as a permission request for exactly one tool start. |
| HookSequences.PlanDelegatedThenOver | adapters/codex/hooks/agent-state-fast.js:238-245 | A delegated plan carries its tool-use id until the next ordinary tool starts. |
| HookSequences.EffortFollowsPlanMode | adapters/codex/hooks/agent-state-fast.js:134-151 | Entering plan mode stores the plan effort, leaving it the session's or the default one, and neither transition fires twice. |
| HookSequences.StartStopKeepsCount | adapters/codex/hooks/agent-state-reporter.js:102-107 | Run one after the other, a subagent's start and stop leave the count as it was. |
| HookEffects.StateAfterFastHook | adapters/codex/hooks/agent-state-fast.js:82-107 | The state on record after any run of the fast hook: plan and question for their tools, permission for any other permission request, plan for a delegated plan, else running, or permission for a recorded block; a finished tool leaves a stop state alone. |
| HookEffects.BlockAfterFastHook | adapters/codex/hooks/agent-state-fast.js:200-206 | A recorded block is used up by the next tool start and by nothing else. |
| HookEffects.QuestionAfterFastHook | adapters/codex/hooks/agent-state-fast.js:208-234 | A question is recorded when asked, and dropped exactly when its tool is done or another tool starts, past a stop state as well. |
| HookEffects.PlanIdAfterFastHook | adapters/codex/hooks/agent-state-fast.js:238-246 | A delegated plan's id is recorded at its start and dropped by the first later run whose state is no plan. |
| HookEffects.EffortAfterFastHook | adapters/codex/hooks/agent-state-fast.js:134-151 | The effort level changes exactly when plan mode is entered or left, to the configured levels, past a stop state as well. |
| HookEffects.NamesAfterFastHook | adapters/codex/hooks/agent-state-fast.js:236-275 | After a run that no stop state holds back the record names the event's tool, mode, harness, server and worktree, whether or not it had to be written. |
| HookEffects.WrittenByFastHook | adapters/codex/hooks/agent-state-fast.js:266-276 | A run that writes past the stop states also names session, target, pane and event. |
| HookEffects.TouchedByFastHook | adapters/codex/hooks/agent-state-fast.js:225-307 | No run changes a field of another writer, past a stop state none but block, effort and question. |
| HookEffects.RepeatWritesNothing | adapters/codex/hooks/agent-state-fast.js:249-264 | The same event once more asks for no write. |
| HookEffects.StateAfterReporter | adapters/codex/hooks/agent-state-reporter.js:174-184 | The state on record after any run of the reporter: running at a start, what was detected after a clean stop, the recorded one while a tool is pending or subagents are left, and the last SubagentStop detects it unless a stop state stands. |
| HookEffects.CountAfterReporter | adapters/codex/hooks/agent-state-reporter.js:102-107 | The count after any run: the end of a subagent goes uncounted exactly when its entry is dropped at a stop state. |
| HookEffects.FirstValuesStay | adapters/codex/hooks/agent-state-reporter.js:84-134 | Once set, the working directory and the start time never change, and model and effort only at the start of a session. |
| HookEffects.NamesAfterReporter | adapters/codex/hooks/agent-state-reporter.js:117-147 | After a run that is not dropped the record shows the event's message, mode and harness, whether or not it had to be written. |
| HookEffects.WrittenByReporter | adapters/codex/hooks/agent-state-reporter.js:123-133 | What a run that writes records besides: directory and start time when there were none, and the event. |
| HookEffects.SessionByReporter | adapters/codex/hooks/agent-state-reporter.js:86-98 | A new session's run records its model, and its effort level from the environment or else the settings. |
| HookEffects.PlacedByReporter | adapters/codex/hooks/agent-state-reporter.js:117-125 | A run that writes records session, target, pane, server, and the three parts of the target. |
| HookEffects.FilesAfterReporter | adapters/codex/hooks/agent-state-reporter.js:186-195 | The changed files are looked up on every event of the agent itself and when its last subagent ends; other subagent events keep the recorded list. |
| HookEffects.FilesShown | adapters/codex/hooks/agent-state-reporter.js:140-147 | After any run that is not dropped the list on record reads as the one due, whether or not it had to be written. |
| HookEffects.ValuesMean | adapters/codex/hooks/agent-state-reporter.js:84-102 | A missing, null, false, empty or zero value counts as unset; a missing count as none. |
| HookEffects.TouchedByReporter | adapters/codex/hooks/agent-state-reporter.js:117-138 | No run of the reporter changes a field of another writer. |
| HookEffects.RepeatedStopWritesNothing | adapters/codex/hooks/agent-state-reporter.js:140-147 | The same clean stop once more asks for no write. |
| AgentRecord.MergeFrame | adapters/claude-code/packages/agent-state/index.js:130-136 | A merge keeps every field its update does not name, lands every field it names, save the state and the sequence, and stamps the time of a hook's write. |
| AgentRecord.GuardedMergeKeepsStopState | adapters/claude-code/packages/agent-state/index.js:122-128 | A merge that lands over a stop state, guarded or without a state, leaves that state. |
| AgentRecord.PreservingMergeLands | adapters/claude-code/packages/agent-state/index.js:101-136 | A preserving write over a stop state always lands: the old state stays, everything else in the update arrives. |
| AgentRecord.RefusedExactly | adapters/claude-code/packages/agent-state/index.js:112-128 | A hook's write is refused if and only if its guard meets one of the four stop states or its sequence is older than a stored one that is at most a minute ahead of the clock, unless it preserves and meets a stop state. |
| AgentRecord.LandedKeeps | adapters/claude-code/packages/agent-state/index.js:130-136 | A write that lands leaves the old state exactly where its guard meets a stop state, and the old sequence exactly where its own is late. |
| AgentRecord.MergeNeverLowersSeq | adapters/claude-code/packages/agent-state/index.js:112-134 | A merge over a plausible sequence never lowers it and leaves at least the writer's own. |
| AgentRecord.UnguardedMerge | adapters/claude-code/packages/agent-state/index.js:112-120 | An unguarded write is dropped exactly when its sequence is older than a plausible stored one; otherwise its state and sequence are what the file holds. |
| AgentStore.AgentFile.ReadAgentState | adapters/claude-code/packages/agent-state/index.js:38-46 | A missing or unreadable file reads as nothing, any other as its record. |
| AgentStore.AgentFile.WriteState | adapters/claude-code/packages/agent-state/index.js:98-147 | The hooks' critical section leaves exactly the record the merge of the protocol describes, or the file as it was; a guarded write without preservation leaves a stop state's file untouched. |
| AgentStore.AgentFile.StampFields | internal/state/state.go:296-316 | The field-by-field update leaves the stored record overlaid with the updates, and fails, changing nothing, exactly on a missing or unreadable file. |
| AgentStore.AgentFile.PinAgentState | internal/state/state.go:565-583 | Pinning changes the pin and nothing else, and fails, changing nothing, exactly on a missing or unreadable file. |
| Hooks.BuildUpdate | adapters/codex/hooks/agent-state-fast.js:166-307 | Filling in the update step by step reports a change exactly when the decision function has one, with that update; keystrokes are dispatched exactly for a transition to a level that differs from the recorded one, outside the stop states. |
| Hooks.FastUpdateFields | adapters/codex/hooks/agent-state-fast.js:223-234 | The fast hook's update never names a pin, a count or a sequence, and names a state exactly when it is not past a stop state. |
| Hooks.BuildReportEntry | adapters/codex/hooks/agent-state-reporter.js:78-147 | The reporter's stepwise entry is the one the protocol uses, and it reports a change exactly when a compared field differs. |
| Hooks.ReportEntryFields | adapters/codex/hooks/agent-state-reporter.js:102-134 | Every entry carries the resolved state and the running count, and never a pin or a sequence. |
| MarkerClaim.ClaimsAgreeExactly | internal/state/state.go:263-286 | With create, write and read-back as separate steps, failing partial writes and no reap, all successful claims are for one session in every run, exactly for sets of session ids of which no truncated or trimmed content passes for another. |
| MarkerClaim.UniformIdsAgree | internal/state/state.go:255-262 | Ids of one length without surrounding white space satisfy that condition. |
| MarkerClaim.Confusion | internal/state/state.go:267-275 | For every pair of ids outside the condition, a run in which two different sessions claim the same marker. |
| MarkerClaim.NextInv | adapters/claude-code/packages/worktree-reconcile/index.js:116-150 | Every step of either claimer keeps: the marker is a prefix of its creator's id, and complete once anybody's claim has succeeded. |
| MarkerClaim.LiveOwnerKeepsMarker | internal/state/spawnpin.go:149-163 | With atomic reaps and successful writes, a marker keeps holding a session over any stretch of a run in which that session has a state file, rival claims and reaps included. |
| MarkerClaim.ReapsTheDead | internal/state/spawnpin.go:149-162 | A reap removes a marker exactly when it names an owner without a state file, and changes nothing else. |
| MarkerClaim.ReapFreesWorktree | internal/state/spawnpin.go:118-162 | Wherever a run has come to, a marker of a session without a state file makes a new claim fail, and after a reap the same claim, run alone, succeeds. |
| MarkerClaim.MarkerFile.ClaimMarker | internal/state/state.go:263-286 | Run alone: a claim on a free marker succeeds exactly when the whole id was written and cleans up otherwise; on a taken one it only compares. |
| MarkerClaim.MarkerFile.ReapStaleMarker | internal/state/spawnpin.go:149-162 | The file is removed exactly when its trimmed text names an owner that is not live, and is left as it was otherwise. |
| UsageReader.HistoryAgrees | internal/usage/usage.go:55-150 | Over every history of whole-line growth, no change, shrinking, same-size rewriting and absence, every call returns what a fresh scan of the whole file returns; lines appended during a scan may be read twice if their counted entries carry ids. |
| UsageReader.CallAgrees | internal/usage/usage.go:66-147 | One call on a coherent cache returns the full scan and leaves the cache coherent. |
| UsageReader.ResumeAgrees | internal/usage/usage.go:84-147 | Resuming from the stat size of the last visit, overlap included, ends in the totals and seen ids of a scan from nothing. |
| UsageReader.ResumeExact | internal/usage/usage.go:118-123 | With non-negative tokens the resumed result equals the full scan if and only if every counted entry appended during the previous scan has a message id. |
| UsageReader.HitExactly | internal/usage/usage_cache.go:54-77 | The file is left unread exactly while size and time are those of the entry, and resumed exactly when it has grown. |
| UsageTotals.ColumnsAreTotals | internal/usage/usage.go:113-128 | Each column is the sum of that column over the entries with tokens that are the first with their message id, or have none. |
| UsageTotals.CostIsBill | internal/usage/usage.go:130-137 | The cost is the sum over the models of each one's four token totals at its own four prices; entries without a model cost nothing. |
| UsageTotals.ScanCosts | internal/usage/usage.go:130-137 | A transcript of one model costs its totals per million at the prices of that model, column by column. |
| UsageTotals.ModelIsLast | internal/usage/usage.go:130-131 | The model on show is that of the last billed entry that names one. |
| UsageCacheModule.UsageCache.Fetch | internal/usage/usage_cache.go:54-92 | The hit mode by size and time, and a copy of the entry whose id set is a new object with the same ids. |
| UsageCacheModule.MutateFetched | internal/usage/usage_cache.go:48-54 | A caller that adds to the id set it fetched changes nothing in the cache. |
| UsageCacheModule.UsageCache.Store | internal/usage/usage_cache.go:79-83 | Storing replaces one entry and no other. |
| UsageCacheModule.CountEntry | internal/usage/usage.go:113-137 | One entry counted into the running totals and the mutable id set, repeated ids and empty usages skipped. |
| UsageCacheModule.ScanLines | internal/usage/usage.go:102-138 | The scanning loop leaves the fold of the decoded lines over the totals it started from. |
| UsageCacheModule.ReadUsage | internal/usage/usage.go:55-150 | The reader over real cache objects is the value-level call for its key and leaves all other keys alone, so the history theorem applies to it. |
| Lines.LinesReadBack | internal/usage/usage.go:99-106 | Scanning a file gives back exactly the lines that were written to it, with either line end. |
| Lines.LastLineReadBack | internal/usage/usage.go:99-106 | A last line without a line end is read as well. |
| Lines.DecodeLines | internal/usage/usage.go:102-111 | Only empty and undecodable lines are skipped, and the others keep their order. |
| Text.TrimSpaceMeans | internal/state/spawnpin.go:153 | Trimming takes away all the white space at both ends and nothing else. |
| ClaudeConversation.MarkMeans | internal/conversation/conversation.go:311-325 | Exactly the human entries with a task notification are tagged and each assistant entry that is the first after one; nothing else changes. |
| ClaudeConversation.MarkNotifications | internal/conversation/conversation.go:313-325 | The nested loops, in place on the tail of an array, tag exactly those entries and leave the front alone. |
| ClaudeConversation.LineShows | internal/conversation/conversation.go:228-255 | A line adds to those around it the user's text as the user's, the assistant's as the assistant's, a card behind it for a call of the plan tool, and nothing else. |
| ClaudeConversation.FullReadTells | internal/conversation/conversation.go:277-305 | A full read without a limit shows every entry in order, up to tags; with a limit the last ones, behind the plan cards among the rest. |
| ClaudeConversation.CardPlaced | internal/conversation/conversation.go:263-275 | A transcript with a slug and no call of the plan tool has one card, right behind the entries of the first line with a slug. |
| ClaudeConversation.NoSlugNoCard | internal/conversation/conversation.go:263-275 | Without a slug the only cards are those of the calls of the plan tool. |
| ClaudeConversation.CapKeepsPlans | internal/conversation/conversation.go:287-305 | The cap never loses a plan entry. |
| ClaudeConversation.CapAbsorbs | internal/conversation/conversation.go:287-305 | Capping what was capped before plus new entries equals capping everything once. |
| ClaudeConversation.PlansAlwaysShown | internal/conversation/conversation.go:287-305 | Every plan entry of a transcript is shown at any limit, in order. |
| ClaudeConversation.AppendAgrees | internal/conversation/conversation.go:277-305 | Appending to what was shown equals a full read, tags included, when the prefix has no waiting notification or ends in one. |
| ClaudeConversation.AppendAgreesExactly | internal/conversation/conversation.go:277-285 | That condition is exact: it holds if and only if the agreement holds for every continuation. |
| ClaudeConversation.ChainAgrees | internal/conversation/conversation.go:169-309 | Any chain of incremental reads over whole-line appends, shrinks and re-polls, plan cards at slugs included, ends in the entries and offset of one full read, provided that lines appended while a read was under way do no harm, which takes in that the prefix can be resumed, and that no call of the plan tool follows a card shown at a slug. |
| ClaudeConversation.LateLinesExact | internal/conversation/conversation.go:182-309 | The first proviso is exact at every limit: lines appended between the stat and the end of the scan are read again, and the next read equals a full one for every way the transcript goes on without outdating a card, if and only if those lines bring no plan card, leave the same notification waiting the second time, and are none or recur in the window of the limit. |
| ClaudeConversation.LateEntriesExact | internal/conversation/conversation.go:277-305 | The same on entries: what follows entries that are shown twice always looks as after showing them once, exactly under that condition. |
| ClaudeConversation.UncutHarmless | internal/conversation/conversation.go:277-305 | With nothing read twice the condition says that no notification is left waiting inside the prefix; with something read twice it fails at every limit above the number of entries, and without a limit. |
| ClaudeConversation.OutdatedCardStays | internal/conversation/conversation.go:263-275 | The second proviso is needed in every case: whenever a call of the plan tool follows a card shown at a slug, the next read differs from a full one. |
| ClaudeConversation.SlugCardAdds | internal/conversation/conversation.go:263-275 | The plan card at the first slug of new lines is placed as if they stood alone when no plan is on show yet, and not at all otherwise. |
| ClaudeConversation.AllEntriesParts | internal/conversation/conversation.go:263-275 | The entries of a whole transcript, card included, are those of its first lines and what the rest adds, unless the rest outdates the card. |
| ClaudeConversation.ScanLines | internal/conversation/conversation.go:228-261 | The scanning loop collects the entries of the new lines and where the first slug stood. |
| ClaudeConversation.Finish | internal/conversation/conversation.go:263-305 | After the scan: the fallback plan card at the first slug, the tags and the cap. |
| ClaudeConversation.RescuePlans | internal/conversation/conversation.go:296-301 | The loop over the dropped entries keeps exactly the plan entries, in order. |
| ClaudeConversation.ReadConversationIncremental | internal/conversation/conversation.go:169-309 | The reader with its restart, shortcut and resume branches computes the function the chain theorem is about. |
| CodexRollout.KeepLastAbsorbs | internal/codex/conversation/parser.go:179-181 | Dropping old entries before appending is harmless. |
| CodexRollout.LineShows | internal/codex/conversation/parser.go:139-177 | A line adds to those around it one human, assistant or plan entry by its kind, or nothing. |
| CodexRollout.ReadTells | internal/codex/conversation/parser.go:179-183 | A full read shows the last entries of the rollout, or all of them without a limit. |
| CodexRollout.ChainAgrees | internal/codex/conversation/parser.go:73-183 | Any chain of incremental rollout reads over whole-line appends, shrinks and re-polls at a fixed limit, each fed the previous result and offset, ends in the entries of one full read, provided lines appended while a read was under way do no harm. |
| CodexRollout.LateLinesExact | internal/codex/conversation/parser.go:87-182 | That proviso is exact at every limit: the next read equals a full one, however the rollout goes on, if and only if the lines appended between the stat and the end of the scan hold no entry, or the limit cuts and every entry of its window recurs that many entries later. |
| CodexRollout.DistinctRecurs | internal/codex/conversation/parser.go:179-181 | While all entries differ, that is to say that there are no late entries or that the limit is positive and no greater than their number. |
| CodexRollout.ReadIncrementally | internal/codex/conversation/parser.go:73-183 | The reading loop computes the function the chain theorem is about, a nil result included. |
| CodexRollout.VerdictIsDeclared | internal/codex/conversation/parser.go:258-332 | The one-pass verdict is the declared one: the last plan or question, unless the user spoke later or the question's call id was answered later. |
| CodexRollout.VerdictByLines | internal/codex/conversation/parser.go:258-332 | In terms of the lines: the verdict is plan or question exactly when a line of that kind is the last blocking one, with no user message behind it nor, for a question, an output of its call. |
| CodexRollout.OpenCallsMean | internal/codex/conversation/parser.go:362-395 | While no call id is used twice, the open calls are exactly the questions that no later output answers. |
| CodexRollout.QuestionVerdictHasQuestion | internal/codex/conversation/parser.go:362-400 | Whenever the verdict is a question, the list of open calls is not empty and ends with the very call the verdict is about. |
| CodexRollout.LastPendingBlockingToolCodex | internal/codex/conversation/parser.go:258-332 | The scanning loop returns the declared verdict of the file. |
| CodexRollout.DropCall | internal/codex/conversation/parser.go:387-393 | The inner loop removes the first open call with the id and nothing else. |
| CodexRollout.ReadPendingQuestion | internal/codex/conversation/parser.go:341-400 | The panel shows the last open call if its arguments parse, and under a question verdict that is the verdict's call. |
| PendingTools.SetScanIsDeclared | adapters/claude-code/packages/agent-state/pending-tools.js:50-80 | An id is left in the set if and only if some tool use with that id has no result on a later line. |
| PendingTools.ParentToolUseIsDeclared | adapters/claude-code/packages/agent-state/pending-tools.js:34-80 | The tail scan is positive if and only if an unanswered tool use of the whole transcript lies on the whole lines of its last 32 KiB. |
| PendingTools.TailMeans | adapters/claude-code/packages/agent-state/pending-tools.js:36-44 | The tail is the last 32 KiB, or the whole of a shorter file. |
| PendingTools.AfterCutMeans | adapters/claude-code/packages/agent-state/pending-tools.js:44-49 | The hook's scan starts at the first line that begins inside the tail of a longer file. |
| PendingTools.UpdateIds | adapters/claude-code/packages/agent-state/pending-tools.js:61-77 | The inner loops add the used ids of an assistant line and remove the answered ids of a user line. |
| PendingTools.HasPendingParentToolUse | adapters/claude-code/packages/agent-state/pending-tools.js:24-84 | The scanning loop decides that declarative property of the file. |
| PendingTools.ScanIsDeclared | internal/conversation/conversation.go:1082-1147 | For each of the three dashboard scans, the remembered call stands if and only if it is the last of its kind and no later line ends the wait. |
| PendingTools.TailScanIsDeclared | internal/conversation/conversation.go:1090-1146 | For every file, a scan of the last 32 KiB is positive if and only if the call that stands in the whole transcript was made on the whole lines there, or the fragment at the cut decodes to a call that the rest leaves standing. A tail without a newline is longer than the scanner takes, and shows nothing. |
| PendingTools.TailScanSound | internal/conversation/conversation.go:1211-1292 | A tail scan is wrong about the whole transcript exactly when such a fragment stands and nothing else does. |
| PendingTools.TailScanSoundAt | internal/conversation/conversation.go:1211-1292 | Hence it is right whenever the cut is at a line start or leaves a fragment that is no call. |
| PendingTools.FragmentCanMislead | internal/conversation/conversation.go:1096-1103 | The exception is real for every decoder and call: whenever the cut falls into a line that does not decode but whose rest does, to a call, and the lines after it say nothing, the tail scan is positive and nothing is pending. |
| PendingTools.NamedCallBlocks | internal/conversation/conversation.go:1003-1013 | If a plan or question call stands, the blocking-tool verdict is not empty and stems from a line no older. |
| PendingTools.BlockingMeans | internal/conversation/conversation.go:1014-1077 | Block by block: the last message with an ExitPlanMode or AskUserQuestion block decides, by its last such block, unless a human turn follows it. |
| PendingTools.LastMessageWaits | internal/conversation/conversation.go:1230-1291 | The any-tool scan waits exactly when the last message with blocks calls a tool and no later user line brings a result. |
| PendingTools.NoMessageWaits | internal/conversation/conversation.go:1230-1291 | Without a message with blocks it never waits. |
| PendingTools.QuestionScansAgree | internal/conversation/conversation.go:1138-1147 | When the blocking-tool verdict rests on a question, the question scan agrees if and only if no tool result for it has come: the two differ exactly on answers posted as results. |
| PendingTools.HasPendingToolCall | internal/conversation/conversation.go:1082-1147 | The loop over found, humanAfter and lastID decides whether the named call stands in the tail, and hence that property of the whole file. |
| PendingTools.HasPendingToolUse | internal/conversation/conversation.go:1202-1292 | The loop decides whether the last assistant message with blocks calls a tool that has no later result. |
| PendingTools.LastPendingBlockingTool | internal/conversation/conversation.go:1014-1077 | The loop over lines and blocks returns the tool of the last blocking call that stands, or none. |
| PendingTools.ReadPendingQuestionClaude | internal/conversation/conversation.go:869-968 | The panel shows a question exactly when the question scan of the whole file has one standing and the kept input is there and parses, with that question's id. |
| PendingTools.InputIsKept | internal/conversation/conversation.go:901-913 | Input is kept if and only if some question block carried one: appending nothing to a nil slice leaves it nil. |
| PendingTools.InputIsLast | internal/conversation/conversation.go:901-913 | The input kept is that of the last question asked. |
| PendingTools.IsHumanUserEntry | internal/conversation/conversation.go:1150-1171 | A user entry is human unless it is an array of tool results only. |
| PendingTools.HasToolResultFor | internal/conversation/conversation.go:1173-1197 | True exactly for an array that holds a result with that id, which is not empty. |
| PendingTools.ToolUseID | internal/conversation/conversation.go:974-1001 | The id of the first question block, whatever tool is scanned for. |
| Ledger.SumPick | internal/db/db.go:95-103 | A sum over rows does not depend on the order they are visited in. |
| Ledger.DB.UpsertUsageWithProvider | internal/db/db.go:70-80 | The row of that date, session and provider is replaced and no other. |
| Ledger.DB.SessionCostExcludingDateWithProvider | internal/db/db.go:95-103 | The sum of the costs of exactly the session's other days. |
| Persist.TokensWithinTotal | internal/tui/commands.go:415-433 | A day's token deltas lie between zero and the cumulative counts, whatever was stored before. |
| Persist.DayShare | internal/tui/commands.go:415-433 | A day gets of each token column the share it has of the cost, to within a token: all of it while the other days hold nothing, none once they hold everything. |
| Persist.EventsMean | internal/tui/commands.go:380-402 | An entry is persisted for exactly the Claude agents with a project directory, a session and output tokens, with the usage read for them. |
| Persist.StoredAfterOne | internal/tui/commands.go:405-436 | One persist leaves the greater of the cumulative cost and the other days' sum stored; the two agree if and only if the other days do not exceed the cumulative cost. |
| Persist.PersistTwice | internal/tui/commands.go:405-436 | Persisting the same usage again changes no row. |
| Persist.CostsAddUp | internal/tui/commands.go:404-438 | Over every run whose cumulative cost never decreases, on any mix of dates and interleaved with any other sessions, the rows of a session sum to its latest cumulative cost. |
| Persist.NewSessionAddsUp | internal/tui/commands.go:404-438 | The same from a table that has no row of the session. |
| Persist.OnlyTheirRows | internal/tui/commands.go:435 | No row but those of the persisted sessions and days is touched. |
| Persist.CollectEntries | internal/tui/commands.go:380-402 | Exactly the Claude agents with a project directory, a session and output tokens are persisted, in order. |
| Persist.PersistEntry | internal/tui/commands.go:405-436 | The clamped ratio, the truncated deltas and the clamped cost, step by step, write the row the theorems are about. |
| Persist.PersistUsage | internal/tui/commands.go:373-439 | The command persists the collected entries one after the other. |
| Accounting.LongerCostsMore | internal/usage/usage.go:125-137 | With non-negative tokens and prices, a transcript that grew by whole lines costs no less and counts no fewer output tokens. |
| Accounting.LedgerHoldsTranscriptCost | internal/tui/commands.go:404-438 | However often and on whatever days a growing transcript is read through the cache and persisted, reads without output skipped, the session's rows sum to the cost of the transcript as last read, or to nothing while it has no output tokens. |
| Recompute.CostsSumToCorrected | cmd/recompute-claude-usage/main.go:364-385 | The rewritten rows of a session sum to exactly its corrected cost, as long as there is one row. |
| Recompute.TokensNearlyKept | cmd/recompute-claude-usage/main.go:376-385 | Each token column of the rewritten rows sums to at most the corrected count and more than it less the number of rows. |
| Recompute.ShareLaw | cmd/recompute-claude-usage/main.go:364-385 | Each rewritten row has the share of the corrected cost that it had of the old; without any cost the last day gets everything. |
| Recompute.RunStampsModel | cmd/recompute-claude-usage/main.go:324-351 | A rewritten row carries the model of the last listing of its session, or else the one its transcript names. |
| Recompute.AggregatesStay | cmd/recompute-claude-usage/main.go:302-308 | The daily aggregates of codex and rows without a session are never touched. |
| Recompute.RewriteTwice | cmd/recompute-claude-usage/main.go:364-385 | A second rewrite changes no cost, and nothing but the model unless the corrected cost is zero. |
| Recompute.RunCorrectsCosts | cmd/recompute-claude-usage/main.go:302-352 | After a run over any listing, every resolved session sums to its corrected cost. |
| Recompute.RunKeepsOthers | cmd/recompute-claude-usage/main.go:302-321 | Rows of other providers and of skipped or unresolved sessions stay exactly as they were. |
| Recompute.RunAgainChangesNothing | cmd/recompute-claude-usage/main.go:290-362 | Running the whole fixup again, sessions listed once per model and in any order, changes no cost. |
| Recompute.RewriteRows | cmd/recompute-claude-usage/main.go:346-351 | The upsert loop over the rows by date, the latest one last, rewrites the session and nothing else. |
| Recompute.RunRecompute | cmd/recompute-claude-usage/main.go:290-362 | The command over every listed session; a dry run changes no row; afterwards every resolvable session with rows sums to its corrected cost. |
| Prune.EmptiesExactly | internal/state/state.go:748-791 | A run empties a non-empty set of agents if and only if every record names a pane and carries a time before Go's zero time. |
| Prune.YearZeroEmpties | internal/state/state.go:748-755 | One such record is enough: a concrete directory that a run empties. |
| Prune.RunsNeverEmpty | internal/state/state.go:720-807 | Without such times no series of runs, whatever each sees of tmux, git and the disk, ever empties the set or alters a record it keeps. |
| Prune.DedupLeavesNewest | internal/state/state.go:764-769 | Each pane keeps at least one newest record out of the duplicates. |
| Prune.KeptExactly | internal/state/state.go:650-791 | A record survives a run if and only if no record of its pane supersedes it, and its pane is live, or it is a restart survivor of the last 72 hours with unfinished work on an unmerged branch in an existing directory, or no record that is not superseded has either. |
| Prune.LiveNewestKept | internal/state/state.go:764-783 | The newest record of a live pane is never removed. |
| Prune.UntimedStays | internal/state/state.go:748-769 | Among records of a live pane that all lack a readable time none is removed. |
| Prune.NothingDeadRemoved | internal/state/state.go:785-791 | When no record is worth keeping, exactly the superseded ones go and none for its dead pane. |
| Prune.PruneTwice | internal/state/state.go:720-807 | A second run with the same inputs and clock removes nothing. |
| Prune.AgentsDir.PruneDead | internal/state/state.go:720-807 | The run over the directory leaves exactly the kept records, touches no file without a record, and counts what it removed. |
| Prune.AgentsDir.Judge | internal/state/state.go:762-791 | The two loops and the length comparison compute the duplicates, the dead and the safety net as they are meant. |
| Prune.NewestTimeMeans | internal/state/state.go:748-755 | A time is before a pane's newest if and only if it is before the zero time or before some record of the pane. |
| ShellSpawn.QuotedIsOneWord | internal/harness/claude/claude.go:95-97 | Any text, quoted, is read back by the shell as one unchanged word. |
| ShellSpawn.AddQuoted | internal/harness/claude/claude.go:85-92 | A quoted argument after a complete command is exactly one more word. |
| ShellSpawn.LevelsArePlain | internal/harness/codex/codex.go:111-116 | Every effort level of either harness, mapped or not, is a word that needs no quoting. |
| ShellSpawn.BuildPrompt | internal/harness/codex/codex.go:131-140 | The skill token and the message, with one space when both are there. |
| ShellSpawn.ClaudeIsTold | internal/harness/claude/claude.go:48-75 | Read back as arguments, the Claude command gives the chosen level in the environment and by a flag, the model by a flag and the prompt as the one argument left; a resume gives the session alone. |
| ShellSpawn.CodexIsTold | internal/harness/codex/codex.go:68-116 | The same for codex: the level as a setting with max lowered to high, model, approval and sandbox by flags, the prompt as the one argument left. |
| ShellSpawn.ClaudeSpawnCommand | internal/harness/claude/claude.go:48-75 | The command is read by the shell as exactly the intended words, whatever prompt, model and session id contain. |
| ShellSpawn.CodexSpawnCommand | internal/harness/codex/codex.go:68-103 | The same for codex, with approval and sandbox and the clamped effort. |
| SkillGen.AcceptedByPairs | cmd/skillgen/transform.go:33-60 | A source is accepted for one target exactly when it is for the other, namely when its markers form flat matched pairs; otherwise both report the same error at the same line. |
| SkillGen.BelongsByScan | cmd/skillgen/transform.go:53-55 | In an accepted source the scan writes a line out if and only if it is no marker and in no pair of the other target. |
| SkillGen.ReplaceIsDollars | cmd/skillgen/transform.go:62-65 | The command substitution changes exactly the slash of every occurrence, in place. |
| SkillGen.TransformTwice | cmd/skillgen/transform.go:24-67 | Transforming an accepted output again is the identity, the substitution included. |
| SkillGen.PairsAreForOne | cmd/skillgen/transform.go:33-93 | What stands between the markers of one harness goes to that harness alone, without the markers, and what stands outside to both. |
| SkillGen.MarkersMean | cmd/skillgen/transform.go:69-83 | A line is a marker by its trimmed text alone, and there are four of them. |
| SkillGen.ErrorsMean | cmd/skillgen/transform.go:35-60 | A rejected source is rejected for its first bad marker, with its line and kinds, or else for the opener left at the end. |
| SkillGen.Transform | cmd/skillgen/transform.go:24-67 | The loop returns, in order, exactly the lines outside pairs and those inside this target's pairs, or the first error. |
| SkillGen.SplitIsWhole | cmd/skillgen/transform.go:28-31 | The split leaves no empty line, and every line but the last ends in its newline. |
| SkillGen.SplitKeepsAll | cmd/skillgen/transform.go:28-31 | Splitting after newlines loses nothing. |
| Shortkeys.ExpandTwice | internal/skills/shortkeys.go:13-60 | Expanding an expanded text changes nothing. |
| Shortkeys.WalkIsAnnotated | internal/skills/shortkeys.go:31-58 | Walking the text knowing only the previous character expands exactly the maximal, colon-free, boundary-preceded tokens that name a valid skill. |
| Shortkeys.TokenMeans | internal/skills/shortkeys.go:31-60 | A whole token behind white space or at the start gets the plugin's name exactly when it is one of the given skills, and is copied otherwise. |
| Shortkeys.OtherCharsStay | internal/skills/shortkeys.go:31-36 | Every character that begins no token is copied. |
| Shortkeys.QualifiedStays | internal/skills/shortkeys.go:46-56 | A qualified command is left as it is. |
| Shortkeys.ExpandCodexShortkeys | internal/skills/shortkeys.go:13-60 | The index-and-builder loop, early returns included, inserts the plugin behind the dollar sign of those tokens and changes nothing else. |

## Left out

- StateTheorems.MutualExclusion: only for runs in which no holder outlives the stale bound; recovery from a crashed holder is not modelled, because two waiters can both judge a lock stale and the second can remove a fresh one. The look at the lock's age is one step.
- StateTheorems.GreatestSeqWins: for a clock that does not step backwards, and no state write without a sequence; a wall clock set back can misorder writes, which the code accepts.
- UsageReader.HistoryAgrees: an entry counts through any pricing function; the table lookup walks a map in random order for model names that match two families.
- ShellSpawn.ClaudeSpawnCommand: for effort values from the two lists of levels, which are not quoted; other values are not checked by the code either.
- ShellSpawn.CodexSpawnCommand: the configured command itself is taken as text that the shell reads as words.
- Recompute.RunRecompute: the printed totals are not modelled.
- HookSequences.EffortFollowsPlanMode: for transitions on a tool start; past a stop state a late PostToolUse stores the effort but not the mode, so the same transition can fire again.
- `runPruneDuplicates`, `runPruneTests`, `runPruneOrphans` of the recompute command: the first deletes by session and not by date, the others are plain deletions.
- Interleavings of a reap with a claim inside the reap: the reap is one step.
- Short writes of a Node claimer that raise no error.
- JSON decoding, line-size limits of the whole-file and transcript readers, errors of open, stat and seek, and removals that fail.
- The Node scan keeps a carriage return at the end of a line and JavaScript trims a slightly different set of white space than Go; both are modelled with Go's rules.
- Codex readers decode lines into different structs; the model gives them one decoded line.
- Rounding of float64, invalid UTF-8, and the 64-bit range of token counts.
- Database errors and the `updated_at` column.
- `ResolveAgentWorktree`, branch and project-directory resolution, spawn pins: file system lookups around the claim.
- `ReadUsage` on files that are rewritten to a larger size: the code takes them for growth.
- Rendering, key handling, the web front end, TTL caches and the state-detection heuristics, which enter as an arbitrary choice of three states.
