# Raid emulator encounter analysis and the Arkveld (Extreme) limit cut, in Dafny

This project models two pieces of the cactbot raidboss module.

**The encounter analysis (`AnalyzedEncounter`).** It replays a recorded
encounter once for every party member. Each member gets an isolated rule-engine
context (`PopupTextAnalysis`), and the perspective it builds records:

- the engine data the member starts from;
- every trigger firing, with the log line current when the firing's finalizer ran;
- the live data object after the last line.

The party is processed in batches of 24. Inside a batch, one cursor walks the
log. For every line, each context gets the player-state update for that
member's combatant when a state was recorded at the line's timestamp, then the
line itself, then the finalizers that are due.

**The Guardian Arkveld (Extreme) trigger set.** The limit-cut head markers give
the player a number from 1 to 8. Clamorous Chase turns that number into a
cardinal direction from one of two tables, chosen by the ability id. Laser
Target says whether the laser is on the player or on somebody else.

Modules, one per file:

- `Outcomes` (`outcomes.dfy`): `Option`, `Result` and `Outcome`. The source's
  only error, `UnreachableCode`, becomes an explicit `Fault`.
- `Log` (`log.dfy`): the encounter store. It holds log lines, tracked
  combatants with their state history, the party list, `getCurLogLine` and the
  state lookup.
- `Resolution` (`resolution.dfy`): one member's engine context. `LiveData` is
  the live data object that `getData()` returns, so holders of the reference see
  later changes. The class `PopupTextAnalysis` holds the resolvers and the queue
  of finalizers. The value-level functions `Fire`, `FireAll` and `DrainQueue`
  specify its methods.
- `ReplaySpec` (`analysis.dfy`): the replay as values. `Batches` is the
  batching, and `ReplayTo` / `MemberAnalysis` is one member's replay. The lemmas
  about them cover the partition into batches, the invariant kept line by line,
  the ordering and offsets of resolved triggers, and how faults propagate.
- `Orchestrator` (`analyzed_encounter.dfy`): the class `AnalyzedEncounter`. It
  has the `perspectives` map, the batching loop, the member filter, context
  creation, seeding, the cursor loop and the perspective callback. Each method
  is proved against `ReplaySpec`.
- `ArkveldEx` (`arkveld.dfy`): the limit-cut table, the `Data` class with the
  Limit Cut `run`, and the Clamorous Chase and Laser Target alerts.

The rule engine appears only at its interface, as `Engine`:

- the data a fresh engine starts from;
- a function that gives, for the current data and a log line, the firings the line causes.

Each `Firing` carries:

- the trigger;
- whether the engine suppressed it and whether it executed it, two flags the
  engine sets separately (a trigger whose condition fails is neither);
- the variables its handling writes (none when nothing ran);
- after how many further lines its asynchronous work completes.

Every firing goes through the interception hook, which does three things:

- it snapshots the data into a new resolver (`suppressed` and `executed` false);
- it lets the engine run the trigger;
- it queues the finalizer.

A queued finalizer runs when the cursor reaches the line where it is due. At
that point it reads the line current *then*.

The perspective's `finalData` is the context's live data object itself, not a
copy. So once the replay finishes it holds the data after the last line (the
`Shows` predicate). Only `initialData` is a snapshot.

A perspective lists its triggers in the order their finalizers ran, not the
order they fired: a deferred firing comes after firings of later lines that
resolved sooner. `ReplaySpec.ResolvedNotBeforeFired` proves the ordering this
gives: offsets never decrease.

Each resolver records the cursor position at which its trigger fired
(`firedAt`) and the one at which its asynchronous work completes (`due`, which
is `firedAt` plus the firing's deferral). Every firing is handed a helper
object of its own; the helper's `serial`, the resolver's position in the
context, stands for that object's identity. `ReplaySpec.FiringReportedOnTime`
states the finalizer queue's promise for every firing: exactly one entry appears,
on line `due`, when that line is in the log, and otherwise no entry appears and
the finalizer is still queued at the end.

## Model

| member | source | states |
|---|---|---|
| Log.GetCurLogLine | ui/raidboss/emulator/data/AnalyzedEncounter.ts:150-155 | the line under the cursor when the cursor is inside the log, `UnreachableCode` exactly when it is not |
| Log.CombatantOf | ui/raidboss/emulator/data/AnalyzedEncounter.ts:113 | a combatant exactly when the encounter has a tracker that knows the id, and then the tracked one |
| Log.StateIsLatest | ui/raidboss/emulator/data/AnalyzedEncounter.ts:80 | the state looked up for a time is the latest snapshot at or before it, or the empty state when every snapshot is later |
| Log.StateAtRecordedTime | ui/raidboss/emulator/data/AnalyzedEncounter.ts:266-270 | with a chronological history, when a snapshot was recorded at the line's timestamp the state pushed is a snapshot recorded at that timestamp |
| Resolution.NewResolver | ui/raidboss/emulator/data/AnalyzedEncounter.ts:191-195 | a new resolver is neither suppressed nor executed, has no final data, its initial data is the data at firing time, and it is stamped with the cursor it fired at |
| Resolution.Apply | ui/raidboss/emulator/data/AnalyzedEncounter.ts:203 | a suppressed firing leaves the data unchanged; any other adds exactly its written variables, each with the written value, while every other variable keeps its value; the player is never changed by a trigger |
| Resolution.Settle | ui/raidboss/emulator/data/AnalyzedEncounter.ts:193-205 | the resolver records the engine's suppressed and executed flags as the engine set them, each on its own, and the line where its work completes, `deferral` lines after it fired; nothing else on it changes |
| Resolution.Fire | ui/raidboss/emulator/data/AnalyzedEncounter.ts:186-205 | one firing appends exactly one resolver (helper with the trigger, the current line's timestamp and its own position; the pre-firing data; the engine's suppressed and executed flags; fired at the cursor, due `deferral` lines later) and queues one finalizer for that resolver and that line; the queue stays well formed |
| Resolution.FireAll | ui/raidboss/emulator/data/AnalyzedEncounter.ts:186-205 | a line's firings append one resolver and one finalizer each, all fired at this cursor and timestamp, never due earlier, keeping earlier resolvers and the queue's well-formedness |
| Resolution.FireAllNext | ui/raidboss/emulator/data/AnalyzedEncounter.ts:186-205 | handling one more firing of a line is one more `Fire` on the context the earlier firings left |
| Resolution.ApplyAll | ui/raidboss/emulator/data/AnalyzedEncounter.ts:203 | a line's firings never change the player, and firings that are all suppressed leave the data unchanged |
| Resolution.FireAllFiring | ui/raidboss/emulator/data/AnalyzedEncounter.ts:186-205 | firing `i` of a line gets resolver number `|resolvers| + i`: its helper names the trigger, the line's timestamp and that position; it snapshots the data left by the firings before it, records the engine's outcome, fired at the cursor and is due `deferral` lines later; finalizer `|pending| + i` is queued for it at that line |
| Resolution.FireAllData | ui/raidboss/emulator/data/AnalyzedEncounter.ts:203 | the data after a line's firings is each firing's effect applied in engine order |
| Resolution.Finalized | ui/raidboss/emulator/data/AnalyzedEncounter.ts:209 | finalizing stores the current data as the resolver's final data and changes nothing else on it |
| Resolution.Due | ui/raidboss/emulator/data/AnalyzedEncounter.ts:205-219 | exactly the queued finalizers due at the cursor, and only those |
| Resolution.Later | ui/raidboss/emulator/data/AnalyzedEncounter.ts:205-219 | exactly the queued finalizers not yet due; together with `Due` they account for the whole queue |
| Resolution.DrainQueue | ui/raidboss/emulator/data/AnalyzedEncounter.ts:205-219 | every due finalizer reports the line current now with a snapshot of the current data; only not-yet-due finalizers stay; none is lost; each report belongs to a resolver fired no later than now |
| Resolution.DrainLater | ui/raidboss/emulator/data/AnalyzedEncounter.ts:205-219 | after a drain exactly the not-yet-due finalizers stay queued, in queue order, and there is one report per due finalizer |
| Resolution.DrainResolver | ui/raidboss/emulator/data/AnalyzedEncounter.ts:209 | a drain leaves each resolver as it was or stores the current data as its final data |
| Resolution.DrainReport | ui/raidboss/emulator/data/AnalyzedEncounter.ts:205-219 | the `k`-th report comes from the `k`-th due finalizer: the line current now, that resolver's helper, and its status with the current data as final data |
| Resolution.DueUnique | ui/raidboss/emulator/data/AnalyzedEncounter.ts:205-219 | when no resolver has two queued finalizers, neither has it among the finalizers due |
| Resolution.LaterUnique | ui/raidboss/emulator/data/AnalyzedEncounter.ts:205-219 | when no resolver has two queued finalizers, neither has it among the finalizers kept |
| Resolution.DrainSplits | ui/raidboss/emulator/data/AnalyzedEncounter.ts:205-219 | draining a context leaves its data alone, keeps exactly the not-yet-due finalizers in order and makes one report per due finalizer |
| Resolution.LiveData.constructor | ui/raidboss/emulator/data/AnalyzedEncounter.ts:173-178 | a new engine's live data object holds the initial data |
| Resolution.PopupTextAnalysis.constructor | ui/raidboss/emulator/data/AnalyzedEncounter.ts:172-178 | a new context owns a fresh data object, with no resolvers and an empty queue |
| Resolution.PopupTextAnalysis.OnPlayerChange | ui/raidboss/emulator/data/AnalyzedEncounter.ts:84-109 | the engine's player becomes the given state and nothing else in the data changes |
| Resolution.PopupTextAnalysis.RunTrigger | ui/raidboss/emulator/data/AnalyzedEncounter.ts:203 | the trigger's action runs on the live data and its outcome is recorded on the current (last) resolver |
| Resolution.PopupTextAnalysis.OnTrigger | ui/raidboss/emulator/data/AnalyzedEncounter.ts:186-205 | the hook's effect on the context is exactly `Fire` |
| Resolution.PopupTextAnalysis.OnEmulatorLog | ui/raidboss/emulator/data/AnalyzedEncounter.ts:272 | feeding a line passes every firing, in engine order, through the hook: the new context is `FireAll` of the old |
| Resolution.PopupTextAnalysis.Finalize | ui/raidboss/emulator/data/AnalyzedEncounter.ts:205-219 | running the due finalizers changes the context and reports exactly as `DrainQueue` says |
| ReplaySpec.Batches | ui/raidboss/emulator/data/AnalyzedEncounter.ts:136-139 | every batch is non-empty and holds at most 24 members |
| ReplaySpec.BatchesPartition | ui/raidboss/emulator/data/AnalyzedEncounter.ts:135-141 | concatenating the batches gives back the party list in order, so each member lands in exactly one batch |
| ReplaySpec.BatchAt | ui/raidboss/emulator/data/AnalyzedEncounter.ts:138-139 | batch `k` is `partyMembers.slice(i, i + 24)` for the loop index `i = 24k`, and that index is inside the list |
| ReplaySpec.BatchCount | ui/raidboss/emulator/data/AnalyzedEncounter.ts:138 | there is a batch `k` exactly when the loop index `24k` is still inside the list |
| ReplaySpec.BatchesNext | ui/raidboss/emulator/data/AnalyzedEncounter.ts:138-140 | while the index is inside the list, the batches handed out grow by exactly the next slice |
| ReplaySpec.BatchesEnd | ui/raidboss/emulator/data/AnalyzedEncounter.ts:138 | when the loop stops, every batch has been handed out |
| ReplaySpec.DistinctSlices | ui/raidboss/emulator/data/AnalyzedEncounter.ts:138-139 | in a list without repeats, no member of a later slice occurs in an earlier one |
| ReplaySpec.FilterValid | ui/raidboss/emulator/data/AnalyzedEncounter.ts:157 | a member is kept exactly when it is in the batch and passes `checkPartyMember`; never more members than the batch |
| ReplaySpec.FilterValidDistinct | ui/raidboss/emulator/data/AnalyzedEncounter.ts:157 | filtering a batch without repeated ids yields a list without repeated ids |
| ReplaySpec.SelectData | ui/raidboss/emulator/data/AnalyzedEncounter.ts:45-73 | `selectPerspective` faults exactly when a tracked member's party has an untracked id or the member's state at the start has no job; otherwise it pushes that state, and an untracked member's data is untouched |
| ReplaySpec.PlayerUpdate | ui/raidboss/emulator/data/AnalyzedEncounter.ts:266-270 | a line updates the player only when a state was recorded at its timestamp, faults exactly when that state has no job, and any state pushed carries a non-zero job |
| ReplaySpec.Entries | ui/raidboss/emulator/data/AnalyzedEncounter.ts:228-233 | one perspective entry per report, in report order |
| ReplaySpec.Feed | ui/raidboss/emulator/data/AnalyzedEncounter.ts:262-273 | one context's turn on a line faults exactly when its player-state update does, and keeps the finalizer queue well formed |
| ReplaySpec.LineStep | ui/raidboss/emulator/data/AnalyzedEncounter.ts:262-273 | one member's replay step faults exactly when its player-state update does, and keeps the queue well formed |
| ReplaySpec.ReplayTo | ui/raidboss/emulator/data/AnalyzedEncounter.ts:256-277 | a replay that has not faulted has a well-formed finalizer queue |
| ReplaySpec.ReplayThrough | ui/raidboss/emulator/data/AnalyzedEncounter.ts:256-277 | the replay through a line that has not faulted has a well-formed finalizer queue |
| ReplaySpec.ReplayAdvances | ui/raidboss/emulator/data/AnalyzedEncounter.ts:256-277 | replaying one more line is one `LineStep` on the state reached so far |
| ReplaySpec.MemberAnalysis | ui/raidboss/emulator/data/AnalyzedEncounter.ts:237-277 | a member whose `selectPerspective` faults has a failing analysis; otherwise its starting data is the engine's initial data with the player's state at the encounter start pushed (untouched for an untracked member), and the finished replay has a well-formed queue |
| ReplaySpec.ReplayOkBefore | ui/raidboss/emulator/data/AnalyzedEncounter.ts:256-277 | a replay that got past a line reached that line first, one step earlier |
| ReplaySpec.ReplayErrPersists | ui/raidboss/emulator/data/AnalyzedEncounter.ts:256-273 | a fault on some line aborts the member's replay for every later line |
| ReplaySpec.ReplayErrStep | ui/raidboss/emulator/data/AnalyzedEncounter.ts:256-273 | after a fault, one more line leaves the outcome as it was |
| ReplaySpec.SomeFailPersists | ui/raidboss/emulator/data/AnalyzedEncounter.ts:256-273 | a batch with a member whose replay failed by some line has one whose replay fails over the whole log |
| ReplaySpec.ReplayedStep | ui/raidboss/emulator/data/AnalyzedEncounter.ts:262-273 | within a line, contexts advance in `partyContext` order: those before member `k` are one line further, those after it not yet |
| ReplaySpec.TriggersOnlyStep | ui/raidboss/emulator/data/AnalyzedEncounter.ts:223-234 | replacing one batch member's triggers keeps "only the batch's triggers changed" |
| ReplaySpec.ReplayedStart | ui/raidboss/emulator/data/AnalyzedEncounter.ts:172-243 | freshly created contexts hold each member's replay after no lines |
| ReplaySpec.ReplayedAnalyses | ui/raidboss/emulator/data/AnalyzedEncounter.ts:256-277 | replays that reached the end of the log are the members' analyses |
| ReplaySpec.FailedAnalysis | ui/raidboss/emulator/data/AnalyzedEncounter.ts:256-273 | a replay that failed makes the member's analysis fail |
| ReplaySpec.AnalysedGrows | ui/raidboss/emulator/data/AnalyzedEncounter.ts:138-141 | a further batch, disjoint from the members already done and analysed without touching anyone else, extends the analysed prefix |
| ReplaySpec.FiringsFireHere | ui/raidboss/emulator/data/AnalyzedEncounter.ts:191-201 | resolvers created on a line carry that line's timestamp and fire before the next line |
| ReplaySpec.DrainResolvesHere | ui/raidboss/emulator/data/AnalyzedEncounter.ts:205-219 | finalizers drained on a line report entries resolved on that very line, no earlier than their trigger fired, and leave only later-due finalizers queued |
| ReplaySpec.ResolvedBeforeGrows | ui/raidboss/emulator/data/AnalyzedEncounter.ts:228-233 | entries resolved on the current line, appended after earlier ones, keep every entry resolved on a replayed line and offsets non-decreasing |
| ReplaySpec.LineStepInvariant | ui/raidboss/emulator/data/AnalyzedEncounter.ts:256-273 | one cursor step keeps the replay invariant one line further |
| ReplaySpec.ReplayInvariant | ui/raidboss/emulator/data/AnalyzedEncounter.ts:256-277 | after any number of lines, resolvers fired on replayed lines, queued finalizers are not overdue, and every entry resolved on a replayed line, in resolution order |
| ReplaySpec.ResolvedNotBeforeFired | ui/raidboss/emulator/data/AnalyzedEncounter.ts:205-233 | in a completed perspective every trigger resolved on a line of the log, not before its trigger fired; offsets never decrease; finalizers never run were due after the last line |
| ReplaySpec.MarkedJoblessStep | ui/raidboss/emulator/data/AnalyzedEncounter.ts:112-129 | checking one more member gives it the empty perspective exactly when it is jobless and leaves everyone else as before |
| ReplaySpec.NewFiring | ui/raidboss/emulator/data/AnalyzedEncounter.ts:191-205 | a firing on a line gets a resolver naming its own position, fired on that line and due no earlier, with its finalizer queued |
| ReplaySpec.OnTimeFires | ui/raidboss/emulator/data/AnalyzedEncounter.ts:186-205 | a line's firings keep every firing on time (queued until due, reported once due) and every entry tied to its completion line |
| ReplaySpec.StillQueued | ui/raidboss/emulator/data/AnalyzedEncounter.ts:205-219 | a finalizer not yet due is still queued after the drain |
| ReplaySpec.ReportedNow | ui/raidboss/emulator/data/AnalyzedEncounter.ts:205-233 | a finalizer due on this line makes the drain report an entry for its firing's helper |
| ReplaySpec.DrainedOnTime | ui/raidboss/emulator/data/AnalyzedEncounter.ts:205-233 | a drain keeps each firing on time, one line further |
| ReplaySpec.DrainedEntry | ui/raidboss/emulator/data/AnalyzedEncounter.ts:205-233 | each entry a drain reports belongs to a resolver whose work completes on this line, and carries this line and its offset from the encounter start |
| ReplaySpec.OnTimeDrains | ui/raidboss/emulator/data/AnalyzedEncounter.ts:205-233 | the drain of a line keeps every firing on time and every entry tied to its completion line, one line further |
| ReplaySpec.OnTimeGrows | ui/raidboss/emulator/data/AnalyzedEncounter.ts:191-205 | new resolvers and finalizers added at the ends keep the older firings on time and the older entries tied to their completion lines |
| ReplaySpec.UniqueFires | ui/raidboss/emulator/data/AnalyzedEncounter.ts:191-205 | a line's firings queue one finalizer each, for resolvers that had none, so no resolver has two |
| ReplaySpec.ReportDue | ui/raidboss/emulator/data/AnalyzedEncounter.ts:205-219 | each report of a drain is for a firing whose work completes on this line |
| ReplaySpec.ReportsApart | ui/raidboss/emulator/data/AnalyzedEncounter.ts:205-219 | two reports of one drain are for two different firings |
| ReplaySpec.DrainReportsFit | ui/raidboss/emulator/data/AnalyzedEncounter.ts:205-219 | a drain reports only firings whose work completes on this line, each once |
| ReplaySpec.AppendApart | ui/raidboss/emulator/data/AnalyzedEncounter.ts:228-233 | appending one entry each for firings completing now to entries of firings completed earlier keeps one entry per firing |
| ReplaySpec.UniqueDrains | ui/raidboss/emulator/data/AnalyzedEncounter.ts:205-233 | a drain keeps each firing to at most one queued finalizer and at most one entry |
| ReplaySpec.OnceEachStep | ui/raidboss/emulator/data/AnalyzedEncounter.ts:262-273 | one cursor step keeps each firing to at most one queued finalizer and one entry |
| ReplaySpec.ReplayOnceEach | ui/raidboss/emulator/data/AnalyzedEncounter.ts:256-277 | after any number of lines each firing has at most one queued finalizer and at most one entry |
| ReplaySpec.OnTimeStep | ui/raidboss/emulator/data/AnalyzedEncounter.ts:262-273 | one cursor step keeps every firing on time, one line further |
| ReplaySpec.ReplayStart | ui/raidboss/emulator/data/AnalyzedEncounter.ts:235 | before any line the replay has no resolvers, no queued finalizers and no entries |
| ReplaySpec.ReplayOnTime | ui/raidboss/emulator/data/AnalyzedEncounter.ts:256-277 | after any number of lines, each firing is queued until its due line and reported once that line is passed, and each entry was reported on its firing's due line |
| ReplaySpec.AnalysisOnTime | ui/raidboss/emulator/data/AnalyzedEncounter.ts:256-277 | a completed analysis ends the log with every firing on time |
| ReplaySpec.FiringReportedOnTime | ui/raidboss/emulator/data/AnalyzedEncounter.ts:191-233 | in a completed perspective each firing is due no earlier than it fired; when its due line is in the log an entry for it exists, otherwise its finalizer is still queued; every entry for it names its due line and that line's offset; there is never more than one entry for it |
| ReplaySpec.EntryReportedOnTime | ui/raidboss/emulator/data/AnalyzedEncounter.ts:205-233 | in a completed perspective every entry belongs to a firing whose work completed on a line of the log, and names that line |
| Orchestrator.AnalyzedEncounter.constructor | ui/raidboss/emulator/data/AnalyzedEncounter.ts:34-43 | a new analysis has no perspectives |
| Orchestrator.AnalyzedEncounter.UpdateState | ui/raidboss/emulator/data/AnalyzedEncounter.ts:75-110 | faults with `UnreachableCode` exactly when the state at the timestamp has job 0 or none, leaving the data alone; otherwise pushes that state as the engine's player |
| Orchestrator.AnalyzedEncounter.CheckPartyMember | ui/raidboss/emulator/data/AnalyzedEncounter.ts:112-129 | true exactly for a tracked member whose initial job is not 0; a tracked member with initial job 0 gets the empty perspective; untracked ids leave the perspectives unchanged |
| Orchestrator.AnalyzedEncounter.SelectPerspective | ui/raidboss/emulator/data/AnalyzedEncounter.ts:45-73 | the engine data becomes `SelectData` of the old data, or the call faults and leaves it unchanged |
| Orchestrator.AnalyzedEncounter.Callback | ui/raidboss/emulator/data/AnalyzedEncounter.ts:223-234 | exactly one entry is appended to that member's triggers, with the line the finalizer read and its offset from the encounter start; a missing perspective faults; no other perspective changes |
| Orchestrator.AnalyzedEncounter.SeedPerspectives | ui/raidboss/emulator/data/AnalyzedEncounter.ts:245-254 | before replay each valid member has a snapshot of its data, no triggers and the live data object as `finalData`; other members are untouched |
| Orchestrator.AnalyzedEncounter.FeedLine | ui/raidboss/emulator/data/AnalyzedEncounter.ts:266-272 | one context's turn changes it exactly as `Feed`: player update, engine feed, due finalizers |
| Orchestrator.AnalyzedEncounter.ReportAll | ui/raidboss/emulator/data/AnalyzedEncounter.ts:211-218 | every finalized firing is appended to the member's triggers in the order its finalizer ran |
| Orchestrator.AnalyzedEncounter.ReplayMember | ui/raidboss/emulator/data/AnalyzedEncounter.ts:262-273 | a member's turn advances its replay by exactly one line or records its fault, changing only its own triggers |
| Orchestrator.AnalyzedEncounter.StepMember | ui/raidboss/emulator/data/AnalyzedEncounter.ts:262-273 | member `k`'s turn advances its replay and leaves every other context and perspective of the batch as it was |
| Orchestrator.AnalyzedEncounter.ReplayLine | ui/raidboss/emulator/data/AnalyzedEncounter.ts:256-273 | one line, all contexts in order: each member's replay advances by one line; only the batch's triggers change; a fault names a failing member |
| Orchestrator.AnalyzedEncounter.ValidMembers | ui/raidboss/emulator/data/AnalyzedEncounter.ts:157 | `FilterValid` of the batch: exactly the batch members that pass `checkPartyMember`, in batch order, without repeats; jobless ones get the empty perspective and nobody else is touched |
| Orchestrator.AnalyzedEncounter.MakeContexts | ui/raidboss/emulator/data/AnalyzedEncounter.ts:172-243 | one fresh context with its own data object per valid member, holding `SelectData` of the engine's initial data, or a fault naming a member whose selection faults |
| Orchestrator.AnalyzedEncounter.ReplayAll | ui/raidboss/emulator/data/AnalyzedEncounter.ts:256-277 | the cursor visits every line in order; every member's replay reaches the end of the log, or a fault names a member whose replay fails |
| Orchestrator.AnalyzedEncounter.RunBatch | ui/raidboss/emulator/data/AnalyzedEncounter.ts:245-277 | each member's perspective ends up showing its analysis, with its own live data object as `finalData`, or a member's analysis faults |
| Orchestrator.AnalyzedEncounter.AnalyzeValid | ui/raidboss/emulator/data/AnalyzedEncounter.ts:157-281 | the valid members' perspectives show their analyses, each backed by a distinct fresh data object, or some member's analysis faults; other ids are untouched |
| Orchestrator.AnalyzedEncounter.AnalyzeFor | ui/raidboss/emulator/data/AnalyzedEncounter.ts:147-281 | succeeds exactly when every valid batch member's analysis does; jobless members get the empty perspective, valid ones show their analysis with distinct fresh data; ids outside the batch or untracked are untouched |
| Orchestrator.AnalyzedEncounter.AnalyzeSlice | ui/raidboss/emulator/data/AnalyzedEncounter.ts:139-140 | `analyzeFor` on the next slice extends the analysed prefix of the party and touches no one outside it |
| Orchestrator.AnalyzedEncounter.AnalyzeNext | ui/raidboss/emulator/data/AnalyzedEncounter.ts:138-140 | one loop iteration hands `analyzeFor` exactly the next of `Batches` and advances the index by 24 |
| Orchestrator.AnalyzedEncounter.AnalyzeParty | ui/raidboss/emulator/data/AnalyzedEncounter.ts:135-141 | the batches are handed out in order, all of them unless one faults; on success the whole party is analysed; ids outside the party are untouched |
| Orchestrator.AnalyzedEncounter.Analyze | ui/raidboss/emulator/data/AnalyzedEncounter.ts:131-145 | no tracker: nothing happens; otherwise succeeds exactly when every valid member's analysis does, and then each jobless member has the empty perspective and each valid one shows its analysis |
| ArkveldEx.LimitCutNumber | ui/raidboss/data/07-dt/trial/arkveld-ex.ts:9-20 | a number exactly for the listed marker ids, and that number is the id's position (1 to 8) in the list |
| ArkveldEx.LimitCutTable | ui/raidboss/data/07-dt/trial/arkveld-ex.ts:9-20 | the id list is exactly the map's key set; the map assigns numbers 1 to 8 and no number twice |
| ArkveldEx.Data.constructor | ui/raidboss/data/07-dt/trial/arkveld-ex.ts:22-24 | no limit-cut number is recorded at the start |
| ArkveldEx.Data.LimitCutRun | ui/raidboss/data/07-dt/trial/arkveld-ex.ts:142-147 | a limit-cut marker records its number (1 to 8); any other marker leaves the data unchanged |
| ArkveldEx.DirectionsFor | ui/raidboss/data/07-dt/trial/arkveld-ex.ts:184 | the start-east table exactly for `ABB3`, the start-west table otherwise |
| ArkveldEx.DirectionDomains | ui/raidboss/data/07-dt/trial/arkveld-ex.ts:163-182 | both tables cover exactly the numbers 1 to 8 |
| ArkveldEx.DirectionTables | ui/raidboss/data/07-dt/trial/arkveld-ex.ts:163-182 | both tables repeat with period four, agree on every even number and send every odd number to opposite sides |
| ArkveldEx.ClamorousChaseAsWritten | ui/raidboss/data/07-dt/trial/arkveld-ex.ts:162-201 | the alert as written: no number gives `first` with number 1's rendered direction; 1 to 8 gives `text` with the direction's output key; any other number gives `number`; `unknown` never |
| ArkveldEx.ClamorousChase | ui/raidboss/data/07-dt/trial/arkveld-ex.ts:162-201 | the corrected alert: the same case analysis, with the rendered direction in `text` as in `first`; `unknown` is never produced |
| ArkveldEx.LimitCutGetsDirection | ui/raidboss/data/07-dt/trial/arkveld-ex.ts:142-200 | every number the Limit Cut can record gets a direction and is shown with it |
| ArkveldEx.ChaseAgreesWithFirst | ui/raidboss/data/07-dt/trial/arkveld-ex.ts:194-200 | number 1 is told the same direction text whether or not its marker was recorded |
| ArkveldEx.ChaseAsWrittenShowsKey | ui/raidboss/data/07-dt/trial/arkveld-ex.ts:200 | as written, an `ABB3` cast shows number 1 `dirE`, not the east direction text that the unnumbered call shows |
| ArkveldEx.LaserTarget | ui/raidboss/data/07-dt/trial/arkveld-ex.ts:221-226 | `laserOnYou` exactly when the target is the player, otherwise `laserOnPlayer` naming the target |

## Left out

- The timeline controller, the timeline UI and their `OnTrigger` slot. In the source that slot is reassigned for every context, so the timeline's firings reach only the last context's hook. The model routes every firing through its own context's hook.
- `dispatch('analyzeLine')`, `dispatch('analyzed')`, `watchCombatantsOverride.tick`/`clear`, `timelineController.onEmulatorLogEvent` and `timelineUI.stop`. These are UI and event plumbing that do not change the perspectives.
- The party and zone notifications of `selectPerspective`. The model keeps only their failure: a party id the tracker does not know raises `UnreachableCode`.
- The internals of `PopupTextAnalysis`: trigger matching, conditions such as `targetIsYou`, `suppressSeconds`, delays, output rendering and the regex cache. The engine is a parameter, `Engine.fire`. Suppression and deferral are attributes of a firing.
- `Util.jobEnumToJob` and the floating-point position, heading and vitals fields of a state update. A state is modelled as id, name, optional job and level.
- `EmulatorCommon.cloneData`: a snapshot is a value copy of `DataValue`.
- Resolution.Fire: a firing's writes to the data and its `executed` flag take effect on the line that fired it, even when its asynchronous work (a delay, a promise) completes on a later line. Only the finalizer's snapshot and its report wait for that line. In the source, the part of the action that runs after the delay changes the data only then.
- Real `async`/`await` scheduling. A finalizer runs when the cursor reaches the line its deferral names, after that context's feed of the line. Finalizers still pending after the last line never run.
- Resolution.PopupTextAnalysis.Finalize: requires the cursor to be inside the log. The finalizers only run while the cursor is on a line, so `getCurLogLine`'s out-of-range fault (modelled in `Log.GetCurLogLine`) cannot arise.
- Orchestrator.AnalyzedEncounter.Analyze: requires the party list to have no repeated ids. With a repeated id, two contexts would write one perspective.
- Orchestrator.AnalyzedEncounter.Analyze: does not state that the `finalData` objects of members in different batches are distinct and fresh. `AnalyzeFor` and `AnalyzeValid` state it within one batch.
- Orchestrator.AnalyzedEncounter.Analyze: after a fault, it states nothing about the perspectives of the batch that faulted and of earlier batches. The exception then ends `analyze` with those perspectives partly built.
- `Combatant.ts` is not part of this model. `nextState(0)` is the combatant's recorded initial state, and `getState`/`hasState` are defined over its chronological history.
- In `arkveld-ex.ts`, the `timelineReplace` localization tables and the triggers that only reference library responses are not modelled. The locale's direction strings are a parameter (`render`), and the party's name lookup is a parameter (`member`).
- ArkveldEx.Data: only the fields this trigger set reads or writes (`me`, `limitCutNumber`).

## Findings

| source | as written | input that shows it | evidently intended | confidence | as-written member | corrected member |
|---|---|---|---|---|---|---|
| ui/raidboss/data/07-dt/trial/arkveld-ex.ts:200 | the numbered `text` output is passed `dir`, the output key (`'dirE'`), while `first` at line 197 is passed the rendered `dirStr` | cast `ABB3` with limit-cut number 1: the alert reads `dirE (1)`, while with no number it reads `1 starts` followed by the east string | pass `dirStr` to `text` as well | high; not executed | ArkveldEx.ClamorousChaseAsWritten (witness ArkveldEx.ChaseAsWrittenShowsKey) | ArkveldEx.ClamorousChase (proved ArkveldEx.ChaseAgreesWithFirst) |
