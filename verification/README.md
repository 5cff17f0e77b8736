# Governed memory: a verified model

The system keeps governed memory in SQLite tables: events, documents, tasks, runtimes, artifacts, terms,
revisions.  Every change goes through a guarded operation, and history is appended, never rewritten.  This
project models those operations and proves what they promise over every input and every run.

Each table is a map or a sequence in a field of a class, each operation a method that reassigns it, each
`with conn` block one atomic step, and SQL the filter and sort it denotes.  Hashes are functions of what they
hash; timestamps and texts are opaque.  Operations that only read work on the table's value.  Beside each
class stands a step function on the table's value; the methods are proved equal to it, and the theorems are
about all its runs.  What an operation's result means is also said on the columns alone, without the functions
the operation is written with.

| file | what it models |
|---|---|
| `SuccessorGraph.dfy` | partial successor maps: walks, cycles, when a new link keeps a map acyclic |
| `Governance.dfy`, `Compression.dfy` | compression artifacts, the supersession chain walk, the cycle detector |
| `Ontology.dfy` | governed terms and aliases |
| `Orchestration.dfy` | tasks, lineage, dependencies, deadlock and progress |
| `Runtime.dfy` | the supervised runner that drains the ready queue in batches |
| `Chunker.dfy` | paragraph and fixed-size chunking with recovered offsets |
| `Bundles.dfy`, `Exporter.dfy`, `Importer.dfy`, `Continuity.dfy` | bundle export, import, and both together |
| `Retrieval.dfy`, `ContextBuilder.dfy` | ranking, expansion, paging; packing under a character budget |
| `Confidence.dfy`, `Embeddings.dfy` | append-only revision log; embeddings and the pins that gate them |
| `Ordering.dfy`, `Tables.dfy`, `Events.dfy`, `Outcomes.dfy` | sorting, keyed tables, the memory event, results and errors |

Where the code and its own documentation differ, the model follows the code:

- An import refused for collisions reports the planned counts, not zeros (`Continuity.ReportedZeroIff`).
- The poll for "all" ready tasks returns at most 50 (`Runtime.PollReadyTasks`).
- A supersession cycle of 50 or more artifacts is reported as truncated, not as a cycle
  (`Compression.ClosedOrbitFlag`); a run of accepted calls reaches one (`Compression.ReachableCycleFlag`).
- Forbidding a term does not invalidate its aliases (`Ontology.ForbiddenTargetStillResolves`).
- A fixed-size chunk has stripped text but unstripped offsets (`Chunker.ChunksAreFaithful`).

And these are consequences of the code that a reader may not expect:

- Tag overlap never decides a ranking: within each group no two events share a recency rank
  (`Retrieval.RankingOrder` gives the whole order without it).
- Compression supersession may be circular, with cycles of every length (`Compression.CyclesAreReachable`);
  exactly when it stays acyclic is `Compression.SupersedeKeepsAcyclicIff`.
- A dependency on a superseded task blocks for good (`Orchestration.SupersededDependencyBlocksForever`, reached in
  `Orchestration.SupersededDependencyIsReachable`).
- An approved confidence candidate stays proposed and can be approved again (`Confidence.ApprovalIsRepeatable`,
  reached in `Confidence.CandidateIsReachable`).
- Once an embedding row is terminal its key is spent: embedding the same text again fails
  (`Embeddings.SpentKeyFailsForever`); on reachable tables nothing else makes it fail
  (`Embeddings.EmbedFailsIffSpent`), and editing a text and restoring it is enough (`Embeddings.SpentKeyIsReachable`).
- A query without primary events expands to the neighbours of event 0 (`Retrieval.EmptyQueryExpandsEventZero`,
  exactly when in `Retrieval.ExpansionIsOneHopIff`).  Generated ids start at 1, but an import keeps the ids it
  is given, 0 among them (`Continuity.AnyIdCanBeImported`).
- A filtered export by source ids need not survive the round trip: a document that is no exported event's source
  is lost from the re-export (`Continuity.RequestedDocumentIsLost`).  It survives exactly when every path of a
  requested source id is the source of a selected and kept event (`Continuity.BundleRoundTrip`).
- The checkpoint of an interrupted run records exactly the settled tasks unless the interrupt came between a
  task's last commit and its being counted; then it is one short (`Runtime.CheckpointIsExactIff`, with such runs
  in `Runtime.LateInterruptUndercounts`).  An interrupt escapes without a checkpoint exactly when it arrives on
  entry, before the runner can catch it (`Runtime.UncaughtIff`).
- A blank actor executes nothing and leaves the runtime in executing (`Runtime.BlankActorExecutesNothing`).

## Model

| member | source | states |
|---|---|---|
| Governance.DetectSupersessionCycles | memory/governance.py:1306-1376 | the reported id lists are exactly the cycles of the supersession links, pairwise disjoint, each ascending, in the order of the least id that leads into them |
| Governance.Follow | memory/governance.py:1336-1344 | the inner walk ends; its list is a repetition-free walk from the start, and the current id has left the map or is in the list |
| Governance.MeetsOwnCycle | memory/governance.py:1346-1350 | a walk that re-entered itself leads into no cycle other than its own suffix |
| Governance.EndedWalkMeetsNone | memory/governance.py:1341-1346 | a walk that left the map leads into no cycle, so no tail id is reported |
| Governance.ChainCycleIsReported | memory/governance.py:1346-1375 | every cycle the chain walk flags is one of the detector's reports |
| Compression.ArtifactStore.Promote | memory/compression.py:351-387 | result and new table of a promotion: blank texts, a missing row and a row that is not a candidate are refused unchanged |
| Compression.ArtifactStore.Invalidate | memory/compression.py:390-422 | result and new table of an invalidation, legal from candidate and active only |
| Compression.ArtifactStore.Supersede | memory/compression.py:425-491 | result and new table of a supersession: the artifact must be active, the replacement another existing artifact in any status |
| Compression.ArtifactStore.GetSupersessionChain | memory/compression.py:497-558 | distinct, consecutively linked existing artifacts from the root, at most 50; each of the three flags characterized by an if-and-only-if; no flag means the chain really ends |
| Compression.ChainIsDetermined | memory/compression.py:514-558 | those promises admit one answer per root |
| Compression.ClosedOrbitFlag | memory/compression.py:525-548 | a closed orbit of n artifacts is flagged as a cycle exactly when n is below 50, and as truncated otherwise |
| Compression.FlaggedSuffixIsCycle | memory/compression.py:533-536 | when a cycle is flagged, a suffix of the chain is a cycle of the links |
| Compression.RunIsGoverned | memory/compression.py:351-491 | in every reachable table, status and column groups agree and links point at other existing artifacts |
| Compression.TerminalRowsAreFrozen | memory/compression.py:390-491 | no run changes a superseded or invalidated row |
| Compression.ChangeAcceptedIff | memory/compression.py:351-491 | which changes of a stored artifact are accepted |
| Compression.ChangesAreRecorded | memory/compression.py:351-491 | in every reachable table each change on record names who made it and why |
| Compression.ReachableChainIsUnbroken | memory/compression.py:537-543 | in a reachable table the broken flag is never raised |
| Compression.SupersedeKeepsAcyclicIff | memory/compression.py:455-487 | an accepted supersession keeps the links acyclic exactly when they were and the replacement does not already lead back |
| Compression.ActiveReplacementKeepsAcyclic | memory/compression.py:468-472 | requiring an active replacement would be enough |
| Compression.CyclesAreReachable | memory/compression.py:425-491 | for every n from 2 on, accepted calls from the empty table reach a cycle of n artifacts |
| Compression.ReachableCycleFlag | memory/compression.py:525-548 | on that reachable table the chain is flagged as a cycle below 50 artifacts and as truncated, not as a cycle, from 50 on |
| SuccessorGraph.AcyclicIffEveryWalkEnds | memory/governance.py:1341-1344 | links are acyclic exactly when following them from any id comes to an end |
| SuccessorGraph.LinkAcyclicIff | memory/ontology.py:316-363 | giving a node without successor a link keeps a map acyclic exactly when the target does not lead back to it |
| Ontology.Registry.RegisterTerm | memory/ontology.py:165-233 | result and new registry; an unknown vocabulary, blank texts, an existing term and an existing alias are refused |
| Ontology.Registry.DeprecateTerm | memory/ontology.py:236-284 | result and new registry; only an active term can be deprecated |
| Ontology.Registry.SupersedeTerm | memory/ontology.py:287-363 | result and new registry; term and replacement must differ and both be active |
| Ontology.Registry.ForbidTerm | memory/ontology.py:366-409 | result and new registry; legal from every status, and the link of a superseded term is kept |
| Ontology.Registry.AddAlias | memory/ontology.py:412-491 | result and new registry; the target must be registered and not forbidden, the alias neither a term nor an alias |
| Ontology.DetectAliasConflicts | memory/ontology.py:819-877 | exactly the keys that are both alias and term, sorted by vocabulary and alias |
| Ontology.ReachableRegistryIsGoverned | memory/ontology.py:165-491 | in every reachable registry supersession is acyclic and stays in the registry, and aliases and terms are disjoint with registered targets |
| Ontology.SupersessionEndsInVocabulary | memory/ontology.py:316-363 | from every registered term the links end, visiting only registered terms of the same vocabulary |
| Ontology.AliasResolvesInOneStep | memory/ontology.py:539-558 | exactly the aliases resolve, to a registered term that is never itself an alias |
| Ontology.AcceptedCallLeaves | memory/ontology.py:165-491 | the status, link, change record and alias that an accepted call leaves, every other row as it was, and nothing at all after a refusal |
| Ontology.AcceptedIff | memory/ontology.py:165-491 | which calls are accepted, each condition on the rows |
| Ontology.ReachableIsRecorded | memory/ontology.py:165-491 | in every reachable registry terms and aliases have names, and each change names who made it and why |
| Ontology.AcceptedAliasResolves | memory/ontology.py:539-558 | an accepted alias resolves to its term after every further run |
| Ontology.ReachableRegistryHasNoConflicts | memory/ontology.py:840-848 | on a reachable registry the conflict audit is empty |
| Ontology.ForbiddenTargetStillResolves | memory/ontology.py:366-409 | forbidding a term leaves its aliases resolving and refuses further ones |
| Ontology.RetiredTermsStayRetired | memory/ontology.py:236-409 | a term that is no longer active never becomes active again, and its link does not change |
| Orchestration.TaskStore.CreateTask | orchestration/service.py:67-110 | a valid task is appended in pending with version 1 and one lineage event; anything else changes nothing |
| Orchestration.CreationAcceptedIff | orchestration/service.py:67-90 | a task is created exactly with a title, an actor, a reason, a known type and a priority from 1 to 5 |
| Orchestration.TaskStore.TransitionTask | orchestration/service.py:182-224 | each refusal in its order; otherwise state, version and one lineage event with the dependency snapshot |
| Orchestration.TaskStore.AddDependency | orchestration/service.py:231-263 | unknown kind, self-dependency, missing task and duplicate are refused; otherwise one row is appended |
| Orchestration.TaskStore.CheckAndUnblock | orchestration/service.py:297-324 | true exactly when the task is blocked and nothing blocks it, and then it is ready; otherwise nothing changes |
| Orchestration.TaskStore.ListTasks | orchestration/service.py:143-175 | rows that match, in order of priority and id and without repetition, as many as the limit allows (a negative one allows all), each before every matching row left out; an empty type or actor filters nothing |
| Ordering.ListsFirstIff | orchestration/service.py:164-175 | those promises admit one answer: the sorted listing, cut at the limit |
| Orchestration.DependencySnapshot | orchestration/service.py:37-44 | lists the ids a task depends on, once each, ascending |
| Orchestration.StatesBefore | orchestration/models.py:39-48 | for each state, exactly the states from which it is entered |
| Orchestration.UnblockedIff | orchestration/service.py:278-324 | an unblock check makes a task ready exactly when it is blocked and every task it depends on is completed |
| Orchestration.DependencyAcceptedIff | orchestration/service.py:231-263 | a dependency is accepted exactly between two different stored tasks, with a known kind, and only once |
| Orchestration.ReachableRowsAreValid | orchestration/service.py:67-263 | in every reachable store tasks have a title, an actor, a known type and a priority from 1 to 5, and no dependency is repeated or reflexive |
| Orchestration.ReachableLineageIsTruth | orchestration/transitions.py:40-58 | in every reachable store each row's state is the last lineage state, its version the lineage length, and the lineage a path of permitted transitions |
| Orchestration.TaskRunsAreAccountedFor | runtime/service.py:71-85 | in every reachable store runs started are completions, failures, blocked runs and the one in progress; retries are the failures neither cancelled nor left standing; a task completes at most once |
| Orchestration.RunsAreAccountedFor | orchestration/models.py:39-48 | the same accounting for every permitted history |
| Orchestration.StuckForever | orchestration/service.py:278-324 | blocked tasks that each wait for one of themselves, or for a cancelled or superseded task, are moved by no sequence of creations, dependencies, unblock checks and other tasks' transitions |
| Orchestration.StuckIffNeverUnblocked | orchestration/service.py:278-324 | a blocked task is in such a set exactly when it stays blocked under every sequence of unblock checks and transitions of tasks that are not blocked at that moment |
| Orchestration.FreeTaskCanBeReadied | orchestration/service.py:297-324 | constructs, for a blocked task in no such set, a sequence of that kind that makes it ready |
| Orchestration.DeadlockIffWaitCycle | orchestration/service.py:278-324 | when every task is blocked or completed, a non-empty stuck set exists exactly when blocked tasks wait for each other in a cycle |
| Orchestration.AcyclicWaitMakesProgress | orchestration/service.py:297-324 | without such a cycle, and with something blocked, some unblock check succeeds |
| Orchestration.SupersededDependencyBlocksForever | orchestration/service.py:278-294 | a blocked task that depends on a superseded one stays blocked |
| Orchestration.SupersededDependencyIsReachable | orchestration/models.py:39-48 | calls from the empty store that lead to such a task |
| Runtime.RegisterRuntime | runtime/state_store.py:46-78 | a blank name, database or actor is refused; otherwise a new row, initialized at iteration 0 with one lineage event |
| Runtime.RuntimeRow.constructor | runtime/state_store.py:58-78 | the row that registration writes once its arguments are accepted |
| Runtime.RuntimeRow.Transition | runtime/state_store.py:95-135 | a blank reason is refused, then a move that is not permitted; otherwise the row moves and exactly one lineage event with both states, the reason and the iteration is appended, so that the row always equals the end of a permitted lineage of its version's length |
| Runtime.RuntimeRow.SaveCheckpoint | runtime/state_store.py:149-174 | a blank reason is refused; otherwise one checkpoint is appended and nothing else changes |
| Runtime.RuntimeRow.Move | runtime/runner.py:184-217 | pausing and stopping: the refusals in order, one logged move, and the iteration kept unless one is given |
| Runtime.RuntimeRow.Recover | runtime/runner.py:220-240 | reaches idle from exactly four states in one or two logged moves with their reasons; from recovering a blank reason is accepted |
| Runtime.RecoveryIsLogged | runtime/runner.py:220-240 | the row and the one or two lineage events a recovery leaves, with their reasons |
| Runtime.StatesBefore | runtime/models.py:21-33 | for each state, exactly the states from which it is entered |
| Runtime.Enter | runtime/runner.py:57-79 | paused and initialized runtimes move to idle, others stay; the run escapes exactly for an interrupt at one of its two points, at the first of them |
| Runtime.ExecuteTask | runtime/service.py:27-68 | a task that cannot start is refused unchanged; an interrupt leaves it running; otherwise it ends completed exactly when its type is registered and its handler succeeds, failed otherwise, with exactly two lineage events, the last giving the handler's reason |
| Runtime.PollReadyTasks | runtime/service.py:22-24 | the first 50 ready tasks by priority and id |
| Runtime.QueueIsByPriority | runtime/service.py:22-24 | the queue holds exactly the ready tasks, by priority and then id |
| Runtime.ExecuteBatch | runtime/runner.py:138-140 | the whole batch in order when no interrupt arrives at any of its points; otherwise the first interrupt says where it stops and what it leaves: the next task untouched, started, or settled and not yet counted; a blank actor is refused at the first task |
| Runtime.RunIteration | runtime/runner.py:112-168 | one round from any state: complete, with the next 50 tasks of the queue and its logged moves, exactly when nothing cuts or refuses it; otherwise the row and the store of its first interrupt or of the refusal |
| Runtime.IterationIsLogged | runtime/runner.py:112-165 | the lineage events, their reasons and the checkpoint of a complete iteration |
| Runtime.ExecutePhase | runtime/runner.py:132-165 | a polled batch: executing, the tasks in order, the checkpoint when due, idle; or the row and the store of its first interrupt, or of the refusal of a blank actor |
| Runtime.CheckpointPhase | runtime/runner.py:142-165 | idle again, with a checkpoint exactly when the iteration is a multiple of the interval, if no interrupt arrives at any of its points; otherwise the row of the first one |
| Runtime.Round | runtime/runner.py:112-181 | the run goes on exactly when the iteration completes; an interrupt ends it interrupted with a checkpoint, a refusal with its error |
| Runtime.StopCheck | runtime/runner.py:82-110 | the run goes on exactly without an interrupt, below the maximum and without the signal; otherwise it ends as the first of them says, in this order |
| Runtime.OnInterrupt | runtime/runner.py:170-181 | an interrupt reaches interrupted with a checkpoint exactly from the states that permit it |
| Runtime.RunIterations | runtime/runner.py:33-181 | the outcome, the row with its lineage and checkpoints, and the store are those of the one ending that the call, the row and the queue determine |
| Runtime.RunEndsAsCalled | runtime/runner.py:81-181 | those promises admit one ending: an ending that the call, the row's state and iteration and the number of ready tasks provide for is the one the run has |
| Runtime.InterruptEndsRunIff | runtime/runner.py:81-181 | from initialized, paused or idle a run ends interrupted at a point exactly when its path meets an interrupt there before any other and before the maximum, the signal or a refusal |
| Runtime.LoneInterruptEndsRunIff | runtime/runner.py:81-181 | in a run that does not stop at once, with an actor that is not blank, a lone interrupt in the first iteration ends the run at its point exactly when the iteration comes by it: around polling always, around a task for the first 50 of the queue, around the checkpoint step with a non-empty queue, inside a checkpoint also with a due interval |
| Runtime.InterruptLeaves | runtime/runner.py:170-181 | it then leaves the row interrupted, a last checkpoint with the iteration and the counted tasks, and the store of that point |
| Runtime.UncaughtIff | runtime/runner.py:57-81 | an interrupt escapes exactly when it arrives on entry, and then no task and no checkpoint is touched |
| Runtime.CheckpointIsExactIff | runtime/runner.py:138-179 | the checkpoint of an interrupted run counts exactly the settled tasks of the queue, unless the interrupt came after a task's last commit: then it is one short |
| Runtime.LateInterruptUndercounts | runtime/runner.py:138-140 | every run whose one interrupt comes after its first task is settled records none |
| Runtime.ReadyTaskIsReachable | orchestration/service.py:67-224 | two calls on the empty store leave exactly one ready task, so such runs exist |
| Runtime.QuietRunDrainsQueue | runtime/runner.py:82-165 | a run by a named actor with room below its maximum, no signal and no interrupt ends exactly at the maximum, paused, with the whole ready queue executed in order, each task completed exactly when its handler is registered and succeeds and failed otherwise, none ready, and exactly ceil(n / 50) moves to executing in its lineage |
| Runtime.EnoughIterationsDrainQueue | runtime/runner.py:112-165 | the same drain for every run, however stopped, that went through enough iterations |
| Runtime.InterruptLeavesOneRunning | runtime/runner.py:138-181 | after an interrupt at most one task of the run is running: the next after those it counted, and only if the interrupt hit its handler |
| Runtime.FinishedRunCheckpoints | runtime/runner.py:142-165 | a finished run has added, in ascending order, exactly one checkpoint for each iteration that is a multiple of the interval and took a batch, with the tasks executed so far in fifties |
| Runtime.FinishesAtFirstCause | runtime/runner.py:82-110 | a run finishes at the first iteration that is at the maximum or whose signal says so |
| Runtime.UnboundedIff | runtime/runner.py:50-55 | a run is refused as unbounded exactly without a maximum, a signal and the permission |
| Runtime.BlankActorExecutesNothing | runtime/runner.py:138-140 | a blank actor changes no task; when refused, the row is left in executing at the first iteration |
| Runtime.HaltedRunIsRefused | runtime/runner.py:81-181 | from interrupted, recovering, failed or stopped every run that enters is refused and changes nothing |
| Runtime.RunAppends | runtime/state_store.py:122-135 | however a run ends, it only appends to the lineage and the checkpoints |
| Runtime.EntryIsLogged | runtime/runner.py:65-77 | what a run logs first: the move to idle of a paused or initialized runtime, with its reason and iteration |
| Runtime.EndIsLogged | runtime/runner.py:82-172 | what a paused or interrupted run logs last, with its reason, state and iteration |
| Runtime.RunKeepsMaximum | runtime/runner.py:83-96 | the iteration never decreases and never passes the maximum |
| Runtime.ResumesNeverRepeat | runtime/runner.py:60-240 | over any number of runs, interrupts and resumes under one maximum, and of recoveries, pauses and stops that keep the iteration, a task that is not ready is never touched again and the iteration never passes the maximum |
| Runtime.StartedAtMostOnce | runtime/runner.py:60-240 | over any such sequence a task is started at most once, and one left running by an interrupt stays running and is never polled again |
| Chunker.FixedSizeChunks | ingestion/chunker.py:111-161 | terminates and emits the stripped text of each non-blank window with consecutive indices |
| Chunker.AlignedEnd | ingestion/chunker.py:128-137 | the source's two backward searches choose the end the windows are specified with |
| Chunker.WindowEndIsLastBoundary | ingestion/chunker.py:128-137 | a window reaches the text's end when it can; otherwise it stops at its last space, or at its last newline when it has no space at all, and at the hard limit exactly when that boundary is missing or is its first character |
| Chunker.RFindIsLast | ingestion/chunker.py:133-135 | no later position of the range holds the character |
| Chunker.WindowsFit | ingestion/chunker.py:127-137 | every window is non-empty, inside the text and at most max_chars long |
| Chunker.WindowsCover | ingestion/chunker.py:124-161 | with a non-negative overlap, however large, every position is in some window |
| Chunker.WindowsIncrease | ingestion/chunker.py:152-159 | window starts strictly increase |
| Chunker.WindowsOverlap | ingestion/chunker.py:152-159 | each window starts `overlap` characters before the end of the one before it, or one after its start if that is later; the first starts with the text and the last ends with it |
| Chunker.DenseChunksOverlap | ingestion/chunker.py:164-177 | without blank lines each chunk starts 100 characters before the end of the one before it, or one after its start, and later only past white space |
| Chunker.ParagraphChunksOverlap | ingestion/chunker.py:60-85 | the same inside every paragraph |
| Chunker.FixedChunksKeep | ingestion/chunker.py:111-161 | with a non-negative overlap, however large, every character that is not white space is in the text of some emitted chunk |
| Chunker.StripTrims | ingestion/chunker.py:139 | stripping removes exactly the surrounding white space |
| Chunker.SplitIsParagraphing | ingestion/chunker.py:42 | the split pieces are the maximal stretches between runs of two or more newlines |
| Chunker.FindHitsTrueStart | ingestion/chunker.py:55-57 | from a cursor that lags by white space only, a paragraph does not occur before its true position |
| Chunker.ChunkByParagraph | ingestion/chunker.py:28-85 | the chunks built from recovered offsets are those built from the true split positions, on every text |
| Chunker.ChunkDocument | ingestion/chunker.py:164-177 | which of the two algorithms is chosen |
| Chunker.ChunksAreFaithful | ingestion/chunker.py:28-161 | every chunk covers at most max_chars characters of the document and holds their text, exactly or stripped; indices are consecutive and starts increase |
| Chunker.ShortParagraphIsExact | ingestion/chunker.py:60-69 | each non-blank paragraph within the limit, whatever the others are, has a chunk with its very start, end and text, at least two characters away from every other chunk |
| Chunker.ShortParagraphsAreExact | ingestion/chunker.py:60-69 | when no paragraph is over the limit, chunk texts equal their spans, which are disjoint and increasing |
| Chunker.NothingIsLost | ingestion/chunker.py:28-177 | every character that is not white space is in the text of some chunk |
| Bundles.ChecksumIgnoresItself | continuity/manifest.py:58-63 | the checksum does not depend on its own field |
| Bundles.ValidUnderSameManifestIff | continuity/manifest.py:44-76 | for an injective digest, another bundle under a valid bundle's manifest is valid exactly when version and records are the same; schema 1.0 leaves the semantic sections open |
| Bundles.SameChecksumSameContent | continuity/manifest.py:166-227 | two valid bundles with one recorded checksum have the same covered content and manifest |
| Bundles.ValidIff | continuity/manifest.py:164-227 | which versions, manifest keys, declared lengths and checksum a bundle needs to be imported |
| Exporter.ExportIsClosed | continuity/exporter.py:55-265 | exactly which rows each section holds: selected and kept events, documents at wanted paths, the runs of exported documents, the promoted candidates of exported events, the semantic runs of exported candidates |
| Exporter.ExportedRows | continuity/exporter.py:55-152 | which events pass the filter's status, tags, creation times and sources, and which documents come with them |
| Exporter.SectionsInOrder | continuity/exporter.py:89-265 | the order of the rows in each of the five sections |
| Exporter.ExportedManifest | continuity/exporter.py:344-415 | what the manifest declares: the filter, how many proposed compression events were left out, how many exported ones point at artifacts, the lineage check passed in, the checksum |
| Exporter.StoredRows | continuity/importer.py:192-445 | what the table constraints guarantee of every stored row |
| Exporter.KeptListing | continuity/exporter.py:347-358 | excluding proposed compression-derived events keeps the id order |
| Exporter.DocsListed | continuity/exporter.py:145-152 | documents come by path, then version |
| Exporter.ExportIsValid | continuity/exporter.py:318-415 | every exported bundle passes validation |
| Importer.Classify | continuity/importer.py:86-114 | each planning loop splits its rows into inserts, skips and collisions, in order |
| Importer.PlanAccountsForAll | continuity/importer.py:74-185 | inserts, skips and collisions add up to the section's length |
| Importer.Database.PlanImport | continuity/importer.py:562-572 | the plan of all five sections, candidates being checked against the events about to be inserted |
| Continuity.BumpedIsMaximum | continuity/importer.py:252-263 | the id sequence becomes the maximum of itself and the inserted ids |
| Importer.Database.Write | continuity/importer.py:594-600 | writes all five plans, or nothing when one insert violates a constraint |
| Importer.Database.ImportBundle | continuity/importer.py:534-616 | an invalid bundle, a dry run, a collision and a constraint violation leave the database unchanged; otherwise exactly the plan is written; the reported counts and collisions; result and new tables are one function of the old tables and the bundle |
| Importer.ImportReports | continuity/importer.py:86-185 | exactly which events, documents and candidates are reported as collisions, how many rows of each section are imported and skipped, and when nothing is written |
| Tables.InsertRows | continuity/importer.py:192-219 | row by row inserts under a key, a check and a second unique constraint |
| Tables.InsertableIff | continuity/importer.py:192-265 | they succeed exactly when keys are new and distinct, every row is acceptable and no two clash |
| Continuity.ImportIsMerge | continuity/importer.py:534-616 | a collision-free import inserts in each table exactly the rows whose key is absent |
| Continuity.ImportKeepsSound | continuity/importer.py:252-263 | every table keeps its constraints and no event id is above the sequence, so generated ids are new |
| Continuity.SecondImportInsertsNothing | continuity/importer.py:6-13 | importing the same records again succeeds, inserts nothing and changes nothing |
| Continuity.ImportsCommute | continuity/importer.py:74-185 | two imports that succeed in both orders leave the same keys, event identities and sequence, and the same database when their rows agree on shared keys |
| Continuity.ExportReloads | continuity/importer.py:534-616 | an exported bundle is accepted by an empty database, which then holds exactly its rows |
| Continuity.RoundTripIff | continuity/exporter.py:344-394 | export, import into empty tables, unfiltered export: the same five sections in the same order exactly when every exported document is the source of an exported event |
| Continuity.DocsAreSourcesIff | continuity/exporter.py:125-152 | that condition in terms of the call: every path of a requested source id is the source of a selected and kept event |
| Continuity.BundleRoundTrip | continuity/importer.py:534-616 | the composed operations: an exported bundle imports into empty tables with the reported counts, a second import reports zeros and changes nothing, and the export of the result carries the same sections exactly under that condition |
| Continuity.RequestedDocumentIsLost | continuity/exporter.py:125-152 | a database of one document, exported by its source id, whose round trip loses the document |
| Continuity.AnyIdCanBeImported | continuity/importer.py:222-265 | an import keeps whatever event id it is given, 0 among them |
| Continuity.UnfilteredRoundTrip | continuity/exporter.py:344-394 | an unfiltered export always survives the round trip |
| Continuity.ExportNeverDangles | continuity/importer.py:353-367 | in no target database does an exported bundle collide on a dangling candidate |
| Continuity.WritableIff | continuity/importer.py:188-445 | exactly when a collision-free plan meets no constraint; keys repeated inside the bundle are found only here |
| Continuity.NewEventIsAcceptedIff | memory/schema.sql:5-27 | a bundle of one event with an unknown id is imported exactly when its texts are not empty, its confidence is from 1 to 5, and its type and status are of the listed words |
| Continuity.NewDocumentIsAcceptedIff | sources/registry.py:45-69 | one document with an unknown source id exactly when no stored row has its path and version, none its path and checksum, and its three words are listed ones |
| Continuity.NewRunIsAcceptedIff | ingestion/runs.py:53-55 | one ingestion run with an unknown id exactly when its status is a listed one |
| Continuity.NewSemRunIsAcceptedIff | semantic/ledger.py:89-91 | one semantic run with an unknown id exactly when its status is a listed one |
| Continuity.NewCandidateIsAcceptedIff | continuity/importer.py:327-371 | one candidate with an unknown id exactly when its promoted event, if it names one, is stored, its index is not negative, its confidence is from 1 to 5 and its status a listed one |
| Continuity.ReportedZeroIff | continuity/importer.py:577-592 | reported imported counts are zero exactly when nothing in the bundle is new to the database |
| Continuity.RefusalReportsPlannedCounts | continuity/models.py:66-78 | a valid bundle whose refused import reports one imported event |
| Retrieval.RankingIsTotal | memory/retrieval.py:48-59 | on entries of distinct events the key orders totally |
| Retrieval.ExpandRelated | memory/retrieval.py:413-453 | the primary entries and the scored neighbours, no event twice |
| Retrieval.ExpansionIsOneHopIff | memory/retrieval.py:418-440 | the expansion is the existing one-hop neighbours outside the primary events, exactly unless there is no primary event and a link at id 0 has an existing end |
| Retrieval.EmptyQueryExpandsEventZero | memory/retrieval.py:418-440 | a query without primary events that expands to event 0 and its neighbour, although the one-hop neighbourhood is empty |
| Retrieval.ScoreEvents | memory/retrieval.py:393-410 | tag overlap and recency rank of every event in its group |
| Retrieval.ComputeSemanticRanks | memory/retrieval.py:261-344 | the rank of every event and the number of eligible ones |
| Retrieval.SemanticRanksAreBijection | memory/retrieval.py:332-340 | eligible events take the ranks 0..C-1 in order of similarity and id, all others have C |
| Retrieval.Retrieve | memory/retrieval.py:151-205 | the requested slice of the ranking of all entries, any two results in that order |
| Retrieval.RankingOrder | memory/retrieval.py:48-59 | of two ranked entries the primary one comes first, then the type in doctrine order, the higher effective confidence, under a query vector the more similar with incomparable events last, then the later update and the larger id |
| Retrieval.EntriesAre | memory/retrieval.py:345-453 | the primary entries are exactly the events that pass the query's types, statuses, confidence and tags; the expanded ones exactly those named by or linked with them in either direction |
| Retrieval.EntryScores | memory/retrieval.py:382-410 | an entry counts the query tags it carries and the fresher events of its group |
| Retrieval.NegativeOffset | memory/retrieval.py:191-193 | a negative offset counts from the end |
| Retrieval.EntriesCoverIds | memory/retrieval.py:162-166 | the entries are the primary events and, on request, the expansion |
| Retrieval.RankingIsCanonical | memory/retrieval.py:189-193 | any list of the entries sorted by the key is the ranking, whatever the fetch order |
| Retrieval.SemanticRerankStaysInStrata | memory/retrieval.py:172-189 | with and without a query vector the ranked lists agree at every index on expansion, doctrine rank and effective confidence |
| Retrieval.PagesConcatenate | memory/retrieval.py:191-193 | successive pages are, end to end, a prefix of the ranking, and all of it once they reach its end |
| ContextBuilder.BuildContext | memory/context_builder.py:143-182 | the greedy packing of the ranked events into the allowed sections |
| ContextBuilder.ContextHolds | memory/context_builder.py:106-182 | one section for every heading asked for, in the fixed order, holding only entries of events whose type belongs there |
| ContextBuilder.RenderedLines | memory/context_builder.py:42-56 | the lines of a rendered entry |
| ContextBuilder.IntReadsBack | memory/context_builder.py:42-56 | an id or confidence written as a decimal text reads back as itself, a negative one behind its sign |
| ContextBuilder.PackWithinBudget | memory/context_builder.py:165-171 | the charge stays within a non-negative budget; a negative one takes nothing |
| ContextBuilder.PackIsMaximal | memory/context_builder.py:156-171 | no event of an allowed section that was passed over would fit at the end |
| ContextBuilder.PackKeepsOrder | memory/context_builder.py:156-171 | a section holds its taken events in ranked order |
| ContextBuilder.IncludedAreTaken | memory/context_builder.py:162-171 | included_events is the number of events taken |
| ContextBuilder.UsedIsCharged | memory/context_builder.py:162-170 | the recorded charge is the sum over the entries held |
| ContextBuilder.TextLength | memory/context_builder.py:71-92 | the exact length of the rendered text |
| ContextBuilder.TextExceedsUsedBy130 | memory/context_builder.py:71-92 | the rendered text is at most 130 characters longer than the charge, with equality exactly when all six sections hold one entry |
| ContextBuilder.BoundIsReached | memory/context_builder.py:7-24 | one event of each section, within budget, reaches that bound |
| Confidence.GetEffectiveBatch | memory/service.py:856-876 | an event is in the result exactly when it was asked for and has an active operator revision, with the newest one's value |
| Confidence.BatchEqualsSingle | memory/retrieval.py:168-170 | the batch with the base as fallback is the single lookup |
| Confidence.RevisionStore.ReviseConfidence | memory/service.py:740-793 | the refusals; otherwise the previous heads are superseded and one row starts from the effective value |
| Confidence.RevisionStore.RejectCandidateRevision | memory/service.py:796-835 | only a proposed candidate is rejected, and only its status changes |
| Confidence.RevisionStore.ApproveConfidenceRevision | memory/service.py:908-962 | only a proposed candidate is approved, by a new operator revision that names it |
| Confidence.RevisionWrites | memory/service.py:769-793 | the row a revision appends and the rows it supersedes |
| Confidence.AcceptedIff | memory/service.py:740-820 | which revisions are accepted and which candidates can be approved or rejected |
| Confidence.RejectionIsFinal | memory/service.py:796-835 | a rejected candidate ends rejected for good and can be neither approved nor rejected again |
| Confidence.ApprovalTakesEffect | memory/service.py:908-962 | an approval gives the event the candidate's confidence |
| Confidence.ReachableLogIsChained | memory/service.py:769-788 | over every run each operator revision starts where the one before, or the base, ended, and only the newest is active |
| Confidence.EffectiveIsNewest | memory/service.py:838-853 | the effective confidence is what the newest operator revision set, or the base |
| Confidence.EffectiveChangesOnlyBy | memory/service.py:740-962 | only an accepted operator revision or approval of that event changes it |
| Confidence.ApprovalIsRepeatable | memory/service.py:908-962 | approving leaves the candidate proposed and may be repeated, each time adding a revision |
| Confidence.CandidateIsReachable | memory/service.py:740-793 | one event and one candidate revision lead to a state where it applies |
| Confidence.LogIsAppendOnly | memory/service.py:740-835 | no revision is removed, reordered or rewritten; superseded and rejected are final |
| Embeddings.EmbeddingStore.MarkActive | memory/artifact_governance.py:237-271 | only a candidate becomes active |
| Embeddings.EmbeddingStore.MarkInvalidated | memory/artifact_governance.py:274-311 | only a candidate or active row is invalidated, with its own column pair |
| Embeddings.EmbeddingStore.MarkSuperseded | memory/artifact_governance.py:314-363 | only an active row is superseded, with its own column pair |
| Embeddings.EmbeddingStore.EmbedEvent | memory/embeddings.py:147-236 | the id of the live row with the key, old or new; a wrong vector length and a key taken by a terminal row fail |
| Embeddings.EmbeddingStore.PromoteEmbedding | memory/embeddings.py:311-434 | the refusals; otherwise the candidate is active under the pin in force, every active row of the event superseded with the promoted id in the reason, and every other row as it was |
| Embeddings.PromotionAcceptedIff | memory/embeddings.py:289-393 | a promotion is accepted exactly for a candidate whose scope has a pin in force with the identity of the row's space |
| Embeddings.EmbeddingStore.InvalidateStaleEmbeddings | memory/embeddings.py:437-466 | exactly the live rows of the event with another hash are invalidated, with both hashes in the reason, and counted; every other row is unchanged, and the count is zero exactly when the table is |
| Embeddings.EmbeddingStore.CreatePin | memory/embedding_pins.py:116-188 | the scope's active pins are superseded, with the new pin's creator in the reason, and the new one is active |
| Embeddings.EmbeddingStore.SupersedePin | memory/embedding_pins.py:207-240 | only an existing active pin is superseded |
| Embeddings.PinSupersededIff | memory/embedding_pins.py:207-240 | a pin is superseded on request exactly when it exists and is active, and no other pin changes |
| Embeddings.Newest | memory/embedding_pins.py:191-204 | the last row that satisfies the condition, if any |
| Embeddings.ReachableIsGoverned | memory/embeddings.py:350-434 | under every interleaving at most one row per key, one active row per event and one active pin per scope; no promotion without a matching pin of the row's scope |
| Embeddings.RowsAreFrozen | memory/artifact_governance.py:60-70 | terminal rows never change and no row is removed or given another key |
| Embeddings.InvalidationLasts | memory/embeddings.py:450-466 | once stale rows are invalidated, every live row of the event has the current hash after every further run that embeds no other text of it |
| Embeddings.EmbedIsIdempotent | memory/embeddings.py:202-210 | embedding the same text with the same producer again changes nothing |
| Embeddings.SpentKeyFailsForever | memory/embeddings.py:202-236 | once a row is terminal, embedding with its key fails on the unique constraint after every further run |
| Embeddings.EmbedFailsIffSpent | memory/embeddings.py:202-236 | on a reachable table, embedding an existing event with a vector of the right length fails exactly when a terminal row has the key |
| Embeddings.SpentKeyIsReachable | memory/embeddings.py:437-466 | embedding, editing the text and invalidating spends the key |

## Left out

- SQLite itself: connections, transactions beyond all-or-nothing, schema migration, journal modes.
- Command lines and shells: parsing and printing only.
- Vectors, HTTP and floating point: a similarity is a real number given by the query vector.
- SHA-256: a function of its input, injective where that is needed.
- Wall-clock staleness detectors, rationales and report formats: no state of their own.
- Session, workflow, source registry, semantic ledger and extraction rules: not part of this model.
- Handler bodies: a function from task to success or failure that leaves the task tables alone.
- Unknown state, status and relationship texts: states are enumerations here.
- Names, descriptions, tags, metadata and times of rows where no modelled operation reads them.
- Retry limit and poll interval of a runtime: the runner does not read the first and only sleeps for the second.
- Runtime.RegisterRuntime: the stored configuration is not part of the row.
- Runtime.RuntimeRow.Transition: the row exists; the error for a missing runtime id is not modelled.
- Runtime.RuntimeRow.SaveCheckpoint: the row exists, and checkpoints keep neither their reason nor metadata.
- Runtime.RunIterations: one runtime row that exists, runs observed up to a horizon, no interrupt between writing paused and returning, where interrupted is not permitted, and no second one while the first is handled; the runner's own reasons leave out counts and iteration numbers.
- Orchestration.TaskStore.CreateTask: description, tags and metadata are not part of the row.
- Compression.ArtifactStore.Promote: rows are created by an abstract step; the assembly checks of creation are not modelled.
- Chunker.FixedSizeChunks: a window size below one is not modelled.
- Chunker.ChunkByParagraph: a window size below one is not modelled.
- Chunker.ChunkDocument: a window size below one is not modelled.
- Exporter.DocsListed: rows equal in path and version are listed by source id, where the query leaves their order open.
- Exporter.ExportIsValid: the lineage check, the workflow references and the database version are given values.
- Bundles.ValidUnderSameManifestIff: manifest counts are integers; JSON's true is not taken for 1.
- Importer.Database.ImportBundle: warnings, collision texts and rows that lack a required field are not modelled, and no other writer comes between planning and writing.
- Continuity.RoundTripIff: an empty source span, which the exporter reads as absent, is not distinguished.
- Retrieval.Retrieve: the optional retrieval log is not written.
- ContextBuilder.BuildContext: event types are upper-cased as ASCII text.
- Confidence.RevisionStore.ReviseConfidence: contradiction links, evidence and free provenance are not part of the row.
- Embeddings.EmbeddingStore.EmbedEvent: the vector, the pin seen at generation and the adapter's further provenance are not stored.
- Embeddings.EmbeddingStore.PromoteEmbedding: of the promotion's provenance only the pin is recorded.
- Embeddings.EmbeddingStore.CreatePin: provider, notes and the times of pinning are not part of the row; Python's repr is a given function.
