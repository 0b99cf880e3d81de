# Verification of the Green-Brainz microkernel and the GDICT codebook

This Dafny project models six parts of the repository and proves what they promise over
whole runs.

1. **Dreamcatcher store** (`Objects`, `Trie`, `Dreamcatcher`, `Collecting`, `Recall`,
   `CommitHistory`, `EvictionQueue`, `DreamcatcherStore`). A content-addressed, copy-on-write
   trie with commits and branches refines one finite map per branch; roots are canonical; no head
   of a branch is ever lost from its history; recall is an exact top-k; the background queue is
   the sequential fold of its writes.
2. **Memory Feedback Loop** (`Detector`, `Ladder`, `FeedbackLoop`, `LifecycleLog`, `LoopRuns`,
   `LoopTheorems`, `LoopLaws`, `LoopAnswers`, `WorkingSets`, `LoopLimits`, `StoredKeys`,
   `Durability`, `Origins`, `VisibleRecall`, `LoopFailures`, `MemoryFeedbackLoop`). The six-phase
   lifecycle, its append-only log, the bounded working sets, the recoveries, in whose name a
   memory is kept, and what the store and the filtered recall give a caller of the loop.
3. **Drive registry and idle scheduler** (`Scheduler`, `IdleScheduler`, `SchedulerRuns`,
   `SchedulerLedger`, `SchedulerFairness`, `Settlements`, `Promotions`, `DriveScheduler`). The
   candidate order, the single-lease protocol, what promotions and settlements decide, bounded
   autonomy, no starvation, and rest between leases.
4. **Interrupt controller** (`Interrupts`, `InterruptSafety`, `InterruptLedger`,
   `InterruptFates`, `InterruptEffects`, `InterruptController`). Bounded queues against unbounded
   ones, leases, whom an abort reaches, first abort wins, conservation of events.
5. **Cognitive host** (`Hosts`, `HostRuns`, `HostTheorems`, `HostTraces`, `HostAnswers`,
   `HostWaits`, `InjectedRecall`, `CognitiveHost`). The composition of the first three: every run of a host is a
   run of its loop, and the host never loses a turn that it has admitted. A turn that ended as a
   nap was not admitted, and no later call of the host admits or stores it.
6. **GDICT** (`CountingBloom`, `Codebook`, `CodebookRuns`, `CodebookTheorems`, `CodebookUses`,
   `CodebookFiles`, `CodebookStore`). A counting Bloom filter that gates a lookup without changing its answers,
   over entries that count their uses.
   `FailingRuns` holds the failing runs of scheduler, interrupt controller and codebook.

Each part has the same three layers: functions over values that say what each call does, in
the source's own branches and error cases; lemmas about whole runs of those functions; and a
class whose methods update fields, maps and arrays in place, with the source's loops, each
proved to have the effect of its function.

## Assumptions

- A public asynchronous call is one atomic step. It reads the clock once; a dream of the host
  reads it three times, at any values.
- Digests and text normalization are parameters. A heap remembers whether a write ever met a
  different object under its address (`clean`); statements that need the absence of a
  collision ask for `clean`, and those about keys ask that the paths of the keys in play
  differ. Nothing assumes a digest to be injective on all values.
- The host theorems also ask that numbered actions of one run have different digests, that
  normalization leaves ASCII suffixes alone, and that digests are 64 plain characters.
- Values and canonical JSON are strings. Scores are real numbers.
- The order of strings is a parameter; the ranking of recall asks that it is a strict total order.
- Agent ids are not empty; the actor digest and the time stamp of log entries are not modelled.
- In the transition of the loop, the guards that only repeat an earlier one are omitted.

## What the proofs found

Where a property fails, the exact condition under which it holds is proved, with an input or a run
from the empty state on which it does not.

- `fridge` takes a key out of containment just as `thaw` does, although the module's notes
  name `thaw` alone (`LoopLimits.ContainmentExits`, `LoopFailures.FridgeReleases`).
- `reintegrate` integrates without storing (`Durability.IntegratedIsDurableIffSourced`,
  `LoopFailures.IntegratedButNotStored`).
- `disintegrate` gives up the working-set item before an edge that may be refused, and a move by
  another session leaves a stale item (`LoopLimits.DisintegrationMayDropAttention`,
  `LoopLimits.ForeignMovesLeaveStaleItems`; `LoopFailures.AttendedButNotHeld`,
  `LoopFailures.HeldButNotAttended`).
- The detector sees all short cycles only with a window of zero or at least six
  (`Detector.WindowMustSeeCycles`, `Detector.WalkIsMissed`).
- A wraparound does not check that its derived key is new
  (`LoopRuns.WrapIsFaithfulIffFresh`, `LoopFailures.WrappedOntoATakenKey`).
- A derived key is stored in the name of its parent's origin, but its payload is kept in the name of
  who derived it: once it is admitted and impressed, it is first-hand to that agent
  (`Origins.DerivationsNameTheirOrigin`).
- `recallOrdinary` and `recallScoped` filter after the limit, so hidden records can take the places
  of visible ones. Under the fixed order of keys, every query is complete exactly if no hidden
  record can be ranked within the limit with a visible one beyond it, which salience, confidence
  and the keys decide (`VisibleRecall.CompleteIffNoneCanBeLost`); if every record has positive
  salience and confidence, exactly if the branch hides nothing, shows nothing, or is no larger than
  the limit (`VisibleRecall.RelevanceAloneLoses`). `CompleteIffNothingToLose` says the same of all
  records, of queries that may also differ in the order of keys. `LoopFailures.HiddenTakesThePlace`
  is a run that loses a row.
- Without permissions `recallScoped` still shows keys in derivation, which `recallOrdinary` hides
  (`VisibleRecall.ScopedShowsDerivations`).
- A turn that ends as a nap stays in derivation for ever: the host never tries it again
  (`HostWaits.NappedTurnsAreNeverStored`).
- A rearm that is rejected for its time has already stored its new budget
  (`SchedulerRuns.RejectedRearmMaySpoil`, `FailingRuns.ExhaustedWithAttemptsLeft`).
- `applyPending` with a body that is not an object fails after the events have left the queue
  (`InterruptFates.NoticeHoldsAll`, `FailingRuns.DeliveredToNoBody`).
- The host shows every action with a new number, so its detector never fires, however often a
  turn is repeated (`HostTheorems.HostsAreNeverSeized`); the ladder is proved on the loop.
- In the codebook, an automatically chosen id may already be taken by a forced one; the put
  then replaces a phrase without telling the filter (`CodebookTheorems.ReuseKeepsStepIff`,
  `FailingRuns.StoredButNotFound`; `CodebookTheorems.AutomaticIdsAreFree` says how to avoid it).
- Below a negative cap the eviction loop of the codebook does not end
  (`CodebookTheorems.CapLoopEndsIff`). At cap zero it ends and has evicted the entry that was just
  put, so the reply, which reads that entry back, raises `KeyError`
  (`CodebookTheorems.PutEndsByCap`, `FailingRuns.FirstPutFails`).

## Model

| member | source | states |
|---|---|---|
| Trie.SetTrieIsCanonical | systems/green-brainz/memory/dreamcatcher-memory.mjs:245-255 | updating the canonical root of a map of records yields the canonical root of the updated map, by writing exactly the path of the key |
| Trie.SetTrieStores | systems/green-brainz/memory/dreamcatcher-memory.mjs:245-255 | once those writes are made without a digest collision, the store holds the whole canonical trie of the updated map |
| Trie.SetTrieInOrder | systems/green-brainz/memory/dreamcatcher-memory.mjs:245-255 | an update writes every object after all objects that it mentions |
| Trie.GetTrieAnswers | systems/green-brainz/memory/dreamcatcher-memory.mjs:257-267 | a trie lookup returns the entry of the map at that path, nothing if there is none, and the collision error exactly if another key is filed there |
| Trie.LookupsArePermanent | systems/green-brainz/memory/dreamcatcher-memory.mjs:257-267 | a lookup below a root that succeeded has the same answer in every store that only grew |
| Trie.EqualRootsEqualMaps | systems/green-brainz/memory/dreamcatcher-memory.mjs:245-267 | equal roots stand for equal maps, when the two stores agree where they overlap |
| Dreamcatcher.RootsAreCanonical | systems/green-brainz/memory/dreamcatcher-memory.mjs:269-304 | two write histories have the same root on their branches if and only if the branches hold the same records |
| Dreamcatcher.EveryWriteIsSound | systems/green-brainz/memory/dreamcatcher-memory.mjs:177-187 | after each of the 67 single writes of a `remember`, before the branch moves, the store is closed and acyclic, keeps all earlier objects and still depicts every branch |
| Dreamcatcher.CommitOnlyGrows | systems/green-brainz/memory/dreamcatcher-memory.mjs:291-303 | whatever the store holds, a commit removes nothing, moves no branch when it fails and only its own otherwise |
| Dreamcatcher.RememberRefines | systems/green-brainz/memory/dreamcatcher-memory.mjs:269-304 | a `remember` succeeds exactly when its arguments are acceptable; it then files the record on its branch and changes nothing else, and otherwise leaves every branch in place |
| CommitHistory.CommitSaysWhatWasDone | systems/green-brainz/memory/dreamcatcher-memory.mjs:291-303 | after a `remember` that met no collision the branch's head is a commit of the receipt's root, by the named writer, at the time of the call, on top of the head before, and the record is stored at the receipt's address |
| CommitHistory.EveryHeadIsAncestor | systems/green-brainz/memory/dreamcatcher-memory.mjs:291-303 | over every run, each head that a branch ever had lies on the parent chain of its present head |
| CommitHistory.ForksDescend | systems/green-brainz/memory/dreamcatcher-memory.mjs:229-243 | over every run, so do the head that a fork's source had at the fork and all its ancestors for the present head of the fork |
| CommitHistory.AncestorsAreReached | systems/green-brainz/memory/dreamcatcher-memory.mjs:380-398 | every commit on the parent chain of a head is in the reachability closure of that head |
| CommitHistory.NewBranch | systems/green-brainz/memory/dreamcatcher-memory.mjs:214-243 | a created branch has no head and its owner's digest; a fork has the source's head, its owner's digest, and the source and head as its origin |
| Dreamcatcher.CreateRefines | systems/green-brainz/memory/dreamcatcher-memory.mjs:214-227 | a created branch is empty; an existing one is refused |
| Dreamcatcher.ForkRefines | systems/green-brainz/memory/dreamcatcher-memory.mjs:229-243 | a fork starts out holding exactly what its source holds, without writing an object |
| Dreamcatcher.GetRefines | systems/green-brainz/memory/dreamcatcher-memory.mjs:326-333 | a lookup answers the branch's map, with the collision error exactly when the path is taken by another key |
| Dreamcatcher.RunRefines | systems/green-brainz/memory/dreamcatcher-memory.mjs:214-333 | over every run of creates, forks and writes without a digest collision, every lookup on every branch equals that of a plain map of maps |
| Dreamcatcher.RootsKeepTheirMeaning | systems/green-brainz/memory/dreamcatcher-memory.mjs:257-267 | every root ever returned answers the same for ever, with no assumption on digests |
| Dreamcatcher.BranchesAreIsolated | systems/green-brainz/memory/dreamcatcher-memory.mjs:229-243 | from any store, operations that do not write to a branch keep its ref and every lookup on it that did not fail for a missing object, with no assumption on digests |
| Collecting.CollectTrieIsExact | systems/green-brainz/memory/dreamcatcher-memory.mjs:335-346 | collecting a stored trie yields the current record of every path exactly once |
| Recall.ScoreIsUnit | systems/green-brainz/memory/dreamcatcher-memory.mjs:132-153 | scores of well made records lie in the unit interval |
| Recall.FirstHandIsNotBelowInherited | systems/green-brainz/memory/dreamcatcher-memory.mjs:142-152 | of two records of equal salience, confidence and relevance, the one whose origin is the reader is weighed as first-hand, the one of another origin as inherited, and the first never scores below the second |
| Recall.OriginDecidesWeight | systems/green-brainz/memory/dreamcatcher-memory.mjs:142-152 | a record is first-hand, with the first-hand weight, exactly if its origin is the reader's digest, and inherited otherwise |
| Recall.WeighsExactly | systems/green-brainz/memory/dreamcatcher-memory.mjs:132-141 | a record can be weighed if and only if its seal is true, the reader has a name, all multipliers are between zero and one, and the inherited one is not above the first-hand one |
| Recall.ScoreIsMonotone | systems/green-brainz/memory/dreamcatcher-memory.mjs:142-152 | a record of at least the relevance, salience, confidence and provenance weight of another scores at least as much |
| Recall.ScoreScales | systems/green-brainz/memory/dreamcatcher-memory.mjs:142-152 | scaling the relevance, the salience or the confidence scales the score alike |
| Recall.ZeroScore | systems/green-brainz/memory/dreamcatcher-memory.mjs:142-152 | a score is zero if and only if the relevance, the salience, the confidence or the weight is |
| Recall.FullScoreIsWeight | systems/green-brainz/memory/dreamcatcher-memory.mjs:142-152 | a record of full relevance, salience and confidence scores its provenance weight |
| Recall.RecallIsDetermined | systems/green-brainz/memory/dreamcatcher-memory.mjs:348-371 | a recall depends on the key-to-record map alone, and fails exactly when the limit or some weight is invalid |
| Recall.RecallIsExactTopK | systems/green-brainz/memory/dreamcatcher-memory.mjs:348-371 | recall returns min(limit, size) rows, strictly ranked by score and then key, and no omitted record outranks a returned one |
| Recall.RecallIsBestFirst | systems/green-brainz/memory/dreamcatcher-memory.mjs:348-371 | recalled rows come by falling scores and, at equal scores, by the order of their keys |
| Recall.AnySortRanksAlike | systems/green-brainz/memory/dreamcatcher-memory.mjs:348-371 | a recall is the front of any ranked arrangement of the weighted records, however they are collected and sorted |
| EvictionQueue.QueueIsSequential | systems/green-brainz/memory/dreamcatcher-memory.mjs:306-324 | over every interleaving of enqueues, background work and flushes, the store is the sequential fold of `remember` in ticket order, and the failures are reported in order, each by at most one flush |
| EvictionQueue.FlushIsABoundary | systems/green-brainz/memory/dreamcatcher-memory.mjs:318-324 | a completed flush leaves no failure unreported and no earlier ticket unwritten |
| EvictionQueue.FlushCoversEarlier | systems/green-brainz/memory/dreamcatcher-memory.mjs:306-324 | when a flush may complete, all inputs that were enqueued before it began have been run, in the order in which they were enqueued |
| EvictionQueue.InputsAreKept | systems/green-brainz/memory/dreamcatcher-memory.mjs:306-316 | over every interleaving, the inputs run and those still waiting are the inputs enqueued, in order: none is lost and none overtakes |
| EvictionQueue.FailuresAreSkipped | systems/green-brainz/memory/dreamcatcher-memory.mjs:306-316 | failing inputs are skipped: they move no ref and block no later ticket |
| DreamcatcherStores.DreamcatcherStore.SetTrie | systems/green-brainz/memory/dreamcatcher-memory.mjs:245-255 | the recursive write of the trie performs exactly the writes of the specification and returns the new root |
| DreamcatcherStores.DreamcatcherStore.Remember | systems/green-brainz/memory/dreamcatcher-memory.mjs:269-304 | the store object's new objects and refs and its answer are those of the specified `remember`, error cases included |
| DreamcatcherStores.DreamcatcherStore.RecallRows | systems/green-brainz/memory/dreamcatcher-memory.mjs:348-371 | the object's recall returns the specified rows or error |
| DreamcatcherStores.DreamcatcherStore.ReachableObjects | systems/green-brainz/memory/dreamcatcher-memory.mjs:380-398 | the traversal ends and returns exactly the reachability closure of the branch head |
| EvictionQueue.BackgroundWriter.Flush | systems/green-brainz/memory/dreamcatcher-memory.mjs:318-324 | a flush runs what is queued in order and hands over the errors kept since the last one, leaving none |
| Detector.ShortCyclesSeize | systems/green-brainz/memory/memory-feedback-loop.mjs:288-316 | whatever was observed before, seven last observations with period one, two or three end in seizure, if the window is zero or at least six |
| Ladder.LadderOfStream | systems/green-brainz/memory/memory-feedback-loop.mjs:288-316 | of any stream, if its last r actions are equal and no more, and the remembered end shows no cycle, the next step is none, nap, fridge, freezer or seizure for r of one, two, three, four or more; if it shows a cycle, freezer the first time that anything triggers and seizure afterwards |
| Ladder.LadderOfRun | systems/green-brainz/memory/memory-feedback-loop.mjs:288-317 | so every call of a run answers, by what its session has shown so far |
| Ladder.RepeatingClimbsTheLadder | systems/green-brainz/memory/memory-feedback-loop.mjs:304-316 | a session that shows one action over and over is answered nothing, nap, fridge, freezer, and then seizure |
| Ladder.SeizureIsTheEnd | systems/green-brainz/memory/memory-feedback-loop.mjs:300-302 | after a seizure the stream changes nothing any more |
| Detector.WindowMustSeeCycles | systems/green-brainz/memory/memory-feedback-loop.mjs:297-297 | the previous guarantee holds for a window if and only if the window is zero or at least six |
| Detector.DistinctWindowsPass | systems/green-brainz/memory/memory-feedback-loop.mjs:288-316 | a stream whose last six hashes are always pairwise distinct never causes a recovery, for any window |
| LifecycleLog.TransitionFacts | systems/green-brainz/memory/memory-feedback-loop.mjs:428-453 | an accepted transition moves one key along a legal edge, appends one log entry, and frees the working-set item of a key that leaves attention |
| LifecycleLog.RecoverAllFacts | systems/green-brainz/memory/memory-feedback-loop.mjs:373-426 | a recovery loop over any known keys is never refused, puts each key where its step says and moves no other |
| LoopRuns.WrapIsFaithfulIffFresh | systems/green-brainz/memory/memory-feedback-loop.mjs:236-282 | a wraparound keeps the log replayable if and only if its derived key is new |
| LoopRuns.AdmitFacts | systems/green-brainz/memory/memory-feedback-loop.mjs:154-177 | a refused admission changes no phase and drops nothing; an accepted one moves the key and its item together |
| LoopRuns.RunsKeepInv | systems/green-brainz/memory/memory-feedback-loop.mjs:133-476 | over every run: folding the log gives the phases, each entry starts where its key is, every edge is legal, and no working set exceeds its budgets |
| LoopLaws.LogTellsCalls | systems/green-brainz/memory/memory-feedback-loop.mjs:338-476 | over every run, each log entry is of one of ten kinds, given by reason, phases and direction, and names the session, the caller, the key and the purpose of the call that appended it |
| LoopLaws.RunMarks | systems/green-brainz/memory/memory-feedback-loop.mjs:133-200 | over every run, a key is a goal if and only if it was expressed as one, and a session has touched exactly the keys that it expressed, admitted or impressed, each once, in that order |
| LoopLaws.RunIsMeasured | systems/green-brainz/memory/memory-feedback-loop.mjs:57-177 | over every run, each payload weighs one token for every four bytes begun and at least one, and what a session holds weighs what its payload does |
| LoopAnswers.ExpressAnswers | systems/green-brainz/memory/memory-feedback-loop.mjs:133-152 | an expression is accepted if and only if the session is heard and the key is new, with what was said as its payload; each refusal has its error and changes nothing |
| LoopAnswers.AdmitAnswers | systems/green-brainz/memory/memory-feedback-loop.mjs:154-177 | an admission of a key in derivation succeeds if and only if the session holds fewer items than its limit and the key's tokens fit the budget beside them; otherwise it naps |
| LoopAnswers.ImpressAnswers | systems/green-brainz/memory/memory-feedback-loop.mjs:179-200 | an impression is for a key in attention, fails exactly with the store, and otherwise integrates the key |
| LoopAnswers.ImpressReleases | systems/green-brainz/memory/memory-feedback-loop.mjs:194-194 | after an accepted impression its session holds exactly the items that it held, without those of the key |
| LoopAnswers.MoveAnswers | systems/green-brainz/memory/memory-feedback-loop.mjs:202-234 | each move is accepted exactly from the phases in its table and leaves the key where it leads; every refusal has its error and moves nothing |
| LoopAnswers.WrapAnswers | systems/green-brainz/memory/memory-feedback-loop.mjs:236-282 | a wraparound is for a disintegrated key that the branch answers, fails exactly with the store, and otherwise answers a derived key in derivation |
| LoopTheorems.RecoveriesContain | systems/green-brainz/memory/memory-feedback-loop.mjs:288-426 | no observation fails, none changes a goal key, and after fridge, freezer or seizure every exposed key is out of reach |
| LoopTheorems.StepLogsAwake | systems/green-brainz/memory/memory-feedback-loop.mjs:338-342 | a call appends to the log only on behalf of its own session, and nothing for a seized one |
| LoopTheorems.SeizedSessionsStaySilent | systems/green-brainz/memory/memory-feedback-loop.mjs:300-302 | once seized, a session stays seized and no entry of it is ever appended |
| LoopTheorems.RunWatches | systems/green-brainz/memory/memory-feedback-loop.mjs:288-316 | in every run the loop tracks each session exactly as the detector tracks that session's hashes alone |
| LoopTheorems.ShortCyclesSeizeTheSession | systems/green-brainz/memory/memory-feedback-loop.mjs:288-316 | in any run, a session whose last seven actions are periodic with period at most three is seized |
| LoopTheorems.VariedSessionsRunFree | systems/green-brainz/memory/memory-feedback-loop.mjs:288-316 | in any run, a session of pairwise distinct actions is never recovered or seized |
| LoopTheorems.DisintegrationIsFinal | systems/green-brainz/memory/memory-feedback-loop.mjs:33-44 | disintegration is absorbing, and no key ever returns to derivation |
| WorkingSets.WorkingSetsAreAttention | systems/green-brainz/memory/memory-feedback-loop.mjs:154-234 | if each key is used only by the session that expressed it, everything held is in attention, and, without disintegrating attended keys, everything in attention is held |
| LoopLimits.ForeignMovesLeaveStaleItems | systems/green-brainz/memory/memory-feedback-loop.mjs:447-449 | a move out of attention keeps working sets in attention if and only if no other session holds the key |
| LoopLimits.DisintegrationMayDropAttention | systems/green-brainz/memory/memory-feedback-loop.mjs:228-234 | disintegrating an own key keeps attention held if and only if the key is not in attention |
| LoopLimits.ContainmentExits | systems/green-brainz/memory/memory-feedback-loop.mjs:202-219 | an awake session takes a key out of containment exactly by release, fridge or disintegration |
| LoopFailures.FridgeReleases | systems/green-brainz/memory/memory-feedback-loop.mjs:202-206 | a run from the empty state in which a second `fridge` takes a key out of containment |
| LoopLimits.RecoveriesNeverRelease | systems/green-brainz/memory/memory-feedback-loop.mjs:373-426 | no observation takes a key out of containment |
| LoopFailures.HeldButNotAttended | systems/green-brainz/memory/memory-feedback-loop.mjs:202-206 | a run from the empty state in which one session shelves the key of another, which goes on holding it |
| LoopFailures.AttendedButNotHeld | systems/green-brainz/memory/memory-feedback-loop.mjs:228-234 | a run from the empty state in which a refused disintegration of an attended key has dropped its item |
| Durability.DurableIffWritten | systems/green-brainz/memory/memory-feedback-loop.mjs:179-282 | after any run over the real store, a key reads its payload back from a branch if and only if the run impressed or derived it there, or the branch held that payload before |
| Durability.IntegratedIsDurableIffSourced | systems/green-brainz/memory/memory-feedback-loop.mjs:179-226 | at every moment of a run all integrated keys read their payloads back from a branch, if and only if each call that integrated a key was an impression there or of a key written there before |
| Durability.ReintegrationIsDurableIfStored | systems/green-brainz/memory/memory-feedback-loop.mjs:221-226 | a reintegration keeps everything integrated durable if and only if the store answers the key with its payload, that is, if and only if the run wrote it there or the branch held it before |
| Origins.RecordTells | systems/green-brainz/memory/dreamcatcher-memory.mjs:82-114 | a record tells what it was given: key and tags in normal form, the value, the weights, the time given or else the present one, and the origin by digest |
| Origins.RecordsExactly | systems/green-brainz/memory/dreamcatcher-memory.mjs:70-96 | a record can be made if and only if it has a key and a time, its weights are between zero and one, and its origin is a named agent or a digest that agrees with the agent named, if any is |
| Origins.ImpressionsNameTheirOrigin | systems/green-brainz/memory/memory-feedback-loop.mjs:179-200 | over every run, a key that was expressed and then impressed on a branch, by whomever, is answered there with the value, weights and tags expressed, in the name of the agent that expressed it |
| Origins.DerivationsNameTheirOrigin | systems/green-brainz/memory/memory-feedback-loop.mjs:236-282 | over every run, a derived key is answered in the name of its parent's origin until it is impressed itself, and from then on in the name of who derived it |
| Origins.OnlyTheOriginIsFirstHand | systems/green-brainz/memory/dreamcatcher-memory.mjs:142-152 | what a record tells is first-hand to a reader if and only if the reader is the agent that expressed it |
| Origins.CallersSign | systems/green-brainz/memory/memory-feedback-loop.mjs:179-282 | what an accepted impression or wraparound stores is committed by its caller, whoever is the origin, on top of the head before |
| LoopFailures.IntegratedButNotStored | systems/green-brainz/memory/memory-feedback-loop.mjs:221-226 | express, admit and reintegrate, from the empty state: the key is integrated and the branch answers nothing for it |
| LoopLimits.PlainRunsAreFresh | systems/green-brainz/memory/memory-feedback-loop.mjs:241-241 | if no caller expresses a key of the derived shape, every derived key is new |
| LoopFailures.WrappedOntoATakenKey | systems/green-brainz/memory/memory-feedback-loop.mjs:236-282 | a run from the empty state that expresses the name of a later derived key: the wraparound succeeds and the log, replayable until then, is not any more |
| VisibleRecall.OrdinaryRecallIsVisibleTopK | systems/green-brainz/memory/memory-feedback-loop.mjs:319-326 | ordinary recall returns exactly the ranked rows whose keys are unknown to the loop, in attention or integrated; they are as many as the limit and the visible records allow if and only if no ranked row is hidden or every visible one is among them |
| VisibleRecall.RecallKeepsPlaces | systems/green-brainz/memory/memory-feedback-loop.mjs:319-336 | a filtered recall is the ranked rows that its view shows, each once, in their order |
| VisibleRecall.CompleteIffNoneCanBeLost | systems/green-brainz/memory/memory-feedback-loop.mjs:319-326 | under any one order of keys, every query that is answered is complete if and only if no hidden record can be ranked within the limit with a visible one beyond it; this is decided by salience, confidence and the order of keys alone |
| VisibleRecall.CompleteIffNothingToLose | systems/green-brainz/memory/memory-feedback-loop.mjs:319-326 | over queries in any order of keys, every query that is answered finds as many visible rows as the limit and the visible records allow, if and only if the branch hides nothing, shows nothing, or is no larger than the limit |
| VisibleRecall.RelevanceAloneLoses | systems/green-brainz/memory/memory-feedback-loop.mjs:319-326 | the same under one order of keys, where every record has positive salience and confidence |
| VisibleRecall.ScopedRecallIsVisibleTopK | systems/green-brainz/memory/memory-feedback-loop.mjs:327-336 | scoped recall returns exactly the ranked rows that are neither disintegrated nor withheld, as many as possible if and only if no withheld row is ranked or every shown one is |
| VisibleRecall.ScopedShowsDerivations | systems/green-brainz/memory/memory-feedback-loop.mjs:327-336 | without permissions the scoped recall equals the ordinary one if and only if no ranked row is in derivation |
| MemoryFeedbackLoops.MemoryFeedbackLoop.RecallWithin | systems/green-brainz/memory/memory-feedback-loop.mjs:327-336 | the object's loop over the rows returns the specified scoped recall |
| LoopFailures.HiddenTakesThePlace | systems/green-brainz/memory/memory-feedback-loop.mjs:319-326 | a run from the empty state after which a recall of one row returns none, since a contained record outranks a stored and visible one |
| MemoryFeedbackLoops.MemoryFeedbackLoop.AdmitKey | systems/green-brainz/memory/memory-feedback-loop.mjs:154-177 | the object's new state and answer are those of the specified admission |
| MemoryFeedbackLoops.MemoryFeedbackLoop.ImpressKey | systems/green-brainz/memory/memory-feedback-loop.mjs:179-200 | the new state of loop and store and the answer are those of the specified impression |
| MemoryFeedbackLoops.MemoryFeedbackLoop.WrapKey | systems/green-brainz/memory/memory-feedback-loop.mjs:236-282 | the new state of loop and store and the answer are those of the specified wraparound |
| MemoryFeedbackLoops.MemoryFeedbackLoop.ApplySteps | systems/green-brainz/memory/memory-feedback-loop.mjs:383-423 | the recovery loop over the object's maps does what the recovery of values does |
| MemoryFeedbackLoops.MemoryFeedbackLoop.Observe | systems/green-brainz/memory/memory-feedback-loop.mjs:288-317 | on a sound loop an observation updates detector, maps, log and pause set as specified, keeps the loop sound, and fails exactly for a blank session |
| Scheduler.DrivePathIsRootPath | systems/green-brainz/scheduler/scheduler.mjs:213-221 | the path of a drive runs from a root to it through parents, without repetition |
| Scheduler.RootPathUnique | systems/green-brainz/scheduler/scheduler.mjs:213-221 | there is only one such path |
| Scheduler.CandidatesAreOrdered | systems/green-brainz/scheduler/scheduler.mjs:26-34 | rank path, priority and sequence form a strict total order on candidates of different tasks |
| Scheduler.SelectionIsMinimum | systems/green-brainz/scheduler/scheduler.mjs:138-164 | selection returns nothing if and only if nothing is eligible, and otherwise the eligible task before all others |
| Promotions.SelectionIsMostUrgent | systems/green-brainz/scheduler/scheduler.mjs:138-164 | selection returns a task that is switched on with all its drives, ready, rested, within its attempts and within the capabilities, and before all others that are: by the ranks of its drives from the root, then its priority, then its registration |
| Promotions.PromotionAnswers | systems/green-brainz/scheduler/scheduler.mjs:280-311 | a promotion settles a lease that ran out and then answers not idle, lease active or epoch exhausted, in this order, or that nothing is eligible if no task qualifies, or leases the most urgent one under the next number for the lease duration |
| Promotions.SettlementAnswers | systems/green-brainz/scheduler/scheduler.mjs:313-322 | a settlement is accepted if and only if it names the active lease, which has not run out, and a known outcome |
| Promotions.ObservationAnswers | systems/green-brainz/scheduler/scheduler.mjs:269-278 | an empty queue without primary work makes the host idle; anything else makes it busy, starts a new epoch and abandons the lease; a negative depth is refused |
| Promotions.LeasesRunOut | systems/green-brainz/scheduler/scheduler.mjs:280-356 | over every run, leases last for the lease duration, and after a call that looks at the clock no active lease has run out |
| Settlements.RegistersExactly | systems/green-brainz/scheduler/scheduler.mjs:66-117 | a task is registered if and only if it is new, its drive is known and its terms are proper, and then starts ready, from its time on, with its whole budget |
| Settlements.RegistersDriveExactly | systems/green-brainz/scheduler/scheduler.mjs:47-59 | a drive is registered if and only if it is new and its parent, if it names one, is known, and is then what it was registered as |
| Settlements.DrivesAreAsTold | systems/green-brainz/scheduler/scheduler.mjs:47-64 | over every run, a drive keeps the parent and the rank of its registration, and is switched on as it was last told |
| Settlements.TasksEvolve | systems/green-brainz/scheduler/scheduler.mjs:66-356 | every call does to every task exactly what it settles, leases, rearms or switches, and nothing else |
| Settlements.SettlementDecides | systems/green-brainz/scheduler/scheduler.mjs:176-192 | over every run, a settled task can be leased again if and only if it has attempts left and repeats or did not succeed; otherwise it is completed if it succeeded and exhausted if not |
| Settlements.RepeatingTasksGoOn | systems/green-brainz/scheduler/scheduler.mjs:183-192 | over every run without a rearm that is rejected for its time, a repeating task is completed only when its attempts are spent |
| Settlements.CompletedTasksRest | systems/green-brainz/scheduler/scheduler.mjs:138-192 | over every run, a completed task is not leased again before it is rearmed |
| SchedulerRuns.CallFacts | systems/green-brainz/scheduler/scheduler.mjs:166-356 | in every call no inner `leaseTask` or `settleTask` can throw, a settlement is of the active lease, a new lease has the next number, and the lease invariant is kept |
| SchedulerRuns.BudgetsKept | systems/green-brainz/scheduler/scheduler.mjs:166-192 | ready tasks have attempts left, exhausted ones have none, and no task exceeds its budget, after every call if and only if the call does not spoil one |
| SchedulerRuns.RejectedRearmMaySpoil | systems/green-brainz/scheduler/scheduler.mjs:124-136 | a rearm keeps all budgets if and only if it is not one rejected for its time whose new budget is below the attempts made, equal to them for a ready task, or different from them for an exhausted one |
| SchedulerLedger.RunsKeepBudgets | systems/green-brainz/scheduler/scheduler.mjs:124-192 | in every run of a fresh scheduler, all tasks stay within their budgets at all times if and only if no call is such a rearm |
| FailingRuns.ExhaustedWithAttemptsLeft | systems/green-brainz/scheduler/scheduler.mjs:124-136 | a run from a fresh scheduler whose rejected rearm leaves an exhausted task with an attempt left |
| SchedulerLedger.LeaseProtocol | systems/green-brainz/scheduler/scheduler.mjs:269-356 | over every run: each lease is active and unsettled or settled exactly once, at most one task is leased, only while idle, and an epoch never exceeds its cap |
| SchedulerLedger.PromotionsSpendBudget | systems/green-brainz/scheduler/scheduler.mjs:280-311 | in runs without registration and rearm, each promotion spends exactly one remaining attempt, so there are at most as many as attempts remained |
| SchedulerFairness.NoStarvation | systems/green-brainz/scheduler/scheduler.mjs:138-164 | in such runs, an eligible task is passed over at most as often as the tasks ahead of it have attempts left |
| SchedulerFairness.TasksRest | systems/green-brainz/scheduler/scheduler.mjs:183-188 | each further lease of a task that is not rearmed comes at least its cooldown after the settlement of its previous lease |
| DriveSchedulers.CompareRanks | systems/green-brainz/scheduler/scheduler.mjs:26-34 | the comparison loop computes the lexicographic comparison in which a proper prefix comes first |
| DriveSchedulers.WalkUp | systems/green-brainz/scheduler/scheduler.mjs:213-221 | the walk up the drive map ends and collects the drive path |
| DriveSchedulers.DriveRegistry.Select | systems/green-brainz/scheduler/scheduler.mjs:138-164 | the loop over the task map and the sort pick the specified candidate |
| DriveSchedulers.DriveRegistry.Lease | systems/green-brainz/scheduler/scheduler.mjs:166-174 | the task object is leased as specified or the error is the specified one, and the registry stays sound |
| DriveSchedulers.DriveRegistry.Rearm | systems/green-brainz/scheduler/scheduler.mjs:124-136 | the two stores into the task object have the specified effect, also when the second check fails, and the registry stays sound |
| DriveSchedulers.DriveRegistry.Settle | systems/green-brainz/scheduler/scheduler.mjs:176-192 | the task object's new status, outcome and next time are the specified ones, and the registry stays sound |
| DriveSchedulers.IdleDriveScheduler.Observe | systems/green-brainz/scheduler/scheduler.mjs:269-278 | an observation resets, abandons and expires as specified, and fails exactly for a negative queue depth when the scheduler is sound |
| DriveSchedulers.IdleDriveScheduler.Promote | systems/green-brainz/scheduler/scheduler.mjs:280-311 | a promotion has the specified effect on scheduler and registry, and never throws when the scheduler is sound |
| DriveSchedulers.IdleDriveScheduler.SettleActive | systems/green-brainz/scheduler/scheduler.mjs:313-322 | a settlement has the specified effect and error |
| InterruptSafety.EvictionFacts | systems/green-brainz/irq/irq-controller.mjs:173-180 | at capacity one idle session is given up, one that no idle session was touched before; active sessions stay |
| InterruptSafety.RefusedExactlyWhenAllActive | systems/green-brainz/irq/irq-controller.mjs:157-171 | a new session is refused if and only if the table is full of active sessions |
| InterruptSafety.CallsKeepInv | systems/green-brainz/irq/irq-controller.mjs:157-276 | every call keeps the session cap and a one-to-one match of active sessions and live leases, so no active session is expired or evicted |
| InterruptSafety.AbortsOnce | systems/green-brainz/irq/irq-controller.mjs:50-75 | a lease's abort reason is set at most once, while it is live, and only by an accepted preemption, a cancellation or its client |
| InterruptEffects.PreemptionReaches | systems/green-brainz/irq/irq-controller.mjs:228-235 | a preemption whose event is accepted, in a session with a live generation that is not aborted, aborts it for that event and answers true with its request; in every other case no lease changes and the answer is false or the error |
| InterruptEffects.CancellationReaches | systems/green-brainz/irq/irq-controller.mjs:237-243 | a cancellation aborts the session's live generation and answers true if and only if there is one not yet aborted and the reason is valid; the reason is only refused when there is one |
| InterruptEffects.ClientAbortReaches | systems/green-brainz/irq/irq-controller.mjs:50-75 | a client's abort reaches every live generation linked to its signal that has no reason yet, and no other lease |
| InterruptEffects.BeginsExactly | systems/green-brainz/irq/irq-controller.mjs:182-199 | a generation begins if and only if there is room, no other is active and the arguments are valid, with exactly its fields, and aborted from the start if its client was |
| InterruptEffects.ReachTouches | systems/green-brainz/irq/irq-controller.mjs:157-171 | reaching a session stamps it, and no other, with the time; one that is active or not too old keeps its queue and its generation, any other starts empty, and only if it may be created |
| InterruptEffects.EndsOnce | systems/green-brainz/irq/irq-controller.mjs:203-211 | a lease ends once; its session is free and touched, and every other lease is as it was |
| InterruptEffects.ClientsAreHeard | systems/green-brainz/irq/irq-controller.mjs:50-75 | over every run, a live generation linked to a client that has aborted carries a reason |
| InterruptLedger.ReasonsAreFinal | systems/green-brainz/irq/irq-controller.mjs:50-75 | over whole runs, a lease keeps its first abort reason, and one that has ended is never aborted any more |
| InterruptLedger.QueuesAreHeads | systems/green-brainz/irq/irq-controller.mjs:215-226 | after any run a session's queue is the first `maxPending` of the priority-then-arrival order of everything offered since it was created or last delivered |
| InterruptEffects.InjectionSays | systems/green-brainz/irq/irq-controller.mjs:215-226 | an injection is refused exactly for a malformed notice or a priority outside 0 to 255, and otherwise queues an event with the notice's fields, its time and the next number |
| InterruptEffects.QueuesAreInOrder | systems/green-brainz/irq/irq-controller.mjs:215-226 | after any run every queue is strictly ordered by falling priority and, within a priority, by arrival |
| InterruptEffects.LookShows | systems/green-brainz/irq/irq-controller.mjs:258-269 | a snapshot shows the queue and the generation of the session, and nothing for one that is gone |
| InterruptLedger.AnySortQueuesAlike | systems/green-brainz/irq/irq-controller.mjs:215-226 | after any run a queue is the front of any arrangement by priority and arrival of what was offered, however it is sorted |
| InterruptLedger.PreemptQueues | systems/green-brainz/irq/irq-controller.mjs:228-235 | a preemption queues its event exactly as an injection does |
| InterruptLedger.EventsAreConserved | systems/green-brainz/irq/irq-controller.mjs:215-251 | every event is in exactly one place: one queue, one delivery, one dropped session, or displaced |
| InterruptFates.FatesAreFinal | systems/green-brainz/irq/irq-controller.mjs:215-251 | an event that is not waiting never changes its fate; it turns from waiting to delivered in exactly the call that returns it, and to dropped only when its session is idle |
| InterruptFates.ReturnedWasLogged | systems/green-brainz/irq/irq-controller.mjs:245-251 | whatever a delivery returns was accepted by an earlier call |
| InterruptFates.FatesAreFinalInRuns | systems/green-brainz/irq/irq-controller.mjs:215-276 | settled fates never change over whole runs |
| InterruptFates.AcceptedIsWaiting | systems/green-brainz/irq/irq-controller.mjs:220-225 | `accepted` says exactly whether the new event waits in the queue |
| InterruptFates.DisplacedByBetter | systems/green-brainz/irq/irq-controller.mjs:106-108 | a displaced event lost to `maxPending` others, each of higher priority, or of its priority and earlier |
| InterruptFates.NoticeHoldsAll | systems/green-brainz/irq/irq-controller.mjs:253-256 | the notice holds every delivered event in queue order; a body that is not an object is refused after the events have left the queue |
| FailingRuns.DeliveredToNoBody | systems/green-brainz/irq/irq-controller.mjs:253-256 | one injected event applied to a body that is not an object: the call is refused and the queue is empty |
| InterruptControllers.InterruptController.ExpireIdle | systems/green-brainz/irq/irq-controller.mjs:271-276 | the loop deletes exactly the idle sessions older than the time to live |
| InterruptControllers.InterruptController.EvictIdle | systems/green-brainz/irq/irq-controller.mjs:173-180 | the loop finds and deletes the first least recently touched idle session |
| InterruptControllers.InterruptController.BeginLease | systems/green-brainz/irq/irq-controller.mjs:182-199 | starting a generation has the specified effect and errors |
| InterruptControllers.InterruptController.EndLease | systems/green-brainz/irq/irq-controller.mjs:203-211 | ending a generation twice has no second effect |
| InterruptControllers.InterruptController.EnqueueIn | systems/green-brainz/irq/irq-controller.mjs:217-225 | push, sort and slice leave the specified queue and answer |
| InterruptControllers.InterruptController.PreemptActive | systems/green-brainz/irq/irq-controller.mjs:228-235 | a preemption has the specified effect on queue and lease |
| InterruptControllers.InterruptController.ConsumePending | systems/green-brainz/irq/irq-controller.mjs:245-251 | a delivery empties the queue and returns it |
| InterruptControllers.InterruptController.OnClientAbort | systems/green-brainz/irq/irq-controller.mjs:50-75 | a client abort reaches exactly the live leases that listen to it and carry no reason yet |
| HostRuns.NamesTell | systems/green-brainz/host/cognitive-host.mjs:155-155 | keys of different turns differ, even after normalization, whatever session and text they carry |
| HostRuns.NewActionPasses | systems/green-brainz/host/cognitive-host.mjs:183-183 | an action with a new number never triggers the detector |
| HostRuns.DreamKept | systems/green-brainz/host/cognitive-host.mjs:198-220 | a dream keeps the host's invariant and, if it succeeds, integrates everything that its session had in attention |
| HostRuns.TurnIsKept | systems/green-brainz/host/cognitive-host.mjs:145-196 | a turn's key is new, no key moves back, and the reply names the phase its key is in |
| HostTraces.HostRunIsLoopRun | systems/green-brainz/host/cognitive-host.mjs:145-220 | every run of a fresh host is, on its loop and store, a run of the loop, made of the calls that its own calls ask for: a turn speaks under its own key for its own actor or else the host's, and dreams impress for the host's |
| HostTraces.HostLogTellsCalls | systems/green-brainz/host/cognitive-host.mjs:145-220 | so every entry of a host's log tells of a call of the host that asked for it |
| HostTraces.TurnAnswers | systems/green-brainz/host/cognitive-host.mjs:145-196 | a turn without a session is refused and changes nothing; an answered one names its key and is integrated if and only if it was to be written through, unless it napped |
| HostAnswers.DreamTells | systems/green-brainz/host/cognitive-host.mjs:198-220 | a dream told of a negative queue fails; else it is refused for the reason for which the scheduler refuses a task that may write, and leaves loop and store alone, or it impresses what its session has in attention and answers as its lease is settled |
| HostAnswers.DreamIsSettled | systems/green-brainz/host/cognitive-host.mjs:205-219 | while its lease lasts a dream is settled as a success if and only if everything was impressed, and otherwise as a failure; after that as expired, with the answer that the lease is unknown |
| HostAnswers.NoteTells | systems/green-brainz/host/cognitive-host.mjs:251-253 | a note of the world outside reaches the scheduler alone: the host is idle if and only if the queue is empty and no primary work goes on |
| HostAnswers.NapsDream | systems/green-brainz/host/cognitive-host.mjs:183-195 | a shown action makes the host dream if and only if the loop answers a nap and the turn has not dreamed |
| HostTraces.OpensWithDream | systems/green-brainz/host/cognitive-host.mjs:96-143 | a host opens with three drives, ranked, and one repeating dream task of thirty-two attempts |
| HostTheorems.HostNeverLosesATurn | systems/green-brainz/host/cognitive-host.mjs:145-220 | after any run on a fresh host, each key ever admitted is in its session's working set in attention, or integrated with the store answering its value |
| HostWaits.NappedTurnsAreNeverStored | systems/green-brainz/host/cognitive-host.mjs:165-178 | the key of a turn that ended as a nap is in derivation after every later run, was never admitted, and, unless a digest collided, the store answers it as it did before the turn |
| HostWaits.WaitingKeysWait | systems/green-brainz/host/cognitive-host.mjs:145-220 | a key that is in derivation after some calls stays there through all that follow |
| HostTheorems.HostsAreNeverSeized | systems/green-brainz/host/cognitive-host.mjs:183-183 | since every action carries a new number, no session of a host is ever recovered or seized |
| HostTheorems.TurnRepliesAreTrue | systems/green-brainz/host/cognitive-host.mjs:187-195 | a turn reported as integrated can be read back, one reported as admitted is in attention or stored, one reported as a nap waits in derivation, and no earlier admitted key is lost by the turn |
| HostTheorems.HostsHoldNoLease | systems/green-brainz/host/cognitive-host.mjs:205-219 | no call of the host leaves a lease behind, whatever fails inside it |
| HostTheorems.DreamEmptiesWorkingSet | systems/green-brainz/host/cognitive-host.mjs:209-215 | a dream that succeeds empties its session's working set |
| HostTheorems.NapsOnlyForARefusedDream | systems/green-brainz/host/cognitive-host.mjs:165-178 | after any run of a fresh host, a turn that does not fail ends as a nap if and only if its working set is full and the scheduler refuses the dream or the turn does not fit an empty working set |
| HostTheorems.OpenIsFresh | systems/green-brainz/host/cognitive-host.mjs:96-143 | opening over any sound store gives a host to which these theorems apply |
| Hosts.FittingIsLongest | systems/green-brainz/host/cognitive-host.mjs:230-238 | the injected lines fit the token budget, and one line more would not |
| InjectedRecall.InjectsTheVisible | systems/green-brainz/host/cognitive-host.mjs:222-249 | a recall injects the first of the ranked rows whose keys are unknown to the loop, in attention or integrated, as many as the token budget takes, and fails exactly with the store's recall |
| InjectedRecall.InjectedAreInSight | systems/green-brainz/host/cognitive-host.mjs:228-228 | no injected line is of a key that is held back, and none is left out for one ranked below it |
| CognitiveHosts.CognitiveHost.ObserveOneTurn | systems/green-brainz/host/cognitive-host.mjs:145-196 | the turn on the composed objects has the specified effect on loop, store, scheduler and counter |
| CognitiveHosts.CognitiveHost.DreamFor | systems/green-brainz/host/cognitive-host.mjs:198-220 | so has a dream, with its loop over items and the settlement in both branches |
| CognitiveHosts.CognitiveHost.InjectBoundedRecall | systems/green-brainz/host/cognitive-host.mjs:222-249 | the loop over recalled rows returns the specified lines |
| CountingBlooms.UpAllAt | skills/green-zkillz/scripts/gdict_lru.py:67-71 | adding raises each counter by its number of probes and no further than 255 |
| CountingBlooms.DownAllAt | skills/green-zkillz/scripts/gdict_lru.py:73-76 | removing lowers each counter by its number of probes and no further than zero |
| CountingBlooms.JsonRoundTrip | skills/green-zkillz/scripts/gdict_lru.py:86-112 | loading what was saved gives the same filter |
| CodebookFiles.CountersAreBytes | skills/green-zkillz/scripts/gdict_lru.py:97-112 | a saved counter is read as its lowest byte, whatever was saved, and one that was not saved is zero |
| CodebookFiles.DefaultFilter | skills/green-zkillz/scripts/gdict_lru.py:45-58 | a filter saved without its sizes, or not saved, has eight thousand one hundred and ninety-two counters and four probes |
| CodebookFiles.ProbesStep | skills/green-zkillz/scripts/gdict_lru.py:60-65 | the probes of a phrase start at its first digest and go on by its second, or by one if that is zero, around the counters |
| CountingBlooms.CountingBloom.AddPhrase | skills/green-zkillz/scripts/gdict_lru.py:67-71 | the in-place loop over the counters has the specified effect |
| CountingBlooms.CountingBloom.RemovePhrase | skills/green-zkillz/scripts/gdict_lru.py:73-76 | the in-place loop over the counters has the specified effect |
| CountingBlooms.CountingBloom.MightContain | skills/green-zkillz/scripts/gdict_lru.py:78-84 | the answer is that of all probes, and only the statistics change |
| CodebookRuns.AddKeepsStep | skills/green-zkillz/scripts/gdict_lru.py:67-71 | adding keeps each counter equal to the summed multiplicity of the phrases if and only if no sum exceeds 255 |
| CodebookRuns.GatingIsInvisible | skills/green-zkillz/scripts/gdict_lru.py:281-285 | with the counters in step, the gated lookup is the plain scan |
| CodebookTheorems.EvictDropsOldest | skills/green-zkillz/scripts/gdict_lru.py:236-248 | eviction removes exactly the oldest entries, as many as asked for and there are, and keeps the filter in step |
| CodebookTheorems.CapLoopEndsIff | skills/green-zkillz/scripts/gdict_lru.py:251-255 | the loop that keeps the cap ends if and only if the cap is not negative; below, its guard holds after every number of evictions |
| CodebookTheorems.CapDropsOldest | skills/green-zkillz/scripts/gdict_lru.py:251-255 | where it ends, it has removed exactly the oldest entries above the cap and kept the filter in step |
| CodebookTheorems.PutEndsByCap | skills/green-zkillz/scripts/gdict_lru.py:294-318 | a put of a new phrase never returns below a negative cap, raises at cap zero after dropping its own entry, and otherwise leaves the entry that it reports |
| FailingRuns.FirstPutFails | skills/green-zkillz/scripts/gdict_lru.py:251-318 | from no files, the first put never returns exactly if the cap is negative and raises exactly if it is zero |
| CodebookTheorems.PutKeeps | skills/green-zkillz/scripts/gdict_lru.py:271-318 | a careful put keeps ids and phrases distinct, the cap and the filter, and its phrase survives as the youngest entry under the reported id |
| CodebookUses.PutCountsUse | skills/green-zkillz/scripts/gdict_lru.py:271-318 | a put is refused for an empty or too long phrase and skipped for a text of at least thirty-two hexadecimal digits; it uses the entry that has its phrase, or else renames the entry of its id, or else appends a new one with one hit, for which at the cap the oldest goes |
| CodebookUses.HitCountsUse | skills/green-zkillz/scripts/gdict_lru.py:227-234 | a use adds one to the entry's hits, stamps its time and makes it the youngest; it changes no other entry |
| CodebookUses.HitsCountUses | skills/green-zkillz/scripts/gdict_lru.py:271-343 | over every careful run, an entry that is not evicted has as many more hits as commands used it and the time of the last that did; its phrase, its kind and its creation stay |
| CodebookUses.UserEntriesAreUsed | skills/green-zkillz/scripts/gdict_lru.py:321-343 | an entry of the user store is used exactly by a hit of its id that the session does not answer |
| CodebookUses.LeastRecentGoes | skills/green-zkillz/scripts/gdict_lru.py:236-255 | what goes, by eviction or for a new entry, was last used no later than anything that stays |
| CodebookTheorems.ReuseKeepsStepIff | skills/green-zkillz/scripts/gdict_lru.py:294-300 | a put that re-uses an id keeps the filter in step if and only if both phrases probe every counter equally often |
| FailingRuns.StoredButNotFound | skills/green-zkillz/scripts/gdict_lru.py:287-300 | two puts from no files, one under a forced id of the automatic form: the second phrase is stored and the filtered lookup does not find it |
| CodebookTheorems.AutomaticIdsAreFree | skills/green-zkillz/scripts/gdict_lru.py:258-261 | if no put forces an id of the automatic form, no automatic id is ever taken in a run from no files |
| CodebookTheorems.AutomaticRunsStayGood | skills/green-zkillz/scripts/gdict_lru.py:271-379 | so in runs that leave the ids to the store, only the bound of the counters is left to ask for |
| CodebookTheorems.LoadOfSave | skills/green-zkillz/scripts/gdict_lru.py:166-207 | saving and loading keeps everything but the order of the entries, which becomes the order of age |
| CodebookFiles.FilterIsRebuilt | skills/green-zkillz/scripts/gdict_lru.py:166-198 | a file of distinct entries that was stored without a filter is loaded with one in step with the entries, if no counter has to pass 255 |
| CodebookFiles.NoFileIsEmpty | skills/green-zkillz/scripts/gdict_lru.py:154-172 | without a file the store is empty, numbers its entries from one, and has the given cap and an empty filter of the default size |
| CodebookTheorems.RunsStayGood | skills/green-zkillz/scripts/gdict_lru.py:271-379 | over every careful run with saving and loading between commands, entries stay distinct, the caps hold, and the counters stay in step |
| CodebookTheorems.GetAnswersAsScan | skills/green-zkillz/scripts/gdict_lru.py:346-368 | after every careful run, each lookup answers what scanning both stores would |
| CodebookTheorems.PutThenGet | skills/green-zkillz/scripts/gdict_lru.py:271-368 | directly after a careful put its phrase is found |
| CodebookStores.CodebookStore.EvictOldest | skills/green-zkillz/scripts/gdict_lru.py:236-248 | the popping loop has the specified effect on dictionary and filter |
| CodebookStores.CodebookStore.KeepCap | skills/green-zkillz/scripts/gdict_lru.py:251-255 | the method answers whether the loop ends, and the loop then has the specified effect |
| CodebookStores.CodebookStore.FindGated | skills/green-zkillz/scripts/gdict_lru.py:281-285 | the lookup asks the filter first and, with the filter in step, returns what the scan returns |
| CodebookStores.CodebookStore.PutPhrase | skills/green-zkillz/scripts/gdict_lru.py:271-318 | a put has the specified effect and reply for every cap |
| Sorting.TruncatedSortRefines | systems/green-brainz/irq/irq-controller.mjs:220-222 | re-sorting a truncated queue after one arrival loses nothing that truncating the full sort would keep |

## Left out

- CodebookStores.CodebookStore.KeepCap: below a negative cap the method answers that the loop does not end instead of looping, because `CapLoopEndsIff` proves that it would; a put then answers `Endless`.
- CodebookTheorems.PutKeeps: speaks of puts whose id is not taken; `ReuseKeepsStepIff` has the exact condition for the others.
- Real files, temporary names, renames and JSON text; the saved filter is a map from counter to count.
- Promise scheduling beyond the steps of the eviction queue, and concurrent writers to one branch.
- Task kind, payload and display names, drive and scheduler snapshots, and input-string patterns such as branch names and interrupt tokens: a rejected id, notice or reason is a value of its own.
- The listeners of a generation whose request id is rejected after its signals were linked.
- The text of notices and prompts: a notice is the list of its events, an injected recall the list of its rows.
- `reachableStateObjects` and `inspectBranch`, which would repeat the proofs of `reachableObjects` and `get`.
- `promote`, the statistics log and the listing commands of the codebook.
- `wrapPhase` and the phase names.
- The gateway, the shell scripts and the other skills of the repository.
