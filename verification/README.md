# Verified models of five systems programs

This project models the protocols and data structures of five C programs in Dafny and proves
properties of them for every input, every interleaving and every number of threads:

- **HW2**: two processes that use a locked file as a bounded stack of rows and wake each other
  with `SIGUSR1`;
- **HW3**: the front end of a shell (reading, splitting, validating, remembering, scanning);
- **HW4**: a bakery of chefs and a wholesaler that share semaphores;
- **HW5**: a florist thread pool with one queue and one condition variable per florist;
- **Final**: a server with provider threads, one redirector thread per client, and timed waits;
- the linked-list queue of HW5 and Final.

`dafny verify dfyconfig.toml` checks everything.

## How the models are built

Algorithms and heap structures keep the form they have in C: `LinkedQueue.Queue`,
`SequenceFile.CommFile` and `ShellHistory.History` are classes whose methods change fields and
heap nodes, and the search, DFT, validator, scan, split, read and history loops are methods
with loops.

The concurrent protocols are transition systems. Each thread or process has a program counter,
a *step* is what it does at that counter, and a *run* (or *schedule*) is any list of steps in
which each step is enabled when it is taken. A theorem about "every run" quantifies over all
such lists from the initial state.

| transition system | source | size of a step |
|---|---|---|
| `SequenceProtocol.ParentStep` | HW2/151044001_main.c, lines 143-201 | one system call, or one word written |
| `SequenceProtocol.ChildStep` | HW2/151044001_main.c, lines 262-331 | one system call, or one word read |
| `Bakery.StepSeller`, `Bakery.StepChef` | HW4/151044001_main.c, lines 123-204 | one semaphore operation or one look at the flag |
| `FloristPool.StepMain`, `FloristPool.Local` | HW5/151044001_main.c, lines 71-148 and 198-233 | one lock, guard, queue, signal, delivery or join operation |
| `ProviderServer.StepMain` | Final/server.c, lines 164-206 | one guard, accept or admission |
| `ProviderServer.Local` | Final/server.c, lines 268-388 | one lock, guard, queue, count or answer operation |
| `ProviderServer.Next` | Final/server.c, lines 444-493 | one lock operation, search iteration, offer or answer |

What a step does to a shared variable is a function of its own beside these (`OwnMutex`,
`MutexesAfter`, `CountChange`, `QueuesAfter`, `WorkersAfter`, `TableAfter`, `WorkingAfter`).
Some fields record history and drive nothing: `produced`, `consumed`, `offered`, `served`,
`readAt`, `flagAt`, `seen`, `polled`, `dropped`, `late`, `answered`, `last`, `baked`, `collected`, `posted`.

Assumptions: memory is sequentially consistent and system calls succeed. Signals follow
section 2.4.1 of the System Interfaces volume of POSIX.1-2008: a blocked
`SIGUSR1` stays pending, at most once, and `sigsuspend` takes it atomically. Waiting on a
condition variable may end without a signal at any time.

## Where the code does less than it seems to

Three places, each with a concrete run and with the exact condition:

- **Final, a client can be left behind without any shutdown.** A provider times out and returns
  while a redirector that has already chosen it is on its way to the queue
  (`ServerLimits.ClientCanBeLeftBehind`). It happens exactly when the provider has returned at
  the moment of the offer; any other client of a provider that returns while the server works
  is answered (`ServerOutcomes.LeftBehindExactlyIfReturned`). At most one client per provider is left
  (`ServerSafety.AtMostOneLeftBehind`).
- **Final, a polled client can be forgotten at shutdown.** The provider evaluates
  `!timedOut && working` once under its mutex (line 304) and again after releasing it
  (line 317). A `SIGINT` between the two drops the client in hand
  (`ServerLimits.PolledClientCanBeForgotten`). In every run, a polled client is answered if and
  only if `working` is true at the second evaluation
  (`ServerOutcomes.PolledAnsweredExactlyIfWorking`); at most one client per provider is lost, and none while
  `working` is still true (`ServerSafety.ReturnedAnsweredAll`).
- **HW5, a client can be left in the queue.** The outer guard of line 198 reads the queue and
  then the flag, without a lock (`FloristLimits.ClientCanBeLeftBehind`). The clients served are
  exactly those offered before the last read of the queue, and the others were offered between
  that read and the read of the flag
  (`FloristSafety.LeftOverWasOfferedBetweenReads`); if the guard were one step, nobody would be
  left.

## Model

| member | source | states |
|---|---|---|
| SequenceFile.FlattenSize | HW2/ParentHelpers.c:27-40 | a file of whole rows has as many bytes as rows times the row size |
| SequenceFile.CountByDivision | HW2/151044001_main.c:355-356 | dividing the file size by the row size gives the number of complete rows, whether or not a torn row follows |
| SequenceFile.RowsOfFlatten | HW2/151044001_main.c:348-357 | layout round trip: whole rows, followed by any torn tail, are recovered exactly and counted exactly |
| SequenceFile.CommFile.CountSequence | HW2/151044001_main.c:348-357 | returns the number of complete rows in the file |
| SequenceFile.CommFile.WriteToFile | HW2/ParentHelpers.c:27-40 | the word-by-word loop appends exactly the row |
| SequenceFile.CommFile.ReadSequence | HW2/ChildHelpers.c:6-27 | seek, read and truncate return the bytes of row `line` and leave exactly those before it; with the counted number of rows the row returned is the last one and the others remain, torn tail or not |
| SequenceFile.TopRow | HW2/ChildHelpers.c:16-22 | cutting any file where its last complete row starts takes away exactly that row, and a torn tail |
| SequenceFile.WriteThenRead | HW2/151044001_main.c:173-185 | writing a row to an aligned file and reading it back returns that row and restores the file |
| SequenceSafety.WriteStep | HW2/ParentHelpers.c:32-39 | each word written keeps the file equal to whole rows plus the part of one torn row that the lock holder has written |
| SequenceSafety.CutStep | HW2/ChildHelpers.c:21-26 | truncating at the start of the last row leaves exactly the other rows |
| SequenceSafety.ConservedStep | HW2/151044001_main.c:173-185 | every step keeps initial + produced = consumed + stored, as multisets |
| SequenceSafety.WakeupStep | HW2/151044001_main.c:176-194 | every enabled step of either process keeps the no-lost-wake-up invariant |
| SequenceSafety.StepKeeps | HW2/151044001_main.c:143-194 | every enabled step keeps the whole invariant: lock, file, conservation, local facts, wake-ups, handshake |
| SequenceSafety.FileIsBoundedStack | HW2/151044001_main.c:173-185 | in every reachable state: never both processes in the locked part, at most M rows, rows conserved, and with the lock free the bytes are whole rows only |
| SequenceSafety.NoWakeupIsLost | HW2/151044001_main.c:176-194 | in every reachable state: a parent committed to suspending means the file is full, its signal is pending, or the child still owes the kill; dually for the child and an empty file |
| SequenceSafety.NeverStuck | HW2/151044001_main.c:143-194 | in every reachable state, handshake included, some process can step |
| SequenceSafety.RunRefinesStack | HW2/151044001_main.c:173-185 | the rows written and read in any run are a legal history of one LIFO stack with room for M rows, which ends holding the rows in the file: no pop returns anything but the latest unpopped row |
| SequenceHistory.WritingStep | HW2/151044001_main.c:176-178 | in every step, produced rows grow only by a row made while there was room, and that row is the one written |
| SequenceHistory.EveryRowIsWrittenAndTransformed | HW2/151044001_main.c:303-310 | in every run, the rows made are the rows written, in order and unchanged, and the rows popped are the rows given to `CalculateDFT` and `ChildLogger`, in order and unchanged, but for the one in hand |
| SequenceHistory.LedgerStep | HW2/151044001_main.c:176-194 | every step that ends a full or an empty file makes one signal due, and a signal is sent only when one is due |
| SequenceHistory.OneSignalPerTransition | HW2/151044001_main.c:317-319 | in every run, the child sent exactly one signal per time the file stopped being full, and the parent one per time it stopped being empty, but for one that is on its way |
| SequenceHistory.SignalsComeFromKill | HW2/151044001_main.c:262-319 | a signal becomes pending exactly by a `kill` of the other process and stops being pending exactly by `sigsuspend` |
| SequenceProgress.StepUsesRank | HW2/151044001_main.c:262-319 | every step either moves a row or lowers a bounded rank |
| SequenceProgress.StepsPerRow | HW2/151044001_main.c:155-198 | the length of any run is bounded by its rank plus a fixed number of steps per row moved |
| SequenceProgress.BothKeepWorking | HW2/151044001_main.c:155-198 | without any fairness assumption, the length of a run bounds from below both the rows produced and the rows consumed, so neither process starves |
| Dft.CalculateDFT | HW2/ChildHelpers.c:33-50 | the loops leave in both arrays, for every index, the cosine sum and the negated sine sum |
| Dft.TwiddlesMirror | HW2/ChildHelpers.c:43-47 | from periodicity and parity alone: the twiddle at j(n-k) is that at jk, negated for the sine |
| Dft.SumMirrors | HW2/ChildHelpers.c:42-48 | every partial sum at n-k is the partial sum at k, negated for the sine |
| Dft.TransformIsSymmetric | HW2/ChildHelpers.c:33-50 | the computed transform of any real samples satisfies re[n-k] = re[k] and im[n-k] = -im[k] for 0 < k < n |
| LinkedQueue.Queue.Offer | Final/queue.c:44-69 | walking to the tail and linking a node appends the item; chain and counter stay right |
| LinkedQueue.Queue.Poll | HW5/queue.c:60-74 | removes the head exactly if there is one, and says so |
| LinkedQueue.Queue.IsEmpty | HW5/queue.c:78-80 | true exactly if the queue holds nothing |
| LinkedQueue.Queue.IsFull | Final/queue.c:95-97 | the counter test is true exactly if the chain holds as many items as the limit |
| LinkedQueue.FirstInFirstOut | HW5/queue.c:33-74 | over any sequence of operations, what came out followed by what is inside is what was offered, in order |
| LinkedQueue.RunOps | Final/queue.c:44-86 | the heap queue follows the value queue through any sequence of operations; `size` is offers minus successful polls |
| ProviderSearch.ConsiderKeeps | Final/server.c:400-426 | one iteration keeps the candidate the first best of the providers looked at so far |
| ProviderSearch.SearchForProvider | Final/server.c:393-430 | returns the first best acceptable provider (cheapest for C, shortest queue for T, best performance for Q), and -1 exactly if there is none |
| ProviderSearch.AcceptableIsEligible | Final/server.c:639-647 | with the fields the parser lets through and a known priority, acceptable means online and not full, but for a price of INT_MAX when the price decides |
| ProviderSearch.ConsideredIsEligible | Final/server.c:403-422 | an iteration changes the candidate only to a provider that is online and not full |
| ServerLocks.OwnMutexFollows | Final/server.c:288-313 | every provider step leaves its own mutex alone, takes it, or releases what it held, in step with its program |
| ServerLocks.LockEffectKeeps | Final/server.c:450-456 | a step that leaves, takes or releases single mutexes keeps "the owner is exactly the thread between lock and unlock" |
| ServerLocks.ProviderLocks | Final/server.c:288-313 | provider steps keep mutex ownership exact |
| ServerLocks.RedirectorLocks | Final/server.c:450-491 | redirector steps keep mutex ownership exact: a prefix while acquiring, a suffix while releasing |
| ServerLocks.ProviderCountOwner | Final/server.c:269-282 | `countMutex` is owned by exactly the provider between its lock and unlock |
| ServerLocks.WaitingGoesUp | Final/server.c:450-456 | if a thread waits for another, what the other one waits for is strictly higher in the lock order |
| ServerLocks.WaitChainEnds | Final/server.c:450-491 | following who waits for whom from any thread ends at a thread that is not blocked, after a bounded number of threads |
| ServerCounting.LocalKeepsRight | Final/server.c:268-388 | a provider's own step keeps: online rises once and falls once, no poll of an empty queue, no answer to a stale request, at most one client dropped |
| ServerCounting.LocalKeepsAccount | Final/server.c:304-344 | each step keeps polled = answered + in hand + dropped |
| ServerCounting.ProviderCounter | Final/server.c:269-282 | a provider step keeps `currentProviders` equal to the number of providers counted in |
| ServerCounting.CounterIsOnline | Final/server.c:349-362 | while `countMutex` is free, being counted in and being online coincide |
| ServerQueues.LocalKeepsQueue | Final/server.c:287-376 | a provider step keeps the queue bound and a returned provider's queue within its late offers, and does not unmake a redirector's choice |
| ServerQueues.OneSearcher | Final/server.c:450-491 | with at least one provider, only one redirector at a time is between its search and its offer |
| ServerQueues.OfferKeepsQueue | Final/server.c:472-475 | an offer to a chosen provider keeps the bound on queue size and late offers, even if it went offline since |
| ServerQueues.OfferQueues | Final/server.c:472-475 | after an offer no other redirector's choice is outdated |
| ServerCensus.LocalCensus | Final/server.c:304-376 | what a provider holds before a step is what it holds, answers or drops in it |
| ServerCensus.ProviderCensus | Final/server.c:304-376 | provider steps keep every accepted client counted exactly once |
| ServerCensus.RedirectorCensus | Final/server.c:459-475 | redirector steps keep every accepted client counted exactly once |
| ServerCensus.MainCensus | Final/server.c:164-206 | accepting, admitting and refusing keep every accepted client counted exactly once |
| ServerSafety.StepKeeps | Final/server.c:253-494 | every enabled step of any thread keeps the whole invariant |
| ServerSafety.NoMutexDeadlock | Final/server.c:450-491 | in every reachable state, from any blocked thread the wait-for chain leads to a thread that can step |
| ServerSafety.CounterMatchesOnline | Final/server.c:269-282 | in every reachable state with `countMutex` free, `currentProviders` is the number of providers online |
| ServerSafety.AtMostOneLeftBehind | Final/server.c:355-376 | in every reachable state: queues within PROVIDER_LIMIT, at most one offer to a provider that is offline, and a returned provider's queue holds at most that one |
| ServerSafety.OnePlaceForEachClient | Final/server.c:459-475 | in every reachable state each accepted client is in exactly one place and answered at most once |
| ServerSafety.ReturnedAnsweredAll | Final/server.c:304-344 | a returned provider answered every client it polled exactly once, but for at most one dropped; none is dropped while `working` |
| ServerChoice.IterationReads | Final/server.c:400-426 | an iteration of a redirector's search reads price, performance, `online` and queue size of the provider at its index |
| ServerChoice.LocalKeepsTruth | Final/server.c:288-313 | while a redirector holds all mutexes, no provider step makes what was read of an online provider untrue |
| ServerChoice.StepSearches | Final/server.c:450-475 | every step of any thread keeps what every search has seen and its candidate right |
| ServerChoice.OffersToTheBest | Final/server.c:459-475 | in every reachable state, a redirector about to offer has seen every provider and chosen the first best of what it saw, one about to refuse saw nobody acceptable, and what it saw of a provider that is online is what is there |
| ServerChoice.NobodyIsOverlooked | Final/server.c:450-475 | in every run, a provider online from before the search until the offer has been seen as it is, so it is not better than the chosen one, and after a refusal it cannot take the client |
| ServerChoice.RequestDecides | Final/server.c:444-475 | in every run, the priority received decides the offer, and a redirector keeps its own client |
| ServerAdmission.AdmittedExactlyIfOnline | Final/server.c:179-204 | in every reachable state with an accepted client: it gets a redirector, and no answer, if some provider is online and there is room; it is answered, and gets no redirector, if nobody is online or there is no room |
| ServerAdmission.AcceptsUntilInterrupted | Final/server.c:164-177 | main begins its teardown only after SIGINT, and after SIGINT accepts at most the connection it is waiting for and takes at most three steps to its teardown |
| ServerProgress.LocalUsesRank | Final/server.c:268-388 | a provider's step lowers its rank, the end of a wait excepted |
| ServerProgress.StepUsesRank | Final/server.c:164-494 | every step of any thread lowers the rank, but for accepts, ends of waits and SIGINT, by their stated amounts |
| ServerProgress.OnlyEventsProlongARun | Final/server.c:164-494 | for any number of threads, the length of a run is bounded by the providers, the accepted clients, the ends of waits, the interrupted accepts and the SIGINTs |
| ServerOutcomes.LeftBehindForever | Final/server.c:367-388 | after a provider has returned its queue only grows, and it answers nobody |
| ServerOutcomes.RunKeepsOrAnswers | Final/server.c:304-376 | in every run nothing but an answer takes a client away from the provider that has it |
| ServerOutcomes.LeftBehindExactlyIfReturned | Final/server.c:472-475 | in every run, a client offered to a provider that has returned later is in its queue if and only if the provider had returned at the offer; otherwise it is answered if and only if it was not dropped, and always answered while `working` |
| ServerOutcomes.RunDecided | Final/server.c:317-344 | in every run, a client that the second look lets through is being answered or answered, and one that it drops stays dropped |
| ServerOutcomes.PolledAnsweredExactlyIfWorking | Final/server.c:304-344 | in every run, a polled client of a provider that has returned later was answered if and only if `working` was true at the second look, and dropped if and only if it was not |
| ServerOutcomes.LeavesOnlyWithReason | Final/server.c:287-301 | in every run without SIGINT and without a time-out of its own waits, a provider neither signs off nor drops a client |
| ServerLimits.ClientCanBeLeftBehind | Final/server.c:355-376 | a run without SIGINT, one provider and one client, ends with the client queued for ever |
| ServerLimits.PolledClientCanBeForgotten | Final/server.c:304-317 | a run with SIGINT between the two looks ends with the polled client dropped and nobody answered |
| FloristSafety.LocalKeepsRight | HW5/151044001_main.c:198-227 | a florist's step keeps: offered = served, then in hand, then queued, in order; totalSales counts the served; exit only with the flag down |
| FloristSafety.LocalOwner | HW5/151044001_main.c:200-218 | a florist's step keeps its mutex owned by it exactly between lock and unlock, released while it sleeps |
| FloristSafety.MainWakes | HW5/151044001_main.c:82-133 | each step of main keeps the no-lost-wake-up invariant of every florist |
| FloristSafety.MainRouted | HW5/151044001_main.c:71-99 | each step of main keeps: a florist has been offered exactly the clients routed to it so far, in order |
| FloristSafety.StepKeeps | HW5/151044001_main.c:71-148 | every enabled step, wake-ups without a signal included, keeps the whole invariant |
| FloristSafety.SleepersHaveNothingToDo | HW5/151044001_main.c:206-211 | in every reachable state a sleeping florist's queue is empty or main is about to signal it, and the flag is up or main has yet to signal it |
| FloristSafety.FirstInFirstOut | HW5/151044001_main.c:214-227 | in every reachable state, the clients routed to a florist so far are, in order, those served, the one in hand, those queued |
| FloristSafety.LeftOverWasOfferedBetweenReads | HW5/151044001_main.c:198 | a returned florist served exactly the clients offered before its last look at the queue, and what it left is exactly what was offered from then to its last look at the flag, by which all were offered; with the guard as one step it served all |
| FloristSafety.DoneMeansJoined | HW5/151044001_main.c:123-148 | when main is done every florist has returned, and with the guard as one step its total is the number of clients routed to it |
| FloristProgress.NeverStuck | HW5/151044001_main.c:104-133 | until main is done some thread can step without a spurious wake-up, so there is no deadlock up to the final join |
| FloristProgress.LocalUsesRank | HW5/151044001_main.c:198-227 | every florist step lowers its rank |
| FloristProgress.MainPays | HW5/151044001_main.c:71-133 | every step of main lowers its own rank by more than the most it can add to the florists' ranks |
| FloristProgress.StepUsesRank | HW5/151044001_main.c:71-227 | every step lowers the rank, but for wake-ups without a signal |
| FloristProgress.EveryRunEnds | HW5/151044001_main.c:71-148 | the length of every run is at most 24 per florist, 30 per client, 8 per wake-up without a signal, and 5 |
| FloristLimits.OfferedBetweenReads | HW5/151044001_main.c:198 | a reachable state in which the only client was offered between the two reads of the guard |
| FloristLimits.ClientCanBeLeftBehind | HW5/151044001_main.c:198 | a reachable state in which the florist has returned with that client in its queue |
| FloristChoice.SquaredDistanceIsEuclidean | HW5/151044001_main.c:277-280 | the squared distance does not change under moves, turns and exchange, obeys the parallelogram law, and gives 25 for 3 and 4 |
| FloristChoice.GotFlowerOfType | HW5/151044001_main.c:262-273 | true exactly if the flower is in the list |
| FloristChoice.GetProperFlorist | HW5/151044001_main.c:238-258 | the first of the sellers with the least distance, by whatever `Distance` computes, and -1 exactly if nobody sells the flower |
| FloristChoice.NearestUpToRounding | HW5/151044001_main.c:277-280 | if rounding keeps order, a seller that is really nearer than the chosen one is rounded to the same distance and stands later in the list |
| Bakery.ForkChefs | HW4/151044001_main.c:71-88 | the loops start one chef for every pair of different ingredients and no two for the same |
| BakerySafety.ChefOwnStep | HW4/151044001_main.c:131-156 | a chef that holds one ingredient found it in the outstanding pair; one that puts back did not find its second; one that bakes found exactly its pair |
| BakerySafety.ChefKeeps | HW4/151044001_main.c:131-156 | every chef step keeps the whole invariant |
| BakerySafety.SellerKeeps | HW4/151044001_main.c:176-199 | every wholesaler step keeps the whole invariant, whatever pair it draws |
| BakerySafety.StepKeeps | HW4/151044001_main.c:107-204 | every step keeps the invariant, flags that flip at any time included |
| BakeryResults.SemaphoresAreBinary | HW4/151044001_main.c:49-53 | in every reachable state `working` plus the processes holding it is 1, and every semaphore is 0 or 1 |
| BakeryResults.TableIsLastPair | HW4/151044001_main.c:176-198 | in every reachable state drops minus bakes is 0 or 1, ingredients posted are 2 per bake plus those on the table plus those held, and a free table is empty or exactly the last pair |
| BakeryResults.VisitorStep | HW4/151044001_main.c:136-151 | a chef's own steps during a visit bake only for a matching pair, and put back only for another |
| BakeryResults.OthersStep | HW4/151044001_main.c:131-199 | while a chef is between its `sem_wait` and `sem_post`, no step of any other process, and no flag flip, drops, bakes or changes the last pair |
| BakeryResults.VisitBakesOrRestores | HW4/151044001_main.c:133-155 | in every run, with any steps of all processes during the visit: the chef of the outstanding pair bakes once and empties the table, and any other chef leaves the table and the counts as it found them |
| BakeryResults.ExactlyOneChef | HW4/151044001_main.c:69-88 | for any two different ingredients there is exactly one chef |
| BakeryResults.ExactlyOneMatches | HW4/151044001_main.c:69-88 | in every reachable state with a dropped pair not baked, that pair matches exactly one chef |
| BakeryResults.NextBakeWithinReach | HW4/151044001_main.c:131-198 | after every run in which no flag flipped, a further bake is at most 20 flip-free steps away |
| BakeryRuns.DropsWhatItDrew | HW4/151044001_main.c:178-191 | in every run from a draw, the next pair dropped is the pair drawn, and exactly these two lie on the table when it is given up |
| BakeryRuns.StopsWhenTold | HW4/151044001_main.c:131-199 | a flag can flip at any time; after it, in every run, a chef takes at most 6 steps and the wholesaler at most 7, and it does not go to wait for a bake |
| ShellTokens.KindsOfMarks | HW3/151044001_HW3_CSE344.c:507-523 | the commands, redirectors and pipe are exactly the eight words and three marks written out |
| ShellGrammar.TailIsParsed | HW3/151044001_HW3_CSE344.c:287-341 | from the end of a segment, whatever the validator accepts splits into joined segments and an optional target |
| ShellGrammar.AcceptedIsLine | HW3/151044001_HW3_CSE344.c:280-344 | whatever the validator's walk accepts is in the grammar |
| ShellGrammar.TailIsAccepted | HW3/151044001_HW3_CSE344.c:287-341 | any rendering of joined segments and a target is accepted behind a segment |
| ShellGrammar.LineIsAccepted | HW3/151044001_HW3_CSE344.c:280-344 | whatever is in the grammar is accepted |
| ShellGrammar.ValidateCommandList | HW3/151044001_HW3_CSE344.c:280-344 | the index-skipping loop answers true exactly for the lists in the grammar, and reads nothing behind the terminator |
| ShellScan.CommandsAre | HW3/151044001_HW3_CSE344.c:68-78 | the list of command positions is increasing and holds exactly the positions of commands |
| ShellScan.AcceptedStart | HW3/151044001_HW3_CSE344.c:294-341 | an accepted list that is not empty starts with a command |
| ShellScan.Scan | HW3/151044001_HW3_CSE344.c:54-99 | for accepted lists: `lastCommand` and `secondLastCommand` are the greatest two command positions before the first `>`, and the pipe branch, reached under the exact condition stated, always has both, in order |
| ShellLine.TokensAtRuns | HW3/151044001_HW3_CSE344.c:414-423 | the tokens are the texts of the listed runs |
| ShellLine.RunsAreMaximal | HW3/151044001_HW3_CSE344.c:414-423 | the listed runs are exactly the maximal runs of non-spaces, left to right |
| ShellLine.SplitOfRebuild | HW3/151044001_HW3_CSE344.c:430-441 | splitting text rebuilt from any tokens gives those tokens |
| ShellLine.SplitIsStable | HW3/151044001_HW3_CSE344.c:403-442 | splitting the rebuilt command again gives the same tokens |
| ShellLine.RebuildLength | HW3/151044001_HW3_CSE344.c:430-441 | the rebuilt text is at most one character longer than the line |
| ShellLine.Strtok | HW3/151044001_HW3_CSE344.c:414-422 | one call yields the next token and where the rest starts, or says there is none |
| ShellLine.SplitCommand | HW3/151044001_HW3_CSE344.c:403-442 | yields all tokens in order and rebuilds the command from them |
| ShellLine.ReadLine | HW3/151044001_HW3_CSE344.c:447-502 | no read overruns the growing buffer; the line is the C string in front of the final newline; nothing exactly if that is blank |
| ShellLine.ReadAndSplit | HW3/151044001_HW3_CSE344.c:430-482 | the list holds the tokens of the line that was read; the rebuilt command and its terminating zero fit the buffer that was read into |
| ShellHistory.HistoryIsChanges | HW3/151044001_HW3_CSE344.c:528-557 | the history of a session is, in order, the commands at which it changed |
| ShellHistory.NoNeighboursEqual | HW3/151044001_HW3_CSE344.c:538-539 | no two neighbours in the history are equal |
| ShellHistory.History.AddToHistory | HW3/151044001_HW3_CSE344.c:528-557 | counting, copying and terminating appends the command unless it repeats the last one, and keeps the array terminated |
| ShellHistory.Session | HW3/151044001_HW3_CSE344.c:30-43 | calling it for a sequence of commands leaves the history of that session |

## Left out

- Memory model and failing calls: shared memory is sequentially consistent, and the error branches that print, log and exit are not modelled.
- The protocols are transition systems on values, not Dafny objects shared by threads, so aliasing between threads is not captured. The heap queue is verified by itself, and the protocols use the sequence it refines with atomic offers and polls.
- The inner waiting guard, one iteration of the search and one evaluation of a two-flag guard are single steps; the outer guard of HW5 is the exception and is modelled both ways.
- HW2: `SIGINT` and the exit it causes. A suspended parent is not woken when the child exits, so no claim about shutdown is made.
- HW2: a file that is unaligned or has more than M rows at the start. The code accepts one (line 53) and tests fullness with `==` (line 176), so the bound of M rows needs an aligned file with at most M rows.
- HW2: producing random sequences, and the loggers.
- SequenceFile.CommFile.ReadSequence: stated for a file of at least `line` rows, which is what the lock and `CountSequence` guarantee its only caller; reads behind the end of the file are not modelled there.
- Dft.CalculateDFT: over exact reals, with cosine and sine as assumed functions of the numerator; rounding is not modelled.
- FloristChoice.GetProperFlorist: the `float` that `Distance` returns is a parameter, any function of the coordinates to a finite number; its rounding error is not bounded.
- HW5: parsing, delivery times and `totalTime`, printing, and freeing memory after the join.
- HW4: a `sem_wait` interrupted by a signal, whose result the code ignores, the `childList` bookkeeping and the final waits. Clearing flags is modelled for safety, and excluded only in `BakeryResults.NextBakeWithinReach`.
- Final: main's teardown from line 213 on, which destroys mutexes before it joins the redirectors.
- Final: `SendAll`, `ReceiveAll` and sockets (an answer is one step), statistics, configuration and log files, `client.c`, and `mutexMutex`, which nothing locks.
- Final: the effect of `pthread_cond_signal`. A timed wait may end at any step, with or without its time-out, which includes every effect a signal can have; nothing is claimed about how soon a provider notices a client.
- Final: more providers than `ARRAY_SIZE`, which the code does not check before it creates provider threads.
- Final: `cosine`, `factorial` and `power`; `factorial` overflows `int` within the terms used and signs are wrong in some quadrants.
- LinkedQueue.Queue.Poll: the item returned for an empty queue is arbitrary, as the uninitialised `item` of the code is; creating and destroying queues and null queue pointers are not modelled.
- HW3: starting processes, pipes and redirection, the `cd` branch (which looks at `list[1]` and `list[2]` of a list that may end at `list[1]`), and the help, directory and history commands.
- HW3: sizes of the strings the code allocates, which leave out the terminating zero.
- ShellLine.ReadLine: the end of input is not modelled. Before any character has been read the code looks in front of its buffer, and after that it repeats the read for ever.
- HW1: the TIFF reader, which is mostly reading and printing.
