# A verified model of a lock-free runtime

The repository is a runtime of lock-free data structures: transactions over a multi-version map, a hash table that
resizes while it is in use, a lock-free list, two ways of deferring frees until nobody can look at the memory any more,
a multi-threaded allocator, an array stack and an array queue; beside them a sequential skiplist and a streaming SHA-1.
This project models each of them in Dafny, one module per source file, and proves what the structure is for.

| file | models | main results |
|---|---|---|
| `Transactions.dfy` | `src/txn/txn.c` | snapshot reads, reads see what was set and committed, first committer wins, verdicts fixed once the write version is drawn, helping terminates |
| `HashTable.dfy` | `src/map/hashtable.c` | a chain of partly copied tables is one map; routing; counts; copying makes progress and terminates |
| `List.dfy` | `src/map/list.c` | set changes only at the insert and mark CAS; absence moments; structure; values come from calls; obstruction-free |
| `Rcu.dfy` | `src/runtime/rcu.c` | grace period, ring order, one round frees everything handed in but the last few |
| `Hazard.dfy` | `src/runtime/hazard.c` | no held pointer is freed by a scan that is not atomic; conservation; bounded leftovers |
| `Allocator.dfy` | `src/runtime/mem.c` | each block in one place and its life cycle, blocks disjoint and large enough, requests served, no link with two writers |
| `Lifo.dfy` | `src/lifo/clifo.c` | slot balance, progress, conservation, what each call does and when it refuses, stack order without interruption |
| `Fifo.dfy` | `src/fifo/cfifo.c` | popped values are a prefix of the reserved ones; what each call does; slots exclusive; what `used` means |
| `Skiplist.dfy` | `src/map/unsafe_skiplist.c` | every level is the subsequence of tall nodes; the list is a sorted map |
| `Sha1.dfy` | `src/lifo/demo/sha1.c` | any cut of a message gives the FIPS 180-1 digest; exactly which updates are miscounted |
| `Common.dfy` | | the few definitions they share |

## How the concurrent parts are modelled

The state of a structure is a value (`State`), the next statement of a thread that touches shared memory is a function
of it (`Step` and the like), and a run (`IsRun`) is any sequence of such steps of any threads. An invariant is proved to
hold in every state of every run (`RunKeeps`), and the results follow from it. Fields that the program does not have are
history: they record what was done and no step depends on them. Each module then has a class with the program's own
fields, whose methods change them in place; their contracts say that a method does exactly one step, or what a whole
call does when nobody interrupts it.

Memory is sequentially consistent, a compare-and-swap compares, addresses are not reused while somebody may hold them,
and counters do not wrap unless it is said. Integer keys lie close enough together that their difference does not
overflow (`src/map/list.c:156`).

- Transactions: begin, set, abort, start of a commit (VALIDATING together with the write version), one validation with
  all its helping, and detaching are steps. With finer steps a scanner that is late can meet a version newer than that of
  the transaction it validates, and the agreement of helpers is not claimed there.
- Hash table: an API call, the copy of one entry, the tagging of one entry, the start of a copy and the unlinking of a
  table are steps. The hash is an arbitrary function of the key.
- List, RCU, hazard pointers, stack, queue: every load, store and CAS of shared memory is a step. The two reads of a
  hazard slot in the scan (lines 85 and 92 of `src/runtime/hazard.c`) are two steps.
- Allocator: the stores of a queue's producer and consumer are steps of their own; work on a thread's own lists is one
  step. The operating system gives out fresh regions.

## What is not so

- `cfifo_size` can be wrong by wrapping below zero, or by one above the size: `Fifo.UsedDips` and `Fifo.UsedOvershoots` are
  runs in which it is, `Fifo.RunUsed` and `Fifo.UsedBounds` say exactly when, and what can be relied on.
- `cfifo_push` can refuse although the queue is not full: `Fifo.OvertakenRefuses` is such a run, and `Fifo.RefusalSawFull`
  says that the consumer must then have gone past the tail the push had loaded.
- `SHA1_Update` counts wrongly from 2^29 bytes on unless the low part carries: `Sha1.LongUpdateMiscounted` is the smallest
  case, `Sha1.CountExact` the exact condition.
- The next bucket of a search in the hash table can be the one it comes from: `HashTables.NextBucket` says exactly when.
- `ll_cas` does not compare a specific expected value with the one it replaces, unlike the hash table and the
  sequential skiplist: `HarrisList.ExpectationIgnored` is a run in which it replaces another one, and
  `HarrisList.CasHonours` says exactly when that happens.
- The value `ll_cas` answers was always current at a moment inside the call (`HarrisList.AnswerWasCurrent`), but not always
  at its end: in the run of `HarrisList.AnswerIsStale` the node's remover has swapped it out before, which
  `HarrisList.AnswerIsCurrent` shows to be possible only for a call that expects no value.

## Model

| member | source | states |
|---|---|---|
| Transactions.VerdictFixed | src/txn/txn.c:86-109 | whether a transaction commits depends only on what was written when it drew its write version, in every later state, whoever computes it |
| Transactions.RunVerdictFixed | src/txn/txn.c:86-147 | over all runs: from the drawing of the write version on the verdict is settled, VALIDATED and ABORTED agree with it, and they stay |
| Transactions.FirstCommitterWins | src/txn/txn.c:49-71 | of two committed writers of a key the later one had read the earlier one's version |
| Transactions.RunFirstCommitterWins | src/txn/txn.c:49-71 | the same in every state of every run |
| Transactions.ChainVersionsDescend | src/txn/txn.c:62-71 | the committed records of a chain never go up in version towards its tail, although it is ordered by set time |
| Transactions.RunChainsDescend | src/txn/txn.c:62-71 | the same in every state of every run |
| Transactions.BelowCommitted | src/txn/txn.c:64-66 | a writer that set before a committed record and is in the way of a validating transaction does not commit |
| Transactions.StopClears | src/txn/txn.c:64-71 | stopping the scan at the first committed record not above the read version misses no conflict |
| Transactions.StopDooms | src/txn/txn.c:108-109 | a committed record above the read version means the verdict is abort, even one with a later version |
| Transactions.SnapshotFixed | src/txn/txn.c:247-329 | the answer owed to a read is not changed by later commits, helping or sets of others |
| Transactions.RunSnapshotFixed | src/txn/txn.c:247-329 | over all runs: the answer owed to a transaction for a key changes only when it sets the key itself |
| Transactions.SnapshotUnique | src/txn/txn.c:247-329 | the answer owed to a read is one answer |
| Transactions.CommittedFound | src/txn/txn.c:270-278 | the first visible committed record of the chain is the one with the largest version not above the read version |
| Transactions.OwnFound | src/txn/txn.c:289-294 | an own record met first is the transaction's latest set of the key |
| Transactions.NothingFound | src/txn/txn.c:323-326 | with nothing visible the answer is the initial value or DOES_NOT_EXIST |
| Transactions.ValidateOne | src/txn/txn.c:125-135 | finding every key clear gives the right verdict, keeps the invariant, and is a step of a run |
| Transactions.AbortOne | src/txn/txn.c:127-130 | aborting after a conflict gives the right verdict, keeps the invariant, and is a step of a run |
| Transactions.RunKeeps | src/txn/txn.c:115-147 | every state of every run satisfies the invariant, and decided transactions stay decided |
| Transactions.RunRecordsAreSets | src/txn/txn.c:392-430 | over all runs: every record comes from an earlier set by its author of its key, with its value |
| Transactions.RunBeginsLater | src/txn/txn.c:157-196 | over all runs: a transaction that begins after a state reads at least at the clock of that state |
| Transactions.RunReadsCommitted | src/txn/txn.c:247-329 | over all runs: a transaction that begins after a commit of a key, and does not set the key itself, is owed that value or a newer committed one |
| Transactions.RunClockCounts | src/txn/txn.c:115-147 | over all runs, a version being drawn together with entering VALIDATING: the clock is one more than the number of commits started, so the versions drawn are the numbers from 2 to the clock |
| Transactions.RunAbortIsFinal | src/txn/txn.c:198-210 | over all runs: an aborted transaction never draws a version, its records are marked aborted, and what it set is in nobody's snapshot |
| Transactions.TxnMap.constructor | src/txn/txn.c:45-47 | the initial state satisfies the invariant |
| Transactions.TxnMap.Begin | src/txn/txn.c:157-196 | the read version is not below the write version of anyone who has drawn one, and nothing is written yet |
| Transactions.TxnMap.Set | src/txn/txn.c:392-430 | pushes a record and notes it in the write set; the transaction is then owed its own value for the key |
| Transactions.TxnMap.WriteVersions | src/txn/txn.c:223-226 | rewrites exactly the records of the transaction |
| Transactions.TxnMap.Abort | src/txn/txn.c:198-210 | while running, all records of the transaction are marked aborted and it is released; otherwise nothing changes |
| Transactions.TxnMap.StartCommit | src/txn/txn.c:212-218 | enters VALIDATING and draws the next version |
| Transactions.TxnMap.Resolve | src/txn/txn.c:80-108 | helping terminates, decides only smaller versions, and tells whether the writer of a record committed |
| Transactions.TxnMap.ValidateKey | src/txn/txn.c:55-113 | VALIDATED means no committing conflict on the key, ABORTED means the verdict is abort |
| Transactions.TxnMap.Validate | src/txn/txn.c:115-147 | the state becomes the verdict defined without reference to chains or progress; the call with all its helping is one decision step of a run |
| Transactions.TxnMap.Detach | src/txn/txn.c:220-226 | writes the outcome into the records |
| Transactions.TxnMap.Get | src/txn/txn.c:247-329 | returns the own latest set, else the newest committed value not above the read version, else the initial value; its helping is a decision step of a run |
| Transactions.TxnMap.Commit | src/txn/txn.c:212-244 | the outcome is the verdict on the version drawn; the call is three steps of a run |
| HashTables.ProbeInBucket | src/map/hashtable.c:96-105 | the probe order enters a bucket at its index and wraps around in it |
| HashTables.NextBucket | src/map/hashtable.c:74-83 | with a 32-bit hash the next bucket of a search is the one it comes from, if and only if the high bits of the hash and the position in the bucket add up to the table size or more |
| HashTables.ProbeLimitIs | src/map/hashtable.c:162-167 | how many buckets a search visits: half again the scale and two, but no more than a quarter of the buckets when that is over 4 |
| HashTables.LookupFromStable | src/map/hashtable.c:92-145 | a found key stays where it is and "no room" is permanent |
| HashTables.FoundOnce | src/map/hashtable.c:213-312 | a key has a value in at most one table of the chain |
| HashTables.InstallKeeps | src/map/hashtable.c:367-381 | the key CAS keeps the invariant and the map |
| HashTables.ValKeeps | src/map/hashtable.c:402-433 | a value CAS changes the map at its key only, and the counts with it |
| HashTables.KillKeeps | src/map/hashtable.c:229-237 | killing an empty entry keeps the map |
| HashTables.GrowKeeps | src/map/hashtable.c:182-207 | starting a copy keeps the map |
| HashTables.UnlinkKeeps | src/map/hashtable.c:565-571 | unlinking a table whose entries are all dead keeps the map and the sum of counts |
| HashTables.EmptyMeansAbsent | src/map/hashtable.c:438-452 | an empty slot at the end of a search means the key is nowhere in the chain |
| HashTables.FoundMeansValue | src/map/hashtable.c:454-466 | an entry that is not being copied holds the value of its key |
| HashTables.CopyingStarts | src/map/hashtable.c:239-263 | a tagged live entry may be copied into the next table |
| HashTables.CopyingGrows | src/map/hashtable.c:269-276 | starting a nested copy keeps the copy under way possible |
| HashTables.CopyingSkips | src/map/hashtable.c:269-296 | a table with no room for the key, or with a dead entry for it, may be passed over |
| HashTables.CopyingInstalls | src/map/hashtable.c:278-286 | installing the key in the target keeps the copy possible |
| HashTables.CopyingEnds | src/map/hashtable.c:288-307 | the value moves, the old entry dies, and map, routing and counts hold again |
| HashTables.Chunk | src/map/hashtable.c:491-501 | the chunk a helper takes lies in the table |
| HashTables.HashMap.constructor | src/map/hashtable.c:620-627 | the empty map, ready for every operation |
| HashTables.HashMap.HtiLookup | src/map/hashtable.c:92-145 | the nested probe loops compute the specified search |
| HashTables.HashMap.ProbeBucket | src/map/hashtable.c:100-137 | the inner loop finds the key or a free entry of the bucket, or goes on exactly as the specified search |
| HashTables.HashMap.Count | src/map/hashtable.c:609-617 | the counts along the chain sum to the number of keys of the map |
| HashTables.HashMap.HtiStartCopy | src/map/hashtable.c:182-207 | unless there is a next one, appends a fresh table: twice as large if and only if the map has more values than half its entries, or the table more keys than three eighths; the chain stands for the same map |
| HashTables.HashMap.CopyInto | src/map/hashtable.c:265-307 | one round of the copy: done, or on to the next table |
| HashTables.HashMap.Transfer | src/map/hashtable.c:251-312 | the copy of a tagged entry terminates, also when it creates tables, and keeps the map |
| HashTables.HashMap.CopyEntry | src/map/hashtable.c:213-312 | copies an entry once, counts it once, and leaves the map unchanged |
| HashTables.HashMap.HelpCopy | src/map/hashtable.c:480-520 | keeps the map; copies the next chunk and moves the scan on by one, or copies the whole table once the scan has been around twice; answers true exactly when all entries are dead |
| HashTables.HashMap.CopyRange | src/map/hashtable.c:510-513 | the copying loop leaves every entry of its range dead and the map unchanged |
| HashTables.HashMap.InstallKey | src/map/hashtable.c:346-382 | installs the key without changing the map |
| HashTables.HashMap.FinishCopy | src/map/hashtable.c:387-400 | after a tagged entry the search may go on in the next table |
| HashTables.HashMap.Grow | src/map/hashtable.c:338-344 | after "no room" the search may go on in the next table, which exists |
| HashTables.HashMap.HtiCas | src/map/hashtable.c:328-435 | acts on the map, or leaves it and hands on to the next table |
| HashTables.HashMap.CasEntry | src/map/hashtable.c:402-435 | compare and set on a settled entry acts and answers as on the map |
| HashTables.HashMap.CasLoop | src/map/hashtable.c:580-583 | the retry loop terminates and acts as on the map |
| HashTables.HashMap.Cas | src/map/hashtable.c:552-586 | `ht_cas` acts and answers as on the map for every expectation, while copying and unlinking; a first table that is being copied is unlinked or its scan moves on, and it is unlinked when its entries are all copied or the scan has been around twice |
| HashTables.HashMap.Release | src/map/hashtable.c:543-549 | dropping finished tables keeps the map |
| HashTables.HashMap.Remove | src/map/hashtable.c:590-606 | `ht_remove` acts and answers as on the map |
| HashTables.HashMap.Get | src/map/hashtable.c:438-477 | `ht_get` answers as on the map and keeps it |
| HashTables.HashMap.TagEntry | src/map/hashtable.c:239-245 | a copy that stopped after tagging leaves the map unchanged |
| HarrisList.InsertWrite | src/map/list.c:232-237 | the insert CAS adds exactly its absent key and keeps the structure |
| HarrisList.MarkWrite | src/map/list.c:289-299 | the mark CAS removes exactly one key and keeps the structure |
| HarrisList.ValueWrite | src/map/list.c:263-271 | changing a value keeps set and structure |
| HarrisList.UnlinkWrite | src/map/list.c:118-137 | the unlink CAS changes no key, and takes a marked node out and retires it once |
| HarrisList.BetweenIsAbsent | src/map/list.c:161-175 | a link of an unmarked node that leads beyond a key means the key is absent |
| HarrisList.SetChanges | src/map/list.c:212-330 | an insert CAS adds its absent key, a mark CAS takes its key out, and no other step changes the set |
| HarrisList.RunSetChanges | src/map/list.c:212-330 | the same for every action of every run, calls and returns included |
| HarrisList.NotFoundWasAbsent | src/map/list.c:279-299 | whenever a call returns DOES_NOT_EXIST its key was absent at a moment inside the call |
| HarrisList.AbsentMoment | src/map/list.c:89-191 | what a search notes as absent was absent at a moment inside the call |
| HarrisList.ValueChain | src/map/list.c:248-306 | an update returns its predecessor and extends the history, the remover takes the last value, and from then on value and history are final |
| HarrisList.HistoryFinal | src/map/list.c:303-306 | over all runs: a node whose value was swapped out has none again, and its history never changes |
| HarrisList.OneRemover | src/map/list.c:289-306 | over all runs: a node has at most one remover |
| HarrisList.RemoverReturnsLast | src/map/list.c:303-329 | over all runs: the remover of a node returns the last value the node ever has |
| HarrisList.RemoverTook | src/map/list.c:279-329 | over all runs: what `ll_remove` returns is what this very call swapped out of a node with its key |
| HarrisList.CallHasOp | src/map/list.c:212-283 | over all runs: a pending call carries the arguments it was made with |
| HarrisList.InsertAdds | src/map/list.c:228-237 | a node is made exactly by a successful insert CAS, with the key and value of its call, which ends |
| HarrisList.RunInserts | src/map/list.c:228-237 | over all runs: a node that appears has the key and the value of a call of `ll_cas`, and that call ends with the same step |
| HarrisList.ValuesWereGiven | src/map/list.c:212-277 | over all runs: every value a node ever had was given for its key to an earlier call of `ll_cas` |
| HarrisList.RetireStep | src/map/list.c:118-137 | a node is retired exactly by a successful unlink CAS, and then the head does not reach it |
| HarrisList.Nears | src/map/list.c:89-330 | in every state the invariant allows, whatever other threads are in the middle of, a step of one thread alone brings its call nearer to its end |
| HarrisList.CasStepHonours | src/map/list.c:248-271 | a call of `ll_cas` writes exactly when its answer meets its expectation, if and only if it does not meet another value than a specific one it expects in the node it found; what it answers when it overwrites is what it overwrites |
| HarrisList.CasHonours | src/map/list.c:212-277 | over all runs: the expectation of a call is ignored exactly when it is a specific value and the node of its key has another one at the moment of the write; an overwriting call answers the value it overwrites |
| HarrisList.ExpectationIgnored | src/map/list.c:248-271 | a run in which a value is replaced although another one was expected |
| HarrisList.AnswerWasCurrent | src/map/list.c:212-277 | over all runs: whenever `ll_cas` returns a value, a node was in the set with its key at a moment inside the call, and had that value at a moment inside the call |
| HarrisList.FoundWasPresent | src/map/list.c:103-171 | over all runs: a node a call has found was in the set at a moment inside the call |
| HarrisList.SwapHadValue | src/map/list.c:249-274 | over all runs: the value a call compares with was the node's at a moment inside the call |
| HarrisList.AnswerIsStale | src/map/list.c:249-261 | a run in which a call that expects none answers with a value already swapped out |
| HarrisList.ListIsReachable | src/map/list.c:89-191 | the list is what the head reaches, and every unmarked node is in it |
| HarrisList.StepKeeps | src/map/list.c:89-330 | every step of every thread keeps the structure |
| HarrisList.RunKeeps | src/map/list.c:89-330 | successors ascend, marked links are final, and nodes are retired once and only after marking, in every run |
| HarrisList.LockFreeList.constructor | src/map/list.c:50-56 | the empty list |
| HarrisList.LockFreeList.Invoke | src/map/list.c:212-283 | a call begins, which keeps the invariant |
| HarrisList.LockFreeList.Finish | src/map/list.c:236-329 | a call returns its result, which keeps the invariant |
| HarrisList.LockFreeList.Advance | src/map/list.c:89-330 | any step of any pending call, which keeps the invariant; a node it makes has the key and value of the call |
| HarrisList.LockFreeList.Complete | src/map/list.c:89-330 | from wherever it and the others are, a thread that runs alone ends its call |
| Rcu.GracePeriod | src/runtime/rcu.c:50-94 | when an item is freed, every other thread was inside `rcu_update` after its deferral and nobody holds it |
| Rcu.GraceMoment | src/runtime/rcu.c:50-94 | over all runs, in terms of the steps alone: when an item is freed, every other thread has taken a step inside `rcu_update` while the item was in the queue |
| Rcu.HeldWereTaken | src/runtime/rcu.c:50-54 | over all runs: a thread holds exactly the references it took and did not drop |
| Rcu.DeferredWasHandedIn | src/runtime/rcu.c:78-87 | over all runs: the deferred items of a thread are exactly the arguments of its `rcu_defer_free` calls, in order |
| Rcu.FreesWhatWasHandedIn | src/runtime/rcu.c:68-87 | over all runs: what a thread frees is a prefix of what it handed in |
| Rcu.RunPostsInTime | src/runtime/rcu.c:88-94 | over all runs: the head is about to be posted exactly when ten items were deferred since the last time, and otherwise fewer than ten are unposted |
| Rcu.PassedByEveryone | src/runtime/rcu.c:55-66 | what may be freed was seen by every other thread |
| Rcu.OwnCellIsLeast | src/runtime/rcu.c:52-66 | no cell of a column lags behind the owner's |
| Rcu.RingOrder | src/runtime/rcu.c:52-75 | tail, own cell, earlier cells around the ring, last posted head, head |
| Rcu.HeadTravels | src/runtime/rcu.c:55-66 | after k updates in ring order the posted head is at the k-th thread |
| Rcu.RoundFreesAllPosted | src/runtime/rcu.c:50-76 | one round ending at the owner, with nothing in between, frees exactly what was posted before it |
| Rcu.LooseRoundFreesAllPosted | src/runtime/rcu.c:50-94 | over all runs: with deferrals and other updates interleaved at will, one update of each thread in ring order, each begun after the last ended, frees everything posted before |
| Rcu.RoundFreesHandedIn | src/runtime/rcu.c:50-94 | over all runs: after a round everything handed in before it is freed, in order, except the last nine items, or ten when the owner is just about to post |
| Rcu.LooseHeadTravels | src/runtime/rcu.c:50-94 | the head posted at the start, or a later one, is at the next thread when that one's update begins |
| Rcu.UpdatePasses | src/runtime/rcu.c:55-75 | whatever happens meanwhile, an update passes on at least what its cells held when it began, and frees as much of its own column |
| Rcu.RunGrows | src/runtime/rcu.c:50-94 | cells, posted heads and tails only grow, in every run |
| Rcu.PartlySteps | src/runtime/rcu.c:55-75 | progress of an uninterrupted update |
| Rcu.RunKeeps | src/runtime/rcu.c:50-94 | each cell has one writer, and items are freed once and in order, in every run |
| Rcu.Runtime.constructor | src/runtime/rcu.c:28-48 | the initial matrices and queues |
| Rcu.Runtime.RunStep | src/runtime/rcu.c:50-94 | any step, which keeps the invariant |
| Rcu.Runtime.DeferFree | src/runtime/rcu.c:78-88 | exactly the item given joins the queue, and the head is to be posted when the threshold is reached |
| Rcu.Runtime.Enter | src/runtime/rcu.c:50-54 | a thread enters `rcu_update` |
| Rcu.Runtime.Update | src/runtime/rcu.c:50-76 | `rcu_update` terminates, passes on every column but its own and frees up to its own cell |
| Hazard.HeldIsNotFreed | src/runtime/hazard.c:65-128 | a pointer validated in a slot is not freed while the slot keeps it, in every run |
| Hazard.ProtectedIsNotFreed | src/runtime/hazard.c:65-139 | over all runs, in terms of what clients do: from setting a slot and then finding its pointer still linked, until the slot is set again, the pointer is not freed |
| Hazard.SlotStays | src/runtime/hazard.c:130-139 | over all runs: a slot holds what was last set, and a validation stands until then |
| Hazard.GivenStays | src/runtime/hazard.c:65-128 | over all runs: a pointer given to `haz_defer_free` is from then on in the hands of that call, in the list of that thread or freed, and after the call in the list or freed |
| Hazard.FreedWasGiven | src/runtime/hazard.c:65-128 | over all runs: only what was given to `haz_defer_free` is ever in hand, on a list or freed |
| Hazard.DeferredIsSomewhere | src/runtime/hazard.c:109-127 | a deferred pointer is in hand, once in one list, or freed once |
| Hazard.FreedForever | src/runtime/hazard.c:115-119 | frees are never undone |
| Hazard.RunKeptWithinFound | src/runtime/hazard.c:109-122 | in every run a scan keeps no more than the hazards it found, and frees something when it met an empty slot |
| Hazard.FoundWasInSlot | src/runtime/hazard.c:79-106 | over all runs: what a scan found was in a slot at a moment inside the scan |
| Hazard.FullScanSawAll | src/runtime/hazard.c:79-106 | over all runs: a scan that found as many hazards as there are slots saw every slot in use |
| Hazard.NearsOrRescans | src/runtime/hazard.c:72-127 | every step brings a call nearer to its end, except that a check which kept the whole list starts over, with as many hazards found as there are slots |
| Hazard.NextChecked | src/runtime/hazard.c:111-113 | what a check frees is held by nobody |
| Hazard.RunKeeps | src/runtime/hazard.c:65-128 | the invariant in every run |
| Hazard.SearchHazards | src/runtime/hazard.c:43-52 | membership, both ways |
| Hazard.CollectHazards | src/runtime/hazard.c:79-94 | a scan without interference finds exactly the pointers in the slots, and never overflows |
| Hazard.CompactionSplits | src/runtime/hazard.c:109-122 | compaction loses nothing, keeps the hazards and frees the rest |
| Hazard.Compact | src/runtime/hazard.c:109-121 | the loop over the array keeps and frees exactly those, in order |
| Hazard.ChecksCompact | src/runtime/hazard.c:109-121 | the steps of a check do what the loop does |
| Hazard.Domain.constructor | src/runtime/hazard.c:36-36 | the initial lists |
| Hazard.Domain.Link | src/runtime/hazard.c:23-36 | a client links a new allocation |
| Hazard.Domain.SetHazard | src/runtime/hazard.c:130-139 | a client sets or clears a slot, that one only, which ends its claim on it |
| Hazard.Domain.Rely | src/runtime/hazard.c:130-139 | a client that has seen its pointer still linked may rely on the slot |
| Hazard.Domain.DeferFree | src/runtime/hazard.c:65-71 | a thread that unlinked a pointer calls `haz_defer_free` |
| Hazard.Domain.Advance | src/runtime/hazard.c:65-128 | any step of `haz_defer_free`, which keeps the invariant |
| Allocator.OnePlace | src/runtime/mem.c:148-250 | in every run a block is with a client, on its owner's list of its size, on one queue to its owner or in the hands of the thread freeing it: always one of these, never two |
| Allocator.BlocksStay | src/runtime/mem.c:148-327 | no block ever disappears |
| Allocator.LiveBlocksApart | src/runtime/mem.c:259-327 | no two blocks share a byte, in every run |
| Allocator.RunHandsOutUnheld | src/runtime/mem.c:259-327 | in every run what `nbd_malloc` returns was held by nobody and has the scale asked for, and no other block changes hands |
| Allocator.RunNoCommonLink | src/runtime/mem.c:199-233 | in every run the next stores of two threads are to different links |
| Allocator.PendingCanStep | src/runtime/mem.c:148-327 | in every run a pending call can take its next step: what it looks at is there |
| Allocator.IsReady | src/runtime/mem.c:148-327 | the invariant provides what the next step of any thread looks at |
| Allocator.RunKeeps | src/runtime/mem.c:148-327 | free lists and queues are well formed, in every run |
| Allocator.StepKeeps | src/runtime/mem.c:199-250 | every step of every thread keeps them |
| Allocator.PageKeeps | src/runtime/mem.c:303-326 | a new page keeps them |
| Allocator.FreeCallKeeps | src/runtime/mem.c:148-210 | the call of `nbd_free` keeps them |
| Allocator.BlockLargeEnough | src/runtime/mem.c:252-265 | a request of n >= 2 bytes gets at least n, and at the smallest scale above the minimum that does |
| Allocator.RequestsAreMet | src/runtime/mem.c:259-327 | over all runs: the block a request of n >= 2 bytes gets has at least n, whatever happens between the call and its return |
| Allocator.ServedSizes | src/runtime/mem.c:259-265 | the scale is within bounds exactly for requests from 2 bytes to the largest block |
| Allocator.RequestIsServed | src/runtime/mem.c:259-327 | over all runs: such a request is served: until its block is returned the thread is busy with it, with a block large enough once it has one |
| Allocator.RequestIsRefused | src/runtime/mem.c:261-265 | over all runs: any other request is refused and changes nothing |
| Allocator.LifeCycle | src/runtime/mem.c:148-327 | where each step leaves a block: from the client to its owner's list or by hand and queue to the owner, and from the list to a client again; no other step moves it |
| Allocator.RunLifeCycle | src/runtime/mem.c:148-327 | the same over all runs, with the blocks that appear: those of a new region, the first one handed out and the others free |
| Allocator.DrainedBeforeNewPage | src/runtime/mem.c:212-304 | over all runs: before a new page is mapped the free list is empty and each queue to the thread was down to one block at a moment inside the call |
| Allocator.Nears | src/runtime/mem.c:148-327 | in every state the invariant allows a step of one thread alone brings its call nearer to its end, or to asking for a region |
| Allocator.HeadersStay | src/runtime/mem.c:121-125 | a header that was written stays |
| Allocator.AlignedInside | src/runtime/mem.c:97-118 | the aligned region lies in the double mapping and the two trims are exactly the rest |
| Allocator.BlocksFill | src/runtime/mem.c:307-315 | the blocks fill the region |
| Allocator.BlocksApart | src/runtime/mem.c:307-315 | they follow each other without overlap |
| Allocator.BlocksInside | src/runtime/mem.c:307-315 | they lie inside the region |
| Allocator.NewBlock | src/runtime/mem.c:71-74 | all blocks of a page find its header |
| Allocator.SplitPage | src/runtime/mem.c:307-322 | the splitting loop builds the list of all blocks but the first, in increasing order |
| Allocator.Heap.constructor | src/runtime/mem.c:130-146 | `mem_init`: empty queues whose ends are the cells |
| Allocator.Heap.Malloc | src/runtime/mem.c:259-267 | `nbd_malloc` begins with blocks that are large enough, and refuses exactly a request of 0 bytes or above the largest block |
| Allocator.Heap.Return | src/runtime/mem.c:269-326 | `nbd_malloc` returns its block |
| Allocator.Heap.RunStep | src/runtime/mem.c:148-327 | any step, which keeps the invariant |
| Allocator.Heap.FreeBlock | src/runtime/mem.c:148-205 | `nbd_free` up to the first store to a queue |
| Allocator.Heap.TakeRegion | src/runtime/mem.c:303-326 | the end of `nbd_malloc` with a new region |
| Lifo.RunKeeps | src/lifo/clifo.c:69-119 | slot balance, one holder per BUSY slot, and conservation, in every run |
| Lifo.RunSomeoneProceeds | src/lifo/clifo.c:22-23 | in every run, whenever a thread is at a slot, some thread at it can proceed |
| Lifo.RunAtRest | src/lifo/clifo.c:69-119 | in every run, at rest exactly the slots below head are FULL and they hold what was pushed and not popped |
| Lifo.PoppedWasPushed | src/lifo/clifo.c:92-119 | no value is popped more often than pushed |
| Lifo.CallDoes | src/lifo/clifo.c:69-119 | over all runs: a push that reports success has pushed its argument exactly once since it began, a pop has popped exactly what it returns, and a refused call nothing, however often it lost its CAS |
| Lifo.RefusalWasRight | src/lifo/clifo.c:75-105 | over all runs: a push refuses only if the stack was full, and a pop only if it was empty, at a moment inside the call |
| Lifo.SpinsOrNears | src/lifo/clifo.c:69-119 | a thread spins on a slot's lock, or its step brings its call nearer to its end |
| Lifo.StepKeeps | src/lifo/clifo.c:69-119 | every step keeps the invariant |
| Lifo.StepConserves | src/lifo/clifo.c:84-115 | no step loses or duplicates a value |
| Lifo.OneHolder | src/lifo/clifo.c:22-23 | two threads never hold the same slot |
| Lifo.Stack.constructor | src/lifo/clifo.c:43-57 | the empty stack |
| Lifo.Stack.Call | src/lifo/clifo.c:69-119 | a thread calls push or pop, or returns from it |
| Lifo.Stack.Advance | src/lifo/clifo.c:69-119 | any step, which keeps the invariant |
| Lifo.Stack.Finish | src/lifo/clifo.c:82-118 | an operation nobody interrupts, from its CAS on |
| Lifo.Stack.Push | src/lifo/clifo.c:69-90 | without interruption a push appends, and refuses exactly when head is size - 1 |
| Lifo.Stack.Pop | src/lifo/clifo.c:92-119 | without interruption a pop takes the last value, and refuses exactly an empty stack |
| Fifo.PoppedInOrder | src/fifo/cfifo.c:55-105 | head <= sentinel <= tail, tail - head < bound, and the popped values are a prefix of the reserved ones, in every run |
| Fifo.HistoryGrows | src/fifo/cfifo.c:68-100 | the order of reservations is never revised |
| Fifo.PushDoes | src/fifo/cfifo.c:55-82 | over all runs: a push that reports success has published its argument at exactly one position reserved during the call, and one that reports failure has reserved none, however often it lost its CAS |
| Fifo.RefusalSawFull | src/fifo/cfifo.c:62-67 | over all runs: a push refuses only if the queue was full at a moment inside the call, or the consumer had gone past the tail it had loaded |
| Fifo.OvertakenRefuses | src/fifo/cfifo.c:62-67 | a run in which a push refuses on an empty queue |
| Fifo.PopDoes | src/fifo/cfifo.c:84-105 | over all runs: a pop adds exactly the value it returns to the popped ones, or nothing |
| Fifo.NullWasEmpty | src/fifo/cfifo.c:92-97 | over all runs: a pop returns NULL only if nothing was published and not popped at a moment inside the call |
| Fifo.SpinsOrNears | src/fifo/cfifo.c:55-82 | a producer waits for its turn to publish, or its step brings its call nearer to its end |
| Fifo.PopNears | src/fifo/cfifo.c:84-105 | every step of the consumer brings its call nearer to its end |
| Fifo.SomeonePublishes | src/fifo/cfifo.c:72-78 | while a reserved position is unpublished some producer can go on |
| Fifo.SlotsExclusive | src/fifo/cfifo.c:69-70 | over all runs: two producers in flight hold different slots, and neither that of a value still to be popped |
| Fifo.RunUsed | src/fifo/cfifo.c:50-102 | in every run `used` is exact when nobody is about to count, and exactly when it is below zero |
| Fifo.UsedBounds | src/fifo/cfifo.c:50-53 | over all runs: never above the bound; not negative while no push is between publishing and counting; within the size while no pop is between taking and counting, and exactly when above it |
| Fifo.UsedOvershoots | src/fifo/cfifo.c:79-102 | a run in which it is one above the size |
| Fifo.UsedDips | src/fifo/cfifo.c:79-102 | a run in which it is |
| Fifo.RunKeeps | src/fifo/cfifo.c:55-105 | the invariant, with the meaning of `used`, in every run |
| Fifo.PushKeeps | src/fifo/cfifo.c:55-82 | every step of a producer keeps it |
| Fifo.PopKeeps | src/fifo/cfifo.c:84-105 | every step of the consumer keeps it |
| Fifo.NotFull | src/fifo/cfifo.c:63-67 | the full test, made with an up-to-date tail, leaves room |
| Fifo.Queue.constructor | src/fifo/cfifo.c:26-43 | the empty queue with one spare slot |
| Fifo.Queue.CallPush | src/fifo/cfifo.c:55-82 | a producer calls push or returns from it |
| Fifo.Queue.CallPop | src/fifo/cfifo.c:84-105 | the consumer calls pop or returns from it |
| Fifo.Queue.AdvancePush | src/fifo/cfifo.c:55-82 | one step of a producer |
| Fifo.Queue.AdvancePop | src/fifo/cfifo.c:84-105 | one step of the consumer |
| Fifo.Queue.Push | src/fifo/cfifo.c:55-82 | without interruption a push terminates, appends, and refuses exactly a full queue |
| Fifo.Queue.Pop | src/fifo/cfifo.c:84-105 | without interruption a pop takes the oldest published value, if any |
| Skiplist.Bracket | src/map/unsafe_skiplist.c:99-126 | with nothing tall in between, a place is the last before the key's and its successor the first after |
| Skiplist.LinksBefore | src/map/unsafe_skiplist.c:204-212 | where links before the new node lead after an insertion |
| Skiplist.LinksBehind | src/map/unsafe_skiplist.c:204-207 | where its own links and those behind it lead |
| Skiplist.LinksDeleted | src/map/unsafe_skiplist.c:114-120 | where links lead after a removal |
| Skiplist.RelinkedAt | src/map/unsafe_skiplist.c:209-212 | which links an insertion changes |
| Skiplist.BypassedAt | src/map/unsafe_skiplist.c:114-120 | which links a removal changes |
| Skiplist.Grows | src/map/unsafe_skiplist.c:200-212 | after an insertion every level links its tall nodes, the keys are sorted and the map has the new entry |
| Skiplist.ShrunkLinks | src/map/unsafe_skiplist.c:217-237 | after a removal every level links its tall nodes |
| Skiplist.ShrunkMeans | src/map/unsafe_skiplist.c:217-237 | after a removal the map has lost exactly the entry |
| Skiplist.PairsAreMap | src/map/unsafe_skiplist.c:285-307 | the items iterated are exactly the entries of the map from the key on |
| Skiplist.AllPairsAreMap | src/map/unsafe_skiplist.c:285-307 | the items iterated from the start are exactly the entries of the map, and as many |
| Skiplist.PairsAscend | src/map/unsafe_skiplist.c:285-307 | in ascending order |
| Skiplist.HoldsIsIn | src/map/unsafe_skiplist.c:140-145 | a key is in the map exactly when it is at its rank |
| Skiplist.SkipList.constructor | src/map/unsafe_skiplist.c:61-68 | the empty map |
| Skiplist.SkipList.Walk | src/map/unsafe_skiplist.c:100-126 | one level of the search ends between the last node below the key and the next |
| Skiplist.SkipList.FindLevel | src/map/unsafe_skiplist.c:100-137 | and records both |
| Skiplist.SkipList.FindPreds | src/map/unsafe_skiplist.c:92-146 | at each level asked for, the last node below the key and its successor; and the node of the key if there is one |
| Skiplist.SkipList.Lookup | src/map/unsafe_skiplist.c:149-161 | answers as the map |
| Skiplist.SkipList.RandomLevels | src/map/unsafe_skiplist.c:35-47 | as tall as the specification says, within `high_water`, which grows by at most one and never passes 20 |
| Skiplist.Levels | src/map/unsafe_skiplist.c:35-47 | two thirds of the trailing zeros, at least 1, at most one more than any node has been |
| Skiplist.SkipList.SetNext | src/map/unsafe_skiplist.c:210-212 | one store to a link |
| Skiplist.SkipList.LinkIn | src/map/unsafe_skiplist.c:209-212 | links the new node at its levels |
| Skiplist.SkipList.NewNode | src/map/unsafe_skiplist.c:202-207 | a node with its own links set |
| Skiplist.SkipList.Insert | src/map/unsafe_skiplist.c:200-214 | adds the entry, in a node of the height asked for |
| Skiplist.SkipList.SetValue | src/map/unsafe_skiplist.c:183-190 | replaces the value |
| Skiplist.SkipList.Cas | src/map/unsafe_skiplist.c:170-215 | acts and answers as the map, for every expectation and every random word; a new node has the height of the random word, the others keep theirs |
| Skiplist.SkipList.UnlinkLevel | src/map/unsafe_skiplist.c:100-122 | one level of unlinking |
| Skiplist.SkipList.BypassHere | src/map/unsafe_skiplist.c:114-121 | leads past the node exactly where it is reached |
| Skiplist.SkipList.Unlink | src/map/unsafe_skiplist.c:227-228 | leads past the node at all its levels |
| Skiplist.SkipList.Remove | src/map/unsafe_skiplist.c:217-237 | acts and answers as the map; the other nodes keep their heights |
| Skiplist.SkipList.IterBegin | src/map/unsafe_skiplist.c:285-293 | the first item, or the first not below the key |
| Skiplist.SkipList.IterRest | src/map/unsafe_skiplist.c:295-307 | the items from there on, in order |
| Skiplist.SkipList.Count | src/map/unsafe_skiplist.c:82-90 | the size of the map |
| Sha1.SwapTurns | src/lifo/demo/sha1.c:100-101 | swapping the little-endian word gives the big-endian one |
| Sha1.MacroIsF | src/lifo/demo/sha1.c:106-111 | the round expressions are the functions of FIPS 180-1 section 5 |
| Sha1.SumsAgree | src/lifo/demo/sha1.c:106-111 | the sum of a round is TEMP |
| Sha1.R | src/lifo/demo/sha1.c:106-111 | renaming registers is moving them |
| Sha1.RollingNext | src/lifo/demo/sha1.c:103-104 | the word computed from the 16 is the next of the 80-word schedule |
| Sha1.RollingStep | src/lifo/demo/sha1.c:103-104 | and replaces the one no longer needed |
| Sha1.Blk | src/lifo/demo/sha1.c:94-104 | the schedule computed in place |
| Sha1.Mix | src/lifo/demo/sha1.c:152-172 | the 80 rounds |
| Sha1.Load | src/lifo/demo/sha1.c:131-143 | the block as words |
| Sha1.Transform | src/lifo/demo/sha1.c:128-183 | one block as in FIPS 180-1 section 7; it is overwritten with the last 16 words of the schedule, and nothing else is |
| Sha1.StoreBack | src/lifo/demo/sha1.c:131-135 | the bytes of the block are those of its words |
| Sha1.BytesOfWord | src/lifo/demo/sha1.c:243-246 | storing or printing a word and reading it back gives the word |
| Sha1.CountExact | src/lifo/demo/sha1.c:209-210 | the count is exact if and only if the update is shorter than 2^29 bytes or its low part carries |
| Sha1.LongUpdateMiscounted | src/lifo/demo/sha1.c:209-210 | an update that is miscounted |
| Sha1.CountStaysExact | src/lifo/demo/sha1.c:209-210 | short updates keep the count exact |
| Sha1.LengthIsCounts | src/lifo/demo/sha1.c:234-237 | the bytes of the two counters are those of the 64-bit length |
| Sha1.HashStep | src/lifo/demo/sha1.c:213-216 | one more block of the message |
| Sha1.Context.constructor | src/lifo/demo/sha1.c:187-196 | the initial state |
| Sha1.Context.Update | src/lifo/demo/sha1.c:200-225 | whatever the cut, full blocks are hashed and the rest is buffered; of the data only the whole blocks hashed in place are overwritten |
| Sha1.Context.Feed | src/lifo/demo/sha1.c:211-220 | the data go through the buffer block by block |
| Sha1.Context.Absorb | src/lifo/demo/sha1.c:212-213 | filling up a block and hashing it |
| Sha1.Context.Blocks | src/lifo/demo/sha1.c:214-216 | the loop over whole blocks |
| Sha1.Context.Pad | src/lifo/demo/sha1.c:238-241 | the padding loop ends, with just the zeros asked for |
| Sha1.Context.CountBytes | src/lifo/demo/sha1.c:234-237 | the length, most significant byte first |
| Sha1.Context.Final | src/lifo/demo/sha1.c:229-253 | the digest of the padded message, that of FIPS 180-1 when the count is exact; the context is wiped |
| Sha1.HashChunks | src/lifo/demo/sha1.c:200-253 | for every message under 2^64 bits and every cut into updates under 2^29 bytes the digest is that of FIPS 180-1 |

## Left out

- Collecting old update records and the reference counts of `active_` (`src/txn/txn.c:166-191` and `src/txn/txn.c:331-387`): they rely on `sl_cas` comparing a specific value, which it does not do.
- Transaction steps finer than those listed above; growing the `writes` array.
- The concurrent skiplist (`src/map/skiplist.c`): the marking protocol of the list at many levels.
- `ll_lookup`, which does not help, iterators and counting of the list; `ht_iter_*`; printing.
- String and user-defined key types, the tag bits in keys, `nstring.c`, `murmur.h`, and the dispatch in `map.c`.
- Hash table: shifts by scales above 32 are arithmetic here; the statistics fields are not modelled; races inside a single call are not split.
- The hazard-pointer build of the list, dynamic hazards and growing the pending list of `hazard.c`.
- Termination of the loop in `haz_defer_free` when every slot holds a pending pointer: it scans again until a client clears one.
- `RECYCLE_PAGES`, the debugging `memset` of freed memory, and `mem2.c`; the mask `& ~(size - 1)` is subtraction of the remainder.
- `nbd_malloc(1)`, where the count of leading zeros of 0 is undefined.
- Several consumers of the queue; a stack of size 0, for which `size - 1` wraps.
- The random word of `random_levels` with 32 zero bits, for which the count of trailing zeros is undefined.
- The 80 unrolled rounds of `SHA1_Transform` are a loop of 16 groups of five; big-endian machines and SHA1HANDSOFF.
- Wrapping of the 32-bit head and tail of the RCU queue, weak memory order, tracing, thread-local storage, and system calls.
- HarrisList.SetChanges: a returned value of an update is tied to the node's history, not to one point in time of the whole map.
