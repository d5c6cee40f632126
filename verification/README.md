# Open Lambda worker: models and proofs

A Dafny model of the parts of the Open Lambda worker in which several goroutines share state,
and proofs of what holds in every run of them. There are five parts.

**Sandboxes** (`MemPool`, `Evictor`, `Sandboxes`, `SandboxTree`, `SandboxMemory`, `SandboxEvents`,
`SandboxShutdown`, `SandboxTheorems`, `SandboxOperations`, `SandboxProgress`, `SandboxLeak`). SOCK containers are
created, paused, unpaused, forked and destroyed by many goroutines, against one memory pool, one
evictor and one cgroup pool. `Sandboxes` is a step machine: a label is one step of one goroutine,
and a run is any sequence of enabled labels. A sandbox's mutex is its phase: every phase but
`Idle` means that a goroutine is inside a locked operation. The theorems in `SandboxTheorems`,
`SandboxOperations` and `SandboxProgress` are about every state that a run from start-up reaches. The loops of `memTask`
and of the evictor are also given as loops (`MemTask`, class `SOCKEvictor`), proved equal to the
functions the step machine uses.

**Dispatch** (`Dispatch`). Clients, the function task and its instances pass requests over
funcChan, instChan, doneChan and each request's own done channel; again a step machine.

**Zygotes** (`ZygoteTree`, `ZygoteHolds`, `ZygoteCounts`, `ZygoteTheorems`, `ZygoteProgress`). The
import cache's tree, its lookup, and the goroutines that get, use and put back the Zygotes of its
nodes, climbing to the parent node where a node has none.

**Packages** (`Packages`). The worklist of `InstallRecursive`.

**Kafka** (`KafkaClient`, `KafkaSum`). The LRU-cached client over a log with gaps, the consumer's
loop with seek-back, and the running-sum lambda behind it.

Some properties one might expect are false of the code. Each has a lemma with the failing case and
a lemma with the exact condition:

- Destroying every sandbox releases everything: false after a fork that fails once it has raised
  its parent's count (`ForkFailureLeaks`), true exactly otherwise (`AllReleasedIff`).
- Every accepted request is answered: an instance that has lost its sandbox drops the request it
  grabs next (`SecondLost`); this is the only step that loses one (`LostExactly`).
- No waiter that fits is left waiting by `memTask`: a message wakes at most one waiter
  (`QuietCanBeLost`, `LeftWaitingIff`).
- Each record is counted once: an invocation that fails outside the lambda's try block gets no
  seek header and is skipped (`LoseFirst`, `AllCountedIff`, `ExactlyOnceIff`).
- `InstallRecursive` adds nothing the request has: it compares raw names with normalised ones
  (`MisspelledTwice`, `NoRepeatIff`).
- The configuration check makes the evictor's free goal sound: it lets a zero memory limit
  through, on which the policy divides by zero, and negative ones (`ZeroLimitAccepted`,
  `CheckConfSuffices`).

## Model

| member | source | states |
|---|---|---|
| `MemPool.MemTask` | go/worker/sandbox/memPool.go:60-94 | the loop computes `Serve` of the message history, and stops at the first allocation larger than the pool, if there is one |
| `MemPool.HandleRequest` | go/worker/sandbox/memPool.go:74-92 | one message, in place on the task's variables, does what `Handle` says |
| `MemPool.TurnAccounts` | go/worker/sandbox/memPool.go:74-92 | one message never overdraws the pool, moves exactly what it answers, keeps the queue order, answers releases at once |
| `MemPool.TurnKeepsRequests` | go/worker/sandbox/memPool.go:74-92 | served plus still waiting is what waited before plus the message, as multisets |
| `MemPool.GrantsAreFifo` | go/worker/sandbox/memPool.go:60-94 | over any history the grants are a prefix, in order, of the allocations received, the rest waits in order, and the counter is the total plus all that was answered |
| `MemPool.AnswersReport` | go/worker/sandbox/memPool.go:74-92 | over any history the i-th answer goes to the i-th request served and reports what is free after it |
| `MemPool.PollsGrant` | go/worker/sandbox/memPool.go:82-92 | k polls grant exactly the first j waiters, j being where the polls, the queue or the memory run out |
| `MemPool.PollsDrain` | go/worker/sandbox/memPool.go:102-117 | if the first k waiters fit together, k zero-MB polls grant exactly those k |
| `MemPool.LeftWaitingIff` | go/worker/sandbox/memPool.go:74-92 | from any sound pool, after a message a waiter that fits is left waiting exactly when, with the message taken in, there is memory for the two oldest waiters together |
| `MemPool.QuietLostIff` | go/worker/sandbox/memPool.go:74-92 | from a pool in which no waiter fits, that happens exactly when a release has freed enough for the two oldest waiters |
| `MemPool.QuietCanBeLost` | go/worker/sandbox/memPool.go:82-92 | a history after which a waiter that fits is left waiting |
| `Evictor.ObserveValid` | go/worker/sandbox/evictors.go:124-173 | an event keeps every tracked sandbox on exactly one list, which is `evicting` or the queue of its saturated priority, and takes its own sandbox off `evicting` |
| `Evictor.QueueMeans` | go/worker/sandbox/evictors.go:54-60 | a tracked sandbox that is not being evicted is on queue 0 exactly at priority 0, on queue 1 exactly at 1, on queue 2 exactly at 2 or more |
| `Evictor.ObserveOrder` | go/worker/sandbox/evictors.go:81-97 | an event puts its sandbox at the back of the queue of its new priority, or off all lists on EvDestroy, and leaves all others in their order |
| `Evictor.ObserveFollows` | go/worker/sandbox/evictors.go:133-169 | for event sequences that sandboxes can send, no panic is reached and the priority is 2 per child plus one while unpaused |
| `Evictor.PanicsIff` | go/worker/sandbox/evictors.go:133-156 | the panics fire exactly on an EvCreate at a priority other than zero and on an EvPause or EvChildExit that would make it negative |
| `Evictor.TrackEnded` | go/worker/sandbox/evictors.go:158-160 | a well-formed event history has no event of a sandbox after its EvDestroy |
| `Evictor.GoalBounds` | go/worker/sandbox/evictors.go:202-206 | for any signs, the free goal lies between 1 and total/limit - 1 exactly when Go's quotient total/limit is at least 2 |
| `Evictor.FreeGoalBounds` | go/worker/sandbox/evictors.go:206 | the free goal lies between 1 and total/limit - 1 exactly when the pool holds two sandboxes |
| `Evictor.CheckConfSuffices` | go/common/config.go:399-405 | for every accepted configuration whose limit is not zero, the free goal has those bounds if and only if the limit is positive, or the pool is exactly twice a negative limit |
| `Evictor.ZeroLimitAccepted` | go/common/config.go:399-405 | a limit of zero, by which the policy divides, passes the check exactly for pools that are not negative and hold two installers |
| `Evictor.IdleCount` | go/worker/sandbox/evictors.go:199-224 | a pass evicts no more paused sandboxes than there are, and never lifts evictions in flight above eight |
| `Evictor.Policy` | go/worker/sandbox/evictors.go:198-242 | a pass never takes from queue 2, spawns one task per sandbox moved to `evicting`, and forces out a running sandbox only if it began with no paused sandbox, no eviction in flight and no room for one sandbox |
| `Evictor.PassExactly` | go/worker/sandbox/evictors.go:198-242 | a pass forces out the oldest running sandbox if and only if less than one sandbox fits, nothing is paused and nothing is in flight; its other evictions are the oldest paused ones in order, and it stops only when there are none, eight are in flight or a fifth of the pool beyond two sandboxes, plus one, is free; and what the lists are then |
| `Evictor.DecideValid` | go/worker/sandbox/evictors.go:198-242 | a pass keeps the lists consistent, and whatever it adds to `evicting` has a destroy task |
| `Evictor.SOCKEvictor.constructor` | go/worker/sandbox/evictors.go:53-75 | starts with empty queues |
| `Evictor.SOCKEvictor.MoveTo` | go/worker/sandbox/evictors.go:83-97 | moves a sandbox from the list it is on to the back of another, or off |
| `Evictor.SOCKEvictor.Handle` | go/worker/sandbox/evictors.go:128-172 | panics exactly when `Panics` says, else takes the view to `Observe` of it |
| `Evictor.SOCKEvictor.UpdateState` | go/worker/sandbox/evictors.go:124-173 | panics exactly when some event of the drained run would, else applies them all and keeps the lists consistent |
| `Evictor.SOCKEvictor.EvictFront` | go/worker/sandbox/evictors.go:177-195 | moves the oldest sandbox of the queue to `evicting` and spawns its destroy |
| `Evictor.SOCKEvictor.DoEvictions` | go/worker/sandbox/evictors.go:198-242 | the loop does what the closed form `Decide` says |
| `SandboxTree.DoLocal` | go/worker/sandbox/sock.go:228-334 | every single-sandbox step keeps the count equal to its own reference plus its children, and the phase consistent with count and cgroup |
| `SandboxTree.PairTree` | go/worker/sandbox/sock.go:331-417 | fork begin, fork end, childExit call and childExit return keep parent and child links and counts consistent |
| `SandboxTree.TreeStep` | go/worker/sandbox/sock.go:228-417 | every step of the worker keeps the tree of sandboxes consistent |
| `SandboxMemory.MemoryStep` | go/worker/sandbox/memPool.go:60-94 | every step keeps free memory plus what all sandboxes and Cleanup hold equal to the pool, and the requests under way equal to what the blocked goroutines asked for |
| `SandboxEvents.TruthStep` | go/worker/sandbox/safeSandbox.go:46-219 | every step keeps the events sent so far in agreement with each sandbox's state |
| `SandboxEvents.EvictsStep` | go/worker/sandbox/evictors.go:177-195 | every step keeps each sandbox on `evicting` on its way out, and the evictor's view in agreement with the events it has read |
| `SandboxShutdown.CgsStep` | go/worker/sandbox/cgroups/pool.go:100-167 | every step keeps each cgroup in exactly one place: task's hand, ready queue, one sandbox, destroyed |
| `SandboxTheorems.InvStep` | go/worker/sandbox/sockPool.go:92-201 | every step keeps all of the above together |
| `SandboxTheorems.MemoryConserved` | go/worker/sandbox/sockPool.go:92-112 | in every run free memory plus all holdings is the pool size, nothing is ever negative, and no request reaches memTask that it would panic on |
| `SandboxTheorems.RefCounts` | go/worker/sandbox/sock.go:266-349 | in every run the count is one while not destroyed plus one per child, never negative, and the cgroup is released exactly at zero |
| `SandboxTheorems.ReleasedAfterDescendants` | go/worker/sandbox/sock.go:279-334 | in every run a released sandbox has only released descendants |
| `SandboxTheorems.ReleasedOnce` | go/worker/sandbox/sock.go:291-303 | from any state the invariant allows, no run kills the cgroup of a released sandbox again |
| `SandboxTheorems.StrayedIff` | go/worker/sandbox/sock.go:331-376 | over every run, some sandbox counts a child that will never report its exit exactly when a fork has failed after the increment |
| `SandboxTheorems.AllReleasedIff` | go/worker/sandbox/sock.go:343-376 | when every sandbox is destroyed, everything is released if and only if the run has no fork that failed after the increment; then all memory is back |
| `SandboxLeak.ForkFailureLeaks` | go/worker/sandbox/sockPool.go:165-172 | a run in which a fork fails after the increment: both sandboxes are destroyed and 1 MB of 2 never returns |
| `SandboxTheorems.DrainsToTruth` | go/worker/sandbox/evictors.go:124-173 | reading the rest of the event channel cannot panic and gives the priorities that all events add up to |
| `SandboxTheorems.DelayedView` | go/worker/sandbox/safeSandbox.go:46-219 | in every run, also in the middle of operations, the evictor's priority with the queued events applied is 2 per forked child whose exit is not announced yet plus one from the announcement of an Unpause to the end of a Pause, and unpublished or dead sandboxes are not tracked |
| `SandboxTheorems.IdleView` | go/worker/sandbox/evictors.go:28-38 | with the sandbox's lock free, that is 2 per child plus one if unpaused |
| `SandboxTheorems.EvictorNeverPanics` | go/worker/sandbox/evictors.go:133-156 | in every run neither panic of updateState is reachable, the lists are consistent, and at most eight evictions are in flight |
| `SandboxTheorems.NothingAfterDestroy` | go/worker/sandbox/safeSandbox.go:67-118 | in every run no event of a sandbox follows its EvDestroy or precedes its EvCreate |
| `SandboxTheorems.NoStuckEviction` | go/worker/sandbox/evictors.go:158-195 | in every run each sandbox on `evicting` has a destroy goroutine still to run, or a destroy or an ignored destroy under way, or its EvDestroy or EvDestroyIgnored in the channel |
| `SandboxTheorems.EvictionPolicy` | go/worker/sandbox/evictors.go:198-242 | in every run a pass does exactly that to the view the evictor has and the free memory it was told, and takes nothing from queue 2 |
| `SandboxOperations.BoxChanges` | go/worker/sandbox/safeSandbox.go:78-219 | a step changes a sandbox only as a step of its own operation, the answer to its request, a step with its parent or child, or an eviction of it |
| `SandboxOperations.PauseEffect` | go/worker/sandbox/sock.go:228-249 | Pause with downsizing drops the limit to usage plus 1 MB if that is less, returns exactly the difference, and otherwise only pauses |
| `SandboxOperations.UnpauseAsks` | go/worker/sandbox/sock.go:252-260 | Unpause announces itself first and, with downsizing, asks for exactly the memory up to the normal limit |
| `SandboxOperations.UnpauseEffect` | go/worker/sandbox/safeSandbox.go:143-168 | then the sandbox runs with the normal limit, or is destroyed |
| `SandboxOperations.CreateEffect` | go/worker/sandbox/sockPool.go:92-200 | Create without a parent asks for its memory, takes a cgroup and ends published, running, with that limit and one reference |
| `SandboxOperations.EvictionRuns` | go/worker/sandbox/safeSandbox.go:78-118 | in every run an eviction goroutine starts to destroy a live sandbox if and only if it is forced or the sandbox is paused, and otherwise changes nothing but that it has to say so |
| `SandboxOperations.IgnoredSays` | go/worker/sandbox/safeSandbox.go:111-117 | in every run an ignored eviction sends EvDestroyIgnored next, and nothing else happens to the sandbox before |
| `SandboxOperations.TaskOrigin` | go/worker/sandbox/evictors.go:186-242 | in every run each eviction goroutine was spawned by an earlier pass: a forced one when that saw nothing paused, nothing in flight and less free memory than one sandbox needs, any other for a paused sandbox |
| `SandboxOperations.RunningDies` | go/worker/sandbox/evictors.go:226-237 | in every run a running sandbox starts to die only by a caller's Destroy or by a forced eviction from such a pass |
| `SandboxOperations.PollTellsFree` | go/worker/sandbox/memPool.go:115-117 | in every run the evictor's poll is answered with the memory free when memTask gets to it |
| `SandboxTheorems.CleanShutdown` | go/worker/sandbox/sockPool.go:218-229 | in every run no cgroup is destroyed twice or while in use, and when Cleanup has returned each one ever created was destroyed exactly once |
| `SandboxProgress.LocksAcyclic` | go/worker/sandbox/sock.go:325-334 | in every run a goroutine that waits for another sandbox's lock waits for an older sandbox |
| `SandboxProgress.NoDeadlock` | go/worker/sandbox/safeSandbox.go:78-219 | in every run before Cleanup, an operation in progress leads, along locks that are waited for and held, to a sandbox for which the very step it waits for can be taken and is no failure (a step of its own, or, while a channel it must send on is full or its request is queued, one of the task it is blocked on), or which is on memTask's waiting list |
| `SandboxProgress.CascadesTerminate` | go/worker/sandbox/sock.go:282-334 | over every run, operations and their release cascades take at most 19 steps per call, however deep the tree |
| `Dispatch.RequestsConserved` | go/worker/lambda/lambdaFunction.go:284-369 | in every run each accepted request is in exactly one place, outstandingReqs is instChan plus instance hands plus doneChan plus dropped, and an instance without reuse has no sandbox left when it would pause it |
| `Dispatch.AnsweredOnce` | go/worker/lambda/lambdaFunction.go:50-67 | in every run no request is signalled twice, and none that was dropped is signalled |
| `Dispatch.LostExactly` | go/worker/lambda/lambdaInstance.go:227-238 | in every run the dropped requests are exactly, in order, those at the front of instChan when an instance without a sandbox grabbed |
| `Dispatch.SecondLost` | go/worker/lambda/lambdaInstance.go:195-238 | without reuse, or after a failed round trip, a run in which the second of two queued requests is dropped |
| `Dispatch.NothingLost` | go/worker/lambda/lambdaInstance.go:137-248 | with reusable sandboxes and no failed round trip no run drops a request |
| `Dispatch.EveryRequestSettles` | go/worker/lambda/lambdaInstance.go:44-252 | from every reachable state with an instance not told to stop, the task and the instances can take only boundedly many steps on their own, and once they can take none every accepted request has been answered or dropped |
| `Dispatch.AllAnsweredIff` | go/worker/lambda/lambdaInstance.go:227-238 | once no more such steps can be taken, every accepted request has been answered if and only if no grab has discarded one |
| `Dispatch.EveryRequestAnswered` | go/worker/lambda/lambdaFunction.go:225-241 | if moreover sandboxes are reusable and no round trip failed, every accepted request has been answered |
| `Dispatch.NoOvertaking` | go/worker/lambda/lambdaInstance.go:48-50 | in every run the request an instance takes was accepted before all that are still in line |
| `Dispatch.TaskInOrder` | go/worker/lambda/lambdaFunction.go:284-343 | in every run the request the function task takes was accepted before all that wait for it and after all that wait for an instance |
| `Dispatch.KilledStops` | go/worker/lambda/lambdaInstance.go:203-225 | in every run an instance told to stop has stopped once no more steps can be taken, unless the function task is gone and doneChan is full |
| `Dispatch.ShutdownTellsAll` | go/worker/lambda/lambdaFunction.go:353-369 | in every run after the function's shutdown every instance has been told to stop |
| `Dispatch.KillTells` | go/worker/lambda/lambdaFunction.go:407-419 | taking an instance off the list tells it to stop |
| `ZygoteTree.ImportCache.RecursiveInit` | go/worker/lambda/zygote/importCache.go:125-133 | gives each descendant its parent and the packages of its ancestors in order, and touches nothing else |
| `ZygoteTree.NewImportCache` | go/worker/lambda/zygote/importCache.go:107-116 | refuses exactly the roots that import packages; otherwise AllPackages of each node is what its path from the root lists |
| `ZygoteTree.HasAll` | go/worker/lambda/zygote/importCache.go:341-352 | the nested search decides whether every package of the node is wanted |
| `ZygoteTree.Lookup` | go/worker/lambda/zygote/importCache.go:338-365 | fails exactly on an unwanted package of its own node, else finds what the descent without backtracking finds |
| `ZygoteTree.DescendDeepest` | go/worker/lambda/zygote/importCache.go:354-364 | every node on the way down is wanted, and no child of the last one is |
| `ZygoteTree.DescendLeftmost` | go/worker/lambda/zygote/importCache.go:354-362 | each node on the way down is its parent's first wanted child |
| `ZygoteTree.LookupFits` | go/worker/lambda/zygote/importCache.go:149-162 | with a root of no packages a node is always found, the lambda wants every package on its root path, and none of its children qualifies |
| `ZygoteHolds.CallerStep` | go/worker/lambda/zygote/importCache.go:168-330 | every step keeps a goroutine's chain of calls up the tree, its hold and its new Zygote consistent |
| `ZygoteCounts.StepFine` | go/worker/lambda/zygote/importCache.go:215-282 | every step changes a node's count with the goroutine's own hold, keeps a live Zygote paused exactly at count zero, and touches only that node's Zygotes |
| `ZygoteCounts.StepLocks` | go/worker/lambda/zygote/importCache.go:219-220 | a goroutine has a node's mutex exactly while it is in that node's slow path |
| `ZygoteTheorems.HoldCounts` | go/worker/lambda/zygote/importCache.go:44-46 | in every run a node's count is the number of goroutines that hold that very Zygote, and a live one is unpaused exactly when there are any |
| `ZygoteTheorems.NeverNegative` | go/worker/lambda/zygote/importCache.go:250-282 | in every run a put of the node's own Zygote finds a count of at least one |
| `ZygoteTheorems.TwoAttempts` | go/worker/lambda/zygote/importCache.go:174-206 | in every run a call never begins a third attempt and recurses to the parent at most once in each |
| `ZygoteTheorems.NewIsNew` | go/worker/lambda/zygote/importCache.go:176-203 | in every run a Zygote is called new exactly if it was made after the attempt began to get one, by this goroutine; the second attempt's is new and not the one that could not fork |
| `ZygoteTheorems.ForcedReplaces` | go/worker/lambda/zygote/importCache.go:222-227 | in every run a get of the second attempt leaves the old Zygote to its Destroy, the node empty and the goroutine in the slow path |
| `ZygoteTheorems.FirstGet` | go/worker/lambda/zygote/importCache.go:229-247 | in every run a get of the first attempt takes the node's Zygote, unpaused; fails and empties the node if that cannot be unpaused; takes the slow path if there is none |
| `ZygoteTheorems.PutLeadsTo` | go/worker/lambda/zygote/importCache.go:194-203 | in every run a fork that failed from an old Zygote is tried again at the same node, and any other outcome is what the call returns |
| `ZygoteTheorems.PutPauses` | go/worker/lambda/zygote/importCache.go:250-282 | in every run a put of a replaced Zygote does nothing, and the last put pauses the Zygote or, if that fails, leaves the node without one |
| `ZygoteTheorems.SlowFails` | go/worker/lambda/zygote/importCache.go:284-326 | in every run a slow path that fails returns the error, with the mutex free and the node empty |
| `ZygoteTheorems.CreateGives` | go/worker/lambda/zygote/importCache.go:182-192 | in every run a pool Create gives a Zygote for the waiting call's node, a leaf if nobody waits, or its error |
| `ZygoteTheorems.DeliverGives` | go/worker/lambda/zygote/importCache.go:316-329 | in every run the call on the parent node gives this node its Zygote, or its error is returned unchanged |
| `ZygoteTheorems.KillEmpties` | go/worker/lambda/zygote/importCache.go:135-146 | recursiveKill at a node kills its Zygote and empties it, and nothing else |
| `ZygoteTheorems.CleanupLeavesNone` | go/worker/lambda/zygote/importCache.go:118-146 | in every run, with no goroutine inside and all nodes emptied, every Zygote ever made is dead or being destroyed |
| `ZygoteTheorems.NoStrayZygote` | go/worker/lambda/zygote/importCache.go:222-247 | in every run a live Zygote is its node's, or is being destroyed, or is on its way to its node in the hands of the goroutine that has the node's mutex |
| `ZygoteProgress.BoundedRetry` | go/worker/lambda/zygote/importCache.go:168-330 | in every run a call for a node at depth d makes at most 2d + 3 pool Create calls and takes at most 8d + 7 steps, counted in the run itself |
| `ZygoteProgress.NoDeadlock` | go/worker/lambda/zygote/importCache.go:215-330 | in every run a goroutine inside ImportCache.Create leads, along node mutexes that are waited for, up the tree to one that can take a step which fails only if a sandbox has died |
| `Packages.NormalizeDecides` | go/worker/lambda/packages/packagePuller.go:74-79 | normalised names are equal exactly when the names are equal up to case and up to hyphen or underscore |
| `Packages.NormalizeTwice` | go/worker/lambda/packages/packagePuller.go:77-79 | normalising twice changes nothing |
| `Packages.NormalForm` | go/worker/lambda/packages/packagePuller.go:77-79 | what is normalised has no upper-case letter and no underscore |
| `Packages.NameOfMeans` | go/worker/lambda/packages/packagePuller.go:88-91 | the name of an install is what stands before its first "==", or all of it |
| `Packages.PinStripped` | go/worker/lambda/packages/packagePuller.go:88-91 | a pinned install is reduced to its name |
| `Packages.NameSet` | go/worker/lambda/packages/packagePuller.go:87-91 | collects exactly the names before the version pins |
| `Packages.PushDeps` | go/worker/lambda/packages/packagePuller.go:110-116 | adds the dependencies not seen before, each once, in order, and marks them seen |
| `Packages.InstallNext` | go/worker/lambda/packages/packagePuller.go:95-117 | one package: fails exactly if it cannot be installed, and then no closed set exists; else pushes its dependencies |
| `Packages.InstallRecursive` | go/worker/lambda/packages/packagePuller.go:82-120 | terminates; starts with the request, then lists each dependency when it first comes up, none twice and none the request names; the packages are the smallest set that contains the request and is closed under dependencies; fails exactly when there is no such set |
| `Packages.InstalledUnique` | go/worker/lambda/packages/packagePuller.go:82-120 | request and dependency graph fix the set of packages of the result |
| `Packages.MisspelledTwice` | go/worker/lambda/packages/packagePuller.go:89-112 | for a request with a name not spelled as normalised, a dependency graph on which the installation succeeds and every result adds that package again |
| `Packages.NoRepeatIff` | go/worker/lambda/packages/packagePuller.go:87-116 | no dependency graph makes it repeat a requested package if and only if the request has each of its names as normalised; otherwise on some graph every result does |
| `KafkaClient.LogClient.PollFetches` | go/worker/event/kafkaServer.go:34-36 | fails in place, or delivers the log's records from the position to some offset and moves there |
| `KafkaClient.LogClient.Seek` | go/worker/event/kafkaServer.go:38-42 | sets the position |
| `KafkaClient.CachedKafkaClient.constructor` | go/worker/event/cachedKafkaClient.go:41-47 | starts empty |
| `KafkaClient.CachedKafkaClient.Seek` | go/worker/event/cachedKafkaClient.go:50-52 | moves the abstract position to the offset and changes nothing else |
| `KafkaClient.CachedKafkaClient.TouchLRU` | go/worker/event/cachedKafkaClient.go:105-113 | moves a listed key to the back |
| `KafkaClient.CachedKafkaClient.Put` | go/worker/event/cachedKafkaClient.go:90-102 | keeps the cache exactly the most recently used keys in order of last use; panics exactly for a size below one |
| `KafkaClient.CachedKafkaClient.FromCache` | go/worker/event/cachedKafkaClient.go:62-66 | a hit is the log's record and counts as a use |
| `KafkaClient.CachedKafkaClient.PutAll` | go/worker/event/cachedKafkaClient.go:79-81 | caches every fetched record in order |
| `KafkaClient.CachedKafkaClient.PollFetches` | go/worker/event/cachedKafkaClient.go:55-83 | while seeking, a cached record is delivered alone and the position moves past it, without the underlying client; on a miss, and when not seeking, the underlying client is polled at the position; in all cases a contiguous run of the log from there, the contract of the plain client |
| `KafkaClient.CachedKafkaClient.ServeCached` | go/worker/event/cachedKafkaClient.go:62-67 | a hit: the log's record, and the seek target one further |
| `KafkaClient.CachedKafkaClient.PollUnderlying` | go/worker/event/cachedKafkaClient.go:78-82 | delivers what the underlying client does and caches all of it |
| `KafkaClient.Used` | go/worker/event/cachedKafkaClient.go:89-113 | one use takes the list of the n most recent keys to the list of the n most recent keys |
| `KafkaClient.CacheSize` | go/worker/event/cachedKafkaClient.go:95-101 | the list has no duplicates, has the cache's size, and is at most maxSize long |
| `KafkaClient.RecencyOrdered` | go/worker/event/cachedKafkaClient.go:104-113 | the list is ordered by last use |
| `KafkaClient.EvictsLeastRecent` | go/worker/event/cachedKafkaClient.go:95-99 | a full cache evicts the key whose last use is oldest |
| `KafkaSum.RunningSum.Handle` | examples/kafka-db-sum/f.py:97-198 | counts a record at most once, only past everything counted; a reply without a seek header leaves the record uncounted exactly when the invocation failed outside the try block |
| `KafkaSum.Replies` | examples/kafka-db-sum/f.py:109-191 | an invocation that meets no failure skips a counted record and counts a new number; one that does asks for the record again unless it cannot reply; the row changes exactly if the commit took effect |
| `KafkaSum.Delivered` | examples/kafka-db-sum/f.py:109-191 | one delivery keeps the row the exact sum, and either catches up with the record or seeks back to it |
| `KafkaSum.FollowsConsumed` | go/worker/event/kafkaServer.go:155-203 | whatever a consumer did, its invocations took the log's records in order, left none out, repeated only those asked for again, and the row is exact over all of them but the missed ones |
| `KafkaSum.NoFailureNoSeek` | examples/kafka-db-sum/f.py:175-191 | the consumer goes back only for an invocation that met a failure or a body without a number |
| `KafkaSum.LambdaKafkaConsumer.constructor` | go/worker/event/kafkaServer.go:150-152 | an empty table at the starting offset is exact |
| `KafkaSum.LambdaKafkaConsumer.ProcessMessage` | go/worker/event/kafkaServer.go:205-266 | invokes the lambda once for this record and returns the seek it asks for |
| `KafkaSum.LambdaKafkaConsumer.ProcessNext` | go/worker/event/kafkaServer.go:196-199 | one invocation for the next record; on a seek the position goes back to it |
| `KafkaSum.LambdaKafkaConsumer.ProcessBatch` | go/worker/event/kafkaServer.go:186-200 | handles the records of a poll in order, all of them or up to the first one wanted again, to which it seeks |
| `KafkaSum.LambdaKafkaConsumer.ConsumeLoop` | go/worker/event/kafkaServer.go:155-203 | over any number of polls, with any failures, replays and cache evictions, total and count are exact over the records up to last_offset except those missed outside the try block; if no invocation fails there, exact over all of them |
| `KafkaSum.CountedOnce` | examples/kafka-db-sum/f.py:119-144 | no record is counted by two invocations |
| `KafkaSum.LostMeans` | examples/kafka-db-sum/f.py:119-132 | a missed record is never counted, by an earlier or by a later invocation |
| `KafkaSum.WholeLogOnce` | examples/kafka-db-sum/f.py:119-144 | if no invocation failed outside the try block, a consumer past the whole log has summed and counted each record once |
| `KafkaSum.AllCountedIff` | examples/kafka-db-sum/f.py:71-111 | everything handed out is counted if and only if no invocation failed outside the try block before its record was counted, and the total falls short by exactly the numbers of the records for which one did |
| `KafkaSum.ExactlyOnceIff` | examples/kafka-db-sum/f.py:71-111 | the same for the records up to last_offset |
| `KafkaSum.LoseFirst` | examples/kafka-db-sum/f.py:71-111 | a consumer of two records whose first invocation fails outside the try block: it gets past both and has counted one |

## Left out

- Sandboxes, Dispatch and ZygoteHolds model goroutine code as steps over values instead of methods that update objects; update in place and aliasing of Go objects are not captured there.
- In those step machines a stretch of code under one lock is one step up to and including its next channel operation; a goroutine that blocks there holds its locks.
- Cgroup files, mounts, seccomp, processes, the fork protocol and HTTP are only their success or failure; panics on failing system calls are not modelled.
- Features.Reuse_cgroups is off: the recycled channel is not part of this model.
- A sandbox asks for at least 1 MB and at most the pool; asking memTask for more panics, as `MemTask` states.
- The installer's memory limit enters only through the configuration check.
- The package installer's own sandboxes, and which module names are pre-imported, are not modelled.
- SandboxProgress.NoDeadlock: says nothing about the time after Cleanup was called, because Cleanup requires that all sandboxes are already destroyed.
- SandboxTheorems.ReleasedOnce: starts from any state of the invariant rather than from start-up, which is more general.
- KafkaSum.LambdaKafkaConsumer.ConsumeLoop: the number of fetch errors is not part of its contract, because which polls fail is up to the broker.
- KafkaSum.RunningSum.Handle: an invocation that dies inside the try block before it commits counts as one that failed outside it, because the reply and the row are the same.
- KafkaClient.LogClient.PollFetches: models the Kafka broker as a fixed log of one partition; new records are those a poll has not yet delivered.
- Dispatch does not model autoscaling, code pulling, the answers' contents, or the bounded channel to the cleanup goroutine of LambdaFunc.Task.
- Dispatch.EveryRequestSettles: needs the function task running and one instance not told to stop; after a function's shutdown queued requests stay unanswered.
- Kafka group rebalancing, offset commits, consumer restart, several partitions, and the lambda's reset route.
- Packages.NormalizeDecides: lower-cases ASCII letters only.
- Packages.InstallRecursive: the outcome of each installation is a fixed table; caching and concurrent installation of packages are not modelled.
- ZygoteTree.Lookup: nodes are numbers, parents before children, instead of pointers.
- Integers are unbounded; Go's integer division is modelled where operands can be negative.
- Docker sandboxes, the boss, cloud virtual machines, the lambda store, the command line and configuration parsing.
