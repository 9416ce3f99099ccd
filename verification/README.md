# The Magalix agent, modelled in Dafny

This project models the parts of the Magalix agent in which most can go wrong between a value and
its delivery, and proves what they keep.

* **The outgoing pipe** (`client/pipe_store.go`, `client/pipe.go`). A store of pending packages keeps
  an indexed binary heap and one insertion-ordered lane per packet kind; it expires packages by count
  and by time and demotes packages that are retried. `StoreSpec.dfy` says what the store does without a
  heap, `PriorityQueue.dfy` and `PipeStore.dfy` are the concrete heap and store, in place and with
  mutable packages, proved against it. `StoreLaws.dfy`, `StoreRuns.dfy` and `StoreOrder.dfy` prove laws
  of single operations, of every run, and of stretches of runs. `CountPromise.dfy` says exactly what an
  Add drops, `PeekPromise.dfy` what two Peeks in a row return, and `ExpiryPromise.dfy` what happens to
  packages past their time. `Bypass.dfy` bounds how long a package can be overtaken. `PipeSystem.dfy`,
  `PipeMoves.dfy` and `Wakeup.dfy` put any number of clients and workers around the store as a step
  system; `Pipe.dfy` is the concrete pipe.
* **The auditor** (`auditor/`). `Policies.dfy` and `NewestWins.dfy` are about constraints and reference
  counted templates, `Audit.dfy` about matching and auditing one resource, `ResultsCache.dfy` about the
  two-level status cache, `BatchLaws.dfy` about what a batch of deliveries reports and forgets.
  `OpaAuditor.dfy` and `Auditor.dfy` are the concrete objects. `AuditLoop.dfy` is the step system with a
  history of everything handed over, `AuditMemory.dfy` ties that history to what was sent and says what
  is sent again.
* **Smaller parts**: entity keys and the memoised owner walk (`EntityKeys.dfy`, `Parents.dfy`), batches
  of audit results over a reused array (`ResultBatching.dfy`), batches of log lines
  (`LogBatching.dfy`), and the backoff loop (`Backoff.dfy`).

The store specification is generic in what identifies a package. The step systems use it with any
type; the concrete store instantiates it with its own objects. In the step systems a transition
assumes no invariant: from a state that breaks the invariant anything may follow, so the theorems
about runs establish the invariants themselves.

Inputs the code takes from outside are parameters: the clock (two readings inside an Add), the
sender's answer, whether policy code parses, the verdict of a policy, the listers, the parent of a
resource, and the order in which Go visits a map (any order). Times are integers, 0 being Go's zero
time. Integers are unbounded.

## Where code and documentation differ

The model follows the code.

* `client/pipe_store.go:42` says Peek returns the same package until it is acknowledged or expires.
  Peek also demotes, so another package can take over: `StoreOrder.PeekCanSwitch` shows it, and
  `PeekPromise.PeekTwice` says exactly when the promise holds.
* `client/pipe_store.go:15` says a package is not sent after its expiry time. A package found expired at
  the front is removed and counted, and still handed to the caller: `ExpiryPromise.LateHandOut` shows
  it. The contracts of `Peek` and `Pop` say exactly when, and `ExpiryPromise.LateAtMostOnce` proves that
  it happens at most once per package.
* `client/pipe_store.go:18` says a package expires if its expiry count of packages come afterwards. That
  is so (`CountPromise.CountPromiseIsKept`), but older packages that stay count as well, so it can expire
  when fewer have come, even none: `CountPromise.ExpiresEarly` shows it, and
  `CountPromise.AddDropsExactly` says exactly which packages an Add drops.
* `client/pipe.go:35-58` can lose a wake-up; `Wakeup` says exactly when, and for how long.
* `auditor/opa-auditor/opa-auditor.go:72-92` stores a constraint before its code is parsed, and lines
  135 and 148 read a template that may then be missing; `Policies.CountsKeptIffAdmissible` says exactly
  which deliveries are safe.

## Model

| member | source | states |
|---|---|---|
| `IndexedHeap.SwapUp` | client/pipe_store.go:205-214 | Swapping an out-of-order package with its parent leaves a heap whose only open place is the parent's. |
| `IndexedHeap.SwapDown` | client/pipe_store.go:205-214 | Swapping a package with its more urgent child leaves a heap whose only open place is the child's. |
| `IndexedHeap.FirstIsLeast` | client/pipe_store.go:223-225 | In a heap no package goes before the first one. |
| `IndexedHeap.PriorityQueue.Swap` | client/pipe_store.go:210-214 | Exchanges two positions and keeps every package's stored position right. |
| `IndexedHeap.PriorityQueue.Up` | client/pipe_store.go:75-76 | Sifting up from a place that may be too low restores the heap, keeps the same packages with right positions, and leaves the tail alone. |
| `IndexedHeap.PriorityQueue.Down` | client/pipe_store.go:143 | Sifting down says whether it moved; if it did the heap is restored, if not only the place below the parent is still open. |
| `IndexedHeap.PriorityQueue.First` | client/pipe_store.go:223-225 | Returns a queued package that no queued package goes before. |
| `IndexedHeap.PriorityQueue.Push` | client/pipe_store.go:216-221 | Adds exactly one package to a valid indexed heap and keeps it valid. |
| `IndexedHeap.PriorityQueue.Fix` | client/pipe_store.go:76 | Repairs the heap after the key at one position changed; at position -1, or at the top when no child goes before it, it changes nothing. |
| `IndexedHeap.PriorityQueue.Remove` | client/pipe_store.go:161 | Removal at an arbitrary position, where the substitute may sift either way, takes out exactly that package, gives it index -1 and keeps a valid indexed heap. |
| `IndexedHeap.PriorityQueue.Demote` | client/pipe_store.go:141-144 | Raising a package's priority number and fixing at its stored position keeps the heap valid, whether or not the package is queued, and moves nothing if the package is on top and still first. |
| `PipeStore.DefaultPipeStore.Add` | client/pipe_store.go:66-103 | The concrete store (heap, lanes, counter) after Add, and the number returned, are those of the specification; heap, stored positions, index -1 outside the queue and agreement of the two indexes are kept. |
| `PipeStore.DefaultPipeStore.Pop` | client/pipe_store.go:105-113 | Returns nil exactly on an empty store; otherwise the top of the heap, which nothing pending is more urgent than, and the store becomes the specified one; what it returns is past its time if and only if the top of the heap was. |
| `PipeStore.DefaultPipeStore.Peek` | client/pipe_store.go:115-146 | As Pop without the acknowledgement: the package at the top of the heap is handed out, past its time if and only if the top was, and then removed and counted; its retry and demotion are as specified; and it keeps the top, among ties too, whenever it is still a front. |
| `PipeStore.DefaultPipeStore.Ack` | client/pipe_store.go:148-158 | Takes a pending package out of both indexes; does nothing to one that already left. |
| `PipeStore.DefaultPipeStore.Remove` | client/pipe_store.go:160-174 | Removes a package from the heap by its stored position and from its lane by search, keeping the two indexes in agreement. |
| `PipeStore.DefaultPipeStore.Cut` | client/pipe_store.go:162-173 | The search loop takes out exactly the first occurrence of a package, or nothing if it is absent. |
| `PipeStore.DefaultPipeStore.RemoveAt` | client/pipe_store.go:176-183 | Removes from the heap by stored position and from the lane by the given position; both indexes lose the same package. |
| `PipeStore.DefaultPipeStore.Scan` | client/pipe_store.go:87-98 | The in-place scan over a lane that shrinks under it computes the recursive oldest-first filter. |
| `PipeStore.DefaultPipeStore.Len` | client/pipe_store.go:185-189 | The length of the heap is the number of pending packages. |
| `PipeStore.DefaultPipeStore.constructor` | client/pipe_store.go:191-198 | A new store is valid and empty. |
| `StoreSpec.RemoveKeeps` | client/pipe_store.go:160-183 | Taking a package out of both indexes keeps them in agreement. |
| `StoreSpec.JoinKeeps` | client/pipe_store.go:72-85 | Putting a package at the end of its lane and into the queue keeps the two indexes in agreement. |
| `StoreSpec.ScanStep` | client/pipe_store.go:89-98 | One iteration of the scan, expiring or advancing, preserves what the whole scan will keep, drop and count. |
| `StoreLaws.SweepSound` | client/pipe_store.go:89-98 | Whatever an Add keeps in its lane is in time and tolerates the lane at its final length. |
| `StoreLaws.SweepByTimeOnly` | client/pipe_store.go:89-98 | If every package tolerates the lane as it is, the scan is exactly the filter by expiry time. |
| `StoreLaws.SweepKeepsNewest` | client/pipe_store.go:78-98 | A lane of packages with one expiry count c keeps, of its newest c, exactly those in time, in order. |
| `StoreLaws.AddKeeps` | client/pipe_store.go:66-103 | Add keeps the indexes in agreement and every pending package's expiry count at or above the number pending of its kind. |
| `StoreLaws.PopTakes` | client/pipe_store.go:105-146 | A popped package is no longer pending, expired or not, and counts as removed exactly if expired; all other packages keep their fields. |
| `StoreLaws.AddReports` | client/pipe_store.go:87-102 | The number an Add returns is the removed counter plus the number of packages that were pending or just added and no longer are. |
| `CountPromise.SweepAt` | client/pipe_store.go:87-98 | The scan keeps the package at a position of the lane if and only if it is in time and its expiry count covers itself, the newer ones and those older ones that stay. |
| `CountPromise.AddDropsExactly` | client/pipe_store.go:78-98 | On any lane, with any mix of expiry counts: of the packages of its kind, the new one last, an Add leaves one pending if and only if it is not past its time and its expiry count, if positive, covers itself, the newer ones and the older ones that stay. |
| `CountPromise.AddKeepsNewest` | client/pipe_store.go:84-98 | If the kind has one expiry count c, the lane after an Add is the newest c of the old lane and the new package, less those past their time; all of the newest c if none is. |
| `CountPromise.NewPackageStays` | client/pipe_store.go:84-98 | In such a lane the new package is pending after its Add if and only if it is not past its time. |
| `CountPromise.CountPromiseIsKept` | client/pipe_store.go:18-20 | A package with expiry count c is gone once c newer ones of its kind are there; it goes earlier, being in time, exactly if older ones that stay make up the number. |
| `CountPromise.ExpiresEarly` | client/pipe_store.go:89-98 | A run of two Adds in which a package with expiry count 1 expires at once although nothing came after it. |
| `CountPromise.AddStampsOnlyZero` | client/pipe_store.go:72-74 | An Add changes no field of any package except a zero time of the added one. |
| `CountPromise.AddLeavesOtherKinds` | client/pipe_store.go:78-98 | Packages of other kinds stay pending, in the order they were. |
| `StoreRuns.RunsAreLawful` | client/pipe_store.go:66-183 | In every state of every run of Add, Peek, Pop and Ack: the indexes agree, expiry counts cover the number pending of the kind, priority is the initial one plus retries divided by the retry limit, the Adds' results plus the removed counter equal the number of packages that left by expiry, and every addition is pending or left in exactly one way. |
| `StoreRuns.ExpiryIsCountedOnce` | client/pipe_store.go:87-137 | An Add counts exactly the packages it drops, a Peek or Pop counts one exactly if the package it returns has expired, an Ack counts none: only packages expired at the front are both counted and returned. |
| `StoreRuns.StepsAreSound` | client/pipe_store.go:66-183 | From any sound store, every stretch of operations stays sound. |
| `StoreRuns.FieldsNeverChange` | client/pipe_store.go:66-146 | Over any stretch of operations a package keeps its kind, expiry, retry limit and, once it carries one, its time, also when it comes back after a failed send. |
| `StoreRuns.RetriesCountHandOuts` | client/pipe_store.go:139-141 | In every run the retries of a package are the number of Peeks and Pops that returned it. |
| `StoreRuns.PriorityCountsRounds` | client/pipe_store.go:139-144 | In every run its priority is the one it came with plus that number divided by its retry limit. |
| `StoreOrder.OrderedDrain` | client/pipe_store.go:105-158 | Two Pops with no Add between (Peeks, Acks and Pops are free) return packages in nondecreasing (priority, time), each measured just before its Pop. |
| `StoreOrder.TakenIsGone` | client/pipe_store.go:105-158 | A package popped or acknowledged is returned by no later Peek or Pop before it is added again. |
| `PeekPromise.PeekTwice` | client/pipe_store.go:41-44 | On the concrete store, ties included: a second Peek returns the same package if and only if it had not expired and was not demoted below another pending package. This is exactly when the documented promise of Peek holds. |
| `StoreOrder.PeekRepeatsIffStaysFirst` | client/pipe_store.go:121-146 | A peeked front may come first again if and only if it had not expired and no other package passes it by its demotion. |
| `StoreOrder.PeekCanSwitch` | client/pipe_store.go:139-144 | A run of two Adds from the empty store after which the documented promise of Peek fails although nothing ever expires. |
| `StoreOrder.ComingBackDropsNothingByCount` | client/pipe_store.go:78-98 | A package popped and added back with no addition of its kind between goes to the end of its lane, and the Add drops exactly what is past its time. |
| `ExpiryPromise.LateHandOut` | client/pipe_store.go:121-134 | A run in which a package added in time is handed out by a Pop after its expiry time, against the documented promise. |
| `ExpiryPromise.LateAtMostOnce` | client/pipe_store.go:66-146 | With a clock that does not go back, a package handed out past its time is never handed out again by any later Peek or Pop, even if it is added back. |
| `ExpiryPromise.LateExpiredSinceLastAdd` | client/pipe_store.go:87-98 | A package is handed out past its time only if it expired after the last Add of its kind that left it pending. |
| `Bypass.DebtPays` | client/pipe_store.go:139-144 | Popping a package that is at least as urgent as priority b lowers what it owes b by exactly one, whether or not it is demoted. |
| `Bypass.PaidOffIsFirst` | client/pipe_store.go:205-208 | The bound is zero exactly when every other pending package has a greater priority number than B, and then B is the only front. |
| `Bypass.FailedTurnExactly` | client/pipe.go:50-78 | A failed turn at any reading of the clock: of the popped kind exactly the packages past their time at the Add are gone, other kinds are as before, and only the popped package changes, by one retry. |
| `Bypass.TurnRestores` | client/pipe.go:50-78 | A failed pop, send and re-add with nothing past its time leaves the same packages pending and changes only the popped one. |
| `Bypass.TurnPays` | client/pipe.go:50-78 | Each failed turn for another package lowers B's bound by exactly one. |
| `Bypass.BoundedBypass` | client/pipe.go:50-78 | With one worker and every send failing, B is popped after at most the sum of what the other pending packages owe it, and n turns past B leave the bound n lower. |
| `PipeClient.Pipe.Send` | client/pipe.go:35-40 | Send stamps a fresh copy that carries the data, adds it as specified at a later reading of the clock, returns the number dropped and broadcasts once. |
| `PipeClient.Pipe.Work` | client/pipe.go:50-78 | One turn of a worker on the concrete store: nothing on an empty store, otherwise a front package is popped and, if the send failed, added back; no turn broadcasts. |
| `PipeClient.WorkUntil` | client/pipe.go:50-78 | On the concrete store with every send failing, the worker loop ends with a turn for B, the only one, which retries B once; it comes after at most the bound of the first state turns for other packages, and the pending set is as before. The clock is read at every turn. |
| `PipeSystem.NextConserves` | client/pipe.go:35-78 | Every step of clients and workers keeps each package in exactly one place. |
| `PipeSystem.RunsConserve` | client/pipe.go:35-78 | With any number of workers and any interleaving, in every reachable state every package ever sent is in exactly one of pending, in flight, delivered and dropped inside an Add, and no two workers carry the same package. |
| `PipeMoves.PlacesAreEarned` | client/pipe.go:35-78 | In every state of every run a package counts as sent exactly if a client handed it in, as delivered exactly if a worker sent it without an error, and as dropped exactly if some Add left it out. |
| `PipeMoves.NothingIsLost` | client/pipe.go:35-78 | Whatever a client handed in is from then on delivered, dropped, pending or being sent, and never both delivered and dropped. |
| `PipeMoves.TurnIsTwoMoves` | client/pipe.go:50-78 | A worker's take and the answer of the sender compose to the turn of the concrete worker loop, for both answers. |
| `PipeMoves.FailedSendReturns` | client/pipe.go:68-71 | A failed send with nothing past its time leaves the same packages pending, none delivered and none dropped, and no broadcast due. |
| `PipeMoves.SendIsTwoMoves` | client/pipe.go:35-40 | The two halves of Send compose to one Add of the store and one broadcast after which no worker waits. |
| `Wakeup.WatchedUnlessMisstep` | client/pipe.go:50-58 | A state with an awake worker or a due broadcast stays so, except if and only if the last worker up registers as a waiter on a non-empty store with no broadcast due. |
| `Wakeup.NoLostWakeup` | client/pipe.go:50-78 | If an empty Pop and the registration in Wait are one step, every reachable state with a pending package and no due broadcast has a worker about to pop or sending. |
| `Wakeup.LostOnlyByMisstep` | client/pipe.go:35-58 | At the code's interleaving, a run can lose a wake-up only through that step. |
| `Wakeup.RunIsWatchedIffNoMisstep` | client/pipe.go:35-78 | A run with at least one worker never loses a wake-up if and only if it does not contain that step. |
| `Wakeup.LostUntilNextSend` | client/pipe.go:35-58 | Once lost, the only possible step is another Send, whose Add makes the state watched again. |
| `Wakeup.StuckIffLost` | client/pipe.go:35-78 | With a package pending, the pipe has a move other than a new Send if and only if the wake-up is not lost. |
| `Wakeup.LostWakeupTrace` | client/pipe.go:35-58 | A four-step run with one worker that ends with a pending package, the worker asleep and no broadcast due. |
| `EntityKeys.PlainKeysDiffer` | kuber/utils.go:64-66 | Entities without a colon in namespace and kind have different keys. |
| `EntityKeys.CollidesIffNotPlain` | kuber/utils.go:64-66 | An entity shares its key with a different colon-free entity if and only if its own namespace or kind contains a colon. |
| `Parents.RootParent` | kuber/utils.go:144-156 | Returns nil for nil, otherwise the last controller of the chain. |
| `Parents.WalkEndsAtTop` | kuber/utils.go:98-142 | The end of a walk is a top-level controller: of an unwatched kind, or an object that no controller owns. |
| `Parents.WalkClimbs` | kuber/utils.go:85-142 | A walk climbs from the object through watched controllers. It fails exactly if the object where it stops has several owners or a watched controller that the listers lack, and the nested error tells how far up; otherwise its links name, in order, the controllers of all objects on the way. |
| `Parents.ChainStartsAtController` | kuber/utils.go:98-106 | A successful chain is empty if and only if the object has no controller; otherwise its first link is the object's controller. |
| `Parents.StoringAgrees` | kuber/utils.go:37-41 | Storing one object's chain leaves the store in agreement with the plain walk for all objects. |
| `Parents.GetParents` | kuber/utils.go:68-142 | For any object of the snapshot, held by the listers or not, the memoised walk returns what the plain walk returns, errors included; the store keeps agreeing with the plain walk and loses nothing; success is stored, failure leaves the store untouched. |
| `ResultsCache.AuditResultsCache.Put` | auditor/opa-auditor/audit-results-cache.go:13-20 | Changes the status of one (constraint, key) pair and of no other. |
| `ResultsCache.AuditResultsCache.Get` | auditor/opa-auditor/audit-results-cache.go:22-29 | Returns the status of the pair, or that there is none. |
| `ResultsCache.AuditResultsCache.RemoveConstraint` | auditor/opa-auditor/audit-results-cache.go:31-33 | Forgets every status of the constraint and no other. |
| `ResultsCache.AuditResultsCache.RemoveResource` | auditor/opa-auditor/audit-results-cache.go:35-39 | Forgets the key under every constraint, in whatever order they are visited, and nothing else. |
| `ResultsCache.WithStatus` | auditor/opa-auditor/audit-results-cache.go:13-20 | Every pair looks up as before except the one put. |
| `ResultsCache.WithoutConstraint` | auditor/opa-auditor/audit-results-cache.go:31-33 | Every pair looks up as before except those of the constraint. |
| `ResultsCache.WithoutResource` | auditor/opa-auditor/audit-results-cache.go:35-39 | Every pair looks up as before except those of the key. |
| `Policies.CountsKeptIffAdmissible` | auditor/opa-auditor/opa-auditor.go:64-157 | From right usage counts, a delivery neither crashes nor breaks them if and only if it is a deletion, is stale, is new with a known template or code that parses, or is newer and keeps its template. |
| `Policies.TalliedFinds` | auditor/opa-auditor/opa-auditor.go:147 | With right usage counts every stored constraint finds its template. |
| `Policies.RemoveCounts` | auditor/opa-auditor/opa-auditor.go:144-157 | With right usage counts a removal never crashes and keeps them right, deleting a template with its last user. |
| `Policies.OutcomeIs` | auditor/opa-auditor/opa-auditor.go:64-157 | When a delivery is accepted, refused, deletes or dereferences nil, told from the policies it meets. |
| `Policies.UpdateStores` | auditor/opa-auditor/opa-auditor.go:72-123 | A new or newer delivery is stored field by field, parsed or not; an older one and all other constraints are left as they are. |
| `Policies.UpdateShapesTemplate` | auditor/opa-auditor/opa-auditor.go:84-136 | After an accepted update the template has the update's code and text, or is the known one if the constraint is new; its usage grows by one exactly for a new constraint; no other template changes. |
| `Policies.DeleteTakesOut` | auditor/opa-auditor/opa-auditor.go:144-157 | A deletion takes out its constraint and one use of its template, the template with its last use, and nothing else. |
| `Policies.TemplatesAlwaysParse` | auditor/opa-auditor/opa-auditor.go:64-179 | After any series of deliveries every template is filed under its id and has code that parses. |
| `NewestWins.NewestIsStored` | auditor/opa-auditor/opa-auditor.go:64-142 | After any crash-free series of updates a constraint is stored exactly if delivered, as its newest delivery, the first among equally new ones, even if its code does not parse. |
| `NewestWins.RegularUpdatesAreSafe` | auditor/opa-auditor/opa-auditor.go:64-142 | Updates in which all code parses and an id keeps its template never crash and keep the usage counts right. |
| `NewestWins.OrderIsIrrelevant` | auditor/opa-auditor/opa-auditor.go:64-142 | Permuting or repeating such updates, with times distinct per constraint, crashes in no order and ends in the same constraints. |
| `NewestWins.OrderIsIrrelevantIfNoCrash` | auditor/opa-auditor/opa-auditor.go:64-142 | The same with code that does not parse, for orders that do not crash. |
| `NewestWins.BatchIsUpdates` | auditor/opa-auditor/opa-auditor.go:159-179 | A batch without deletions, given to a new auditor, does to the policies exactly what the series of updates does, crash included. |
| `OpaEngine.AdmissibleBatchIsSafe` | auditor/opa-auditor/opa-auditor.go:159-179 | A batch whose deliveries are admissible at their turn does not crash and keeps the usage counts right. |
| `BatchLaws.BatchCrashesIff` | auditor/opa-auditor/opa-auditor.go:135-148 | A batch dereferences nil if and only if some delivery, against the policies it meets, deletes or renews a stored constraint whose template is missing. |
| `BatchLaws.UpdatedAreAccepted` | auditor/opa-auditor/opa-auditor.go:159-179 | A batch that does not crash reports as updated, in order, the ids of exactly the deliveries that are accepted against the policies they meet. |
| `BatchLaws.FailedAreRefused` | auditor/opa-auditor/opa-auditor.go:168-171 | It reports as failed exactly the ids of deliveries whose code had to be parsed and does not. |
| `BatchLaws.BatchForgets` | auditor/opa-auditor/opa-auditor.go:155-175 | It forgets the statuses of exactly the constraints it updates or deletes. |
| `OpaEngine.OpaAuditor.UpdateConstraint` | auditor/opa-auditor/opa-auditor.go:64-142 | Both maps and the outcome are the specified ones: stored before parsing, template created, counted or replaced, or a nil dereference. |
| `OpaEngine.OpaAuditor.RemoveConstraint` | auditor/opa-auditor/opa-auditor.go:144-157 | Maps, outcome and cache are the specified ones; an unknown id changes nothing. |
| `OpaEngine.OpaAuditor.UpdateConstraints` | auditor/opa-auditor/opa-auditor.go:159-179 | The loop over a batch computes the fold of single deliveries, of which `BatchLaws` says what it reports, forgets and when it crashes; a crash cuts the batch short. |
| `OpaEngine.OpaAuditor.UpdateCache` | auditor/opa-auditor/opa-auditor.go:188-205 | Records the results' statuses in order under the key of each result's entity. |
| `OpaEngine.OpaAuditor.CheckResourceStatusWithConstraint` | auditor/opa-auditor/opa-auditor.go:184-187 | True exactly if the cached status of the pair is not this one. |
| `OpaEngine.OpaAuditor.RemoveResource` | auditor/opa-auditor/opa-auditor.go:181-183 | Forgets the resource's key in the whole cache. |
| `OpaEngine.OpaAuditor.Audit` | auditor/opa-auditor/opa-auditor.go:208-299 | Whatever the map order, one result per selected matching constraint, none for an exempt resource, and the failed evaluations collected. |
| `OpaEngine.OpaAuditor.Evaluate` | auditor/opa-auditor/opa-auditor.go:240-296 | The status follows the verdict, unset if the evaluation failed, and the result is the one that `AuditSays` describes field by field. |
| `Audit.MatchEntity` | auditor/opa-auditor/opa-auditor.go:317-365 | The three loops decide the declarative match: any listed kind, any listed namespace, any label pair with * as wildcard; empty lists match all. |
| `Audit.MatchLabels` | auditor/opa-auditor/opa-auditor.go:350-360 | The loop over the wanted pairs, in any order, finds a matching pair exactly if there is one. |
| `Audit.GetConstraints` | auditor/opa-auditor/opa-auditor.go:301-315 | The selection is all constraints for no ids, otherwise exactly the stored ones among the ids. |
| `Audit.AuditIsExact` | auditor/opa-auditor/opa-auditor.go:208-299 | The results are exactly the results of the picked constraints, one each. |
| `Audit.AuditForIdsIsFiltered` | auditor/opa-auditor/opa-auditor.go:208-315 | An audit for some ids has exactly those results of the full audit whose constraint is among the ids. |
| `Audit.TalliedIsAuditable` | auditor/opa-auditor/opa-auditor.go:251-264 | With right usage counts no audit looks up a missing template. |
| `Audit.AuditedIff` | auditor/opa-auditor/opa-auditor.go:208-365 | A constraint has a result if and only if the resource has no owner and is not a Pod or ReplicaSet with a parent, and the constraint is stored, asked for, and lists the kind, the namespace and some label of the resource wherever it lists any. |
| `Audit.AuditSays` | auditor/opa-auditor/opa-auditor.go:240-296 | A result is violating, compliant or without status exactly by the verdict of its template's policy, has a message exactly if violating, with the policy's text or the constraint's name; its other fields are those of its constraint, template, resource and root parent. |
| `Audit.FailedEvaluations` | auditor/opa-auditor/opa-auditor.go:287-289 | The failures an audit collects are exactly the constraints whose evaluation failed, each once. |
| `AuditLoop.CacheIsHistory` | auditor/auditor.go:137-221 | In every state of every run the cache holds status s for (constraint, key) exactly if the latest of hand-overs, accepted updates, deletions and resource deletions for that pair is a hand-over with status s. |
| `AuditLoop.CacheIsHistoryOfEntity` | auditor/auditor.go:137-221 | In every state of every run over entities without a colon in namespace and kind, the cache holds status s for a constraint and entity exactly if the latest event for that constraint and that entity is a hand-over with status s. |
| `AuditLoop.LatestByEntity` | kuber/utils.go:64-66 | As long as namespaces and kinds contain no colon, the history by key is the history by entity. |
| `AuditLoop.PlainRunsHavePlainHistory` | auditor/auditor.go:101-124 | Events about entities without a colon in namespace and kind leave only such entities in the history. |
| `AuditLoop.ChangeHandsOverNews` | auditor/auditor.go:174-200 | In runs over entities without a colon in namespace and kind, an entity change hands over exactly the results whose status differs from the latest one handed over for the same constraint and entity. |
| `AuditLoop.ChangeHandsOverNewsByKey` | auditor/auditor.go:174-200 | For any entities: it hands over exactly the results whose status differs from the latest one handed over for the same constraint and entity key, and all results are about the changed entity. |
| `AuditLoop.SafeIffAdmissible` | auditor/auditor.go:63-87 | From a safe state, exactly the inadmissible deliveries lead to a crash or to wrong usage counts. |
| `AuditLoop.AdmissibleRunsAreSafe` | auditor/auditor.go:137-221 | In runs with admissible deliveries no step looks up a missing template and the usage counts stay right. |
| `AuditLoop.RegularRunsAreSafe` | auditor/opa-auditor/opa-auditor.go:64-179 | The same, deletions included, for every list of events in which all delivered code parses and an id keeps its template. |
| `AuditLoop.UnparsedThenTouchedCrashes` | auditor/opa-auditor/opa-auditor.go:84-92 | A first delivery that does not parse is stored; deleting it, or a newer version that parses, then crashes. |
| `AuditLoop.RefusedVersionKeepsStatuses` | auditor/opa-auditor/opa-auditor.go:168-171 | A newer version that does not parse is stored while the cached statuses of its predecessor stay. |
| `AuditMemory.HistoryIsWhatWasSent` | auditor/auditor.go:137-200 | In every state of every run the hand-overs in the history are, one by one and in order, the results the audits handed over. |
| `AuditMemory.AuditIsKnown` | auditor/auditor.go:145-188 | After an audit the cache holds the status of every one of its results, sent or not, and every other pair is as before. |
| `AuditMemory.KnownIsNotRepeated` | auditor/auditor.go:179-193 | A status found by an audit is not handed over again by a later change of the same entity, as long as no event between concerns the constraint or the entity's key. |
| `AuditMemory.VoidedIsHandedOver` | auditor/auditor.go:174-203 | After an accepted update of its constraint, or a deletion of the resource, the next change of the resource hands over whatever it finds. |
| `AuditorEvents.BatchIsSteps` | auditor/opa-auditor/opa-auditor.go:159-179 | A batch does what its deliveries do as single steps. |
| `AuditorEvents.Auditor.HandleConstraints` | auditor/auditor.go:63-87 | A batch is received as a series of steps; an event is posted exactly if some delivery was accepted against the policies it met, with the ids of exactly those, in order: the initial event if and only if no constraint was stored before. The failed ids are those refused, and it crashes exactly if a delivery meets a missing template. |
| `AuditorEvents.Auditor.Filter` | auditor/auditor.go:179-187 | The filter loop keeps exactly the results that are news, in order. |
| `AuditorEvents.Auditor.OnEntityChange` | auditor/auditor.go:174-200 | Ignored before the sync; otherwise the resource is audited, exactly the results whose status was not cached are sent, and the cache then holds the status of every result; the history grows by what was sent and agrees with the cache. |
| `AuditorEvents.ChangeTwice` | auditor/auditor.go:174-200 | The same resource changed twice with nothing between: the second change sends nothing, in whatever order the constraints are visited. |
| `AuditorEvents.Auditor.AuditAndSend` | auditor/auditor.go:143-151 | One resource of a full audit: all results are sent, and the cache then holds the status of each; history, outbox and cache stay in agreement. |
| `AuditorEvents.Auditor.OnEntityDelete` | auditor/auditor.go:201-203 | The cache forgets the key of the resource under every constraint and nothing else; nothing is sent. |
| `AuditorEvents.Auditor.AuditAll` | auditor/auditor.go:137-153 | One step per resource, in order; each resource's results are recorded and sent unfiltered, and history, outbox and cache stay in agreement. |
| `AuditorEvents.Auditor.OnEntitiesSync` | auditor/auditor.go:207-212 | Sets the synced flag, then audits every resource, in order and for all constraints, and sends each one's results. |
| `ResultBatching.AuditResultsWorker.OnResult` | gateway/governance.go:101-107 | A result always fits the fixed buffer; batches sent plus buffer are the results received, in order; a batch leaves exactly when the buffer is full; earlier batches are untouched although the buffer is reused. |
| `ResultBatching.AuditResultsWorker.OnTick` | gateway/governance.go:108-112 | A non-empty buffer is sent as one batch, an empty one is not; earlier batches are untouched. |
| `ResultBatching.AuditResultsWorker.SendBatch` | gateway/governance.go:117-139 | The copying loop builds a batch of its own that holds the converted buffer in order. |
| `ResultBatching.AuditResultsWorker.constructor` | gateway/magalix-gateway.go:102 | Starts with an empty buffer of capacity 1000. |
| `LogBatching.PendingOfKindIsBounded` | client/pipe_store.go:78-98 | If every package of a kind is sent with expiry count c > 0, at most c of them are pending in any reachable state, under any interleaving. |
| `LogBatching.LogPackageStays` | client/logging.go:36-54 | A log package has expiry count 2, priority 9, retry count 4 and expires ten minutes after the flush; it is pending after its Add unless those have passed; the error says exactly that something was dropped by this Add or since the last one. |
| `LogBatching.LogWriter.Write` | client/logging.go:19-34 | The fifth line puts a fresh package with the five lines in the pipe, broadcasts once and reports drops; any other line is only buffered and the pipe is untouched. Between calls at most 4 lines are buffered, at most 2 log packages are pending, each of at most 5 lines, and the lines of the packages added, then the buffer, are the lines written, in order. |
| `LogBatching.LogWriter.SendLogs` | client/logging.go:40-53 | Adds a fresh package with the payload and the log constants to the pipe, which keeps at most 2 pending of at most 5 lines each and keeps this one pending unless its ten minutes have passed; broadcasts once, and fails exactly if packages were dropped. |
| `LogBatching.LogWriter.FlushLogs` | client/logging.go:36-54 | The whole buffer, even an empty one, leaves in one fresh package added to the pipe, which is pending unless its ten minutes have passed; a new buffer starts; drops are reported. |
| `LogBatching.LogWriter.Sync` | client/logging.go:56-59 | Whatever is buffered leaves in one fresh package added to the pipe; no line is lost or added; drops are reported. |
| `LogBatching.LogWriter.WorkBeside` | client/pipe.go:50-78 | A worker's turn on the same pipe keeps all bounds of the log writer and makes no further log package pending. |
| `LogBatching.LogWriter.SendBeside` | client/pipe.go:35-40 | A Send of another kind on the same pipe keeps all bounds of the log writer and makes no further log package pending. |
| `Backoff.WithBackoffLimit` | client/client.go:147-166 | Calls until first success or limit times; fails exactly if limit is positive and every call fails; does not sleep after the last call; with m the calls before it, total sleep is the backoff times 55 (m / 10) plus the triangular number of m mod 10. |
| `Backoff.SleptInUnits` | client/client.go:155-160 | Total sleep is the backoff times the number of units. |
| `Backoff.UnitsClosedForm` | client/client.go:155-160 | After m failures the units slept are 55 (m / 10) plus the triangular number of m mod 10. |

## Left out

- `PipeStore.DefaultPipeStore.Add`: a nil package, on which the code panics, and a package that is still pending, which the callers never add, are outside its precondition.
- `PipeStore.DefaultPipeStore.Ack`: packages that were never added are outside its precondition, because their zero index would name somebody else's position in the heap.
- `OpaEngine.OpaAuditor.Audit`: requires that selected matching constraints find their template; otherwise the code dereferences nil, which `AuditLoop` models as a crash. The random result id, and a policy message that is not a string, are not modelled.
- `Parents.GetParents`: requires acyclic ownership, without which the code does not return, one object per identity in the snapshot (the listers may lack some of them), and no colon in namespaces and kinds; the chain of controllers is an immutable value, and the text of errors is not modelled.
- `PipeClient.Pipe.Work`: logging and the sender are not modelled; the sender's answer is a parameter.
- `PipeClient.Pipe.Send`: takes the two readings of the clock inside Add as one; the first of them matters only for a package whose stamp is Go's zero time.
- `ResultBatching.AuditResultsWorker.SendBatch`: the conversion of one result is a parameter, and the packet's expiry time and other constants are not modelled.
- `LogBatching.LogWriter.Sync`: taken as atomic, although the code does not take the log mutex there.
- Go's mutexes: every store operation is one step because the store's mutex makes it one; a worker that wakes up and takes the condition's lock again is one step.
- Constraint updates that interleave with the inside of one resource's audit; the step system lets them come between the audits of any two resources.
- Templates are values in a map; the code holds them by pointer, but reaches them only through that map.
- Connection, authorization, encoding, the channel library, timers and process exit (client/connect.go, client/sender.go, client/auth.go, proto/).
- Kubernetes informers, observers and deltas (kuber/observer.go, kuber/kube.go, entities/entities.go); masking, flags and wiring (kuber/mask.go, utils/, main.go), which would add only easy members.
