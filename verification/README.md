# Verified model of stm-core

`stm-core` runs transactions optimistically over `TVar`s. A body reads and writes through a private
log; `commit` takes the locks of the logged variables in address order, validates what was read by
pointer comparison, writes back and wakes waiting threads; a body that ends in `retry` puts its thread
to sleep until a variable it read changes; and `or` tries a second branch when the first one retries.
This project models that engine and proves what it keeps over all programs, all stores and all
interleavings of any number of threads over any number of variables.

## How the model is laid out

The sequential part:

- `Boxes`, `LogVars`: a boxed value is a payload with the identity of its allocation, which is what
  pointer comparison sees; the five states of a log entry and the merge of two logs.
- `Programs`: a body is a deterministic tree (return, retry, fail, read, write, or). `Direct` is the
  reference meaning: one atomic run that updates a store, with left-biased `or` and rollback. `Along` is
  the same with every `or` replaced by the branch that a path names.
- `Engine`: `Exec` runs a body against its log. Loads are served by a fixed store or by a recorded
  sequence, so a suspended attempt is determined by its body and the loads it has made.
- `Validation`, `Observations`, `Sequential`, `Suspension`, `Attempts`, `OrLaws`: what the log validates,
  what it waits for, and how runs relate to the reference meaning.
- `Cells`, `Transactions`: the objects of the original as classes whose methods update them in place:
  `ThreadHandle`, `ControlBlock`, `VarControlBlock` and `Transaction`, with the loops of `combine`,
  `commit`, `wait_for_change`, `wake_all` and `set_dead`. `Transaction.Run` is proved to compute `Exec`.

The concurrent part:

- `Machine`: the step machine. A step of a thread is one load, one lock with its validation, the release
  of all read locks, one write-back with its release, one taking of a waiter list, one upgrade of a weak
  reference, one swap of `blocked`, one unpark, one release of a strong reference, one registration, one
  check, one look at `blocked`, one return from `park`, one `fetch_add`, one counter reset, one test of a
  list entry by a sweep, the end of that test, the end of the sweep, or one `write_atomic`. `history` and
  `stores` record the updates in the order in which committers release their read locks, at which moment
  each still holds every lock it took; the last store is the logical one, which is what the variables hold
  overridden by what committers have yet to write back.
- `StepLaws`: what a single step may change and when, told by its effect: park tokens, blocks, the duty to
  unpark, waiter lists, dead counters, variables and strong references. Later results are proved from these
  laws and not from the code of the steps.
- `History`, `CommitInvariant`, `CommitSteps`, `CommitUpdates`, `Serializability`: the invariant about
  locks, validation and the logical store, kept by each of the 28 kinds of step, and its consequences.
- `WaitInvariant`, `WaitSteps`, `WakeTheorems`: the same for waiting and waking.
- `Calls`: the course of a call: what follows a body that has ended, where an attempt is followed by another,
  and what a thread goes through in `wait_for_change`. `Delivery`: what whole runs deliver: one unpark per
  block, each list of a commit taken once, sweeps when the counter is full. `Progress`: deadlock freedom.
  `Termination`: attempts end.
- `Garbage`, `GarbageSteps`: how many dead waiters a list can hold.
- `Witnesses`: concrete runs of the machine that end where the code keeps less than its documentation says.

Interpreters take a recursion `depth`. An outcome that is not "out of depth" is the same at every larger
depth (`Programs.DirectDeeper`, `Suspension.Deeper`), and every result holds for all depths.

## Where the code promises more than it keeps

The model follows the code. Four places where its documentation or comments read stronger:

- `or` "still waits for `TVar`s in both functions" (stm-core/src/transaction/mod.rs:230): a merge drops
  or replaces an observation of the first branch exactly where the two logs disagree on the variable,
  that is, where the second branch wrote it blindly or read another version of it
  (`LogVars.CombineKeepsWaitIff`, `LogVars.CombineWaitsIffAgreement`; `OrLaws.BlindWriteLosesWait` and
  `OrLaws.NewerVersionLosesWait` are concrete bodies that then miss a change).
- `or` is not left-biased at commit, since observations of an abandoned branch are never validated
  (stm-core/src/transaction/mod.rs:374-376): `OrLaws.CommitsSecondBranch` is a concrete body, and
  `Serializability.LeftBiasedIff` says exactly when a commit is left-biased.
- `write_atomic` is "semantically equivalent" to a transaction (stm-core/src/tvar.rs:219) but wakes nobody:
  `WakeTheorems.WriteAtomicWakesNobody`, with a run in `Witnesses.SleepsThroughWriteAtomic` after which a
  thread sleeps although its body would return. `WakeTheorems.NoLostWakeUp` is the exact condition: with no
  wake-up on the way, a waiting thread's variable has changed if and only if it was written that way since
  the thread loaded it.
- `control` is not asked after a failed commit (stm-core/src/transaction/mod.rs:139-143), so it does not
  bound the number of attempts: a call ends only as `Serializability.HowCallsEnd` says, a failed validation
  starts over (`Serializability.FailedCommitStartsOver`), and `Witnesses.FailsUnasked` is a run in which
  that happens to a body that never gives `control` a say. What does bound the failures is
  `Serializability.ContentionBound`.

## Model

| member | source | states |
|---|---|---|
| LogVars.CombineKeepsWaitIff | stm-core/src/transaction/mod.rs:271-279 | after a single merge the log still waits on what the abandoned branch observed of a variable if and only if the two logs agree on that variable |
| LogVars.CombineWaitsIffAgreement | stm-core/src/transaction/mod.rs:228-232 | a merge never loses an observation of the surviving branch, and waits on everything the abandoned one observed if and only if agreement holds |
| LogVars.CombineKeepsCommit | stm-core/src/transaction/mod.rs:271-279 | merging an abandoned branch changes neither what commit will write nor what it will validate |
| LogVars.CombineAssociativeIff | stm-core/src/transaction/log_var.rs:93-105 | the two ways of merging three branches give the same log if and only if the middle one did not blindly write a variable that the first observed and the last did not touch |
| Programs.ForcedIff | stm-core/src/transaction/mod.rs:233-268 | running a body with its `or`s fixed to given branches is the left-biased run, branch by branch, if and only if every abandoned first branch blocks where it is tried |
| Programs.DirectIsAlong | stm-core/src/transaction/mod.rs:233-268 | the left-biased run is the fixed-branch run along the branches it takes |
| Engine.ReadKeeps | stm-core/src/transaction/log_var.rs:45-73 | reading through an existing entry returns the store as this transaction sees it, changes no pending write, and drops no check, including the entries that turn from obsolete to validated |
| Engine.WriteKeeps | stm-core/src/transaction/log_var.rs:76-90 | writing changes what the transaction sees of this variable to the new box and nothing else, and drops no check |
| Engine.WritePointwise | stm-core/src/transaction/mod.rs:205-225 | after a write the pending box is the new one, and what is observed and validated of every variable is unchanged |
| Engine.Replay | stm-core/src/transaction/mod.rs:179-279 | if everything the final log validates holds in some store, the run is, on that store, the atomic run of its surviving branches, wherever its loads were served from |
| Validation.ValidationExact | stm-core/src/transaction/mod.rs:179-268 | at every point of an attempt, whenever it is about to load and when it ends in whatever way, the log validates exactly what the starting log did plus the observations that the path taken so far has read through, each with the box it used, promotion of obsolete entries included |
| Observations.ExecGrows | stm-core/src/transaction/mod.rs:179-279 | along any run observations are kept, every observation comes from a load of the run, and pending boxes are ones this attempt allocated |
| Observations.WaitSet | stm-core/src/transaction/mod.rs:228-279 | if agreement held at every merge, the final log waits on every load made on every branch, with the identity observed there |
| Sequential.Faithful | stm-core/src/transaction/mod.rs:179-279 | a run whose loads all returned what a store holds is the left-biased atomic run on the store as the log sees it: same ending, same result, same writes |
| Suspension.Resume | stm-core/src/transaction/mod.rs:179-199 | once the load that a suspended body needs has been made, the body is still on the track of its recorded loads, and if it now ends it has used exactly these |
| Suspension.LaterLoads | stm-core/src/transaction/mod.rs:179-199 | loads made later do not change what a body does that does not need them |
| Attempts.SequentialAttempt | stm-core/src/transaction/mod.rs:123-161 | without interference an attempt ends as the reference meaning does, its log validates, and its writes produce the reference store |
| Attempts.AttemptReplays | stm-core/src/transaction/mod.rs:331-409 | a returned attempt is the atomic run of its surviving branches on any store where everything it validates holds, including the store it leaves |
| Attempts.UnchangedServes | stm-core/src/transaction/mod.rs:291-314 | if agreement held, a store that still holds everything the log waits for still holds everything that was loaded |
| Attempts.RetryReplays | stm-core/src/transaction/mod.rs:291-314 | if agreement held, the atomic run blocks again on any store that still holds everything the attempt waits for |
| Attempts.CurrentIsLeftBiased | stm-core/src/transaction/mod.rs:233-268 | if agreement held and everything observed is still there, a returned attempt is the left-biased atomic run |
| Attempts.OrFreeRun | stm-core/src/transaction/mod.rs:179-225 | a run of a body that uses no `or` takes no branches, whatever its loads return |
| OrLaws.RetryUnit | stm-core/src/transaction/mod.rs:233-268 | `retry` is a left and right unit of `or` in the reference meaning, for any continuation |
| OrLaws.EngineRetryLeft | stm-core/src/transaction/mod.rs:233-279 | `retry` is a left unit in the engine, from any log and whatever the loads return: backup, swap and merge leave the very log, allocations, loads and ending of the body and its continuation |
| OrLaws.EngineRetryRight | stm-core/src/transaction/mod.rs:233-279 | `retry` is a right unit in the engine: a body that returns or fails goes on as by itself; one that retries ends with its own loads, allocations and, at every variable, its own observation, so the thread waits for the same, while its writes and checks are gone |
| OrLaws.OrAssociative | stm-core/src/transaction/mod.rs:233-268 | `or` is associative in result and store for any continuation |
| OrLaws.EngineOrAssociative | stm-core/src/transaction/mod.rs:233-279 | on a fixed store, from any log whose observations that store still holds: ending, result and commit effect of the two associations agree |
| OrLaws.OrAssociativeLog | stm-core/src/transaction/mod.rs:271-279 | when agreement held, the two associations leave the very same log, loads and allocations, so they wait for the same variables, whatever the loads return |
| OrLaws.BlindWriteLosesWait | stm-core/src/transaction/mod.rs:274-277 | a concrete body that retries in both branches, waits for nothing, and would commit on a changed store |
| OrLaws.NewerVersionLosesWait | stm-core/src/transaction/mod.rs:274-277 | a concrete body that waits for the newer of two versions it read although with that version it would commit |
| OrLaws.CommitsSecondBranch | stm-core/src/transaction/mod.rs:374-376 | a concrete attempt that validates and commits its second branch on a store where the first would succeed |
| Sorting.InOrder | stm-core/src/tvar.rs:133-143 | a log is walked in strictly ascending address order and every variable is visited |
| Sorting.InOrderUnique | stm-core/src/tvar.rs:133-143 | there is only one such walk |
| Transactions.Transaction.Read | stm-core/src/transaction/mod.rs:179-199 | a read of a logged variable returns its entry's value and promotes it; a first read loads the box the variable holds and logs it |
| Transactions.Transaction.Write | stm-core/src/transaction/mod.rs:205-225 | a write logs a freshly allocated box |
| Transactions.Transaction.Combine | stm-core/src/transaction/mod.rs:271-279 | the loop computes the merge of the two logs |
| Transactions.Transaction.Run | stm-core/src/transaction/mod.rs:179-268 | the in-place interpreter leaves the log, allocations, loads and ending that the specification interpreter gives |
| Transactions.Transaction.RunOr | stm-core/src/transaction/mod.rs:233-268 | the same for `or` with its backup, swap and merge |
| Transactions.Transaction.Perform | stm-core/src/transaction/mod.rs:179-268 | a body run against the variables themselves leaves the log, allocations and ending that the specification interpreter gives on the store they show |
| Transactions.Transaction.Atomically | stm-core/src/transaction/mod.rs:135-161 | a whole attempt that nobody interferes with, body and commit, returns what the left-biased atomic run returns and leaves the variables as that leaves the store; the list of every variable that holds a new box has been taken once, the blocks on it that still exist are informed, exactly the threads of those that were blocked have got a token, and all other lists, blocks, tokens and counters are as before; one that retries or fails changes nothing, and one that retries leaves the very log of the specification interpreter to wait on |
| Transactions.Transaction.Acquire | stm-core/src/transaction/mod.rs:348-387 | locks and validates in address order, each lock taken above all that are held; succeeds if and only if every validated variable holds what was observed, and then holds exactly the locks the entries demand; otherwise holds none |
| Transactions.Transaction.WriteBack | stm-core/src/transaction/mod.rs:397-400 | exactly the written variables hold their pending boxes and no lock is left |
| Transactions.Transaction.WakeAll | stm-core/src/transaction/mod.rs:402-405 | the list of each written variable is taken once and no other; exactly the blocks on those lists that still exist are informed, and exactly the threads of those that were blocked have got a token |
| Transactions.Transaction.Commit | stm-core/src/transaction/mod.rs:331-409 | all or nothing: true if and only if the observations were current; on true the pending boxes are stored, every other value is as before, and waiters are informed; on false values, lists and counters are as before; no lock stays |
| Transactions.Transaction.RegisterAndCheck | stm-core/src/transaction/mod.rs:291-314 | the block is enlisted once with each observed variable in address order up to the first that has changed; the thread blocks if and only if there is none; the log is emptied |
| Transactions.Transaction.Bury | stm-core/src/transaction/mod.rs:319-325 | every enlisted variable is told of one more dead block, and those that had been told of 64 sweep their lists and count anew |
| Cells.ControlBlock.SetChanged | stm-core/src/transaction/control_block.rs:43-48 | the block is unblocked, and its thread gets a token if it was blocked |
| Cells.VarControlBlock.WakeAll | stm-core/src/tvar.rs:69-85 | the list is emptied; the blocks on it that still exist are informed and the others left alone; a thread gets a token if and only if one of its blocks on the list still exists and was blocked |
| Cells.VarControlBlock.Enlist | stm-core/src/tvar.rs:88-92 | the block is appended to the list |
| Cells.VarControlBlock.Retain | stm-core/src/tvar.rs:115 | keeps exactly the blocks that can still be upgraded, in order |
| Cells.VarControlBlock.SetDead | stm-core/src/tvar.rs:100-116 | counts one more dead block; when 64 were already counted the counter restarts and the list keeps exactly the blocks that can still be upgraded, in order |
| Cells.VarControlBlock.ReadRefAtomic | stm-core/src/tvar.rs:198-200 | returns the box the variable holds and leaves no lock |
| Cells.VarControlBlock.WriteAtomic | stm-core/src/tvar.rs:229-233 | replaces the box and leaves no lock; the waiter list is not touched |
| Serializability.StepKeepsCommitInv | stm-core/src/transaction/mod.rs:123-409 | every step of every thread keeps the commit invariant: lock exclusion and order, validation of locked observations, the logical store, the explained history and the charged failures |
| Serializability.ReachableCommitInv | stm-core/src/transaction/mod.rs:123-409 | the commit invariant holds in every reachable state |
| Serializability.Serializable | stm-core/src/transaction/mod.rs:331-409 | every commit of every interleaving, with any nesting of `or`, is at its place in the serial order the atomic run of its surviving branches, with the result it returned and the store its successors find |
| Serializability.StrictlySerializable | stm-core/src/transaction/mod.rs:331-409 | when no `or` of the attempt fell through, it is the atomic run of the whole body |
| Serializability.OrFreeSerializable | stm-core/src/transaction/mod.rs:331-409 | every commit of a body that uses no `or` is, at its place in the serial order, the atomic run of that body |
| Serializability.LeftBiasedIff | stm-core/src/transaction/mod.rs:374-376 | a commit is the left-biased atomic run, branch by branch, if and only if every first branch it abandoned blocks on the store at its place in the serial order |
| Serializability.SerializableLeftBiased | stm-core/src/transaction/mod.rs:374-376 | that is so when agreement held and everything it observed on any branch is still there |
| Serializability.RealTimeOrder | stm-core/src/transaction/mod.rs:331-409 | an update seen by some state precedes every commit recorded as begun after it, and keeps its place for ever |
| Serializability.CallsInRealTime | stm-core/src/transaction/mod.rs:123-161 | a call that has returned is in the history, and the commit of a call that begins after that comes later in the serial order |
| Serializability.HowCallsEnd | stm-core/src/transaction/mod.rs:137-161 | a step ends a call if and only if it is the last of a commit that has succeeded and woken the waiters, or the one by which `control` gives up; what other steps follow a body is `Calls.AfterTheBody` |
| Calls.AfterTheBody | stm-core/src/transaction/mod.rs:137-160 | a step that follows a body that has ended and is not the one by which `control` gives up starts the commit of its log if and only if it returned, wait_for_change on its observations if and only if it retried, and a new attempt with no loads and a new tag if and only if it failed |
| Calls.BodyGoesOn | stm-core/src/transaction/mod.rs:137-160 | whatever the ending, there is such a step |
| Calls.NewAttempt | stm-core/src/transaction/mod.rs:135-160 | within a call a step changes the attempt if and only if the body has failed, a validation has failed, or a wait is over, and then the new one has no loads |
| Serializability.WhenControlIsAsked | stm-core/src/transaction/mod.rs:145-150 | `control` can give a call up if and only if its body has ended without a result |
| Serializability.FailedCommitStartsOver | stm-core/src/transaction/mod.rs:139-160 | a failed validation leads to a new attempt of the same call, with an empty log, and is counted |
| Serializability.QuiescentStore | stm-core/src/transaction/mod.rs:393-400 | when no committer has anything left to write back, the variables hold the outcome of the whole serial order |
| Serializability.LoadsAreLogical | stm-core/src/transaction/mod.rs:187-194 | every load of an attempt that runs, commits or waits returned what the logical store held at that step, within the attempt |
| Serializability.CommittedLoadsAreLogical | stm-core/src/transaction/mod.rs:187-194 | so did every load of an attempt that has committed, not after its place in the serial order |
| Serializability.ReadIsLogical | stm-core/src/tvar.rs:184-200 | a read of a variable nobody has write-locked returns what the logical store holds now |
| Serializability.ReadsSeeWholeCommits | stm-core/src/transaction/mod.rs:393-400 | once a load by any thread has returned one box of a commit, no later load by any thread, of any variable, returns a box that the commit overwrote |
| Serializability.NoHalfCommit | stm-core/src/transaction/mod.rs:393-400 | the same of the moments of the logical store |
| Serializability.ContentionBound | stm-core/src/transaction/mod.rs:361-387 | a thread has failed to commit at most as often as other threads made non-empty updates |
| Serializability.FailureNeedsInterference | stm-core/src/transaction/mod.rs:361-387 | a validation fails only if another thread's update wrote the variable after this attempt had loaded it |
| History.IdentityMeansUnchanged | stm-core/src/transaction/mod.rs:367-382 | the logical store holds boxes of the same identity at two moments if and only if no update in between wrote the variable (no ABA) |
| History.InstalledOnce | stm-core/src/transaction/mod.rs:205-225 | every box is installed in at most one variable and at most once |
| CommitUpdates.AllLocked | stm-core/src/transaction/mod.rs:348-391 | a committer that has walked its log holds the write locks of exactly what it will write, everything it validated is in the logical store, and what it will overwrite is up to date |
| CommitSteps.LoadIsLogical | stm-core/src/tvar.rs:198-200 | a variable that nobody else has write-locked holds its logical value |
| WakeTheorems.StepKeepsWaitInv | stm-core/src/transaction/mod.rs:291-326 | every step of every thread keeps the invariant of waiting and waking |
| WakeTheorems.NoLostWakeUp | stm-core/src/transaction/mod.rs:291-326 | in wait_for_change, while a thread is not informed and no committer is yet to take the variable's list or to inform the block, a variable that it registered with and checked still holds what was observed if and only if nobody has written it outside transactions since it was loaded |
| Calls.WaitMoves | stm-core/src/transaction/mod.rs:298-317 | each step in wait_for_change: the block is put on the list of the next variable before that is looked at; the thread goes on to the next one if the variable holds what was observed and otherwise cleans up; it blocks when all have been found unchanged; it parks if it finds the block blocked, and otherwise cleans up |
| Calls.WhyWaitsEnd | stm-core/src/transaction/mod.rs:298-317 | a thread leaves wait_for_change only if its block has been informed, or the variable it registered with last does not hold what was observed |
| Calls.UnchangedWaits | stm-core/src/transaction/mod.rs:298-317 | an uninformed thread all of whose observations hold stays in wait_for_change with every step of any thread |
| Calls.CheckIsLogical | stm-core/src/transaction/mod.rs:305-309 | a check goes on if and only if the variable holds in the logical store what was observed |
| WakeTheorems.BareEndsIt | stm-core/src/tvar.rs:229-233 | after such a write the variable never again holds what was observed |
| WakeTheorems.SleeperSeen | stm-core/src/transaction/mod.rs:298-317 | a thread in `wait` has registered with and checked everything it observed, and each observation is one of its loads |
| WakeTheorems.RetrySound | stm-core/src/transaction/mod.rs:123-161 | if no wake-up is on the way, agreement held, and nothing observed was written outside transactions since it was loaded, running the waiting body atomically on what the variables hold now blocks again |
| WakeTheorems.RetrySoundOrFree | stm-core/src/transaction/mod.rs:123-161 | the same for bodies that use no `or`, without a condition on the run |
| WakeTheorems.WriteAtomicWakesNobody | stm-core/src/tvar.rs:229-233 | after `write_atomic` a waiting thread waits on, with no wake-up coming, although the variable no longer holds what it observed |
| Witnesses.SleepsThroughWriteAtomic | stm-core/src/tvar.rs:229-233 | a reachable sleeper and a `write_atomic` after which it sleeps on with no wake-up coming, although its body would return |
| Witnesses.SleepsThroughCommit | stm-core/src/transaction/mod.rs:271-279 | a reachable sleeper whose merge has lost what it waited for, and a finished commit after which it sleeps on with no wake-up coming, although its body would return |
| Witnesses.FailsUnasked | stm-core/src/transaction/mod.rs:139-143 | a reachable failed validation after which the call goes on with a second attempt, although every run of its body returns |
| WakeTheorems.ParkedIsUnparked | stm-core/src/transaction/control_block.rs:43-60 | a parked thread without a token that nobody is about to unpark has not been informed |
| WakeTheorems.WaitReturnsInformed | stm-core/src/transaction/control_block.rs:56-60 | `wait` returns if and only if exactly one swap has found the block blocked, stale tokens and spurious returns notwithstanding; that it does return then is `Calls.InformedLeaves` |
| WakeTheorems.OneWaker | stm-core/src/transaction/control_block.rs:43-48 | at most one thread ever finds a block blocked, and it has been found so if and only if it no longer is; that it is unparked at most once is `Delivery.OneUnpark` |
| Calls.InformedLeaves | stm-core/src/transaction/control_block.rs:56-60 | a thread in `wait` whose block has been informed, and that nobody is about to unpark, can take its next step out: by its token if it is parked, and otherwise to the cleanup |
| Delivery.OneUnpark | stm-core/src/transaction/control_block.rs:43-48 | no two unparks of a run are for the same block, and at no time have two threads to unpark the same one |
| Delivery.WakeMoves | stm-core/src/transaction/mod.rs:402-405 | a committer sets out to take the lists of exactly the variables it wrote; each is taken whole, is empty then and crossed off; it finishes when none is left and every block taken has been dealt with |
| Delivery.CounterCounts | stm-core/src/tvar.rs:100-113 | in any run the dead counter of a variable is the number of blocks announced to it since its list was last swept |
| Delivery.SweepsWhenFull | stm-core/src/tvar.rs:100-112 | a thread sets out to sweep a list if and only if it announces a block to it and at least 64 had been announced since the last sweep |
| StepLaws.LawsHold | stm-core/src/transaction/control_block.rs:43-60 | every step keeps the laws about effects: a token appears only by an unpark of a block of that thread and goes only in its park; the duty to unpark is taken up if and only if a swap finds its block blocked; a list changes only by registering, taking and sweeping and never under a sweep; a waker gets hold of the next block it took if and only if it still exists; only a write-back and `write_atomic` store anything |
| WakeTheorems.SweepSparesWaiters | stm-core/src/tvar.rs:112-116 | a sweep, whichever entry it tests, never removes a block whose thread is still inside `wait_for_change` |
| WaitSteps.WritesBackKeeps | stm-core/src/transaction/mod.rs:397-405 | storing a new value keeps the wait invariant, since the list of the variable is yet to be taken |
| WaitSteps.TakesListKeeps | stm-core/src/tvar.rs:69-78 | taking a list keeps it, since the blocks are in flight from then on |
| WaitSteps.UpgradesKeeps | stm-core/src/tvar.rs:76-84 | upgrading a taken block keeps it, since that fails only for one whose owner is gone |
| WaitSteps.SetsChangedKeeps | stm-core/src/transaction/control_block.rs:43-48 | informing a block keeps it: from then on it is not blocked, and its owner is unparked or about to be |
| WaitSteps.ProbesKeeps | stm-core/src/tvar.rs:115 | testing a list entry keeps it |
| WaitSteps.RegistersKeeps | stm-core/src/tvar.rs:88-92 | registering keeps it, in whatever state other committers are |
| WaitSteps.ChecksKeeps | stm-core/src/transaction/mod.rs:303-311 | checking after registering keeps it: what is found unchanged is watched from then on; which way the check decides is `Calls.WaitMoves` |
| Progress.NeedsHigher | stm-core/src/transaction/mod.rs:348-387 | whoever holds a value lock needs at most another one of a higher address, and never a waiter list |
| Progress.DeadlockFree | stm-core/src/transaction/mod.rs:348-405 | whenever a thread has anything to do, that is, a load, a commit, what the ending of its body demands, a wait-list operation, leaving a wait of which it has been informed, or `write_atomic`, some such thread can do it, even if every queueing writer, committer or caller of `write_atomic`, keeps new readers out, `control` never gives up and no park returns without reason |
| Termination.AttemptsEnd | stm-core/src/transaction/mod.rs:135-161 | no attempt goes on for ever: in an endless run a thread that takes step after step comes, from whatever moment on, to a step with which it begins a call or a new attempt, writes outside transactions, or returns from `park` |
| Termination.StepLeavesLess | stm-core/src/transaction/mod.rs:291-409 | every step within an attempt leaves its thread less to do: loads of a body of bounded depth, locks, write-backs, lists, blocks, checks, sweeps |
| Termination.OthersLeaveIt | stm-core/src/tvar.rs:88-116 | no step of another thread gives it more, in particular none makes a list longer that is being swept |
| Termination.LoadsBounded | stm-core/src/transaction/mod.rs:179-268 | a run makes at most as many loads as a body of its depth can have operations, and suspends only when it has used up the recorded ones |
| GarbageSteps.GarbageBound | stm-core/src/tvar.rs:94-116 | with N threads a waiter list never holds more than 64 + 3N blocks whose owners have announced them dead, each once |
| GarbageSteps.GarbageBoundAmong | stm-core/src/tvar.rs:94-116 | never more than 64 + 2N + k of them in a run in which no sweep starts while more than k others hold a reference to the entry they test; 64 + 2N if sweeps never overlap in that way |
| GarbageSteps.SweepLeavesFew | stm-core/src/tvar.rs:115 | in such a run a sweep leaves at most N + k blocks on the list, hence at most 2N in any run |
| GarbageSteps.FewUpgradable | stm-core/src/tvar.rs:76-115 | at any moment at most as many blocks can be upgraded as there are threads and sweeps that test an entry |
| GarbageSteps.SweptIsSmall | stm-core/src/tvar.rs:115 | a sweep that has come to the end of its list leaves at most as many blocks as the invariant allows it |
| Witnesses.KeepsThree | stm-core/src/tvar.rs:115 | one block per thread is not enough: a state of two threads, meeting the wait invariant, in which a sweep may keep three announced blocks because another sweep tests one of them |
| GarbageSteps.NotYetEnlisted | stm-core/src/transaction/mod.rs:303-304 | a block is not yet on the list it is about to be put on |

## Left out

- Transactions.Transaction.Atomically: stops at a retry, before waiting for a change, which nobody would make; the attempt's tag is one that no variable holds a box of, as fresh identities.
- Transactions.Transaction.Commit: describes a commit that nobody interferes with; what interference does to each of its steps is proved on the step machine.
- Transactions.Transaction.RegisterAndCheck: stops before `ControlBlock::wait`, whose loop around `park` ends only through another thread and is part of the step machine.
- WakeTheorems.RetrySound: needs agreement at every merge, for the reason shown by the two counterexamples.
- The attempt loop of `with_control` as a method: it need not end, so it exists as the steps of the machine (begin, rerun, give up, wait); the closure `control` is the free choice between them.
- Witnesses.KeepsThree: its state meets the wait invariant; a run to it, which has to fill two counters first, is not shown.
- Locks that are dropped together, all of them after a failed validation and all read locks after a successful one, are dropped in one step.
- Fairness and starvation, which the project disclaims, and opacity: an attempt that will not commit may have seen values of different moments.
- `TArc` and `TWeak`, thin wrappers over `TVar` whose claims are about reference counts.
- `retry`, `guard`, `unwrap_or_retry` and `optionally`: they only build bodies.
- `new_standalone` and `commit_standalone`: committing a kept log twice would install a box twice.
- The types behind `Any`: there is one value type.
- Weak memory ordering, and the insides of `parking_lot`, `thread::park` and `Arc`: steps are sequentially consistent, and exclusion of locks, park tokens, fresh identities and weak references are taken as their interface.
- Creating a variable inside a transaction: all variables exist from the start.
- Panics in bodies, user destructors, and the guard against nested transactions.
