# dyna incremental-maintenance core, in Dafny

This project models the bookkeeping that keeps the dyna runtime consistent while a
program is edited. Every piece is sequential and in memory:

- **the work agenda** (`Agenda`): a first-in first-out queue of tasks that never holds two
  equal tasks. Its listeners are notified each time the queue drains.
- **the term registry** (`Context`, after `SystemContext`): the layered per-term maps
  (as defined, as optimized, as memoized, as compiled) and the order in which a lookup
  consults them. It also covers:
  - the assumption that wraps a lookup's result, and the rotation of assumptions when a term changes;
  - `define_term`, `delete_term` and `add_to_term`, whose branch-map merge appends;
  - interning of merged and compiled expressions;
  - the emptiness oracle `check_basecases`;
  - the decision logic of `_optimize_term`.
- **memo tables** (`Memos`): the key projected on the supported positions, and compute-once
  with a sentinel that detects re-entry. Also the run/skip gate of the two memo readers and
  the distinct-value iterator.
- **the safety planner** (`SafetyPlanner`): the mode cache with its seed, guess and reuse
  rules, and the recompute that schedules dependents. It also has a last-in first-out
  worklist and the abstract boundness walker, iterated to a fixed point.
- **builtin mode tables** (`Builtins`):
  - `infer_modes` closes a table upward;
  - `moded_op` makes the deterministic and nondeterministic tables disjoint;
  - `check_op`, `add`, `abs` and `not` are built on these.
- **aggregator combine rules** (`Aggregators`): saturation signalling, last-line-wins for
  `:=`, and the line counter.

R-expressions form a closed datatype of node kinds (`RExprs`). The engine's operations
become function-typed parameters whose results the model takes as given: `saturate`,
`rename_vars`, `run_optimizer`, `possibly_equal`, `isEmpty` and the planner's `get_rexpr`.
An assumption is a cell in an arena, with a validity flag and an ordered list of
trackers, addressed by position. The registry's methods are stated against pure
functions of the old state (`Rotated`, `Lookup`, `AddOutcome`, `OptimizeRunOf`, …), and
the lemmas beside those functions prove what the source promises about them.
Unbounded loops with no variant in the source take a `fuel` bound:
- `Agenda.run`;
- the planner's `_process_agenda`;
- the planner's `__call__`.

The planner's inner fixed-point loop in `_compute_R` is proved to terminate.

## Model

| member | source | states |
|---|---|---|
| Agenda.Pushed | dyna/agenda.py:11-15 | push appends t only when it is not already pending: the old queue is a prefix, t is pending afterwards, membership is old ∪ {t}, no task is ever queued twice, and the queue grows by one exactly when t was absent |
| Agenda.PushAll | dyna/agenda.py:11-15 | pushing a list in order keeps the old queue as a prefix |
| Agenda.PushAllContents | dyna/agenda.py:11-15 | after pushing a list, a task is pending exactly when it was pending before or is in the list |
| Agenda.PushAllDistinct | dyna/agenda.py:11-15 | pushing a list never queues a task twice |
| Agenda.Notified | dyna/agenda.py:31-32 | the listeners, notified in order, only append to the queue and never introduce a repeat; what a listener pushes may depend on the position of the notification in the run, as a stateful closure does |
| Agenda.RunFirst | dyna/agenda.py:26-28 | running the front task takes it off the queue and only appends what it pushes after the rest of the queue |
| Agenda.Step | dyna/agenda.py:23-32 | a task runs only from the front of the queue, and the rest of the queue stays in front of what it pushes; the listeners are notified only when the queue is empty |
| Agenda.Replay | dyna/agenda.py:23-32 | defines the queue a run log leaves behind, one Step per event, and no queue for a log no run can produce; Agenda.Agenda.Run and the lemmas beside it state its properties |
| Agenda.ReplayDistinct | dyna/agenda.py:11-28 | along every possible run (pops from the front, pushes by tasks and listeners) the queue never holds two equal tasks |
| Agenda.PendingRunFirst | dyna/agenda.py:17-28 | first in, first out: the tasks pending when a run starts are run before anything pushed during the run, in queue order, and those not yet run are still at the front |
| Agenda.ListenersAfterFullDrain | dyna/agenda.py:23-32 | listeners are notified only when the queue is completely empty |
| Agenda.Agenda.constructor | dyna/agenda.py:6-9 | a new agenda has an empty queue, an empty membership set and no listeners |
| Agenda.Agenda.Push | dyna/agenda.py:11-15 | push leaves the queue as Pushed says and adds t to the membership set, keeping the set equal to the queue's contents |
| Agenda.Agenda.PushEach | dyna/agenda.py:11-15 | pushing each of a list in turn leaves the queue PushAll describes |
| Agenda.Agenda.Pop | dyna/agenda.py:17-21 | pop removes and returns the front task and drops it from the membership set, so an equal task can be pushed again; on an empty queue it returns None and changes nothing |
| Agenda.Agenda.NonEmpty | dyna/agenda.py:34-35 | the agenda is truthy exactly when some task is pending |
| Agenda.Agenda.Drain | dyna/agenda.py:25-28 | the inner loop of run records only task runs, each of the front task of the queue the earlier ones left (RunsFront), and leaves the queue AfterRuns gives; it stops with an empty queue or after its budget, so it runs at least one task when there is one |
| Agenda.Agenda.NotifyListeners | dyna/agenda.py:31-32 | each listener in order pushes its work: the queue afterwards is the one Notified describes |
| Agenda.Agenda.Run | dyna/agenda.py:23-32 | run produces a valid log of runs and drains; every task that leaves the queue empty is immediately followed by the notification of all listeners; a completed run leaves the queue empty; at most fuel tasks run, and exactly fuel when the run did not complete; an empty agenda completes at once; every notification comes right after a task run, so the log never starts with one and never holds two in a row; tasks and listeners may push different work at different points of the run |
| Agenda.DrainsNotifiedBefore | dyna/agenda.py:23-32 | under the step-by-step discipline, every task that empties the queue and is not the last event is followed by a drain |
| Agenda.NotifiedAfterEmptying | dyna/agenda.py:23-32 | a run that ends with a drain, or with work still pending, has every emptying task followed by the notification of the listeners |
| Agenda.RanStep | dyna/agenda.py:25-28 | running the front task of a nonempty queue removes it and appends what the task pushes at that point of the run |
| Agenda.RanKeepsDiscipline | dyna/agenda.py:25-28 | running a task from a nonempty queue keeps the rule that a task emptying the queue is followed by a notification |
| Agenda.RunFrontStep | dyna/agenda.py:25-28 | one more run of the front task extends a sequence of front runs, and the queue it leaves is the next one AfterRuns gives |
| Agenda.DrainReplays | dyna/agenda.py:25-28 | the task runs of the inner loop continue a possible run of the agenda: appended to a log that left q, they leave the queue AfterRuns gives |
| Agenda.DrainStep | dyna/agenda.py:25-28 | one more front run after k runs that left p leaves, as a run of the agenda, the queue k + 1 runs give |
| Agenda.DrainKeepsDiscipline | dyna/agenda.py:25-28 | the task runs of the inner loop keep the rule that a task emptying the queue is followed by a notification |
| Agenda.RunsFrontLast | dyna/agenda.py:25-28 | the last of a sequence of front runs ran the front task of the queue the earlier ones left |
| Agenda.AfterRunsNext | dyna/agenda.py:25-28 | one more run takes the front task of the queue and appends what that task pushes |
| Agenda.DrainedStep | dyna/agenda.py:29-32 | after a full drain, the notification appends what the listeners push at that point and keeps the discipline; it runs no task |
| Agenda.PushIdempotent | dyna/agenda.py:11-15 | pushing the same task twice is pushing it once |
| Agenda.EqualWorkDeduplicated | dyna/agenda.py:38-48 | AgendaWork items compare by function and work, so pushing an equal work item again leaves the queue unchanged |
| Agenda.FreshClosureAppended | dyna/agenda.py:11-15 | a closure whose id no pending task carries is always appended, because closures compare by identity |
| SafetyPlanner.Guess | dyna/safety_planner.py:43 | the optimistic entry claims every exposed variable comes back bound, with no delayed constraints, not known to be finite, and no dependents (also line 61) |
| SafetyPlanner.ReusableMeansBelow | dyna/safety_planner.py:53-55 | for modes of equal length, a cached entry can answer a request exactly when its mode is pointwise below the request and it binds every exposed variable |
| SafetyPlanner.Reusable | dyna/safety_planner.py:53-55 | defines the reuse test of a cached mode; SafetyPlanner.ReusableMeansBelow states what it means |
| SafetyPlanner.FirstReusable | dyna/safety_planner.py:53-55 | the answer is a cached mode whose entry can be reused, and None exactly when no cached mode can be |
| SafetyPlanner.FindReusable | dyna/safety_planner.py:53-55 | the loop over the cached modes in insertion order returns the first reusable one |
| SafetyPlanner.SeededOk | dyna/safety_planner.py:38-45 | seeding a new term with the all-free mode keeps the planner state well formed, keeps every entry, only appends to the worklist, and leaves the term cached |
| SafetyPlanner.Seeded | dyna/safety_planner.py:38-45 | the first lookup of a term leaves it cached, keeps every cached term and only appends to the worklist; SafetyPlanner.SeededOk states the rest |
| SafetyPlanner.LookupOk | dyna/safety_planner.py:32-64 | a lookup keeps the state well formed (dependents and worklist entries name cached entries, no repeats), keeps every verdict and dependent, only appends to the worklist, and answers with a cached mode |
| SafetyPlanner.LookupResult | dyna/safety_planner.py:32-64 | defines the new state and the answering mode of a lookup; SafetyPlanner.LookupOk states its properties |
| SafetyPlanner.LookupSeeds | dyna/safety_planner.py:38-45 | the first lookup of a term stores the optimistic guess for the all-free mode and schedules it |
| SafetyPlanner.LookupExactHit | dyna/safety_planner.py:47-48 | a mode already cached is answered by its own entry and nothing changes |
| SafetyPlanner.LookupReuse | dyna/safety_planner.py:50-55 | when another mode answers, it is pointwise below the request, its entry binds everything, and nothing beyond the seeding changes |
| SafetyPlanner.LookupMiss | dyna/safety_planner.py:57-64 | when nothing answers, without push_computes the answer is None and nothing changes; with it the guess is stored for the request, the request is scheduled and returned |
| SafetyPlanner.ScheduleModes | dyna/safety_planner.py:252-257 | the loop of invalidate_term pushes the name of every given mode, in order, as _push_agenda does |
| SafetyPlanner.RescheduledCoversModes | dyna/safety_planner.py:246-257 | invalidating a cached term keeps what was scheduled, schedules every cached mode of the term, schedules nothing else, and never schedules a name twice |
| SafetyPlanner.Rescheduled | dyna/safety_planner.py:246-257 | invalidating a term only appends to the worklist; SafetyPlanner.RescheduledCoversModes states what it appends |
| SafetyPlanner.BareNameSchedulesNothing | dyna/safety_planner.py:145 | as-written half of a finding: invalidating by a bare term name, which is never a cache key, schedules nothing even though modes of that term are cached, while the packed key would have scheduled them (also lines 250-251) |
| SafetyPlanner.ReplaceOk | dyna/safety_planner.py:75-76 | replacing one entry's verdict and clearing its dependents keeps the state well formed and the same set of cached entries |
| SafetyPlanner.PopOk | dyna/safety_planner.py:229-230 | taking the last worklist entry keeps the state well formed, and the entry taken is cached |
| SafetyPlanner.ModeOf | dyna/safety_planner.py:103 | the mode of a list of variables has one position per variable, true exactly when that variable is bound in the frame (also lines 124, 143, 222) |
| SafetyPlanner.Track | dyna/safety_planner.py:89-93 | track_set makes the variable count as bound and adds at most that variable; a constant, which cannot be set, leaves the frame unchanged |
| SafetyPlanner.LocalStep | dyna/safety_planner.py:121-137 | the frame only grows by mentioned variables; a moded op binds all its variables exactly when the current mode is a det or nondet mode; a unify binds either side from the other and blocks exactly when neither is bound; a structure binds its arguments from its result or its result from its arguments and blocks otherwise; Evaluate and ReflectStructure always block (also lines 161-167, 180-199) |
| SafetyPlanner.BindAll | dyna/safety_planner.py:126-127 | track_set on every variable leaves exactly the non-constant ones added, and all of them bound (also lines 132-133) |
| SafetyPlanner.BindWhere | dyna/safety_planner.py:95-97 | track_set on the variables at the marked positions adds exactly those, and every marked variable is bound (also lines 156-158) |
| SafetyPlanner.Settle | dyna/safety_planner.py:107-111 | setting the kept positions and unsetting the others leaves, for distinct variables, position j bound exactly when it is kept or a constant; nothing else is lost and nothing unmentioned is added (also lines 116-120) |
| SafetyPlanner.MarkUnbound | dyna/safety_planner.py:113-115 | a unioned position stays marked after a branch child exactly when it was marked and its variable is bound |
| SafetyPlanner.Callers | dyna/safety_planner.py:142-143 | the caller's variables of a call, position for position with the callee's sorted exposed variables |
| SafetyPlanner.Callees | dyna/safety_planner.py:142 | the callee's exposed variables of a call, in sorted order, which with the term reference form the cache key |
| SafetyPlanner.SafetyPlanner.constructor | dyna/safety_planner.py:26-30 | a new planner has an empty mode cache and an empty worklist |
| SafetyPlanner.SafetyPlanner.PushAgenda | dyna/safety_planner.py:233-235 | a name is appended to the worklist only when it is not already scheduled; the cache is unchanged |
| SafetyPlanner.SafetyPlanner.Lookup | dyna/safety_planner.py:32-64 | the new state and the answer are exactly what LookupResult describes, so the lemmas about LookupResult apply; the state stays well formed and the answer is a cached mode of the term |
| SafetyPlanner.SafetyPlanner.AddDependent | dyna/safety_planner.py:148-149 | the reading entry is added to the dependents of the entry it read, and nothing else changes |
| SafetyPlanner.SafetyPlanner.Walk | dyna/safety_planner.py:99-202 | one walk keeps the planner well formed and every verdict, only appends to the worklist, only grows the frame and only by variables the expression mentions, only sets the delayed flag and only clears the finite flag; after an aggregator its result variable is bound unless the walk is delayed (also lines 168-179) |
| SafetyPlanner.SafetyPlanner.WalkPartition | dyna/safety_planner.py:101-120 | the partition case keeps the same guarantees as Walk; when the unioned variables are distinct, a unioned variable ends bound exactly when it was bound on entry or every child walk left it bound |
| SafetyPlanner.SafetyPlanner.WalkCall | dyna/safety_planner.py:138-160 | the callee's entry is the one the lookup answers; without one the call stays delayed and binds nothing; with one the caller becomes its dependent, inherits its delayed and finite flags, and binds every caller variable the entry binds |
| SafetyPlanner.SafetyPlanner.WalkTwice | dyna/safety_planner.py:204-207 | two walks keep the guarantees of one |
| SafetyPlanner.SafetyPlanner.ComputeR | dyna/safety_planner.py:80-226 | the fixed-point loop terminates; the out-mode has one position per exposed variable; every variable bound in the in-mode comes back bound; a variable comes back bound only if it was bound on entry or the expression mentions it |
| SafetyPlanner.SafetyPlanner.Refresh | dyna/safety_planner.py:75-78 | an unchanged verdict changes nothing; a changed one replaces the entry with an empty dependent set and schedules exactly the old dependents in addition to what was scheduled |
| SafetyPlanner.SafetyPlanner.PushEach | dyna/safety_planner.py:77-78 | every dependent is scheduled, in some order, and nothing else is |
| SafetyPlanner.SafetyPlanner.Compute | dyna/safety_planner.py:66-78 | re-planning an entry keeps it and every other entry cached and stores the fresh verdict, whose out-mode binds every position its in-mode binds; every other entry keeps its verdict; the worklist only grows; an unchanged verdict keeps the entry's dependents, and a changed one leaves the entry with no dependents after scheduling every old dependent |
| SafetyPlanner.SafetyPlanner.ProcessAgenda | dyna/safety_planner.py:228-231 | the worklist is processed last in, first out at every pop: each entry re-planned is the last of the worklist as that pop saw it, and what the pop left stays beneath the work scheduled later (PoppedLast); the first entry re-planned is the most recently scheduled; short of fuel the worklist is left empty; every cached entry stays cached, every entry never popped keeps its verdict, and every entry popped holds a verdict that binds what its in-mode binds |
| SafetyPlanner.SafetyPlanner.PopAndCompute | dyna/safety_planner.py:229-231 | one turn pops the last scheduled name and re-plans it: the rest of the worklist stays beneath what the re-plan schedules, every entry stays cached, only the popped entry's verdict may change, and it binds what its in-mode binds |
| SafetyPlanner.PoppedLastStep | dyna/safety_planner.py:229-231 | popping the last name and scheduling more work on top of what is left extends the last-in, first-out discipline by one pop |
| SafetyPlanner.ReplannedKept | dyna/safety_planner.py:229-231 | a re-plan that changes no other verdict keeps the verdicts of the entries never popped and of the re-plans already done |
| SafetyPlanner.SameVerdictElsewhere | dyna/safety_planner.py:75-76 | replacing one entry, or leaving the cache alone, keeps the verdict of every other entry |
| SafetyPlanner.SameVerdictAfterExtends | dyna/safety_planner.py:66-78 | planning that only adds guesses and dependents, followed by the replacement of one entry, keeps the verdict of every other entry |
| SafetyPlanner.SafetyPlanner.Call | dyna/safety_planner.py:237-244 | a completed call leaves the worklist empty; the out-mode has one position per exposed variable and binds every position the in-mode binds |
| SafetyPlanner.SafetyPlanner.InvalidateTerm | dyna/safety_planner.py:246-257 | the cache is unchanged and the worklist is Rescheduled's, which RescheduledCoversModes characterises |
| SafetyPlanner.SafetyPlanner.InvalidateTermRef | dyna/safety_planner.py:246-257 | corrected half of a finding: invalidating a term by reference schedules every cached mode of every key of that term, whatever its exposed variables, keeps what was scheduled and schedules nothing else |
| Context.DefinedOf | dyna/context.py:71-74 | the defined-assumption of a name is the existing one when there is one; otherwise a fresh valid cell is appended and registered; the term assumptions are untouched |
| Context.DefinedOfOk | dyna/context.py:71-74 | making a defined-assumption keeps the bookkeeping well formed: every current assumption is a valid cell owned by its term, and every term assumption is tracked by its term's defined-assumption |
| Context.TermOf | dyna/context.py:76-81 | the term assumption of a name is the existing one when there is one; otherwise a fresh cell is appended and registered, and only that name's entry changes |
| Context.TermOfOk | dyna/context.py:76-81 | making a term assumption keeps the bookkeeping well formed; in particular the fresh term assumption is tracked by the (possibly fresh) defined-assumption |
| Context.AppendKeepsOk | dyna/context.py:73 | a new assumption without trackers keeps the bookkeeping well formed (also line 78) |
| Context.TrackKeepsOk | dyna/context.py:80 | registering a tracker with an assumption keeps the bookkeeping well formed (also lines 93, 401) |
| Context.InstallTermOk | dyna/context.py:93-94 | installing a valid cell as a term's assumption, tracked by its defined-assumption, keeps the bookkeeping well formed |
| Context.InvalidateUnusedKeepsOk | dyna/context.py:95 | invalidating a cell that is no longer any term's current assumption keeps the bookkeeping well formed (also line 108) |
| Context.Rotated | dyna/context.py:91-95 | rotation installs a fresh term assumption, past every existing cell, and changes no other term's entry and no defined-assumption that existed |
| Context.RotationSpec | dyna/context.py:91-95 | after a rotation the bookkeeping is well formed (the new term assumption is valid and tracked by the defined-assumption) and the old term assumption is invalid |
| Context.RotatedDefined | dyna/context.py:101-108 | the defined rotation installs a fresh defined-assumption and, right after it, a fresh term assumption, both past every existing cell |
| Context.RotationDefinedSpec | dyna/context.py:101-108 | after the defined rotation the bookkeeping is well formed and the old defined-assumption is invalid |
| Context.InstallPairOk | dyna/context.py:103-107 | a fresh defined-assumption tracking a fresh term assumption, both installed for one name, keeps the bookkeeping well formed |
| Context.Resolve | dyna/context.py:257-282 | the lookup fails exactly for a merged expression that is not registered and that no layer holds; every other name resolves to a body |
| Context.ResolveOrder | dyna/context.py:261-275 | layers are consulted in order memo, compiled, optimized, defined, each hiding the ones after it: a memoized term not ignored resolves to its memo reader, a compiled one (memo out of play) enters its compiled code, an optimized one (memo and compiled out of play) gives its optimized body, and the defined body is seen only when no earlier layer in play holds the term; a registered merged expression is returned only when none of the four layers in play holds the name, and any other unknown name gives the failure leaf (also lines 276-282) |
| Context.PlannerSeesMemoAsWritten | dyna/context.py:53 | as-written half of a finding: with the planner's ignore set as written, a memoized term resolves to its memo reader, which differs from what the intended set gives whenever the definition differs from the memo reader (also line 261) |
| Context.PlannerIgnoresMemo | dyna/context.py:53 | corrected half of a finding: with "memo" and "compile" ignored, what the planner is given does not depend on the memo or compiled layers at all (also dyna/context.py:261-264, dyna/safety_planner.py:70-72) |
| Context.Lookup | dyna/context.py:252-298 | a lookup fails exactly when resolution fails; a failure, a tuple constructor and a memo reader are returned without touching the bookkeeping |
| Context.Wrapped | dyna/context.py:284-296 | the wrapping step always succeeds |
| Context.LookupWrapsValid | dyna/context.py:284-296 | a lookup keeps the bookkeeping well formed, and a wrapped result wraps the resolved body in a valid assumption owned by the looked-up name: its term assumption, or its defined-assumption when "assumption" is ignored |
| Context.DeletedResolvesToFailure | dyna/context.py:112-126 | once a name is gone from the four layers, every lookup of it resolves to the empty leaf (also lines 278-280) |
| Context.Basecases | dyna/context.py:504-546 | the score is one of 0 (never reaches a base case), 1 (unsure), 2 (recursive with base cases), 3 (no recursion found) |
| Context.ListScoresSpec | dyna/context.py:539-546 | the running maximum and minimum over a list bound every child's score and are attained by some child unless they are the start values |
| Context.ListScores | dyna/context.py:539-546 | the running maximum and minimum over an intersection's children are at most 3; Context.ListScoresSpec states that they bound every child's score and are attained |
| Context.BranchScores | dyna/context.py:524-532 | the running maximum and minimum over a partition's branches are at most 3; Context.BranchScoresBound and Context.BranchScoresAttained state that they bound and are attained |
| Context.BranchScoresBound | dyna/context.py:523-532 | the partition's running maximum and minimum bound the score of every R-expression of every branch |
| Context.BranchScoresAttained | dyna/context.py:523-532 | the partition's maximum and minimum are attained by some R-expression unless they are the start values |
| Context.PartitionBasecases | dyna/context.py:523-532 | a partition reports no recursion exactly when every R-expression of every branch does; it never reaches a base case exactly when it has an R-expression and every one of them never does |
| Context.IntersectBasecases | dyna/context.py:539-546 | an intersection never reaches a base case exactly when one conjunct never does, and reports no recursion exactly when every conjunct reports none |
| Context.NoCallsBasecases | dyna/context.py:504-546 | only a call can make an expression hopeless: without calls the score is at least 1, and without calls and Evaluates it is 3 |
| Context.HopelessPartition | dyna/context.py:523-538 | a partition whose every branch expression is an intersection calling back into a term on the stack never reaches a base case |
| Context.Extend | dyna/context.py:166 | setdefault then extend: the list under the key gets the values appended, a missing key is added at the end, every other key keeps its list and its position |
| Context.MergedBranches | dyna/context.py:164-166 | the merge loop keeps every old key at its position |
| Context.ListOfAbsent | dyna/context.py:166 | a key absent from a branch map has the empty list |
| Context.ListOfSnoc | dyna/context.py:166 | appending a branch changes a key's list only when the key was absent and is the new branch's key |
| Context.MergedBranchesAppend | dyna/context.py:164-166 | when the new map's keys are distinct, the merged map holds under every key the old list followed by the new list |
| Context.MergeBranches | dyna/context.py:164-166 | the loop, one new branch at a time, computes the merged branch map |
| Context.ZipMap | dyna/context.py:152 | every key paired in the zip is mapped, and a key that occurs once among the paired ones maps to its partner |
| Context.RenameMap | dyna/context.py:151-156 | the new result and body-result variables map to the stored ones, and every paired head variable is mapped |
| Context.AddOutcome | dyna/context.py:141-166 | a new term stores the new body; a non-aggregator or a different aggregator is refused; a successful merge keeps the stored aggregator and its unioned variables and changes only its branch map |
| Context.AddAppendsBranches | dyna/context.py:164-166 | after a successful merge every key holds the stored list followed by the renamed new list |
| Context.RefreshPairs | dyna/context.py:170-175 | the messages are exactly the pairs of a memo table and a new key, and the last one built is the last table with the last key |
| Context.KeysOfBranches | dyna/context.py:174 | the keys of a branch map, in order |
| Context.RefreshTasks | dyna/context.py:174-176 | corrected half of a finding: one refresh closure per message, with consecutive fresh identities, each bound to its own message |
| Context.MemoTables | dyna/context.py:170-172 | defines the memo tables read anywhere in the memoized body, in pre-order; Context.RefreshTasksCoverPairs states that each is refreshed for each new key |
| Context.RefreshTasksAsWritten | dyna/context.py:174-176 | as-written half of a finding: as many closures as messages, each refreshing the message the loop variable holds last |
| Context.RefreshTasksCoverPairs | dyna/context.py:170-176 | corrected half of a finding: every pair of a memo table and a new key is refreshed by a task of its own |
| Context.LateBindingDropsKeys | dyna/context.py:174-176 | as-written half of a finding: with two different new keys, no closure as written refreshes the first key of the first table, while the corrected tasks do |
| Context.AddRefreshes | dyna/context.py:168-176 | only refresh closures are pushed, and only when a stored body was merged successfully and the term is memoized (corrected behaviour of findings 2 and 3: see "## Left out") |
| Context.OptimizeOutcome | dyna/context.py:377-392 | a rotation is only due when the body is stored; an unchanged stored body stores nothing and rotates nothing; a changed one is stored and rotates; a first body is stored and rotates exactly when it is empty or the optimizer relied on `$reflect` and the result no longer calls it |
| Context.BasecaseDefs | dyna/context.py:521-538 | the bodies check_basecases reaches are, for every name the layers know, what a lookup with nothing ignored resolves it to |
| Context.OptimizeInput | dyna/context.py:350-357 | a merged expression is optimized when it is registered, any other term when it is defined; a defined term exposes the result variable and one variable per argument |
| Context.Pruned | dyna/context.py:365-368 | a result that never reaches a base case from the term becomes the empty leaf; any other is kept |
| Context.UsedAssumptions | dyna/context.py:360-362 | the term assumption itself is never tracked, and every tracked id names an assumption |
| Context.TrackedAll | dyna/context.py:400-401 | registering the response never adds or removes assumptions |
| Context.TrackedAllOk | dyna/context.py:400-401 | registering the response with every tracked assumption keeps the bookkeeping well formed and every flag and tracker |
| Context.TrackedAllStep | dyna/context.py:400-401 | one more assumption tracked is one more registration on the result so far |
| Context.TermOfKeeps | dyna/context.py:76-81 | making a term assumption only appends cells and registers trackers |
| Context.ReflectTest | dyna/context.py:383 | the test holds exactly when the term assumption of `$reflect`/3, or else of `$reflect`/4, is among the tracked ones |
| Context.ReflectTestOk | dyna/context.py:383 | the test keeps the bookkeeping well formed |
| Context.ReflectTestKeeps | dyna/context.py:383 | the test only appends cells and registers trackers, and keeps every existing term assumption |
| Context.Finished | dyna/context.py:394-401 | the end never touches the optimized layer and rotates only when a rotation is due |
| Context.FinishedOk | dyna/context.py:394-401 | the end keeps the bookkeeping well formed and changes no flag but the old term assumption's |
| Context.FinishedSpec | dyna/context.py:394-401 | the end fails exactly when a rotation is due and a tracked assumption is invalid; it rotates exactly when it succeeds with a rotation due, leaving the old term assumption invalid and a fresh one in place; otherwise the term assumptions are unchanged; after success every tracked assumption carries the re-optimize response |
| Context.Settled | dyna/context.py:377-401 | an unchanged stored body leaves the optimized layer and rotates nothing; otherwise the new body is stored |
| Context.Decided | dyna/context.py:377-392 | an unchanged stored body changes nothing and no rotation is due; otherwise the new body is stored |
| Context.DecidedSpec | dyna/context.py:377-392 | a rotation is due exactly when a stored body changes, or a first body is empty, or the optimizer relied on `$reflect` and the new body no longer calls it; the test keeps the bookkeeping well formed and every existing cell and term assumption |
| Context.CallsReflect | dyna/context.py:386-390 | defines whether some node of the new body calls `$reflect` of arity 3 or 4; Context.DecidedSpec states how it decides the rotation |
| Context.RotatedKeeps | dyna/context.py:91-95 | rotation keeps every cell except the old term assumption's flag, and only appends |
| Context.Prepared | dyna/context.py:348-349 | afterwards the term has both a term assumption and a defined-assumption, and those are the ones returned |
| Context.OptimizeRunStores | dyna/context.py:346-401 | a term with nothing to optimize fails and changes nothing; otherwise the pruned result is stored unless the engine finds it may equal the stored body, and a stored result that never reaches a base case is the empty leaf |
| Context.OptimizeRunOf | dyna/context.py:346-401 | defines the run of `_optimize_term` from the layers and the bookkeeping; Context.OptimizeRunStores states what it stores and when it fails |
| Context.Get | dyna/context.py:169 | the dictionary's get finds something exactly when the key is present (also line 347) |
| Context.SystemContext.constructor | dyna/context.py:25-53 | a new registry has four empty layers, no merged expressions, no assumptions, an empty agenda and an empty planner |
| Context.SystemContext.SetBook | dyna/context.py:72-81 | the registry's assumption dictionaries become the given well-formed bookkeeping |
| Context.SystemContext.TermAsDefinedAssumption | dyna/context.py:71-74 | the registry's new bookkeeping and the result are DefinedOf's, which DefinedOfOk proves well formed |
| Context.SystemContext.TermAssumption | dyna/context.py:76-81 | the registry's new bookkeeping and the result are TermOf's, which TermOfOk proves well formed |
| Context.SystemContext.Replan | dyna/context.py:98 | corrected half of a finding: the planner's cache is unchanged, every cached mode of every plan key of the name is scheduled, and nothing else is added (also line 109) |
| Context.SystemContext.InvalidateTermAssumption | dyna/context.py:83-99 | the new bookkeeping is Rotated's (the old term assumption invalid, a fresh one tracked by the defined-assumption) and the planner re-plans the name (corrected behaviour of findings 2 and 3: see "## Left out") |
| Context.SystemContext.InvalidateTermAsDefinedAssumption | dyna/context.py:101-110 | the new bookkeeping is RotatedDefined's and the planner re-plans the name (corrected behaviour of findings 2 and 3: see "## Left out") |
| Context.SystemContext.DropLayers | dyna/context.py:114-121 | the name is removed from the four layers and nothing else is removed from them |
| Context.SystemContext.DeleteTerm | dyna/context.py:112-126 | the name leaves the four layers, its term assumption is rotated and the planner re-plans it (corrected behaviour of findings 2 and 3: see "## Left out") |
| Context.SystemContext.DefineTerm | dyna/context.py:132-135 | refused, changing nothing, exactly when the term is defined and redefine is not set; otherwise the body is stored, the term assumption rotated and the planner re-plans the term (corrected behaviour of findings 2 and 3: see "## Left out") |
| Context.SystemContext.PushRefreshes | dyna/context.py:171-176 | the agenda gets one refresh closure per message, in order, each with a fresh identity (corrected behaviour of findings 2 and 3: see "## Left out") |
| Context.SystemContext.MergeIntoDefined | dyna/context.py:141-176 | the merge is refused exactly when AddOutcome refuses it, and then nothing changes; otherwise the stored body becomes AddOutcome's and the agenda gets AddRefreshes's closures (corrected behaviour of findings 2 and 3: see "## Left out") |
| Context.SystemContext.AddToTerm | dyna/context.py:137-180 | a refused merge changes nothing; a successful one stores AddOutcome's body, pushes AddRefreshes's closures, rotates both assumptions of the term and re-plans it (corrected behaviour of findings 2 and 3: see "## Left out") |
| Context.SystemContext.LookupTerm | dyna/context.py:252-298 | the result and the new bookkeeping are Lookup's, so ResolveOrder and LookupWrapsValid apply |
| Context.SystemContext.Wrap | dyna/context.py:284-296 | the result and the new bookkeeping are Wrapped's |
| Context.SystemContext.OptimizeTerm | dyna/context.py:343-344 | one optimize closure with a fresh identity is appended to the agenda |
| Context.SystemContext.CreateMergedExpression | dyna/context.py:316-332 | merged expressions are interned: a new one is registered with its exposed variables and scheduled for optimization once; a known one with the same exposed variables is returned and nothing changes; one with other exposed variables is refused |
| Context.SystemContext.CreateCompiledExpression | dyna/context.py:334-341 | compiled expressions are interned by term: a known one is returned when the exposed variables agree as sets and refused otherwise; a new one keeps the given variable order and is refused when a constant is exposed (also lines 487-494) |
| Context.SystemContext.TrackAll | dyna/context.py:400-401 | the response is registered once with every tracked assumption, in any order |
| Context.SystemContext.ReflectAssumed | dyna/context.py:383 | the answer and the new bookkeeping are ReflectTest's |
| Context.SystemContext.Finish | dyna/context.py:394-401 | the result and the new bookkeeping are Finished's, which FinishedSpec characterises, and the planner re-plans exactly when the term assumption rotates (corrected behaviour of findings 2 and 3: see "## Left out") |
| Context.SystemContext.Prepare | dyna/context.py:348-349 | the new bookkeeping and both assumptions are Prepared's |
| Context.SystemContext.Decide | dyna/context.py:377-392 | the optimized layer, the bookkeeping and whether a rotation is due are Decided's, which DecidedSpec characterises |
| Context.SystemContext.SettleRun | dyna/context.py:377-401 | the result, the optimized layer and the bookkeeping are Settled's, and the planner re-plans exactly when the term assumption rotates (corrected behaviour of findings 2 and 3: see "## Left out") |
| Context.SystemContext.OptimizeTermNow | dyna/context.py:346-401 | the result, the optimized layer and the bookkeeping are those of the run OptimizeRunStores characterises, and the planner re-plans exactly when the term assumption rotates (corrected behaviour of findings 2 and 3: see "## Left out") |
| Builtins.RaiseKey | dyna/builtins.py:11-17 | for one key, every free position raised is a key afterwards; existing entries are kept; each inserted key is above the key and copies its handler; the table grows when something was inserted |
| Builtins.RaiseKeepsGrown | dyna/builtins.py:15-17 | inserting raised keys keeps the table a growing closure candidate: the original entries kept, every key sourced from an original key below it, and every key within the finite bound |
| Builtins.RaiseStep | dyna/builtins.py:11-17 | one key's inner loop keeps that invariant, keeps every key, and leaves every free position of the key raised |
| Builtins.RaisedEverywhere | dyna/builtins.py:8-17 | a table in which every key has all its free positions raised is closed under one-step raising |
| Builtins.RaisePass | dyna/builtins.py:10-17 | one pass over the keys present at its start keeps the invariant; a pass that inserts nothing leaves a table closed under one-step raising, and one that inserts something grows it |
| Builtins.InferModes | dyna/builtins.py:4-18 | infer_modes terminates with the upward closure of the table: the declared entries are kept, every mode above a declared key is a key, every key takes its handler from a declared key below it, and the result is closed under raising |
| Builtins.Raise | dyna/builtins.py:13-14 | raising a free position keeps the length, binds that position and gives a mode pointwise above the key |
| Builtins.ClosureOf | dyna/builtins.py:4-18 | defines the upward closure of a table; Builtins.InferModes states that infer_modes computes it |
| Builtins.UpClosedContainsAbove | dyna/builtins.py:8-17 | a table closed under one-step raising holds every mode above each of its keys |
| Builtins.ClosedAbove | dyna/builtins.py:8-17 | a closed table holding the declared keys holds every mode above them |
| Builtins.ClosureOfClosed | dyna/builtins.py:4-18 | a table already closed upward is returned unchanged |
| Builtins.ClosureOfSingle | dyna/builtins.py:4-18 | the closure of a one-entry table is exactly the modes above its key, all with its handler |
| Builtins.BoundOf | dyna/builtins.py:13-16 | a finite set holds every mode of the table's arity, so insertion must stop |
| Builtins.AllModesComplete | dyna/builtins.py:13-16 | every mode of length n is among the 2^n modes enumerated for n |
| Builtins.SourcedInherited | dyna/builtins.py:16 | a table whose every key is sourced from a declared key inherits its handlers from the declared table |
| Builtins.ModedVars | dyna/builtins.py:32 | an operation of arity n has the result variable followed by n-1 argument variables |
| Builtins.DropCovered | dyna/builtins.py:28-30 | the deletion loop keeps exactly the nondet keys det lacks, with their handlers |
| Builtins.DroppedClosure | dyna/builtins.py:27-30 | after deletion the nondet table still inherits from the declared nondet table and holds every mode above a declared nondet key that det lacks |
| Builtins.MakeModedOp | dyna/builtins.py:20-32 | moded_op closes the det table upward, keeps of the closed nondet table exactly what det does not answer (a det handler is always preferred), and names the result variable and the arguments |
| Builtins.CheckMode | dyna/builtins.py:39 | the mode of a check operation has the result free and every argument bound |
| Builtins.AboveCheckMode | dyna/builtins.py:36-41 | the only modes above the check mode are itself and the all-bound mode |
| Builtins.CheckOp | dyna/builtins.py:36-46 | a check operation answers exactly the check mode and the all-bound mode, with the same handler, and nothing nondeterministically |
| Builtins.AddApply | dyna/builtins.py:54-59 | whatever the mode, add's handler returns a triple whose result is the sum of the two arguments |
| Builtins.AddModeMeaning | dyna/builtins.py:54-59 | in every declared mode of add the bound arguments come back unchanged, and the answer agrees with every bound input exactly when, all three being bound, a = b + c |
| Builtins.AddModesClosed | dyna/builtins.py:54-59 | add's declared table is already closed upward |
| Builtins.AddOp | dyna/builtins.py:54-59 | inference adds nothing to add's table, which has no nondeterministic modes |
| Builtins.Abs | dyna/builtins.py:77 | the absolute value is non-negative and is the argument or its negation |
| Builtins.AbsApply | dyna/builtins.py:76-80 | the forward handler returns the absolute value and the argument; the preimage handler fails exactly on a negative result and otherwise keeps the result |
| Builtins.AbsPreimageExact | dyna/builtins.py:79 | the preimage handler offers exactly the arguments whose absolute value is the result |
| Builtins.AbsRoundTrip | dyna/builtins.py:77 | every argument the preimage handler offers maps back to the result under the forward handler (also line 79) |
| Builtins.AbsTables | dyna/builtins.py:20-32 | moded_op turns abs's declared tables into a det table with the forward mode and the all-bound mode, and a nondet table with only the preimage mode (also lines 76-80) |
| Builtins.AbsOp | dyna/builtins.py:76-80 | abs answers the forward and all-bound modes deterministically and the preimage mode nondeterministically; the inferred all-bound nondet mode is deleted because det has it |
| Builtins.NotApply | dyna/builtins.py:90-93 | both handlers of not return a pair of booleans, one the negation of the other |
| Builtins.NotHandlersAgree | dyna/builtins.py:90-93 | with both positions bound to booleans, either handler succeeds exactly when a = not b, so which handler the all-bound mode inherits does not change its answer |
| Builtins.NotTable | dyna/builtins.py:20-32 | the closed table of not has exactly its two declared modes, with their handlers, and the all-bound mode (also lines 90-93) |
| Builtins.NotOp | dyna/builtins.py:90-93 | not answers its two declared modes with their own handlers and the inferred all-bound mode, and nothing nondeterministically |
| Memos.Project | dyna/memos.py:21-33 | the key has one entry per supported position |
| Memos.ProjectPositions | dyna/memos.py:21-33 | the j-th entry of the key is the value at the j-th supported position, in order |
| Memos.SupportedFrameBinds | dyna/memos.py:58-61 | with distinct variables, compute's first loop binds exactly the supported variables, each to its value |
| Memos.UnbindMeaning | dyna/memos.py:71-77 | with distinct variables, the second loop leaves the frame without any memo variable and otherwise unchanged, and puts in front exactly one equality per non-supported variable the frame binds, equating it with its value |
| Memos.Unbind | dyna/memos.py:71-77 | defines the second loop of compute; Memos.UnbindMeaning states what it leaves in the frame and which equalities it makes |
| Memos.MemoContainer.constructor | dyna/memos.py:11-17 | the mode and the variables must have the same length; the table starts empty |
| Memos.MemoContainer.Store | dyna/memos.py:44 | storing under a key updates that key only; an existing key keeps its place in the iteration order and a new key goes last (also line 51) |
| Memos.MemoContainer.StoreAll | dyna/memos.py:46-50 | the writes made during a computation leave each key with its last write, or its old slot when nothing wrote it, and the iteration order OrderAfter gives |
| Memos.WrittenLastWrite | dyna/memos.py:46-50 | after a series of writes a key is present exactly when it was before or was written, and holds its last write or else its old slot |
| Memos.OrderAfter | dyna/memos.py:46-50 | after a series of writes the dict's iteration order extends the old one, keeps keys distinct, and lists exactly the old keys and the written ones |
| Memos.MemoContainer.Compute | dyna/memos.py:54-87 | compute returns the equalities for the bound non-supported variables in front of the saturated body, renamed to constants for the variables still bound; UnbindMeaning and SupportedFrameBinds characterise the parts |
| Memos.ComputeResult | dyna/memos.py:54-87 | defines what compute returns; Memos.MemoContainer.Compute, Memos.MemoContainer.Lookup and Memos.SimplifyUnkMemo state when it is returned and stored |
| Memos.MemoContainer.KeyOf | dyna/memos.py:21-33 | the key loop computes the projection of the values on the supported positions |
| Memos.MemoContainer.Lookup | dyna/memos.py:19-52 | a stored result is returned without change; a key still being computed raises; a miss without compute_if_not_set returns None and changes nothing; otherwise the lookup succeeds exactly when nothing overwrote the sentinel during the computation, and then returns the computed result and stores it under the key; a failed one raises the overwrite error and leaves the key with its last write; either way every other key holds its last write or its old slot, and the iteration order is the old one plus the key, followed by the newly written keys |
| Memos.SimplifyUnkMemo | dyna/memos.py:144-167 | with a supported variable unbound the reader is returned unchanged and the table untouched; a stored result is continued with as it is; a key still being computed fails with ReadWhileComputing and leaves the table untouched; a miss continues with the freshly computed result, stored as done under the key, or fails with Overwritten exactly when the computation's last write to the key is a finished result, which the key then holds; every other key holds its last write or its old entry |
| Memos.CanRun | dyna/memos.py:148-153 | defines can_run; Memos.SimplifyUnkMemo and Memos.SimplifyNullMemo state that a reader with a supported variable unbound is returned unchanged |
| Memos.SameTable | dyna/memos.py:89-95 | defines container equality: the same container, or equal body, variables, supported mode and table |
| Memos.SameTableEquivalence | dyna/memos.py:89-95 | container equality is reflexive, symmetric and transitive |
| Memos.SimplifyNullMemo | dyna/memos.py:193-214 | the null reader never changes the table; with too little bound it is returned unchanged; a missing key makes it fail; a stored result is continued with, and a key still being computed raises |
| Memos.Dedup | dyna/memos.py:116-121 | the result has no repeats and holds exactly the values of the input |
| Memos.FirstIndex | dyna/memos.py:116-121 | the position at which a value first occurs: it holds the value and no earlier position does |
| Memos.DedupFirstSeenOrder | dyna/memos.py:116-121 | values are emitted in the order in which they are first seen |
| Memos.FirstIndexPrefix | dyna/memos.py:116-121 | a value of a prefix is first seen at the same place in the whole sequence |
| Memos.Column | dyna/memos.py:109 | the values at one position of the keys, one per key, in order (also line 118) |
| Memos.DedupNext | dyna/memos.py:118-121 | one more key emits its value exactly when the value was not emitted yet |
| Memos.MemoIterator.constructor | dyna/memos.py:101-104 | the iterator keeps its variable, its position and its table |
| Memos.MemoIterator.BindIterator | dyna/memos.py:105-112 | bind_iterator answers whether some key of the table holds the value at the position |
| Memos.MemoIterator.Run | dyna/memos.py:113-121 | run emits the values at the position of the keys in insertion order, each once, where it is first seen |
| Memos.RunYieldsColumn | dyna/memos.py:113-121 | run yields every value some key holds at the position, only those, and each exactly once |
| Aggregators.ApplyOp | dyna/aggregators.py:79-81 | Python's `or` and `and` return one of their operands, whose truth is the disjunction, respectively the conjunction, of the operands' truths |
| Aggregators.EqualCombine | dyna/aggregators.py:8-9 | two values under `=` always combine to the `$error` term carrying the conflict message |
| Aggregators.SaturateLift | dyna/aggregators.py:17-20 | lifting keeps the value and signals saturation exactly when it equals the saturated value |
| Aggregators.SaturateCombine | dyna/aggregators.py:22-27 | combining applies the operator and signals saturation exactly when the result equals the saturated value |
| Aggregators.AggregatorNamed | dyna/aggregators.py:73-83 | defines the AGGREGATORS table, one entry per aggregator name and none for any other name |
| Aggregators.CombineNamed | dyna/aggregators.py:79-81 | exactly the saturating entries, `:-`, the disjunction aggregator and `&=`, combine here |
| Aggregators.BooleanAggregatorsSaturate | dyna/aggregators.py:22-27 | on booleans, `:-` and the disjunction aggregator give true, saturated, when either operand is true and plain false otherwise; `&=` gives false, saturated, when either is false and plain true otherwise (also lines 79-81) |
| Aggregators.SaturationAbsorbs | dyna/aggregators.py:22-27 | once the saturated value is reached, combining it with anything saturates again with the same value (also lines 79-81) |
| Aggregators.ColonLower | dyna/aggregators.py:33-38 | lowering a `$colon_line_tracking` term gives its stored value, or None exactly when that is the `$null` term |
| Aggregators.ColonCombine | dyna/aggregators.py:39-45 | the combine returns one of its operands, the one with the latest line, and the second one on a tie |
| Aggregators.ColonCombineAssociative | dyna/aggregators.py:39-45 | last-line-wins does not depend on how the combines are grouped |
| Aggregators.ColonCombineCommutesOnDistinctLines | dyna/aggregators.py:39-45 | with distinct lines, last-line-wins does not depend on the order of the operands |
| Aggregators.LineCounter.constructor | dyna/aggregators.py:47 | the counter starts at -1, so the first line handed out is 0 |
| Aggregators.LineCounter.Next | dyna/aggregators.py:48-51 | each call hands out one more than the previous line and remembers it |

## Left out

- File and parser I/O: prelude loading, `add_rules`/`raw_call`, `watch_load_callback` and the `print` of a failed lookup (dyna/context.py:63-65, 281-282). The constructor starts from an empty registry, without the builtins that `define_builtins` registers.
- The parent context: a lookup that no layer answers goes straight to the empty leaf (dyna/context.py:276-277). `__init__` itself refuses a parent.
- `memoize_term`, `_compile_term`, `optimize_system`/`run_agenda`, `watch_term_changes`, `define_infered` and `lookup_term_aggregator`. They are driven by the optimizer, compiler and file loader, or they are unfinished.
- The engine: `simplify`, `saturate`, `rename_vars`, `run_optimizer`, `possibly_equal`, `isEmpty`, `inline_all_calls` and `intersect`. These are parameters whose results are taken as given. Nothing is proved about what they compute. `intersect` (dyna/memos.py:79) is modelled as building an `Intersect` node from the equalities followed by the saturated body, always; the engine's own `intersect` may simplify its arguments, for instance return the body alone when there are no equalities.
- Assumption internals (guards.py is not part of this model). An assumption is a validity flag plus a tracker list. Context.Invalidated clears one flag without notifying trackers, so nothing transitive is claimed. For example, after Context.RotatedDefined the old term assumption's own flag stays set even though its defined-assumption was invalidated.
- Context.AddRefreshes, Context.SystemContext.InvalidateTermAssumption, Context.SystemContext.InvalidateTermAsDefinedAssumption, Context.SystemContext.DeleteTerm, Context.SystemContext.DefineTerm, Context.SystemContext.PushRefreshes, Context.SystemContext.MergeIntoDefined, Context.SystemContext.AddToTerm, Context.SystemContext.Finish, Context.SystemContext.SettleRun, Context.SystemContext.OptimizeTermNow: these model the corrected behaviour of the second and third findings, not the code as written. Their re-plans go through SafetyPlanner.SafetyPlanner.InvalidateTermRef, which schedules every cached mode of the term; the code calls `invalidate_term((name, arity))` (dyna/context.py:98, 109), which schedules nothing (SafetyPlanner.BareNameSchedulesNothing). Their refreshes are Context.RefreshTasks, one closure bound to each message; the code's lambdas all refresh the last message (dyna/context.py:174-176, Context.LateBindingDropsKeys).
- Context.Rotated: `invalidate_term_assumption` looks the defined-assumption up a second time (dyna/context.py:93). The model uses the entry that the `term_assumption` step has just made sure exists, which is the same one.
- Context.Basecases: calls resolve through Context.BasecaseDefs, the bodies a lookup with nothing ignored finds. The assumptions those lookups create are not recorded. A name no layer knows, including an unregistered merged expression where the source would fail an assertion, scores 3 as the failure leaf does.
- Context.Resolve: looking up an unregistered merged expression is an error result, where the source fails an assertion (dyna/context.py:279).
- Context.SystemContext.CreateCompiledExpression: compiled expressions compare as values of the datatype. The source compares term and exposed set (dyna/context.py:496-497). Since the registry keys them by term, this only matters outside the registry.
- Context.SystemContext.TrackAll: `_optimize_term` tracks assumption objects. The model tracks arena positions, so ids that name no cell are dropped (Context.UsedAssumptions).
- Context.SystemContext.MergeIntoDefined: the source extends the stored partition's lists in place, so every other holder of that object sees the change. The model stores a new value and does not capture that aliasing.
- Memo-refresh tasks: `RMemo` and `process_agenda_message` are not part of this model. A memo reader is the `MemoRead` node carrying a table number, and a refresh is the `RefreshMemo(table, key)` action. Its effect when run is not modelled.
- The order of a call's variable map: `var_map` is a dict, and the planner sorts its keys to form the plan key (dyna/safety_planner.py:142). The model holds the pairs as a sequence taken to be in that sorted order already; it does not sort them or state that they are sorted, so two calls listing the same pairs in different orders get different plan keys here.
- SafetyPlanner.LocalStep: `Evaluate` with everything bound and `ReflectStructure` hit `assert False` in the walker (dyna/safety_planner.py:186, 198). The model treats both as leaving a delayed constraint instead of stopping.
- SafetyPlanner.SafetyPlanner.PushEach and Context.SystemContext.TrackAll iterate a Python set, whose order is unspecified. They are stated for every order.
- Builtins.InferModes: keys within a pass are visited in an arbitrary order rather than dict insertion order. The only observable effect is which declared handler the all-bound mode of `not` inherits. Builtins.NotHandlersAgree shows that the choice does not change the answer.
- Builtins.MakeModedOp: `infer_modes` mutates the caller's dicts in place. Here tables are values.
- Floats, numpy and randomness: `mul`/`div`, `imath_op`, `pow_v`, `random_r`, `matrix_v`, the type checks and casts, `and`/`or` and `int_div`. `add` is modelled over unbounded integers.
- Aggregators.SaturateLift: Python's cross-type equality (`True == 1 == 1.0`, with equal hashes) is not modelled, because values of different kinds are never equal here; an integer 1 does not saturate `:-` (dyna/aggregators.py:17-20).
- Aggregators.SaturateCombine: for the same reason, a combined result that equals the saturated value only across types (1 for `True`) does not signal saturation (dyna/aggregators.py:22-27).
- Memos.MemoContainer.Lookup: for the same reason, memo keys that differ only as `True` and `1` are distinct entries here, where the dict would merge them (dyna/memos.py:34).
- Memos.MemoIterator.Run: for the same reason, two key values equal only across types (`True` and `1`) are both emitted here, where the emitted set drops the second (dyna/memos.py:116-121).
- Agenda.EqualWorkDeduplicated: for the same reason, work items whose payloads are equal only across types are not deduplicated (dyna/agenda.py:45-48).
- `AggregatorOpImpl` is defined outside this model. The `+=`, `*=`, `max=` and `min=` entries of the table keep only an operator name and flag.
- Unfinished or broken code: `converge_memos`, `getpartition_nullmemo`, `gc_colon_equals` and `push_work`.
- SafetyPlanner.SafetyPlanner.ProcessAgenda: what a re-plan stores is characterised only by Compute's contract (the out-mode keeps the in-mode; nothing else changes verdict). The verdict itself is not pinned down, because ComputeR's fixed point is not stated (next line).
- SafetyPlanner.SafetyPlanner.ComputeR: the delayed and finite flags of the verdict are not stated, nor that its frame is a fixed point of the walk. The contract covers the out-mode only: its length, that it keeps the in-mode, and that it binds only mentioned variables.
- SafetyPlanner.SafetyPlanner.Call: for the same reason, the verdict's delayed and finite flags are not stated.
- Agenda.Agenda.Run, SafetyPlanner.SafetyPlanner.ProcessAgenda and SafetyPlanner.SafetyPlanner.Call take a `fuel` bound. A run that uses up its fuel reports that it did not complete. Termination of the source's unbounded loops is not claimed.

## Findings

| source | as written | input that shows it | evidently intended | confidence | as-written member | corrected member |
|---|---|---|---|---|---|---|
| dyna/context.py:53 | the planner's lookup ignores `('memos', 'compile')`, but `lookup_term` tests for `'memo'` (dyna/context.py:261) | a term with both a definition and a memo reader: the planner is handed the memo reader | the planner plans from the definition, never from the memo layer (dyna/safety_planner.py:70-72) | not executed | Context.PlannerSeesMemoAsWritten | Context.PlannerIgnoresMemo |
| dyna/context.py:98-109 | `invalidate_term((name, arity))`, called at lines 98 and 109, looks up the bare term, but the mode cache is keyed by `(term_ref, arg_vars)` (dyna/safety_planner.py:145) | a term `("f", 1)` whose modes are cached under `(("f", 1), (Arg0,))`: invalidating it schedules nothing | every cached mode of every key of the term is re-planned | not executed | SafetyPlanner.BareNameSchedulesNothing | SafetyPlanner.SafetyPlanner.InvalidateTermRef |
| dyna/context.py:174-176 | each pushed lambda reads the loop variable `msg` when it runs, after the loops are done | a memoized term merged with new branches under keys k1 and k2: every closure refreshes k2, none refreshes k1 | one refresh per (memo table, new key) pair, each bound to its own message | not executed | Context.LateBindingDropsKeys | Context.RefreshTasksCoverPairs |
