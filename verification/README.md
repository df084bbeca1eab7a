# Evaluation context and node-eligibility tracker of a cluster scheduler

This Dafny project models the per-evaluation scheduling context of a cluster job
scheduler (Nomad's `scheduler/context.go`). It has three parts:

- `EvalEligibility` caches feasibility verdicts per computed node class, both at
  job level and per task group. Escaped constraints override the cache. These
  are constraints that a node class alone cannot decide. Class `0` (a node too
  old to report a class) always reads as `Escaped`.
- `EvalContext.ProposedAllocs` computes a node's allocation list as if the
  in-progress plan were applied. It passes on a failed state query unchanged.
  On success its result is never a nil slice.
- The lazy getters `EvalCache.RegexpCache`, `EvalCache.ConstraintCache` and
  `EvalContext.Eligibility`, together with `Reset` and `SetState`.

Layout:

- `structs.dfy` (module `Structs`) holds the types the context consumes: jobs,
  task groups, tasks, constraints, allocations, the plan, Go slices and Go maps.
  It also holds the two list helpers `FilterTerminalAllocs` and `RemoveAllocs`.
  A Go slice is `Slice = Nil | Made(elems)`, which keeps the nil/empty difference
  that the guard at `scheduler/context.go:127-129` exists for.
- `scheduler.dfy` (module `Scheduler`) holds the context itself: classes
  `EvalCache`, `EvalContext` and `EvalEligibility`, the datatype
  `ComputedClassFeasibility`, and the functions and lemmas that specify them.
  Five client methods at the end (`LastWriteWinsScenario`,
  `ContextTrackerScenario`, `ConstraintOrderScenario`,
  `EscapePrecedenceScenario`, `PlannedAllocsScenario`) derive sample outcomes
  from the contracts and lemmas alone, without unfolding any function body.

Modelling decisions:

- The cluster-state accessor is the function field `EvalContext.state`. It maps a
  node ID to a slice of allocations or a `StateError`.
- The rule set of `structs.EscapedConstraints` belongs to another package. It is
  passed to `SetJob` as the function parameter `escapedConstraints`. The tracker
  only uses whether its results are empty.
- `FilterTerminalAllocs` and `RemoveAllocs` live in Nomad's `structs` package,
  outside this model, so their behaviour here is an assumption drawn from the
  doc comment at
  `scheduler/context.go:28-30` and the calls at `:115-123`:
  - `FilterTerminalAllocs` keeps the non-terminal allocations.
  - `RemoveAllocs` drops the allocations whose ID is an evicted ID.
  - Both return nil for a nil input.
  - Their contracts speak only of how often each allocation survives. The
    order-keeping bodies (`NonTerminal`, `WithoutIds`) are one possible
    implementation, and no stated property depends on that order.
- Whether an allocation is terminal is the boolean `Allocation.terminal`.
- The tracker's class invariant `EvalEligibility.Valid()` says that only
  `Eligible` or `Ineligible` are ever recorded. Only the two setters write
  verdicts, so every method keeps `Valid()`. The status queries require it.
- The context's invariant `EvalContext.Valid()` says that a tracker, once
  created, is valid. Every method of the context keeps it. `Eligibility()`
  therefore always hands out a valid tracker, which can be queried at once.

Behaviour of the code worth noting:

- A later setter call overwrites an earlier verdict for the same class, so the
  last write wins (`scheduler/context.go:223-229`, `:256-268`). The setter
  contracts state this.
- A task group's escape input is the group's own constraints followed by each
  task's constraints, in order, with duplicates kept
  (`scheduler/context.go:197-200`). `TaskGroupConstraints` states the
  membership, that the group's own constraints come first, and that a group
  without tasks is bound by its own constraints alone. `TaskGroupConstraintsCons`
  states the order of the tasks' constraints: moving the first task's
  constraints onto the end of the group's own leaves the list unchanged.
- If a job repeats a task-group name, the later group's escape list replaces the
  earlier one (`scheduler/context.go:202`). `RecordEscapesLast` states this.

## Model

| member | source | states |
|---|---|---|
| `Structs.Append` | scheduler/context.go:124 | the result holds the slice's elements followed by the appended ones; it is nil exactly when the slice was nil and nothing was appended |
| `Structs.FilterTerminalAllocs` | scheduler/context.go:115-116 | an allocation is kept, with its multiplicity, exactly when it is not terminal; nil stays nil and non-nil stays non-nil |
| `Structs.RemoveAllocs` | scheduler/context.go:118-123 | an allocation is kept, with its multiplicity, exactly when its ID is not among the evicted IDs; IDs that match nothing are ignored; nil stays nil |
| `Structs.RemoveNothing` | scheduler/context.go:121-123 | removing against an empty eviction list returns the slice unchanged, so the `len(update) > 0` guard does not change the result |
| `Scheduler.PlannedAllocs` | scheduler/context.go:115-124 | each allocation's count is its existing count when it is non-terminal and not evicted, plus its count among the node's planned placements; the placements form the tail, in plan order; the list is nil exactly when the state returned nil and nothing is placed |
| `Scheduler.EvalContext.ProposedAllocs` | scheduler/context.go:108-131 | a failed state query returns that same error; otherwise the result is a non-nil slice (empty when nothing is left) holding the surviving existing allocations followed by the planned placements, counted as in `PlannedAllocs` |
| `Scheduler.EvalCache.constructor` | scheduler/context.go:45-48 | both caches start absent (Go's nil maps) |
| `Scheduler.EvalCache.RegexpCache` | scheduler/context.go:50-55 | the first call installs and returns a fresh empty map; every later call returns that same map; the other cache is untouched |
| `Scheduler.EvalCache.ConstraintCache` | scheduler/context.go:56-61 | the first call installs and returns a fresh empty map; every later call returns that same map; the other cache is untouched |
| `Scheduler.EvalContext.constructor` | scheduler/context.go:73-82 | keeps the given state and plan, installs fresh metrics and a fresh, empty scratch cache, and has no eligibility tracker yet |
| `Scheduler.EvalContext.SetState` | scheduler/context.go:100-102 | replaces the state accessor; plan, metrics and tracker are unchanged |
| `Scheduler.EvalContext.Reset` | scheduler/context.go:104-106 | installs fresh metrics; state, plan, scratch caches and eligibility tracker are unchanged |
| `Scheduler.EvalContext.Eligibility` | scheduler/context.go:133-139 | the first call installs and returns a fresh, empty tracker; every later call returns that same tracker; the tracker handed out is always valid, so it can be queried at once |
| `Scheduler.Verdict` | scheduler/context.go:223-229 | a feasibility outcome maps to a decided verdict, `Eligible` exactly when eligible |
| `Scheduler.TaskConstraints` | scheduler/context.go:198-200 | a constraint is in the list exactly when some task carries it |
| `Scheduler.TaskGroupConstraints` | scheduler/context.go:196-200 | the list starts with the group's own constraints, and is exactly those when the group has no tasks; a constraint is in it exactly when the group or one of its tasks carries it |
| `Scheduler.TaskConstraintsCons` | scheduler/context.go:198-200 | read from the front, the tasks' constraint list is the first task's constraints followed by those of the remaining tasks, in order and with duplicates kept |
| `Scheduler.TaskGroupConstraintsCons` | scheduler/context.go:197-200 | appending the first task's constraints to the group's own and dropping that task leaves the group's constraint list unchanged, so the tasks' constraints follow the group's in task order, duplicates kept |
| `Scheduler.RecordEscapesKeeps` | scheduler/context.go:195-203 | recording task groups adds exactly their names to the escape map, and every entry for another name keeps its value |
| `Scheduler.RecordEscapesLast` | scheduler/context.go:196-202 | after recording, the name of the last task group with that name maps to the escaped constraints of that group's own and its tasks' constraints |
| `Scheduler.EvalEligibility.constructor` | scheduler/context.go:180-187 | the new tracker is empty and valid; every class reads `Unknown` at job and task-group level except class 0, which reads `Escaped` |
| `Scheduler.EvalEligibility.SetJob` | scheduler/context.go:189-204 | the job escape list becomes the escaped job constraints; the task-group escape map becomes the old map with the job's task groups recorded in order (`RecordEscapes`, whose effect the two lemmas above state); recorded verdicts are unchanged and the tracker stays valid |
| `Scheduler.EvalEligibility.JobStatus` | scheduler/context.go:206-219 | `Escaped` exactly when the class is 0 or the job has escaped constraints, whatever was recorded; otherwise the recorded verdict, or `Unknown` exactly when none was recorded |
| `Scheduler.EvalEligibility.SetJobEligibility` | scheduler/context.go:221-229 | records the verdict for that class, replacing any earlier one, so a later `JobStatus` returns it unless escaped; every other class's job status and every task-group status are unchanged |
| `Scheduler.EvalEligibility.TaskGroupStatus` | scheduler/context.go:231-252 | `Escaped` exactly when the class is 0 or the group has a non-empty escape list, whatever was recorded; a group with no escape entry is not escaped; otherwise the recorded verdict, or `Unknown` exactly when none was recorded (also for a group never seen) |
| `Scheduler.EvalEligibility.SetTaskGroupEligibility` | scheduler/context.go:254-269 | creates the group's class map on its first write and records the verdict, replacing any earlier one; no other (group, class) status and no job status changes |

## Left out

- Logging: the `Logger` field and accessor (`scheduler/context.go:19-20`, `:92-94`) and the `log` parameter of `NewEvalContext` are plumbing only.
- The accessors `State`, `Plan` and `Metrics` (`scheduler/context.go:84-98`) read a field and nothing more. In the model the fields `state`, `plan` and `metrics` are read directly.
- The `Context` interface (`scheduler/context.go:11-42`) is modelled by its only implementation here, `EvalContext`.
- The scratch cache is embedded in the Go context. Here it is the field `EvalContext.cache`, and its getters are called through that field.
- Compiling regular expressions and parsing version constraints are left out. The cached values are opaque (`Regexp`, `VersionConstraints`), and only the identity of each lazily created map is modelled.
- The contents of the placement metrics are another package's type. The model only captures that `Reset` and the constructor install a fresh `AllocMetric`.
- The rule set of `structs.EscapedConstraints` belongs to another package. The model takes it as a parameter.
- `FilterTerminalAllocs`, `RemoveAllocs` and the terminal-status rule live in Nomad's `structs` package, outside this model. Their behaviour here is an assumption, stated above.
- FilterTerminalAllocs: the order of the surviving allocations is not modelled. Only its multiset contract is meant to be relied on, and the order its body happens to keep is not a claim about the source.
- RemoveAllocs: the order of the surviving allocations is not modelled. Only its multiset contract is meant to be relied on, and the order its body happens to keep is not a claim about the source.
- The plan is a shared pointer in Go that placement code keeps changing. The model reads the plan that the context holds at the time of the call.
- In Go, a task group's class map is itself a reference that is updated in place. The model writes a new value for that group's entry. No other holder of the inner map exists, so nothing observable is lost.
- `append(tg.Constraints, ...)` at `scheduler/context.go:197-199` may write into the task group's backing array. The model uses plain sequence concatenation and does not capture that aliasing.
- Concurrency is not modelled. A context and its tracker belong to one evaluation and are never shared.
