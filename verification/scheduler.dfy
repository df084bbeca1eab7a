/**
 * The per-evaluation scheduling context: the scratch caches, the evaluation
 * context that places the cluster state, the in-progress plan, the metrics and
 * the eligibility tracker in front of the placement code, and the tracker that
 * caches feasibility verdicts by computed node class.
 */
module Scheduler {
  import opened Structs

  /** Computed node classes are unsigned 64-bit integers; 0 means "no class reported". */
  type uint64 = x: int | 0 <= x < 0x1_0000_0000_0000_0000

  /** The cluster-state accessor, reduced to the query the context makes: `AllocsByNode`. */
  type State = string -> Result<Slice<Allocation>, StateError>

  // ---------------------------------------------------------------------------
  // Scratch caches
  // ---------------------------------------------------------------------------

  /** Per-evaluation caches of compiled patterns, each created on first use. */
  class EvalCache {
    var reCache: Table?<Regexp>
    var constraintCache: Table?<VersionConstraints>

    /** The zero value: neither cache exists yet. */
    constructor ()
      ensures reCache == null && constraintCache == null
    {
      reCache, constraintCache := null, null;
    }

    /**
     * The regular-expression cache: created empty on the first call, the
     * same map on every later call.
     */
    method RegexpCache() returns (m: Table<Regexp>)
      modifies this`reCache
      ensures reCache == m
      ensures old(reCache) != null ==> m == old(reCache)
      ensures old(reCache) == null ==> fresh(m) && m.entries == map[]
    {
      if reCache == null {
        reCache := new Table<Regexp>();
      }
      m := reCache;
    }

    /**
     * The version-constraint cache: created empty on the first call, the
     * same map on every later call.
     */
    method ConstraintCache() returns (m: Table<VersionConstraints>)
      modifies this`constraintCache
      ensures constraintCache == m
      ensures old(constraintCache) != null ==> m == old(constraintCache)
      ensures old(constraintCache) == null ==> fresh(m) && m.entries == map[]
    {
      if constraintCache == null {
        constraintCache := new Table<VersionConstraints>();
      }
      m := constraintCache;
    }
  }

  // ---------------------------------------------------------------------------
  // Evaluation context
  // ---------------------------------------------------------------------------

  /**
   * The allocation list of a node once the plan is applied, before the nil
   * guard: the non-terminal existing allocations, without the planned
   * evictions (removal is only attempted when there are evictions), followed
   * by the planned placements.
   */
  function PlannedAllocs(existing: Slice<Allocation>, plan: Plan, nodeID: string): (r: Slice<Allocation>)
    ensures forall a :: multiset(r.Elems())[a] ==
                        (if a.terminal || a.id in Ids(plan.Evictions(nodeID)) then 0 else multiset(existing.Elems())[a])
                        + multiset(plan.Placements(nodeID))[a]
    ensures |plan.Placements(nodeID)| <= |r.Elems()|
    ensures r.Elems()[|r.Elems()| - |plan.Placements(nodeID)|..] == plan.Placements(nodeID)
    ensures r.Nil? <==> existing.Nil? && plan.Placements(nodeID) == []
  {
    var live := FilterTerminalAllocs(existing);
    var update := plan.Evictions(nodeID);
    var proposed := if |update| > 0 then RemoveAllocs(live, update) else live;
    assert |update| == 0 ==> Ids(update) == {};
    Append(proposed, plan.Placements(nodeID))
  }

  /** The context threaded through the placement code for one evaluation. */
  class EvalContext {
    const cache: EvalCache
    var state: State
    var plan: Plan
    var metrics: AllocMetric
    var eligibility: EvalEligibility?

    /** A tracker, once created, keeps its own invariant. */
    ghost predicate Valid()
      reads this, eligibility
    {
      eligibility != null ==> eligibility.Valid()
    }

    /** `NewEvalContext`: fresh caches and metrics, no eligibility tracker yet. */
    constructor (s: State, p: Plan)
      ensures Valid()
      ensures state == s && plan == p && eligibility == null
      ensures fresh(cache) && cache.reCache == null && cache.constraintCache == null
      ensures fresh(metrics)
    {
      cache := new EvalCache();
      state, plan := s, p;
      metrics := new AllocMetric();
      eligibility := null;
    }

    /** Replaces the cluster-state accessor and nothing else. */
    method SetState(s: State)
      requires Valid()
      modifies this`state
      ensures Valid()
      ensures state == s
      ensures plan == old(plan) && metrics == old(metrics) && eligibility == old(eligibility)
    {
      state := s;
    }

    /**
     * Installs fresh metrics for the next placement; the state, the plan,
     * the caches and the eligibility tracker are kept.
     */
    method Reset()
      requires Valid()
      modifies this`metrics
      ensures Valid()
      ensures fresh(metrics)
      ensures state == old(state) && plan == old(plan) && eligibility == old(eligibility)
      ensures cache.reCache == old(cache.reCache) && cache.constraintCache == old(cache.constraintCache)
    {
      metrics := new AllocMetric();
    }

    /**
     * The node's allocations as if the plan were applied. A failed state
     * query is passed back unchanged; on success the slice is never nil.
     */
    function ProposedAllocs(nodeID: string): (r: Result<Slice<Allocation>, StateError>)
      reads this
      ensures state(nodeID).Failure? ==> r == Failure(state(nodeID).error)
      ensures state(nodeID).Success? ==> r.Success? && r.value.Made?
      ensures state(nodeID).Success? ==>
                forall a :: multiset(r.value.Elems())[a] ==
                            (if a.terminal || a.id in Ids(plan.Evictions(nodeID)) then 0
                             else multiset(state(nodeID).value.Elems())[a])
                            + multiset(plan.Placements(nodeID))[a]
      ensures state(nodeID).Success? ==>
        |plan.Placements(nodeID)| <= |r.value.Elems()| &&
        r.value.Elems()[|r.value.Elems()| - |plan.Placements(nodeID)|..] == plan.Placements(nodeID)
    {
      match state(nodeID)
      case Failure(err) => Failure(err)
      case Success(existing) =>
        var proposed := PlannedAllocs(existing, plan, nodeID);
        Success(if proposed.Nil? then Made([]) else proposed)
    }

    /**
     * The eligibility tracker: created empty on the first call, the same
     * tracker on every later call.
     */
    method Eligibility() returns (e: EvalEligibility)
      requires Valid()
      modifies this`eligibility
      ensures Valid() && e.Valid()
      ensures eligibility == e
      ensures old(eligibility) != null ==> e == old(eligibility)
      ensures old(eligibility) == null ==> fresh(e) && e.IsEmpty()
    {
      if eligibility == null {
        eligibility := new EvalEligibility();
      }
      e := eligibility;
    }
  }

  // ---------------------------------------------------------------------------
  // Eligibility tracker
  // ---------------------------------------------------------------------------

  /** The feasibility of a computed node class for a job or a task group. */
  datatype ComputedClassFeasibility = Unknown | Ineligible | Eligible | Escaped {
    /** A verdict the feasibility checker records, as opposed to "not known" or "escaped". */
    predicate Decided() {
      this == Ineligible || this == Eligible
    }
  }

  /** The verdict recorded for a feasibility check's outcome. */
  function Verdict(eligible: bool): (r: ComputedClassFeasibility)
    ensures r.Decided()
    ensures r == Eligible <==> eligible
  {
    if eligible then Eligible else Ineligible
  }

  /** The constraints of the tasks, task after task. */
  function TaskConstraints(tasks: seq<Task>): (r: seq<Constraint>)
    ensures forall c :: c in r <==> exists k :: 0 <= k < |tasks| && c in tasks[k].constraints
  {
    if tasks == [] then []
    else TaskConstraints(tasks[..|tasks| - 1]) + tasks[|tasks| - 1].constraints
  }

  /** The constraints that bind a task group: its own, then those of each of its tasks. */
  function TaskGroupConstraints(tg: TaskGroup): (r: seq<Constraint>)
    ensures forall c :: c in r <==>
      c in tg.constraints || exists k :: 0 <= k < |tg.tasks| && c in tg.tasks[k].constraints
    ensures |tg.constraints| <= |r| && r[..|tg.constraints|] == tg.constraints
    ensures tg.tasks == [] ==> r == tg.constraints
  {
    tg.constraints + TaskConstraints(tg.tasks)
  }

  /** Read from the front, the first task's constraints come first, then those of the rest in order. */
  lemma {:induction false} TaskConstraintsCons(t: Task, ts: seq<Task>)
    ensures TaskConstraints([t] + ts) == t.constraints + TaskConstraints(ts)
  {
    var s := [t] + ts;
    if ts == [] {
      assert s[..|s| - 1] == [];
    } else {
      var init := ts[..|ts| - 1];
      assert s[..|s| - 1] == [t] + init;
      assert s[|s| - 1] == ts[|ts| - 1];
      TaskConstraintsCons(t, init);
    }
  }

  /**
   * Appending the first task's constraints to the group's own and dropping
   * that task gives the same list: the tasks' constraints follow the group's
   * in task order, duplicates kept.
   */
  lemma TaskGroupConstraintsCons(name: string, cs: seq<Constraint>, t: Task, ts: seq<Task>)
    ensures TaskGroupConstraints(TaskGroup(name, cs, [t] + ts)) ==
            TaskGroupConstraints(TaskGroup(name, cs + t.constraints, ts))
  {
    TaskConstraintsCons(t, ts);
    assert cs + (t.constraints + TaskConstraints(ts)) == (cs + t.constraints) + TaskConstraints(ts);
  }

  /** The names of a list of task groups. */
  function Names(tgs: seq<TaskGroup>): set<string> {
    set k | 0 <= k < |tgs| :: tgs[k].name
  }

  /** No later task group in `tgs` has the name of `tgs[k]`. */
  predicate LastNamed(tgs: seq<TaskGroup>, k: nat)
    requires k < |tgs|
  {
    forall j :: k < j < |tgs| ==> tgs[j].name != tgs[k].name
  }

  /**
   * The per-task-group escape lists after recording the task groups `tgs`, in
   * order, over `m`: each group's name is mapped to the escaped constraints of
   * its own and its tasks' constraints.
   */
  function RecordEscapes(m: map<string, seq<Constraint>>, tgs: seq<TaskGroup>,
                         escapedConstraints: seq<Constraint> -> seq<Constraint>): map<string, seq<Constraint>>
  {
    if tgs == [] then m
    else
      var last := tgs[|tgs| - 1];
      RecordEscapes(m, tgs[..|tgs| - 1], escapedConstraints)[last.name := escapedConstraints(TaskGroupConstraints(last))]
  }

  /** The names of a list of task groups grow by one name per appended group. */
  lemma NamesSnoc(tgs: seq<TaskGroup>)
    requires tgs != []
    ensures Names(tgs) == Names(tgs[..|tgs| - 1]) + {tgs[|tgs| - 1].name}
  {
  }

  /** Recording task groups adds exactly their names and keeps every other entry. */
  lemma {:induction false} RecordEscapesKeeps(m: map<string, seq<Constraint>>, tgs: seq<TaskGroup>,
                                              escapedConstraints: seq<Constraint> -> seq<Constraint>)
    ensures RecordEscapes(m, tgs, escapedConstraints).Keys == m.Keys + Names(tgs)
    ensures forall n :: n in m && n !in Names(tgs) ==> RecordEscapes(m, tgs, escapedConstraints)[n] == m[n]
  {
    if tgs != [] {
      RecordEscapesKeeps(m, tgs[..|tgs| - 1], escapedConstraints);
      NamesSnoc(tgs);
    }
  }

  /**
   * The last task group of a name decides that name's escape list: the
   * escaped constraints of its own and its tasks' constraints.
   */
  lemma {:induction false} RecordEscapesLast(m: map<string, seq<Constraint>>, tgs: seq<TaskGroup>,
                                             escapedConstraints: seq<Constraint> -> seq<Constraint>, k: nat)
    requires k < |tgs| && LastNamed(tgs, k)
    ensures tgs[k].name in RecordEscapes(m, tgs, escapedConstraints)
    ensures RecordEscapes(m, tgs, escapedConstraints)[tgs[k].name] == escapedConstraints(TaskGroupConstraints(tgs[k]))
  {
    var n := |tgs| - 1;
    if k < n {
      var init := tgs[..n];
      assert tgs[n].name != tgs[k].name;
      assert init[k] == tgs[k];
      assert LastNamed(init, k) by {
        forall j | k < j < |init| ensures init[j].name != init[k].name {
          assert init[j] == tgs[j];
        }
      }
      RecordEscapesLast(m, init, escapedConstraints, k);
    }
  }

  /**
   * Tracks the eligibility of computed node classes over one evaluation, at
   * the job level and per task group, together with the constraints that
   * escape class-based caching.
   */
  class EvalEligibility {
    var job: map<uint64, ComputedClassFeasibility>
    var jobEscapedConstraints: seq<Constraint>
    var taskGroups: map<string, map<uint64, ComputedClassFeasibility>>
    var tgEscapedConstraints: map<string, seq<Constraint>>

    /** Only decided verdicts are ever recorded. */
    ghost predicate Valid()
      reads this
    {
      && (forall c :: c in job ==> job[c].Decided())
      && (forall tg, c :: tg in taskGroups && c in taskGroups[tg] ==> taskGroups[tg][c].Decided())
    }

    /** Nothing recorded and nothing escaped. */
    predicate IsEmpty()
      reads this
    {
      job == map[] && jobEscapedConstraints == [] && taskGroups == map[] && tgEscapedConstraints == map[]
    }

    /** Class-based caching cannot be trusted for this class at the job level. */
    predicate JobEscaped(nodeClass: uint64)
      reads this
    {
      nodeClass == 0 || |jobEscapedConstraints| != 0
    }

    /**
     * Class-based caching cannot be trusted for this class and task group; a
     * group with no escape entry is not escaped.
     */
    predicate TaskGroupEscaped(tg: string, nodeClass: uint64)
      reads this
    {
      nodeClass == 0 || (tg in tgEscapedConstraints && |tgEscapedConstraints[tg]| != 0)
    }

    /** `NewEvalEligibility`: every class is unknown, except class 0 which is escaped. */
    constructor ()
      ensures Valid() && IsEmpty()
      ensures forall c: uint64 :: JobStatus(c) == if c == 0 then Escaped else Unknown
      ensures forall tg, c: uint64 :: TaskGroupStatus(tg, c) == if c == 0 then Escaped else Unknown
    {
      job, jobEscapedConstraints, taskGroups, tgEscapedConstraints := map[], [], map[], map[];
    }

    /**
     * Records the escaped constraints of the job and of each of its task
     * groups; recorded verdicts and the escape lists of groups the job does
     * not name are kept.
     */
    method SetJob(j: Job, escapedConstraints: seq<Constraint> -> seq<Constraint>)
      modifies this
      ensures jobEscapedConstraints == escapedConstraints(j.constraints)
      ensures tgEscapedConstraints == RecordEscapes(old(tgEscapedConstraints), j.taskGroups, escapedConstraints)
      ensures job == old(job) && taskGroups == old(taskGroups)
      ensures old(Valid()) ==> Valid()
    {
      jobEscapedConstraints := escapedConstraints(j.constraints);
      var i := 0;
      while i < |j.taskGroups|
        invariant 0 <= i <= |j.taskGroups|
        invariant tgEscapedConstraints == RecordEscapes(old(tgEscapedConstraints), j.taskGroups[..i], escapedConstraints)
        invariant job == old(job) && taskGroups == old(taskGroups)
        invariant jobEscapedConstraints == escapedConstraints(j.constraints)
      {
        var tg := j.taskGroups[i];
        var constraints := tg.constraints;
        var t := 0;
        while t < |tg.tasks|
          invariant 0 <= t <= |tg.tasks|
          invariant constraints == tg.constraints + TaskConstraints(tg.tasks[..t])
        {
          assert tg.tasks[..t + 1][..t] == tg.tasks[..t];
          constraints := constraints + tg.tasks[t].constraints;
          t := t + 1;
        }
        assert tg.tasks[..t] == tg.tasks;
        assert j.taskGroups[..i + 1][..i] == j.taskGroups[..i];
        tgEscapedConstraints := tgEscapedConstraints[tg.name := escapedConstraints(constraints)];
        i := i + 1;
      }
      assert j.taskGroups[..i] == j.taskGroups;
    }

    /**
     * The job-level status of a class: escaped whenever the class is 0 or the
     * job has escaped constraints, whatever was recorded; otherwise the
     * recorded verdict, or unknown when none was recorded.
     */
    function JobStatus(nodeClass: uint64): (r: ComputedClassFeasibility)
      requires Valid()
      reads this
      ensures r == Escaped <==> JobEscaped(nodeClass)
      ensures r == Unknown <==> !JobEscaped(nodeClass) && nodeClass !in job
      ensures r.Decided() ==> nodeClass in job && job[nodeClass] == r
    {
      if |jobEscapedConstraints| != 0 || nodeClass == 0 then Escaped
      else if nodeClass in job then job[nodeClass]
      else Unknown
    }

    /** Records the job-level verdict of a class, replacing any earlier one. */
    method SetJobEligibility(eligible: bool, nodeClass: uint64)
      requires Valid()
      modifies this`job
      ensures Valid()
      ensures job == old(job)[nodeClass := Verdict(eligible)]
      ensures JobStatus(nodeClass) == if JobEscaped(nodeClass) then Escaped else Verdict(eligible)
      ensures forall c: uint64 :: c != nodeClass ==> JobStatus(c) == old(JobStatus(c))
      ensures forall tg, c: uint64 :: TaskGroupStatus(tg, c) == old(TaskGroupStatus(tg, c))
    {
      if eligible {
        job := job[nodeClass := Eligible];
      } else {
        job := job[nodeClass := Ineligible];
      }
    }

    /**
     * The status of a class for a task group: escaped whenever the class is 0
     * or the group has escaped constraints, whatever was recorded; otherwise
     * the recorded verdict, or unknown when none was recorded (also for a
     * group never seen before).
     */
    function TaskGroupStatus(tg: string, nodeClass: uint64): (r: ComputedClassFeasibility)
      requires Valid()
      reads this
      ensures r == Escaped <==> TaskGroupEscaped(tg, nodeClass)
      ensures r == Unknown <==> !TaskGroupEscaped(tg, nodeClass) && !(tg in taskGroups && nodeClass in taskGroups[tg])
      ensures r.Decided() ==> tg in taskGroups && nodeClass in taskGroups[tg] && taskGroups[tg][nodeClass] == r
    {
      if nodeClass == 0 then Escaped
      else if tg in tgEscapedConstraints && |tgEscapedConstraints[tg]| != 0 then Escaped
      else if tg in taskGroups && nodeClass in taskGroups[tg] then taskGroups[tg][nodeClass]
      else Unknown
    }

    /**
     * Records the verdict of a class for a task group, creating the group's
     * class map on its first write; only that one entry changes.
     */
    method SetTaskGroupEligibility(eligible: bool, tg: string, nodeClass: uint64)
      requires Valid()
      modifies this`taskGroups
      ensures Valid()
      ensures taskGroups == old(taskGroups)[tg := (if tg in old(taskGroups) then old(taskGroups)[tg] else map[])[nodeClass := Verdict(eligible)]]
      ensures TaskGroupStatus(tg, nodeClass) == if TaskGroupEscaped(tg, nodeClass) then Escaped else Verdict(eligible)
      ensures forall g, c: uint64 :: (g, c) != (tg, nodeClass) ==> TaskGroupStatus(g, c) == old(TaskGroupStatus(g, c))
      ensures forall c: uint64 :: JobStatus(c) == old(JobStatus(c))
    {
      var eligibility := if eligible then Eligible else Ineligible;
      if tg in taskGroups {
        var classes := taskGroups[tg];
        taskGroups := taskGroups[tg := classes[nodeClass := eligibility]];
      } else {
        var classes: map<uint64, ComputedClassFeasibility> := map[nodeClass := eligibility];
        taskGroups := taskGroups[tg := classes];
      }
    }
  }

  // ---------------------------------------------------------------------------
  // A client of the contracts above
  // ---------------------------------------------------------------------------

  /**
   * From the contracts alone: the tracker is created once, the last recorded
   * verdict wins, class 0 reads as escaped and an unseen task group as unknown.
   */
  method LastWriteWinsScenario()
  {
    var ctx := new EvalContext(_ => Success(Nil), Plan(map[], map[]));
    var e := ctx.Eligibility();
    var again := ctx.Eligibility();
    assert again == e;

    e.SetJobEligibility(true, 5);
    assert e.JobStatus(5) == Eligible;
    e.SetJobEligibility(false, 5);
    assert e.JobStatus(5) == Ineligible;
    assert e.JobStatus(0) == Escaped;
    assert e.TaskGroupStatus("web", 3) == Unknown;
  }

  /**
   * From the contracts alone: on any context, the tracker it hands out can
   * be queried and updated at once, and a second call hands out the same one.
   */
  method ContextTrackerScenario(ctx: EvalContext)
    requires ctx.Valid()
    modifies ctx, ctx.eligibility
  {
    var e := ctx.Eligibility();
    var before := e.JobStatus(5);
    e.SetJobEligibility(true, 5);
    assert e.JobStatus(5) == if before == Escaped then Escaped else Eligible;
    var again := ctx.Eligibility();
    assert again == e && again.JobStatus(5) == e.JobStatus(5);
  }

  /**
   * From the contracts and lemmas alone: a group with no constraints of its
   * own and two tasks is bound by the first task's constraints, then the
   * second's.
   */
  method ConstraintOrderScenario(t1: Task, t2: Task)
  {
    TaskGroupConstraintsCons("g", [], t1, [t2]);
    TaskGroupConstraintsCons("g", [] + t1.constraints, t2, []);
    assert [t1] + [t2] == [t1, t2] && [t2] + [] == [t2];
    assert TaskGroupConstraints(TaskGroup("g", [], [t1, t2])) == t1.constraints + t2.constraints;
  }

  /** From the contracts alone: an escaped task group reads as escaped whatever was recorded. */
  method EscapePrecedenceScenario(escapedConstraints: seq<Constraint> -> seq<Constraint>)
  {
    var e := new EvalEligibility();
    var unique := Constraint("${attr.unique.hostname}", "a", "=");
    var web := TaskGroup("web", [unique], []);
    e.SetJob(Job([], [web]), escapedConstraints);
    RecordEscapesLast(map[], [web], escapedConstraints, 0);
    assert TaskGroupConstraints(web) == [unique];
    e.SetTaskGroupEligibility(true, "web", 3);
    assert e.TaskGroupStatus("web", 3) == if escapedConstraints([unique]) != [] then Escaped else Eligible;
  }

  /**
   * From the contract of `PlannedAllocs` alone: with `a`, `b` live and `c`
   * terminal on a node, a plan evicting `a` and placing `d` keeps `b` once,
   * drops `a` and `c`, and ends with `d`.
   */
  method PlannedAllocsScenario()
  {
    var a, b, c, d := Allocation("a", false), Allocation("b", false), Allocation("c", true), Allocation("d", false);
    var plan := Plan(map["n1" := [a]], map["n1" := [d]]);
    assert plan.Evictions("n1") == [a] && plan.Placements("n1") == [d];
    assert Ids([a]) == {"a"};
    var got := PlannedAllocs(Made([a, b, c]), plan, "n1").Elems();
    assert got[|got| - 1..] == [d];
    assert multiset(got)[a] == 0;
    assert multiset(got)[b] == 1;
    assert multiset(got)[c] == 0;
  }
}
