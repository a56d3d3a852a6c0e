/** Structural analysis of a plan: whether it is a simple chain, which
    tasks can run in one batch, when evaluation can be skipped, and the
    dependency-depth statistics. */
module PlanAnalyzer {
  import opened Wrappers
  import opened Schemas

  /** A plan is linear when it has at least one task and, if it has more
      than one, the first depends on nothing and every later task depends
      on exactly its predecessor. A single task is linear whatever it lists. */
  predicate Linear(plan: Option<Plan>) {
    && plan.Some?
    && |plan.value.tasks| > 0
    && (|plan.value.tasks| == 1 || Chained(plan.value.tasks))
  }

  predicate Chained(tasks: seq<Task>)
    requires |tasks| > 0
  {
    && tasks[0].dependsOn == []
    && forall i :: 1 <= i < |tasks| ==> tasks[i].dependsOn == [tasks[i - 1].id]
  }

  /** `is_linear_plan`: the loop stops at the first task that breaks the chain. */
  method IsLinearPlan(plan: Option<Plan>) returns (linear: bool)
    ensures linear == Linear(plan)
  {
    if plan.None? || plan.value.tasks == [] {
      return false;
    }
    var tasks := plan.value.tasks;
    if |tasks| == 1 {
      return true;
    }
    for i := 0 to |tasks|
      invariant i > 0 ==> tasks[0].dependsOn == []
      invariant forall k :: 1 <= k < i ==> tasks[k].dependsOn == [tasks[k - 1].id]
    {
      if i == 0 {
        if tasks[i].dependsOn != [] {
          return false;
        }
      } else if tasks[i].dependsOn != [tasks[i - 1].id] {
        return false;
      }
    }
    return true;
  }

  /** `get_execution_batch`: every remaining index of a linear plan, only
      the current one otherwise, nothing past the end or without a plan. */
  function ExecutionBatch(plan: Option<Plan>, current: nat): (batch: seq<nat>)
    ensures plan.None? || (plan.Some? && plan.value.tasks == []) ==> batch == []
    ensures forall k :: 0 <= k < |batch| ==> batch[k] == current + k
    ensures Linear(plan) ==> |batch| == if current < |plan.value.tasks| then |plan.value.tasks| - current else 0
    ensures plan.Some? && !Linear(plan) ==> |batch| == if current < |plan.value.tasks| then 1 else 0
  {
    if plan.None? || plan.value.tasks == [] then []
    else if !Linear(plan) then (if current < |plan.value.tasks| then [current] else [])
    else seq(if current < |plan.value.tasks| then |plan.value.tasks| - current else 0, k => current + k)
  }

  /** `can_skip_intermediate_evaluation`. */
  function CanSkipIntermediateEvaluation(plan: Option<Plan>, current: nat, allSucceeded: bool): (skip: bool)
    ensures skip <==> Linear(plan) && allSucceeded && current < |plan.value.tasks|
  {
    if plan.None? || plan.value.tasks == [] then false
    else if !Linear(plan) || !allSucceeded then false
    else current < |plan.value.tasks|
  }

  /** `should_finalize_directly`. */
  function ShouldFinalizeDirectly(plan: Option<Plan>, current: nat, allSucceeded: bool): (fin: bool)
    ensures fin <==> Linear(plan) && allSucceeded && current >= |plan.value.tasks|
  {
    if plan.None? || plan.value.tasks == [] then false
    else if !Linear(plan) || !allSucceeded then false
    else current >= |plan.value.tasks|
  }

  /** Skipping the intermediate evaluation and finalizing directly are
      never both allowed, and for a linear plan whose tasks all succeeded
      exactly one of them is. */
  lemma SkipAndFinalizeExclusive(plan: Option<Plan>, current: nat, allSucceeded: bool)
    ensures !(CanSkipIntermediateEvaluation(plan, current, allSucceeded) && ShouldFinalizeDirectly(plan, current, allSucceeded))
    ensures Linear(plan) && allSucceeded ==>
      CanSkipIntermediateEvaluation(plan, current, allSucceeded) || ShouldFinalizeDirectly(plan, current, allSucceeded)
  {
  }

  /** The result of `analyze_plan_complexity`; `dependencyLevels` is absent
      from the answer for an empty plan. */
  datatype Analysis = Analysis(
    isLinear: bool,
    taskCount: nat,
    maxParallel: nat,
    canBatchExecute: bool,
    dependencyLevels: Option<nat>)

  /** `dependency_depths.get(dep, 0)`. */
  function DepthGet(depths: map<string, nat>, id: string): nat {
    if id in depths then depths[id] else 0
  }

  /** `max(dependency_depths.get(dep, 0) for dep in deps)`. */
  function MaxDepth(deps: seq<string>, depths: map<string, nat>): (m: nat)
    requires deps != []
    ensures forall k :: 0 <= k < |deps| ==> DepthGet(depths, deps[k]) <= m
    ensures exists k :: 0 <= k < |deps| && m == DepthGet(depths, deps[k])
  {
    var last := DepthGet(depths, deps[|deps| - 1]);
    if |deps| == 1 then last
    else
      var m := MaxDepth(deps[..|deps| - 1], depths);
      if m < last then last else m
  }

  /** The depth a task gets from the depths recorded so far: 0 without
      dependencies, otherwise one more than its deepest dependency, where a
      dependency not yet recorded counts as 0. */
  function DepthOf(t: Task, depths: map<string, nat>): nat {
    if t.dependsOn == [] then 0 else MaxDepth(t.dependsOn, depths) + 1
  }

  /** The `dependency_depths` dictionary after the first loop: one entry
      per distinct id, a repeated id keeping its last computed depth. */
  function Depths(tasks: seq<Task>): (depths: map<string, nat>)
    ensures forall id :: id in depths <==> exists k :: 0 <= k < |tasks| && tasks[k].id == id
  {
    if tasks == [] then map[]
    else
      var d := Depths(tasks[..|tasks| - 1]);
      var t := tasks[|tasks| - 1];
      assert forall k :: 0 <= k < |tasks| - 1 ==> tasks[..|tasks| - 1][k] == tasks[k];
      d[t.id := DepthOf(t, d)]
  }

  /** The keys of `dependency_depths` in insertion order. */
  function IdOrder(tasks: seq<Task>): (ids: seq<string>)
    ensures forall id :: id in ids <==> exists k :: 0 <= k < |tasks| && tasks[k].id == id
    ensures |ids| <= |tasks|
  {
    if tasks == [] then []
    else
      var o := IdOrder(tasks[..|tasks| - 1]);
      var id := tasks[|tasks| - 1].id;
      assert forall k :: 0 <= k < |tasks| - 1 ==> tasks[..|tasks| - 1][k] == tasks[k];
      if id in o then o else o + [id]
  }

  /** Every id in insertion order has a recorded depth. */
  lemma IdsRecorded(tasks: seq<Task>)
    ensures forall k :: 0 <= k < |IdOrder(tasks)| ==> IdOrder(tasks)[k] in Depths(tasks)
  {
    var ids := IdOrder(tasks);
    forall k | 0 <= k < |ids|
      ensures ids[k] in Depths(tasks)
    {
      assert ids[k] in ids;
    }
  }

  /** The `depth_counts` dictionary built from the depths of `ids`, as its
      keys in insertion order and its mapping. */
  function Tally(ids: seq<string>, depths: map<string, nat>): (t: (seq<nat>, map<nat, nat>))
    requires forall k :: 0 <= k < |ids| ==> ids[k] in depths
    ensures forall l :: l in t.1 <==> l in t.0
    ensures forall l :: l in t.1 ==> 1 <= t.1[l] <= |ids|
    ensures forall k :: 0 <= k < |ids| ==> depths[ids[k]] in t.1
    ensures |t.0| <= |ids|
  {
    if ids == [] then ([], map[])
    else
      var (levels, counts) := Tally(ids[..|ids| - 1], depths);
      var d := depths[ids[|ids| - 1]];
      assert forall k :: 0 <= k < |ids| - 1 ==> ids[..|ids| - 1][k] == ids[k];
      if d in counts then (levels, counts[d := counts[d] + 1]) else (levels + [d], counts[d := 1])
  }

  /** `max(depth_counts.values())` over a non-empty dictionary. */
  function MaxCount(levels: seq<nat>, counts: map<nat, nat>): (m: nat)
    requires forall k :: 0 <= k < |levels| ==> levels[k] in counts
    ensures forall k :: 0 <= k < |levels| ==> counts[levels[k]] <= m
    ensures levels != [] ==> exists k :: 0 <= k < |levels| && m == counts[levels[k]]
  {
    if levels == [] then 0
    else
      var m := MaxCount(levels[..|levels| - 1], counts);
      var c := counts[levels[|levels| - 1]];
      if m < c then c else m
  }

  /** `max(depth_counts.values()) if depth_counts else 1`. */
  function MaxParallel(levels: seq<nat>, counts: map<nat, nat>): nat
    requires forall k :: 0 <= k < |levels| ==> levels[k] in counts
  {
    if levels == [] then 1 else MaxCount(levels, counts)
  }

  /** The whole analysis, as the function computes it. */
  function AnalysisOf(plan: Option<Plan>): (a: Analysis)
    ensures plan.None? || plan.value.tasks == [] ==> a == Analysis(false, 0, 0, false, None)
    ensures plan.Some? && plan.value.tasks != [] ==>
      && a.isLinear == Linear(plan)
      && a.taskCount == |plan.value.tasks|
      && a.canBatchExecute == (Linear(plan) && |plan.value.tasks| > 1)
      && a.dependencyLevels.Some?
      && 1 <= a.dependencyLevels.value <= |plan.value.tasks|
      && 1 <= a.maxParallel <= |plan.value.tasks|
  {
    if plan.None? || plan.value.tasks == [] then Analysis(false, 0, 0, false, None)
    else
      var tasks := plan.value.tasks;
      var depths := Depths(tasks);
      var ids := IdOrder(tasks);
      IdsRecorded(tasks);
      assert tasks[0].id in ids;
      var t := Tally(ids, depths);
      assert depths[ids[0]] in t.1;
      Analysis(Linear(plan), |tasks|, MaxParallel(t.0, t.1), Linear(plan) && |tasks| > 1, Some(|t.0|))
  }

  /** The first loop of `analyze_plan_complexity`: each task's depth,
      from the depths of the tasks before it. */
  method RecordDepths(tasks: seq<Task>) returns (depths: map<string, nat>, ids: seq<string>)
    ensures depths == Depths(tasks) && ids == IdOrder(tasks)
  {
    depths := map[];
    ids := [];
    for i := 0 to |tasks|
      invariant depths == Depths(tasks[..i])
      invariant ids == IdOrder(tasks[..i])
    {
      assert tasks[..i + 1][..i] == tasks[..i];
      var t := tasks[i];
      if t.id !in ids {
        ids := ids + [t.id];
      }
      depths := depths[t.id := DepthOf(t, depths)];
    }
    assert tasks[..|tasks|] == tasks;
  }

  /** The second loop: how many ids share each depth. */
  method CountDepths(ids: seq<string>, depths: map<string, nat>) returns (levels: seq<nat>, counts: map<nat, nat>)
    requires forall k :: 0 <= k < |ids| ==> ids[k] in depths
    ensures (levels, counts) == Tally(ids, depths)
  {
    levels := [];
    counts := map[];
    for j := 0 to |ids|
      invariant (levels, counts) == Tally(ids[..j], depths)
    {
      assert ids[..j + 1][..j] == ids[..j];
      var d := depths[ids[j]];
      if d in counts {
        counts := counts[d := counts[d] + 1];
      } else {
        levels := levels + [d];
        counts := counts[d := 1];
      }
    }
    assert ids[..|ids|] == ids;
  }

  /** The two statistics of a non-empty plan's analysis, read off the tally. */
  lemma AnalysisStatistics(tasks: seq<Task>, reasoning: string)
    requires tasks != []
    ensures forall k :: 0 <= k < |IdOrder(tasks)| ==> IdOrder(tasks)[k] in Depths(tasks)
    ensures AnalysisOf(Some(Plan(tasks, reasoning))).dependencyLevels == Some(|Tally(IdOrder(tasks), Depths(tasks)).0|)
    ensures AnalysisOf(Some(Plan(tasks, reasoning))).maxParallel == MaxParallel(Tally(IdOrder(tasks), Depths(tasks)).0, Tally(IdOrder(tasks), Depths(tasks)).1)
  {
    IdsRecorded(tasks);
  }

  /** `analyze_plan_complexity`. */
  method AnalyzePlanComplexity(plan: Option<Plan>) returns (a: Analysis)
    ensures a == AnalysisOf(plan)
  {
    if plan.None? || plan.value.tasks == [] {
      return Analysis(false, 0, 0, false, None);
    }
    var tasks := plan.value.tasks;
    var linear := IsLinearPlan(plan);
    var depths, ids := RecordDepths(tasks);
    IdsRecorded(tasks);
    var levels, counts := CountDepths(ids, depths);
    a := Analysis(linear, |tasks|, MaxParallel(levels, counts), linear && |tasks| > 1, Some(|levels|));
  }

  /** Task ids are pairwise distinct. */
  predicate DistinctIds(tasks: seq<Task>) {
    forall i, j :: 0 <= i < j < |tasks| ==> tasks[i].id != tasks[j].id
  }

  /** In a chain with distinct ids, the task at position k has depth k. */
  lemma {:induction false} ChainDepths(tasks: seq<Task>, n: nat)
    requires 0 < |tasks| && Chained(tasks) && DistinctIds(tasks) && n <= |tasks|
    ensures forall k :: 0 <= k < n ==> tasks[k].id in Depths(tasks[..n]) && Depths(tasks[..n])[tasks[k].id] == k
  {
    if n > 0 {
      ChainDepths(tasks, n - 1);
      var d := Depths(tasks[..n - 1]);
      ChainDepthStep(tasks, n, d);
      DepthsSnoc(tasks, n);
      DepthsAfter(tasks, n, d);
    }
  }

  /** The next task of a chain sits one level below its predecessor. */
  lemma ChainDepthStep(tasks: seq<Task>, n: nat, d: map<string, nat>)
    requires 0 < n <= |tasks| && Chained(tasks)
    requires n > 1 ==> tasks[n - 2].id in d && d[tasks[n - 2].id] == n - 2
    ensures DepthOf(tasks[n - 1], d) == n - 1
  {
    if n > 1 {
      var deps := tasks[n - 1].dependsOn;
      assert deps == [tasks[n - 2].id];
      assert MaxDepth(deps, d) == DepthGet(d, deps[0]);
    }
  }

  /** `dependency_depths` after one more task: that task's id is set to
      the depth computed from the entries before it. */
  lemma DepthsSnoc(tasks: seq<Task>, n: nat)
    requires 0 < n <= |tasks|
    ensures Depths(tasks[..n]) == Depths(tasks[..n - 1])[tasks[n - 1].id := DepthOf(tasks[n - 1], Depths(tasks[..n - 1]))]
  {
    assert tasks[..n][..n - 1] == tasks[..n - 1];
  }

  /** Setting the id at position n - 1 to n - 1 leaves the entries of the
      earlier, distinct ids as they were. */
  lemma DepthsAfter(tasks: seq<Task>, n: nat, d: map<string, nat>)
    requires 0 < n <= |tasks|
    requires forall k :: 0 <= k < n - 1 ==> tasks[k].id != tasks[n - 1].id
    requires forall k :: 0 <= k < n - 1 ==> tasks[k].id in d && d[tasks[k].id] == k
    ensures forall k :: 0 <= k < n ==> tasks[k].id in d[tasks[n - 1].id := n - 1] && d[tasks[n - 1].id := n - 1][tasks[k].id] == k
  {
  }

  /** With distinct ids, the insertion order is the task order. */
  lemma {:induction false} DistinctIdOrder(tasks: seq<Task>, n: nat)
    requires DistinctIds(tasks) && n <= |tasks|
    ensures |IdOrder(tasks[..n])| == n
    ensures forall k :: 0 <= k < n ==> IdOrder(tasks[..n])[k] == tasks[k].id
  {
    if n > 0 {
      DistinctIdOrder(tasks, n - 1);
      assert tasks[..n][..n - 1] == tasks[..n - 1];
      var o := IdOrder(tasks[..n - 1]);
      assert tasks[n - 1].id !in o;
    }
  }

  /** With ids pairwise distinct and depth k at position k, every depth is
      its own level, counted once. */
  lemma {:induction false} TallyOfChain(ids: seq<string>, depths: map<string, nat>, n: nat)
    requires forall k :: 0 <= k < |ids| ==> ids[k] in depths && depths[ids[k]] == k
    requires n <= |ids|
    ensures |Tally(ids[..n], depths).0| == n
    ensures forall l :: l in Tally(ids[..n], depths).1 ==> l < n && Tally(ids[..n], depths).1[l] == 1
  {
    if n > 0 {
      TallyOfChain(ids, depths, n - 1);
      assert ids[..n][..n - 1] == ids[..n - 1];
      TallyFresh(ids[..n], ids[..n - 1], depths, n - 1);
    }
  }

  /** Appending an id whose depth is above every level seen so far opens a
      new level counted once. */
  lemma TallyFresh(ids: seq<string>, front: seq<string>, depths: map<string, nat>, d: nat)
    requires forall k :: 0 <= k < |ids| ==> ids[k] in depths
    requires ids != [] && front == ids[..|ids| - 1] && d == depths[ids[|ids| - 1]]
    requires |Tally(front, depths).0| == d
    requires forall l :: l in Tally(front, depths).1 ==> l < d && Tally(front, depths).1[l] == 1
    ensures |Tally(ids, depths).0| == d + 1
    ensures forall l :: l in Tally(ids, depths).1 ==> l <= d && Tally(ids, depths).1[l] == 1
  {
    var (levels, counts) := Tally(front, depths);
    assert d !in counts;
    assert Tally(ids, depths) == (levels + [d], counts[d := 1]);
  }

  /** The depth tally of a linear plan with distinct ids: one level per
      task, each holding one task. */
  lemma {:induction false} ChainTally(tasks: seq<Task>)
    requires Linear(Some(Plan(tasks, ""))) && DistinctIds(tasks)
    ensures forall k :: 0 <= k < |IdOrder(tasks)| ==> IdOrder(tasks)[k] in Depths(tasks)
    ensures |Tally(IdOrder(tasks), Depths(tasks)).0| == |tasks|
    ensures forall l :: l in Tally(IdOrder(tasks), Depths(tasks)).1 ==> Tally(IdOrder(tasks), Depths(tasks)).1[l] == 1
  {
    var n := |tasks|;
    assert tasks[..n] == tasks;
    DistinctIdOrder(tasks, n);
    IdsRecorded(tasks);
    var ids := IdOrder(tasks);
    var depths := Depths(tasks);
    if n == 1 {
      assert ids[..0] == [];
    } else {
      ChainDepths(tasks, n);
      TallyOfChain(ids, depths, |ids|);
      assert ids[..|ids|] == ids;
    }
  }

  /** A linear plan with distinct ids is a single chain: it has one
      dependency level per task, and never more than one task per level. */
  lemma {:induction false} LinearPlanIsOneChain(plan: Option<Plan>)
    requires Linear(plan) && DistinctIds(plan.value.tasks)
    ensures AnalysisOf(plan).dependencyLevels == Some(|plan.value.tasks|)
    ensures AnalysisOf(plan).maxParallel == 1
  {
    var tasks := plan.value.tasks;
    ChainTally(tasks);
    AnalysisStatistics(tasks, plan.value.reasoning);
    var t := Tally(IdOrder(tasks), Depths(tasks));
    var m := MaxCount(t.0, t.1);
    var k :| 0 <= k < |t.0| && m == t.1[t.0[k]];
    assert t.0[k] in t.1;
  }
}
