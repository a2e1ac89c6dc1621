/**
 Loading an automatic tool changer for a fixed order of jobs: the tool plan of
 app/autoschedule.py, and the proof that no other way of handling the magazine does better.
 */
module ToolPlans {
  import opened Outcomes

  /** A tool is known by its number. */
  datatype Tool = T(number: int)

  datatype Job = Job(palletId: string, name: string, program: string, tools: set<Tool>, originalPosition: int)

  datatype Step = Step(
    palletId: string, name: string, program: string,
    required: set<Tool>, loadBefore: set<Tool>, unloadBefore: set<Tool>, atcAfter: set<Tool>)

  datatype Plan = Plan(palletIds: seq<string>, loads: nat, unloads: nat, steps: seq<Step>) {
    function Movements(): nat {
      loads + unloads
    }
  }

  /** The error raised for a job that can never fit. */
  datatype Oversized = Oversized(name: string, toolCount: nat, capacity: int)

  // ---------- choosing what to evict ----------

  /** Index of the next job from `start` on that uses `tool`; beyond the last index when none does. */
  function NextUse(tool: Tool, jobs: seq<Job>, start: nat): nat
    requires start <= |jobs|
    decreases |jobs| - start
  {
    if start == |jobs| then |jobs| + 1
    else if tool in jobs[start].tools then start
    else NextUse(tool, jobs, start + 1)
  }

  /** Every tool used by the jobs from index `lo` up to, not including, `hi`. */
  function ToolsOf(jobs: seq<Job>, lo: nat, hi: nat): set<Tool>
    requires lo <= hi <= |jobs|
    decreases hi - lo
  {
    if lo == hi then {} else jobs[lo].tools + ToolsOf(jobs, lo + 1, hi)
  }

  /** A tool's next use comes before `t` exactly when a job before `t` uses it. */
  lemma {:induction false} NextUseIsSoonest(tool: Tool, jobs: seq<Job>, start: nat, t: nat)
    requires start <= t <= |jobs|
    ensures NextUse(tool, jobs, start) < t <==> tool in ToolsOf(jobs, start, t)
    decreases t - start
  {
    NextUseRange(tool, jobs, start);
    if start < t {
      NextUseIsSoonest(tool, jobs, start + 1, t);
    }
  }

  lemma {:induction false} NextUseRange(tool: Tool, jobs: seq<Job>, start: nat)
    requires start <= |jobs|
    ensures NextUse(tool, jobs, start) == |jobs| + 1 || start <= NextUse(tool, jobs, start) < |jobs|
    decreases |jobs| - start
  {
    if start < |jobs| {
      NextUseRange(tool, jobs, start + 1);
    }
  }

  /** The sort key (-next use, tool), compared. */
  predicate EvictsBefore(t: Tool, u: Tool, jobs: seq<Job>, start: nat)
    requires start <= |jobs|
  {
    var a, b := NextUse(t, jobs, start), NextUse(u, jobs, start);
    a > b || (a == b && t.number < u.number)
  }

  predicate IsFirst(t: Tool, tools: set<Tool>, jobs: seq<Job>, start: nat)
    requires start <= |jobs|
  {
    t in tools && forall u | u in tools :: t == u || EvictsBefore(t, u, jobs, start)
  }

  lemma {:induction false} FirstToEvictExists(tools: set<Tool>, jobs: seq<Job>, start: nat)
    requires tools != {} && start <= |jobs|
    ensures exists t :: IsFirst(t, tools, jobs, start)
  {
    var x :| x in tools;
    if tools - {x} == {} {
      forall u | u in tools
        ensures x == u
      {
        assert u == x || u in tools - {x};
      }
      assert IsFirst(x, tools, jobs, start);
    } else {
      FirstToEvictExists(tools - {x}, jobs, start);
      var y :| IsFirst(y, tools - {x}, jobs, start);
      var first := if EvictsBefore(x, y, jobs, start) then x else y;
      forall u | u in tools
        ensures first == u || EvictsBefore(first, u, jobs, start)
      {
        assert u == x || u in tools - {x};
      }
      assert IsFirst(first, tools, jobs, start);
    }
  }

  function FirstToEvict(tools: set<Tool>, jobs: seq<Job>, start: nat): (t: Tool)
    requires tools != {} && start <= |jobs|
    ensures t in tools
  {
    FirstToEvictExists(tools, jobs, start);
    var t :| IsFirst(t, tools, jobs, start);
    t
  }

  /** The tools in the order the plan would evict them. */
  function EvictionOrder(tools: set<Tool>, jobs: seq<Job>, start: nat): (order: seq<Tool>)
    requires start <= |jobs|
    ensures |order| == |tools|
  {
    if tools == {} then [] else
      var t := FirstToEvict(tools, jobs, start);
      [t] + EvictionOrder(tools - {t}, jobs, start)
  }

  /** It is the set sorted by the key. */
  lemma {:induction false} EvictionOrderIsSorted(tools: set<Tool>, jobs: seq<Job>, start: nat)
    requires start <= |jobs|
    ensures var order := EvictionOrder(tools, jobs, start);
            && (forall t :: t in order <==> t in tools)
            && (forall i, j | 0 <= i < j < |order| :: EvictsBefore(order[i], order[j], jobs, start))
  {
    if tools != {} {
      var t := FirstToEvict(tools, jobs, start);
      FirstToEvictExists(tools, jobs, start);
      EvictionOrderIsSorted(tools - {t}, jobs, start);
      var rest := EvictionOrder(tools - {t}, jobs, start);
      assert EvictionOrder(tools, jobs, start) == [t] + rest;
    }
  }

  function RemoveCount(loaded: set<Tool>, required: set<Tool>, capacity: int): nat {
    var excess := |loaded| + |required - loaded| - capacity;
    if excess < 0 then 0 else excess
  }

  lemma {:induction false} Split(a: set<Tool>, b: set<Tool>)
    ensures |a| == |a * b| + |a - b|
  {
    assert a == (a * b) + (a - b);
  }

  lemma {:induction false} RoomForRequired(loaded: set<Tool>, required: set<Tool>, capacity: int)
    requires |required| <= capacity
    ensures RemoveCount(loaded, required, capacity) <= |loaded - required|
  {
    Split(loaded, required);
    Split(required, loaded);
    assert loaded * required == required * loaded;
  }

  function Members(s: seq<Tool>): set<Tool> {
    set t | t in s
  }

  /** The tools taken out before `jobs[index]` runs. */
  function Removals(loaded: set<Tool>, jobs: seq<Job>, index: nat, capacity: int): set<Tool>
    requires index < |jobs| && |jobs[index].tools| <= capacity
  {
    var required := jobs[index].tools;
    RoomForRequired(loaded, required, capacity);
    var order := EvictionOrder(loaded - required, jobs, index + 1);
    Members(order[..RemoveCount(loaded, required, capacity)])
  }

  /**
   Just enough tools go, none of them required, and each is needed later than all that stay, or as late and has a smaller
   number.
   */
  predicate EvictsFurthest(out: set<Tool>, loaded: set<Tool>, jobs: seq<Job>, index: nat, capacity: int)
    requires index < |jobs|
  {
    var required := jobs[index].tools;
    && out <= loaded - required
    && |loaded - out + required| <= capacity
    && (out != {} ==> |loaded - out + required| == capacity)
    && forall kept, gone | kept in loaded - required - out && gone in out :: GoesRather(gone, kept, jobs, index + 1)
  }

  predicate GoesRather(gone: Tool, kept: Tool, jobs: seq<Job>, start: nat)
    requires start <= |jobs|
  {
    || NextUse(kept, jobs, start) < NextUse(gone, jobs, start)
    || (NextUse(kept, jobs, start) == NextUse(gone, jobs, start) && gone.number < kept.number)
  }

  /** What is taken out is exactly that: no other set of tools is. */
  lemma {:induction false} RemovalsGoFurthest(loaded: set<Tool>, jobs: seq<Job>, index: nat, capacity: int)
    requires index < |jobs| && |jobs[index].tools| <= capacity
    ensures var out := Removals(loaded, jobs, index, capacity);
            && |out| == RemoveCount(loaded, jobs[index].tools, capacity)
            && EvictsFurthest(out, loaded, jobs, index, capacity)
    ensures forall out | EvictsFurthest(out, loaded, jobs, index, capacity) :: out == Removals(loaded, jobs, index, capacity)
  {
    RemovalsEvict(loaded, jobs, index, capacity);
    forall out | EvictsFurthest(out, loaded, jobs, index, capacity)
      ensures out == Removals(loaded, jobs, index, capacity)
    {
      EvictionIsUnique(out, Removals(loaded, jobs, index, capacity), loaded, jobs, index, capacity);
    }
  }

  lemma {:induction false} EvictionIsUnique(a: set<Tool>, b: set<Tool>, loaded: set<Tool>, jobs: seq<Job>,
        index: nat, capacity: int)
    requires index < |jobs| && |jobs[index].tools| <= capacity
    requires EvictsFurthest(a, loaded, jobs, index, capacity) && EvictsFurthest(b, loaded, jobs, index, capacity)
    ensures a == b
  {
    EvictedCount(a, loaded, jobs[index].tools, capacity);
    EvictedCount(b, loaded, jobs[index].tools, capacity);
    hide GoesRather;
    forall x, y | x in a - b && y in b - a
      ensures false
    {
      assert x in loaded - jobs[index].tools - b && y in loaded - jobs[index].tools - a;
      NotBothRather(x, y, jobs, index + 1);
    }
    Split(a, b);
    Split(b, a);
    assert a * b == b * a;
    assert a - b == {} && b - a == {};
  }

  lemma {:induction false} NotBothRather(t: Tool, u: Tool, jobs: seq<Job>, start: nat)
    requires start <= |jobs| && GoesRather(t, u, jobs, start)
    ensures !GoesRather(u, t, jobs, start)
  {
  }

  /** Evicting for the room that is needed, and not more, fixes how many tools go. */
  lemma {:induction false} EvictedCount(out: set<Tool>, loaded: set<Tool>, required: set<Tool>, capacity: int)
    requires out <= loaded - required && |loaded - out + required| <= capacity
    requires out != {} ==> |loaded - out + required| == capacity
    ensures |out| == RemoveCount(loaded, required, capacity)
  {
    var after := loaded - out + required;
    assert after == (loaded - out) + (required - loaded);
    assert loaded == (loaded - out) + out;
  }

  lemma {:induction false} RemovalsEvict(loaded: set<Tool>, jobs: seq<Job>, index: nat, capacity: int)
    requires index < |jobs| && |jobs[index].tools| <= capacity
    ensures var out := Removals(loaded, jobs, index, capacity);
            && |out| == RemoveCount(loaded, jobs[index].tools, capacity)
            && EvictsFurthest(out, loaded, jobs, index, capacity)
  {
    var required := jobs[index].tools;
    RoomForRequired(loaded, required, capacity);
    var n := RemoveCount(loaded, required, capacity);
    EvictionOrderIsSorted(loaded - required, jobs, index + 1);
    var order := EvictionOrder(loaded - required, jobs, index + 1);
    PrefixSet(order, n, jobs, index + 1);
    var out := Removals(loaded, jobs, index, capacity);
    WithinCapacity(loaded, required, out, loaded - out + required, capacity);
    forall kept, gone | kept in loaded - required - out && gone in out
      ensures GoesRather(gone, kept, jobs, index + 1)
    {
      PrefixGoesFurthest(order, n, jobs, index + 1, kept, gone);
    }
  }

  lemma {:induction false} PrefixGoesFurthest(order: seq<Tool>, n: nat, jobs: seq<Job>, start: nat, kept: Tool, gone: Tool)
    requires n <= |order| && start <= |jobs|
    requires forall i, j | 0 <= i < j < |order| :: EvictsBefore(order[i], order[j], jobs, start)
    requires gone in order[..n] && kept in order && kept !in order[..n]
    ensures GoesRather(gone, kept, jobs, start)
  {
    var i :| 0 <= i < n && order[i] == gone;
    var j :| 0 <= j < |order| && order[j] == kept;
    assert EvictsBefore(order[i], order[j], jobs, start);
  }

  lemma {:induction false} PrefixSet(order: seq<Tool>, n: nat, jobs: seq<Job>, start: nat)
    requires n <= |order| && start <= |jobs|
    requires forall i, j | 0 <= i < j < |order| :: EvictsBefore(order[i], order[j], jobs, start)
    ensures |Members(order[..n])| == n
  {
    if n > 0 {
      PrefixSet(order, n - 1, jobs, start);
      assert order[..n] == order[..n - 1] + [order[n - 1]];
      assert Members(order[..n]) == Members(order[..n - 1]) + {order[n - 1]};
      assert forall i | 0 <= i < n - 1 :: EvictsBefore(order[i], order[n - 1], jobs, start);
      assert order[n - 1] !in Members(order[..n - 1]);
    }
  }

  // ---------- the plan ----------

  /** What the loop of `simulate_tool_plan` has accumulated before a given job. */
  datatype Progress = Progress(loaded: set<Tool>, plan: Plan)

  function After(loaded: set<Tool>, jobs: seq<Job>, index: nat, capacity: int): set<Tool>
    requires index < |jobs| && |jobs[index].tools| <= capacity
  {
    loaded - Removals(loaded, jobs, index, capacity) + jobs[index].tools
  }

  predicate Fits(jobs: seq<Job>, capacity: int) {
    forall i | 0 <= i < |jobs| :: |jobs[i].tools| <= capacity
  }

  predicate FitsUpTo(jobs: seq<Job>, k: nat, capacity: int)
    requires k <= |jobs|
  {
    forall i | 0 <= i < k :: |jobs[i].tools| <= capacity
  }

  /** Load what `jobs[index]` needs, having evicted looking ahead over the whole order. */
  function RunJob(p: Progress, jobs: seq<Job>, index: nat, capacity: int): Progress
    requires index < |jobs| && |jobs[index].tools| <= capacity
  {
    var job := jobs[index];
    Extend(p, job, Removals(p.loaded, jobs, index, capacity), After(p.loaded, jobs, index, capacity))
  }

  function Extend(p: Progress, job: Job, removals: set<Tool>, loaded: set<Tool>): Progress {
    var missing := job.tools - p.loaded;
    Progress(loaded, Plan(
      p.plan.palletIds + [job.palletId],
      p.plan.loads + |missing|,
      p.plan.unloads + |removals|,
      p.plan.steps + [Step(job.palletId, job.name, job.program, job.tools, missing, removals, loaded)]))
  }

  /** The loop of `simulate_tool_plan` after `k` jobs. */
  function ProgressAt(jobs: seq<Job>, initial: set<Tool>, capacity: int, k: nat): Progress
    requires k <= |jobs| && FitsUpTo(jobs, k, capacity)
  {
    if k == 0 then Progress(initial, Plan([], 0, 0, []))
    else RunJob(ProgressAt(jobs, initial, capacity, k - 1), jobs, k - 1, capacity)
  }

  function FirstOversized(jobs: seq<Job>, capacity: int): (e: Oversized)
    requires !Fits(jobs, capacity)
  {
    if |jobs[0].tools| > capacity then Oversized(jobs[0].name, |jobs[0].tools|, capacity)
    else FirstOversized(jobs[1..], capacity)
  }

  function PlanFor(jobs: seq<Job>, initial: set<Tool>, capacity: int): Plan
    requires Fits(jobs, capacity)
  {
    ProgressAt(jobs, initial, capacity, |jobs|).plan
  }

  lemma {:induction false} FirstOversizedAt(jobs: seq<Job>, capacity: int, k: nat)
    requires k < |jobs| && FitsUpTo(jobs, k, capacity) && |jobs[k].tools| > capacity
    ensures !Fits(jobs, capacity)
    ensures FirstOversized(jobs, capacity) == Oversized(jobs[k].name, |jobs[k].tools|, capacity)
  {
    if k > 0 {
      FirstOversizedAt(jobs[1..], capacity, k - 1);
    }
  }

  lemma {:induction false} NextProgress(jobs: seq<Job>, initial: set<Tool>, capacity: int, index: nat, p: Progress)
    requires index < |jobs| && FitsUpTo(jobs, index + 1, capacity)
    requires p == ProgressAt(jobs, initial, capacity, index)
    ensures var removals := Removals(p.loaded, jobs, index, capacity);
            Extend(p, jobs[index], removals, p.loaded - removals + (jobs[index].tools - p.loaded))
            == ProgressAt(jobs, initial, capacity, index + 1)
  {
    hide Removals, NextUse, GoesRather;
    RemovalsEvict(p.loaded, jobs, index, capacity);
    Exchanged(p.loaded, jobs[index].tools, Removals(p.loaded, jobs, index, capacity), After(p.loaded, jobs, index, capacity));
  }

  /** Plan the magazine for `jobs` in the order given, keeping the tools needed soonest. */
  method SimulateToolPlan(jobs: seq<Job>, initialTools: set<Tool>, capacity: int) returns (r: Result<Plan, Oversized>)
    ensures r.Success? <==> Fits(jobs, capacity)
    ensures r.Success? ==> r.value == PlanFor(jobs, initialTools, capacity)
    ensures r.Success? ==> Tells(r.value, jobs, initialTools, capacity)
    ensures r.Failure? ==> r.error == FirstOversized(jobs, capacity)
  {
    hide Tells;
    var loaded := initialTools;
    var palletIds, steps: seq<Step> := [], [];
    var totalLoads: nat, totalUnloads: nat := 0, 0;
    for index := 0 to |jobs|
      invariant FitsUpTo(jobs, index, capacity)
      invariant ProgressAt(jobs, initialTools, capacity, index)
             == Progress(loaded, Plan(palletIds, totalLoads, totalUnloads, steps))
    {
      var job := jobs[index];
      if |job.tools| > capacity {
        FirstOversizedAt(jobs, capacity, index);
        return Failure(Oversized(job.name, |job.tools|, capacity));
      }
      assert FitsUpTo(jobs, index + 1, capacity);
      NextProgress(jobs, initialTools, capacity, index, Progress(loaded, Plan(palletIds, totalLoads, totalUnloads, steps)));
      var missing := job.tools - loaded;
      var removals := Removals(loaded, jobs, index, capacity);
      loaded := loaded - removals + missing;
      totalLoads := totalLoads + |missing|;
      totalUnloads := totalUnloads + |removals|;
      palletIds := palletIds + [job.palletId];
      steps := steps + [Step(job.palletId, job.name, job.program, job.tools, missing, removals, loaded)];
    }
    PlanTells(jobs, initialTools, capacity);
    return Success(Plan(palletIds, totalLoads, totalUnloads, steps));
  }

  // ---------- what the plan tells the operator ----------

  function LoadedBefore(steps: seq<Step>, initial: set<Tool>, k: nat): set<Tool>
    requires k <= |steps|
  {
    if k == 0 then initial else steps[k - 1].atcAfter
  }

  /** The step is for `jobs[k]`, and from `before` it loads what is missing and unloads what is needed last. */
  predicate StepTells(step: Step, jobs: seq<Job>, k: nat, before: set<Tool>, capacity: int)
    requires k < |jobs|
  {
    && step.palletId == jobs[k].palletId && step.name == jobs[k].name && step.program == jobs[k].program
    && step.required == jobs[k].tools
    && step.loadBefore == jobs[k].tools - before == step.atcAfter - before
    && step.unloadBefore == before - step.atcAfter
    && EvictsFurthest(step.unloadBefore, before, jobs, k, capacity)
    && step.atcAfter == before - step.unloadBefore + step.loadBefore
  }

  predicate StepsTell(steps: seq<Step>, jobs: seq<Job>, initial: set<Tool>, capacity: int) {
    |steps| <= |jobs| && forall k | 0 <= k < |steps| :: StepTells(steps[k], jobs, k, LoadedBefore(steps, initial, k), capacity)
  }

  function LoadedIn(steps: seq<Step>): nat {
    if steps == [] then 0 else LoadedIn(steps[..|steps| - 1]) + |steps[|steps| - 1].loadBefore|
  }

  function UnloadedIn(steps: seq<Step>): nat {
    if steps == [] then 0 else UnloadedIn(steps[..|steps| - 1]) + |steps[|steps| - 1].unloadBefore|
  }

  /** There is a step for each job, and the counters are those of the steps. */
  predicate Tells(plan: Plan, jobs: seq<Job>, initial: set<Tool>, capacity: int) {
    && |plan.steps| == |plan.palletIds| == |jobs|
    && (forall k | 0 <= k < |jobs| :: plan.palletIds[k] == jobs[k].palletId)
    && StepsTell(plan.steps, jobs, initial, capacity)
    && plan.loads == LoadedIn(plan.steps) && plan.unloads == UnloadedIn(plan.steps)
  }

  ghost predicate TellsSoFar(p: Progress, jobs: seq<Job>, initial: set<Tool>, capacity: int, k: nat)
    requires k <= |jobs|
  {
    && |p.plan.steps| == |p.plan.palletIds| == k
    && (forall i | 0 <= i < k :: p.plan.palletIds[i] == jobs[i].palletId)
    && StepsTell(p.plan.steps, jobs, initial, capacity)
    && p.plan.loads == LoadedIn(p.plan.steps) && p.plan.unloads == UnloadedIn(p.plan.steps)
    && p.loaded == LoadedBefore(p.plan.steps, initial, k)
  }

  lemma {:induction false} PlanTells(jobs: seq<Job>, initial: set<Tool>, capacity: int)
    requires Fits(jobs, capacity)
    ensures Tells(PlanFor(jobs, initial, capacity), jobs, initial, capacity)
  {
    ProgressTells(jobs, initial, capacity, |jobs|);
  }

  lemma {:induction false} ProgressTells(jobs: seq<Job>, initial: set<Tool>, capacity: int, k: nat)
    requires k <= |jobs| && FitsUpTo(jobs, k, capacity)
    ensures TellsSoFar(ProgressAt(jobs, initial, capacity, k), jobs, initial, capacity, k)
  {
    hide TellsSoFar, RunJob, NextUse;
    if k == 0 {
      NothingTold(jobs, initial, capacity);
    } else {
      ProgressTells(jobs, initial, capacity, k - 1);
      JobTells(ProgressAt(jobs, initial, capacity, k - 1), jobs, initial, capacity, k - 1);
    }
  }

  lemma {:induction false} NothingTold(jobs: seq<Job>, initial: set<Tool>, capacity: int)
    ensures TellsSoFar(Progress(initial, Plan([], 0, 0, [])), jobs, initial, capacity, 0)
  {
    hide StepTells, NextUse;
  }

  lemma {:induction false} JobTells(p: Progress, jobs: seq<Job>, initial: set<Tool>, capacity: int, k: nat)
    requires k < |jobs| && |jobs[k].tools| <= capacity && TellsSoFar(p, jobs, initial, capacity, k)
    ensures TellsSoFar(RunJob(p, jobs, k, capacity), jobs, initial, capacity, k + 1)
  {
    hide StepTells, StepsTell, LoadedIn, UnloadedIn, Removals, After;
    var q := RunJob(p, jobs, k, capacity);
    var step := q.plan.steps[k];
    JobStepTells(p, jobs, capacity, k);
    assert step.loadBefore == jobs[k].tools - p.loaded && q.loaded == step.atcAfter;
    OneMoreTells(p.plan.steps, step, jobs, initial, capacity);
    assert q.plan.steps == p.plan.steps + [step];
  }

  lemma {:induction false} JobStepTells(p: Progress, jobs: seq<Job>, capacity: int, k: nat)
    requires k < |jobs| && |jobs[k].tools| <= capacity && |p.plan.steps| == k
    ensures var q := RunJob(p, jobs, k, capacity);
            |q.plan.steps| == k + 1 && StepTells(q.plan.steps[k], jobs, k, p.loaded, capacity)
  {
    hide Removals, NextUse, GoesRather;
    RemovalsEvict(p.loaded, jobs, k, capacity);
    Exchanged(p.loaded, jobs[k].tools, Removals(p.loaded, jobs, k, capacity), After(p.loaded, jobs, k, capacity));
  }

  lemma {:induction false} OneMoreTells(steps: seq<Step>, step: Step, jobs: seq<Job>, initial: set<Tool>, capacity: int)
    requires StepsTell(steps, jobs, initial, capacity) && |steps| < |jobs|
    requires StepTells(step, jobs, |steps|, LoadedBefore(steps, initial, |steps|), capacity)
    ensures var more := steps + [step];
            && StepsTell(more, jobs, initial, capacity)
            && LoadedIn(more) == LoadedIn(steps) + |step.loadBefore|
            && UnloadedIn(more) == UnloadedIn(steps) + |step.unloadBefore|
  {
    hide StepTells;
    var more := steps + [step];
    assert more[..|more| - 1] == steps;
    forall i | 0 <= i < |more|
      ensures StepTells(more[i], jobs, i, LoadedBefore(more, initial, i), capacity)
    {
      assert LoadedBefore(more, initial, i) == LoadedBefore(steps, initial, i);
    }
  }

  lemma {:induction false} StepIsFollowed(step: Step, jobs: seq<Job>, k: nat, before: set<Tool>, capacity: int)
    requires k < |jobs| && StepTells(step, jobs, k, before, capacity)
    ensures before - step.unloadBefore + step.loadBefore == step.atcAfter
    ensures jobs[k].tools <= step.atcAfter && |step.atcAfter| <= capacity
  {
    hide GoesRather, NextUse;
    assert step.atcAfter == before - step.unloadBefore + jobs[k].tools;
  }

  function Followed(steps: seq<Step>, initial: set<Tool>, k: nat): set<Tool>
    requires k <= |steps|
  {
    if k == 0 then initial else Followed(steps, initial, k - 1) - steps[k - 1].unloadBefore + steps[k - 1].loadBefore
  }

  /** Unloading and loading what the steps say, from the initial tools on, the magazine is always what they say it is. */
  lemma {:induction false} FollowingTheSteps(plan: Plan, jobs: seq<Job>, initial: set<Tool>, capacity: int, k: nat)
    requires Tells(plan, jobs, initial, capacity) && 0 < k <= |jobs| == |plan.steps|
    ensures Followed(plan.steps, initial, k) == plan.steps[k - 1].atcAfter
    ensures jobs[k - 1].tools <= Followed(plan.steps, initial, k) && |Followed(plan.steps, initial, k)| <= capacity
  {
    hide StepTells;
    if k > 1 {
      FollowingTheSteps(plan, jobs, initial, capacity, k - 1);
    }
    StepIsFollowed(plan.steps[k - 1], jobs, k - 1, LoadedBefore(plan.steps, initial, k - 1), capacity);
  }

  // ---------- other ways of handling the magazine ----------

  /** `contents[k]` is what the magazine holds while `jobs[k]` runs; any such sequence is a policy. */
  predicate Feasible(jobs: seq<Job>, contents: seq<set<Tool>>, capacity: int) {
    && |contents| == |jobs|
    && forall k | 0 <= k < |jobs| :: jobs[k].tools <= contents[k] && |contents[k]| <= capacity
  }

  function Held(initial: set<Tool>, contents: seq<set<Tool>>, k: nat): set<Tool>
    requires k <= |contents|
  {
    if k == 0 then initial else contents[k - 1]
  }

  /** Tools put in, over the first `k` changes of contents. */
  function LoadsOf(initial: set<Tool>, contents: seq<set<Tool>>, k: nat): nat
    requires k <= |contents|
  {
    if k == 0 then 0 else
      LoadsOf(initial, contents, k - 1) + |contents[k - 1] - Held(initial, contents, k - 1)|
  }

  /** Tools taken out, over the first `k` changes of contents. */
  function UnloadsOf(initial: set<Tool>, contents: seq<set<Tool>>, k: nat): nat
    requires k <= |contents|
  {
    if k == 0 then 0 else
      UnloadsOf(initial, contents, k - 1) + |Held(initial, contents, k - 1) - contents[k - 1]|
  }

  /** Whatever the policy, loads and unloads differ by the change in the number of tools held. */
  lemma {:induction false} ToolsAreConserved(initial: set<Tool>, contents: seq<set<Tool>>, k: nat)
    requires k <= |contents|
    ensures |initial| + LoadsOf(initial, contents, k) == |Held(initial, contents, k)| + UnloadsOf(initial, contents, k)
  {
    if k > 0 {
      ToolsAreConserved(initial, contents, k - 1);
      var before, after := Held(initial, contents, k - 1), contents[k - 1];
      Split(before, after);
      Split(after, before);
      assert before * after == after * before;
    }
  }

  // ---------- the plan is itself a feasible policy ----------

  function ContentsOf(plan: Plan): seq<set<Tool>> {
    seq(|plan.steps|, k requires 0 <= k < |plan.steps| => plan.steps[k].atcAfter)
  }

  /**
   One change of contents under the keep-tool-needed-soonest rule: only missing tools go in, tools come
   out only when the magazine is full, and at every horizon either no tool taken out is needed by then
   or every tool that stays is.
   */
  ghost predicate KeepsSoonest(jobs: seq<Job>, i: nat, capacity: int, before: set<Tool>, after: set<Tool>)
    requires i < |jobs|
  {
    var required := jobs[i].tools;
    && required <= after
    && after - before == required - before
    && |after| <= capacity
    && (before - after != {} ==> |after| == capacity)
    && forall t | i < t <= |jobs| :: SoonestStay(jobs, i, t, before, after)
  }

  ghost predicate SoonestStay(jobs: seq<Job>, i: nat, t: nat, before: set<Tool>, after: set<Tool>)
    requires i < t <= |jobs|
  {
    var needed := ToolsOf(jobs, i + 1, t);
    before - after !! needed || after - jobs[i].tools <= needed
  }

  lemma {:induction false} RunJobKeepsSoonest(p: Progress, jobs: seq<Job>, i: nat, capacity: int)
    requires i < |jobs| && |jobs[i].tools| <= capacity
    ensures var q := RunJob(p, jobs, i, capacity);
            && KeepsSoonest(jobs, i, capacity, p.loaded, q.loaded)
            && q == Extend(p, jobs[i], p.loaded - q.loaded, q.loaded)
  {
    AfterKeepsSoonest(p.loaded, jobs, i, capacity);
    hide KeepsSoonest, After, Removals;
  }

  lemma {:induction false} AfterKeepsSoonest(loaded: set<Tool>, jobs: seq<Job>, i: nat, capacity: int)
    requires i < |jobs| && |jobs[i].tools| <= capacity
    ensures var out, after := Removals(loaded, jobs, i, capacity), After(loaded, jobs, i, capacity);
            && KeepsSoonest(jobs, i, capacity, loaded, after)
            && loaded - after == out && after - loaded == jobs[i].tools - loaded
  {
    var required := jobs[i].tools;
    var out, after := Removals(loaded, jobs, i, capacity), After(loaded, jobs, i, capacity);
    RemovalsGoFurthest(loaded, jobs, i, capacity);
    hide Removals, NextUse, ToolsOf;
    Exchanged(loaded, required, out, after);
    WithinCapacity(loaded, required, out, after, capacity);
    hide After;
    forall t | i < t <= |jobs|
      ensures SoonestStay(jobs, i, t, loaded, after)
    {
      SoonestNeededStay(jobs, i, loaded, out, t);
    }
  }

  lemma {:induction false} Exchanged(loaded: set<Tool>, required: set<Tool>, out: set<Tool>, after: set<Tool>)
    requires out <= loaded - required && after == loaded - out + required
    ensures loaded - after == out && after - loaded == required - loaded && after - required == loaded - required - out
    ensures after == loaded - out + (required - loaded)
  {
  }

  lemma {:induction false} WithinCapacity(loaded: set<Tool>, required: set<Tool>, out: set<Tool>, after: set<Tool>,
        capacity: int)
    requires out <= loaded - required && |out| == RemoveCount(loaded, required, capacity)
    requires after == loaded - out + required
    ensures |after| <= capacity && (out != {} ==> |after| == capacity)
  {
    assert after == (loaded - out) + (required - loaded);
    assert loaded == (loaded - out) + out;
  }

  lemma {:induction false} SoonestNeededStay(jobs: seq<Job>, i: nat, loaded: set<Tool>, out: set<Tool>, t: nat)
    requires i < t <= |jobs|
    requires forall kept, gone | kept in loaded - jobs[i].tools - out && gone in out :: GoesRather(gone, kept, jobs, i + 1)
    ensures out !! ToolsOf(jobs, i + 1, t) || loaded - jobs[i].tools - out <= ToolsOf(jobs, i + 1, t)
  {
    var needed := ToolsOf(jobs, i + 1, t);
    if gone :| gone in out && gone in needed {
      forall kept | kept in loaded - jobs[i].tools - out
        ensures kept in needed
      {
        NextUseIsSoonest(gone, jobs, i + 1, t);
        NextUseIsSoonest(kept, jobs, i + 1, t);
      }
    }
  }

  ghost predicate AllKeepSoonest(jobs: seq<Job>, initial: set<Tool>, capacity: int, contents: seq<set<Tool>>, k: nat)
    requires k <= |jobs| && k <= |contents|
  {
    k == 0 || (
      && AllKeepSoonest(jobs, initial, capacity, contents, k - 1)
      && KeepsSoonest(jobs, k - 1, capacity, Held(initial, contents, k - 1), contents[k - 1]))
  }

  /** The plan's counters are the costs of the contents it lists, each change keeping the tools needed soonest. */
  ghost predicate DescribesContents(jobs: seq<Job>, initial: set<Tool>, capacity: int, k: nat, p: Progress)
    requires k <= |jobs|
  {
    var contents := ContentsOf(p.plan);
    && |p.plan.steps| == |p.plan.palletIds| == k
    && (forall i | 0 <= i < k :: p.plan.palletIds[i] == jobs[i].palletId)
    && AllKeepSoonest(jobs, initial, capacity, contents, k)
    && Held(initial, contents, k) == p.loaded
    && p.plan.loads == LoadsOf(initial, contents, k)
    && p.plan.unloads == UnloadsOf(initial, contents, k)
    && (p.plan.unloads > 0 ==> |p.loaded| == capacity)
  }

  lemma {:induction false} PlanSteps(jobs: seq<Job>, initial: set<Tool>, capacity: int, k: nat)
    requires k <= |jobs| && FitsUpTo(jobs, k, capacity)
    ensures DescribesContents(jobs, initial, capacity, k, ProgressAt(jobs, initial, capacity, k))
  {
    hide DescribesContents, KeepsSoonest, RunJob, Extend;
    if k == 0 {
      NoStepsYet(jobs, initial, capacity);
    } else {
      PlanSteps(jobs, initial, capacity, k - 1);
      var p := ProgressAt(jobs, initial, capacity, k - 1);
      RunJobKeepsSoonest(p, jobs, k - 1, capacity);
      OneMoreStep(jobs, initial, capacity, k - 1, p, RunJob(p, jobs, k - 1, capacity).loaded);
    }
  }

  lemma {:induction false} NoStepsYet(jobs: seq<Job>, initial: set<Tool>, capacity: int)
    ensures DescribesContents(jobs, initial, capacity, 0, ProgressAt(jobs, initial, capacity, 0))
  {
  }

  lemma {:induction false} OneMoreStep(jobs: seq<Job>, initial: set<Tool>, capacity: int, k: nat, p: Progress,
        loaded: set<Tool>)
    requires k < |jobs| && DescribesContents(jobs, initial, capacity, k, p)
    requires KeepsSoonest(jobs, k, capacity, p.loaded, loaded)
    ensures DescribesContents(jobs, initial, capacity, k + 1, Extend(p, jobs[k], p.loaded - loaded, loaded))
  {
    var q := Extend(p, jobs[k], p.loaded - loaded, loaded);
    var before, contents := ContentsOf(p.plan), ContentsOf(q.plan);
    assert contents == before + [loaded];
    assert jobs[k].tools - p.loaded == loaded - p.loaded;
    StaysFull(jobs, k, capacity, p.loaded, loaded, p.plan.unloads);
    hide KeepsSoonest, AllKeepSoonest, LoadsOf, UnloadsOf, Held;
    OneMoreContents(jobs, initial, capacity, before, loaded, k);
  }

  lemma {:induction false} StaysFull(jobs: seq<Job>, k: nat, capacity: int, before: set<Tool>, after: set<Tool>, unloads: nat)
    requires k < |jobs| && KeepsSoonest(jobs, k, capacity, before, after) && (unloads > 0 ==> |before| == capacity)
    ensures unloads + |before - after| > 0 ==> |after| == capacity
  {
    hide SoonestStay;
    if before <= after {
      Subset(before, after);
      assert before - after == {};
    }
  }

  lemma {:induction false} OneMoreContents(jobs: seq<Job>, initial: set<Tool>, capacity: int,
        before: seq<set<Tool>>, loaded: set<Tool>, k: nat)
    requires k < |jobs| && |before| == k
    ensures var contents, held := before + [loaded], Held(initial, before, k);
            && Held(initial, contents, k + 1) == loaded
            && LoadsOf(initial, contents, k + 1) == LoadsOf(initial, before, k) + |loaded - held|
            && UnloadsOf(initial, contents, k + 1) == UnloadsOf(initial, before, k) + |held - loaded|
            && (AllKeepSoonest(jobs, initial, capacity, contents, k + 1) <==>
                AllKeepSoonest(jobs, initial, capacity, before, k) && KeepsSoonest(jobs, k, capacity, held, loaded))
  {
    hide KeepsSoonest;
    SameCosts(jobs, initial, capacity, before, before + [loaded], k);
  }

  lemma {:induction false} SameCosts(jobs: seq<Job>, initial: set<Tool>, capacity: int,
                                     a: seq<set<Tool>>, b: seq<set<Tool>>, k: nat)
    requires k <= |a| <= |b| && a == b[..|a|] && k <= |jobs|
    ensures Held(initial, a, k) == Held(initial, b, k)
    ensures LoadsOf(initial, a, k) == LoadsOf(initial, b, k)
    ensures UnloadsOf(initial, a, k) == UnloadsOf(initial, b, k)
    ensures AllKeepSoonest(jobs, initial, capacity, a, k) == AllKeepSoonest(jobs, initial, capacity, b, k)
  {
    if k > 0 {
      SameCosts(jobs, initial, capacity, a, b, k - 1);
    }
  }

  // ---------- no policy does better ----------

  /**
   At every horizon, the number of tools needed by then that the policy holds and the plan does not is
   at most the number of extra loads the policy has already made.
   */
  ghost predicate PaidFor(jobs: seq<Job>, i: nat, loaded: set<Tool>, loads: nat, held: set<Tool>, paid: nat)
    requires i <= |jobs|
  {
    forall t | i <= t <= |jobs| :: PaidBy(jobs, i, t, loaded, loads, held, paid)
  }

  ghost predicate PaidBy(jobs: seq<Job>, i: nat, t: nat, loaded: set<Tool>, loads: nat, held: set<Tool>, paid: nat)
    requires i <= t <= |jobs|
  {
    var needed := ToolsOf(jobs, i, t);
    loads + |held * needed| <= paid + |loaded * needed|
  }

  /** One job preserves the comparison. */
  lemma {:induction false} PaidForOneJob(jobs: seq<Job>, i: nat, capacity: int, loaded: set<Tool>, after: set<Tool>, loads: nat,
                                         held: set<Tool>, next: set<Tool>, paid: nat)
    requires i < |jobs| && KeepsSoonest(jobs, i, capacity, loaded, after)
    requires jobs[i].tools <= next && |next| <= capacity
    requires PaidFor(jobs, i, loaded, loads, held, paid)
    ensures PaidFor(jobs, i + 1, after, loads + |after - loaded|, next, paid + |next - held|)
  {
    var required, k := jobs[i].tools, i + 1;
    var loadsAfter, paidAfter := loads + |after - loaded|, paid + |next - held|;
    assert PaidBy(jobs, i, k, loaded, loads, held, paid);
    assert ToolsOf(jobs, i, k) == required + ToolsOf(jobs, k, k) == required;
    forall t | k <= t <= |jobs|
      ensures PaidBy(jobs, k, t, after, loadsAfter, next, paidAfter)
    {
      assert PaidBy(jobs, i, t, loaded, loads, held, paid);
      assert ToolsOf(jobs, i, t) == required + ToolsOf(jobs, k, t);
      assert SoonestStay(jobs, i, t, loaded, after);
      PaidForInSets(required, ToolsOf(jobs, k, t), loaded, after, loads, held, paid, next);
    }
  }

  lemma {:induction false} PaidForInSets(required: set<Tool>, needed: set<Tool>, loaded: set<Tool>, after: set<Tool>,
                                         loads: nat, held: set<Tool>, paid: nat, next: set<Tool>)
    requires required <= after && after - loaded == required - loaded
    requires loaded - after !! needed || after - required <= needed
    requires required <= next && (loaded - after != {} ==> |next| <= |after|)
    requires loads + |held * required| <= paid + |loaded * required|
    requires loads + |held * (required + needed)| <= paid + |loaded * (required + needed)|
    ensures loads + |after - loaded| + |next * needed| <= paid + |next - held| + |after * needed|
  {
    Split(required, loaded);
    assert required * loaded == loaded * required;
    if loaded - after !! needed {
      NothingNeededEvicted(loaded, required, needed, after);
      HeadStart(held, next, required, needed);
    } else {
      Split(required, held);
      assert required * held == held * required;
      Subset(required - held, next - held);
      FullOfNeeded(required, needed, after, next);
    }
  }

  /** Something needed was evicted: all else that is kept is needed too, and the magazine is full. */
  lemma {:induction false} FullOfNeeded(required: set<Tool>, needed: set<Tool>, after: set<Tool>, next: set<Tool>)
    requires required <= after && required <= next && |next| <= |after|
    requires after - required <= needed
    ensures |next * needed| <= |after * needed|
  {
    Meet(after, required, needed);
    Meet(next, required, needed);
    Split(after, required);
    Split(next, required);
    assert after * required == required && next * required == required;
    assert (after - required) * needed == after - required;
    Subset((next - required) * needed, next - required);
  }

  lemma {:induction false} Subset(a: set<Tool>, b: set<Tool>)
    requires a <= b
    ensures |a| <= |b|
  {
    Split(b, a);
    assert b * a == a;
  }

  lemma {:induction false} Meet(a: set<Tool>, b: set<Tool>, c: set<Tool>)
    ensures |a * c| == |a * b * c| + |(a - b) * c|
    ensures |a * (b + c)| == |a * b| + |(a - b) * c|
  {
    Split(a * c, b);
    assert a * c * b == a * b * c && a * c - b == (a - b) * c;
    Split(a * (b + c), b);
    assert a * (b + c) * b == a * b && a * (b + c) - b == (a - b) * c;
  }

  lemma {:induction false} NothingNeededEvicted(loaded: set<Tool>, required: set<Tool>, needed: set<Tool>, after: set<Tool>)
    requires loaded - after !! needed && required <= after && after - loaded == required - loaded
    ensures |after * needed| == |required * needed| + |loaded * (required + needed)| - |loaded * required|
  {
    Meet(after, required, needed);
    assert after * required == required;
    forall x
      ensures x in (after - required) * needed <==> x in (loaded - required) * needed
    {
      assert x in loaded - after ==> x !in needed;
      assert x in after - loaded <==> x in required - loaded;
    }
    assert (after - required) * needed == (loaded - required) * needed;
    Meet(loaded, required, needed);
  }

  lemma {:induction false} HeadStart(held: set<Tool>, next: set<Tool>, required: set<Tool>, needed: set<Tool>)
    requires required <= next
    ensures |next * needed| <= |required * needed| + |held * (required + needed)| + |next - held| - |required|
  {
    Meet(next, required, needed);
    assert next * required == required;
    Meet(held, required, needed);
    Split(required, held);
    assert required * held == held * required;
    var kept, bought := (held - required) * needed, next - held - required;
    Subset((next - required) * needed, kept + bought);
    Split(next - held, required);
    assert (next - held) * required == required - held;
  }

  /** Contents that keep the tools needed soonest never fall behind any policy. */
  lemma {:induction false} KeepingSoonestKeepsUp(jobs: seq<Job>, initial: set<Tool>, capacity: int,
                                                 own: seq<set<Tool>>, contents: seq<set<Tool>>, k: nat)
    requires Feasible(jobs, contents, capacity) && k <= |own| && k <= |jobs|
    requires AllKeepSoonest(jobs, initial, capacity, own, k)
    ensures PaidFor(jobs, k, Held(initial, own, k), LoadsOf(initial, own, k),
                    Held(initial, contents, k), LoadsOf(initial, contents, k))
  {
    if k > 0 {
      KeepingSoonestKeepsUp(jobs, initial, capacity, own, contents, k - 1);
      PaidForOneJob(jobs, k - 1, capacity, Held(initial, own, k - 1), own[k - 1], LoadsOf(initial, own, k - 1),
                    Held(initial, contents, k - 1), contents[k - 1], LoadsOf(initial, contents, k - 1));
    }
  }

  lemma {:induction false} KeepingSoonestIsFeasible(jobs: seq<Job>, initial: set<Tool>, capacity: int,
        own: seq<set<Tool>>, k: nat)
    requires k <= |own| && k <= |jobs|
    requires AllKeepSoonest(jobs, initial, capacity, own, k)
    ensures forall i | 0 <= i < k :: jobs[i].tools <= own[i] && |own[i]| <= capacity
  {
    if k > 0 {
      KeepingSoonestIsFeasible(jobs, initial, capacity, own, k - 1);
    }
  }

  /**
   For a fixed order of jobs the plan is feasible, its counts are those of the contents it lists, and
   no feasible sequence of contents from the same tools has fewer loads, fewer unloads or fewer movements.
   */
  lemma {:induction false} PlanIsOptimal(jobs: seq<Job>, initial: set<Tool>, capacity: int, contents: seq<set<Tool>>)
    requires Fits(jobs, capacity) && Feasible(jobs, contents, capacity)
    ensures var plan := PlanFor(jobs, initial, capacity);
            var own := ContentsOf(plan);
            && Feasible(jobs, own, capacity)
            && plan.loads == LoadsOf(initial, own, |jobs|) <= LoadsOf(initial, contents, |jobs|)
            && plan.unloads == UnloadsOf(initial, own, |jobs|) <= UnloadsOf(initial, contents, |jobs|)
  {
    var n := |jobs|;
    PlanSteps(jobs, initial, capacity, n);
    var p := ProgressAt(jobs, initial, capacity, n);
    FewerThanAnyPolicy(jobs, initial, capacity, p, contents);
  }

  lemma {:induction false} FewerThanAnyPolicy(jobs: seq<Job>, initial: set<Tool>, capacity: int, p: Progress,
        contents: seq<set<Tool>>)
    requires DescribesContents(jobs, initial, capacity, |jobs|, p) && Feasible(jobs, contents, capacity)
    ensures Feasible(jobs, ContentsOf(p.plan), capacity)
    ensures p.plan.loads <= LoadsOf(initial, contents, |jobs|)
    ensures p.plan.unloads <= UnloadsOf(initial, contents, |jobs|)
  {
    var n, own := |jobs|, ContentsOf(p.plan);
    KeepingSoonestIsFeasible(jobs, initial, capacity, own, n);
    KeepingSoonestKeepsUp(jobs, initial, capacity, own, contents, n);
    assert PaidBy(jobs, n, n, Held(initial, own, n), LoadsOf(initial, own, n),
                  Held(initial, contents, n), LoadsOf(initial, contents, n));
    assert ToolsOf(jobs, n, n) == {};
    ToolsAreConserved(initial, own, n);
    ToolsAreConserved(initial, contents, n);
  }
}
