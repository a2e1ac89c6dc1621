/**
 Choosing the order of the jobs: the searches of app/autoschedule.py, exact up to eight jobs and
 greedy with pairwise swaps above that.
 */
module ScheduleSearch {
  import opened Outcomes
  import opened ToolPlans

  const EXACT_SEARCH_LIMIT := 8
  const MAXIMUM_PASSES := 5

  datatype SearchMethod = NoOptimization | ExactMinimum | GreedyWithImprovement

  // ---------- the key by which plans are compared ----------

  /** A plan's key; keys compare as tuples do. */
  datatype Key = Key(movements: nat, loads: nat, positions: seq<int>)

  predicate LexLess(a: seq<int>, b: seq<int>) {
    b != [] && (a == [] || a[0] < b[0] || (a[0] == b[0] && LexLess(a[1..], b[1..])))
  }

  predicate KeyLess(a: Key, b: Key) {
    a.movements < b.movements || (a.movements == b.movements && (
    a.loads < b.loads || (a.loads == b.loads && LexLess(a.positions, b.positions))))
  }

  lemma {:induction false} LexLessTotal(a: seq<int>, b: seq<int>)
    ensures LexLess(a, b) || a == b || LexLess(b, a)
    ensures !(LexLess(a, b) && LexLess(b, a)) && !LexLess(a, a)
  {
    if a != [] {
      if b != [] {
        LexLessTotal(a[1..], b[1..]);
        assert a[0] == b[0] && a[1..] == b[1..] ==> a == b by {
          assert a == [a[0]] + a[1..] && b == [b[0]] + b[1..];
        }
      }
      LexLessTotal(a[1..], a[1..]);
    }
  }

  lemma {:induction false} LexLessTransitive(a: seq<int>, b: seq<int>, c: seq<int>)
    requires LexLess(a, b) && LexLess(b, c)
    ensures LexLess(a, c)
  {
    if a != [] && a[0] == b[0] == c[0] {
      LexLessTransitive(a[1..], b[1..], c[1..]);
    }
  }

  /** Comparison by key is a strict total order. */
  lemma {:induction false} KeyLessIsStrictTotalOrder(a: Key, b: Key, c: Key)
    ensures KeyLess(a, b) || a == b || KeyLess(b, a)
    ensures !(KeyLess(a, b) && KeyLess(b, a)) && !KeyLess(a, a)
    ensures KeyLess(a, b) && KeyLess(b, c) ==> KeyLess(a, c)
    ensures !KeyLess(b, a) && !KeyLess(c, b) ==> !KeyLess(c, a)
  {
    LexLessTotal(a.positions, b.positions);
    LexLessTotal(b.positions, c.positions);
    LexLessTotal(a.positions, c.positions);
    if LexLess(a.positions, b.positions) && LexLess(b.positions, c.positions) {
      LexLessTransitive(a.positions, b.positions, c.positions);
    }
    if LexLess(c.positions, a.positions) && LexLess(a.positions, b.positions) {
      LexLessTransitive(c.positions, a.positions, b.positions);
    }
    if LexLess(b.positions, c.positions) && LexLess(c.positions, a.positions) {
      LexLessTransitive(b.positions, c.positions, a.positions);
    }
  }

  /** The original position of each pallet; a repeated identifier keeps the last one. */
  function Positions(jobs: seq<Job>): (m: map<string, int>)
    ensures forall job | job in jobs :: job.palletId in m
  {
    if jobs == [] then map[] else
      var last := |jobs| - 1;
      assert forall job | job in jobs :: job in jobs[..last] || job == jobs[last];
      Positions(jobs[..last])[jobs[last].palletId := jobs[last].originalPosition]
  }

  function PositionsOf(ids: seq<string>, positions: map<string, int>): seq<int>
    requires forall id | id in ids :: id in positions
  {
    seq(|ids|, i requires 0 <= i < |ids| => assert ids[i] in ids; positions[ids[i]])
  }

  function PlanKey(plan: Plan, jobs: seq<Job>): Key
    requires forall id | id in plan.palletIds :: id in Positions(jobs)
  {
    Key(plan.Movements(), plan.loads, PositionsOf(plan.palletIds, Positions(jobs)))
  }

  // ---------- orders of the jobs ----------

  predicate Drawn(order: seq<Job>, jobs: seq<Job>) {
    forall job | job in order :: job in jobs
  }

  lemma {:induction false} PlanCoversOrder(order: seq<Job>, jobs: seq<Job>, initial: set<Tool>, capacity: int)
    requires Fits(order, capacity) && Drawn(order, jobs)
    ensures forall id | id in PlanFor(order, initial, capacity).palletIds :: id in Positions(jobs)
  {
    var plan := PlanFor(order, initial, capacity);
    PlanSteps(order, initial, capacity, |order|);
    forall id | id in plan.palletIds
      ensures id in Positions(jobs)
    {
      var i :| 0 <= i < |plan.palletIds| && plan.palletIds[i] == id;
      assert order[i] in order;
    }
  }

  /** The key of the plan for one order. */
  function OrderKey(order: seq<Job>, jobs: seq<Job>, initial: set<Tool>, capacity: int): Key
    requires Fits(order, capacity) && Drawn(order, jobs)
  {
    PlanCoversOrder(order, jobs, initial, capacity);
    PlanKey(PlanFor(order, initial, capacity), jobs)
  }

  /** `a` is at least as good an order as `b`. */
  predicate NoWorse(a: seq<Job>, b: seq<Job>, jobs: seq<Job>, initial: set<Tool>, capacity: int)
    requires Fits(a, capacity) && Drawn(a, jobs) && Fits(b, capacity) && Drawn(b, jobs)
  {
    !KeyLess(OrderKey(b, jobs, initial, capacity), OrderKey(a, jobs, initial, capacity))
  }

  // ---------- what comparing the keys of two orders means ----------

  /** The last of `jobs` with this identifier was originally at `position`. */
  ghost predicate OriginallyAt(jobs: seq<Job>, id: string, position: int) {
    exists j | 0 <= j < |jobs| :: LastWith(jobs, id, j) && jobs[j].originalPosition == position
  }

  predicate LastWith(jobs: seq<Job>, id: string, j: nat)
    requires j < |jobs|
  {
    jobs[j].palletId == id && forall later | j < later < |jobs| :: jobs[later].palletId != id
  }

  ghost predicate PositionsAre(order: seq<Job>, jobs: seq<Job>, positions: seq<int>) {
    |positions| == |order| && forall k | 0 <= k < |order| :: OriginallyAt(jobs, order[k].palletId, positions[k])
  }

  /** At the first place where they differ, `a` has ended or has the smaller number. */
  predicate DiffersFirstAt(a: seq<int>, b: seq<int>, k: nat) {
    k <= |a| && k < |b| && a[..k] == b[..k] && (k == |a| || a[k] < b[k])
  }

  /** Fewer movements, or as many and fewer loads, or as many of both and positions not later in the order of lists. */
  ghost predicate ComesNoLater(p: Plan, q: Plan, ps: seq<int>, qs: seq<int>) {
    || p.loads + p.unloads < q.loads + q.unloads
    || (p.loads + p.unloads == q.loads + q.unloads && (
        || p.loads < q.loads
        || (p.loads == q.loads && !exists k :: DiffersFirstAt(qs, ps, k))))
  }

  lemma {:induction false} LexLessAt(a: seq<int>, b: seq<int>) returns (k: nat)
    requires LexLess(a, b)
    ensures DiffersFirstAt(a, b, k)
  {
    if a == [] || a[0] < b[0] {
      k := 0;
    } else {
      var later := LexLessAt(a[1..], b[1..]);
      k := later + 1;
      assert a[..k] == [a[0]] + a[1..][..later] && b[..k] == [b[0]] + b[1..][..later];
    }
  }

  lemma {:induction false} AtIsLexLess(a: seq<int>, b: seq<int>, k: nat)
    requires DiffersFirstAt(a, b, k)
    ensures LexLess(a, b)
    decreases k
  {
    if k > 0 {
      assert a[0] == a[..k][0] == b[..k][0] == b[0];
      assert a[1..][..k - 1] == a[..k][1..] == b[..k][1..] == b[1..][..k - 1];
      AtIsLexLess(a[1..], b[1..], k - 1);
    }
  }

  lemma {:induction false} LexLessIff(a: seq<int>, b: seq<int>)
    ensures LexLess(a, b) <==> exists k :: DiffersFirstAt(a, b, k)
  {
    if LexLess(a, b) {
      var k := LexLessAt(a, b);
    }
    forall k | DiffersFirstAt(a, b, k)
      ensures LexLess(a, b)
    {
      AtIsLexLess(a, b, k);
    }
  }

  lemma {:induction false} PositionsKeepLast(jobs: seq<Job>, id: string)
    requires id in Positions(jobs)
    ensures OriginallyAt(jobs, id, Positions(jobs)[id])
  {
    var n := |jobs| - 1;
    if jobs[n].palletId == id {
      assert LastWith(jobs, id, n);
    } else {
      PositionsKeepLast(jobs[..n], id);
      var j :| 0 <= j < n && LastWith(jobs[..n], id, j) && jobs[..n][j].originalPosition == Positions(jobs[..n])[id];
      assert LastWith(jobs, id, j);
    }
  }

  lemma {:induction false} OnlyOnePosition(jobs: seq<Job>, id: string, x: int, y: int)
    requires OriginallyAt(jobs, id, x) && OriginallyAt(jobs, id, y)
    ensures x == y
  {
  }

  lemma {:induction false} KeyPositions(order: seq<Job>, jobs: seq<Job>, initial: set<Tool>, capacity: int)
    requires Fits(order, capacity) && Drawn(order, jobs)
    ensures var key, plan := OrderKey(order, jobs, initial, capacity), PlanFor(order, initial, capacity);
            && key.movements == plan.loads + plan.unloads && key.loads == plan.loads
            && PositionsAre(order, jobs, key.positions)
            && forall ps | PositionsAre(order, jobs, ps) :: ps == key.positions
  {
    PlanCoversOrder(order, jobs, initial, capacity);
    PlanTells(order, initial, capacity);
    hide PlanFor, OriginallyAt, StepsTell, LoadedIn, UnloadedIn, Positions;
    var key, plan := OrderKey(order, jobs, initial, capacity), PlanFor(order, initial, capacity);
    forall k | 0 <= k < |order|
      ensures OriginallyAt(jobs, order[k].palletId, key.positions[k])
    {
      PositionsKeepLast(jobs, plan.palletIds[k]);
    }
    forall ps | PositionsAre(order, jobs, ps)
      ensures ps == key.positions
    {
      forall k | 0 <= k < |ps|
        ensures ps[k] == key.positions[k]
      {
        OnlyOnePosition(jobs, order[k].palletId, ps[k], key.positions[k]);
      }
    }
  }

  /** One order is at least as good as another exactly when its plan and its pallets' original positions come no later. */
  lemma {:induction false} NoWorseMeans(a: seq<Job>, b: seq<Job>, jobs: seq<Job>, initial: set<Tool>,
        capacity: int, ps: seq<int>, qs: seq<int>)
    requires Fits(a, capacity) && Drawn(a, jobs) && Fits(b, capacity) && Drawn(b, jobs)
    requires PositionsAre(a, jobs, ps) && PositionsAre(b, jobs, qs)
    ensures NoWorse(a, b, jobs, initial, capacity)
            <==> ComesNoLater(PlanFor(a, initial, capacity), PlanFor(b, initial, capacity), ps, qs)
  {
    hide OrderKey, PlanFor, PositionsAre, LexLess, DiffersFirstAt, Fits, Drawn;
    KeyPositions(a, jobs, initial, capacity);
    KeyPositions(b, jobs, initial, capacity);
    LexLessIff(qs, ps);
  }

  lemma {:induction false} NoWorseTransitive(a: seq<Job>, b: seq<Job>, c: seq<Job>, jobs: seq<Job>,
        initial: set<Tool>, capacity: int)
    requires Fits(a, capacity) && Drawn(a, jobs) && Fits(b, capacity) && Drawn(b, jobs) && Fits(c, capacity) && Drawn(c, jobs)
    requires NoWorse(a, b, jobs, initial, capacity) && NoWorse(b, c, jobs, initial, capacity)
    ensures NoWorse(a, c, jobs, initial, capacity)
  {
    KeyLessIsStrictTotalOrder(OrderKey(a, jobs, initial, capacity), OrderKey(b, jobs, initial, capacity), OrderKey(c, jobs, initial, capacity));
  }

  predicate IsPermutation(order: seq<Job>, jobs: seq<Job>) {
    multiset(order) == multiset(jobs)
  }

  lemma {:induction false} FitsWhenDrawn(order: seq<Job>, jobs: seq<Job>, capacity: int)
    requires Fits(jobs, capacity) && Drawn(order, jobs)
    ensures Fits(order, capacity)
  {
    forall i | 0 <= i < |order|
      ensures |order[i].tools| <= capacity
    {
      assert order[i] in jobs;
    }
  }

  lemma {:induction false} PermutationIsDrawn(order: seq<Job>, jobs: seq<Job>)
    requires IsPermutation(order, jobs)
    ensures Drawn(order, jobs) && Drawn(jobs, order) && |order| == |jobs|
  {
    forall job | job in order
      ensures job in jobs
    {
      assert job in multiset(order);
    }
    forall job | job in jobs
      ensures job in order
    {
      assert job in multiset(jobs);
    }
    assert |multiset(order)| == |multiset(jobs)|;
  }

  function Without<T>(s: seq<T>, i: nat): seq<T>
    requires i < |s|
  {
    s[..i] + s[i + 1..]
  }

  function PrependAll<T>(x: T, orders: seq<seq<T>>): (r: seq<seq<T>>)
    ensures |r| == |orders| && forall k | 0 <= k < |r| :: r[k] == [x] + orders[k]
  {
    seq(|orders|, k requires 0 <= k < |orders| => [x] + orders[k])
  }

  /** Every order of `s`, first elements taken from left to right as itertools does. */
  function Permutations<T>(s: seq<T>): seq<seq<T>>
    decreases |s|, |s| + 1
  {
    if s == [] then [[]] else PermutationsFrom(s, 0)
  }

  /** The orders of `s` whose first element is `s[i]` or a later one. */
  function PermutationsFrom<T>(s: seq<T>, i: nat): seq<seq<T>>
    requires i <= |s|
    decreases |s|, |s| - i
  {
    if i == |s| then []
    else PrependAll(s[i], Permutations(Without(s, i))) + PermutationsFrom(s, i + 1)
  }

  lemma {:induction false} WithoutMultiset<T>(s: seq<T>, i: nat)
    requires i < |s|
    ensures multiset(s) == multiset([s[i]]) + multiset(Without(s, i))
  {
    assert s == s[..i] + [s[i]] + s[i + 1..];
  }

  /** Everything listed is an order of `s`. */
  lemma {:induction false} PermutationsAreOrders<T>(s: seq<T>)
    ensures forall p | p in Permutations(s) :: multiset(p) == multiset(s)
    decreases |s|, |s| + 1
  {
    if s != [] {
      PermutationsFromAreOrders(s, 0);
    }
  }

  lemma {:induction false} PermutationsFromAreOrders<T>(s: seq<T>, i: nat)
    requires i <= |s|
    ensures forall p | p in PermutationsFrom(s, i) :: multiset(p) == multiset(s)
    decreases |s|, |s| - i
  {
    if i < |s| {
      PermutationsFromAreOrders(s, i + 1);
      var rest := Without(s, i);
      PermutationsAreOrders(rest);
      WithoutMultiset(s, i);
      PrependedAreOrders(s[i], Permutations(rest), multiset(rest));
    }
  }

  lemma {:induction false} PrependedAreOrders<T>(x: T, orders: seq<seq<T>>, rest: multiset<T>)
    requires forall p | p in orders :: multiset(p) == rest
    ensures forall p | p in PrependAll(x, orders) :: multiset(p) == multiset([x]) + rest
  {
    var prepended := PrependAll(x, orders);
    forall p | p in prepended
      ensures multiset(p) == multiset([x]) + rest
    {
      var k :| 0 <= k < |prepended| && prepended[k] == p;
      assert orders[k] in orders;
    }
  }

  /** Every order of `s` is listed. */
  lemma {:induction false} EveryOrderIsListed<T>(s: seq<T>, p: seq<T>)
    requires multiset(p) == multiset(s)
    ensures p in Permutations(s)
    decreases |p|
  {
    assert |multiset(p)| == |multiset(s)|;
    if p != [] {
      assert p[0] in multiset(s);
      var i :| 0 <= i < |s| && s[i] == p[0];
      WithoutMultiset(s, i);
      assert p == [p[0]] + p[1..];
      assert multiset(p[1..]) == multiset(p) - multiset([p[0]]);
      assert multiset(Without(s, i)) == multiset(s) - multiset([s[i]]);
      EveryOrderIsListed(Without(s, i), p[1..]);
      ListedFrom(s, 0, i, p[1..]);
    } else {
      assert s == [];
    }
  }

  lemma {:induction false} ListedFrom<T>(s: seq<T>, j: nat, i: nat, q: seq<T>)
    requires j <= i < |s| && q in Permutations(Without(s, i))
    ensures [s[i]] + q in PermutationsFrom(s, j)
    decreases i - j
  {
    if j == i {
      var rest := Permutations(Without(s, i));
      var k :| 0 <= k < |rest| && rest[k] == q;
      assert PrependAll(s[i], rest)[k] == [s[i]] + q;
      assert PermutationsFrom(s, j)[k] == [s[i]] + q;
    } else {
      ListedFrom(s, j + 1, i, q);
    }
  }

  // ---------- taking the best of a list of orders ----------

  ghost predicate NoWorseOrder(a: seq<Job>, b: seq<Job>, jobs: seq<Job>, initial: set<Tool>, capacity: int) {
    && Fits(a, capacity) && Drawn(a, jobs) && Fits(b, capacity) && Drawn(b, jobs)
    && NoWorse(a, b, jobs, initial, capacity)
  }

  /** `order` is the first of those listed that is as good as every other. */
  ghost predicate FirstLeast(order: seq<Job>, orders: seq<seq<Job>>, jobs: seq<Job>, initial: set<Tool>, capacity: int) {
    exists i: nat :: FirstLeastAt(order, orders, i, jobs, initial, capacity)
  }

  ghost predicate FirstLeastAt(order: seq<Job>, orders: seq<seq<Job>>, i: nat, jobs: seq<Job>, initial: set<Tool>,
        capacity: int) {
    && i < |orders| && orders[i] == order
    && (forall other | other in orders :: NoWorseOrder(order, other, jobs, initial, capacity))
    && forall earlier | earlier in orders[..i] :: !NoWorseOrder(earlier, order, jobs, initial, capacity)
  }

  /** The first order, in the list, whose plan has the least key. */
  method BestOf(orders: seq<seq<Job>>, jobs: seq<Job>, initialTools: set<Tool>, capacity: int)
    returns (r: Result<(seq<Job>, Plan), Oversized>)
    requires orders != [] && forall order | order in orders :: Drawn(order, jobs)
    ensures r.Success? <==> forall order | order in orders :: Fits(order, capacity)
    ensures r.Success? ==>
              && r.value.0 in orders
              && r.value.1 == PlanFor(r.value.0, initialTools, capacity)
              && (forall order | order in orders :: NoWorse(r.value.0, order, jobs, initialTools, capacity))
              && FirstLeast(r.value.0, orders, jobs, initialTools, capacity)
    ensures !Fits(orders[0], capacity) ==> r == Failure(FirstOversized(orders[0], capacity))
  {
    hide PlanFor, FirstOversized, Tells;
    var first := SimulateToolPlan(orders[0], initialTools, capacity);
    if first.Failure? {
      assert orders[0] in orders;
      return Failure(first.error);
    }
    var bestOrder, bestPlan := orders[0], first.value;
    ghost var at := 0;
    KeyLessIsStrictTotalOrder(OrderKey(bestOrder, jobs, initialTools, capacity), OrderKey(bestOrder, jobs, initialTools, capacity),
                              OrderKey(bestOrder, jobs, initialTools, capacity));
    for i := 1 to |orders|
      invariant bestOrder in orders[..i] && Fits(bestOrder, capacity) && Drawn(bestOrder, jobs)
      invariant bestPlan == PlanFor(bestOrder, initialTools, capacity)
      invariant forall order | order in orders[..i] :: Fits(order, capacity) && NoWorse(bestOrder, order, jobs, initialTools, capacity)
      invariant 0 <= at < i && orders[at] == bestOrder
      invariant forall order | order in orders[..at] :: !NoWorseOrder(order, bestOrder, jobs, initialTools, capacity)
    {
      var order := orders[i];
      var simulated := SimulateToolPlan(order, initialTools, capacity);
      if simulated.Failure? {
        return Failure(simulated.error);
      }
      ghost var before, beforeBest := orders[..i], bestOrder;
      PlanCoversOrder(order, jobs, initialTools, capacity);
      PlanCoversOrder(bestOrder, jobs, initialTools, capacity);
      if KeyLess(PlanKey(simulated.value, jobs), PlanKey(bestPlan, jobs)) {
        bestOrder, bestPlan, at := order, simulated.value, i;
      }
      assert orders[..i + 1] == before + [order];
      BestStays(beforeBest, bestOrder, order, before, jobs, initialTools, capacity);
    }
    assert orders[..|orders|] == orders;
    assert FirstLeastAt(bestOrder, orders, at, jobs, initialTools, capacity);
    return Success((bestOrder, bestPlan));
  }

  lemma {:induction false} BestStays(best: seq<Job>, next: seq<Job>, order: seq<Job>, seen: seq<seq<Job>>,
                                     jobs: seq<Job>, initial: set<Tool>, capacity: int)
    requires Fits(best, capacity) && Drawn(best, jobs) && Fits(order, capacity) && Drawn(order, jobs)
    requires forall o | o in seen :: Drawn(o, jobs) && Fits(o, capacity) && NoWorse(best, o, jobs, initial, capacity)
    requires next == if NoWorse(best, order, jobs, initial, capacity) then best else order
    ensures forall o | o in seen + [order] :: NoWorse(next, o, jobs, initial, capacity)
    ensures !NoWorse(best, order, jobs, initial, capacity) ==> forall o | o in seen :: !NoWorseOrder(o, order, jobs, initial, capacity)
  {
    KeyLessIsStrictTotalOrder(OrderKey(order, jobs, initial, capacity), OrderKey(best, jobs, initial, capacity), OrderKey(order, jobs, initial, capacity));
    forall o | o in seen && NoWorseOrder(o, order, jobs, initial, capacity)
      ensures NoWorse(best, order, jobs, initial, capacity)
    {
      NoWorseTransitive(best, o, order, jobs, initial, capacity);
    }
    forall o | o in seen
      ensures NoWorse(next, o, jobs, initial, capacity)
    {
      if next == order {
        NoWorseTransitive(order, best, o, jobs, initial, capacity);
      }
    }
  }

  // ---------- greedy orders ----------

  /** `jobs` without the ones equal to `seed`. */
  function Others(jobs: seq<Job>, seed: Job): (r: seq<Job>)
    ensures Drawn(r, jobs) && seed !in r
    ensures multiset(r) == multiset(jobs)[seed := 0]
    ensures forall job | job in jobs :: job == seed || job in r
  {
    if jobs == [] then [] else
      assert jobs == [jobs[0]] + jobs[1..];
      if jobs[0] == seed then Others(jobs[1..], seed) else [jobs[0]] + Others(jobs[1..], seed)
  }

  /** Placing `next` after `prefix` gives a key no greater than placing `other`. */
  ghost predicate NoWorseNext(prefix: seq<Job>, next: Job, other: Job, jobs: seq<Job>, initial: set<Tool>, capacity: int) {
    var a, b := prefix + [next], prefix + [other];
    && Drawn(a, jobs) && Fits(a, capacity) && Drawn(b, jobs) && Fits(b, capacity)
    && NoWorse(a, b, jobs, initial, capacity)
  }

  ghost predicate BestNext(prefix: seq<Job>, next: Job, choices: seq<Job>, jobs: seq<Job>, initial: set<Tool>, capacity: int) {
    forall other | other in choices :: NoWorseNext(prefix, next, other, jobs, initial, capacity)
  }

  /** A greedy order: it starts with `seed`, and each later job is a best choice among those not yet placed. */
  ghost predicate Greedy(order: seq<Job>, seed: Job, jobs: seq<Job>, initial: set<Tool>, capacity: int) {
    && order != [] && order[0] == seed
    && multiset(order) == multiset(jobs)[seed := 1]
    && forall k | 1 <= k < |order| :: BestNext(order[..k], order[k], order[k..], jobs, initial, capacity)
  }

  /** A greedy order keeps every job exactly when no other job equals its seed. */
  lemma {:induction false} GreedyKeepsAllJobs(order: seq<Job>, seed: Job, jobs: seq<Job>, initial: set<Tool>, capacity: int)
    requires seed in jobs && Greedy(order, seed, jobs, initial, capacity)
    ensures IsPermutation(order, jobs) <==> multiset(jobs)[seed] == 1
  {
    assert multiset(order)[seed] == 1;
    if multiset(jobs)[seed] == 1 {
      assert multiset(jobs)[seed := 1] == multiset(jobs);
    }
  }

  lemma {:induction false} FirstMisfit(order: seq<Job>, more: seq<Job>, capacity: int)
    requires !Fits(order, capacity)
    ensures !Fits(order + more, capacity)
    ensures FirstOversized(order + more, capacity) == FirstOversized(order, capacity)
  {
    var k :| 0 <= k < |order| && |order[k].tools| > capacity;
    assert (order + more)[k] == order[k];
    if |order[0].tools| <= capacity {
      assert (order + more)[1..] == order[1..] + more;
      assert order[1..][k - 1] == order[k];
      FirstMisfit(order[1..], more, capacity);
    }
  }

  /** Of the first `j` choices, `best` is the first of those of least key. */
  ghost predicate FirstBest(order: seq<Job>, remaining: seq<Job>, best: nat, j: nat, jobs: seq<Job>,
        initial: set<Tool>, capacity: int)
    requires best < |remaining| && j <= |remaining|
  {
    && (forall k | 0 <= k < j :: NoWorseNext(order, remaining[best], remaining[k], jobs, initial, capacity))
    && (forall k | 0 <= k < best :: !NoWorseNext(order, remaining[k], remaining[best], jobs, initial, capacity))
  }

  lemma {:induction false} NextFirstBest(order: seq<Job>, remaining: seq<Job>, best: nat, j: nat,
        bestKey: Option<Key>, key: Key,
                                         jobs: seq<Job>, initial: set<Tool>, capacity: int)
    requires j < |remaining| && best <= j && (best == j ==> j == 0) && FirstBest(order, remaining, best, j, jobs, initial, capacity)
    requires j == 0 <==> bestKey.None?
    requires j > 0 ==> HasKey(order + [remaining[best]], bestKey.value, jobs, initial, capacity)
    requires HasKey(order + [remaining[j]], key, jobs, initial, capacity)
    ensures FirstBest(order, remaining, if bestKey.None? || KeyLess(key, bestKey.value) then j else best, j + 1, jobs, initial, capacity)
  {
    var after := if bestKey.None? || KeyLess(key, bestKey.value) then j else best;
    hide NoWorseNext, KeyLess;
    forall k | 0 <= k < j + 1
      ensures NoWorseNext(order, remaining[after], remaining[k], jobs, initial, capacity)
      ensures k < after == j ==> !NoWorseNext(order, remaining[k], remaining[after], jobs, initial, capacity)
    {
      NextStays(order, remaining[best], remaining[j], remaining[k], jobs, initial, capacity);
    }
  }

  lemma {:induction false} NothingTried(order: seq<Job>, remaining: seq<Job>, jobs: seq<Job>, initial: set<Tool>, capacity: int)
    requires remaining != []
    ensures FirstBest(order, remaining, 0, 0, jobs, initial, capacity)
  {
  }

  lemma {:induction false} AllTried(order: seq<Job>, remaining: seq<Job>, best: nat, jobs: seq<Job>,
        initial: set<Tool>, capacity: int)
    requires best < |remaining| && FirstBest(order, remaining, best, |remaining|, jobs, initial, capacity)
    requires Fits(order, capacity) && forall k | 0 <= k < |remaining| :: |remaining[k].tools| <= capacity
    ensures Fits(order + remaining, capacity)
    ensures BestNext(order, remaining[best], remaining, jobs, initial, capacity)
    ensures forall k | 0 <= k < best :: !NoWorseNext(order, remaining[k], remaining[best], jobs, initial, capacity)
  {
    hide NoWorseNext;
  }

  lemma {:induction false} AdditionIsDrawn(order: seq<Job>, remaining: seq<Job>, j: nat, jobs: seq<Job>)
    requires Drawn(order, jobs) && Drawn(remaining, jobs) && j < |remaining|
    ensures Drawn(order + [remaining[j]], jobs)
  {
  }

  lemma {:induction false} PlanGivesKey(order: seq<Job>, plan: Plan, jobs: seq<Job>, initial: set<Tool>, capacity: int)
    requires Fits(order, capacity) && Drawn(order, jobs) && plan == PlanFor(order, initial, capacity)
    ensures forall id | id in plan.palletIds :: id in Positions(jobs)
    ensures HasKey(order, PlanKey(plan, jobs), jobs, initial, capacity)
  {
    PlanCoversOrder(order, jobs, initial, capacity);
  }

  /** Index, in `remaining`, of the first job whose addition to `order` gives the least key. */
  method BestAddition(order: seq<Job>, remaining: seq<Job>, jobs: seq<Job>, initialTools: set<Tool>, capacity: int)
    returns (r: Result<nat, Oversized>)
    requires order != [] && remaining != []
    requires Drawn(order, jobs) && Drawn(remaining, jobs)
    requires |order| > 1 ==> Fits(order + remaining, capacity)
    ensures r.Success? <==> Fits(order + remaining, capacity)
    ensures r.Success? ==>
              && r.value < |remaining|
              && BestNext(order, remaining[r.value], remaining, jobs, initialTools, capacity)
              && forall k | 0 <= k < r.value :: !NoWorseNext(order, remaining[k], remaining[r.value], jobs, initialTools, capacity)
    ensures r.Failure? ==> |order| == 1 && r.error == FirstOversized(order + remaining, capacity)
  {
    hide *;
    var best := 0;
    var bestKey: Option<Key> := None;
    NothingTried(order, remaining, jobs, initialTools, capacity);
    for j := 0 to |remaining|
      invariant j > 0 ==> Fits(order, capacity)
      invariant forall k | 0 <= k < j :: |remaining[k].tools| <= capacity
      invariant best < |remaining| && best <= j && (j == 0 <==> bestKey.None?)
      invariant j > 0 ==> best < j && HasKey(order + [remaining[best]], bestKey.value, jobs, initialTools, capacity)
      invariant FirstBest(order, remaining, best, j, jobs, initialTools, capacity)
    {
      var candidate := order + [remaining[j]];
      var simulated := SimulateToolPlan(candidate, initialTools, capacity);
      if simulated.Failure? {
        AdditionMisfit(order, remaining, j, capacity);
        return Failure(simulated.error);
      }
      AdditionFits(order, remaining[j], capacity);
      AdditionIsDrawn(order, remaining, j, jobs);
      PlanGivesKey(candidate, simulated.value, jobs, initialTools, capacity);
      var key := PlanKey(simulated.value, jobs);
      NextFirstBest(order, remaining, best, j, bestKey, key, jobs, initialTools, capacity);
      if bestKey.None? || KeyLess(key, bestKey.value) {
        best, bestKey := j, Some(key);
      }
    }
    AllTried(order, remaining, best, jobs, initialTools, capacity);
    return Success(best);
  }

  ghost predicate HasKey(order: seq<Job>, key: Key, jobs: seq<Job>, initial: set<Tool>, capacity: int) {
    Drawn(order, jobs) && Fits(order, capacity) && key == OrderKey(order, jobs, initial, capacity)
  }

  lemma {:induction false} NextStays(prefix: seq<Job>, previous: Job, next: Job, other: Job,
                                     jobs: seq<Job>, initial: set<Tool>, capacity: int)
    requires Drawn(prefix + [next], jobs) && Fits(prefix + [next], capacity)
    ensures NoWorseNext(prefix, next, next, jobs, initial, capacity)
    ensures NoWorseNext(prefix, previous, other, jobs, initial, capacity) ==>
              || NoWorseNext(prefix, previous, next, jobs, initial, capacity)
              || NoWorseNext(prefix, next, other, jobs, initial, capacity)
    ensures forall a, b | HasKey(prefix + [previous], a, jobs, initial, capacity) && HasKey(prefix + [next], b, jobs, initial, capacity) ::
              KeyLess(b, a) ==> (NoWorseNext(prefix, previous, other, jobs, initial, capacity) ==> NoWorseNext(prefix, next, other, jobs, initial, capacity))
    ensures forall a, b | HasKey(prefix + [previous], a, jobs, initial, capacity) && HasKey(prefix + [next], b, jobs, initial, capacity) ::
              !KeyLess(b, a) ==> NoWorseNext(prefix, previous, next, jobs, initial, capacity)
    ensures forall a, b | HasKey(prefix + [previous], a, jobs, initial, capacity) && HasKey(prefix + [next], b, jobs, initial, capacity) ::
              KeyLess(b, a) ==> (NoWorseNext(prefix, previous, other, jobs, initial, capacity) ==> !NoWorseNext(prefix, other, next, jobs, initial, capacity))
  {
    var b := OrderKey(prefix + [next], jobs, initial, capacity);
    KeyLessIsStrictTotalOrder(b, b, b);
    if NoWorseNext(prefix, previous, other, jobs, initial, capacity) {
      var a, c := OrderKey(prefix + [previous], jobs, initial, capacity), OrderKey(prefix + [other], jobs, initial, capacity);
      KeyLessIsStrictTotalOrder(a, b, a);
      KeyLessIsStrictTotalOrder(b, a, c);
      KeyLessIsStrictTotalOrder(a, c, b);
    }
  }

  lemma {:induction false} AdditionFits(order: seq<Job>, job: Job, capacity: int)
    requires Fits(order + [job], capacity)
    ensures Fits(order, capacity) && |job.tools| <= capacity
  {
    forall i | 0 <= i < |order|
      ensures |order[i].tools| <= capacity
    {
      assert (order + [job])[i] == order[i];
    }
    assert (order + [job])[|order|] == job;
  }

  lemma {:induction false} AdditionMisfit(order: seq<Job>, remaining: seq<Job>, j: nat, capacity: int)
    requires order != [] && j < |remaining| && (|order| > 1 ==> Fits(order + remaining, capacity))
    requires j > 0 ==> Fits(order, capacity)
    requires forall k | 0 <= k < j :: |remaining[k].tools| <= capacity
    requires !Fits(order + [remaining[j]], capacity)
    ensures |order| == 1 && !Fits(order + remaining, capacity)
    ensures FirstOversized(order + [remaining[j]], capacity) == FirstOversized(order + remaining, capacity)
  {
    if |order| > 1 {
      FitsWhenDrawn(order + [remaining[j]], order + remaining, capacity);
    } else if Fits(order, capacity) {
      FirstOversizedAt(order + [remaining[j]], capacity, |order|);
      FirstOversizedAt(order + remaining, capacity, |order| + j);
    } else {
      FirstMisfit(order, [remaining[j]], capacity);
      FirstMisfit(order, remaining, capacity);
    }
  }

  /** The greedy order that starts with `seed`. */
  method GreedyOrder(seed: Job, jobs: seq<Job>, initialTools: set<Tool>, capacity: int)
    returns (r: Result<seq<Job>, Oversized>)
    requires seed in jobs
    ensures r.Success? <==> Others(jobs, seed) == [] || Fits([seed] + Others(jobs, seed), capacity)
    ensures r.Success? ==> Greedy(r.value, seed, jobs, initialTools, capacity)
    ensures r.Failure? ==> r.error == FirstOversized([seed] + Others(jobs, seed), capacity)
  {
    var order, remaining := [seed], Others(jobs, seed);
    while remaining != []
      invariant Drawn(order, jobs) && Drawn(remaining, jobs)
      invariant order != [] && order[0] == seed
      invariant multiset(order) + multiset(remaining) == multiset(jobs)[seed := 1]
      invariant |order| == 1 ==> order == [seed] && remaining == Others(jobs, seed)
      invariant |order| > 1 ==> Fits(order + remaining, capacity) && Fits([seed] + Others(jobs, seed), capacity)
      invariant forall k | 1 <= k < |order| :: BestNext(order[..k], order[k], order[k..] + remaining, jobs, initialTools, capacity)
      decreases |remaining|
    {
      var choice := BestAddition(order, remaining, jobs, initialTools, capacity);
      if choice.Failure? {
        return Failure(choice.error);
      }
      ChosenExtends(order, remaining, choice.value, jobs, initialTools, capacity);
      order, remaining := order + [remaining[choice.value]], Without(remaining, choice.value);
    }
    assert forall k | 1 <= k < |order| :: order[k..] + remaining == order[k..];
    return Success(order);
  }

  lemma {:induction false} ChosenExtends(order: seq<Job>, remaining: seq<Job>, choice: nat, jobs: seq<Job>,
        initial: set<Tool>, capacity: int)
    requires order != [] && choice < |remaining| && Drawn(order, jobs) && Drawn(remaining, jobs)
    requires Fits(order + remaining, capacity)
    requires forall k | 1 <= k < |order| :: BestNext(order[..k], order[k], order[k..] + remaining, jobs, initial, capacity)
    requires BestNext(order, remaining[choice], remaining, jobs, initial, capacity)
    ensures var next, rest := order + [remaining[choice]], Without(remaining, choice);
            && Drawn(next, jobs) && Drawn(rest, jobs) && Fits(next + rest, capacity)
            && multiset(next) + multiset(rest) == multiset(order) + multiset(remaining)
            && forall k | 1 <= k < |next| :: BestNext(next[..k], next[k], next[k..] + rest, jobs, initial, capacity)
  {
    var next, rest := order + [remaining[choice]], Without(remaining, choice);
    WithoutMultiset(remaining, choice);
    SameJobs(order + remaining, next + rest, capacity);
    forall job | job in rest
      ensures job in remaining
    {
      assert job in multiset(rest);
    }
    forall k | 1 <= k < |next|
      ensures BestNext(next[..k], next[k], next[k..] + rest, jobs, initial, capacity)
    {
      if k < |order| {
        assert next[..k] == order[..k];
        forall other | other in next[k..] + rest
          ensures other in order[k..] + remaining
        {
          assert next[k..] == order[k..] + [remaining[choice]];
        }
      } else {
        assert next[..k] == order;
        assert next[k..] == [remaining[choice]];
      }
    }
  }

  lemma {:induction false} SameJobs(a: seq<Job>, b: seq<Job>, capacity: int)
    requires multiset(a) == multiset(b) && Fits(a, capacity)
    ensures Fits(b, capacity)
  {
    PermutationIsDrawn(b, a);
    FitsWhenDrawn(b, a, capacity);
  }

  ghost predicate GreedyCandidates(candidates: seq<seq<Job>>, jobs: seq<Job>, initial: set<Tool>, capacity: int) {
    && |candidates| == |jobs| + 1 && candidates[0] == jobs
    && forall k | 0 <= k < |jobs| :: Greedy(candidates[k + 1], jobs[k], jobs, initial, capacity)
  }

  /** The original order, then the greedy order from each seed. */
  method GreedyOrders(jobs: seq<Job>, initialTools: set<Tool>, capacity: int)
    returns (r: Result<seq<seq<Job>>, Oversized>)
    ensures Fits(jobs, capacity) ==> r.Success?
    ensures r.Success? ==> GreedyCandidates(r.value, jobs, initialTools, capacity)
    ensures r.Failure? ==> r.error == FirstOversized(jobs, capacity)
  {
    hide Greedy, FirstOversized, Others;
    var candidates: seq<seq<Job>> := [jobs];
    for i := 0 to |jobs|
      invariant |candidates| == i + 1 && candidates[0] == jobs
      invariant forall k | 0 <= k < i :: Greedy(candidates[k + 1], jobs[k], jobs, initialTools, capacity)
      invariant i > 0 ==> Others(jobs, jobs[0]) == [] || Fits(jobs, capacity)
    {
      var order := GreedyOrder(jobs[i], jobs, initialTools, capacity);
      SeedFits(jobs, i, capacity);
      if order.Failure? {
        return Failure(order.error);
      }
      candidates := candidates + [order.value];
    }
    return Success(candidates);
  }

  /** Trying the first seed meets the same first misfit as the original order does. */
  lemma {:induction false} SeedFits(jobs: seq<Job>, i: nat, capacity: int)
    requires i < |jobs|
    ensures var order := [jobs[i]] + Others(jobs, jobs[i]);
            && (Others(jobs, jobs[i]) != [] ==> (Fits(order, capacity) <==> Fits(jobs, capacity)))
            && (Others(jobs, jobs[0]) == [] ==> Others(jobs, jobs[i]) == [])
            && (i == 0 && !Fits(order, capacity) ==> FirstOversized(order, capacity) == FirstOversized(jobs, capacity))
  {
    var order := [jobs[i]] + Others(jobs, jobs[i]);
    if Fits(jobs, capacity) {
      FitsWhenDrawn(order, jobs, capacity);
    }
    if Fits(order, capacity) {
      FitsWhenDrawn(jobs, order, capacity);
    }
    if Others(jobs, jobs[0]) == [] {
      assert jobs[i] in jobs && jobs[i] == jobs[0];
    }
    if i == 0 && !Fits(order, capacity) {
      assert order[1..] == Others(jobs, jobs[0]);
      if |jobs[0].tools| <= capacity {
        OthersMisfit(jobs, jobs[0], capacity);
      }
    }
  }

  lemma {:induction false} OthersMisfit(jobs: seq<Job>, seed: Job, capacity: int)
    requires |seed.tools| <= capacity
    ensures Fits(jobs, capacity) <==> Fits(Others(jobs, seed), capacity)
    ensures !Fits(jobs, capacity) ==> FirstOversized(Others(jobs, seed), capacity) == FirstOversized(jobs, capacity)
  {
    if jobs != [] {
      OthersMisfit(jobs[1..], seed, capacity);
      var rest := Others(jobs[1..], seed);
      assert Fits(jobs, capacity) <==> |jobs[0].tools| <= capacity && Fits(jobs[1..], capacity) by {
        assert jobs == [jobs[0]] + jobs[1..];
      }
      if jobs[0] != seed {
        var others := Others(jobs, seed);
        assert others[1..] == rest && others[0] == jobs[0];
        assert Fits(others, capacity) <==> |others[0].tools| <= capacity && Fits(rest, capacity) by {
          assert others == [others[0]] + rest;
        }
      }
    }
  }

  // ---------- pairwise swaps ----------

  function Swapped(order: seq<Job>, left: nat, right: nat): seq<Job>
    requires left < |order| && right < |order|
  {
    order[left := order[right]][right := order[left]]
  }

  lemma {:induction false} SwapIsPermutation(order: seq<Job>, left: nat, right: nat, jobs: seq<Job>, capacity: int)
    requires left < |order| && right < |order| && Drawn(order, jobs) && Fits(order, capacity)
    ensures IsPermutation(Swapped(order, left, right), order)
    ensures Drawn(Swapped(order, left, right), jobs) && Fits(Swapped(order, left, right), capacity)
  {
    var swapped := Swapped(order, left, right);
    PermutationIsDrawn(swapped, order);
  }

  /** No swap of a position before (left, right) with a later one lowers the key. */
  ghost predicate NoSwapHelps(order: seq<Job>, left: nat, right: nat, jobs: seq<Job>, initial: set<Tool>, capacity: int)
    requires Drawn(order, jobs) && Fits(order, capacity)
  {
    forall a, b | 0 <= a < b < |order| && (a < left || (a == left && b < right)) ::
      SwapDoesNotHelp(order, a, b, jobs, initial, capacity)
  }

  ghost predicate SwapDoesNotHelp(order: seq<Job>, a: nat, b: nat, jobs: seq<Job>, initial: set<Tool>, capacity: int)
    requires Drawn(order, jobs) && Fits(order, capacity) && a < b < |order|
  {
    SwapIsPermutation(order, a, b, jobs, capacity);
    NoWorse(order, Swapped(order, a, b), jobs, initial, capacity)
  }

  /** `chain` goes from `first` to `last` by swaps of pairs, the key strictly falling at each. */
  ghost predicate FallingSwaps(chain: seq<seq<Job>>, first: seq<Job>, last: seq<Job>, jobs: seq<Job>,
        initial: set<Tool>, capacity: int) {
    && chain != [] && chain[0] == first && chain[|chain| - 1] == last
    && (forall order | order in chain :: Drawn(order, jobs) && Fits(order, capacity))
    && forall i | 0 <= i < |chain| - 1 :: FallingSwap(chain[i], chain[i + 1], jobs, initial, capacity)
  }

  ghost predicate FallingSwap(order: seq<Job>, next: seq<Job>, jobs: seq<Job>, initial: set<Tool>, capacity: int) {
    && (exists a, b | 0 <= a < b < |order| :: next == Swapped(order, a, b))
    && Drawn(order, jobs) && Fits(order, capacity) && Drawn(next, jobs) && Fits(next, capacity)
    && KeyLess(OrderKey(next, jobs, initial, capacity), OrderKey(order, jobs, initial, capacity))
  }

  lemma {:induction false} FallingSwapImproves(order: seq<Job>, next: seq<Job>, jobs: seq<Job>, initial: set<Tool>,
        capacity: int)
    requires FallingSwap(order, next, jobs, initial, capacity)
    ensures IsPermutation(next, order) && NoWorse(next, order, jobs, initial, capacity)
  {
    var a, b :| 0 <= a < b < |order| && next == Swapped(order, a, b);
    SwapIsPermutation(order, a, b, jobs, capacity);
    KeyLessIsStrictTotalOrder(OrderKey(next, jobs, initial, capacity), OrderKey(order, jobs, initial, capacity), OrderKey(next, jobs, initial, capacity));
  }

  lemma {:induction false} FallingSwapsImprove(chain: seq<seq<Job>>, first: seq<Job>, last: seq<Job>, k: nat,
        jobs: seq<Job>, initial: set<Tool>, capacity: int)
    requires FallingSwaps(chain, first, last, jobs, initial, capacity) && k < |chain|
    ensures IsPermutation(chain[k], first) && NoWorseOrder(chain[k], first, jobs, initial, capacity)
  {
    assert chain[0] in chain && chain[k] in chain;
    if k == 0 {
      var key := OrderKey(first, jobs, initial, capacity);
      KeyLessIsStrictTotalOrder(key, key, key);
    } else {
      FallingSwapsImprove(chain, first, last, k - 1, jobs, initial, capacity);
      assert FallingSwap(chain[k - 1], chain[k - 1 + 1], jobs, initial, capacity);
      FallingSwapImproves(chain[k - 1], chain[k], jobs, initial, capacity);
      NoWorseTransitive(chain[k], chain[k - 1], first, jobs, initial, capacity);
    }
  }

  lemma {:induction false} NextPair(order: seq<Job>, left: nat, right: nat, jobs: seq<Job>, initial: set<Tool>, capacity: int)
    requires Drawn(order, jobs) && Fits(order, capacity)
    requires NoSwapHelps(order, left, right, jobs, initial, capacity)
    ensures left < right < |order| && SwapDoesNotHelp(order, left, right, jobs, initial, capacity)
            ==> NoSwapHelps(order, left, right + 1, jobs, initial, capacity)
    ensures right == left + 1 ==> NoSwapHelps(order, left, 0, jobs, initial, capacity)
    ensures right >= |order| ==> NoSwapHelps(order, left + 1, 0, jobs, initial, capacity)
    ensures left + 1 >= |order| ==> NoSwapHelps(order, |order|, 0, jobs, initial, capacity)
  {
    hide SwapDoesNotHelp;
  }

  /** The orders visited so far, ending in the best one and its plan. */
  ghost predicate Improving(chain: seq<seq<Job>>, order: seq<Job>, best: seq<Job>, plan: Plan,
                            jobs: seq<Job>, initial: set<Tool>, capacity: int) {
    && FallingSwaps(chain, order, best, jobs, initial, capacity)
    && |best| == |order| && Drawn(best, jobs) && Fits(best, capacity)
    && plan == PlanFor(best, initial, capacity)
  }

  /** Simulate one swap and keep it when it lowers the key. */
  method TrySwap(order: seq<Job>, best: seq<Job>, plan: Plan, left: nat, right: nat,
                 jobs: seq<Job>, initialTools: set<Tool>, capacity: int, ghost chain: seq<seq<Job>>)
    returns (nextBest: seq<Job>, nextPlan: Plan, accepted: bool, ghost longer: seq<seq<Job>>)
    requires Improving(chain, order, best, plan, jobs, initialTools, capacity) && left < right < |best|
    ensures Improving(longer, order, nextBest, nextPlan, jobs, initialTools, capacity)
    ensures accepted ==> nextBest == Swapped(best, left, right) && |longer| == |chain| + 1
    ensures accepted <==> !SwapDoesNotHelp(best, left, right, jobs, initialTools, capacity)
    ensures !accepted ==> nextBest == best && nextPlan == plan && longer == chain
  {
    hide Tells;
    var candidate := Swapped(best, left, right);
    SwapIsPermutation(best, left, right, jobs, capacity);
    var simulated := SimulateToolPlan(candidate, initialTools, capacity);
    PlanCoversOrder(candidate, jobs, initialTools, capacity);
    PlanCoversOrder(best, jobs, initialTools, capacity);
    accepted := KeyLess(PlanKey(simulated.value, jobs), PlanKey(plan, jobs));
    if accepted {
      AcceptSwap(chain, order, best, left, right, jobs, initialTools, capacity);
      nextBest, nextPlan, longer := candidate, simulated.value, chain + [candidate];
    } else {
      nextBest, nextPlan, longer := best, plan, chain;
    }
  }

  /**
   Up to five passes over all pairs, accepting every swap that lowers the key. When the last pass
   accepted none, no single swap lowers the key.
   */
  method ImproveBySwaps(order: seq<Job>, plan: Plan, jobs: seq<Job>, initialTools: set<Tool>, capacity: int)
    returns (bestOrder: seq<Job>, bestPlan: Plan, improved: bool, passes: nat, ghost chain: seq<seq<Job>>)
    requires Drawn(order, jobs) && Fits(order, capacity) && plan == PlanFor(order, initialTools, capacity)
    ensures FallingSwaps(chain, order, bestOrder, jobs, initialTools, capacity)
    ensures Drawn(bestOrder, jobs) && Fits(bestOrder, capacity) && IsPermutation(bestOrder, order)
    ensures bestPlan == PlanFor(bestOrder, initialTools, capacity)
    ensures NoWorse(bestOrder, order, jobs, initialTools, capacity)
    ensures passes <= MAXIMUM_PASSES && (improved ==> passes == MAXIMUM_PASSES)
    ensures !improved ==> NoSwapHelps(bestOrder, |bestOrder|, 0, jobs, initialTools, capacity)
    ensures improved ==> |chain| > MAXIMUM_PASSES
  {
    bestOrder, bestPlan := order, plan;
    improved, passes := true, 0;
    chain := [order];
    while improved && passes < MAXIMUM_PASSES
      invariant passes <= MAXIMUM_PASSES
      invariant Improving(chain, order, bestOrder, bestPlan, jobs, initialTools, capacity)
      invariant !improved ==> NoSwapHelps(bestOrder, |bestOrder|, 0, jobs, initialTools, capacity)
      invariant |chain| >= passes + if improved then 1 else 0
      decreases MAXIMUM_PASSES - passes
    {
      improved := false;
      passes := passes + 1;
      var left := 0;
      while left < |bestOrder| - 1
        invariant Improving(chain, order, bestOrder, bestPlan, jobs, initialTools, capacity)
        invariant !improved ==> NoSwapHelps(bestOrder, left, 0, jobs, initialTools, capacity)
        invariant |chain| >= passes + if improved then 1 else 0
        decreases |order| - left
      {
        var right := left + 1;
        while right < |bestOrder|
          invariant left < right
          invariant Improving(chain, order, bestOrder, bestPlan, jobs, initialTools, capacity)
          invariant !improved ==> NoSwapHelps(bestOrder, left, right, jobs, initialTools, capacity)
          invariant |chain| >= passes + if improved then 1 else 0
          decreases |order| - right
        {
          var accepted;
          if !improved {
            NextPair(bestOrder, left, right, jobs, initialTools, capacity);
          }
          bestOrder, bestPlan, accepted, chain :=
            TrySwap(order, bestOrder, bestPlan, left, right, jobs, initialTools, capacity, chain);
          improved := improved || accepted;
          right := right + 1;
        }
        if !improved {
          NextPair(bestOrder, left, right, jobs, initialTools, capacity);
        }
        left := left + 1;
      }
      if !improved {
        NextPair(bestOrder, left, 0, jobs, initialTools, capacity);
      }
    }
    FallingSwapsImprove(chain, order, bestOrder, |chain| - 1, jobs, initialTools, capacity);
  }

  lemma {:induction false} AcceptSwap(chain: seq<seq<Job>>, first: seq<Job>, last: seq<Job>, left: nat, right: nat,
                                      jobs: seq<Job>, initial: set<Tool>, capacity: int)
    requires FallingSwaps(chain, first, last, jobs, initial, capacity)
    requires left < right < |last| && Drawn(last, jobs) && Fits(last, capacity)
    requires Drawn(Swapped(last, left, right), jobs) && Fits(Swapped(last, left, right), capacity)
    requires KeyLess(OrderKey(Swapped(last, left, right), jobs, initial, capacity), OrderKey(last, jobs, initial, capacity))
    ensures FallingSwaps(chain + [Swapped(last, left, right)], first, Swapped(last, left, right), jobs, initial, capacity)
  {
    var next := Swapped(last, left, right);
    var longer := chain + [next];
    assert FallingSwap(last, next, jobs, initial, capacity);
    hide FallingSwap, OrderKey, KeyLess, Swapped;
    forall i | 0 <= i < |longer| - 1
      ensures FallingSwap(longer[i], longer[i + 1], jobs, initial, capacity)
    {
      if i < |chain| - 1 {
        assert FallingSwap(chain[i], chain[i + 1], jobs, initial, capacity);
      }
    }
  }

  // ---------- the whole search ----------

  predicate Distinct(jobs: seq<Job>) {
    forall i, j | 0 <= i < j < |jobs| :: jobs[i] != jobs[j]
  }

  /** `plan` belongs to an order of `jobs` whose key is no greater than any other order's. */
  ghost predicate LeastPlan(plan: Plan, order: seq<Job>, jobs: seq<Job>, initial: set<Tool>, capacity: int)
    requires Fits(jobs, capacity)
  {
    && IsPermutation(order, jobs) && Fits(order, capacity) && Drawn(order, jobs)
    && plan == PlanFor(order, initial, capacity)
    && forall other | IsPermutation(other, jobs) :: NoWorseOrder(order, other, jobs, initial, capacity)
  }

  /** `plan` belongs to an order of `jobs` whose key is no greater than the original order's. */
  ghost predicate ImprovedPlan(plan: Plan, order: seq<Job>, jobs: seq<Job>, initial: set<Tool>, capacity: int) {
    && IsPermutation(order, jobs)
    && NoWorseOrder(order, jobs, jobs, initial, capacity)
    && plan == PlanFor(order, initial, capacity)
  }

  /**
   `plan` belongs to an order reached by falling swaps from the first least-key greedy candidate, either five swaps or more, one
   at least for each pass, or to an order that no single swap helps.
   */
  ghost predicate SearchedPlan(plan: Plan, order: seq<Job>, candidates: seq<seq<Job>>, chain: seq<seq<Job>>,
                               jobs: seq<Job>, initial: set<Tool>, capacity: int) {
    && GreedyCandidates(candidates, jobs, initial, capacity)
    && chain != [] && chain[0] in candidates
    && (forall other | other in candidates :: NoWorseOrder(chain[0], other, jobs, initial, capacity))
    && FirstLeast(chain[0], candidates, jobs, initial, capacity)
    && FallingSwaps(chain, chain[0], order, jobs, initial, capacity)
    && Drawn(order, jobs) && Fits(order, capacity) && plan == PlanFor(order, initial, capacity)
    && (|chain| > MAXIMUM_PASSES || NoSwapHelps(order, |order|, 0, jobs, initial, capacity))
  }

  /** For distinct jobs such an order is a permutation of them and no worse than the original. */
  lemma {:induction false} SearchedIsImproved(plan: Plan, order: seq<Job>, candidates: seq<seq<Job>>, chain: seq<seq<Job>>,
                                              jobs: seq<Job>, initial: set<Tool>, capacity: int)
    requires SearchedPlan(plan, order, candidates, chain, jobs, initial, capacity) && Distinct(jobs)
    ensures ImprovedPlan(plan, order, jobs, initial, capacity)
  {
    hide GreedyCandidates, FallingSwaps, NoSwapHelps, NoWorseOrder, PlanFor;
    SwapsImprove(chain, chain[0], order, jobs, initial, capacity);
    CandidatesArePermutations(candidates, jobs, initial, capacity);
    OriginalIsCandidate(candidates, jobs, initial, capacity);
    NoWorseThrough(order, chain[0], jobs, jobs, initial, capacity);
  }

  lemma {:induction false} SwapsImprove(chain: seq<seq<Job>>, first: seq<Job>, last: seq<Job>, jobs: seq<Job>,
        initial: set<Tool>, capacity: int)
    requires FallingSwaps(chain, first, last, jobs, initial, capacity)
    ensures IsPermutation(last, first) && NoWorseOrder(last, first, jobs, initial, capacity)
  {
    FallingSwapsImprove(chain, first, last, |chain| - 1, jobs, initial, capacity);
  }

  lemma {:induction false} OriginalIsCandidate(candidates: seq<seq<Job>>, jobs: seq<Job>, initial: set<Tool>, capacity: int)
    requires GreedyCandidates(candidates, jobs, initial, capacity)
    ensures jobs in candidates
  {
    assert candidates[0] in candidates;
  }

  lemma {:induction false} NoWorseThrough(a: seq<Job>, b: seq<Job>, c: seq<Job>, jobs: seq<Job>,
        initial: set<Tool>, capacity: int)
    requires NoWorseOrder(a, b, jobs, initial, capacity) && NoWorseOrder(b, c, jobs, initial, capacity)
    ensures NoWorseOrder(a, c, jobs, initial, capacity)
  {
    NoWorseTransitive(a, b, c, jobs, initial, capacity);
  }

  function MethodFor(count: nat): SearchMethod {
    if count <= 1 then NoOptimization
    else if count <= EXACT_SEARCH_LIMIT then ExactMinimum
    else GreedyWithImprovement
  }

  method OptimizeToolSchedule(jobs: seq<Job>, initialTools: set<Tool>, capacity: int)
    returns (r: Result<(Plan, SearchMethod), Oversized>)
    ensures r.Success? <==> Fits(jobs, capacity)
    ensures r.Failure? ==> r.error == FirstOversized(jobs, capacity)
    ensures r.Success? ==> r.value.1 == MethodFor(|jobs|)
    ensures r.Success? && |jobs| <= EXACT_SEARCH_LIMIT ==>
              exists order :: LeastPlan(r.value.0, order, jobs, initialTools, capacity)
                           && FirstLeast(order, Permutations(jobs), jobs, initialTools, capacity)
    ensures r.Success? && |jobs| > EXACT_SEARCH_LIMIT ==>
              exists order, candidates, chain :: SearchedPlan(r.value.0, order, candidates, chain, jobs, initialTools, capacity)
    ensures r.Success? && |jobs| > EXACT_SEARCH_LIMIT && Distinct(jobs) ==>
              exists order :: ImprovedPlan(r.value.0, order, jobs, initialTools, capacity)
  {
    hide Tells;
    if |jobs| <= 1 {
      var only := SimulateToolPlan(jobs, initialTools, capacity);
      if only.Failure? {
        return Failure(only.error);
      }
      OnlyOrder(jobs, initialTools, capacity);
      OnlyIsFirst(jobs, initialTools, capacity);
      assert LeastPlan(only.value, jobs, jobs, initialTools, capacity);
      return Success((only.value, NoOptimization));
    }
    if |jobs| <= EXACT_SEARCH_LIMIT {
      var orders := Permutations(jobs);
      PermutationsStartWithOriginal(jobs);
      ListedOrdersAreDrawn(orders, jobs, capacity);
      var best := BestOf(orders, jobs, initialTools, capacity);
      if best.Failure? {
        return Failure(best.error);
      }
      assert jobs in orders;
      LeastOfAll(best.value.0, jobs, initialTools, capacity);
      assert LeastPlan(best.value.1, best.value.0, jobs, initialTools, capacity);
      return Success((best.value.1, ExactMinimum));
    }
    var candidates := GreedyOrders(jobs, initialTools, capacity);
    if candidates.Failure? {
      return Failure(candidates.error);
    }
    CandidatesAreDrawn(candidates.value, jobs, initialTools, capacity);
    var best := BestOf(candidates.value, jobs, initialTools, capacity);
    if best.Failure? {
      return Failure(best.error);
    }
    var bestOrder, bestPlan, _, _, chain := ImproveBySwaps(best.value.0, best.value.1, jobs, initialTools, capacity);
    assert candidates.value[0] in candidates.value;
    assert SearchedPlan(bestPlan, bestOrder, candidates.value, chain, jobs, initialTools, capacity);
    if Distinct(jobs) {
      SearchedIsImproved(bestPlan, bestOrder, candidates.value, chain, jobs, initialTools, capacity);
    }
    return Success((bestPlan, GreedyWithImprovement));
  }

  lemma {:induction false} OnlyOrder(jobs: seq<Job>, initial: set<Tool>, capacity: int)
    requires |jobs| <= 1 && Fits(jobs, capacity)
    ensures forall other | IsPermutation(other, jobs) :: NoWorseOrder(jobs, other, jobs, initial, capacity)
  {
    var key := OrderKey(jobs, jobs, initial, capacity);
    KeyLessIsStrictTotalOrder(key, key, key);
    forall other | IsPermutation(other, jobs)
      ensures other == jobs
    {
      PermutationIsDrawn(other, jobs);
      if other != [] {
        assert other[0] in jobs;
      }
    }
  }

  lemma {:induction false} OnlyIsFirst(jobs: seq<Job>, initial: set<Tool>, capacity: int)
    requires forall other | IsPermutation(other, jobs) :: NoWorseOrder(jobs, other, jobs, initial, capacity)
    ensures FirstLeast(jobs, Permutations(jobs), jobs, initial, capacity)
  {
    hide NoWorseOrder, Permutations;
    PermutationsStartWithOriginal(jobs);
    PermutationsAreOrders(jobs);
    assert FirstLeastAt(jobs, Permutations(jobs), 0, jobs, initial, capacity);
  }

  lemma {:induction false} PermutationsStartWithOriginal<T>(s: seq<T>)
    ensures Permutations(s) != [] && Permutations(s)[0] == s
    decreases |s|
  {
    if s != [] {
      PermutationsStartWithOriginal(Without(s, 0));
      assert Without(s, 0) == s[1..];
      assert [s[0]] + s[1..] == s;
    }
  }

  lemma {:induction false} ListedOrdersAreDrawn(orders: seq<seq<Job>>, jobs: seq<Job>, capacity: int)
    requires orders == Permutations(jobs)
    ensures forall order | order in orders :: IsPermutation(order, jobs) && Drawn(order, jobs) && (Fits(jobs, capacity) ==> Fits(order, capacity))
  {
    PermutationsAreOrders(jobs);
    forall order | order in orders
      ensures IsPermutation(order, jobs) && Drawn(order, jobs) && (Fits(jobs, capacity) ==> Fits(order, capacity))
    {
      PermutationIsDrawn(order, jobs);
      if Fits(jobs, capacity) {
        FitsWhenDrawn(order, jobs, capacity);
      }
    }
  }

  lemma {:induction false} LeastOfAll(best: seq<Job>, jobs: seq<Job>, initial: set<Tool>, capacity: int)
    requires Fits(jobs, capacity) && best in Permutations(jobs) && Fits(best, capacity) && Drawn(best, jobs)
    requires forall order | order in Permutations(jobs) :: NoWorseOrder(best, order, jobs, initial, capacity)
    ensures LeastPlan(PlanFor(best, initial, capacity), best, jobs, initial, capacity)
  {
    PermutationsAreOrders(jobs);
    forall other | IsPermutation(other, jobs)
      ensures NoWorseOrder(best, other, jobs, initial, capacity)
    {
      EveryOrderIsListed(jobs, other);
    }
  }

  lemma {:induction false} CandidatesAreDrawn(candidates: seq<seq<Job>>, jobs: seq<Job>, initial: set<Tool>, capacity: int)
    requires GreedyCandidates(candidates, jobs, initial, capacity)
    ensures forall order | order in candidates :: Drawn(order, jobs) && (Fits(jobs, capacity) ==> Fits(order, capacity))
  {
    forall order | order in candidates
      ensures Drawn(order, jobs) && (Fits(jobs, capacity) ==> Fits(order, capacity))
    {
      var k :| 0 <= k < |candidates| && candidates[k] == order;
      if k > 0 {
        assert Greedy(candidates[k - 1 + 1], jobs[k - 1], jobs, initial, capacity);
        forall job | job in order
          ensures job in jobs
        {
          assert job in multiset(order);
        }
      }
      if Fits(jobs, capacity) {
        FitsWhenDrawn(order, jobs, capacity);
      }
    }
  }

  lemma {:induction false} CandidatesArePermutations(candidates: seq<seq<Job>>, jobs: seq<Job>, initial: set<Tool>,
        capacity: int)
    requires GreedyCandidates(candidates, jobs, initial, capacity) && Distinct(jobs)
    ensures forall order | order in candidates :: IsPermutation(order, jobs)
  {
    forall order | order in candidates
      ensures IsPermutation(order, jobs)
    {
      var k :| 0 <= k < |candidates| && candidates[k] == order;
      if k > 0 {
        assert Greedy(candidates[k - 1 + 1], jobs[k - 1], jobs, initial, capacity);
        OccursOnce(jobs, k - 1);
        GreedyKeepsAllJobs(order, jobs[k - 1], jobs, initial, capacity);
      }
    }
  }

  lemma {:induction false} OccursOnce(jobs: seq<Job>, k: nat)
    requires Distinct(jobs) && k < |jobs|
    ensures multiset(jobs)[jobs[k]] == 1
  {
    assert jobs == jobs[..k] + [jobs[k]] + jobs[k + 1..];
    assert jobs[k] !in jobs[..k] && jobs[k] !in jobs[k + 1..];
  }

  /** No order of the jobs, with any feasible handling of the magazine, needs fewer movements than the exact search's plan. */
  lemma {:induction false} LeastPlanBeatsEveryPolicy(plan: Plan, order: seq<Job>, jobs: seq<Job>,
        initial: set<Tool>, capacity: int,
                                                     other: seq<Job>, contents: seq<set<Tool>>)
    requires Fits(jobs, capacity) && LeastPlan(plan, order, jobs, initial, capacity)
    requires IsPermutation(other, jobs) && Feasible(other, contents, capacity)
    ensures plan.Movements() <= LoadsOf(initial, contents, |other|) + UnloadsOf(initial, contents, |other|)
  {
    assert NoWorseOrder(order, other, jobs, initial, capacity);
    PlanIsOptimal(other, initial, capacity, contents);
  }

  function Copies(job: Job, n: nat): (jobs: seq<Job>)
    ensures |jobs| == n && forall i | 0 <= i < n :: jobs[i] == job
  {
    seq(n, _ => job)
  }

  /** Repeating one job more than eight times: the greedy order from it has lost the copies, and its key wins. */
  lemma {:induction false} EqualJobsAreDropped(job: Job, copies: nat, initial: set<Tool>, capacity: int, order: seq<Job>)
    requires copies > EXACT_SEARCH_LIMIT && |job.tools| <= capacity
    requires Greedy(order, job, Copies(job, copies), initial, capacity)
    ensures var jobs := Copies(job, copies);
            && order == [job]
            && KeyLess(OrderKey(order, jobs, initial, capacity), OrderKey(jobs, jobs, initial, capacity))
  {
    var jobs := Copies(job, copies);
    AllOfOne(job, jobs);
    OnlyOne(order, job);
    hide Greedy, OrderKey, KeyLess;
    ShorterWins(order, jobs, initial, capacity);
  }

  lemma {:induction false} CandidateIsOneJob(job: Job, copies: nat, initial: set<Tool>, capacity: int,
        candidates: seq<seq<Job>>, k: nat)
    requires copies > EXACT_SEARCH_LIMIT && |job.tools| <= capacity && k < copies
    requires GreedyCandidates(candidates, Copies(job, copies), initial, capacity)
    ensures |candidates| == copies + 1 && candidates[k + 1] == [job] && candidates[0] == Copies(job, copies)
    ensures !NoWorseOrder(Copies(job, copies), [job], Copies(job, copies), initial, capacity)
  {
    hide Greedy, OrderKey, KeyLess, Copies;
    assert Greedy(candidates[k + 1], Copies(job, copies)[k], Copies(job, copies), initial, capacity);
    EqualJobsAreDropped(job, copies, initial, capacity, candidates[k + 1]);
  }

  lemma {:induction false} StartIsOneJob(job: Job, copies: nat, initial: set<Tool>, capacity: int,
                                         candidates: seq<seq<Job>>, start: seq<Job>)
    requires copies > EXACT_SEARCH_LIMIT && |job.tools| <= capacity && start in candidates
    requires GreedyCandidates(candidates, Copies(job, copies), initial, capacity)
    requires forall other | other in candidates :: NoWorseOrder(start, other, Copies(job, copies), initial, capacity)
    ensures start == [job]
  {
    hide NoWorseOrder, GreedyCandidates, Copies;
    var k :| 0 <= k < |candidates| && candidates[k] == start;
    CandidateIsOneJob(job, copies, initial, capacity, candidates, 0);
    if k > 0 {
      CandidateIsOneJob(job, copies, initial, capacity, candidates, k - 1);
    }
  }

  /** And so the plan the search gives for them is the plan of that one job. */
  lemma {:induction false} EqualJobsArePlannedOnce(job: Job, copies: nat, initial: set<Tool>, capacity: int,
                                                   plan: Plan, order: seq<Job>, candidates: seq<seq<Job>>, chain: seq<seq<Job>>)
    requires copies > EXACT_SEARCH_LIMIT && |job.tools| <= capacity
    requires SearchedPlan(plan, order, candidates, chain, Copies(job, copies), initial, capacity)
    ensures order == [job] && plan == PlanFor([job], initial, capacity)
  {
    hide GreedyCandidates, FallingSwaps, NoSwapHelps, NoWorseOrder, PlanFor;
    var jobs := Copies(job, copies);
    StartIsOneJob(job, copies, initial, capacity, candidates, chain[0]);
    SwapsImprove(chain, chain[0], order, jobs, initial, capacity);
    OnlyOne(order, job);
  }

  lemma {:induction false} OnlyOne(order: seq<Job>, job: Job)
    requires multiset(order) == multiset([job])
    ensures order == [job]
  {
    assert |multiset(order)| == 1;
    assert order[0] in multiset(order);
  }

  /** One job costs no more movements or loads than that job and more after it, and its positions come first. */
  lemma {:induction false} ShorterWins(order: seq<Job>, jobs: seq<Job>, initial: set<Tool>, capacity: int)
    requires |order| == 1 < |jobs| && order[0] == jobs[0] && Fits(jobs, capacity)
    requires Fits(order, capacity) && Drawn(order, jobs)
    ensures KeyLess(OrderKey(order, jobs, initial, capacity), OrderKey(jobs, jobs, initial, capacity))
  {
    FirstJobCosts(order, initial, capacity);
    FirstJobCosts(jobs, initial, capacity);
    CountersGrow(jobs, initial, capacity, |jobs|);
    PlanSteps(order, initial, capacity, 1);
    PlanSteps(jobs, initial, capacity, |jobs|);
    PlanCoversOrder(order, jobs, initial, capacity);
    PlanCoversOrder(jobs, jobs, initial, capacity);
    ShorterIsLess(PlanFor(order, initial, capacity).palletIds, PlanFor(jobs, initial, capacity).palletIds, Positions(jobs));
  }

  lemma {:induction false} ShorterIsLess(a: seq<string>, b: seq<string>, positions: map<string, int>)
    requires |a| == 1 < |b| && a[0] == b[0]
    requires (forall id | id in a :: id in positions) && (forall id | id in b :: id in positions)
    ensures LexLess(PositionsOf(a, positions), PositionsOf(b, positions))
  {
    assert a[0] in a;
    var p, q := PositionsOf(a, positions), PositionsOf(b, positions);
    assert p[1..] == [] && q[1..] != [];
    assert LexLess(p[1..], q[1..]);
  }

  lemma {:induction false} AllOfOne(job: Job, jobs: seq<Job>)
    requires jobs != [] && forall i | 0 <= i < |jobs| :: jobs[i] == job
    ensures multiset(jobs)[job := 1] == multiset{job}
  {
    forall other | other != job
      ensures multiset(jobs)[other] == 0
    {
      assert other !in jobs;
    }
  }

  lemma {:induction false} FirstJobCosts(jobs: seq<Job>, initial: set<Tool>, capacity: int)
    requires jobs != [] && Fits(jobs, capacity)
    ensures var plan := ProgressAt(jobs, initial, capacity, 1).plan;
            && plan.loads == |jobs[0].tools - initial|
            && plan.unloads == RemoveCount(initial, jobs[0].tools, capacity)
  {
    var start := ProgressAt(jobs, initial, capacity, 0);
    NextProgress(jobs, initial, capacity, 0, start);
    RemovalsGoFurthest(initial, jobs, 0, capacity);
  }

  lemma {:induction false} CountersGrow(jobs: seq<Job>, initial: set<Tool>, capacity: int, k: nat)
    requires 1 <= k <= |jobs| && Fits(jobs, capacity)
    ensures var first, plan := ProgressAt(jobs, initial, capacity, 1).plan, ProgressAt(jobs, initial, capacity, k).plan;
            first.loads <= plan.loads && first.unloads <= plan.unloads
  {
    if k > 1 {
      CountersGrow(jobs, initial, capacity, k - 1);
      NextProgress(jobs, initial, capacity, k - 1, ProgressAt(jobs, initial, capacity, k - 1));
    }
  }
}
