/** Plans and their dependency graphs (domain/plan.py, orchestration/scheduler.py). */
module Plans {
  import opened Events

  datatype Task = Task(id: TaskId, dependencies: seq<TaskId>)

  type Plan = seq<Task>

  function Ids(plan: Plan): set<TaskId> {
    set task | task in plan :: task.id
  }

  /** The ids in the order of the plan. */
  function IdList(plan: Plan): (ids: seq<TaskId>)
    ensures forall t :: t in ids <==> t in Ids(plan)
    ensures |ids| == |plan|
  {
    var ids := seq(|plan|, i requires 0 <= i < |plan| => plan[i].id);
    assert forall i :: 0 <= i < |plan| ==> ids[i] == plan[i].id && plan[i] in plan;
    ids
  }

  lemma IndexOfTask(plan: Plan, t: TaskId) returns (i: nat)
    requires t in Ids(plan)
    ensures i < |plan| && plan[i].id == t
  {
    var task :| task in plan && task.id == t;
    i :| 0 <= i < |plan| && plan[i] == task;
  }

  lemma IdsLast(plan: Plan)
    requires plan != []
    ensures Ids(plan) == Ids(plan[..|plan| - 1]) + {plan[|plan| - 1].id}
    ensures DistinctIds(plan) <==> DistinctIds(plan[..|plan| - 1]) && plan[|plan| - 1].id !in Ids(plan[..|plan| - 1])
  {
    var n := |plan| - 1;
    var p := plan[..n];
    assert plan == p + [plan[n]];
    assert forall i :: 0 <= i < n ==> p[i] == plan[i] && p[i] in p;
    if plan[n].id in Ids(p) {
      var task :| task in p && task.id == plan[n].id;
      var i :| 0 <= i < n && plan[i] == task;
    }
  }

  /** A plan has as many ids as entries exactly when its ids are distinct. */
  lemma {:induction false} IdsBound(plan: Plan)
    ensures |Ids(plan)| <= |plan|
    ensures |Ids(plan)| == |plan| <==> DistinctIds(plan)
  {
    if plan == [] {
      assert Ids(plan) == {};
    } else {
      IdsLast(plan);
      IdsBound(plan[..|plan| - 1]);
    }
  }

  /** Nothing in the code enforces this; task ids default to fresh UUIDs. */
  ghost predicate DistinctIds(plan: Plan) {
    forall i, j :: 0 <= i < j < |plan| ==> plan[i].id != plan[j].id
  }

  /** Every dependency is a task of the plan. */
  ghost predicate Closed(plan: Plan) {
    forall i :: 0 <= i < |plan| ==> forall d :: d in plan[i].dependencies ==> d in Ids(plan)
  }

  type Graph = map<TaskId, seq<TaskId>>

  function Filter(s: seq<TaskId>, ids: set<TaskId>): (r: seq<TaskId>)
    ensures forall d :: d in r <==> d in s && d in ids
    ensures |r| <= |s|
  {
    if s == [] then []
    else if s[0] in ids then [s[0]] + Filter(s[1..], ids)
    else Filter(s[1..], ids)
  }

  /** A dependency that is listed twice is kept twice. */
  lemma {:induction false} FilterKeepsAll(s: seq<TaskId>, ids: set<TaskId>, d: TaskId)
    ensures multiset(Filter(s, ids))[d] == if d in ids then multiset(s)[d] else 0
  {
    if s != [] {
      assert s == [s[0]] + s[1..];
      FilterKeepsAll(s[1..], ids, d);
    }
  }

  /** The first `k` entries of the plan, as `dep_map`: a later entry with the same id wins. */
  function DepMapPrefix(plan: Plan, k: nat): Graph
    requires k <= |plan|
  {
    if k == 0 then map[]
    else DepMapPrefix(plan, k - 1)[plan[k - 1].id := Filter(plan[k - 1].dependencies, Ids(plan))]
  }

  /** The dependency relation restricted to the plan's own tasks. */
  function DepMap(plan: Plan): Graph {
    DepMapPrefix(plan, |plan|)
  }

  /** `a` depends on `b`. */
  predicate Edge(g: Graph, a: TaskId, b: TaskId) {
    a in g && b in g[a]
  }

  ghost predicate Walk(g: Graph, w: seq<TaskId>) {
    forall i :: 0 <= i < |w| - 1 ==> Edge(g, w[i], w[i + 1])
  }

  /** Each task depends on the next one, and the last on the first. */
  ghost predicate ClosedWalk(g: Graph, w: seq<TaskId>) {
    w != [] && Walk(g, w) && Edge(g, w[|w| - 1], w[0])
  }

  ghost predicate Acyclic(g: Graph) {
    forall w :: !ClosedWalk(g, w)
  }

  ghost predicate NoDuplicates(s: seq<TaskId>) {
    forall i, j :: 0 <= i < j < |s| ==> s[i] != s[j]
  }

  ghost predicate SimpleCycle(g: Graph, w: seq<TaskId>) {
    ClosedWalk(g, w) && NoDuplicates(w)
  }

  /** The dependencies of each task in `order` come before it. */
  ghost predicate DependenciesFirst(g: Graph, order: seq<TaskId>) {
    forall i :: 0 <= i < |order| ==> forall d :: Edge(g, order[i], d) ==> d in order[..i]
  }

  /** `order` lists every task once. */
  ghost predicate Lists(g: Graph, order: seq<TaskId>) {
    NoDuplicates(order) && forall n :: n in order <==> n in g
  }

  ghost predicate Topological(g: Graph, order: seq<TaskId>) {
    Lists(g, order) && DependenciesFirst(g, order)
  }

  /** Distinct ids, no dependency outside the plan, and no cycle. */
  ghost predicate Sound(plan: Plan) {
    DistinctIds(plan) && Closed(plan) && Acyclic(DepMap(plan))
  }

  /** The same, with an order that shows that there is no cycle. */
  ghost predicate Ordered(plan: Plan, order: seq<TaskId>) {
    DistinctIds(plan) && Closed(plan) && Topological(DepMap(plan), order)
  }

  /** No dependency leaves the graph. */
  ghost predicate Internal(g: Graph) {
    forall a, b :: Edge(g, a, b) ==> b in g
  }

  /** The number of dependency edges out of the tasks in `s`. */
  function Degree(g: Graph, s: seq<TaskId>): nat {
    if s == [] then 0
    else Degree(g, s[..|s| - 1]) + if s[|s| - 1] in g then |g[s[|s| - 1]]| else 0
  }

  lemma {:induction false} DegreeConcat(g: Graph, s: seq<TaskId>, t: seq<TaskId>)
    ensures Degree(g, s + t) == Degree(g, s) + Degree(g, t)
  {
    if t == [] {
      assert s + t == s;
    } else {
      DegreeConcat(g, s, t[..|t| - 1]);
      assert (s + t)[..|s + t| - 1] == s + t[..|t| - 1];
    }
  }

  lemma {:induction false} DepMapKeys(plan: Plan, k: nat)
    requires k <= |plan|
    ensures DepMapPrefix(plan, k).Keys == Ids(plan[..k])
  {
    if k > 0 {
      DepMapKeys(plan, k - 1);
      assert plan[..k] == plan[..k - 1] + [plan[k - 1]];
      assert Ids(plan[..k]) == Ids(plan[..k - 1]) + {plan[k - 1].id};
    }
  }

  lemma {:induction false} DepMapEdges(plan: Plan, k: nat, a: TaskId, b: TaskId)
    requires k <= |plan| && Edge(DepMapPrefix(plan, k), a, b)
    ensures b in Ids(plan)
  {
    if a != plan[k - 1].id {
      DepMapEdges(plan, k - 1, a, b);
    }
  }

  /** No later entry has the id of the entry at `i`. */
  ghost predicate LastEntry(plan: Plan, i: nat)
    requires i < |plan|
  {
    forall j :: i < j < |plan| ==> plan[j].id != plan[i].id
  }

  lemma {:induction false} DepMapEntry(plan: Plan, k: nat, i: nat)
    requires i < k <= |plan| && LastEntry(plan, i)
    ensures plan[i].id in DepMapPrefix(plan, k)
    ensures DepMapPrefix(plan, k)[plan[i].id] == Filter(plan[i].dependencies, Ids(plan))
  {
    if i < k - 1 {
      DepMapEntry(plan, k - 1, i);
    }
  }

  /** The graph has the plan's tasks as nodes, and no edge leaves it. */
  lemma DepMapIsInternal(plan: Plan)
    ensures DepMap(plan).Keys == Ids(plan) && Internal(DepMap(plan))
  {
    DepMapKeys(plan, |plan|);
    assert plan[..|plan|] == plan;
    forall a, b | Edge(DepMap(plan), a, b) ensures b in DepMap(plan) {
      DepMapEdges(plan, |plan|, a, b);
    }
  }

  /** An edge is a dependency on a task of the plan, listed in the last entry for the id; the entry,
      if the ids are distinct. */
  lemma DepMapIsRelation(plan: Plan, i: nat, d: TaskId)
    requires i < |plan| && LastEntry(plan, i)
    ensures Edge(DepMap(plan), plan[i].id, d) <==> d in plan[i].dependencies && d in Ids(plan)
  {
    DepMapEntry(plan, |plan|, i);
  }

  /** Along a walk in a topologically ordered graph the position falls at every step. */
  lemma {:induction false} WalkDescends(g: Graph, order: seq<TaskId>, w: seq<TaskId>, p: nat)
    requires Topological(g, order) && Walk(g, w) && w != []
    requires p < |order| && order[p] == w[0]
    ensures exists q :: 0 <= q <= p && order[q] == w[|w| - 1] && (|w| > 1 ==> q < p)
  {
    if |w| > 1 {
      assert Edge(g, w[0], w[1]);
      assert w[1] in order[..p];
      var q :| 0 <= q < p && order[q] == w[1];
      WalkDescends(g, order, w[1..], q);
    }
  }

  lemma WalkDoesNotReturn(g: Graph, order: seq<TaskId>, w: seq<TaskId>)
    requires Topological(g, order) && Walk(g, w) && w != [] && w[0] in g
    ensures !Edge(g, w[|w| - 1], w[0])
  {
    var p :| 0 <= p < |order| && order[p] == w[0];
    WalkDescends(g, order, w, p);
    var q :| 0 <= q <= p && order[q] == w[|w| - 1];
    assert w[0] !in order[..q];
  }

  lemma ClosedWalkInside(g: Graph, w: seq<TaskId>)
    requires w == [] || w[0] !in g
    ensures !ClosedWalk(g, w)
  {
    if |w| > 1 {
      assert !Edge(g, w[0], w[1]);
    }
  }

  /** A graph with a topological order has no cycle. */
  lemma TopologicalIsAcyclic(g: Graph, order: seq<TaskId>)
    requires Topological(g, order)
    ensures Acyclic(g)
  {
    forall w ensures !ClosedWalk(g, w) {
      if w == [] || w[0] !in g {
        ClosedWalkInside(g, w);
      } else if Walk(g, w) {
        WalkDoesNotReturn(g, order, w);
      }
    }
  }
}
