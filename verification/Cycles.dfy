/** Three-colour depth-first search for circular dependencies (orchestration/scheduler.py). */
module Cycles {
  import opened Events
  import opened Plans

  datatype Color = White | Gray | Black

  /** `list.index`: the first position of `x`. */
  function IndexOf(s: seq<TaskId>, x: TaskId): (i: nat)
    requires x in s
    ensures i < |s| && s[i] == x && x !in s[..i]
  {
    if s[0] == x then 0 else 1 + IndexOf(s[1..], x)
  }

  ghost predicate PathOk(g: Graph, color: map<TaskId, Color>, path: seq<TaskId>) {
    && NoDuplicates(path)
    && Walk(g, path)
    && (forall n :: n in path <==> n in color && color[n] == Gray)
  }

  ghost predicate OrderOk(g: Graph, color: map<TaskId, Color>, cycles: seq<seq<TaskId>>, order: seq<TaskId>) {
    && NoDuplicates(order)
    && (forall n :: n in order <==> n in color && color[n] == Black)
    && (cycles == [] ==> DependenciesFirst(g, order))
  }

  ghost predicate Genuine(g: Graph, cycles: seq<seq<TaskId>>) {
    forall c :: c in cycles ==> SimpleCycle(g, c)
  }

  /** Gray tasks are the current path, black tasks are `order` in the order they turned black,
      every reported cycle is one, and as long as none was reported, `order` is topological. */
  ghost predicate SearchOk(g: Graph, color: map<TaskId, Color>, path: seq<TaskId>,
                           cycles: seq<seq<TaskId>>, order: seq<TaskId>) {
    && color.Keys == g.Keys
    && PathOk(g, color, path)
    && OrderOk(g, color, cycles, order)
    && Genuine(g, cycles)
  }

  lemma EnterOk(g: Graph, color: map<TaskId, Color>, path: seq<TaskId>,
                cycles: seq<seq<TaskId>>, order: seq<TaskId>, node: TaskId)
    requires SearchOk(g, color, path, cycles, order)
    requires node in color && color[node] == White
    requires path != [] ==> Edge(g, path[|path| - 1], node)
    ensures SearchOk(g, color[node := Gray], path + [node], cycles, order)
  {
    assert node !in path && node !in order;
  }

  lemma ReportOk(g: Graph, color: map<TaskId, Color>, path: seq<TaskId>,
                 cycles: seq<seq<TaskId>>, order: seq<TaskId>, neighbour: TaskId)
    requires SearchOk(g, color, path, cycles, order)
    requires path != [] && Edge(g, path[|path| - 1], neighbour) && neighbour in path
    ensures SearchOk(g, color, path, cycles + [path[IndexOf(path, neighbour)..]], order)
  {
    SuffixIsCycle(g, path, IndexOf(path, neighbour));
  }

  lemma SuffixIsCycle(g: Graph, path: seq<TaskId>, start: nat)
    requires start < |path| && Walk(g, path) && NoDuplicates(path)
    requires Edge(g, path[|path| - 1], path[start])
    ensures SimpleCycle(g, path[start..])
  {
    var c := path[start..];
    forall i | 0 <= i < |c| - 1 ensures Edge(g, c[i], c[i + 1]) {
      assert Edge(g, path[start + i], path[start + i + 1]);
    }
  }

  lemma LeaveOk(g: Graph, color: map<TaskId, Color>, path: seq<TaskId>,
                cycles: seq<seq<TaskId>>, order: seq<TaskId>, node: TaskId)
    requires SearchOk(g, color, path, cycles, order)
    requires path != [] && path[|path| - 1] == node
    requires cycles == [] ==> forall d :: Edge(g, node, d) ==> d in order
    ensures SearchOk(g, color[node := Black], path[..|path| - 1], cycles, order + [node])
  {
    var p := path[..|path| - 1];
    assert node in path && color[node] == Gray && node !in order;
    assert path == p + [node];
    assert node !in p;
    var o := order + [node];
    if cycles == [] {
      forall i, d | 0 <= i < |o| && Edge(g, o[i], d) ensures d in o[..i] {
        if i < |order| {
          assert o[..i] == order[..i];
        } else {
          assert o[..i] == order;
        }
      }
    }
  }

  // ---- Which cycles are reported ----

  /** For each reported cycle, the edge that closes it: from its last task back to its first. */
  function Closing(cycles: seq<seq<TaskId>>): multiset<(TaskId, TaskId)> {
    if cycles == [] then multiset{}
    else
      var c := cycles[|cycles| - 1];
      Closing(cycles[..|cycles| - 1]) + if c == [] then multiset{} else multiset{(c[|c| - 1], c[0])}
  }

  /** The edges from `a` to those of its dependencies `s` that are not in `done`. */
  function Outside(a: TaskId, s: seq<TaskId>, done: seq<TaskId>): multiset<(TaskId, TaskId)> {
    if s == [] then multiset{}
    else
      var b := s[|s| - 1];
      Outside(a, s[..|s| - 1], done) + if b in done then multiset{} else multiset{(a, b)}
  }

  /** The edges from `a` to those of its dependencies `s` that are on the path. */
  function Inside(a: TaskId, s: seq<TaskId>, path: seq<TaskId>): multiset<(TaskId, TaskId)> {
    if s == [] then multiset{}
    else
      var b := s[|s| - 1];
      Inside(a, s[..|s| - 1], path) + if b in path then multiset{(a, b)} else multiset{}
  }

  /** The edges out of the tasks of `order` to tasks that do not come before them. */
  function BackEdges(g: Graph, order: seq<TaskId>): multiset<(TaskId, TaskId)> {
    if order == [] then multiset{}
    else
      var n := |order| - 1;
      BackEdges(g, order[..n]) + if order[n] in g then Outside(order[n], g[order[n]], order[..n]) else multiset{}
  }

  lemma ClosingNext(cycles: seq<seq<TaskId>>, c: seq<TaskId>)
    requires c != []
    ensures Closing(cycles + [c]) == Closing(cycles) + multiset{(c[|c| - 1], c[0])}
  {
    assert (cycles + [c])[..|cycles|] == cycles;
  }

  lemma {:induction false} InsideIsOutside(a: TaskId, s: seq<TaskId>, path: seq<TaskId>, done: seq<TaskId>)
    requires forall b :: b in s ==> (b in path <==> b !in done)
    ensures Inside(a, s, path) == Outside(a, s, done)
  {
    if s != [] {
      assert s == s[..|s| - 1] + [s[|s| - 1]];
      InsideIsOutside(a, s[..|s| - 1], path, done);
    }
  }

  lemma InsideNext(a: TaskId, s: seq<TaskId>, i: nat, path: seq<TaskId>)
    requires i < |s|
    ensures Inside(a, s[..i + 1], path) == Inside(a, s[..i], path) + Inside(a, [s[i]], path)
  {
    assert s[..i + 1][..i] == s[..i];
  }

  lemma {:induction false} OutsideHas(a: TaskId, s: seq<TaskId>, done: seq<TaskId>, x: TaskId, y: TaskId)
    ensures (x, y) in Outside(a, s, done) <==> x == a && y in s && y !in done
    ensures |Outside(a, s, done)| <= |s|
  {
    if s != [] {
      assert s == s[..|s| - 1] + [s[|s| - 1]];
      OutsideHas(a, s[..|s| - 1], done, x, y);
    }
  }

  /** `b` comes before `a`. */
  ghost predicate Before(order: seq<TaskId>, b: TaskId, a: TaskId) {
    exists k :: 0 <= k < |order| && order[k] == a && b in order[..k]
  }

  lemma {:induction false} BackEdgesHave(g: Graph, order: seq<TaskId>, a: TaskId, b: TaskId)
    requires NoDuplicates(order) && forall n :: n in order ==> n in g
    ensures (a, b) in BackEdges(g, order) <==> a in order && Edge(g, a, b) && !Before(order, b, a)
    ensures |BackEdges(g, order)| <= Degree(g, order)
  {
    if order != [] {
      var n := |order| - 1;
      assert order == order[..n] + [order[n]];
      BackEdgesHave(g, order[..n], a, b);
      OutsideHas(order[n], g[order[n]], order[..n], a, b);
      BeforeNext(order, a, b);
    }
  }

  lemma BeforeNext(order: seq<TaskId>, a: TaskId, b: TaskId)
    requires order != [] && NoDuplicates(order)
    ensures
      var n := |order| - 1;
      Before(order, b, a) <==> if a == order[n] then b in order[..n] else Before(order[..n], b, a)
  {
    var n := |order| - 1;
    forall k | 0 <= k < n ensures order[..n][k] == order[k] && order[..n][..k] == order[..k] {
    }
    if a == order[n] && b in order[..n] {
      assert order[n] == a;
    }
    if a != order[n] && Before(order[..n], b, a) {
      var k :| 0 <= k < n && order[..n][k] == a && b in order[..n][..k];
      assert order[k] == a;
    }
  }

  /** Some reported cycle is closed by the edge from `a` to `b`. */
  ghost predicate Closes(cycles: seq<seq<TaskId>>, a: TaskId, b: TaskId) {
    exists c :: c in cycles && c != [] && c[|c| - 1] == a && c[0] == b
  }

  lemma {:induction false} ClosingHas(cycles: seq<seq<TaskId>>, a: TaskId, b: TaskId)
    requires forall c :: c in cycles ==> c != []
    ensures (a, b) in Closing(cycles) <==> Closes(cycles, a, b)
    ensures |Closing(cycles)| == |cycles|
  {
    if cycles != [] {
      var n := |cycles| - 1;
      assert cycles == cycles[..n] + [cycles[n]];
      assert forall c :: c in cycles[..n] ==> c in cycles;
      ClosingHas(cycles[..n], a, b);
      assert cycles[n] in cycles;
      assert Closes(cycles, a, b) <==> Closes(cycles[..n], a, b) || (cycles[n][|cycles[n]| - 1] == a && cycles[n][0] == b);
    }
  }

  /** One cycle for every edge to a task that does not come earlier in `order`, as often as the
      edge is listed, and no other. */
  ghost predicate AllReported(g: Graph, cycles: seq<seq<TaskId>>, order: seq<TaskId>) {
    Lists(g, order) && Closing(cycles) == BackEdges(g, order)
  }

  /** The dependencies `s` of `a` without the edges that close a cycle. */
  ghost function Open(cycles: seq<seq<TaskId>>, a: TaskId, s: seq<TaskId>): (r: seq<TaskId>)
    ensures forall b :: b in r <==> b in s && !Closes(cycles, a, b)
  {
    if s == [] then []
    else
      var b := s[|s| - 1];
      Open(cycles, a, s[..|s| - 1]) + if Closes(cycles, a, b) then [] else [b]
  }

  ghost function Opened(g: Graph, cycles: seq<seq<TaskId>>): Graph {
    map a | a in g :: Open(cycles, a, g[a])
  }

  /** The reports are complete: an edge closes a reported cycle exactly if it does not lead to an
      earlier task, and without those edges no cycle is left. */
  lemma ReportsAreComplete(g: Graph, cycles: seq<seq<TaskId>>, order: seq<TaskId>)
    requires AllReported(g, cycles, order) && Genuine(g, cycles)
    ensures forall a, b :: Edge(g, a, b) ==> (Closes(cycles, a, b) <==> !Before(order, b, a))
    ensures |cycles| == |BackEdges(g, order)| <= Degree(g, order)
    ensures Acyclic(Opened(g, cycles))
  {
    ClosingHas(cycles, 0, 0);
    BackEdgesHave(g, order, 0, 0);
    forall a, b | Edge(g, a, b) ensures Closes(cycles, a, b) <==> !Before(order, b, a) {
      ClosingHas(cycles, a, b);
      BackEdgesHave(g, order, a, b);
    }
    OpenedIsOrdered(g, cycles, order);
    TopologicalIsAcyclic(Opened(g, cycles), order);
  }

  lemma OpenedIsOrdered(g: Graph, cycles: seq<seq<TaskId>>, order: seq<TaskId>)
    requires Lists(g, order) && forall a, b :: Edge(g, a, b) ==> (Closes(cycles, a, b) <==> !Before(order, b, a))
    ensures Topological(Opened(g, cycles), order)
  {
    forall i, d | 0 <= i < |order| && Edge(Opened(g, cycles), order[i], d) ensures d in order[..i] {
      assert Edge(g, order[i], d) && !Closes(cycles, order[i], d);
      var k :| 0 <= k < |order| && order[k] == order[i] && d in order[..k];
      assert k == i;
    }
  }

  /** From `(o, c)` to `(p, d)` the search only added to the visited tasks and to the cycles: one
      cycle for each edge out of a newly visited task that leads to no earlier one, and `extra`. */
  ghost predicate Progress(g: Graph, o: seq<TaskId>, c: seq<seq<TaskId>>,
                           p: seq<TaskId>, d: seq<seq<TaskId>>, extra: multiset<(TaskId, TaskId)>) {
    o <= p && c <= d && Closing(d) + BackEdges(g, o) == Closing(c) + BackEdges(g, p) + extra
  }

  lemma ProgressNone(g: Graph, o: seq<TaskId>, c: seq<seq<TaskId>>, node: TaskId, path: seq<TaskId>)
    ensures Progress(g, o, c, o, c, Inside(node, [], path))
  {
    assert Closing(c) + BackEdges(g, o) == Closing(c) + BackEdges(g, o) + multiset{};
  }

  lemma ProgressTrans(g: Graph, o: seq<TaskId>, c: seq<seq<TaskId>>,
                      p: seq<TaskId>, d: seq<seq<TaskId>>, m: multiset<(TaskId, TaskId)>,
                      q: seq<TaskId>, e: seq<seq<TaskId>>, n: multiset<(TaskId, TaskId)>)
    requires Progress(g, o, c, p, d, m) && Progress(g, p, d, q, e, n)
    ensures Progress(g, o, c, q, e, m + n)
  {
    var left, right := Closing(e) + BackEdges(g, o), Closing(c) + BackEdges(g, q) + (m + n);
    forall x: (TaskId, TaskId) ensures left[x] == right[x] {
      var both := Closing(d) + BackEdges(g, o);
      var next := Closing(e) + BackEdges(g, p);
      assert both[x] == (Closing(c) + BackEdges(g, p) + m)[x];
      assert next[x] == (Closing(d) + BackEdges(g, q) + n)[x];
    }
  }

  lemma ProgressLeave(g: Graph, o: seq<TaskId>, c: seq<seq<TaskId>>,
                      p: seq<TaskId>, d: seq<seq<TaskId>>, node: TaskId, path: seq<TaskId>)
    requires node in g && Progress(g, o, c, p, d, Inside(node, g[node], path))
    requires forall b :: b in g[node] ==> (b in path <==> b !in p)
    ensures Progress(g, o, c, p + [node], d, multiset{})
  {
    assert (p + [node])[..|p|] == p;
    InsideIsOutside(node, g[node], path, p);
  }

  class CycleSearch {
    const graph: Graph
    var color: map<TaskId, Color>
    var path: seq<TaskId>
    var cycles: seq<seq<TaskId>>
    ghost var order: seq<TaskId>

    constructor (graph: Graph)
      requires Internal(graph)
      ensures this.graph == graph && Valid()
      ensures path == [] && cycles == [] && order == []
      ensures Whites() == graph.Keys
    {
      this.graph := graph;
      this.color := map n | n in graph :: White;
      this.path, this.cycles, this.order := [], [], [];
    }

    ghost predicate Valid()
      reads this
    {
      Internal(graph) && SearchOk(graph, color, path, cycles, order)
    }

    ghost function Whites(): set<TaskId>
      reads this
    {
      set n | n in color && color[n] == White
    }

    /** Visits `node` and everything white it depends on, and leaves the path as it found it.
        Each visited task turns black once, and each edge out of it that leads to no earlier black
        task yields exactly one cycle. */
    method Dfs(node: TaskId)
      requires Valid() && node in color && color[node] == White
      requires path != [] ==> Edge(graph, path[|path| - 1], node)
      modifies this
      decreases Whites(), 0
      ensures Valid() && path == old(path)
      ensures Whites() < old(Whites()) && node in order
      ensures Progress(graph, old(order), old(cycles), order, cycles, multiset{})
    {
      Enter(node);
      ghost var o, c := order, cycles;
      ExamineAll(node);
      assert path[..|path| - 1] == old(path);
      ProgressLeave(graph, o, c, order, cycles, node, path);
      Leave(node);
    }

    /** The loop over the dependencies of `node`. */
    method ExamineAll(node: TaskId)
      requires Valid() && path != [] && path[|path| - 1] == node && node in graph
      modifies this
      decreases Whites(), 2
      ensures Valid() && path == old(path)
      ensures Whites() <= old(Whites())
      ensures Progress(graph, old(order), old(cycles), order, cycles, Inside(node, graph[node], path))
      ensures forall d :: Edge(graph, node, d) ==> (d in path <==> d !in order)
      ensures cycles == [] ==> forall d :: Edge(graph, node, d) ==> d in order
    {
      hide Progress, Inside;
      var neighbours := graph[node];
      ProgressNone(graph, order, cycles, node, path);
      assert neighbours[..0] == [];
      for i := 0 to |neighbours|
        invariant Valid() && path == old(path)
        invariant Whites() <= old(Whites())
        invariant Progress(graph, old(order), old(cycles), order, cycles, Inside(node, neighbours[..i], path))
        invariant forall d :: d in neighbours[..i] ==> (d in path <==> d !in order)
        invariant cycles == [] ==> forall d :: d in neighbours[..i] ==> d in order
      {
        ghost var o, c := order, cycles;
        assert neighbours[..i + 1] == neighbours[..i] + [neighbours[i]];
        Examine(node, neighbours[i]);
        ProgressTrans(graph, old(order), old(cycles), o, c, Inside(node, neighbours[..i], path),
                      order, cycles, Inside(node, [neighbours[i]], path));
        InsideNext(node, neighbours, i, path);
      }
      assert neighbours[..|neighbours|] == neighbours;
    }

    /** `node` turns gray and joins the path. */
    method Enter(node: TaskId)
      requires Valid() && node in color && color[node] == White
      requires path != [] ==> Edge(graph, path[|path| - 1], node)
      modifies this`color, this`path
      ensures Valid() && path == old(path) + [node]
      ensures Whites() < old(Whites())
    {
      EnterOk(graph, color, path, cycles, order, node);
      color := color[node := Gray];
      path := path + [node];
      assert node in old(Whites()) && node !in Whites() && Whites() <= old(Whites());
    }

    /** `node` leaves the path and turns black. */
    method Leave(node: TaskId)
      requires Valid() && path != [] && path[|path| - 1] == node
      requires cycles == [] ==> forall d :: Edge(graph, node, d) ==> d in order
      modifies this`color, this`path, this`order
      ensures Valid() && path == old(path)[..|old(path)| - 1] && order == old(order) + [node]
      ensures Whites() <= old(Whites())
    {
      LeaveOk(graph, color, path, cycles, order, node);
      path := path[..|path| - 1];
      color := color[node := Black];
      order := order + [node];
    }

    /** One round of the loop over the dependencies of `node`. */
    method Examine(node: TaskId, neighbour: TaskId)
      requires Valid() && path != [] && path[|path| - 1] == node && Edge(graph, node, neighbour)
      modifies this
      decreases Whites(), 1
      ensures Valid() && path == old(path)
      ensures Whites() <= old(Whites())
      ensures Progress(graph, old(order), old(cycles), order, cycles, Inside(node, [neighbour], path))
      ensures neighbour in path <==> neighbour !in order
      ensures cycles == [] ==> neighbour in order
    {
      if color[neighbour] == Gray {
        ReportOk(graph, color, path, cycles, order, neighbour);
        var cycleStart := IndexOf(path, neighbour);
        ClosingNext(cycles, path[cycleStart..]);
        cycles := cycles + [path[cycleStart..]];
      } else if color[neighbour] == White {
        Dfs(neighbour);
      }
    }
  }

  /** Reports a cycle exactly when there is one. Every reported list is a simple cycle. With the
      order in which the tasks turned black, every edge that leads to no earlier task closes a
      reported cycle, once for each time it is listed; without those edges no cycle is left. */
  method FindCycles(graph: Graph) returns (cycles: seq<seq<TaskId>>, ghost order: seq<TaskId>)
    requires Internal(graph)
    ensures cycles == [] <==> Acyclic(graph)
    ensures forall c :: c in cycles ==> SimpleCycle(graph, c)
    ensures AllReported(graph, cycles, order) && |cycles| <= Degree(graph, order)
    ensures cycles == [] ==> Topological(graph, order)
    ensures forall a, b :: Edge(graph, a, b) ==> (Closes(cycles, a, b) <==> !Before(order, b, a))
    ensures Acyclic(Opened(graph, cycles))
  {
    var search := new CycleSearch(graph);
    var rest := graph.Keys;
    while rest != {}
      invariant fresh(search) && search.graph == graph
      invariant search.Valid() && search.path == []
      invariant rest <= graph.Keys && search.Whites() <= rest
      invariant Progress(graph, [], [], search.order, search.cycles, multiset{})
      decreases rest
    {
      var n :| n in rest;
      rest := rest - {n};
      if search.color[n] == White {
        ghost var before := search.order;
        ghost var found := search.cycles;
        search.Dfs(n);
        ProgressTrans(graph, [], [], before, found, multiset{}, search.order, search.cycles, multiset{});
      }
    }
    cycles, order := search.cycles, search.order;
    assert forall k :: k in search.color ==> k !in search.Whites();
    SearchComplete(graph, search.color, cycles, order);
  }

  /** What a search that has left no task white has found out. */
  lemma SearchComplete(g: Graph, color: map<TaskId, Color>, cycles: seq<seq<TaskId>>, order: seq<TaskId>)
    requires SearchOk(g, color, [], cycles, order) && Progress(g, [], [], order, cycles, multiset{})
    requires forall n :: n in color ==> color[n] != White
    ensures cycles == [] <==> Acyclic(g)
    ensures Genuine(g, cycles) && AllReported(g, cycles, order) && |cycles| <= Degree(g, order)
    ensures cycles == [] ==> Topological(g, order)
    ensures forall a, b :: Edge(g, a, b) ==> (Closes(cycles, a, b) <==> !Before(order, b, a))
    ensures Acyclic(Opened(g, cycles))
  {
    assert Closing(cycles) == Closing(cycles) + BackEdges(g, []);
    assert BackEdges(g, order) == Closing([]) + BackEdges(g, order) + multiset{};
    ReportsAreComplete(g, cycles, order);
    if cycles == [] {
      TopologicalIsAcyclic(g, order);
    } else {
      assert SimpleCycle(g, cycles[0]);
    }
  }
}
