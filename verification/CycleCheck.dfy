/** The compiler's two graph searches: depth-first cycle detection over a colour
    map, and the worklist of reachable tasks. */
module CycleCheck {
  import opened Graphs
  import opened Workflows

  datatype Color = White | Gray | Black

  /** "task `node` leads back to `target`" */
  datatype BackRoute = BackRoute(node: string, target: string)

  method Neighbors(task: TaskDefinition) returns (neighbors: seq<string>)
    ensures neighbors == Targets(task)
  {
    neighbors := [];
    if task.routes.fallback.Some? && task.routes.fallback.value != "" {
      neighbors := [task.routes.fallback.value];
    }
    if task.routes.conditional.Some? {
      neighbors := neighbors + ChoiceTargets(task.routes.conditional.value);
    }
  }

  method BuildAdjacency(tasks: seq<TaskDefinition>) returns (adj: Graph)
    ensures adj == Adjacency(tasks)
  {
    hide Targets;
    adj := map[];
    var i := 0;
    while i < |tasks|
      invariant i <= |tasks|
      invariant adj == Adjacency(tasks[..i])
    {
      var neighbors := Neighbors(tasks[i]);
      AdjacencyAddsTask(tasks, i);
      adj := adj[tasks[i].id := neighbors];
      i := i + 1;
    }
    assert tasks[..i] == tasks;
  }

  /** Some reported node can be reached from `n`. */
  ghost predicate Told(g: Graph, diagnostics: seq<BackRoute>, n: string) {
    exists d :: d in diagnostics && Reaches(g, n, d.node)
  }

  /** A route between nodes that reach a cycle. */
  ghost predicate OnTheWay(g: Graph, d: BackRoute) {
    Edge(g, d.node, d.target) && ReachesCycle(g, d.node) && ReachesCycle(g, d.target)
  }

  ghost predicate OncePerNode(diagnostics: seq<BackRoute>) {
    forall i, k :: 0 <= i < k < |diagnostics| ==> diagnostics[i].node != diagnostics[k].node
  }

  /** The variables that the recursive `dfs` closes over.  `finished` lists the
      black nodes in the order in which they turned black. */
  class Search {
    const adj: Graph
    var color: map<string, Color>
    var diagnostics: seq<BackRoute>
    ghost var finished: seq<string>

    constructor (adj: Graph)
      ensures this.adj == adj && Valid([])
      ensures diagnostics == [] && Whites() == adj.Keys && Grays() == {}
    {
      this.adj := adj;
      color := map n | n in adj :: White;
      diagnostics, finished := [], [];
    }

    ghost function Whites(): set<string>
      reads this
    {
      set n | n in color && color[n] == White
    }

    ghost function Grays(): set<string>
      reads this
    {
      set n | n in color && color[n] == Gray
    }

    /** `stack` holds the gray nodes that `dfs` is still working on.  Other gray
        nodes were left behind by a search that stopped early: they reach a cycle, and
        one of them has been reported for it. */
    ghost predicate Valid(stack: seq<string>)
      reads this
    {
      && color.Keys == adj.Keys
      && (forall n :: n in Grays() ==> n in stack || (ReachesCycle(adj, n) && Told(adj, diagnostics, n)))
      && (forall n :: n in stack ==> n in Grays()) && Distinct(stack)
      && (forall n :: n in finished <==> n in color && color[n] == Black)
      && DepsFirst(adj, finished)
      && (forall d :: d in diagnostics ==> OnTheWay(adj, d) && d.node in Grays() && d.node !in stack)
      && OncePerNode(diagnostics)
    }

    /** color.set(n, GRAY) */
    method Enter(n: string, ghost stack: seq<string>)
      requires Valid(stack) && n in Whites()
      modifies this
      ensures Valid(stack + [n])
      ensures Whites() == old(Whites()) - {n} && Grays() == old(Grays()) + {n}
      ensures finished == old(finished) && diagnostics == old(diagnostics)
    {
      hide ReachesCycle, DepsFirst, Told, OnTheWay, OncePerNode, Distinct;
      Stacked(stack, n);
      color := color[n := Gray];
    }

    /** color.set(n, BLACK) */
    method Leave(n: string, ghost stack: seq<string>)
      requires Valid(stack + [n]) && n in Grays()
      requires forall m :: Edge(adj, n, m) && m in adj ==> m in finished
      modifies this
      ensures Valid(stack) && color[n] == Black
      ensures Whites() == old(Whites()) && Grays() == old(Grays()) - {n}
      ensures finished == old(finished) + [n] && diagnostics == old(diagnostics)
    {
      hide ReachesCycle, DepsFirst, Edge, Told, OnTheWay, OncePerNode, Distinct;
      Unstack(stack, n);
      AddLast(adj, finished, n);
      color := color[n := Black];
      finished := finished + [n];
    }

    /** diagnostics.push of CYCLE_DETECTED */
    method Report(n: string, target: string, ghost stack: seq<string>)
      requires Valid(stack + [n]) && Path(adj, stack + [n])
      requires Edge(adj, n, target) && target in Grays()
      modifies this`diagnostics
      ensures Valid(stack) && ReachesCycle(adj, n) && Told(adj, diagnostics, n)
      ensures diagnostics == old(diagnostics) + [BackRoute(n, target)]
    {
      hide ReachesCycle, DepsFirst, Path, Told, OnTheWay, OncePerNode, Distinct, Edge;
      if target in stack + [n] {
        BackEdge(adj, stack + [n], target);
      } else {
        EdgeThenReachesCycle(adj, n, target);
      }
      Unstack(stack, n);
      OneMoreRoute(adj, diagnostics, BackRoute(n, target));
      diagnostics := diagnostics + [BackRoute(n, target)];
    }

    /** A search that stops leaves its gray nodes as they are. */
    lemma Abandon(n: string, stack: seq<string>)
      requires Valid(stack + [n]) && ReachesCycle(adj, n) && Told(adj, diagnostics, n)
      ensures Valid(stack)
    {
      hide ReachesCycle, DepsFirst, Told, OnTheWay, OncePerNode, Distinct;
      Unstack(stack, n);
    }

    lemma TellOn(n: string, m: string)
      requires Edge(adj, n, m) && Told(adj, diagnostics, m)
      ensures Told(adj, diagnostics, n)
    {
      hide Reaches;
      var d :| d in diagnostics && Reaches(adj, m, d.node);
      EdgeThenReaches(adj, n, m, d.node);
    }

    lemma Colored(stack: seq<string>, n: string)
      requires Valid(stack) && n !in Whites() && n !in Grays()
      ensures n in adj ==> n in finished
    {
    }

    /** When no white node is left, the diagnostics decide. */
    lemma Verdict()
      requires Valid([]) && Whites() == {} && (diagnostics == [] ==> Grays() == {})
      ensures diagnostics != [] <==> Cyclic(adj)
      ensures forall n :: ReachesCycle(adj, n) ==> Told(adj, diagnostics, n)
    {
      hide Cyclic, ReachesCycle, Told;
      forall n | ReachesCycle(adj, n)
        ensures Told(adj, diagnostics, n)
      {
        ReacherIsKey(adj, n);
        if n !in Grays() {
          Colored([], n);
          OrderedReachesNoCycle(adj, finished, n);
        }
      }
      if diagnostics != [] {
        assert diagnostics[0] in diagnostics;
        CyclicIfReached(adj, diagnostics[0].node);
      } else {
        forall n | n in adj
          ensures n in finished
        {
          Colored([], n);
        }
        OrderedIsAcyclic(adj, finished);
      }
    }

    /** True if the search stopped at a route that leads back.  Then a cycle can be
        reached; otherwise the node and all it reaches are done with. */
    method Dfs(nodeId: string, ghost stack: seq<string>) returns (found: bool)
      requires Valid(stack) && nodeId in Whites() && Path(adj, stack + [nodeId])
      modifies this
      ensures Valid(stack) && Whites() <= old(Whites()) - {nodeId}
      ensures forall n :: n in old(finished) ==> n in finished
      ensures found ==> ReachesCycle(adj, nodeId) && Told(adj, diagnostics, nodeId) && diagnostics != []
      ensures !found ==> nodeId in finished && diagnostics == old(diagnostics) && Grays() == old(Grays())
      decreases Whites()
    {
      hide ReachesCycle, Path, Next, Valid, Told;
      ghost var path := stack + [nodeId];
      Enter(nodeId, stack);
      var neighbors := Next(adj, nodeId);
      var i := 0;
      while i < |neighbors|
        invariant i <= |neighbors|
        invariant Valid(path) && Whites() <= old(Whites()) - {nodeId}
        invariant diagnostics == old(diagnostics) && Grays() == old(Grays()) + {nodeId}
        invariant forall n :: n in old(finished) ==> n in finished
        invariant forall k :: 0 <= k < i && neighbors[k] in adj ==> neighbors[k] in finished
      {
        var neighbor := neighbors[i];
        if neighbor in color && color[neighbor] == Gray {
          Report(nodeId, neighbor, stack);
          return true;
        }
        if neighbor in color && color[neighbor] == White {
          ExtendPath(adj, path, neighbor);
          var stop := Dfs(neighbor, path);
          if stop {
            EdgeThenReachesCycle(adj, nodeId, neighbor);
            TellOn(nodeId, neighbor);
            Abandon(nodeId, stack);
            return true;
          }
        }
        Colored(path, neighbor);
        i := i + 1;
      }
      Leave(nodeId, stack);
      found := false;
    }
  }

  lemma Stacked(stack: seq<string>, n: string)
    requires Distinct(stack) && n !in stack
    ensures Distinct(stack + [n])
    ensures forall m :: m in stack + [n] <==> m in stack || m == n
  {
  }

  lemma OneMoreRoute(g: Graph, ds: seq<BackRoute>, d: BackRoute)
    requires OncePerNode(ds) && forall e :: e in ds ==> e.node != d.node
    requires Edge(g, d.node, d.target) && ReachesCycle(g, d.node) && ReachesCycle(g, d.target)
    ensures OncePerNode(ds + [d]) && OnTheWay(g, d) && Told(g, ds + [d], d.node)
    ensures forall n :: Told(g, ds, n) ==> Told(g, ds + [d], n)
    ensures forall e :: e in ds + [d] <==> e in ds || e == d
  {
    hide ReachesCycle, Edge;
    ReachesSelf(g, d.node);
    assert d in ds + [d];
    hide Reaches;
    forall n | Told(g, ds, n)
      ensures Told(g, ds + [d], n)
    {
      var e :| e in ds && Reaches(g, n, e.node);
      assert e in ds + [d];
    }
  }

  lemma Unstack(stack: seq<string>, n: string)
    requires Distinct(stack + [n])
    ensures Distinct(stack) && n !in stack
    ensures forall m :: m in stack + [n] <==> m in stack || m == n
  {
    forall i, k | 0 <= i < k < |stack|
      ensures stack[i] != stack[k]
    {
      assert (stack + [n])[i] != (stack + [n])[k];
    }
    forall i | 0 <= i < |stack|
      ensures stack[i] != n
    {
      assert (stack + [n])[i] != (stack + [n])[|stack|];
    }
  }

  lemma ReacherIsKey(g: Graph, n: string)
    requires ReachesCycle(g, n)
    ensures n in g
  {
    var p :| Cycle(g, p) && Reaches(g, n, p[0]);
    var q :| PathFromTo(g, q, n, p[0]);
    assert Edge(g, p[0], p[1]);
    if |q| > 1 {
      assert Edge(g, q[0], q[1]);
    }
  }

  /** A diagnostic is reported exactly if the routes contain a cycle.  Each names a
      route between tasks from which a cycle can be reached, no task is named twice, and
      every task that reaches a cycle reaches a named one. */
  method DetectCycles(tasks: seq<TaskDefinition>) returns (diagnostics: seq<BackRoute>)
    ensures diagnostics != [] <==> Cyclic(Adjacency(tasks))
    ensures forall d :: d in diagnostics ==> OnTheWay(Adjacency(tasks), d)
    ensures OncePerNode(diagnostics)
    ensures forall n :: ReachesCycle(Adjacency(tasks), n) ==> Told(Adjacency(tasks), diagnostics, n)
  {
    hide Adjacency, ReachesCycle, DepsFirst, Path, Cyclic, Told, OnTheWay, OncePerNode;
    var adj := BuildAdjacency(tasks);
    var search := new Search(adj);
    var i := 0;
    while i < |tasks|
      invariant i <= |tasks|
      invariant search.adj == adj && search.Valid([])
      invariant search.diagnostics == [] ==> search.Grays() == {}
      invariant forall k :: 0 <= k < i ==> tasks[k].id !in search.Whites()
      invariant fresh(search)
    {
      var n := tasks[i].id;
      assert n in TaskIds(tasks);
      if search.color[n] == White {
        OneNodePath(adj, n);
        assert [] + [n] == [n];
        var _ := search.Dfs(n, []);
      }
      i := i + 1;
    }
    diagnostics := search.diagnostics;
    forall n | n in adj
      ensures n !in search.Whites()
    {
      var t :| t in tasks && t.id == n;
    }
    assert search.Whites() == {};
    search.Verdict();
  }

  /** Where a search may go. */
  ghost function Universe(g: Graph, entry: string): set<string> {
    {entry} + set n, m | n in g && m in g[n] :: m
  }

  lemma UniverseIsClosed(g: Graph, entry: string)
    ensures entry in Universe(g, entry)
    ensures forall n, i :: 0 <= i < |Next(g, n)| ==> Next(g, n)[i] in Universe(g, entry)
  {
    forall n, i | 0 <= i < |Next(g, n)|
      ensures Next(g, n)[i] in Universe(g, entry)
    {
      assert n in g && Next(g, n)[i] in g[n];
    }
  }

  /** Pushes the neighbors that have not been visited. */
  method PushNew(stack: seq<string>, neighbors: seq<string>, visited: set<string>) returns (pushed: seq<string>)
    ensures forall n :: n in stack ==> n in pushed
    ensures forall n :: n in neighbors ==> n in visited || n in pushed
    ensures forall n :: n in pushed ==> n in stack || n in neighbors
  {
    pushed := stack;
    var i := 0;
    while i < |neighbors|
      invariant i <= |neighbors|
      invariant forall n :: n in stack ==> n in pushed
      invariant forall n :: n in neighbors[..i] ==> n in visited || n in pushed
      invariant forall n :: n in pushed ==> n in stack || n in neighbors
    {
      if neighbors[i] !in visited {
        pushed := pushed + [neighbors[i]];
      }
      i := i + 1;
    }
  }

  /** Exactly the IDs that can be reached along routes. */
  method FindReachable(entryId: string, tasks: seq<TaskDefinition>) returns (visited: set<string>)
    ensures forall n :: n in visited <==> Reaches(Adjacency(tasks), entryId, n)
  {
    hide Adjacency, Reaches, Universe, Next;
    var adj := BuildAdjacency(tasks);
    ghost var all := Universe(adj, entryId);
    UniverseIsClosed(adj, entryId);
    visited := {};
    var stack := [entryId];
    ReachesSelf(adj, entryId);
    while stack != []
      invariant forall n :: n in visited || n in stack ==> n in all && Reaches(adj, entryId, n)
      invariant entryId in visited || entryId in stack
      invariant forall n, m :: n in visited && Edge(adj, n, m) ==> m in visited || m in stack
      decreases |all - visited|, |stack|
    {
      var current := stack[|stack| - 1];
      ghost var was := stack;
      stack := stack[..|stack| - 1];
      assert forall n :: n in was ==> n == current || n in stack;
      if current !in visited {
        assert all - (visited + {current}) == (all - visited) - {current};
        visited := visited + {current};
        forall m | m in Next(adj, current)
          ensures m in all && Reaches(adj, entryId, m)
        {
          ReachesThenEdge(adj, entryId, current, m);
        }
        stack := PushNew(stack, Next(adj, current), visited);
      }
    }
    forall n | Reaches(adj, entryId, n)
      ensures n in visited
    {
      ClosedUnderReach(adj, visited, entryId, n);
    }
  }
}
