/** The plugin registry's dependency sort. */
module PluginDag {
  import opened Wrappers
  import opened Graphs

  /** A missing `dependsOn` or `conflicts` is the empty list. */
  datatype PluginDefinition = PluginDefinition(id: string, dependsOn: seq<string>, conflicts: seq<string>)

  type Plugins = map<string, PluginDefinition>

  /** What resolveOrder throws. */
  datatype ExecutionError =
    | Circular(node: string)
    | Missing(dep: string, requiredBy: string)
    | Conflict(node: string, other: string)

  ghost predicate OnCycle(g: Graph, n: string) {
    exists p :: Cycle(g, p) && p[0] == n
  }

  ghost predicate DepsLoaded(g: Graph, ps: Plugins, n: string) {
    forall d :: d in Next(g, n) ==> d in ps
  }

  ghost predicate Peaceful(ps: Plugins, n: string)
    requires n in ps
  {
    forall c :: c in ps[n].conflicts ==> c !in ps
  }

  /** The error names something that is wrong. */
  ghost predicate Blames(g: Graph, ps: Plugins, e: ExecutionError) {
    match e
    case Circular(n) => n in ps && OnCycle(g, n)
    case Missing(d, n) => n in ps && d in Next(g, n) && d !in ps
    case Conflict(n, c) => n in ps && c in ps[n].conflicts && c in ps
  }

  /** Nothing is wrong. */
  ghost predicate Resolvable(g: Graph, ps: Plugins) {
    && (forall n :: n in ps ==> DepsLoaded(g, ps, n) && Peaceful(ps, n))
    && !Cyclic(g)
  }

  lemma BlameMeansUnresolvable(g: Graph, ps: Plugins, e: ExecutionError)
    requires Blames(g, ps, e)
    ensures !Resolvable(g, ps)
  {
    hide Cycle;
    if e.Missing? {
      assert !DepsLoaded(g, ps, e.requiredBy);
    } else if e.Conflict? {
      assert !Peaceful(ps, e.node);
    }
  }

  // ----- whose turn it is -----

  /** `b` is needed by one of the first `n` roots. */
  ghost predicate PulledBy(g: Graph, roots: seq<string>, n: nat, b: string)
    requires n <= |roots|
  {
    exists y :: 0 <= y < n && Reaches(g, roots[y], b)
  }

  /** The roots take turns: from `start` on, nothing is listed before a root that
      neither it nor an earlier root needs. */
  ghost predicate InTurn(g: Graph, roots: seq<string>, n: nat, ids: seq<string>, start: nat)
    requires n <= |roots| && start <= |ids|
  {
    && (forall i :: start <= i < |ids| ==> PulledBy(g, roots, n, ids[i]))
    && forall x, k, i :: 0 <= x < n && start <= i <= k < |ids| && ids[k] == roots[x] ==>
                           PulledBy(g, roots, x + 1, ids[i])
  }

  /** The entry at `k` ends a stretch of what it needs, in which its dependencies took
      turns. */
  ghost predicate VisitedAt(g: Graph, ids: seq<string>, k: nat)
    requires k < |ids|
  {
    exists start: nat :: start <= k && Stretch(g, ids, start, k)
  }

  ghost predicate Stretch(g: Graph, ids: seq<string>, start: nat, k: nat)
    requires start <= k < |ids|
  {
    && (forall i :: start <= i <= k ==> Reaches(g, ids[k], ids[i]))
    && InTurn(g, Next(g, ids[k]), |Next(g, ids[k])|, ids[..k], start)
  }

  ghost predicate AllVisited(g: Graph, ids: seq<string>) {
    forall k :: 0 <= k < |ids| ==> VisitedAt(g, ids, k)
  }

  lemma PulledLater(g: Graph, roots: seq<string>, n: nat, m: nat, b: string)
    requires n <= m <= |roots| && PulledBy(g, roots, n, b)
    ensures PulledBy(g, roots, m, b)
  {
  }

  /** One more root has had its turn. */
  lemma NextTurn(g: Graph, roots: seq<string>, n: nat, ids: seq<string>, start: nat, more: seq<string>)
    requires n < |roots| && start <= |ids| && InTurn(g, roots, n, ids, start)
    requires ids <= more && Distinct(more) && forall x :: 0 <= x < n ==> roots[x] in ids
    requires forall k :: |ids| <= k < |more| ==> Reaches(g, roots[n], more[k])
    ensures InTurn(g, roots, n + 1, more, start)
  {
    hide Reaches, PulledBy;
    forall i | start <= i < |more|
      ensures PulledBy(g, roots, n + 1, more[i])
    {
      if i < |ids| {
        PulledLater(g, roots, n, n + 1, ids[i]);
      } else {
        PulledLast(g, roots, n, more[i]);
      }
    }
    forall x, k, i | 0 <= x < n && start <= i <= k < |more| && more[k] == roots[x]
      ensures PulledBy(g, roots, x + 1, more[i])
    {
      var m :| 0 <= m < |ids| && ids[m] == roots[x];
      assert more[m] == more[k];
    }
  }

  lemma PulledLast(g: Graph, roots: seq<string>, n: nat, b: string)
    requires n < |roots| && Reaches(g, roots[n], b)
    ensures PulledBy(g, roots, n + 1, b)
  {
  }

  lemma NoTurnYet(g: Graph, roots: seq<string>, ids: seq<string>)
    ensures InTurn(g, roots, 0, ids, |ids|)
  {
  }

  /** A node follows its stretch. */
  lemma EndsStretch(g: Graph, ids: seq<string>, start: nat, n: string)
    requires AllVisited(g, ids) && start <= |ids| && InTurn(g, Next(g, n), |Next(g, n)|, ids, start)
    ensures AllVisited(g, ids + [n])
    ensures forall i :: start <= i <= |ids| ==> Reaches(g, n, (ids + [n])[i])
  {
    hide Reaches, Next;
    var more := ids + [n];
    forall i | start <= i < |ids|
      ensures Reaches(g, n, ids[i])
    {
      ReachesThroughDep(g, n, ids[i]);
    }
    ReachesSelf(g, n);
    forall k | 0 <= k < |more|
      ensures VisitedAt(g, more, k)
    {
      if k < |ids| {
        assert VisitedAt(g, ids, k);
        StaysVisited(g, ids, n, k);
      } else {
        assert more[..k] == ids;
        assert Stretch(g, more, start, k);
      }
    }
  }

  lemma StaysVisited(g: Graph, ids: seq<string>, n: string, k: nat)
    requires k < |ids| && VisitedAt(g, ids, k)
    ensures VisitedAt(g, ids + [n], k)
  {
    hide Reaches, InTurn;
    var more := ids + [n];
    var start: nat :| start <= k && Stretch(g, ids, start, k);
    assert more[..k] == ids[..k] && forall i :: 0 <= i <= k ==> more[i] == ids[i];
    assert Stretch(g, more, start, k);
  }

  lemma ReachesThroughDep(g: Graph, n: string, b: string)
    requires PulledBy(g, Next(g, n), |Next(g, n)|, b)
    ensures Reaches(g, n, b)
  {
    hide Reaches;
    var y :| 0 <= y < |Next(g, n)| && Reaches(g, Next(g, n)[y], b);
    EdgeThenReaches(g, n, Next(g, n)[y], b);
  }

  /** The variables that the recursive `visit` closes over.  `ids` are the IDs of
      `order`. */
  class Resolution {
    const adj: Graph
    const plugins: Plugins
    var visited: set<string>
    var inProgress: set<string>
    var order: seq<PluginDefinition>
    ghost var ids: seq<string>

    constructor (adj: Graph, plugins: Plugins)
      requires adj.Keys == plugins.Keys
      ensures this.adj == adj && this.plugins == plugins && Valid([])
      ensures visited == {} && order == [] && ids == []
    {
      this.adj, this.plugins := adj, plugins;
      visited, inProgress, order, ids := {}, {}, [], [];
    }

    ghost predicate Valid(stack: seq<string>)
      reads this
    {
      && adj.Keys == plugins.Keys
      && (forall n :: n in inProgress <==> n in stack)
      && inProgress <= plugins.Keys && visited !! inProgress
      && (forall n :: n in visited <==> n in ids)
      && Listed(adj, plugins, ids, order) && AllVisited(adj, ids)
    }

    /** inProgress.add */
    method Enter(n: string, ghost stack: seq<string>)
      requires Valid(stack) && n in plugins && n !in inProgress && n !in visited
      modifies this`inProgress
      ensures Valid(stack + [n]) && inProgress == old(inProgress) + {n}
    {
      hide Listed, AllVisited;
      inProgress := inProgress + {n};
    }

    /** inProgress.delete, visited.add, order.push */
    method Leave(n: string, ghost stack: seq<string>, ghost start: nat)
      requires Valid(stack + [n]) && n !in stack && n in plugins && Peaceful(plugins, n)
      requires start <= |ids| && InTurn(adj, Next(adj, n), |Next(adj, n)|, ids, start)
      requires forall d :: d in Next(adj, n) ==> d in plugins && d in visited
      modifies this
      ensures Valid(stack) && n in visited && old(visited) <= visited && inProgress == old(inProgress) - {n}
      ensures ids == old(ids) + [n] && forall i :: start <= i < |ids| ==> Reaches(adj, n, ids[i])
    {
      EndsStretch(adj, ids, start, n);
      hide AllVisited, InTurn, Reaches;
      Append(adj, plugins, ids, order, n);
      hide Listed;
      inProgress := inProgress - {n};
      visited := visited + {n};
      order, ids := order + [plugins[n]], ids + [n];
    }

    method CheckConflicts(n: string) returns (thrown: Option<ExecutionError>)
      requires n in plugins
      ensures thrown.None? <==> Peaceful(plugins, n)
      ensures thrown.Some? ==> Blames(adj, plugins, thrown.value)
    {
      var conflicts := plugins[n].conflicts;
      var i := 0;
      while i < |conflicts|
        invariant i <= |conflicts|
        invariant forall k :: 0 <= k < i ==> conflicts[k] !in plugins
      {
        if conflicts[i] in plugins {
          return Some(Conflict(n, conflicts[i]));
        }
        i := i + 1;
      }
      thrown := None;
    }

    /** `thrown` is the exception, if any; `stack` the nodes in progress. */
    method Visit(nodeId: string, ghost stack: seq<string>) returns (thrown: Option<ExecutionError>)
      requires Valid(stack) && nodeId in plugins && Path(adj, stack + [nodeId])
      modifies this
      ensures thrown.Some? ==> Blames(adj, plugins, thrown.value)
      ensures thrown.None? ==> Valid(stack) && nodeId in visited && old(visited) <= visited
      ensures thrown.None? ==> inProgress == old(inProgress)
      ensures thrown.None? ==> old(ids) <= ids && forall k :: |old(ids)| <= k < |ids| ==> Reaches(adj, nodeId, ids[k])
      decreases plugins.Keys - inProgress
    {
      hide Valid, Path, Next, Peaceful, Blames, Reaches, InTurn;
      if nodeId in inProgress {
        ClosesCycle(nodeId, stack);
        return Some(Circular(nodeId));
      }
      if nodeId in visited {
        return None;
      }
      NotOnStack(nodeId, stack);
      Enter(nodeId, stack);
      ghost var path := stack + [nodeId];
      var deps := Next(adj, nodeId);
      ghost var start := |ids|;
      NoTurnYet(adj, deps, ids);
      var i := 0;
      while i < |deps|
        invariant i <= |deps| && old(ids) <= ids && start == |old(ids)|
        invariant InTurn(adj, deps, i, ids, start)
        invariant Valid(path) && inProgress == old(inProgress) + {nodeId} && old(visited) <= visited
        invariant forall k :: 0 <= k < i ==> deps[k] in plugins && deps[k] in visited
      {
        var dep := deps[i];
        if dep !in plugins {
          MissingBlames(dep, nodeId);
          return Some(Missing(dep, nodeId));
        }
        ExtendPath(adj, path, dep);
        ghost var before := ids;
        VisitedIds(path);
        thrown := Visit(dep, path);
        if thrown.Some? {
          return;
        }
        VisitedIds(path);
        NextTurn(adj, deps, i, before, start, ids);
        i := i + 1;
      }
      thrown := CheckConflicts(nodeId);
      if thrown.Some? {
        return;
      }
      Leave(nodeId, stack, start);
    }

    lemma VisitedIds(stack: seq<string>)
      requires Valid(stack)
      ensures Distinct(ids) && forall n :: n in visited ==> n in ids
    {
    }

    lemma ClosesCycle(n: string, stack: seq<string>)
      requires Valid(stack) && n in inProgress && Path(adj, stack + [n])
      ensures Blames(adj, plugins, Circular(n))
    {
      var p := stack + [n];
      var i :| 0 <= i < |stack| && stack[i] == n;
      assert Cycle(adj, p[i..]);
    }

    lemma MissingBlames(dep: string, n: string)
      requires n in plugins && dep in Next(adj, n) && dep !in plugins
      ensures Blames(adj, plugins, Missing(dep, n))
    {
    }

    lemma NotOnStack(n: string, stack: seq<string>)
      requires Valid(stack) && n !in inProgress
      ensures n !in stack
    {
    }
  }

  /** The order so far: distinct loaded plugins, dependencies first, no conflicts. */
  ghost predicate Listed(g: Graph, ps: Plugins, ids: seq<string>, order: seq<PluginDefinition>) {
    && |ids| == |order| && Distinct(ids) && DepsFirst(g, ids)
    && forall i :: 0 <= i < |ids| ==>
                     ids[i] in ps && order[i] == ps[ids[i]] && DepsLoaded(g, ps, ids[i]) && Peaceful(ps, ids[i])
  }

  lemma Append(g: Graph, ps: Plugins, ids: seq<string>, order: seq<PluginDefinition>, n: string)
    requires Listed(g, ps, ids, order) && n in ps && n !in ids && Peaceful(ps, n)
    requires forall d :: d in Next(g, n) ==> d in ps && d in ids
    ensures Listed(g, ps, ids + [n], order + [ps[n]])
  {
    hide Peaceful;
    AddLast(g, ids, n);
  }

  /** `loaded` is the insertion order of the Map `plugins`. */
  class PluginDAG {
    var adjacencyList: Graph
    var plugins: Plugins
    var loaded: seq<string>

    ghost predicate Valid()
      reads this
    {
      && adjacencyList.Keys == plugins.Keys
      && (forall n :: n in plugins ==> plugins[n].id == n)
      && (forall n :: n in loaded <==> n in plugins)
      && Distinct(loaded)
    }

    constructor ()
      ensures Valid() && plugins == map[] && adjacencyList == map[]
    {
      adjacencyList, plugins, loaded := map[], map[], [];
    }

    /** Adding a plugin again replaces it but keeps the dependencies it had. */
    method AddNode(plugin: PluginDefinition)
      requires Valid()
      modifies this
      ensures Valid() && plugins == old(plugins)[plugin.id := plugin]
      ensures adjacencyList ==
              old(adjacencyList)[plugin.id := Next(old(adjacencyList), plugin.id) + plugin.dependsOn]
      ensures loaded == if plugin.id in old(plugins) then old(loaded) else old(loaded) + [plugin.id]
    {
      if plugin.id !in plugins {
        loaded := loaded + [plugin.id];
      }
      plugins := plugins[plugin.id := plugin];
      if plugin.id !in adjacencyList {
        adjacencyList := adjacencyList[plugin.id := []];
      }
      ghost var before := Next(old(adjacencyList), plugin.id);
      assert adjacencyList == old(adjacencyList)[plugin.id := before];
      assert before + plugin.dependsOn[..0] == before;
      var i := 0;
      while i < |plugin.dependsOn|
        invariant i <= |plugin.dependsOn|
        invariant plugins == old(plugins)[plugin.id := plugin]
        invariant loaded == if plugin.id in old(plugins) then old(loaded) else old(loaded) + [plugin.id]
        invariant adjacencyList == old(adjacencyList)[plugin.id := before + plugin.dependsOn[..i]]
      {
        assert before + plugin.dependsOn[..i] + [plugin.dependsOn[i]] == before + plugin.dependsOn[..i + 1];
        adjacencyList := adjacencyList[plugin.id := adjacencyList[plugin.id] + [plugin.dependsOn[i]]];
        i := i + 1;
      }
      assert plugin.dependsOn[..i] == plugin.dependsOn;
    }

    /** Returns normally exactly if nothing is wrong, and then lists every loaded
        plugin once, after all its dependencies. */
    method ResolveOrder() returns (r: Result<seq<PluginDefinition>, ExecutionError>)
      requires Valid()
      ensures r.Ok? <==> Resolvable(adjacencyList, plugins)
      ensures r.Ok? ==> Sorted(adjacencyList, plugins, r.value)
      ensures r.Ok? ==> InLoadOrder(adjacencyList, loaded, IdsOf(r.value))
      ensures r.Err? ==> Blames(adjacencyList, plugins, r.error)
    {
      hide Cyclic, Blames, Path, Sorted, Resolvable, Listed, Next, Reaches, InTurn, AllVisited;
      var resolution := new Resolution(adjacencyList, plugins);
      NoTurnYet(adjacencyList, loaded, resolution.ids);
      var i := 0;
      while i < |loaded|
        invariant i <= |loaded|
        invariant resolution.adj == adjacencyList && resolution.plugins == plugins
        invariant resolution.Valid([]) && resolution.inProgress == {}
        invariant forall k :: 0 <= k < i ==> loaded[k] in resolution.visited
        invariant InTurn(adjacencyList, loaded, i, resolution.ids, 0)
        invariant fresh(resolution)
      {
        var nodeId := loaded[i];
        ghost var before := resolution.ids;
        resolution.VisitedIds([]);
        if nodeId !in resolution.visited {
          OneNodePath(adjacencyList, nodeId);
          assert [] + [nodeId] == [nodeId];
          var thrown := resolution.Visit(nodeId, []);
          if thrown.Some? {
            BlameMeansUnresolvable(adjacencyList, plugins, thrown.value);
            return Err(thrown.value);
          }
        }
        resolution.VisitedIds([]);
        NextTurn(adjacencyList, loaded, i, before, 0, resolution.ids);
        i := i + 1;
      }
      AllListed(adjacencyList, plugins, resolution.ids, resolution.order);
      SameIds(adjacencyList, plugins, resolution.ids, resolution.order);
      r := Ok(resolution.order);
    }
  }

  function IdsOf(order: seq<PluginDefinition>): (ids: seq<string>)
    ensures |ids| == |order| && forall i :: 0 <= i < |ids| ==> ids[i] == order[i].id
  {
    if order == [] then [] else IdsOf(order[..|order| - 1]) + [order[|order| - 1].id]
  }

  /** Plugins take turns in the order they were loaded, and the dependencies of each in
      the order it names them: nothing is listed earlier than need be. */
  ghost predicate InLoadOrder(g: Graph, loaded: seq<string>, ids: seq<string>) {
    InTurn(g, loaded, |loaded|, ids, 0) && AllVisited(g, ids)
  }

  lemma SameIds(g: Graph, ps: Plugins, ids: seq<string>, order: seq<PluginDefinition>)
    requires Listed(g, ps, ids, order)
    requires forall n :: n in ps ==> ps[n].id == n
    ensures IdsOf(order) == ids
  {
  }

  /** Every loaded plugin once, and each after all that it depends on. */
  ghost predicate Sorted(g: Graph, ps: Plugins, order: seq<PluginDefinition>) {
    && (forall i, k :: 0 <= i < k < |order| ==> order[i].id != order[k].id)
    && (forall p :: p in order <==> p.id in ps && ps[p.id] == p)
    && forall i, d :: 0 <= i < |order| && Edge(g, order[i].id, d) ==>
                        exists k :: 0 <= k < i && order[k].id == d
  }

  lemma AllListed(g: Graph, ps: Plugins, ids: seq<string>, order: seq<PluginDefinition>)
    requires g.Keys == ps.Keys && Listed(g, ps, ids, order)
    requires forall n :: n in ps ==> n in ids
    requires forall n :: n in ps ==> ps[n].id == n
    ensures Resolvable(g, ps) && Sorted(g, ps, order)
  {
    hide Peaceful, Cyclic;
    assert forall i :: 0 <= i < |ids| ==> ids[i] in ids && order[i].id == ids[i];
    OrderedIsAcyclic(g, ids);
    forall i, d | 0 <= i < |order| && Edge(g, order[i].id, d)
      ensures exists k :: 0 <= k < i && order[k].id == d
    {
      assert d in ids[..i];
      var k :| 0 <= k < i && ids[..i][k] == d;
      assert order[k].id == d;
    }
    forall p: PluginDefinition | p.id in ps && ps[p.id] == p
      ensures p in order
    {
      var i :| 0 <= i < |ids| && ids[i] == p.id;
    }
  }
}
