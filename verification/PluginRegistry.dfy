/** Dependency graphs and cycles. */
module DependencyGraph {
  import opened Prelude

  type Name = string

  /** Each registered plugin with the names it depends on. */
  type Graph = map<Name, seq<Name>>

  function Deps(g: Graph, name: Name): seq<Name> {
    if name in g then g[name] else []
  }

  ghost predicate IsPath(g: Graph, p: seq<Name>) {
    forall i :: 0 <= i < |p| - 1 ==> p[i + 1] in Deps(g, p[i])
  }

  /** There is a dependency chain of at least one step from a to b. */
  ghost predicate Reaches(g: Graph, a: Name, b: Name) {
    exists p :: IsPath(g, p) && |p| >= 2 && p[0] == a && p[|p| - 1] == b
  }

  ghost predicate Acyclic(g: Graph) {
    forall a :: !Reaches(g, a, a)
  }

  lemma ReachesDirectly(g: Graph, a: Name, b: Name)
    requires b in Deps(g, a)
    ensures Reaches(g, a, b)
  {
    assert IsPath(g, [a, b]);
  }

  lemma ReachesOneMore(g: Graph, a: Name, b: Name, c: Name)
    requires Reaches(g, a, b) && c in Deps(g, b)
    ensures Reaches(g, a, c)
  {
    var p :| IsPath(g, p) && |p| >= 2 && p[0] == a && p[|p| - 1] == b;
    assert IsPath(g, p + [c]);
  }

  lemma ReachesFirst(g: Graph, a: Name, b: Name, c: Name)
    requires b in Deps(g, a) && Reaches(g, b, c)
    ensures Reaches(g, a, c)
  {
    var p :| IsPath(g, p) && |p| >= 2 && p[0] == b && p[|p| - 1] == c;
    assert IsPath(g, [a] + p);
  }

  lemma ReachesTransitive(g: Graph, a: Name, b: Name, c: Name)
    requires Reaches(g, a, b) && Reaches(g, b, c)
    ensures Reaches(g, a, c)
  {
    var p :| IsPath(g, p) && |p| >= 2 && p[0] == a && p[|p| - 1] == b;
    var q :| IsPath(g, q) && |q| >= 2 && q[0] == b && q[|q| - 1] == c;
    assert IsPath(g, p + q[1..]);
  }

  /** Every dependency of one graph is one of the other. */
  ghost predicate Within(g: Graph, h: Graph) {
    forall n, d :: d in Deps(g, n) ==> d in Deps(h, n)
  }

  lemma ReachesWithin(g: Graph, h: Graph, a: Name, b: Name)
    requires Within(g, h) && Reaches(g, a, b)
    ensures Reaches(h, a, b)
  {
    var p :| IsPath(g, p) && |p| >= 2 && p[0] == a && p[|p| - 1] == b;
    assert IsPath(h, p);
  }

  lemma RemovingKeepsAcyclic(g: Graph, name: Name)
    requires Acyclic(g)
    ensures Acyclic(g - {name})
  {
    forall a | Reaches(g - {name}, a, a)
      ensures false
    {
      ReachesWithin(g - {name}, g, a, a);
    }
  }

  /** A path that ends at a new name reached it through the old graph. */
  lemma {:induction false} PathToNew(g: Graph, name: Name, deps: seq<Name>, q: seq<Name>)
    requires q != [] && IsPath(g[name := deps], q) && q[|q| - 1] == name
    ensures q[0] == name || Reaches(g, q[0], name)
    decreases |q|
  {
    if q[0] != name {
      assert q[1] in Deps(g[name := deps], q[0]);
      TailIsPath(g[name := deps], q);
      PathToNew(g, name, deps, q[1..]);
      if q[1] == name {
        ReachesDirectly(g, q[0], name);
      } else {
        ReachesFirst(g, q[0], q[1], name);
      }
    }
    hide Reaches;
  }

  lemma TailIsPath(g: Graph, q: seq<Name>)
    requires q != [] && IsPath(g, q)
    ensures IsPath(g, q[1..])
  {
    forall i | 0 <= i < |q[1..]| - 1
      ensures q[1..][i + 1] in Deps(g, q[1..][i])
    {
      assert q[i + 2] in Deps(g, q[i + 1]);
    }
  }

  /** A path in the extended graph lies in the old one or passes the new name. */
  lemma {:induction false} OldOrThroughNew(g: Graph, name: Name, deps: seq<Name>, q: seq<Name>)
    requires |q| >= 2 && IsPath(g[name := deps], q)
    ensures var h := g[name := deps];
      || Reaches(g, q[0], q[|q| - 1])
      || ((q[0] == name || Reaches(h, q[0], name)) && Reaches(h, name, q[|q| - 1]))
    decreases |q|
  {
    var h := g[name := deps];
    assert q[1] in Deps(h, q[0]);
    ReachesDirectly(h, q[0], q[1]);
    if q[0] == name {
      assert Reaches(h, name, q[|q| - 1]);
    } else if |q| == 2 {
      ReachesDirectly(g, q[0], q[1]);
    } else {
      TailIsPath(h, q);
      OldOrThroughNew(g, name, deps, q[1..]);
      if Reaches(g, q[1], q[|q| - 1]) {
        ReachesFirst(g, q[0], q[1], q[|q| - 1]);
      } else if q[1] != name {
        ReachesFirst(h, q[0], q[1], name);
      }
    }
    hide Reaches;
  }

  /** A name added to an acyclic graph closes a cycle exactly when it depends on itself or on what reaches it. */
  lemma AddingKeepsAcyclicExactly(g: Graph, name: Name, deps: seq<Name>)
    requires name !in g && Acyclic(g)
    ensures Acyclic(g[name := deps]) <==> forall d :: d in deps ==> d != name && !Reaches(g, d, name)
  {
    var h := g[name := deps];
    if Acyclic(h) {
      forall d | d in deps
        ensures d != name && !Reaches(g, d, name)
      {
        ReachesDirectly(h, name, d);
        if Reaches(g, d, name) {
          ReachesWithin(g, h, d, name);
          ReachesFirst(h, name, d, name);
        }
      }
    }
    if !Acyclic(h) {
      var a :| Reaches(h, a, a);
      var d := CycleThroughNew(g, name, deps, a);
      assert d in deps;
    }
  }

  lemma CycleThroughNew(g: Graph, name: Name, deps: seq<Name>, a: Name) returns (d: Name)
    requires name !in g && Acyclic(g) && Reaches(g[name := deps], a, a)
    ensures d in deps && (d == name || Reaches(g, d, name))
  {
    var h := g[name := deps];
    var p :| IsPath(h, p) && |p| >= 2 && p[0] == a && p[|p| - 1] == a;
    OldOrThroughNew(g, name, deps, p);
    assert !Reaches(g, a, a);
    if a != name {
      ReachesTransitive(h, name, a, name);
    }
    var q :| IsPath(h, q) && |q| >= 2 && q[0] == name && q[|q| - 1] == name;
    d := q[1];
    assert d in Deps(h, q[0]);
    TailIsPath(h, q);
    PathToNew(g, name, deps, q[1..]);
  }

  /** The name itself, or one that its dependency chains reach. */
  ghost predicate Needs(g: Graph, name: Name, n: Name) {
    n == name || Reaches(g, name, n)
  }

  lemma NeedsThrough(g: Graph, name: Name, dep: Name)
    requires dep in Deps(g, name)
    ensures forall n :: Needs(g, dep, n) ==> Needs(g, name, n)
  {
    ReachesDirectly(g, name, dep);
    forall n | Reaches(g, dep, n)
      ensures Reaches(g, name, n)
    {
      ReachesFirst(g, name, dep, n);
    }
  }

  /** part lists exactly what some names need. */
  ghost predicate ListsNeeds(g: Graph, names: seq<Name>, part: seq<Name>) {
    forall n :: n in part <==> exists name :: name in names && Needs(g, name, n)
  }

  /** For every k the list starts with exactly what the first k names need. */
  ghost predicate Staged(g: Graph, names: seq<Name>, order: seq<Name>) {
    forall k :: 0 <= k <= |names| ==> exists cut :: 0 <= cut <= |order| && ListsNeeds(g, names[..k], order[..cut])
  }

  /** Every name in the graph: the registered plugins and everything they depend on. */
  function Universe(g: Graph): set<Name> {
    g.Keys + set name, dep | name in g && dep in g[name] :: dep
  }

  /** Each listed name comes after all its dependencies. */
  predicate Topological(g: Graph, order: seq<Name>) {
    forall i, d :: 0 <= i < |order| && d in Deps(g, order[i]) ==> d in order[..i]
  }

  lemma TopologicalExtend(g: Graph, order: seq<Name>, name: Name)
    requires Topological(g, order) && forall d :: d in Deps(g, name) ==> d in order
    ensures Topological(g, order + [name])
  {
    forall i, d | 0 <= i < |order| + 1 && d in Deps(g, (order + [name])[i])
      ensures d in (order + [name])[..i]
    {
      assert (order + [name])[..i] == order[..i];
      if i == |order| {
        assert order[..i] == order;
      }
    }
  }

  /** Positions strictly decrease along a dependency chain of a topological order. */
  lemma {:induction false} PositionsDecrease(g: Graph, order: seq<Name>, p: seq<Name>, i: nat) returns (j: nat)
    requires Topological(g, order) && IsPath(g, p) && |p| >= 2
    requires i < |order| && order[i] == p[0]
    ensures j < i && order[j] == p[|p| - 1]
    decreases |p|
  {
    assert p[1] in Deps(g, p[0]);
    var k :| 0 <= k < i && order[k] == p[1];
    if |p| == 2 {
      j := k;
    } else {
      forall m | 0 <= m < |p[1..]| - 1
        ensures p[1..][m + 1] in Deps(g, p[1..][m])
      {
        assert p[m + 2] in Deps(g, p[m + 1]);
      }
      j := PositionsDecrease(g, order, p[1..], k);
    }
  }

  /** A repeat-free topological order of the whole graph rules out cycles. */
  lemma TopologicalIsAcyclic(g: Graph, order: seq<Name>)
    requires NoRepeats(order) && Topological(g, order) && forall n :: n in g ==> n in order
    ensures Acyclic(g)
  {
    forall a | Reaches(g, a, a)
      ensures false
    {
      var p :| IsPath(g, p) && |p| >= 2 && p[0] == a && p[|p| - 1] == a;
      assert p[1] in Deps(g, p[0]);
      var i :| 0 <= i < |order| && order[i] == a;
      var j := PositionsDecrease(g, order, p, i);
    }
  }
}

/** Depth-first load order (src/extensibility/plugin-registry.ts, getLoadOrder). */
module LoadOrder {
  import opened DependencyGraph
  import opened Prelude

  /** The two collections that the recursive `visit` closure updates. */
  class Traversal {
    const graph: Graph
    var visited: set<Name>
    var order: seq<Name>

    constructor (graph: Graph)
      ensures this.graph == graph && visited == {} && order == [] && Progress({})
    {
      this.graph, visited, order := graph, {}, [];
    }

    /** Visited names are finished (listed) or still being visited; on an acyclic graph the list is topological. */
    ghost predicate Progress(open: set<Name>)
      reads this
    {
      && visited <= Universe(graph)
      && (forall n :: n in visited <==> n in open || n in order)
      && (forall n :: n in open ==> n !in order)
      && (forall n, d :: n in order && d in Deps(graph, n) ==> d in visited)
      && NoRepeats(order)
      && (Acyclic(graph) ==> Topological(graph, order))
    }

    method Visit(name: Name, ghost open: set<Name>)
      requires name in Universe(graph) && Progress(open)
      requires forall n :: n in open ==> Reaches(graph, n, name)
      modifies this
      ensures Progress(open)
      ensures name in visited && old(visited) <= visited && old(order) <= order
      ensures forall n :: n in order && n !in old(order) ==> Needs(graph, name, n)
      decreases Universe(graph) - visited, 0
    {
      if name in visited {
        return;
      }
      visited := visited + {name};
      VisitDependencies(name, open);
      assert forall n :: n in order ==> n != name;
      if Acyclic(graph) {
        TopologicalExtend(graph, order, name);
      }
      order := order + [name];
    }

    method VisitDependencies(name: Name, ghost open: set<Name>)
      requires name in visited && name !in open && Progress(open + {name})
      requires forall n :: n in open ==> Reaches(graph, n, name)
      modifies this
      ensures Progress(open + {name})
      ensures old(visited) <= visited && old(order) <= order
      ensures forall n :: n in order && n !in old(order) ==> Needs(graph, name, n)
      ensures forall d :: d in Deps(graph, name) ==> d in visited && (Acyclic(graph) ==> d in order)
      decreases Universe(graph) - visited, 1
    {
      var deps := Deps(graph, name);
      for i := 0 to |deps|
        invariant Progress(open + {name})
        invariant old(visited) <= visited && old(order) <= order
        invariant forall n :: n in order && n !in old(order) ==> Needs(graph, name, n)
        invariant forall d :: d in deps[..i] ==> d in visited && (Acyclic(graph) ==> d in order)
      {
        var dep := deps[i];
        assert name in graph && dep in graph[name];
        forall n | n in open + {name}
          ensures Reaches(graph, n, dep)
        {
          if n == name {
            ReachesDirectly(graph, name, dep);
          } else {
            ReachesOneMore(graph, n, name, dep);
          }
        }
        NeedsThrough(graph, name, dep);
        Visit(dep, open + {name});
      }
    }
  }

  /** A list that holds a name and the dependencies of all it holds, holds whatever the name needs. */
  lemma {:induction false} PathIsListed(g: Graph, order: seq<Name>, p: seq<Name>)
    requires forall n, d :: n in order && d in Deps(g, n) ==> d in order
    requires p != [] && IsPath(g, p) && p[0] in order
    ensures p[|p| - 1] in order
    decreases |p|
  {
    if |p| > 1 {
      assert p[1] in Deps(g, p[0]);
      TailIsPath(g, p);
      PathIsListed(g, order, p[1..]);
    }
  }

  lemma NeedsAreListed(g: Graph, order: seq<Name>, name: Name)
    requires forall n, d :: n in order && d in Deps(g, n) ==> d in order
    requires name in order
    ensures forall n :: Needs(g, name, n) ==> n in order
  {
    forall n | Reaches(g, name, n)
      ensures n in order
    {
      var p :| IsPath(g, p) && |p| >= 2 && p[0] == name && p[|p| - 1] == n;
      PathIsListed(g, order, p);
    }
  }

  /** Listing one more plugin adds what it needs and nothing else. */
  lemma ListsMore(g: Graph, names: seq<Name>, i: nat, before: seq<Name>, order: seq<Name>)
    requires i < |names| && ListsNeeds(g, names[..i], before) && before <= order
    requires forall n :: n in order && n !in before ==> Needs(g, names[i], n)
    requires forall n :: Needs(g, names[i], n) ==> n in order
    ensures ListsNeeds(g, names[..i + 1], order)
  {
    hide Needs;
    assert names[..i + 1] == names[..i] + [names[i]];
    forall n ensures n in order <==> exists name :: name in names[..i + 1] && Needs(g, name, n) {
      if n in before {
        var name :| name in names[..i] && Needs(g, name, n);
        assert name in names[..i + 1];
      } else if n in order {
        assert names[i] in names[..i + 1];
      } else if name :| name in names[..i + 1] && Needs(g, name, n) {
        assert name in names[..i];
      }
    }
  }

  /** The first cuts[k] of the list are what the first k plugins need. */
  ghost predicate CutsAt(g: Graph, names: seq<Name>, order: seq<Name>, cuts: seq<nat>) {
    && 0 < |cuts| <= |names| + 1 && cuts[|cuts| - 1] == |order|
    && forall k :: 0 <= k < |cuts| ==> cuts[k] <= |order| && ListsNeeds(g, names[..k], order[..cuts[k]])
  }

  lemma OneMoreCut(g: Graph, names: seq<Name>, i: nat, before: seq<Name>, order: seq<Name>, cuts: seq<nat>)
    requires i < |names| && |cuts| == i + 1 && CutsAt(g, names, before, cuts)
    requires before <= order && names[i] in order
    requires forall n :: n in order && n !in before ==> Needs(g, names[i], n)
    requires forall n, d :: n in order && d in Deps(g, n) ==> d in order
    ensures CutsAt(g, names, order, cuts + [|order|])
  {
    NeedsAreListed(g, order, names[i]);
    hide Needs;
    assert before[..|before|] == before && order[..|order|] == order;
    ListsMore(g, names, i, before, order);
    hide ListsNeeds;
    forall k | 0 <= k < |cuts|
      ensures cuts[k] <= |order| && ListsNeeds(g, names[..k], order[..cuts[k]])
    {
      assert order[..cuts[k]] == before[..cuts[k]];
    }
  }

  lemma NothingCut(g: Graph, names: seq<Name>)
    ensures CutsAt(g, names, [], [0])
  {
  }

  /** A closed list of every registered plugin holds everything in the graph. */
  lemma AllListed(g: Graph, order: seq<Name>)
    requires forall n :: n in g ==> n in order
    requires forall n, d :: n in order && d in Deps(g, n) ==> d in order
    requires forall n :: n in order ==> n in Universe(g)
    ensures forall n :: n in order <==> n in Universe(g)
  {
    forall n | n in Universe(g)
      ensures n in order
    {
      if n !in g {
        var name :| name in g && n in g[name];
        assert n in Deps(g, name);
      }
    }
  }

  /**
   * Terminates on every graph, cyclic ones included, lists every registered plugin and every dependency exactly
   * once, and puts each name after its dependencies if and only if the graph has no cycle. What the first k plugins
   * need comes before whatever only later ones need.
   */
  method GetLoadOrder(graph: Graph, names: seq<Name>) returns (order: seq<Name>)
    requires forall n :: n in names <==> n in graph
    ensures NoRepeats(order)
    ensures forall n :: n in order <==> n in Universe(graph)
    ensures Topological(graph, order) <==> Acyclic(graph)
    ensures Staged(graph, names, order)
  {
    hide CutsAt, Acyclic, Topological, Universe, Deps;
    var t := new Traversal(graph);
    ghost var cuts: seq<nat> := [0];
    NothingCut(graph, names);
    for i := 0 to |names|
      invariant t.graph == graph && t.Progress({})
      invariant forall n :: n in names[..i] ==> n in t.order
      invariant |cuts| == i + 1 && CutsAt(graph, names, t.order, cuts)
      invariant fresh(t)
    {
      InUniverse(graph, names[i]);
      ghost var before := t.order;
      t.Visit(names[i], {});
      OneMoreCut(graph, names, i, before, t.order, cuts);
      cuts := cuts + [|t.order|];
    }
    order := t.order;
    assert forall n :: n in graph ==> n in names[..|names|];
    AllListed(graph, order);
    CutsExist(graph, names, order, cuts);
    if Topological(graph, order) {
      TopologicalIsAcyclic(graph, order);
    }
  }

  lemma InUniverse(g: Graph, name: Name)
    requires name in g
    ensures name in Universe(g)
  {
  }

  lemma CutsExist(g: Graph, names: seq<Name>, order: seq<Name>, cuts: seq<nat>)
    requires |cuts| == |names| + 1 && CutsAt(g, names, order, cuts)
    ensures Staged(g, names, order)
  {
    hide ListsNeeds;
  }
}

/** The plugin registry (src/extensibility/plugin-registry.ts). */
module PluginRegistry {
  import opened Prelude
  import opened DependencyGraph
  import LoadOrder

  datatype Config = Config(maxPlugins: nat, enableHotSwap: bool, validateDependencies: bool, checkVersion: bool)

  /** A plugin's metadata, and what its own compatibility check answers for this engine version. */
  datatype Plugin = Plugin(name: Name, dependencies: seq<Name>, compatible: bool)

  datatype Entry = Entry(plugin: Plugin, isActive: bool)

  datatype RegistryError = LimitReached | AlreadyRegistered | Incompatible | MissingDependency(name: Name)

  type Outcome = Result<bool, RegistryError>

  /** The entries in insertion order. */
  datatype State = State(names: seq<Name>, plugins: map<Name, Entry>)

  const Empty := State([], map[])

  ghost predicate ValidState(s: State) {
    NoRepeats(s.names) && forall n :: n in s.names <==> n in s.plugins
  }

  function Remove(names: seq<Name>, name: Name): seq<Name> {
    if names == [] then []
    else if names[0] == name then names[1..]
    else [names[0]] + Remove(names[1..], name)
  }

  function AfterUnregister(s: State, name: Name): State {
    if name in s.plugins then State(Remove(s.names, name), s.plugins - {name}) else s
  }

  function FirstMissing(dependencies: seq<Name>, plugins: map<Name, Entry>): Option<Name> {
    if dependencies == [] then None
    else if dependencies[0] !in plugins then Some(dependencies[0])
    else FirstMissing(dependencies[1..], plugins)
  }

  /** Registering; a hot swap has already dropped the old entry when a later check fails. */
  function AfterRegister(s: State, config: Config, plugin: Plugin): (State, Outcome) {
    if |s.names| >= config.maxPlugins then (s, Err(LimitReached))
    else if plugin.name in s.plugins && !config.enableHotSwap then (s, Err(AlreadyRegistered))
    else
      var base := AfterUnregister(s, plugin.name);
      var missing := if config.validateDependencies then FirstMissing(plugin.dependencies, base.plugins) else None;
      if config.checkVersion && !plugin.compatible then (base, Err(Incompatible))
      else if missing.Some? then (base, Err(MissingDependency(missing.value)))
      else (State(base.names + [plugin.name], base.plugins[plugin.name := Entry(plugin, false)]), Ok(true))
  }

  function GraphOf(s: State): Graph {
    map name | name in s.plugins :: s.plugins[name].plugin.dependencies
  }

  class Registry {
    const config: Config
    var names: seq<Name>
    var plugins: map<Name, Entry>

    constructor (config: Config)
      ensures this.config == config && View() == Empty && ValidState(View())
    {
      this.config := config;
      names, plugins := [], map[];
    }

    function View(): State
      reads this
    {
      State(names, plugins)
    }

    method Register(plugin: Plugin) returns (r: Outcome)
      requires ValidState(View())
      modifies this
      ensures (View(), r) == AfterRegister(old(View()), config, plugin)
      ensures ValidState(View())
    {
      ValidAfterRegister(View(), config, plugin);
      if |names| >= config.maxPlugins {
        return Err(LimitReached);
      }
      if plugin.name in plugins {
        if config.enableHotSwap {
          var removed := Unregister(plugin.name);
        } else {
          return Err(AlreadyRegistered);
        }
      }
      if config.checkVersion && !plugin.compatible {
        return Err(Incompatible);
      }
      if config.validateDependencies {
        var missing := MissingOf(plugin.dependencies);
        if missing.Some? {
          return Err(MissingDependency(missing.value));
        }
      }
      names, plugins := names + [plugin.name], plugins[plugin.name := Entry(plugin, false)];
      r := Ok(true);
    }

    method Unregister(name: Name) returns (removed: bool)
      requires ValidState(View())
      modifies this
      ensures View() == AfterUnregister(old(View()), name) && ValidState(View())
      ensures removed == (name in old(plugins))
    {
      ValidAfterUnregister(View(), name);
      if name !in plugins {
        return false;
      }
      names, plugins := Remove(names, name), plugins - {name};
      removed := true;
    }

    method MissingOf(dependencies: seq<Name>) returns (missing: Option<Name>)
      ensures missing == FirstMissing(dependencies, plugins)
    {
      var i := 0;
      while i < |dependencies|
        invariant 0 <= i <= |dependencies|
        invariant FirstMissing(dependencies, plugins) == FirstMissing(dependencies[i..], plugins)
      {
        if dependencies[i] !in plugins {
          return Some(dependencies[i]);
        }
        i := i + 1;
      }
      missing := None;
    }

    /** The load order of the current entries. */
    method GetLoadOrder() returns (order: seq<Name>)
      requires ValidState(View())
      ensures NoRepeats(order)
      ensures forall n :: n in order <==> n in Universe(GraphOf(View()))
      ensures Topological(GraphOf(View()), order) <==> Acyclic(GraphOf(View()))
      ensures Staged(GraphOf(View()), names, order)
    {
      order := LoadOrder.GetLoadOrder(GraphOf(View()), names);
    }
  }

  lemma {:induction false} RemoveMeaning(names: seq<Name>, name: Name)
    requires NoRepeats(names)
    ensures NoRepeats(Remove(names, name))
    ensures forall n :: n in Remove(names, name) <==> n in names && n != name
  {
    if names != [] {
      RemoveMeaning(names[1..], name);
      assert names[0] !in names[1..];
      assert forall n :: n in names <==> n == names[0] || n in names[1..];
    }
  }

  lemma ValidAfterUnregister(s: State, name: Name)
    requires ValidState(s)
    ensures ValidState(AfterUnregister(s, name)) && name !in AfterUnregister(s, name).plugins
  {
    RemoveMeaning(s.names, name);
  }

  lemma ValidAfterRegister(s: State, config: Config, plugin: Plugin)
    requires ValidState(s)
    ensures ValidState(AfterRegister(s, config, plugin).0)
  {
    ValidAfterUnregister(s, plugin.name);
  }

  // ----- What a registration does -----

  /** The entry with a name is gone, if there was one; the others stay as they were, in their order. */
  ghost predicate Dropped(s: State, after: State, name: Name) {
    && (name !in s.names ==> after == s)
    && (name in s.names ==> exists before, behind ::
          s.names == before + [name] + behind && after.names == before + behind)
    && (forall n :: n in after.plugins <==> n in s.plugins && n != name)
    && (forall n :: n in after.plugins ==> after.plugins[n] == s.plugins[n])
  }

  lemma {:induction false} RemoveSplits(names: seq<Name>, name: Name) returns (before: seq<Name>, behind: seq<Name>)
    requires name in names
    ensures names == before + [name] + behind && Remove(names, name) == before + behind
  {
    if names[0] == name {
      before, behind := [], names[1..];
    } else {
      before, behind := RemoveSplits(names[1..], name);
      before := [names[0]] + before;
    }
  }

  /** unregister takes out exactly the entry named. */
  lemma UnregisterMeaning(s: State, name: Name)
    requires ValidState(s)
    ensures Dropped(s, AfterUnregister(s, name), name)
  {
    if name in s.names {
      var before, behind := RemoveSplits(s.names, name);
    }
    hide Remove;
  }

  /** A dependency that is registered, and not only as the entry that a hot swap is about to replace. */
  predicate Available(s: State, plugin: Plugin, dep: Name) {
    dep in s.names && dep != plugin.name
  }

  /** There is room, and the name is free or may be swapped. */
  predicate Admitted(s: State, config: Config, plugin: Plugin) {
    |s.names| < config.maxPlugins && (plugin.name in s.names ==> config.enableHotSwap)
  }

  /** Why a registration is refused: the limit first, then a taken name, then the version, then the dependencies. */
  ghost predicate RefusedFor(s: State, config: Config, plugin: Plugin, error: RegistryError) {
    match error
    case LimitReached => config.maxPlugins <= |s.names|
    case AlreadyRegistered => |s.names| < config.maxPlugins && plugin.name in s.names && !config.enableHotSwap
    case Incompatible => Admitted(s, config, plugin) && config.checkVersion && !plugin.compatible
    case MissingDependency(name) =>
      && Admitted(s, config, plugin) && (config.checkVersion ==> plugin.compatible) && config.validateDependencies
      && exists i :: 0 <= i < |plugin.dependencies| && plugin.dependencies[i] == name && !Available(s, plugin, name)
                     && forall k :: 0 <= k < i ==> Available(s, plugin, plugin.dependencies[k])
  }

  lemma {:induction false} FirstMissingMeaning(dependencies: seq<Name>, plugins: map<Name, Entry>)
    ensures var missing := FirstMissing(dependencies, plugins);
      && (missing.None? <==> forall d :: d in dependencies ==> d in plugins)
      && (missing.Some? ==> missing.value !in plugins && exists i ::
            0 <= i < |dependencies| && dependencies[i] == missing.value
            && forall k :: 0 <= k < i ==> dependencies[k] in plugins)
  {
    if dependencies != [] {
      FirstMissingMeaning(dependencies[1..], plugins);
      var missing := FirstMissing(dependencies, plugins);
      if dependencies[0] in plugins && missing.Some? {
        var i :| 0 <= i < |dependencies| - 1 && dependencies[1..][i] == missing.value
          && forall k :: 0 <= k < i ==> dependencies[1..][k] in plugins;
        assert forall k :: 0 < k < i + 1 ==> dependencies[k] == dependencies[1..][k - 1];
        assert dependencies[i + 1] == missing.value;
      }
    }
  }

  /**
   * A registration succeeds exactly when there is room, the name is free or swapped, the version fits and every
   * dependency is registered, and then adds an inactive entry at the end, in place of an old one of that name. A
   * refused one names the first reason, and has dropped the old entry if it was to be swapped.
   */
  lemma RegisterMeaning(s: State, config: Config, plugin: Plugin)
    requires ValidState(s)
    ensures var (after, r) := AfterRegister(s, config, plugin);
      && (r.Ok? <==>
            && Admitted(s, config, plugin) && (config.checkVersion ==> plugin.compatible)
            && (config.validateDependencies ==> forall d :: d in plugin.dependencies ==> Available(s, plugin, d)))
      && (r.Err? ==> RefusedFor(s, config, plugin, r.error))
      && (r.Err? ==> if Admitted(s, config, plugin) then Dropped(s, after, plugin.name) else after == s)
      && (r.Ok? ==> r.value && exists base ::
            && Dropped(s, base, plugin.name)
            && after == State(base.names + [plugin.name], base.plugins[plugin.name := Entry(plugin, false)]))
  {
    var base := AfterUnregister(s, plugin.name);
    UnregisterMeaning(s, plugin.name);
    FirstMissingMeaning(plugin.dependencies, base.plugins);
    assert forall d :: d in base.plugins <==> Available(s, plugin, d);
    hide Dropped, AfterUnregister, FirstMissing, Available;
  }

  // ----- Registries that registration alone can reach -----

  /** Any sequence of register calls, failing or not. */
  function RegisterAll(config: Config, plugins: seq<Plugin>): State {
    if plugins == [] then Empty
    else AfterRegister(RegisterAll(config, plugins[..|plugins| - 1]), config, plugins[|plugins| - 1]).0
  }

  /** Validation is on, and no hot swap can drop an entry that another one depends on. */
  predicate KeepsOrder(config: Config) {
    config.validateDependencies && (!config.enableHotSwap || config.maxPlugins <= 2)
  }

  /** Then insertion order is topological: each plugin was validated against the entries before it. */
  lemma {:induction false} RegisteredInOrder(config: Config, plugins: seq<Plugin>)
    requires KeepsOrder(config)
    ensures var s := RegisterAll(config, plugins); ValidState(s) && Topological(GraphOf(s), s.names)
  {
    if plugins != [] {
      var before, plugin := RegisterAll(config, plugins[..|plugins| - 1]), plugins[|plugins| - 1];
      RegisteredInOrder(config, plugins[..|plugins| - 1]);
      OneMoreInOrder(before, config, plugin);
    }
    hide AfterRegister, ValidState, Topological, KeepsOrder;
  }

  lemma OneMoreInOrder(s: State, config: Config, plugin: Plugin)
    requires KeepsOrder(config) && ValidState(s) && Topological(GraphOf(s), s.names)
    ensures var (after, _) := AfterRegister(s, config, plugin);
      ValidState(after) && Topological(GraphOf(after), after.names)
  {
    ValidAfterRegister(s, config, plugin);
    var base := AfterUnregister(s, plugin.name);
    var (after, r) := AfterRegister(s, config, plugin);
    if after != s {
      if plugin.name in s.plugins {
        OnlyEntryDropped(s, plugin.name);
      }
      FirstMissingMeaning(plugin.dependencies, base.plugins);
      if r.Ok? {
        TopologicalInLargerGraph(GraphOf(base), GraphOf(after), base.names);
        TopologicalExtend(GraphOf(after), base.names, plugin.name);
      }
    }
  }

  lemma OnlyEntryDropped(s: State, name: Name)
    requires ValidState(s) && |s.names| <= 1 && name in s.plugins
    ensures AfterUnregister(s, name) == Empty
  {
    assert s.names == [name];
    assert s.plugins.Keys == {name};
  }

  lemma TopologicalInLargerGraph(g: Graph, h: Graph, order: seq<Name>)
    requires Topological(g, order) && forall n :: n in order ==> Deps(g, n) == Deps(h, n)
    ensures Topological(h, order)
  {
  }

  /**
   * Then every registry that register calls can reach is acyclic and closed under dependencies, so its load order
   * lists exactly the registered plugins, dependencies first.
   */
  lemma RegistrationIsAcyclic(config: Config, plugins: seq<Plugin>)
    requires KeepsOrder(config)
    ensures var s := RegisterAll(config, plugins); Acyclic(GraphOf(s)) && Universe(GraphOf(s)) == s.plugins.Keys
  {
    var s := RegisterAll(config, plugins);
    RegisteredInOrder(config, plugins);
    TopologicalIsAcyclic(GraphOf(s), s.names);
    forall name, dep | name in GraphOf(s) && dep in GraphOf(s)[name]
      ensures dep in s.plugins
    {
      var i :| 0 <= i < |s.names| && s.names[i] == name;
      assert dep in s.names[..i];
    }
  }

  // ----- Exactly when a call closes a cycle -----

  /** The plugin neither depends on itself nor on anything that reaches it once its old entry is gone. */
  ghost predicate ClosesNoCycle(s: State, plugin: Plugin) {
    forall d :: d in plugin.dependencies ==>
      d != plugin.name && !Reaches(GraphOf(AfterUnregister(s, plugin.name)), d, plugin.name)
  }

  lemma GraphAfterUnregister(s: State, name: Name)
    ensures GraphOf(AfterUnregister(s, name)) == GraphOf(s) - {name}
  {
  }

  /** A register call leaves an acyclic registry acyclic exactly when it fails or closes no cycle. */
  lemma RegisterKeepsAcyclicExactly(s: State, config: Config, plugin: Plugin)
    requires Acyclic(GraphOf(s))
    ensures var (after, r) := AfterRegister(s, config, plugin);
      Acyclic(GraphOf(after)) <==> (r.Ok? ==> ClosesNoCycle(s, plugin))
  {
    var base := AfterUnregister(s, plugin.name);
    var (after, r) := AfterRegister(s, config, plugin);
    GraphAfterUnregister(s, plugin.name);
    RemovingKeepsAcyclic(GraphOf(s), plugin.name);
    if r.Ok? {
      assert GraphOf(after) == GraphOf(base)[plugin.name := plugin.dependencies];
      AddingKeepsAcyclicExactly(GraphOf(base), plugin.name, plugin.dependencies);
    }
    hide Acyclic, Reaches, FirstMissing, AfterUnregister;
  }

  datatype Call = Register(plugin: Plugin) | Unregister(name: Name)

  function AfterCall(s: State, config: Config, call: Call): State {
    match call
    case Register(plugin) => AfterRegister(s, config, plugin).0
    case Unregister(name) => AfterUnregister(s, name)
  }

  /** Any sequence of register and unregister calls. */
  function AfterCalls(config: Config, calls: seq<Call>): State {
    if calls == [] then Empty else AfterCall(AfterCalls(config, calls[..|calls| - 1]), config, calls[|calls| - 1])
  }

  /** The call is not a successful registration that closes a cycle. */
  ghost predicate SafeCall(s: State, config: Config, call: Call) {
    call.Register? && AfterRegister(s, config, call.plugin).1.Ok? ==> ClosesNoCycle(s, call.plugin)
  }

  lemma CallKeepsAcyclicExactly(s: State, config: Config, call: Call)
    requires Acyclic(GraphOf(s))
    ensures Acyclic(GraphOf(AfterCall(s, config, call))) <==> SafeCall(s, config, call)
  {
    match call
    case Register(plugin) => RegisterKeepsAcyclicExactly(s, config, plugin);
    case Unregister(name) =>
      GraphAfterUnregister(s, name);
      RemovingKeepsAcyclic(GraphOf(s), name);
    hide Acyclic, ClosesNoCycle, AfterRegister, AfterUnregister;
  }

  ghost predicate AlwaysAcyclic(config: Config, calls: seq<Call>) {
    forall k :: 0 <= k <= |calls| ==> Acyclic(GraphOf(AfterCalls(config, calls[..k])))
  }

  ghost predicate AlwaysSafe(config: Config, calls: seq<Call>) {
    forall k :: 0 <= k < |calls| ==> SafeCall(AfterCalls(config, calls[..k]), config, calls[k])
  }

  /** A run of register and unregister calls stays acyclic exactly when no registration in it closes a cycle. */
  lemma {:induction false} CallsStayAcyclicExactly(config: Config, calls: seq<Call>)
    ensures AlwaysAcyclic(config, calls) <==> AlwaysSafe(config, calls)
  {
    if calls == [] {
      assert calls[..0] == [];
      NothingIsAcyclic();
    } else {
      var m := |calls| - 1;
      var front := calls[..m];
      CallsStayAcyclicExactly(config, front);
      assert forall k :: 0 <= k <= m ==> front[..k] == calls[..k];
      assert calls[..|calls|] == calls && front[..m] == front;
      if Acyclic(GraphOf(AfterCalls(config, front))) {
        CallKeepsAcyclicExactly(AfterCalls(config, front), config, calls[m]);
      }
      OneMoreCall(config, calls);
    }
    hide Acyclic, SafeCall, AfterCall;
  }

  lemma NothingIsAcyclic()
    ensures Acyclic(GraphOf(Empty))
  {
    TopologicalIsAcyclic(GraphOf(Empty), []);
  }

  lemma OneMoreCall(config: Config, calls: seq<Call>)
    requires calls != []
    ensures var front := calls[..|calls| - 1];
      && (AlwaysAcyclic(config, calls) <==> AlwaysAcyclic(config, front) && Acyclic(GraphOf(AfterCalls(config, calls))))
      && (AlwaysSafe(config, calls) <==>
           AlwaysSafe(config, front) && SafeCall(AfterCalls(config, front), config, calls[|calls| - 1]))
      && (AlwaysAcyclic(config, front) ==> Acyclic(GraphOf(AfterCalls(config, front))))
  {
    hide Acyclic, SafeCall, AfterCalls;
    var m := |calls| - 1;
    var front := calls[..m];
    assert forall k :: 0 <= k <= m ==> front[..k] == calls[..k];
    assert calls[..|calls|] == calls && front[..m] == front;
  }

  const PLUGIN_A := Plugin("a", [], true)
  const PLUGIN_B := Plugin("b", ["a"], true)
  const PLUGIN_A_ON_B := Plugin("a", ["b"], true)

  lemma FirstTwoRegistered(config: Config)
    requires config.maxPlugins > 2
    ensures RegisterAll(config, [PLUGIN_A, PLUGIN_B])
      == State(["a", "b"], map["a" := Entry(PLUGIN_A, false), "b" := Entry(PLUGIN_B, false)])
  {
    assert [PLUGIN_A, PLUGIN_B][..1] == [PLUGIN_A] && [PLUGIN_A][..0] == [];
    assert RegisterAll(config, [PLUGIN_A]) == State(["a"], map["a" := Entry(PLUGIN_A, false)]);
    FirstMissingMeaning(["a"], map["a" := Entry(PLUGIN_A, false)]);
  }

  /** With room for three, swapping in a version that depends on its own dependant closes a cycle. */
  lemma HotSwapCanCloseACycle(config: Config)
    requires config.enableHotSwap && config.maxPlugins > 2
    ensures !Acyclic(GraphOf(RegisterAll(config, [PLUGIN_A, PLUGIN_B, PLUGIN_A_ON_B])))
  {
    var three, two, one := [PLUGIN_A, PLUGIN_B, PLUGIN_A_ON_B], [PLUGIN_A, PLUGIN_B], [PLUGIN_A];
    assert three[..2] == two && two[..1] == one && one[..0] == [];
    FirstTwoRegistered(config);
    FirstMissingMeaning(["b"], map["b" := Entry(PLUGIN_B, false)]);
    var s2 := State(["a", "b"], map["a" := Entry(PLUGIN_A, false), "b" := Entry(PLUGIN_B, false)]);
    assert AfterUnregister(s2, "a") == State(["b"], map["b" := Entry(PLUGIN_B, false)]);
    var g := GraphOf(AfterRegister(s2, config, PLUGIN_A_ON_B).0);
    hide AfterRegister, AfterUnregister, FirstMissing;
    assert g["a"] == ["b"] && g["b"] == ["a"];
    assert IsPath(g, ["a", "b", "a"]);
    assert Reaches(g, "a", "a");
  }

  const PLUGIN_ON_ITSELF := Plugin("a", ["a"], true)

  lemma UnvalidatedCanCloseACycle(config: Config)
    requires !config.validateDependencies && config.maxPlugins > 0
    ensures !Acyclic(GraphOf(RegisterAll(config, [PLUGIN_ON_ITSELF])))
  {
    assert [PLUGIN_ON_ITSELF][..0] == [] && RegisterAll(config, []) == Empty;
    assert RegisterAll(config, [PLUGIN_ON_ITSELF]) == State(["a"], map["a" := Entry(PLUGIN_ON_ITSELF, false)]);
    var g := GraphOf(RegisterAll(config, [PLUGIN_ON_ITSELF]));
    assert g["a"] == ["a"];
    ReachesDirectly(g, "a", "a");
  }

  lemma {:induction false} NoRoom(config: Config, plugins: seq<Plugin>)
    requires config.maxPlugins == 0
    ensures RegisterAll(config, plugins) == Empty
  {
    if plugins != [] {
      NoRoom(config, plugins[..|plugins| - 1]);
    }
  }

  ghost predicate ReachesOnlyAcyclic(config: Config, plugins: seq<Plugin>) {
    Acyclic(GraphOf(RegisterAll(config, plugins)))
  }

  /** The configurations under which register calls alone can never close a cycle. */
  lemma RegistrationIsAcyclicExactly(config: Config)
    ensures (forall plugins: seq<Plugin> :: ReachesOnlyAcyclic(config, plugins)) <==>
      KeepsOrder(config) || config.maxPlugins == 0
  {
    if KeepsOrder(config) || config.maxPlugins == 0 {
      forall plugins: seq<Plugin>
        ensures ReachesOnlyAcyclic(config, plugins)
      {
        if KeepsOrder(config) {
          RegistrationIsAcyclic(config, plugins);
        } else {
          NoRoom(config, plugins);
          NothingIsAcyclic();
        }
      }
    } else if config.validateDependencies {
      HotSwapCanCloseACycle(config);
      assert !ReachesOnlyAcyclic(config, [PLUGIN_A, PLUGIN_B, PLUGIN_A_ON_B]);
    } else {
      UnvalidatedCanCloseACycle(config);
      assert !ReachesOnlyAcyclic(config, [PLUGIN_ON_ITSELF]);
    }
    hide Acyclic, RegisterAll;
  }
}
