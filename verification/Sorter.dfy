/** The depth-first topological sort of the orchestrator. */
module Sorter {
  import opened Wrappers
  import opened DependencyGraph

  datatype SortError = Circular(name: string) | NotRegistered(name: string)

  /** What an error value proves about the registry. */
  ghost predicate Justified(services: Registry, e: SortError) {
    match e
    case Circular(n) => exists p :: IsCycle(services, p) && p[0] == n
    case NotRegistered(n) => n !in services && exists a :: Edge(services, a, n)
  }

  /** `temp` is the set of names on a chain of dependencies. */
  ghost predicate OnStack(services: Registry, temp: set<string>, stack: seq<string>) {
    && temp <= services.Keys
    && (forall n :: n in temp <==> n in stack)
    && IsPath(services, stack)
  }

  /** `sorted` is a dependency-closed topological order of the visited names. */
  ghost predicate Emitted(services: Registry, visited: set<string>, sorted: seq<Service>) {
    && visited == Names(sorted)
    && visited <= services.Keys
    && (forall i | 0 <= i < |sorted| :: sorted[i] == services[sorted[i].name])
    && DistinctNames(sorted)
    && TopoOrdered(sorted)
  }

  /** A visit is started for a registered name, or for a dependency of the innermost visit in progress. */
  ghost predicate Reached(services: Registry, stack: seq<string>, name: string) {
    if stack == [] then name in services else Edge(services, stack[|stack| - 1], name)
  }

  /** The variables shared by the recursive closure. `visited` and `temp` hold the names mapped to true;
      the ghost `stack` is the chain of calls in progress. */
  class DepthFirst {
    const services: Registry
    var visited: set<string>
    var temp: set<string>
    var sorted: seq<Service>
    ghost var stack: seq<string>

    ghost predicate Valid()
      reads this
    {
      && OnStack(services, temp, stack)
      && Emitted(services, visited, sorted)
      && temp !! visited
    }

    constructor (services: Registry)
      requires WellNamed(services)
      ensures Valid() && this.services == services
      ensures stack == [] && visited == {}
    {
      this.services := services;
      visited, temp, sorted, stack := {}, {}, [], [];
    }

    method Visit(name: string) returns (err: Option<SortError>)
      requires WellNamed(services) && Valid() && Reached(services, stack, name)
      modifies this`visited, this`temp, this`sorted, this`stack
      ensures err.None? ==> Valid() && stack == old(stack) && temp == old(temp)
      ensures err.None? ==> old(visited) + {name} <= visited && old(sorted) <= sorted
      ensures err.Some? ==> Justified(services, err.value)
      decreases services.Keys - visited - temp
    {
      if name in temp {
        CycleOnStack(services, stack, name);
        return Some(Circular(name));
      }
      if name !in visited {
        temp := temp + {name};
        ghost var outer := stack;
        stack := stack + [name];
        if name !in services {
          assert Edge(services, outer[|outer| - 1], name);
          return Some(NotRegistered(name));
        }
        EnterKeepsStack(services, temp - {name}, outer, name);
        var s := services[name];
        if s.Dependent? {
          var i := 0;
          while i < |s.dependencies|
            invariant 0 <= i <= |s.dependencies|
            invariant Valid() && stack == outer + [name] && temp == old(temp) + {name}
            invariant old(visited) <= visited && old(sorted) <= sorted
            invariant forall k | 0 <= k < i :: s.dependencies[k] in visited
          {
            err := Visit(s.dependencies[i]);
            if err.Some? {
              return;
            }
            i := i + 1;
          }
        }
        temp := temp - {name};
        visited := visited + {name};
        EmitKeepsOrder(services, visited - {name}, sorted, s);
        sorted := sorted + [s];
        stack := outer;
      }
      return None;
    }
  }

  lemma CycleOnStack(services: Registry, stack: seq<string>, name: string)
    requires IsPath(services, stack) && name in stack
    requires Edge(services, stack[|stack| - 1], name)
    ensures exists p :: IsCycle(services, p) && p[0] == name
  {
    var i :| 0 <= i < |stack| && stack[i] == name;
    var p := stack[i..] + [name];
    forall k | 0 < k < |p| ensures Edge(services, p[k - 1], p[k]) {
      assert p[k - 1] == stack[i + k - 1];
      if k < |p| - 1 {
        assert p[k] == stack[i + k];
      }
    }
    assert IsCycle(services, p) && p[0] == name;
  }

  lemma EnterKeepsStack(services: Registry, temp: set<string>, stack: seq<string>, name: string)
    requires OnStack(services, temp, stack) && Reached(services, stack, name) && name in services
    ensures OnStack(services, temp + {name}, stack + [name])
  {
    var longer := stack + [name];
    forall i | 0 < i < |longer| ensures Edge(services, longer[i - 1], longer[i]) {
      if i < |stack| {
        assert Edge(services, stack[i - 1], stack[i]);
      }
    }
  }

  lemma EmitKeepsOrder(services: Registry, visited: set<string>, sorted: seq<Service>, s: Service)
    requires Emitted(services, visited, sorted)
    requires s.name in services && services[s.name] == s && s.name !in visited
    requires forall d | d in s.Deps() :: d in visited
    ensures Emitted(services, visited + {s.name}, sorted + [s])
  {
    AppendKeepsOrder(sorted, s);
  }

  lemma AppendKeepsOrder(order: seq<Service>, s: Service)
    requires TopoOrdered(order) && DistinctNames(order)
    requires s.name !in Names(order) && (forall d | d in s.Deps() :: d in Names(order))
    ensures TopoOrdered(order + [s]) && DistinctNames(order + [s])
    ensures Names(order + [s]) == Names(order) + {s.name}
  {
    var longer := order + [s];
    forall i, d | 0 <= i < |longer| && d in longer[i].Deps() ensures Provides(longer, i, d) {
      if i < |order| {
        assert Provides(order, i, d);
        var j :| 0 <= j < i && order[j].name == d;
        assert longer[j].name == d;
      } else {
        var j :| 0 <= j < |order| && order[j].name == d;
        assert longer[j].name == d;
      }
    }
    forall n ensures n in Names(longer) <==> n in Names(order) + {s.name} {
      if n in Names(order) {
        var j :| 0 <= j < |order| && order[j].name == n;
        assert longer[j].name == n;
      }
      assert longer[|order|].name == s.name;
    }
  }

  /** Succeeds exactly on complete acyclic registries, in whatever order the map is iterated. */
  method SortDependencies(services: Registry) returns (r: Result<seq<Service>, SortError>)
    requires WellNamed(services)
    ensures r.Ok? <==> Acyclic(services) && Complete(services)
    ensures r.Ok? ==> IsTopoSort(services, r.value)
    ensures r.Err? ==> Justified(services, r.error)
  {
    var dfs := new DepthFirst(services);
    var remaining := services.Keys;
    while remaining != {}
      invariant fresh(dfs) && dfs.services == services
      invariant dfs.Valid() && dfs.stack == []
      invariant remaining <= services.Keys && services.Keys - remaining <= dfs.visited
    {
      var name :| name in remaining;
      remaining := remaining - {name};
      if name !in dfs.visited {
        var err := dfs.Visit(name);
        if err.Some? {
          return Err(err.value);
        }
      }
    }
    SortedImpliesSound(services, dfs.sorted);
    return Ok(dfs.sorted);
  }
}
