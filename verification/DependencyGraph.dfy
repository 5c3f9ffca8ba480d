/** Registered services, their dependency edges, and what a topological order of them is. */
module DependencyGraph {

  /** A service that does not implement the optional interface declares no dependencies. */
  datatype Service = Plain(name: string) | Dependent(name: string, dependencies: seq<string>)
  {
    function Deps(): seq<string> {
      if Plain? then [] else dependencies
    }
  }

  type Registry = map<string, Service>

  /** Registration files every service under its own name. */
  ghost predicate WellNamed(services: Registry) {
    forall n | n in services :: services[n].name == n
  }

  predicate Edge(services: Registry, from: string, to: string) {
    from in services && to in services[from].Deps()
  }

  ghost predicate IsPath(services: Registry, p: seq<string>) {
    forall i | 0 < i < |p| :: Edge(services, p[i - 1], p[i])
  }

  ghost predicate IsCycle(services: Registry, p: seq<string>) {
    |p| >= 2 && p[0] == p[|p| - 1] && IsPath(services, p)
  }

  ghost predicate Acyclic(services: Registry) {
    forall p :: !IsCycle(services, p)
  }

  /** Every dependency of a registered service is registered. */
  ghost predicate Complete(services: Registry) {
    forall a, b | Edge(services, a, b) :: b in services
  }

  ghost predicate Provides(order: seq<Service>, k: nat, name: string)
    requires k <= |order|
  {
    exists j :: 0 <= j < k && order[j].name == name
  }

  /** Every dependency of a service stands strictly before it. */
  ghost predicate TopoOrdered(order: seq<Service>) {
    forall i, d | 0 <= i < |order| && d in order[i].Deps() :: Provides(order, i, d)
  }

  ghost predicate DistinctNames(order: seq<Service>) {
    forall i, j | 0 <= i < j < |order| :: order[i].name != order[j].name
  }

  function Names(order: seq<Service>): set<string> {
    set i | 0 <= i < |order| :: order[i].name
  }

  /** The order holds every registered service exactly once, dependencies first. */
  ghost predicate IsTopoSort(services: Registry, order: seq<Service>) {
    && DistinctNames(order)
    && TopoOrdered(order)
    && Names(order) == services.Keys
    && (forall i | 0 <= i < |order| :: order[i] == services[order[i].name])
  }

  lemma PrefixKeepsOrder(order: seq<Service>, k: nat)
    requires TopoOrdered(order) && DistinctNames(order) && k <= |order|
    ensures TopoOrdered(order[..k]) && DistinctNames(order[..k])
  {
    forall i, d | 0 <= i < k && d in order[..k][i].Deps() ensures Provides(order[..k], i, d) {
      assert Provides(order, i, d);
      var j :| 0 <= j < i && order[j].name == d;
      assert order[..k][j].name == d;
    }
  }

  /** Along a path, positions in a topological order strictly decrease. */
  lemma {:induction false} PathDescends(services: Registry, order: seq<Service>, p: seq<string>, k: nat)
    requires IsTopoSort(services, order) && IsPath(services, p) && |p| >= 2
    requires k < |order| && order[k].name == p[0]
    ensures Provides(order, k, p[|p| - 1])
  {
    assert Edge(services, p[0], p[1]);
    assert p[1] in order[k].Deps();
    assert Provides(order, k, p[1]);
    if |p| > 2 {
      var j :| 0 <= j < k && order[j].name == p[1];
      var q := p[1..];
      assert forall i | 0 < i < |q| :: q[i - 1] == p[i] && q[i] == p[i + 1];
      PathDescends(services, order, q, j);
      assert q[|q| - 1] == p[|p| - 1];
    }
  }

  /** Only an acyclic graph without missing dependencies has a topological order. */
  lemma SortedImpliesSound(services: Registry, order: seq<Service>)
    requires IsTopoSort(services, order)
    ensures Acyclic(services) && Complete(services)
  {
    forall p ensures !IsCycle(services, p) {
      if IsCycle(services, p) {
        assert Edge(services, p[0], p[1]);
        assert p[0] in Names(order);
        var k :| 0 <= k < |order| && order[k].name == p[0];
        PathDescends(services, order, p, k);
      }
    }
    forall a, b | Edge(services, a, b) ensures b in services {
      assert a in Names(order);
      var k :| 0 <= k < |order| && order[k].name == a;
      assert Provides(order, k, b);
      assert b in Names(order);
    }
  }
}
