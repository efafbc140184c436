/**
  The dependency graph of phases and the depth-first search for a phase's closure. A graph maps each
  known phase to the phases it depends on, some of which may be unknown.
*/
module PhaseGraph {
  import opened Prelude

  type Id = string
  type Graph = map<Id, seq<Id>>

  // ----- reachability -------------------------------------------------------------------------

  /** One or more dependency steps, each from a known phase. */
  ghost predicate Path(g: Graph, p: seq<Id>) {
    |p| >= 2 && forall i | 0 <= i < |p| - 1 :: p[i] in g && p[i + 1] in g[p[i]]
  }

  ghost predicate Connects(g: Graph, p: seq<Id>, a: Id, b: Id) {
    Path(g, p) && p[0] == a && p[|p| - 1] == b
  }

  ghost predicate Reach(g: Graph, a: Id, b: Id) {
    exists p :: Connects(g, p, a, b)
  }

  lemma ReachEdge(g: Graph, a: Id, b: Id)
    requires a in g && b in g[a]
    ensures Reach(g, a, b)
  {
    assert Connects(g, [a, b], a, b);
  }

  lemma ReachTrans(g: Graph, a: Id, b: Id, c: Id)
    requires Reach(g, a, b) && Reach(g, b, c)
    ensures Reach(g, a, c)
  {
    var p :| Connects(g, p, a, b);
    var q :| Connects(g, q, b, c);
    var r := p + q[1..];
    forall i | 0 <= i < |r| - 1
      ensures r[i] in g && r[i + 1] in g[r[i]]
    {
      if i < |p| - 1 {
        assert r[i] == p[i] && r[i + 1] == p[i + 1];
      } else {
        assert r[i] == q[i - |p| + 1] && r[i + 1] == q[i - |p| + 2];
      }
    }
    assert Connects(g, r, a, c);
  }

  /** A path is one step, or a first step and a path on. */
  lemma FirstStep(g: Graph, a: Id, b: Id) returns (next: Id)
    requires Reach(g, a, b)
    ensures a in g && next in g[a] && (next == b || Reach(g, next, b))
  {
    var p :| Connects(g, p, a, b);
    next := p[1];
    if |p| > 2 {
      forall i | 0 <= i < |p[1..]| - 1
        ensures p[1..][i] in g && p[1..][i + 1] in g[p[1..][i]]
      {
        assert p[1..][i] == p[i + 1] && p[1..][i + 1] == p[i + 2];
      }
      assert Connects(g, p[1..], next, b);
    }
  }

  /** Every dependency of the phase is in the set. */
  predicate DependsWithin(g: Graph, a: Id, s: set<Id>) {
    a in g && forall d | d in g[a] :: d in s
  }

  predicate Closed(g: Graph, s: set<Id>) {
    forall v | v in s :: DependsWithin(g, v, s)
  }

  lemma {:induction false} PathWithin(g: Graph, s: set<Id>, p: seq<Id>, i: nat)
    requires Closed(g, s) && Path(g, p) && DependsWithin(g, p[0], s) && 0 < i < |p|
    ensures p[i] in s
  {
    if i > 1 {
      PathWithin(g, s, p, i - 1);
      assert DependsWithin(g, p[i - 1], s);
    }
  }

  lemma ReachWithin(g: Graph, s: set<Id>, a: Id, b: Id)
    requires Closed(g, s) && DependsWithin(g, a, s) && Reach(g, a, b)
    ensures b in s
  {
    var p :| Connects(g, p, a, b);
    PathWithin(g, s, p, |p| - 1);
  }

  // ----- what the search is for -----------------------------------------------------------------

  /** A phase on a cycle, or one that depends on an unknown phase. */
  ghost predicate Faulty(g: Graph, x: Id) {
    x in g && (Reach(g, x, x) || exists d | d in g[x] :: d !in g)
  }

  ghost predicate Problem(g: Graph, a: Id) {
    Faulty(g, a) || exists x :: Reach(g, a, x) && Faulty(g, x)
  }

  lemma ProblemBelow(g: Graph, a: Id, d: Id)
    requires a in g && d in g[a] && Problem(g, d)
    ensures Problem(g, a)
  {
    ReachEdge(g, a, d);
    if !Faulty(g, d) {
      var x :| Reach(g, d, x) && Faulty(g, x);
      ReachTrans(g, a, d, x);
    }
  }

  datatype Fault = Cycle(at: Id) | Unknown(dependency: Id)

  /** A set the search is done with: closed under dependencies and free of cycles. */
  ghost predicate Settled(g: Graph, s: set<Id>) {
    Closed(g, s) && forall v | v in s :: !Reach(g, v, v)
  }

  lemma SettleOne(g: Graph, s: set<Id>, d: Id)
    requires Settled(g, s) && DependsWithin(g, d, s) && d !in s
    ensures Settled(g, s + {d})
  {
    if Reach(g, d, d) {
      ReachWithin(g, s, d, d);
    }
  }

  lemma SmallerRest(g: Graph, ancestors: set<Id>, id: Id)
    requires id in g && id !in ancestors
    ensures |g.Keys - (ancestors + {id})| < |g.Keys - ancestors|
  {
    assert g.Keys - (ancestors + {id}) == (g.Keys - ancestors) - {id};
  }

  /** The search, with the set of finished phases its nested visits share. */
  class Search {
    const graph: Graph
    var visited: set<Id>

    constructor (graph: Graph)
      ensures this.graph == graph && visited == {}
    {
      this.graph := graph;
      visited := {};
    }

    method Visit(id: Id, ancestors: set<Id>) returns (fault: Option<Fault>)
      requires id in graph && id !in visited && ancestors <= graph.Keys
      requires Settled(graph, visited) && ancestors !! visited
      requires forall a | a in ancestors :: Reach(graph, a, id)
      modifies this
      ensures fault.Some? ==> Problem(graph, id)
      ensures fault.None? ==> id !in ancestors && DependsWithin(graph, id, visited)
      ensures fault.None? ==> Grown(graph, id, ancestors + {id}, old(visited), visited)
      decreases |graph.Keys - ancestors|
    {
      if id in ancestors { return Some(Cycle(id)); }
      var dependencies, above := graph[id], ancestors + {id};
      SmallerRest(graph, ancestors, id);
      ghost var start := visited;
      var i := 0;
      while i < |dependencies|
        invariant 0 <= i <= |dependencies| && Grown(graph, id, above, start, visited)
        invariant FirstWithin(dependencies, i, visited)
      {
        var d := dependencies[i];
        if d !in graph { return Some(Unknown(d)); }
        if d !in visited {
          ReachAll(graph, ancestors, id, d);
          ghost var before := visited;
          fault := Visit(d, above);
          if fault.Some? {
            ProblemBelow(graph, id, d);
            return;
          }
          GrownBelow(graph, id, d, above, start, before, visited);
          FirstWithinMore(dependencies, i, before, visited + {d});
          visited := visited + {d};
        }
        i := i + 1;
      }
      fault := None;
    }
  }

  /** The finished phases after part of a visit: more than at its start, settled, none of them above the
      visit, and the new ones reachable from it. */
  ghost predicate Grown(g: Graph, id: Id, above: set<Id>, start: set<Id>, visited: set<Id>) {
    && start <= visited && Settled(g, visited) && above !! visited
    && forall v | v in visited :: v in start || Reach(g, id, v)
  }

  predicate FirstWithin(dependencies: seq<Id>, n: nat, visited: set<Id>)
    requires n <= |dependencies|
  {
    forall k | 0 <= k < n :: dependencies[k] in visited
  }

  lemma FirstWithinMore(dependencies: seq<Id>, n: nat, before: set<Id>, after: set<Id>)
    requires n < |dependencies| && FirstWithin(dependencies, n, before) && before <= after && dependencies[n] in after
    ensures FirstWithin(dependencies, n + 1, after)
  {
  }

  lemma GrownBelow(g: Graph, id: Id, d: Id, above: set<Id>, start: set<Id>, before: set<Id>, visited: set<Id>)
    requires id in g && d in g[id] && d !in above
    requires Grown(g, id, above, start, before)
    requires Grown(g, d, above + {d}, before, visited) && DependsWithin(g, d, visited)
    ensures Grown(g, id, above, start, visited + {d})
  {
    ReachEdge(g, id, d);
    SettleOne(g, visited, d);
    forall v | v in visited
      ensures v in start || Reach(g, id, v)
    {
      if v !in before { ReachTrans(g, id, d, v); }
    }
  }

  lemma ReachAll(g: Graph, ancestors: set<Id>, id: Id, d: Id)
    requires id in g && d in g[id] && forall a | a in ancestors :: Reach(g, a, id)
    ensures forall a | a in ancestors + {id} :: Reach(g, a, d)
  {
    ReachEdge(g, id, d);
    forall a | a in ancestors
      ensures Reach(g, a, d)
    {
      ReachTrans(g, a, id, d);
    }
  }

  lemma SettledIsExact(g: Graph, id: Id, s: set<Id>)
    requires id in g && Settled(g, s) && DependsWithin(g, id, s) && id !in s
    requires forall v | v in s :: Reach(g, id, v)
    ensures !Problem(g, id)
    ensures forall v :: v in s <==> Reach(g, id, v)
  {
    forall v | Reach(g, id, v)
      ensures v in s
    {
      ReachWithin(g, s, id, v);
    }
    assert forall v | v in s :: DependsWithin(g, v, s);
  }

  /** The closure is refused exactly when a cycle or an unknown phase can be reached, and is otherwise
      exactly the phases reachable in one or more steps. */
  method DependencyClosure(graph: Graph, id: Id) returns (r: Result<set<Id>, Fault>)
    requires id in graph
    ensures r.Err? <==> Problem(graph, id)
    ensures r.Ok? ==> forall v :: v in r.value <==> Reach(graph, id, v)
  {
    var search := new Search(graph);
    var fault := search.Visit(id, {});
    if fault.Some? {
      r := Err(fault.value);
    } else {
      SettledIsExact(graph, id, search.visited);
      r := Ok(search.visited);
    }
  }
}
