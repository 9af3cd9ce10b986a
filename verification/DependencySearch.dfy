/** The depth-first searches that plan validation and work-item updates run over dependency graphs. */
module DependencySearch {
  import opened Graph

  datatype Verdict = Clean | Cycle | Unknown(id: string)

  /** Visited nodes are closed under dependencies and none of them lies on a cycle. */
  ghost predicate Settled(g: Graph, visited: set<string>, strict: bool) {
    && Closed(g, visited)
    && (forall v :: v in visited ==> !Reaches(g, v, v))
    && (strict ==> visited <= g.Keys)
  }

  ghost predicate AllReach(g: Graph, stack: set<string>, id: string) {
    forall v :: v in stack ==> Reaches(g, v, id)
  }

  lemma StackReachesDependency(g: Graph, stack: set<string>, id: string, d: string)
    requires AllReach(g, stack, id) && d in Deps(g, id)
    ensures AllReach(g, stack + {id}, d)
  {
    ReachesEdge(g, id, d);
    forall v | v in stack ensures Reaches(g, v, d) {
      ReachesTransitive(g, v, id, d);
    }
  }

  /** A node whose dependencies are all settled can be settled too. */
  lemma Settle(g: Graph, visited: set<string>, strict: bool, id: string)
    requires Settled(g, visited, strict) && id !in visited && (strict ==> id in g)
    requires forall d :: d in Deps(g, id) ==> d in visited
    ensures Settled(g, visited + {id}, strict)
  {
    if Reaches(g, id, id) {
      var d := FirstEdge(g, id, id);
      if d != id {
        ClosedContains(g, visited, d, id);
      }
      assert false;
    }
  }

  lemma MissingBelow(g: Graph, id: string, d: string, missing: string)
    requires d in Deps(g, id) && (missing == d || Reaches(g, d, missing))
    ensures Reaches(g, id, missing)
  {
    ReachesViaEdge(g, id, d, missing);
  }

  /**
   * The marks one depth-first cycle check keeps. Plan validation is strict: a dependency
   * nobody declares is an error. The work-item check treats it as a node without dependencies.
   */
  class CycleCheck {
    const g: Graph
    const strict: bool
    var visiting: set<string>
    var visited: set<string>

    ghost predicate Valid()
      reads this
    {
      visiting !! visited && Settled(g, visited, strict)
    }

    constructor (g: Graph, strict: bool)
      ensures Valid() && visiting == {} && visited == {}
      ensures this.g == g && this.strict == strict
    {
      this.g, this.strict := g, strict;
      visiting, visited := {}, {};
    }

    /** `universe` bounds the search: it holds the graph's nodes and every dependency they name. */
    method Visit(id: string, ghost universe: set<string>) returns (r: Verdict)
      requires Valid() && Closed(g, universe) && id in universe && visiting <= universe
      requires AllReach(g, visiting, id)
      modifies this
      ensures r.Clean? ==> Valid() && id in visited && visiting == old(visiting) && old(visited) <= visited
      ensures r.Clean? ==> visited <= old(visited) + universe
      ensures r.Cycle? ==> Cyclic(g)
      ensures r.Unknown? ==> strict && r.id !in g && (r.id == id || Reaches(g, id, r.id))
      decreases |universe - visiting|
    {
      hide Reaches;
      if id in visiting {
        return Cycle;
      }
      if id in visited {
        return Clean;
      }
      if strict && id !in g {
        return Unknown(id);
      }
      ghost var outer := visiting;
      StrictSubsetIsSmaller(universe - (outer + {id}), universe - outer);
      visiting := visiting + {id};
      var deps := Deps(g, id);
      for k := 0 to |deps|
        invariant Valid() && visiting == outer + {id} && old(visited) <= visited
        invariant visited <= old(visited) + universe
        invariant forall j :: 0 <= j < k ==> deps[j] in visited
      {
        StackReachesDependency(g, outer, id, deps[k]);
        r := Visit(deps[k], universe);
        if !r.Clean? {
          if r.Unknown? {
            MissingBelow(g, id, deps[k], r.id);
          }
          return;
        }
      }
      Settle(g, visited, strict, id);
      visiting := visiting - {id};
      visited := visited + {id};
      r := Clean;
    }
  }

  ghost function Universe(g: Graph): set<string> {
    g.Keys + set a, d | a in g && d in g[a] :: d
  }

  lemma UniverseIsClosed(g: Graph)
    ensures Closed(g, Universe(g)) && g.Keys <= Universe(g)
  {
  }

  /** Only nodes of the graph can lie on a cycle. */
  lemma CycleStartsAtKey(g: Graph, a: string)
    requires Reaches(g, a, a)
    ensures a in g
  {
    var d := FirstEdge(g, a, a);
  }

  /** What a reachable unknown node says about the graph: some dependency is not declared. */
  lemma ReachedUnknown(g: Graph, a: string, u: string)
    requires a in g && Reaches(g, a, u) && u !in g
    ensures !Grounded(g)
  {
    if Grounded(g) {
      assert Closed(g, g.Keys);
      ClosedContains(g, g.Keys, a, u);
    }
  }

  /** Visits the nodes in an arbitrary order, as ranging over a map does. */
  method Check(g: Graph, strict: bool) returns (r: Verdict)
    ensures r.Clean? <==> !Cyclic(g) && (strict ==> Grounded(g))
    ensures r.Cycle? ==> Cyclic(g)
    ensures r.Unknown? ==> strict && r.id !in g && !Grounded(g)
  {
    var search := new CycleCheck(g, strict);
    var todo := g.Keys;
    ghost var universe := Universe(g);
    UniverseIsClosed(g);
    while todo != {}
      invariant search.Valid() && search.g == g && search.strict == strict
      invariant search.visiting == {} && todo <= g.Keys
      invariant g.Keys - todo <= search.visited
      decreases todo
    {
      var id :| id in todo;
      r := search.Visit(id, universe);
      if !r.Clean? {
        if r.Unknown? {
          ReachedUnknown(g, id, r.id);
        }
        return;
      }
      todo := todo - {id};
    }
    forall a | Reaches(g, a, a) ensures false {
      CycleStartsAtKey(g, a);
    }
    if strict {
      forall a, d | a in g && d in g[a] ensures d in g {
        assert d in Deps(g, a) && a in search.visited;
      }
    }
    r := Clean;
  }

  /** Work items: true exactly when some item depends, directly or not, on itself. */
  method HasCycle(tasks: Graph) returns (cycle: bool)
    ensures cycle <==> Cyclic(tasks)
  {
    var verdict := Check(tasks, false);
    cycle := verdict.Cycle?;
  }

  /**
   * The memo behind the plan's ordering rules. A pair is marked checked before its
   * dependencies are searched, so on a cyclic graph a recursive lookup could read a premature "no".
   */
  class AncestorMemo {
    const g: Graph
    var checked: set<(string, string)>
    var reachable: set<(string, string)>

    /** Every pair that is not still being searched carries its final answer. */
    ghost predicate Valid(open: set<string>, target: string)
      reads this
    {
      && reachable <= checked
      && forall a, b :: (a, b) in checked && !(a in open && b == target) ==> ((a, b) in reachable <==> Reaches(g, a, b))
    }

    constructor (g: Graph)
      ensures this.g == g && checked == {} && reachable == {}
    {
      this.g := g;
      checked, reachable := {}, {};
    }

    /** `open` holds the ids whose own search is waiting for this one. */
    method Ancestor(id: string, target: string, ghost open: set<string>, ghost pairs: set<(string, string)>)
      returns (r: bool)
      requires !Cyclic(g) && Valid(open, target)
      requires AllReach(g, open, id)
      requires checked <= pairs && (id, target) in pairs
      requires forall a, d :: (a, target) in pairs && d in Deps(g, a) ==> (d, target) in pairs
      modifies this
      ensures r <==> Reaches(g, id, target)
      ensures Valid(open, target) && old(checked) <= checked <= pairs
      ensures forall v :: v in open ==> ((v, target) in reachable <==> (v, target) in old(reachable))
      decreases |pairs - checked|
    {
      hide Reaches, Closed;
      assert id !in open;
      var key := (id, target);
      if key in checked {
        return key in reachable;
      }
      FewerPairs(pairs, checked, key);
      checked := checked + {key};
      var deps := Deps(g, id);
      for k := 0 to |deps|
        invariant Valid(open + {id}, target) && old(checked) + {key} <= checked <= pairs
        invariant key !in reachable
        invariant forall v :: v in open ==> ((v, target) in reachable <==> (v, target) in old(reachable))
        invariant forall j :: 0 <= j < k ==> deps[j] != target && !Reaches(g, deps[j], target)
      {
        var found := deps[k] == target;
        if !found {
          StackReachesDependency(g, open, id, deps[k]);
          MorePairsLeft(pairs, old(checked) + {key}, checked);
          found := Ancestor(deps[k], target, open + {id}, pairs);
        }
        if found {
          ReachesViaEdge(g, id, deps[k], target);
          reachable := reachable + {key};
          return true;
        }
      }
      if Reaches(g, id, target) {
        var d := FirstEdge(g, id, target);
        assert false;
      }
      r := false;
    }
  }

  lemma FewerPairs(pairs: set<(string, string)>, checked: set<(string, string)>, key: (string, string))
    requires key in pairs && key !in checked
    ensures |pairs - (checked + {key})| < |pairs - checked|
  {
    assert pairs - checked == (pairs - (checked + {key})) + {key};
  }

  lemma MorePairsLeft(pairs: set<(string, string)>, less: set<(string, string)>, more: set<(string, string)>)
    requires less <= more
    ensures |pairs - more| <= |pairs - less|
  {
    var gone := (pairs - less) - (pairs - more);
    assert pairs - less == (pairs - more) + gone;
  }
}
