/** Dependency graphs: plan tasks and work items both name the tasks they depend on. */
module Graph {

  /** Every known node with its list of dependencies. */
  type Graph = map<string, seq<string>>

  /** An unknown node has no dependencies, as looking up a missing map entry yields in the source. */
  function Deps(g: Graph, id: string): seq<string> {
    if id in g then g[id] else []
  }

  ghost predicate IsPath(g: Graph, p: seq<string>) {
    |p| >= 2 && forall i :: 0 <= i < |p| - 1 ==> p[i + 1] in Deps(g, p[i])
  }

  /** `b` can be reached from `a` over one or more dependency edges. */
  ghost predicate Reaches(g: Graph, a: string, b: string) {
    exists p :: IsPath(g, p) && p[0] == a && p[|p| - 1] == b
  }

  ghost predicate Cyclic(g: Graph) {
    exists a :: Reaches(g, a, a)
  }

  /** Every dependency names a node of the graph. */
  predicate Grounded(g: Graph) {
    forall a, d :: a in g && d in g[a] ==> d in g
  }

  lemma ReachesEdge(g: Graph, a: string, b: string)
    requires b in Deps(g, a)
    ensures Reaches(g, a, b)
  {
    assert IsPath(g, [a, b]);
  }

  lemma ReachesTransitive(g: Graph, a: string, b: string, c: string)
    requires Reaches(g, a, b) && Reaches(g, b, c)
    ensures Reaches(g, a, c)
  {
    var p :| IsPath(g, p) && p[0] == a && p[|p| - 1] == b;
    var q :| IsPath(g, q) && q[0] == b && q[|q| - 1] == c;
    var r := p + q[1..];
    forall i | 0 <= i < |r| - 1 ensures r[i + 1] in Deps(g, r[i]) {
      if i >= |p| - 1 {
        assert r[i] == q[i - (|p| - 1)] && r[i + 1] == q[i + 1 - (|p| - 1)];
      }
    }
    assert IsPath(g, r);
  }

  lemma ReachesViaEdge(g: Graph, a: string, d: string, b: string)
    requires d in Deps(g, a) && (d == b || Reaches(g, d, b))
    ensures Reaches(g, a, b)
  {
    ReachesEdge(g, a, d);
    if d != b {
      ReachesTransitive(g, a, d, b);
    }
  }

  /** The first edge of a path that witnesses reachability. */
  lemma FirstEdge(g: Graph, a: string, b: string) returns (d: string)
    requires Reaches(g, a, b)
    ensures d in Deps(g, a) && (d == b || Reaches(g, d, b))
  {
    var p :| IsPath(g, p) && p[0] == a && p[|p| - 1] == b;
    d := p[1];
    if |p| > 2 {
      assert IsPath(g, p[1..]);
    }
  }

  ghost predicate Closed(g: Graph, s: set<string>) {
    forall a, d :: a in s && d in Deps(g, a) ==> d in s
  }

  /** A set closed under dependencies contains everything its members reach. */
  lemma ClosedContains(g: Graph, s: set<string>, a: string, b: string)
    requires Closed(g, s) && a in s && Reaches(g, a, b)
    ensures b in s
  {
    var p :| IsPath(g, p) && p[0] == a && p[|p| - 1] == b;
    ClosedAlongPath(g, s, p, |p| - 1);
  }

  lemma {:induction false} ClosedAlongPath(g: Graph, s: set<string>, p: seq<string>, k: nat)
    requires Closed(g, s) && IsPath(g, p) && p[0] in s && k < |p|
    ensures p[k] in s
  {
    if k > 0 {
      ClosedAlongPath(g, s, p, k - 1);
    }
  }

  /** A graph whose edges all descend in some rank has no cycle. */
  lemma RankedIsAcyclic(g: Graph, rank: string -> int)
    requires forall a, d :: a in g && d in g[a] ==> rank(d) < rank(a)
    ensures !Cyclic(g)
  {
    forall a | Reaches(g, a, a) ensures false {
      var p :| IsPath(g, p) && p[0] == a && p[|p| - 1] == a;
      RankDescends(g, rank, p, |p| - 1);
    }
  }

  lemma {:induction false} RankDescends(g: Graph, rank: string -> int, p: seq<string>, k: nat)
    requires forall a, d :: a in g && d in g[a] ==> rank(d) < rank(a)
    requires IsPath(g, p) && 0 < k < |p|
    ensures rank(p[k]) < rank(p[0])
  {
    assert p[k - 1 + 1] in Deps(g, p[k - 1]);
    if k > 1 {
      RankDescends(g, rank, p, k - 1);
    }
  }

  ghost function Below(g: Graph, s: set<string>, x: string): set<string> {
    set z | z in s && Reaches(g, x, z)
  }

  /** In an acyclic graph, every non-empty set of nodes has a member none of whose dependencies is in the set. */
  lemma {:induction false} MinimalMember(g: Graph, s: set<string>, x: string) returns (m: string)
    requires !Cyclic(g) && x in s
    ensures m in s && forall d :: d in Deps(g, m) ==> d !in s
    decreases |Below(g, s, x)|
  {
    if exists d :: d in Deps(g, x) && d in s {
      var d :| d in Deps(g, x) && d in s;
      ReachesEdge(g, x, d);
      forall z | z in Below(g, s, d) ensures z in Below(g, s, x) {
        ReachesTransitive(g, x, d, z);
      }
      assert d in Below(g, s, x) && d !in Below(g, s, d);
      StrictSubsetIsSmaller(Below(g, s, d), Below(g, s, x));
      m := MinimalMember(g, s, d);
    } else {
      m := x;
    }
  }

  lemma StrictSubsetIsSmaller(a: set<string>, b: set<string>)
    requires a < b
    ensures |a| < |b|
  {
    assert b == a + (b - a);
    var x :| x in b - a;
    assert |b - a| > 0;
  }

  lemma SubPath(g: Graph, p: seq<string>, i: nat, j: nat)
    requires IsPath(g, p) && i < j < |p|
    ensures IsPath(g, p[i..j + 1]) && Reaches(g, p[i], p[j])
  {
    var q := p[i..j + 1];
    forall k | 0 <= k < |q| - 1 ensures q[k + 1] in Deps(g, q[k]) {
      assert q[k] == p[i + k] && q[k + 1] == p[i + k + 1];
    }
    assert q[|q| - 1] == p[j];
  }

  /** The graph without the edges that leave `a` or `b`. */
  function Severed(g: Graph, a: string, b: string): Graph {
    map x | x in g :: if x == a || x == b then [] else g[x]
  }

  lemma SeveredPath(g: Graph, a: string, b: string, p: seq<string>)
    requires IsPath(g, p) && forall i :: 0 <= i < |p| - 1 ==> p[i] != a && p[i] != b
    ensures IsPath(Severed(g, a, b), p)
  {
    forall i | 0 <= i < |p| - 1 ensures p[i + 1] in Deps(Severed(g, a, b), p[i]) {
      assert p[i + 1] in Deps(g, p[i]);
    }
  }

  /** `a` has an edge from which `b` is reached without leaving `a` or `b` again. */
  ghost predicate LeadsTo(g: Graph, a: string, b: string) {
    exists x :: x in Deps(g, a) && (x == b || Reaches(Severed(g, a, b), x, b))
  }

  lemma SeveredReaches(g: Graph, a: string, b: string, x: string, y: string)
    requires Reaches(Severed(g, a, b), x, y)
    ensures Reaches(g, x, y)
  {
    var p :| IsPath(Severed(g, a, b), p) && p[0] == x && p[|p| - 1] == y;
    forall i | 0 <= i < |p| - 1 ensures p[i + 1] in Deps(g, p[i]) {
      assert p[i + 1] in Deps(Severed(g, a, b), p[i]);
    }
    assert IsPath(g, p);
  }

  lemma DirectLeads(g: Graph, a: string, b: string, p: seq<string>)
    requires IsPath(g, p) && p[0] == a && p[|p| - 1] == b && forall i :: 0 < i < |p| - 1 ==> p[i] != a && p[i] != b
    ensures LeadsTo(g, a, b)
  {
    assert p[0 + 1] in Deps(g, p[0]);
    if |p| > 2 {
      SubPath(g, p, 1, |p| - 1);
      hide Reaches, Severed;
      SeveredPath(g, a, b, p[1..]);
      PathReaches(Severed(g, a, b), p[1..]);
    }
  }

  lemma PathReaches(g: Graph, p: seq<string>)
    requires IsPath(g, p)
    ensures Reaches(g, p[0], p[|p| - 1])
  {
  }

  /** A path between two nodes contains one that visits them only at its ends. */
  lemma {:induction false} PathLeads(g: Graph, a: string, b: string, p: seq<string>)
    requires a != b && IsPath(g, p) && p[0] == a && p[|p| - 1] == b
    ensures LeadsTo(g, a, b)
    decreases |p|
  {
    hide LeadsTo, Reaches;
    if i :| 0 < i < |p| - 1 && p[i] == a {
      SubPath(g, p, i, |p| - 1);
      hide IsPath;
      assert p[i..|p| - 1 + 1] == p[i..];
      PathLeads(g, a, b, p[i..]);
    } else if j :| 0 < j < |p| - 1 && p[j] == b {
      SubPath(g, p, 0, j);
      hide IsPath;
      assert p[0..j + 1] == p[..j + 1];
      PathLeads(g, a, b, p[..j + 1]);
    } else {
      DirectLeads(g, a, b, p);
    }
  }

  /** A cycle through a node contains one that visits it only at its ends. */
  lemma {:induction false} CycleLeads(g: Graph, a: string, p: seq<string>)
    requires IsPath(g, p) && p[0] == a && p[|p| - 1] == a
    ensures LeadsTo(g, a, a)
    decreases |p|
  {
    hide LeadsTo, Reaches;
    if i :| 0 < i < |p| - 1 && p[i] == a {
      SubPath(g, p, 0, i);
      hide IsPath;
      assert p[0..i + 1] == p[..i + 1];
      CycleLeads(g, a, p[..i + 1]);
    } else {
      DirectLeads(g, a, a, p);
    }
  }

  /** When without the edges of `a` there is no cycle, there is one exactly when `a` leads back to itself. */
  lemma OneChange(g: Graph, before: Graph, a: string)
    requires !Cyclic(before) && forall x :: x != a ==> Deps(before, x) == Deps(g, x)
    ensures Cyclic(g) <==> LeadsTo(g, a, a)
  {
    if Cyclic(g) {
      var c :| Reaches(g, c, c);
      var p :| IsPath(g, p) && p[0] == c && p[|p| - 1] == c;
      hide LeadsTo;
      var i := CycleVisits(g, before, a, p);
      AroundCycle(g, p, i, i);
      var q :| IsPath(g, q) && q[0] == a && q[|q| - 1] == a;
      CycleLeads(g, a, q);
    }
    if LeadsTo(g, a, a) {
      var x :| x in Deps(g, a) && (x == a || Reaches(Severed(g, a, a), x, a));
      if x != a {
        SeveredReaches(g, a, a, x, a);
      }
      ReachesViaEdge(g, a, x, a);
    }
  }

  lemma LeadsToExactly(g: Graph, a: string, b: string)
    requires a != b
    ensures LeadsTo(g, a, b) <==> Reaches(g, a, b)
  {
    if Reaches(g, a, b) {
      var p :| IsPath(g, p) && p[0] == a && p[|p| - 1] == b;
      PathLeads(g, a, b, p);
    }
    if LeadsTo(g, a, b) {
      var x :| x in Deps(g, a) && (x == b || Reaches(Severed(g, a, b), x, b));
      if x != b {
        SeveredReaches(g, a, b, x, b);
      }
      ReachesViaEdge(g, a, x, b);
    }
  }

  lemma PathAvoids(g: Graph, h: Graph, a: string, p: seq<string>)
    requires IsPath(g, p) && (forall x :: x != a ==> Deps(h, x) == Deps(g, x)) && forall k :: 0 <= k < |p| - 1 ==> p[k] != a
    ensures Reaches(h, p[0], p[|p| - 1])
  {
    forall k | 0 <= k < |p| - 1 ensures p[k + 1] in Deps(h, p[k]) {
    }
    assert IsPath(h, p);
  }

  /** A cycle of `g` that no graph without `a`'s edges has goes through `a`. */
  lemma CycleVisits(g: Graph, h: Graph, a: string, p: seq<string>) returns (i: nat)
    requires IsPath(g, p) && p[0] == p[|p| - 1] && !Cyclic(h) && forall x :: x != a ==> Deps(h, x) == Deps(g, x)
    ensures i < |p| - 1 && p[i] == a
  {
    if forall k :: 0 <= k < |p| - 1 ==> p[k] != a {
      PathAvoids(g, h, a, p);
    }
    i :| 0 <= i < |p| - 1 && p[i] == a;
  }

  lemma AroundCycle(g: Graph, p: seq<string>, i: nat, j: nat)
    requires IsPath(g, p) && p[0] == p[|p| - 1] && i < |p| - 1 && j < |p| - 1
    ensures Reaches(g, p[i], p[j])
  {
    SubPath(g, p, i, |p| - 1);
    if j > 0 {
      SubPath(g, p, 0, j);
      ReachesTransitive(g, p[i], p[0], p[j]);
    }
  }

  /**
   * When changing the edges of `a` alone, or of `b` alone, leaves no cycle, changing both does
   * exactly when each then leads to the other.
   */
  lemma TwoChanges(g: Graph, onlyA: Graph, onlyB: Graph, a: string, b: string)
    requires a != b && !Cyclic(onlyA) && !Cyclic(onlyB)
    requires (forall x :: x != b ==> Deps(onlyA, x) == Deps(g, x)) && (forall x :: x != a ==> Deps(onlyB, x) == Deps(g, x))
    ensures Cyclic(g) <==> LeadsTo(g, a, b) && LeadsTo(g, b, a)
  {
    LeadsToExactly(g, a, b);
    LeadsToExactly(g, b, a);
    hide LeadsTo;
    if Reaches(g, a, b) && Reaches(g, b, a) {
      ReachesTransitive(g, a, b, a);
    }
    if Cyclic(g) {
      var c :| Reaches(g, c, c);
      var p :| IsPath(g, p) && p[0] == c && p[|p| - 1] == c;
      var i := CycleVisits(g, onlyB, a, p);
      var j := CycleVisits(g, onlyA, b, p);
      AroundCycle(g, p, i, j);
      AroundCycle(g, p, j, i);
    }
  }

  lemma SeveredWithin(g: Graph, h: Graph, a: string, b: string, x: string, y: string)
    requires Reaches(Severed(g, b, a), x, y) && forall z :: z != a ==> Deps(h, z) == Deps(g, z)
    ensures Reaches(h, x, y)
  {
    var p :| IsPath(Severed(g, b, a), p) && p[0] == x && p[|p| - 1] == y;
    forall i | 0 <= i < |p| - 1 ensures p[i + 1] in Deps(h, p[i]) {
      assert p[i + 1] in Deps(Severed(g, b, a), p[i]);
    }
    assert IsPath(h, p);
  }

  /** Giving `a` other edges closes a cycle exactly when one of them goes to `a` or to what already reached it. */
  lemma NewEdges(g: Graph, h: Graph, a: string)
    requires !Cyclic(g) && forall x :: x != a ==> Deps(h, x) == Deps(g, x)
    ensures Cyclic(h) <==> exists d :: d in Deps(h, a) && (d == a || Reaches(g, d, a))
  {
    OneChange(h, g, a);
    if LeadsTo(h, a, a) {
      var d :| d in Deps(h, a) && (d == a || Reaches(Severed(h, a, a), d, a));
      if d != a {
        SeveredWithin(h, g, a, a, d, a);
      }
    }
    if d :| d in Deps(h, a) && (d == a || Reaches(g, d, a)) {
      if d != a {
        StillReaches(g, h, d, a);
      }
      ReachesViaEdge(h, a, d, a);
    }
  }

  /** What reached `a` does so without `a`'s own edges. */
  lemma StillReaches(g: Graph, h: Graph, d: string, a: string)
    requires d != a && Reaches(g, d, a) && forall x :: x != a ==> Deps(h, x) == Deps(g, x)
    ensures Reaches(h, d, a)
  {
    LeadsToExactly(g, d, a);
    var x :| x in Deps(g, d) && (x == a || Reaches(Severed(g, d, a), x, a));
    if x != a {
      SeveredWithin(g, h, a, d, x, a);
    }
    ReachesViaEdge(h, d, x, a);
  }
}
