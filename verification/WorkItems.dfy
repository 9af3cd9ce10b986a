/**
 * Work items and their dependencies: every writer of the task graph, and what all of them
 * together keep (internal/app/release.go, internal/app/ai.go, internal/store/store.go, internal/store/planning.go).
 */
module WorkItems {
  import opened Graph
  import opened DependencySearch

  datatype Status = Todo | InProgress | Done

  datatype Item = Item(requirement: string, title: string, status: Status, dependsOn: seq<string>)

  type Items = map<string, Item>

  datatype Suggestion = Suggestion(title: string, dependsOn: seq<string>)

  datatype Edit = Edit(title: string, status: Status, dependsOn: seq<string>)

  datatype Op =
    | Create(id: string, requirement: string, title: string)
    | Update(id: string, edit: Edit, stopped: bool)
    | Link(id: string)
    | Delete(id: string, stopped: bool)
    | ApplyPlan(requirement: string, listed: seq<string>, suggestions: seq<Suggestion>, ids: seq<string>, revisionOk: bool)

  function GraphOf(items: Items): Graph {
    map id | id in items :: items[id].dependsOn
  }

  // ---------- what every writer keeps ----------

  predicate Local(items: Items) {
    forall id, d :: id in items && d in items[id].dependsOn ==> d in items && items[d].requirement == items[id].requirement
  }

  /** A finished item's prerequisites are finished. */
  predicate DoneClosed(items: Items) {
    forall id, d :: id in items && items[id].status.Done? && d in items[id].dependsOn ==> d in items && items[d].status.Done?
  }

  ghost predicate Sound(items: Items) {
    Local(items) && DoneClosed(items) && !Cyclic(GraphOf(items))
  }

  /** Everything a finished item depends on, directly or not, exists and is finished. */
  lemma DoneAllTheWay(items: Items, id: string, d: string)
    requires Sound(items) && id in items && items[id].status.Done? && Reaches(GraphOf(items), id, d)
    ensures d in items && items[d].status.Done?
  {
    var finished := set x | x in items && items[x].status.Done?;
    ClosedContains(GraphOf(items), finished, id, d);
  }

  // ---------- the writers ----------

  function Within(items: Items, requirement: string): Items {
    map id | id in items && items[id].requirement == requirement :: items[id]
  }

  /** Blank and repeated ids are dropped; the rest keep their order. */
  function Normalized(deps: seq<string>): (r: seq<string>)
    ensures forall d :: d in r <==> d in deps && d != ""
  {
    if deps == [] then []
    else
      var front, last := Normalized(deps[..|deps| - 1]), deps[|deps| - 1];
      if last == "" || last in front then front else front + [last]
  }

  /** Every named dependency is another item of the same requirement. */
  predicate DepsAllowed(items: Items, id: string, deps: seq<string>)
    requires id in items
  {
    forall d :: d in deps && d != "" ==> d != id && d in items && items[d].requirement == items[id].requirement
  }

  predicate PrerequisitesDone(items: Items, deps: seq<string>, status: Status) {
    !status.Todo? ==> forall d :: d in deps && d != "" ==> d in items && items[d].status.Done?
  }

  /** Nobody who has started depends on an item that is no longer done. */
  predicate MayReopen(items: Items, id: string, status: Status)
    requires id in items
  {
    items[id].status.Done? && !status.Done? ==>
      forall x :: x in items && items[x].requirement == items[id].requirement && !items[x].status.Todo? ==> id !in items[x].dependsOn
  }

  function WithDeps(items: Items, id: string, deps: seq<string>): Items
    requires id in items
  {
    Within(items, items[id].requirement)[id := items[id].(dependsOn := Normalized(deps))]
  }

  ghost predicate MayUpdate(items: Items, id: string, e: Edit, stopped: bool) {
    && id in items && DepsAllowed(items, id, e.dependsOn)
    && !Cyclic(GraphOf(WithDeps(items, id, e.dependsOn)))
    && PrerequisitesDone(items, e.dependsOn, e.status)
    && MayReopen(items, id, e.status)
    && (e.status.Done? ==> stopped)
  }

  function Updated(items: Items, id: string, e: Edit): Items
    requires id in items
  {
    items[id := Item(items[id].requirement, e.title, e.status, Normalized(e.dependsOn))]
  }

  /** What linking makes of the row it read. */
  function LinkedRow(row: Item): Item {
    row.(status := if row.status.Todo? then InProgress else row.status)
  }

  function Linked(items: Items, id: string): Items
    requires id in items
  {
    items[id := LinkedRow(items[id])]
  }

  function Without(deps: seq<string>, id: string): (r: seq<string>)
    ensures forall d :: d in r <==> d in deps && d != id
  {
    if deps == [] then []
    else Without(deps[..|deps| - 1], id) + if deps[|deps| - 1] == id then [] else [deps[|deps| - 1]]
  }

  /** Deleting an item cascades to the edges from and to it. */
  function Deleted(items: Items, id: string): Items {
    map x | x in items && x != id :: items[x].(dependsOn := Without(items[x].dependsOn, id))
  }

  predicate Distinct(s: seq<string>) {
    forall i, j :: 0 <= i < j < |s| ==> s[i] != s[j]
  }

  /** Ids by normalised title; the last listed item of a title wins. */
  function TitleIds(norm: string -> string, items: Items, listed: seq<string>): map<string, string> {
    if listed == [] then map[]
    else
      var id := listed[|listed| - 1];
      var rest := TitleIds(norm, items, listed[..|listed| - 1]);
      if id in items then rest[norm(items[id].title) := id] else rest
  }

  predicate Resolvable(norm: string -> string, titles: map<string, string>, s: Suggestion) {
    && norm(s.title) !in titles
    && (forall d :: d in s.dependsOn ==> norm(d) in titles)
  }

  function ResolvedIds(norm: string -> string, titles: map<string, string>, deps: seq<string>): (r: seq<string>)
    requires forall d :: d in deps ==> norm(d) in titles
    ensures |r| == |deps| && forall k :: 0 <= k < |deps| ==> r[k] == titles[norm(deps[k])]
  {
    seq(|deps|, k requires 0 <= k < |deps| => titles[norm(deps[k])])
  }

  datatype Planned = Conflict | Plan(items: Items)

  /** The title index after the first `n` suggestions. */
  function TitlesAt(norm: string -> string, titles: map<string, string>, suggestions: seq<Suggestion>, ids: seq<string>, n: nat): map<string, string>
    requires n <= |suggestions| == |ids|
  {
    if n == 0 then titles
    else TitlesAt(norm, titles, suggestions, ids, n - 1)[norm(suggestions[n - 1].title) := ids[n - 1]]
  }

  /** Plants the first `n` suggestions, each depending on items that exist by then; any failure leaves nothing. */
  function Planting(norm: string -> string, items: Items, requirement: string, titles: map<string, string>, suggestions: seq<Suggestion>, ids: seq<string>, n: nat): Planned
    requires n <= |suggestions| == |ids|
  {
    if n == 0 then Plan(items)
    else
      match Planting(norm, items, requirement, titles, suggestions, ids, n - 1)
      case Conflict => Conflict
      case Plan(items') => PlantedOne(norm, items', requirement, TitlesAt(norm, titles, suggestions, ids, n - 1), suggestions[n - 1], ids[n - 1])
  }

  function PlantedOne(norm: string -> string, items: Items, requirement: string, titles: map<string, string>, s: Suggestion, id: string): Planned {
    if !Resolvable(norm, titles, s) || id in items then Conflict
    else
      var deps := ResolvedIds(norm, titles, s.dependsOn);
      if Distinct(deps) then Plan(items[id := Item(requirement, s.title, Todo, deps)]) else Conflict
  }

  /** The list of a requirement's items an application reads first. */
  ghost predicate Lists(items: Items, requirement: string, listed: seq<string>) {
    forall id :: id in listed <==> id in items && items[id].requirement == requirement
  }

  /** One call of one writer, as it leaves the table. */
  ghost function Step(norm: string -> string, items: Items, op: Op): Items {
    match op
    case Create(id, requirement, title) => if id in items then items else items[id := Item(requirement, title, Todo, [])]
    case Update(id, e, stopped) => if MayUpdate(items, id, e, stopped) then Updated(items, id, e) else items
    case Link(id) => if id in items then Linked(items, id) else items
    case Delete(id, stopped) => if stopped then Deleted(items, id) else items
    case ApplyPlan(requirement, listed, suggestions, ids, revisionOk) =>
      if !revisionOk || |ids| != |suggestions| || !Lists(items, requirement, listed) then items
      else
        match Planting(norm, items, requirement, TitleIds(norm, items, listed), suggestions, ids, |ids|)
        case Conflict => items
        case Plan(planted) => planted
  }

  // ---------- cycles ----------

  /** Paths from a closed set on which two graphs agree exist in both. */
  lemma PathsTransfer(g: Graph, h: Graph, s: set<string>, a: string, b: string)
    requires Closed(g, s) && a in s && (forall x :: x in s ==> Deps(g, x) == Deps(h, x)) && Reaches(g, a, b)
    ensures Reaches(h, a, b)
  {
    var p :| IsPath(g, p) && p[0] == a && p[|p| - 1] == b;
    forall i | 0 <= i < |p| - 1 ensures p[i + 1] in Deps(h, p[i]) {
      ClosedAlongPath(g, s, p, i);
    }
    assert IsPath(h, p);
  }

  lemma FewerEdges(g: Graph, h: Graph)
    requires !Cyclic(g) && forall x, d :: d in Deps(h, x) ==> d in Deps(g, x)
    ensures !Cyclic(h)
  {
    forall a | Reaches(h, a, a) ensures false {
      var p :| IsPath(h, p) && p[0] == a && p[|p| - 1] == a;
      forall i | 0 <= i < |p| - 1 ensures p[i + 1] in Deps(g, p[i]) {
        assert p[i + 1] in Deps(h, p[i]);
      }
      assert IsPath(g, p);
      assert Reaches(g, a, a);
    }
  }

  ghost function Ids(items: Items, requirement: string): set<string> {
    set id | id in items && items[id].requirement == requirement
  }

  lemma UpdateKeepsLocal(items: Items, id: string, e: Edit)
    requires Local(items) && id in items && DepsAllowed(items, id, e.dependsOn)
    ensures Local(Updated(items, id, e))
  {
  }

  /** A cycle after an update would lie within one requirement, where the check or the old graph rules it out. */
  lemma UpdateKeepsAcyclic(items: Items, id: string, e: Edit)
    requires Local(items) && !Cyclic(GraphOf(items)) && id in items && DepsAllowed(items, id, e.dependsOn)
    requires !Cyclic(GraphOf(WithDeps(items, id, e.dependsOn)))
    ensures !Cyclic(GraphOf(Updated(items, id, e)))
  {
    var next := Updated(items, id, e);
    var g := GraphOf(next);
    UpdateKeepsLocal(items, id, e);
    hide Normalized, Reaches;
    forall a | Reaches(g, a, a) ensures false {
      var d := FirstEdge(g, a, a);
      var requirement := next[a].requirement;
      var s := Ids(next, requirement);
      assert Closed(g, s);
      if requirement == items[id].requirement {
        PathsTransfer(g, GraphOf(WithDeps(items, id, e.dependsOn)), s, a, a);
      } else {
        PathsTransfer(g, GraphOf(items), s, a, a);
      }
    }
  }

  lemma UpdateKeepsDone(items: Items, id: string, e: Edit, stopped: bool)
    requires Sound(items) && MayUpdate(items, id, e, stopped)
    ensures DoneClosed(Updated(items, id, e))
  {
    hide Cyclic;
    var next := Updated(items, id, e);
    forall x, d | x in next && next[x].status.Done? && d in next[x].dependsOn ensures d in next && next[d].status.Done? {
      if x == id {
        assert d in e.dependsOn && d != "" && d != id;
      }
    }
  }

  lemma DeletedDeps(items: Items, id: string)
    ensures forall x :: x in items && x != id ==> Deleted(items, id)[x].dependsOn == Without(items[x].dependsOn, id)
  {
  }

  lemma DeleteKeeps(items: Items, id: string)
    requires Sound(items)
    ensures Sound(Deleted(items, id))
  {
    var next := Deleted(items, id);
    DeletedDeps(items, id);
    FewerEdges(GraphOf(items), GraphOf(next)) by { hide Without; }
    hide Cyclic, Without;
  }

  /** A fresh item nobody can depend on yet closes no cycle. */
  lemma FreshKeepsAcyclic(g: Graph, id: string, deps: seq<string>)
    requires !Cyclic(g) && Grounded(g) && id !in g && forall d :: d in deps ==> d in g
    ensures !Cyclic(g[id := deps])
  {
    var h := g[id := deps];
    forall a | Reaches(h, a, a) ensures false {
      if a in g {
        assert Closed(h, g.Keys);
        PathsTransfer(h, g, g.Keys, a, a);
      } else {
        var d := FirstEdge(h, a, a);
        assert d in g.Keys;
        if d != a {
          ClosedContains(h, g.Keys, d, a);
        }
      }
    }
  }

  lemma FreshKeeps(items: Items, id: string, item: Item)
    requires Sound(items) && id !in items && item.status.Todo?
    requires forall d :: d in item.dependsOn ==> d in items && items[d].requirement == item.requirement
    ensures Sound(items[id := item])
  {
    assert GraphOf(items[id := item]) == GraphOf(items)[id := item.dependsOn];
    hide Cyclic;
    FreshKeepsAcyclic(GraphOf(items), id, item.dependsOn);
  }

  predicate TitlesLocal(items: Items, requirement: string, titles: map<string, string>) {
    forall t :: t in titles ==> titles[t] in items && items[titles[t]].requirement == requirement
  }

  lemma {:induction false} TitleIdsLocal(norm: string -> string, items: Items, requirement: string, listed: seq<string>)
    requires forall id :: id in listed ==> id in items && items[id].requirement == requirement
    ensures TitlesLocal(items, requirement, TitleIds(norm, items, listed))
  {
    if listed != [] {
      TitleIdsLocal(norm, items, requirement, listed[..|listed| - 1]);
    }
  }

  /** Exactly the new ids were added and nothing else changed. */
  ghost predicate Extended(items: Items, more: Items, ids: seq<string>) {
    && (forall id :: id in items ==> id in more && more[id] == items[id])
    && (forall id :: id in more <==> id in items || id in ids)
  }

  lemma TitlesStayLocal(items: Items, requirement: string, titles: map<string, string>, key: string, id: string, item: Item)
    requires TitlesLocal(items, requirement, titles) && id !in items && item.requirement == requirement
    ensures TitlesLocal(items[id := item], requirement, titles[key := id])
  {
  }

  lemma PlantedOneKeeps(norm: string -> string, items: Items, requirement: string, titles: map<string, string>, s: Suggestion, id: string)
    requires Sound(items) && TitlesLocal(items, requirement, titles)
    ensures var r := PlantedOne(norm, items, requirement, titles, s, id);
      r.Plan? ==> id !in items && Sound(r.items) && TitlesLocal(r.items, requirement, titles[norm(s.title) := id])
    ensures var r := PlantedOne(norm, items, requirement, titles, s, id);
      r.Plan? ==> r.items.Keys == items.Keys + {id} && forall x :: x in items ==> r.items[x] == items[x]
  {
    if Resolvable(norm, titles, s) && id !in items {
      var deps := ResolvedIds(norm, titles, s.dependsOn);
      var item := Item(requirement, s.title, Todo, deps);
      DepsAreLocal(norm, items, requirement, titles, s.dependsOn);
      hide Sound, TitlesLocal, Distinct, ResolvedIds;
      FreshKeeps(items, id, item);
      TitlesStayLocal(items, requirement, titles, norm(s.title), id, item);
    }
  }

  /** An applied plan adds exactly its tasks on top of a sound graph, all or nothing. */
  lemma {:induction false} PlantingKeeps(norm: string -> string, items: Items, requirement: string, titles: map<string, string>, suggestions: seq<Suggestion>, ids: seq<string>, n: nat)
    requires n <= |ids| == |suggestions| && Sound(items) && TitlesLocal(items, requirement, titles)
    ensures var r := Planting(norm, items, requirement, titles, suggestions, ids, n);
      r.Plan? ==> Sound(r.items) && Extended(items, r.items, ids[..n]) && TitlesLocal(r.items, requirement, TitlesAt(norm, titles, suggestions, ids, n))
  {
    hide Sound, TitlesLocal, PlantedOne;
    if n > 0 {
      PlantingKeeps(norm, items, requirement, titles, suggestions, ids, n - 1);
      var r := Planting(norm, items, requirement, titles, suggestions, ids, n - 1);
      if r.Plan? {
        PlantedOneKeeps(norm, r.items, requirement, TitlesAt(norm, titles, suggestions, ids, n - 1), suggestions[n - 1], ids[n - 1]);
        assert ids[..n] == ids[..n - 1] + [ids[n - 1]];
      }
    }
  }

  lemma DepsAreLocal(norm: string -> string, items: Items, requirement: string, titles: map<string, string>, deps: seq<string>)
    requires TitlesLocal(items, requirement, titles) && forall d :: d in deps ==> norm(d) in titles
    ensures forall id :: id in ResolvedIds(norm, titles, deps) ==> id in items && items[id].requirement == requirement
  {
    var ids := ResolvedIds(norm, titles, deps);
    forall id | id in ids ensures id in items && items[id].requirement == requirement {
      var k :| 0 <= k < |ids| && ids[k] == id;
      assert norm(deps[k]) in titles;
    }
  }

  /** Every call of every writer, accepted or refused, keeps the graph sound. */
  lemma StepKeeps(norm: string -> string, items: Items, op: Op)
    requires Sound(items)
    ensures Sound(Step(norm, items, op))
  {
    match op
    case Create(id, requirement, title) =>
      if id !in items {
        FreshKeeps(items, id, Item(requirement, title, Todo, []));
      }
    case Update(id, e, stopped) =>
      if MayUpdate(items, id, e, stopped) {
        UpdateKeepsLocal(items, id, e);
        UpdateKeepsAcyclic(items, id, e);
        UpdateKeepsDone(items, id, e, stopped);
      }
    case Link(id) =>
      if id in items {
        assert GraphOf(Linked(items, id)) == GraphOf(items);
      }
    case Delete(id, stopped) => DeleteKeeps(items, id);
    case ApplyPlan(requirement, listed, suggestions, ids, revisionOk) =>
      if |ids| == |suggestions| && Lists(items, requirement, listed) {
        TitleIdsLocal(norm, items, requirement, listed);
        PlantingKeeps(norm, items, requirement, TitleIds(norm, items, listed), suggestions, ids, |ids|);
      }
  }

  ghost function Replay(norm: string -> string, ops: seq<Op>): Items {
    if ops == [] then map[] else Step(norm, Replay(norm, ops[..|ops| - 1]), ops[|ops| - 1])
  }

  /** After any sequence of calls the graph is acyclic and free of dangling edges, and finished work rests on finished work. */
  lemma {:induction false} AlwaysSound(norm: string -> string, ops: seq<Op>)
    ensures Sound(Replay(norm, ops))
  {
    if ops == [] {
      EmptyIsSound();
    } else {
      hide Sound, Step;
      AlwaysSound(norm, ops[..|ops| - 1]);
      StepKeeps(norm, Replay(norm, ops[..|ops| - 1]), ops[|ops| - 1]);
    }
  }

  lemma EmptyIsSound()
    ensures Sound(map[])
  {
    RankedIsAcyclic(GraphOf(map[]), (s: string) => 0);
  }

  // ---------- two edits at once ----------

  function TwoItems(): Items {
    map["a" := Item("r", "first", Todo, []), "b" := Item("r", "second", Todo, [])]
  }

  lemma TwoItemsAreSound()
    ensures Sound(TwoItems())
  {
    RankedIsAcyclic(GraphOf(TwoItems()), (s: string) => 0);
    hide Cyclic;
  }

  lemma OneEditIsFine(id: string, other: string)
    requires (id == "a" && other == "b") || (id == "b" && other == "a")
    ensures MayUpdate(TwoItems(), id, Edit("t", Todo, [other]), true)
  {
    hide MayUpdate, Sound, Reaches;
    TwoItemsAreSound();
    if Reaches(GraphOf(TwoItems()), other, id) {
      var d := FirstEdge(GraphOf(TwoItems()), other, id);
    }
    EditsExactly(TwoItems(), id, Edit("t", Todo, [other]), true);
  }

  /** Both edits, checked against the same table and then written one after the other. */
  function BothUpdated(items: Items, a: string, e: Edit, b: string, f: Edit): Items
    requires a in items && b in items
  {
    Updated(Updated(items, a, e), b, f)
  }

  /** Once both are written, each item's new dependencies lead to the other over edges neither edit touched. */
  ghost predicate CloseCircle(items: Items, a: string, e: Edit, b: string, f: Edit) {
    Follows(items, a, e.dependsOn, b) && Follows(items, b, f.dependsOn, a)
  }

  /** Some named dependency is `other`, or reaches it in the table without the edges of `id` and `other`. */
  ghost predicate Follows(items: Items, id: string, deps: seq<string>, other: string) {
    exists x :: x in deps && x != "" && (x == other || Reaches(Severed(GraphOf(items), id, other), x, other))
  }

  /** One edit finishes an item that rests on the item the other edit reopens. */
  predicate Undercut(items: Items, a: string, e: Edit, b: string, f: Edit) {
    e.status.Done? && !f.status.Done? && b in Normalized(e.dependsOn)
  }

  lemma UpdatedGraph(items: Items, id: string, e: Edit)
    requires id in items
    ensures GraphOf(Updated(items, id, e)) == GraphOf(items)[id := Normalized(e.dependsOn)]
  {
    hide Normalized;
  }

  lemma BothGraph(items: Items, a: string, e: Edit, b: string, f: Edit)
    requires a in items && b in items && a != b
    ensures var g := GraphOf(BothUpdated(items, a, e, b, f));
      && Deps(g, a) == Normalized(e.dependsOn) && Deps(g, b) == Normalized(f.dependsOn)
      && (forall x :: x != b ==> Deps(GraphOf(Updated(items, a, e)), x) == Deps(g, x))
      && (forall x :: x != a ==> Deps(GraphOf(Updated(items, b, f)), x) == Deps(g, x))
      && Severed(g, a, b) == Severed(GraphOf(items), a, b) && Severed(g, b, a) == Severed(GraphOf(items), b, a)
  {
    var base, first := GraphOf(items), Updated(items, a, e);
    UpdatedGraph(items, a, e);
    UpdatedGraph(items, b, f);
    UpdatedGraph(first, b, f);
    assert a in base && b in base;
    hide Normalized, Updated, GraphOf;
    SeveredSame(base, a, b, Normalized(e.dependsOn), Normalized(f.dependsOn));
  }

  lemma SeveredSame(g: Graph, a: string, b: string, s: seq<string>, t: seq<string>)
    requires a in g && b in g
    ensures Severed(g[a := s][b := t], a, b) == Severed(g, a, b) && Severed(g[a := s][b := t], b, a) == Severed(g, b, a)
  {
  }

  /**
   * The check and the write are separate: of two edits both accepted against the same table, writing
   * both closes a cycle exactly when each edit's dependencies lead to the other item.
   */
  lemma RacingEditsCycle(items: Items, a: string, e: Edit, b: string, f: Edit, stopped: bool, halted: bool)
    requires Sound(items) && a != b && MayUpdate(items, a, e, stopped) && MayUpdate(items, b, f, halted)
    ensures Cyclic(GraphOf(BothUpdated(items, a, e, b, f))) <==> CloseCircle(items, a, e, b, f)
  {
    UpdateKeepsAcyclic(items, a, e);
    UpdateKeepsAcyclic(items, b, f);
    hide MayUpdate, Sound, Cyclic, Reaches, BothUpdated, Updated;
    BothGraph(items, a, e, b, f);
    var g := GraphOf(BothUpdated(items, a, e, b, f));
    TwoChanges(g, GraphOf(Updated(items, a, e)), GraphOf(Updated(items, b, f)), a, b);
    hide GraphOf, Severed;
    FollowsIsLeads(items, g, a, e.dependsOn, b);
    FollowsIsLeads(items, g, b, f.dependsOn, a);
  }

  lemma FollowsIsLeads(items: Items, g: Graph, id: string, deps: seq<string>, other: string)
    requires Deps(g, id) == Normalized(deps) && Severed(g, id, other) == Severed(GraphOf(items), id, other)
    ensures Follows(items, id, deps, other) <==> LeadsTo(g, id, other)
  {
    hide Reaches, Normalized, Severed, GraphOf;
    if Follows(items, id, deps, other) {
      var x :| x in deps && x != "" && (x == other || Reaches(Severed(GraphOf(items), id, other), x, other));
      assert x in Deps(g, id);
    }
    if LeadsTo(g, id, other) {
      var x :| x in Deps(g, id) && (x == other || Reaches(Severed(g, id, other), x, other));
      assert x in deps && x != "";
    }
  }

  /** Writing both keeps finished work resting on finished work exactly unless one undercuts the other. */
  lemma RacingEditsDone(items: Items, a: string, e: Edit, b: string, f: Edit, stopped: bool, halted: bool)
    requires Sound(items) && a != b && MayUpdate(items, a, e, stopped) && MayUpdate(items, b, f, halted)
    ensures DoneClosed(BothUpdated(items, a, e, b, f)) <==> !Undercut(items, a, e, b, f) && !Undercut(items, b, f, a, e)
  {
    hide Cyclic, Normalized;
    var next := BothUpdated(items, a, e, b, f);
    assert next[a].status == e.status && next[b].status == f.status && next[a].dependsOn == Normalized(e.dependsOn)
      && next[b].dependsOn == Normalized(f.dependsOn);
    if !Undercut(items, a, e, b, f) && !Undercut(items, b, f, a, e) {
      forall x, d | x in next && next[x].status.Done? && d in next[x].dependsOn ensures d in next && next[d].status.Done? {
        if x == a {
          assert d in e.dependsOn && d != "" && d != a;
        } else if x == b {
          assert d in f.dependsOn && d != "" && d != b;
        } else {
          assert next[x] == items[x] && items[d].status.Done?;
        }
      }
    }
  }

  /** Two accepted edits written over one another leave the graph sound exactly unless they close a circle or undercut each other. */
  lemma RacingEditsSound(items: Items, a: string, e: Edit, b: string, f: Edit, stopped: bool, halted: bool)
    requires Sound(items) && a != b && MayUpdate(items, a, e, stopped) && MayUpdate(items, b, f, halted)
    ensures Sound(BothUpdated(items, a, e, b, f))
      <==> !CloseCircle(items, a, e, b, f) && !Undercut(items, a, e, b, f) && !Undercut(items, b, f, a, e)
  {
    RacingEditsCycle(items, a, e, b, f, stopped, halted);
    RacingEditsDone(items, a, e, b, f, stopped, halted);
    UpdateKeepsLocal(items, a, e);
    hide Cyclic, CloseCircle, DoneClosed, Normalized, Undercut;
    assert Local(BothUpdated(items, a, e, b, f));
  }

  /**
   * The check and the write are separate: when two edits are both validated against the same table,
   * each is fine on its own and together they close a cycle.
   */
  lemma RacingEditsFormCycle() returns (items: Items, a: string, b: string, e: Edit, f: Edit)
    ensures Sound(items) && MayUpdate(items, a, e, true) && MayUpdate(items, b, f, true)
    ensures a != b && a in items && b in items && Cyclic(GraphOf(Updated(Updated(items, a, e), b, f)))
  {
    items, a, b, e, f := TwoItems(), "a", "b", Edit("t", Todo, ["b"]), Edit("t", Todo, ["a"]);
    OneEditIsFine("a", "b");
    OneEditIsFine("b", "a");
    TwoItemsAreSound();
    RacingEdges();
    hide MayUpdate, Normalized, Sound, Reaches;
    var g := GraphOf(Updated(Updated(items, a, e), b, f));
    ReachesEdge(g, "b", "a");
    ReachesViaEdge(g, "a", "b", "a");
  }

  lemma RacingEdges()
    ensures Normalized(["a"]) == ["a"] && Normalized(["b"]) == ["b"]
  {
  }

  // ---------- a row written back after others have written ----------

  /** The dependency table refuses unknown items and items that name themselves. */
  predicate RefusesRow(items: Items, id: string, row: Item) {
    exists d :: d in row.dependsOn && (d !in items || d == id)
  }

  /** Writing a whole row back, dependencies included, or nothing. */
  function Stored(items: Items, id: string, row: Item): Items {
    if id !in items || RefusesRow(items, id, row) then items
    else items[id := row.(requirement := items[id].requirement)]
  }

  /** A dependency of the row by now leads to the item itself, over the other items' edges. */
  ghost predicate LoopsBack(items: Items, id: string, row: Item) {
    exists d :: d in row.dependsOn && Reaches(Severed(GraphOf(items), id, id), d, id)
  }

  /** The row finishes the item over open work, or reopens it under finished work. */
  predicate LeavesOpen(items: Items, id: string, row: Item) {
    if row.status.Done? then exists d :: d in row.dependsOn && d in items && !items[d].status.Done?
    else exists x :: x in items && x != id && items[x].status.Done? && id in items[x].dependsOn
  }

  lemma StoredGraph(items: Items, id: string, row: Item)
    requires id in items && !RefusesRow(items, id, row)
    ensures GraphOf(Stored(items, id, row)) == GraphOf(items)[id := row.dependsOn]
  {
  }

  lemma StoredCycle(items: Items, id: string, row: Item)
    requires !Cyclic(GraphOf(items)) && id in items && !RefusesRow(items, id, row)
    ensures Cyclic(GraphOf(Stored(items, id, row))) <==> LoopsBack(items, id, row)
  {
    var before, g := GraphOf(items), GraphOf(items)[id := row.dependsOn];
    StoredGraph(items, id, row);
    assert id in before && Severed(g, id, id) == Severed(before, id, id) && Deps(g, id) == row.dependsOn;
    hide Cyclic, GraphOf, Reaches, Stored;
    OneChange(g, before, id);
    hide Severed, Deps;
    assert LeadsTo(g, id, id) <==> LoopsBack(items, id, row);
  }

  lemma StoredDone(items: Items, id: string, row: Item)
    requires DoneClosed(items) && id in items && !RefusesRow(items, id, row)
    ensures DoneClosed(Stored(items, id, row)) <==> !LeavesOpen(items, id, row)
  {
    var next := Stored(items, id, row);
    if !row.status.Done? && LeavesOpen(items, id, row) {
      var x :| x in items && x != id && items[x].status.Done? && id in items[x].dependsOn;
      assert next[x] == items[x] && !next[id].status.Done?;
    }
    if row.status.Done? && LeavesOpen(items, id, row) {
      var d :| d in row.dependsOn && d in items && !items[d].status.Done?;
      assert next[d] == items[d] && d in next[id].dependsOn;
    }
  }

  /** The row depends on items of another requirement; requirements never change, so no row read from the table does. */
  predicate Strays(items: Items, id: string, row: Item)
    requires id in items
  {
    exists d :: d in row.dependsOn && d in items && items[d].requirement != items[id].requirement
  }

  /** Writing the row back does no harm. */
  ghost predicate HarmlessRow(items: Items, id: string, row: Item) {
    id !in items || RefusesRow(items, id, row) || (!Strays(items, id, row) && !LoopsBack(items, id, row) && !LeavesOpen(items, id, row))
  }

  lemma StoredLocal(items: Items, id: string, row: Item)
    requires Local(items) && id in items && !RefusesRow(items, id, row)
    ensures Local(Stored(items, id, row)) <==> !Strays(items, id, row)
  {
    var next := Stored(items, id, row);
    if Strays(items, id, row) {
      var d :| d in row.dependsOn && d in items && items[d].requirement != items[id].requirement;
      assert d in next[id].dependsOn && next[d] == items[d];
    }
  }

  /**
   * Whatever others wrote since the row was read, writing it back keeps the graph sound exactly when
   * nothing is written, because the item or a dependency is gone, or the row neither strays, nor
   * loops back, nor leaves finished work on open work.
   */
  lemma StaleWriteSound(items: Items, id: string, row: Item)
    requires Sound(items)
    ensures Sound(Stored(items, id, row)) <==> HarmlessRow(items, id, row)
  {
    hide Cyclic, Local, DoneClosed, LoopsBack, LeavesOpen, Strays;
    if id in items && !RefusesRow(items, id, row) {
      StoredCycle(items, id, row);
      StoredDone(items, id, row);
      StoredLocal(items, id, row);
    }
  }

  /** Nothing written meanwhile: linking is the atomic step. */
  lemma FreshLink(items: Items, id: string)
    requires Sound(items) && id in items
    ensures !RefusesRow(items, id, LinkedRow(items[id])) && Stored(items, id, LinkedRow(items[id])) == Linked(items, id)
  {
    hide Reaches;
    if id in items[id].dependsOn {
      ReachesEdge(GraphOf(items), id, id);
    }
  }

  function OneEdge(): Items {
    map["a" := Item("r", "first", Todo, ["b"]), "b" := Item("r", "second", Todo, [])]
  }

  lemma EdgeIsSound()
    ensures Sound(OneEdge())
  {
    RankedIsAcyclic(GraphOf(OneEdge()), (s: string) => if s == "a" then 1 else 0);
    hide Cyclic;
  }

  lemma EdgeMayGo()
    ensures MayUpdate(OneEdge(), "a", Edit("first", Todo, []), true) && Updated(OneEdge(), "a", Edit("first", Todo, [])) == TwoItems()
  {
    assert Normalized([]) == [];
    RankedIsAcyclic(GraphOf(WithDeps(OneEdge(), "a", [])), (s: string) => 0);
    hide Cyclic, Normalized;
  }

  function Cleared(): Edit {
    Edit("first", Todo, [])
  }

  function Turned(): Edit {
    Edit("t", Todo, ["a"])
  }

  lemma EdgeTurned(edits: seq<Op>)
    requires edits == [Update("a", Cleared(), true), Update("b", Turned(), true)]
    ensures After(OneEdge(), edits) == Updated(TwoItems(), "b", Turned())
  {
    EdgeMayGo();
    OneEditIsFine("b", "a");
    hide MayUpdate, Updated, OneEdge, TwoItems;
    assert edits[..1] == [edits[0]] && edits[..1][..0] == [];
    assert After(OneEdge(), []) == OneEdge() && After(OneEdge(), edits[..1]) == TwoItems();
  }

  /** A link reads an edge, one edit removes it, another adds the reverse, and the link writes its row back: a cycle. */
  lemma StaleLinkFormsCycle() returns (items: Items, id: string, edits: seq<Op>)
    ensures Sound(items) && id in items && forall k :: 0 <= k < |edits| ==> edits[k].Update?
    ensures Cyclic(GraphOf(Stored(After(items, edits), id, LinkedRow(items[id]))))
  {
    hide Sound, Cyclic, Updated, After, Stored;
    items, id, edits := OneEdge(), "a", [Update("a", Cleared(), true), Update("b", Turned(), true)];
    EdgeIsSound();
    EdgeTurned(edits);
    var now, row := Updated(TwoItems(), "b", Turned()), LinkedRow(items[id]);
    TurnedBack(now, row);
  }

  lemma TurnedBack(now: Items, row: Item)
    requires now == Updated(TwoItems(), "b", Turned()) && row == LinkedRow(OneEdge()["a"])
    ensures Cyclic(GraphOf(Stored(now, "a", row)))
  {
    RacingEdges();
    hide Normalized, Reaches;
    assert row.dependsOn == ["b"] && now["b"].dependsOn == ["a"];
    var g := GraphOf(Stored(now, "a", row));
    ReachesEdge(g, "b", "a");
    ReachesViaEdge(g, "a", "b", "a");
  }

  /** The table after further calls. */
  ghost function After(items: Items, ops: seq<Op>): Items {
    if ops == [] then items else Step((t: string) => t, After(items, ops[..|ops| - 1]), ops[|ops| - 1])
  }

  // ---------- a finish over a reopening ----------

  function RestsOnDone(): Items {
    map["a" := Item("r", "first", Todo, ["b"]), "b" := Item("r", "second", Done, [])]
  }

  /** Finishing `a` and reopening the finished `b` it rests on are each accepted; together they leave a finished item on an open one. */
  lemma RacingEditsUndercut() returns (items: Items, a: string, b: string, e: Edit, f: Edit)
    ensures Sound(items) && a != b && MayUpdate(items, a, e, true) && MayUpdate(items, b, f, true)
    ensures !DoneClosed(BothUpdated(items, a, e, b, f))
  {
    items, a, b, e, f := RestsOnDone(), "a", "b", Edit("first", Done, ["b"]), Edit("second", Todo, []);
    RestsAllow();
    RacingEdges();
    hide Cyclic, Normalized, MayUpdate, Sound;
    RacingEditsDone(items, a, e, b, f, true, true);
  }

  lemma RestsAllow()
    ensures Sound(RestsOnDone())
    ensures MayUpdate(RestsOnDone(), "a", Edit("first", Done, ["b"]), true) && MayUpdate(RestsOnDone(), "b", Edit("second", Todo, []), true)
  {
    RestsIsSound();
    MayFinish();
    MayReopenIt();
    hide Sound, MayUpdate;
  }

  lemma RestsIsSound()
    ensures Sound(RestsOnDone())
  {
    RankedIsAcyclic(GraphOf(RestsOnDone()), (s: string) => if s == "a" then 1 else 0);
    hide Cyclic;
  }

  lemma MayFinish()
    ensures MayUpdate(RestsOnDone(), "a", Edit("first", Done, ["b"]), true)
  {
    RacingEdges();
    RankedIsAcyclic(GraphOf(WithDeps(RestsOnDone(), "a", ["b"])), (s: string) => if s == "a" then 1 else 0);
    hide Cyclic, Normalized;
  }

  lemma MayReopenIt()
    ensures MayUpdate(RestsOnDone(), "b", Edit("second", Todo, []), true)
  {
    assert Normalized([]) == [];
    RankedIsAcyclic(GraphOf(WithDeps(RestsOnDone(), "b", [])), (s: string) => if s == "a" then 1 else 0);
    hide Cyclic, Normalized;
  }

  // ---------- the writers, field by field ----------

  /** Blanks and repetitions are dropped and nothing else; the first mentions keep their order. */
  lemma {:induction false} NormalizedExactly(deps: seq<string>)
    ensures forall d :: d in Normalized(deps) <==> d in deps && d != ""
    ensures Distinct(Normalized(deps))
    ensures forall i, j :: 0 <= i < j < |Normalized(deps)| ==>
      exists p :: 0 <= p < |deps| && deps[p] == Normalized(deps)[i] && Normalized(deps)[j] !in deps[..p]
  {
    if deps != [] {
      var front, last := deps[..|deps| - 1], deps[|deps| - 1];
      NormalizedExactly(front);
      var r := Normalized(front);
      forall i, j | 0 <= i < j < |Normalized(deps)|
        ensures exists p :: 0 <= p < |deps| && deps[p] == Normalized(deps)[i] && Normalized(deps)[j] !in deps[..p]
      {
        if j < |r| {
          var p :| 0 <= p < |front| && front[p] == r[i] && r[j] !in front[..p];
          assert deps[p] == r[i] && deps[..p] == front[..p];
        } else {
          assert r[i] in front;
          var p :| 0 <= p < |front| && front[p] == r[i];
          assert deps[p] == r[i] && forall x :: x in deps[..p] ==> x in front;
        }
      }
    }
  }

  lemma UpdatedDeps(items: Items, id: string, e: Edit)
    requires id in items
    ensures Deps(GraphOf(Updated(items, id, e)), id) == Normalized(e.dependsOn)
    ensures forall x :: x != id ==> Deps(GraphOf(Updated(items, id, e)), x) == Deps(GraphOf(items), x)
    ensures forall x, d :: d in Deps(GraphOf(WithDeps(items, id, e.dependsOn)), x) ==> d in Deps(GraphOf(Updated(items, id, e)), x)
  {
    hide Normalized;
  }

  /** The cycle check refuses exactly the dependencies that already wait for the item. */
  lemma CyclesExactly(items: Items, id: string, e: Edit)
    requires Sound(items) && id in items && DepsAllowed(items, id, e.dependsOn)
    ensures Cyclic(GraphOf(WithDeps(items, id, e.dependsOn))) <==>
      exists d :: d in e.dependsOn && d != "" && Reaches(GraphOf(items), d, id)
  {
    var g, h := GraphOf(items), GraphOf(Updated(items, id, e));
    UpdatedDeps(items, id, e);
    NewEdges(g, h, id);
    hide Reaches, GraphOf, WithDeps, Updated;
    if !Cyclic(GraphOf(WithDeps(items, id, e.dependsOn))) {
      UpdateKeepsAcyclic(items, id, e);
    } else if !Cyclic(h) {
      FewerEdges(h, GraphOf(WithDeps(items, id, e.dependsOn)));
    }
    hide Cyclic;
    assert Cyclic(h) <==> exists d :: d in Normalized(e.dependsOn) && Reaches(g, d, id) by {
      assert forall d :: d in Normalized(e.dependsOn) ==> d != id;
    }
  }

  /**
   * Exactly which edits a sound table accepts: of an existing item, with dependencies on other items of
   * its requirement that do not wait for it already; to start or finish it, all of them finished; to
   * reopen it, no started item resting on it; to finish it, its sessions stopped.
   */
  lemma EditsExactly(items: Items, id: string, e: Edit, stopped: bool)
    requires Sound(items)
    ensures MayUpdate(items, id, e, stopped) <==>
      && id in items
      && (forall d :: d in e.dependsOn && d != "" ==>
            && d != id && d in items && items[d].requirement == items[id].requirement
            && !Reaches(GraphOf(items), d, id)
            && (e.status == InProgress || e.status == Done ==> items[d].status == Done))
      && (items[id].status == Done && e.status != Done ==>
            forall x :: x in items && id in items[x].dependsOn ==> items[x].status == Todo)
      && (e.status == Done ==> stopped)
  {
    if id in items {
      ReopensExactly(items, id, e.status);
      if DepsAllowed(items, id, e.dependsOn) {
        CyclesExactly(items, id, e);
      }
    }
    hide Cyclic, Reaches, GraphOf, MayReopen, WithDeps, Sound;
  }

  lemma ReopensExactly(items: Items, id: string, status: Status)
    requires Local(items) && id in items
    ensures MayReopen(items, id, status) <==> (items[id].status == Done && status != Done ==>
      forall x :: x in items && id in items[x].dependsOn ==> items[x].status == Todo)
  {
  }

  /** An accepted edit writes title, status and the dependencies named, and touches no other item. */
  lemma EditWrites(norm: string -> string, items: Items, id: string, e: Edit, stopped: bool)
    requires MayUpdate(items, id, e, stopped)
    ensures var n := Step(norm, items, Update(id, e, stopped));
      && n.Keys == items.Keys && (forall x :: x in items && x != id ==> n[x] == items[x])
      && n[id].title == e.title && n[id].status == e.status && n[id].requirement == items[id].requirement
      && Distinct(n[id].dependsOn) && forall d :: d in n[id].dependsOn <==> d in e.dependsOn && d != ""
  {
    hide Cyclic;
    NormalizedExactly(e.dependsOn);
  }

  /** The title is that of a listed item or of an earlier suggestion. */
  predicate TitleKnown(norm: string -> string, titles: map<string, string>, suggestions: seq<Suggestion>, k: nat, key: string)
    requires k <= |suggestions|
  {
    key in titles || exists x :: 0 <= x < k && norm(suggestions[x].title) == key
  }

  /** `id` is the listed item or the earlier suggestion of this title. */
  predicate Titled(norm: string -> string, titles: map<string, string>, suggestions: seq<Suggestion>, ids: seq<string>, k: nat, key: string, id: string)
    requires k <= |suggestions| == |ids|
  {
    (key in titles && id == titles[key]) || exists x :: 0 <= x < k && norm(suggestions[x].title) == key && ids[x] == id
  }

  /** Every title of the plan so far is new: neither listed nor given twice. */
  predicate TitlesNew(norm: string -> string, titles: map<string, string>, suggestions: seq<Suggestion>, n: nat)
    requires n <= |suggestions|
  {
    forall k :: 0 <= k < n ==> !TitleKnown(norm, titles, suggestions, k, norm(suggestions[k].title))
  }

  lemma {:induction false} TitlesExactly(norm: string -> string, titles: map<string, string>, suggestions: seq<Suggestion>, ids: seq<string>, n: nat)
    requires n <= |suggestions| == |ids|
    ensures forall key :: key in TitlesAt(norm, titles, suggestions, ids, n) <==> TitleKnown(norm, titles, suggestions, n, key)
    ensures forall key :: key in TitlesAt(norm, titles, suggestions, ids, n) ==>
      Titled(norm, titles, suggestions, ids, n, key, TitlesAt(norm, titles, suggestions, ids, n)[key])
  {
    if n > 0 {
      TitlesExactly(norm, titles, suggestions, ids, n - 1);
      var before, now := TitlesAt(norm, titles, suggestions, ids, n - 1), TitlesAt(norm, titles, suggestions, ids, n);
      assert now == before[norm(suggestions[n - 1].title) := ids[n - 1]];
      hide TitlesAt;
      forall key ensures TitleKnown(norm, titles, suggestions, n, key) <==>
        TitleKnown(norm, titles, suggestions, n - 1, key) || key == norm(suggestions[n - 1].title)
      {
      }
      forall key | key in now ensures Titled(norm, titles, suggestions, ids, n, key, now[key]) {
        if key != norm(suggestions[n - 1].title) {
          assert Titled(norm, titles, suggestions, ids, n - 1, key, before[key]);
        }
      }
    }
  }

  /** Suggestion `k` can be planted: a new title and id, and dependencies with known titles that name different items. */
  ghost predicate CanPlant(norm: string -> string, items: Items, titles: map<string, string>, suggestions: seq<Suggestion>, ids: seq<string>, k: nat)
    requires k < |suggestions| == |ids|
  {
    && !TitleKnown(norm, titles, suggestions, k, norm(suggestions[k].title))
    && ids[k] !in items && ids[k] !in ids[..k]
    && (forall d :: d in suggestions[k].dependsOn ==> TitleKnown(norm, titles, suggestions, k, norm(d)))
    && exists deps: seq<string> :: Distinct(deps) && NamedBy(norm, titles, suggestions, ids, k, deps)
  }

  /** One dependency for each title the suggestion names, in its order. */
  predicate NamedBy(norm: string -> string, titles: map<string, string>, suggestions: seq<Suggestion>, ids: seq<string>, k: nat, deps: seq<string>)
    requires k < |suggestions| == |ids|
  {
    && |deps| == |suggestions[k].dependsOn|
    && forall j :: 0 <= j < |deps| ==> Titled(norm, titles, suggestions, ids, k, norm(suggestions[k].dependsOn[j]), deps[j])
  }

  /** With new titles, a title names one item. */
  lemma OneTitled(norm: string -> string, titles: map<string, string>, suggestions: seq<Suggestion>, ids: seq<string>, k: nat, key: string, a: string, b: string)
    requires k <= |suggestions| == |ids| && TitlesNew(norm, titles, suggestions, k)
    requires Titled(norm, titles, suggestions, ids, k, key, a) && Titled(norm, titles, suggestions, ids, k, key, b)
    ensures a == b
  {
  }

  lemma NamedExactly(norm: string -> string, titles: map<string, string>, suggestions: seq<Suggestion>, ids: seq<string>, k: nat, deps: seq<string>)
    requires k < |suggestions| == |ids| && TitlesNew(norm, titles, suggestions, k)
    requires forall d :: d in suggestions[k].dependsOn ==> norm(d) in TitlesAt(norm, titles, suggestions, ids, k)
    ensures NamedBy(norm, titles, suggestions, ids, k, deps) <==>
      deps == ResolvedIds(norm, TitlesAt(norm, titles, suggestions, ids, k), suggestions[k].dependsOn)
  {
    var known := TitlesAt(norm, titles, suggestions, ids, k);
    var s := suggestions[k];
    var resolved := ResolvedIds(norm, known, s.dependsOn);
    TitlesExactly(norm, titles, suggestions, ids, k);
    hide Titled, TitlesNew, TitlesAt;
    forall j | 0 <= j < |s.dependsOn| ensures Titled(norm, titles, suggestions, ids, k, norm(s.dependsOn[j]), resolved[j]) {
      assert norm(s.dependsOn[j]) in known;
    }
    if NamedBy(norm, titles, suggestions, ids, k, deps) {
      forall j | 0 <= j < |deps| ensures deps[j] == resolved[j] {
        OneTitled(norm, titles, suggestions, ids, k, norm(s.dependsOn[j]), deps[j], resolved[j]);
      }
    }
  }

  /** One suggestion planted on the items so far. */
  lemma PlantsOne(norm: string -> string, before: Items, items: Items, requirement: string, titles: map<string, string>, suggestions: seq<Suggestion>, ids: seq<string>, k: nat)
    requires k < |suggestions| == |ids| && TitlesNew(norm, titles, suggestions, k)
    requires forall id :: id in items <==> id in before || id in ids[..k]
    ensures var r := PlantedOne(norm, items, requirement, TitlesAt(norm, titles, suggestions, ids, k), suggestions[k], ids[k]);
      && (r.Plan? <==> CanPlant(norm, before, titles, suggestions, ids, k))
      && (r.Plan? ==> exists deps :: r.items == items[ids[k] := Item(requirement, suggestions[k].title, Todo, deps)]
                                     && NamedBy(norm, titles, suggestions, ids, k, deps))
  {
    var known := TitlesAt(norm, titles, suggestions, ids, k);
    TitlesExactly(norm, titles, suggestions, ids, k);
    hide TitleKnown, Titled, TitlesNew, TitlesAt, NamedBy, ResolvedIds, Distinct;
    if forall d :: d in suggestions[k].dependsOn ==> norm(d) in known {
      forall deps: seq<string> ensures NamedBy(norm, titles, suggestions, ids, k, deps) <==> deps == ResolvedIds(norm, known, suggestions[k].dependsOn) {
        NamedExactly(norm, titles, suggestions, ids, k, deps);
      }
    }
  }

  /** Row `k` of an applied plan. */
  predicate PlantedRow(norm: string -> string, items: Items, requirement: string, titles: map<string, string>, suggestions: seq<Suggestion>, ids: seq<string>, k: nat)
    requires k < |suggestions| == |ids|
  {
    && ids[k] in items && items[ids[k]].requirement == requirement && items[ids[k]].title == suggestions[k].title
    && items[ids[k]].status == Todo && NamedBy(norm, titles, suggestions, ids, k, items[ids[k]].dependsOn)
  }

  /** What planting the first `n` suggestions left. */
  ghost predicate Planted(norm: string -> string, items: Items, now: Items, requirement: string, titles: map<string, string>, suggestions: seq<Suggestion>, ids: seq<string>, n: nat)
    requires n <= |suggestions| == |ids|
  {
    && (forall id :: id in now <==> id in items || id in ids[..n])
    && (forall id :: id in items ==> now[id] == items[id])
    && (forall k :: 0 <= k < n ==> PlantedRow(norm, now, requirement, titles, suggestions, ids, k))
  }

  lemma PlantsNext(norm: string -> string, items: Items, before: Items, now: Items, requirement: string, titles: map<string, string>,
                   suggestions: seq<Suggestion>, ids: seq<string>, k: nat, deps: seq<string>)
    requires k < |suggestions| == |ids| && Planted(norm, items, before, requirement, titles, suggestions, ids, k)
    requires ids[k] !in items && ids[k] !in ids[..k] && NamedBy(norm, titles, suggestions, ids, k, deps)
    requires now == before[ids[k] := Item(requirement, suggestions[k].title, Todo, deps)]
    ensures Planted(norm, items, now, requirement, titles, suggestions, ids, k + 1)
  {
    hide NamedBy;
    assert ids[..k + 1] == ids[..k] + [ids[k]];
    forall j | 0 <= j < k ensures PlantedRow(norm, now, requirement, titles, suggestions, ids, j) {
      assert PlantedRow(norm, before, requirement, titles, suggestions, ids, j) && ids[j] in ids[..k];
    }
  }

  /**
   * A plan is applied exactly when each of its tasks can be planted in turn, and then each is a waiting
   * item of the requirement that depends on exactly what its titles name, while all others stay.
   */
  lemma {:induction false} PlantsExactly(norm: string -> string, items: Items, requirement: string, titles: map<string, string>, suggestions: seq<Suggestion>, ids: seq<string>, n: nat)
    requires n <= |suggestions| == |ids|
    ensures var r := Planting(norm, items, requirement, titles, suggestions, ids, n);
      && (r.Plan? <==> forall k :: 0 <= k < n ==> CanPlant(norm, items, titles, suggestions, ids, k))
      && (r.Plan? ==> Planted(norm, items, r.items, requirement, titles, suggestions, ids, n))
  {
    hide CanPlant, PlantedOne, TitlesAt, TitlesNew, PlantedRow, NamedBy;
    if n > 0 {
      PlantsExactly(norm, items, requirement, titles, suggestions, ids, n - 1);
      var before := Planting(norm, items, requirement, titles, suggestions, ids, n - 1);
      if before.Plan? {
        PlantableIsNew(norm, items, titles, suggestions, ids, n - 1);
        PlantsOne(norm, items, before.items, requirement, titles, suggestions, ids, n - 1);
        var r := PlantedOne(norm, before.items, requirement, TitlesAt(norm, titles, suggestions, ids, n - 1), suggestions[n - 1], ids[n - 1]);
        hide Planted;
        if r.Plan? {
          var deps :| r.items == before.items[ids[n - 1] := Item(requirement, suggestions[n - 1].title, Todo, deps)]
                      && NamedBy(norm, titles, suggestions, ids, n - 1, deps);
          NewIds(norm, items, titles, suggestions, ids, n - 1);
          PlantsNext(norm, items, before.items, r.items, requirement, titles, suggestions, ids, n - 1, deps);
        }
      }
    }
  }

  lemma NewIds(norm: string -> string, items: Items, titles: map<string, string>, suggestions: seq<Suggestion>, ids: seq<string>, k: nat)
    requires k < |suggestions| == |ids| && CanPlant(norm, items, titles, suggestions, ids, k)
    ensures ids[k] !in items && ids[k] !in ids[..k]
  {
  }

  lemma PlantableIsNew(norm: string -> string, items: Items, titles: map<string, string>, suggestions: seq<Suggestion>, ids: seq<string>, n: nat)
    requires n <= |suggestions| == |ids| && forall k :: 0 <= k < n ==> CanPlant(norm, items, titles, suggestions, ids, k)
    ensures TitlesNew(norm, titles, suggestions, n)
  {
    hide TitleKnown, NamedBy;
    forall k | 0 <= k < n ensures !TitleKnown(norm, titles, suggestions, k, norm(suggestions[k].title)) {
      assert CanPlant(norm, items, titles, suggestions, ids, k);
    }
  }

  /** Whether listed position `k` bears the title. */
  predicate Bears(norm: string -> string, items: Items, listed: seq<string>, k: int, key: string) {
    0 <= k < |listed| && listed[k] in items && norm(items[listed[k]].title) == key
  }

  /** Listed position `k` is the last that bears the title. */
  predicate LastBears(norm: string -> string, items: Items, listed: seq<string>, k: int, key: string) {
    Bears(norm, items, listed, k, key) && forall j :: k < j < |listed| ==> !Bears(norm, items, listed, j, key)
  }

  /** A title stands for the last listed item that bears it. */
  lemma {:induction false} TitleIdsExactly(norm: string -> string, items: Items, listed: seq<string>, key: string)
    ensures key in TitleIds(norm, items, listed) <==> exists k :: LastBears(norm, items, listed, k, key)
    ensures forall k :: LastBears(norm, items, listed, k, key) ==> key in TitleIds(norm, items, listed) && TitleIds(norm, items, listed)[key] == listed[k]
  {
    if listed != [] {
      var front, n := listed[..|listed| - 1], |listed| - 1;
      TitleIdsExactly(norm, items, front, key);
      assert key in TitleIds(norm, items, listed) <==> Bears(norm, items, listed, n, key) || key in TitleIds(norm, items, front);
      assert Bears(norm, items, listed, n, key) ==> TitleIds(norm, items, listed)[key] == listed[n];
      assert !Bears(norm, items, listed, n, key) && key in TitleIds(norm, items, front) ==>
        TitleIds(norm, items, listed)[key] == TitleIds(norm, items, front)[key];
      LastBearsStep(norm, items, listed, key);
      assert forall k :: LastBears(norm, items, front, k, key) ==> listed[k] == front[k];
      hide TitleIds, LastBears, Bears;
      if Bears(norm, items, listed, n, key) {
        assert LastBears(norm, items, listed, n, key);
      } else if k :| LastBears(norm, items, front, k, key) {
        assert LastBears(norm, items, listed, k, key);
      }
    }
  }

  lemma LastBearsStep(norm: string -> string, items: Items, listed: seq<string>, key: string)
    requires listed != []
    ensures var front, n := listed[..|listed| - 1], |listed| - 1;
      forall k :: LastBears(norm, items, listed, k, key) <==>
        if Bears(norm, items, listed, n, key) then k == n else LastBears(norm, items, front, k, key)
  {
    var front, n := listed[..|listed| - 1], |listed| - 1;
    forall k | k < n ensures Bears(norm, items, listed, k, key) <==> Bears(norm, items, front, k, key) {
    }
    assert forall k :: k >= |listed| ==> !Bears(norm, items, listed, k, key) && !Bears(norm, items, front, k, key);
    assert !Bears(norm, items, front, n, key);
    hide Bears;
  }

  /** Writing a row back: refused exactly when the item or a dependency is missing or the item names itself, otherwise whole. */
  lemma WritesExactly(items: Items, id: string, row: Item)
    ensures if id in items && forall k :: 0 <= k < |row.dependsOn| ==> row.dependsOn[k] in items && row.dependsOn[k] != id
            then Stored(items, id, row) == items[id := Item(items[id].requirement, row.title, row.status, row.dependsOn)]
            else Stored(items, id, row) == items
  {
    if RefusesRow(items, id, row) {
      var d :| d in row.dependsOn && (d !in items || d == id);
    }
    if k :| 0 <= k < |row.dependsOn| && !(row.dependsOn[k] in items && row.dependsOn[k] != id) {
      assert row.dependsOn[k] in row.dependsOn;
    }
  }

  /** Creating, linking and deleting: what each does to one item and leaves of the others. */
  lemma OthersExactly(norm: string -> string, items: Items, id: string, requirement: string, title: string)
    ensures var n := Step(norm, items, Create(id, requirement, title));
      if id in items then n == items else n == items[id := Item(requirement, title, Todo, [])]
    ensures var n := Step(norm, items, Link(id));
      n.Keys == items.Keys && forall x :: x in items ==> n[x] == if x == id && items[x].status == Todo then items[x].(status := InProgress) else items[x]
    ensures Step(norm, items, Delete(id, false)) == items
    ensures var n := Step(norm, items, Delete(id, true));
      && (forall x :: x in n <==> x in items && x != id)
      && forall x :: x in n ==> n[x] == items[x].(dependsOn := n[x].dependsOn) && forall d :: d in n[x].dependsOn <==> d in items[x].dependsOn && d != id
  {
  }
}
