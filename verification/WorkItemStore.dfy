/** The calls that write work items, as they execute (internal/app/release.go, internal/app/ai.go, internal/store/store.go). */
module WorkItemStore {
  import opened Graph
  import opened DependencySearch
  import opened WorkItems

  datatype UpdateReport = Missing | SelfDependency | UnknownDependency(dependency: string) | CycleFound | PrerequisiteOpen | StillRequired | SessionRunning | Saved

  lemma NormalizedStep(deps: seq<string>, k: nat)
    requires k < |deps|
    ensures Normalized(deps[..k + 1]) == if deps[k] == "" || deps[k] in Normalized(deps[..k]) then Normalized(deps[..k]) else Normalized(deps[..k]) + [deps[k]]
  {
    assert deps[..k + 1][..k] == deps[..k];
  }

  class Table {
    var items: Items
    const norm: string -> string

    constructor (norm: string -> string)
      ensures this.norm == norm && items == map[] && Sound(items)
    {
      this.norm := norm;
      items := map[];
      new;
      EmptyIsSound();
    }

    method CreateTask(id: string, requirement: string, title: string) returns (ok: bool)
      requires Sound(items)
      modifies this
      ensures items == Step(norm, old(items), Create(id, requirement, title)) && Sound(items)
      ensures ok <==> id !in old(items)
    {
      StepKeeps(norm, items, Create(id, requirement, title));
      hide Sound;
      ok := id !in items;
      if ok {
        items := items[id := Item(requirement, title, Todo, [])];
      }
    }

    /** Drops blank and repeated dependencies and refuses the first one that is not another item of the requirement. */
    method NormalizeDependencies(id: string, byId: Items, deps: seq<string>) returns (r: UpdateReport, normalized: seq<string>)
      ensures r.Saved? || r.SelfDependency? || r.UnknownDependency?
      ensures r.Saved? <==> forall d :: d in deps && d != "" ==> d != id && d in byId
      ensures r.Saved? ==> normalized == Normalized(deps)
    {
      normalized := [];
      var unique := {};
      for k := 0 to |deps|
        invariant normalized == Normalized(deps[..k]) && forall d :: d in unique <==> d in normalized
        invariant forall d :: d in deps[..k] && d != "" ==> d != id && d in byId
      {
        NormalizedStep(deps, k);
        hide Normalized;
        var d := deps[k];
        assert d in deps;
        if d == "" || d in unique {
          assert d in deps[..k] || d == "";
          continue;
        }
        if d == id {
          return SelfDependency, [];
        }
        if d !in byId {
          return UnknownDependency(d), [];
        }
        unique := unique + {d};
        normalized := normalized + [d];
      }
      assert deps[..|deps|] == deps;
      r := Saved;
    }

    /** Whether some started item of the list depends on `id`. */
    method IsStillRequired(id: string, all: Items) returns (required: bool)
      ensures required <==> exists x :: x in all && !all[x].status.Todo? && id in all[x].dependsOn
    {
      var todo := all.Keys;
      while todo != {}
        invariant todo <= all.Keys
        invariant forall x :: x in all && x !in todo && !all[x].status.Todo? ==> id !in all[x].dependsOn
        decreases todo
      {
        var x :| x in todo;
        todo := todo - {x};
        if all[x].status.Todo? {
          continue;
        }
        for k := 0 to |all[x].dependsOn|
          invariant forall j :: 0 <= j < k ==> all[x].dependsOn[j] != id
        {
          if all[x].dependsOn[k] == id {
            return true;
          }
        }
      }
      required := false;
    }

    method AllDone(byId: Items, deps: seq<string>) returns (done: bool)
      requires forall d :: d in deps ==> d in byId
      ensures done <==> forall d :: d in deps ==> byId[d].status.Done?
    {
      for k := 0 to |deps|
        invariant forall j :: 0 <= j < k ==> byId[deps[j]].status.Done?
      {
        if !byId[deps[k]].status.Done? {
          assert deps[k] in deps;
          return false;
        }
      }
      done := true;
    }

    /** Everything an edit has to satisfy, in the order it is checked. */
    method CheckEdit(id: string, e: Edit, stopped: bool) returns (r: UpdateReport, normalized: seq<string>)
      ensures r.Saved? <==> MayUpdate(items, id, e, stopped)
      ensures r.Saved? ==> normalized == Normalized(e.dependsOn)
    {
      hide Cyclic, Normalized, WithDeps, PrerequisitesDone, MayReopen, DepsAllowed;
      normalized := [];
      if id !in items {
        return Missing, [];
      }
      var task := items[id];
      var all := Within(items, task.requirement);
      r, normalized := NormalizeDependencies(id, all, e.dependsOn);
      WithinDeps(items, id, e.dependsOn);
      if !r.Saved? {
        return;
      }
      var byId := all[id := task.(dependsOn := normalized)];
      WithinIs(items, id, e.dependsOn);
      var cyclic := HasCycle(GraphOf(byId));
      if cyclic {
        return CycleFound, normalized;
      }
      PrerequisitesWithin(items, id, e);
      if e.status.InProgress? || e.status.Done? {
        var done := AllDone(byId, normalized);
        if !done {
          return PrerequisiteOpen, normalized;
        }
      }
      DependentsWithin(items, id, e.status);
      if task.status.Done? && !e.status.Done? {
        var required := IsStillRequired(id, all);
        if required {
          return StillRequired, normalized;
        }
      }
      if e.status.Done? && !stopped {
        return SessionRunning, normalized;
      }
      r := Saved;
    }

    /** Validates an edit against the items of its requirement and writes it back whole. */
    method UpdateTask(id: string, e: Edit, stopped: bool) returns (r: UpdateReport)
      requires Sound(items)
      modifies this
      ensures items == Step(norm, old(items), Update(id, e, stopped)) && Sound(items)
      ensures r.Saved? <==> MayUpdate(old(items), id, e, stopped)
    {
      StepKeeps(norm, items, Update(id, e, stopped));
      hide Sound, MayUpdate;
      var normalized;
      r, normalized := CheckEdit(id, e, stopped);
      if r.Saved? {
        assert id in items by { Exists(items, id, e, stopped); }
        items := items[id := Item(items[id].requirement, e.title, e.status, normalized)];
      }
    }

    /** Writes a whole row back, dependencies included, without looking at what it replaces. */
    method WriteTask(id: string, row: Item) returns (ok: bool)
      requires Sound(items)
      modifies this
      ensures items == Stored(old(items), id, row)
      ensures ok <==> id in old(items) && !RefusesRow(old(items), id, row)
      ensures Sound(items) <==> HarmlessRow(old(items), id, row)
    {
      StaleWriteSound(items, id, row);
      hide Sound, HarmlessRow;
      if id !in items {
        return false;
      }
      ok := true;
      for k := 0 to |row.dependsOn|
        invariant ok <==> forall j :: 0 <= j < k ==> row.dependsOn[j] in items && row.dependsOn[j] != id
      {
        ok := ok && row.dependsOn[k] in items && row.dependsOn[k] != id;
      }
      if ok {
        items := items[id := row.(requirement := items[id].requirement)];
      }
    }

    /** Linking a worktree reads the item and writes its row back started, without looking at its dependencies. */
    method LinkTaskGit(id: string) returns (ok: bool)
      requires Sound(items)
      modifies this
      ensures items == Step(norm, old(items), Link(id)) && Sound(items)
      ensures ok <==> id in old(items)
    {
      StepKeeps(norm, items, Link(id));
      hide Sound;
      if id !in items {
        return false;
      }
      FreshLink(items, id);
      var task := items[id];
      if task.status.Todo? {
        task := task.(status := InProgress);
      }
      ok := WriteTask(id, task);
    }

    method DeleteTask(id: string, stopped: bool) returns (ok: bool)
      requires Sound(items)
      modifies this
      ensures items == Step(norm, old(items), Delete(id, stopped)) && Sound(items)
      ensures ok <==> stopped && id in old(items)
    {
      StepKeeps(norm, items, Delete(id, stopped));
      if !stopped {
        return false;
      }
      ok := id in items;
      NothingToDelete(items, id);
      if ok {
        items := Deleted(items, id);
      }
    }

    // ---------- applying a plan ----------

    method IndexTitles(listed: seq<string>) returns (titles: map<string, string>)
      requires forall id :: id in listed ==> id in items
      ensures titles == TitleIds(norm, items, listed)
    {
      titles := map[];
      for k := 0 to |listed|
        invariant titles == TitleIds(norm, items, listed[..k])
      {
        assert listed[..k + 1][..k] == listed[..k];
        titles := titles[norm(items[listed[k]].title) := listed[k]];
      }
      assert listed[..|listed|] == listed;
    }

    method AllNamed(existing: map<string, string>, generated: set<string>, deps: seq<string>) returns (named: bool)
      ensures named <==> forall d :: d in deps ==> norm(d) in existing.Keys + generated
    {
      for j := 0 to |deps|
        invariant forall i :: 0 <= i < j ==> norm(deps[i]) in existing.Keys + generated
      {
        if norm(deps[j]) !in generated && norm(deps[j]) !in existing {
          assert deps[j] in deps;
          return false;
        }
      }
      named := true;
    }

    /** Every title is new and every dependency names an existing or earlier title. */
    method ValidatePlan(existing: map<string, string>, suggestions: seq<Suggestion>, ghost ids: seq<string>) returns (ok: bool, ghost bad: nat)
      requires |ids| == |suggestions|
      ensures ok ==> AllResolvable(norm, existing, suggestions, ids, |suggestions|)
      ensures !ok ==> bad < |suggestions| && !Resolvable(norm, TitlesAt(norm, existing, suggestions, ids, bad), suggestions[bad])
    {
      hide Resolvable, TitlesAt, AllResolvable;
      bad := 0;
      var generated := {};
      TitlesStart(norm, existing, suggestions, ids);
      for k := 0 to |suggestions|
        invariant TitlesAt(norm, existing, suggestions, ids, k).Keys == existing.Keys + generated
        invariant AllResolvable(norm, existing, suggestions, ids, k)
      {
        ResolvableKeys(norm, TitlesAt(norm, existing, suggestions, ids, k), suggestions[k], existing.Keys + generated);
        TitlesGrow(norm, existing, suggestions, ids, k);
        ResolvableMore(norm, existing, suggestions, ids, k);
        var key := norm(suggestions[k].title);
        bad := k;
        if key in existing || key in generated {
          return false, bad;
        }
        var named := AllNamed(existing, generated, suggestions[k].dependsOn);
        if !named {
          return false, bad;
        }
        generated := generated + {key};
      }
      ok := true;
    }

    method ResolveDependencies(titles: map<string, string>, deps: seq<string>) returns (ids: seq<string>)
      requires forall d :: d in deps ==> norm(d) in titles
      ensures ids == ResolvedIds(norm, titles, deps)
    {
      ids := [];
      for k := 0 to |deps|
        invariant ids == ResolvedIds(norm, titles, deps)[..k]
      {
        ids := ids + [titles[norm(deps[k])]];
      }
    }

    method HasRepeats(s: seq<string>) returns (repeats: bool)
      ensures repeats <==> !Distinct(s)
    {
      var seen := {};
      for k := 0 to |s|
        invariant forall x :: x in seen <==> x in s[..k]
        invariant Distinct(s[..k])
      {
        if s[k] in seen {
          var j :| 0 <= j < k && s[j] == s[k];
          return true;
        }
        seen := seen + {s[k]};
      }
      assert s[..|s|] == s;
      repeats := false;
    }

    /** The rows of a validated plan; each title becomes resolvable for the ones after it. */
    method BuildTasks(requirement: string, existing: map<string, string>, suggestions: seq<Suggestion>, ids: seq<string>) returns (tasks: seq<Item>)
      requires |ids| == |suggestions| && AllResolvable(norm, existing, suggestions, ids, |suggestions|)
      ensures AllBuilt(norm, requirement, existing, suggestions, ids, tasks)
    {
      hide Resolvable, TitlesAt, AllResolvable, BuiltItem;
      var titles := existing;
      tasks := [];
      TitlesStart(norm, existing, suggestions, ids);
      for k := 0 to |suggestions|
        invariant titles == TitlesAt(norm, existing, suggestions, ids, k) && |tasks| == k
        invariant forall j :: 0 <= j < k ==> tasks[j] == BuiltItem(norm, requirement, TitlesAt(norm, existing, suggestions, ids, j), suggestions[j])
      {
        TitlesGrow(norm, existing, suggestions, ids, k);
        ResolvableAt(norm, requirement, existing, suggestions, ids, k);
        var deps := ResolveDependencies(titles, suggestions[k].dependsOn);
        tasks := tasks + [Item(requirement, suggestions[k].title, Todo, deps)];
        titles := titles[norm(suggestions[k].title) := ids[k]];
      }
    }

    /** Applies a reviewed plan in one transaction: all of its tasks, or none. */
    method ApplyPlanningDocument(requirement: string, listed: seq<string>, suggestions: seq<Suggestion>, ids: seq<string>, revisionOk: bool)
      returns (ok: bool)
      requires Sound(items) && |ids| == |suggestions| && Lists(items, requirement, listed)
      modifies this
      ensures items == Step(norm, old(items), ApplyPlan(requirement, listed, suggestions, ids, revisionOk)) && Sound(items)
      ensures ok ==> revisionOk && Extended(old(items), items, ids)
      ensures !ok ==> items == old(items)
    {
      StepKeeps(norm, items, ApplyPlan(requirement, listed, suggestions, ids, revisionOk));
      TitleIdsLocal(norm, items, requirement, listed);
      PlantingKeeps(norm, items, requirement, TitleIds(norm, items, listed), suggestions, ids, |ids|);
      assert ids[..|ids|] == ids;
      hide Sound, TitlesLocal, Extended, TitleIds, Planting, PlantedOne, Resolvable, Lists, AllResolvable, AllBuilt, TitlesAt;
      assert forall id :: id in listed ==> id in items by { Listed(items, requirement, listed); }
      var existing := IndexTitles(listed);
      ghost var bad;
      ok, bad := ValidatePlan(existing, suggestions, ids);
      if !ok {
        Unresolvable(norm, items, requirement, existing, suggestions, ids, bad);
        return;
      }
      var tasks := BuildTasks(requirement, existing, suggestions, ids);
      ok := InsertAll(requirement, existing, suggestions, ids, tasks, revisionOk);
    }

    /** The transaction: rows are inserted one by one, and a failure or a stale revision rolls all of them back. */
    method InsertAll(requirement: string, titles: map<string, string>, suggestions: seq<Suggestion>, ids: seq<string>, tasks: seq<Item>, revisionOk: bool)
      returns (ok: bool)
      requires |tasks| == |ids| == |suggestions|
      requires AllResolvable(norm, titles, suggestions, ids, |suggestions|) && AllBuilt(norm, requirement, titles, suggestions, ids, tasks)
      modifies this
      ensures var r := Planting(norm, old(items), requirement, titles, suggestions, ids, |ids|);
        (ok <==> revisionOk && r.Plan?) && items == if ok then r.items else old(items)
    {
      hide Resolvable, TitlesAt;
      var planted := items;
      for k := 0 to |tasks|
        invariant items == old(items)
        invariant Planting(norm, old(items), requirement, titles, suggestions, ids, k) == Plan(planted)
      {
        var repeats := HasRepeats(tasks[k].dependsOn);
        PlantingNext(norm, old(items), planted, requirement, titles, suggestions, ids, k);
        if ids[k] in planted || repeats {
          ConflictStays(norm, items, requirement, titles, suggestions, ids, k + 1, |ids|);
          return false;
        }
        planted := planted[ids[k] := tasks[k]];
      }
      ok := revisionOk;
      if ok {
        items := planted;
      }
    }
  }

  predicate AllResolvable(norm: string -> string, titles: map<string, string>, suggestions: seq<Suggestion>, ids: seq<string>, n: nat)
    requires n <= |suggestions| == |ids|
  {
    forall k :: 0 <= k < n ==> Resolvable(norm, TitlesAt(norm, titles, suggestions, ids, k), suggestions[k])
  }

  predicate AllBuilt(norm: string -> string, requirement: string, titles: map<string, string>, suggestions: seq<Suggestion>, ids: seq<string>, tasks: seq<Item>)
    requires |ids| == |suggestions|
  {
    && |tasks| == |suggestions|
    && forall k :: 0 <= k < |tasks| ==> tasks[k] == BuiltItem(norm, requirement, TitlesAt(norm, titles, suggestions, ids, k), suggestions[k])
  }

  lemma TitlesGrow(norm: string -> string, titles: map<string, string>, suggestions: seq<Suggestion>, ids: seq<string>, k: nat)
    requires k < |suggestions| == |ids|
    ensures TitlesAt(norm, titles, suggestions, ids, k + 1) == TitlesAt(norm, titles, suggestions, ids, k)[norm(suggestions[k].title) := ids[k]]
  {
  }

  lemma TitlesStart(norm: string -> string, titles: map<string, string>, suggestions: seq<Suggestion>, ids: seq<string>)
    requires |suggestions| == |ids|
    ensures TitlesAt(norm, titles, suggestions, ids, 0) == titles && AllResolvable(norm, titles, suggestions, ids, 0)
  {
  }

  lemma ResolvableMore(norm: string -> string, titles: map<string, string>, suggestions: seq<Suggestion>, ids: seq<string>, k: nat)
    requires k < |suggestions| == |ids|
    ensures AllResolvable(norm, titles, suggestions, ids, k + 1) <==>
      AllResolvable(norm, titles, suggestions, ids, k) && Resolvable(norm, TitlesAt(norm, titles, suggestions, ids, k), suggestions[k])
  {
    hide Resolvable, TitlesAt;
  }

  lemma ResolvableAt(norm: string -> string, requirement: string, titles: map<string, string>, suggestions: seq<Suggestion>, ids: seq<string>, k: nat)
    requires k < |suggestions| == |ids| && AllResolvable(norm, titles, suggestions, ids, |suggestions|)
    ensures var known := TitlesAt(norm, titles, suggestions, ids, k);
      var s := suggestions[k];
      (forall d :: d in s.dependsOn ==> norm(d) in known)
        && BuiltItem(norm, requirement, known, s) == Item(requirement, s.title, Todo, ResolvedIds(norm, known, s.dependsOn))
  {
    hide TitlesAt;
    assert Resolvable(norm, TitlesAt(norm, titles, suggestions, ids, k), suggestions[k]);
  }

  lemma WithinHas(items: Items, requirement: string)
    ensures forall x :: x in Within(items, requirement) <==> x in items && items[x].requirement == requirement
    ensures forall x :: x in Within(items, requirement) ==> Within(items, requirement)[x] == items[x]
  {
  }

  lemma ResolvableKeys(norm: string -> string, titles: map<string, string>, s: Suggestion, keys: set<string>)
    requires titles.Keys == keys
    ensures Resolvable(norm, titles, s) <==> norm(s.title) !in keys && forall d :: d in s.dependsOn ==> norm(d) in keys
  {
  }

  lemma WithinDeps(items: Items, id: string, deps: seq<string>)
    requires id in items
    ensures DepsAllowed(items, id, deps) <==> forall d :: d in deps && d != "" ==> d != id && d in Within(items, items[id].requirement)
  {
  }

  lemma WithinIs(items: Items, id: string, deps: seq<string>)
    requires id in items
    ensures WithDeps(items, id, deps) == Within(items, items[id].requirement)[id := items[id].(dependsOn := Normalized(deps))]
  {
  }

  lemma PrerequisitesWithin(items: Items, id: string, e: Edit)
    requires id in items && DepsAllowed(items, id, e.dependsOn)
    ensures var byId := Within(items, items[id].requirement)[id := items[id].(dependsOn := Normalized(e.dependsOn))];
      (forall d :: d in Normalized(e.dependsOn) ==> d in byId) &&
      (PrerequisitesDone(items, e.dependsOn, e.status) <==> (!e.status.Todo? ==> forall d :: d in Normalized(e.dependsOn) ==> byId[d].status.Done?))
  {
    WithinHas(items, items[id].requirement);
    hide Normalized, Within;
  }

  lemma DependentsWithin(items: Items, id: string, status: Status)
    requires id in items
    ensures var all := Within(items, items[id].requirement);
      MayReopen(items, id, status) <==>
        !(items[id].status.Done? && !status.Done? && exists x :: x in all && !all[x].status.Todo? && id in all[x].dependsOn)
  {
    var all := Within(items, items[id].requirement);
    WithinHas(items, items[id].requirement);
    hide Within;
    if items[id].status.Done? && !status.Done? {
      if x :| x in items && items[x].requirement == items[id].requirement && !items[x].status.Todo? && id in items[x].dependsOn {
        assert x in all && all[x] == items[x];
      }
    }
  }

  lemma Exists(items: Items, id: string, e: Edit, stopped: bool)
    requires MayUpdate(items, id, e, stopped)
    ensures id in items
  {
    hide Cyclic;
  }

  lemma NothingToDelete(items: Items, id: string)
    requires Sound(items)
    ensures id !in items ==> Deleted(items, id) == items
  {
    if id !in items {
      forall x | x in items ensures Without(items[x].dependsOn, id) == items[x].dependsOn {
        WithoutNone(items[x].dependsOn, id);
      }
      assert forall x :: x in items ==> Deleted(items, id)[x] == items[x];
    }
  }

  lemma {:induction false} WithoutNone(deps: seq<string>, id: string)
    requires id !in deps
    ensures Without(deps, id) == deps
  {
    if deps != [] {
      WithoutNone(deps[..|deps| - 1], id);
    }
  }

  lemma Listed(items: Items, requirement: string, listed: seq<string>)
    requires Lists(items, requirement, listed)
    ensures forall id :: id in listed ==> id in items
  {
  }

  /** The row built for a suggestion; its dependencies are resolved through the titles known by then. */
  function BuiltItem(norm: string -> string, requirement: string, titles: map<string, string>, s: Suggestion): Item {
    Item(requirement, s.title, Todo, if forall d :: d in s.dependsOn ==> norm(d) in titles then ResolvedIds(norm, titles, s.dependsOn) else [])
  }

  lemma {:induction false} ConflictStays(norm: string -> string, items: Items, requirement: string, titles: map<string, string>, suggestions: seq<Suggestion>, ids: seq<string>, k: nat, n: nat)
    requires k <= n <= |suggestions| == |ids| && Planting(norm, items, requirement, titles, suggestions, ids, k).Conflict?
    ensures Planting(norm, items, requirement, titles, suggestions, ids, n).Conflict?
  {
    if k < n {
      ConflictStays(norm, items, requirement, titles, suggestions, ids, k, n - 1);
    }
  }

  lemma Unresolvable(norm: string -> string, items: Items, requirement: string, titles: map<string, string>, suggestions: seq<Suggestion>, ids: seq<string>, k: nat)
    requires k < |suggestions| == |ids| && !Resolvable(norm, TitlesAt(norm, titles, suggestions, ids, k), suggestions[k])
    ensures Planting(norm, items, requirement, titles, suggestions, ids, |ids|).Conflict?
  {
    hide Resolvable, TitlesAt;
    ConflictStays(norm, items, requirement, titles, suggestions, ids, k + 1, |ids|);
  }

  lemma PlantingNext(norm: string -> string, items: Items, planted: Items, requirement: string, titles: map<string, string>, suggestions: seq<Suggestion>, ids: seq<string>, k: nat)
    requires k < |suggestions| == |ids| && Planting(norm, items, requirement, titles, suggestions, ids, k) == Plan(planted)
    requires Resolvable(norm, TitlesAt(norm, titles, suggestions, ids, k), suggestions[k])
    ensures var row := BuiltItem(norm, requirement, TitlesAt(norm, titles, suggestions, ids, k), suggestions[k]);
      Planting(norm, items, requirement, titles, suggestions, ids, k + 1) ==
      if ids[k] in planted || !Distinct(row.dependsOn) then Conflict else Plan(planted[ids[k] := row])
  {
  }
}
