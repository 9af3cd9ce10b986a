/**
 * Four runs: one whose candidate is ready, one for each window a crash can fall into, and one that
 * completes with a repair nobody tested.
 */
module MissionExample {
  import opened Graph
  import opened Team
  import opened Scheduler
  import opened MissionSteps
  import opened MissionInvariant
  import opened MissionOrder
  import opened MissionOutcome
  import opened MissionRepair
  import opened MissionWorld
  import opened MissionItems
  import opened MissionScript
  import opened MissionStory
  import opened Readiness
  import E = Evidence

  const LIMITS := Budget(1, 12, 0, None)

  const GIT := Git("repo", (dir: string) => dir)

  /** Heads contain themselves, and the repaired head contains everything. */
  const CONTAINS: (string, string) -> bool := (x, y) => x == y || y == "h2"

  function Opening(plan: seq<Task>): World {
    World(Mission("m", "w", "p", 0, 1, plan, ["c"], [], [], [MODEL], LIMITS, POLICY, Pending, []),
          [], map[], None, [E.Criterion("k", false)], [])
  }

  // ---------- scenes ----------

  /** Which tasks of the plan are done; the others wait. */
  predicate Marked(plan: seq<Task>, marks: seq<bool>) {
    |marks| == |plan| && forall k :: 0 <= k < |plan| ==> if marks[k] then plan[k].state.Completed? else Schedulable(plan[k].state)
  }

  predicate Scene(w: World, shape: seq<Task>, marks: seq<bool>, execs: nat) {
    && SamePlanShape(shape, w.m.plan) && Marked(w.m.plan, marks) && Calm(w.m) && w.m.risk == 1 && w.m.budget == LIMITS && w.m.id == "m"
    && |w.m.executions| == execs && w.made.None? && |w.criteria| == 1 && !Terminal(w.m.state)
    && forall k :: 0 <= k < |w.m.plan| ==> 0 <= w.m.plan[k].attempts
  }

  /** Task `i` is the first whose dependencies are all done. */
  predicate Turn(shape: seq<Task>, marks: seq<bool>, i: nat)
    requires |marks| == |shape|
  {
    && i < |shape| && !marks[i] && (forall j :: 0 <= j < |shape| && shape[j].id in shape[i].dependsOn ==> marks[j])
    && forall k :: 0 <= k < i ==> marks[k] || exists j :: 0 <= j < |shape| && shape[j].id in shape[k].dependsOn && !marks[j]
  }

  lemma TurnIsNext(w: World, shape: seq<Task>, marks: seq<bool>, execs: nat, i: nat)
    requires Scene(w, shape, marks, execs) && |marks| == |shape| && Turn(shape, marks, i) && w.m.plan[i].attempts <= 2 && execs < 12
    ensures i < |w.m.plan| && Idle(w.m) && NextUp(w.m.plan, i)
  {
    hide Calm;
    var plan := w.m.plan;
    forall j | 0 <= j < |plan| && plan[j].id in plan[i].dependsOn ensures plan[j].state.Completed? {
      assert SameShape(shape[j], plan[j]) && SameShape(shape[i], plan[i]);
    }
    forall k | 0 <= k < i && Schedulable(plan[k].state) ensures !DependenciesDone(plan, k) {
      var j :| 0 <= j < |shape| && shape[j].id in shape[k].dependsOn && !marks[j];
      assert SameShape(shape[j], plan[j]) && SameShape(shape[k], plan[k]);
    }
  }

  lemma AchievedScene(w: World, v: World, shape: seq<Task>, marks: seq<bool>, execs: nat, i: nat, id: string, head: string)
    requires Scene(w, shape, marks, execs) && |marks| == |shape| && i < |shape| && Achieved(w.m, v.m, i, id, head)
    requires v.made.None? && v.criteria == w.criteria
    ensures Scene(v, shape, marks[i := true], execs + 1)
    ensures OthersKept(w, v, i)
    ensures v.m.plan[i].taskId == id && v.m.plan[i].attempts == w.m.plan[i].attempts + 1 && v.m.plan[i].artifactHead == head
  {
    hide Calm;
    forall k | 0 <= k < |shape| ensures SameShape(shape[k], v.m.plan[k]) {
      assert SameShape(shape[k], w.m.plan[k]);
      assert k != i ==> SameButLabel(w.m.plan[k], v.m.plan[k]);
    }
    assert forall k :: 0 <= k < |shape| && k != i ==> SameButLabel(w.m.plan[k], v.m.plan[k]);
  }

  /** What stays of every other task over an attempt of task `i`. */
  predicate OthersKept(w: World, v: World, i: nat) {
    |v.m.plan| == |w.m.plan| && forall k :: 0 <= k < |w.m.plan| && k != i ==>
      && v.m.plan[k].taskId == w.m.plan[k].taskId && v.m.plan[k].attempts == w.m.plan[k].attempts
      && v.m.plan[k].artifactHead == w.m.plan[k].artifactHead
  }

  /** How far each task has come: done or not, attempts, work item and artifact; and where the source stands. */
  datatype Act = Act(marks: seq<bool>, tries: seq<nat>, ids: seq<string>, heads: seq<string>, execs: nat, source: string, fixes: nat)

  /** Task `k` stands as the act says. */
  predicate Stands(t: Task, a: Act, k: nat)
    requires k < |a.marks| == |a.tries| == |a.ids| == |a.heads|
  {
    t.attempts == a.tries[k] && t.taskId == a.ids[k] && (a.marks[k] ==> t.artifactHead == a.heads[k])
  }

  predicate Performed(w: World, shape: seq<Task>, a: Act) {
    && |shape| == |a.marks| == |a.tries| == |a.ids| == |a.heads| && Scene(w, shape, a.marks, a.execs)
    && (forall k :: 0 <= k < |shape| ==> Stands(w.m.plan[k], a, k))
    && a.source != "" && FromSource(w.m.executions, a.source) && w.m.fixCycles == a.fixes
  }

  ghost predicate Holds(s: Story, shape: seq<Task>, a: Act) {
    Told(s, CONTAINS, GIT) && s.worlds != [] && s.worlds[0] == Opening(shape) && Performed(Last(s), shape, a)
  }

  /** Task `i` succeeded with work item `id` at `head`. */
  function Then(a: Act, i: nat, id: string, head: string): Act
    requires i < |a.marks| == |a.tries| == |a.ids| == |a.heads|
  {
    Act(a.marks[i := true], a.tries[i := a.tries[i] + 1], a.ids[i := id], a.heads[i := head], a.execs + 1, head, a.fixes)
  }

  /** The item is new, or the task's own from an earlier attempt. */
  predicate MayUse(w: World, a: Act, i: nat, id: string)
    requires i < |a.tries| == |a.ids|
  {
    |id| >= 8 && (if a.ids[i] == "" then id !in w.items else id == a.ids[i] && id in w.items && a.tries[i] >= 1)
  }

  predicate MayPlay(w: World, shape: seq<Task>, a: Act, i: nat, id: string, proofId: string, head: string) {
    && |shape| == |a.marks| == |a.tries| == |a.ids| == |a.heads| && Turn(shape, a.marks, i) && a.tries[i] <= 2 && a.execs < 12
    && MayUse(w, a, i, id) && head != "" && (ReadOnly(shape[i].role) ==> head == a.source)
    && (shape[i].role.Qa? ==> proofId != "" && shape[i].id != "" && Unlogged(w.log, shape[i].id, a.tries[i] + 1, proofId))
  }

  predicate Unlogged(log: seq<CheckRun>, taskId: string, attempt: nat, proofId: string) {
    forall x :: 0 <= x < |log| ==> log[x].proofId != proofId && !(log[x].planTaskId == taskId && log[x].attempt == attempt)
  }

  lemma MayAttempt(w: World, shape: seq<Task>, a: Act, i: nat, id: string, proofId: string, head: string)
    requires Performed(w, shape, a) && MayPlay(w, shape, a, i, id, proofId, head)
    ensures Calm(w.m) && Idle(w.m) && NextUp(w.m.plan, i) && i < |w.m.plan| && w.m.plan[i].attempts >= 0 && ItemFits(w, w.m.plan[i], id)
    ensures ReadOnly(w.m.plan[i].role) ==> head == a.source
    ensures w.m.plan[i].role.Qa? ==> CheckFits(w, w.m.plan[i], proofId)
    ensures w.m.plan[i].id == shape[i].id && w.m.plan[i].role == shape[i].role && w.m.plan[i].attempts == a.tries[i]
  {
    hide Calm, Idle, NextUp, FromSource, Turn;
    assert i < |shape| by { MayLengths(w, shape, a, i, id, proofId, head); }
    assert SameShape(shape[i], w.m.plan[i]) && Stands(w.m.plan[i], a, i);
    TurnIsNext(w, shape, a.marks, a.execs, i);
  }

  lemma PerformedThen(w: World, v: World, shape: seq<Task>, a: Act, i: nat, id: string, head: string)
    requires Performed(w, shape, a) && i < |shape| && Achieved(w.m, v.m, i, id, head) && v.made.None? && v.criteria == w.criteria
    requires head != "" && FromSource(v.m.executions, head)
    ensures Performed(v, shape, Then(a, i, id, head))
  {
    hide FromSource, Calm;
    assert v.m.fixCycles == w.m.fixCycles;
    hide Achieved;
    AchievedScene(w, v, shape, a.marks, a.execs, i, id, head);
    var b := Then(a, i, id, head);
    hide Scene;
    forall k | 0 <= k < |shape| ensures k < |v.m.plan| && Stands(v.m.plan[k], b, k) {
      assert Stands(w.m.plan[k], a, k);
    }
  }

  /** A successful attempt of the task whose turn it is. */
  lemma Play(s: Story, shape: seq<Task>, a: Act, i: nat, id: string, proofId: string, head: string) returns (u: Story)
    requires Holds(s, shape, a) && MayPlay(Last(s), shape, a, i, id, proofId, head)
    ensures i < |a.marks| == |a.tries| == |a.ids| == |a.heads| && Holds(u, shape, Then(a, i, id, head))
    ensures |Last(u).m.executions| == a.execs + 1 && i < |shape|
    ensures Last(u).m.executions[a.execs].result.Completed? && Last(u).m.executions[a.execs].agent == shape[i].role
    ensures IsDone(Last(u), id) && Last(u).items == Last(s).items[id := Last(u).items[id]]
    ensures if shape[i].role.Qa? then LoggedOnce(Last(s).log, Last(u).log, shape[i].id, a.tries[i] + 1, proofId) else Last(u).log == Last(s).log
  {
    hide Told, Performed, MayPlay, FromSource, Calm, Idle, NextUp, ItemFits, CheckFits, Turn, IsDone, Achieved, LogGrew;
    MayLengths(Last(s), shape, a, i, id, proofId, head);
    MayAttempt(Last(s), shape, a, i, id, proofId, head);
    var n;
    u, n := Attempt(s, i, id, proofId, a.source, head, CONTAINS, GIT);
    PerformedThen(Last(s), Last(u), shape, a, i, id, head);
    AchievedLast(Last(s).m, n, i, id, head);
    DoneKnown(Last(u), id);
    GrewOnce(Last(s).log, Last(u).log, Last(s).m.plan[i], proofId);
  }

  predicate LoggedOnce(log: seq<CheckRun>, more: seq<CheckRun>, taskId: string, attempt: nat, proofId: string) {
    forall x :: 0 <= x < |more| ==>
      (x < |log| && more[x] == log[x]) || (more[x].proofId == proofId && more[x].planTaskId == taskId && more[x].attempt == attempt)
  }

  lemma GrewOnce(log: seq<CheckRun>, more: seq<CheckRun>, t: Task, proofId: string)
    requires LogGrew(log, more, t, proofId) && t.attempts >= 0
    ensures LoggedOnce(log, more, t.id, t.attempts + 1, proofId)
  {
    forall x | 0 <= x < |more| && x < |log| ensures more[x] == log[x] {
      assert more == log || more[..|log|] == log;
    }
  }

  lemma MayLengths(w: World, shape: seq<Task>, a: Act, i: nat, id: string, proofId: string, head: string)
    requires Performed(w, shape, a) && MayPlay(w, shape, a, i, id, proofId, head)
    ensures |shape| == |a.marks| == |a.tries| == |a.ids| == |a.heads| && i < |shape| && a.source != "" && head != "" && w.made.None?
    ensures FromSource(w.m.executions, a.source) && |w.m.executions| == a.execs
  {
    hide FromSource, Calm;
  }

  lemma DoneKnown(w: World, id: string)
    requires IsDone(w, id)
    ensures id in w.items
  {
  }

  lemma AchievedLast(m: Mission, n: Mission, i: nat, id: string, head: string)
    requires Achieved(m, n, i, id, head)
    ensures i < |n.plan| && |n.executions| == |m.executions| + 1
    ensures n.executions[|m.executions|].result.Completed? && n.executions[|m.executions|].agent == m.plan[i].role
  {
    hide Calm;
  }

  // ---------- a plan in order ----------

  function Plan(): seq<Task> {
    [NewTask("l", Lead, [], "coding", 2), NewTask("q", Qa, ["l"], "testing", 2), NewTask("r", Review, ["q"], "review", 2)]
  }

  function Rank(id: string): int {
    if id == "l" then 0 else if id == "q" then 1 else 2
  }

  lemma GraphOfPlan()
    ensures PlanGraph(Plan()) == map["l" := [], "q" := ["l"], "r" := ["q"]]
  {
    var l, q, r := NewTask("l", Lead, [], "coding", 2), NewTask("q", Qa, ["l"], "testing", 2), NewTask("r", Review, ["q"], "review", 2);
    assert PlanGraph([]) == map[] by { EmptyPlanGraph(); }
    hide PlanGraph;
    PlanGraphSnoc([], l);
    PlanGraphSnoc([l], q);
    PlanGraphSnoc([l, q], r);
    assert [] + [l] == [l] && [l] + [q] == [l, q] && Plan() == [l, q] + [r];
  }

  lemma PlanIsValid()
    ensures PlanValid(Plan(), 1) && Ordered(Plan())
  {
    hide PlanGraph, Reaches, Cyclic, TaskFieldsOk;
    GraphOfPlan();
    var plan := Plan();
    var g := PlanGraph(plan);
    RankedIsAcyclic(g, Rank);
    ReachesEdge(g, "q", "l");
    ReachesEdge(g, "r", "q");
    assert plan[0].role == Lead && plan[1].role == Qa && plan[2].role == Review;
    NewTaskOk("l", Lead, [], "coding", 2, 0);
    NewTaskOk("q", Qa, ["l"], "testing", 2, 7);
    NewTaskOk("r", Review, ["q"], "review", 2, 6);
  }

  lemma OpeningIsFresh(plan: seq<Task>)
    requires PlanValid(plan, 1) && forall k :: 0 <= k < |plan| ==> FreshTask(plan[k])
    ensures Fresh(Opening(plan))
  {
    hide PlanValid, FreshTask;
  }

  lemma OpeningScene()
    ensures Scene(Opening(Plan()), Plan(), [false, false, false], 0)
  {
    SafePlan();
    hide SafeTask;
  }

  lemma SafePlan()
    ensures forall k :: 0 <= k < |Plan()| ==> SafeTask(Plan()[k])
  {
    assert CAPABILITIES[0] == "coding" && CAPABILITIES[7] == "testing" && CAPABILITIES[6] == "review";
  }

  lemma Turns()
    ensures Turn(Plan(), [false, false, false], 0) && Turn(Plan(), [true, false, false], 1) && Turn(Plan(), [true, true, false], 2)
  {
    assert Plan()[0].id == "l" && Plan()[1].id == "q" && Plan()[2].id == "r";
  }

  const DAWN := Act([false, false, false], [0, 0, 0], ["", "", ""], ["", "", ""], 0, "h1", 0)

  lemma Opened() returns (s: Story)
    ensures Holds(s, Plan(), DAWN) && Last(s) == Opening(Plan())
  {
    hide PlanValid, Ordered, Told, Scene, Fresh, FreshTask, FromSource;
    PlanIsValid();
    assert forall k :: 0 <= k < |Plan()| ==> FreshTask(Plan()[k]) by { PlanIsFresh(); }
    OpeningIsFresh(Plan());
    OpeningScene();
    s := Begin(Opening(Plan()), CONTAINS, GIT);
    NoSource(Opening(Plan()).m, "h1");
    forall k | 0 <= k < |Plan()| ensures Stands(Opening(Plan()).m.plan[k], DAWN, k) {
    }
  }

  lemma NoSource(m: Mission, head: string)
    requires m.executions == []
    ensures FromSource(m.executions, head)
  {
  }

  lemma PlanIsFresh()
    ensures forall k :: 0 <= k < |Plan()| ==> FreshTask(Plan()[k])
  {
  }

  // ---------- what the export makes of a completed run ----------

  const HOST := E.Host((path: string) => path, CONTAINS)

  /** There is one check and one QA task, so one digest tells all checks apart. */
  const DIGEST: Digest := (mission: string, task: string, check: nat, command: string) => seq(64, k => '0')

  const TREES: string -> Tree := (dir: string) => Tree("h1", true)

  /** A completed telling of the plan: everything a reader of its export needs to know. */
  ghost predicate Finale(s: Story) {
    && Told(s, CONTAINS, GIT) && s.worlds != [] && s.worlds[0] == Opening(Plan()) && Last(s).m.state.Completed?
    && SamePlanShape(Plan(), Last(s).m.plan) && Commands(Last(s).m) == ["c"] && Last(s).m.id == "m"
    && forall k :: 0 <= k < |Last(s).m.plan| ==> Last(s).m.plan[k].artifactHead == "h1"
  }

  /** An export of a world as the example's repository holds it. */
  ghost predicate Shows(w: World, x: Export) {
    Exported(w, x, GIT, DIGEST, TREES) && DigestOk(w.m, DIGEST) && Undisturbed(w.m, TREES)
  }

  ghost predicate IsReady(x: Export) {
    E.Complete(HOST, x.criteria, x.items, x.evidence, x.sources, x.runs, true)
  }

  lemma OneCheck(m: Mission)
    requires SamePlanShape(Plan(), m.plan) && Commands(m) == ["c"]
    ensures DigestOk(m, DIGEST)
  {
    assert SameShape(Plan()[0], m.plan[0]) && SameShape(Plan()[1], m.plan[1]) && SameShape(Plan()[2], m.plan[2]);
    forall k: nat, c: nat | k < |m.plan| && c < |Commands(m)| && IsCheck(m, k, c) ensures k == 1 && c == 0 && E.IsDigest(CheckDigest(m, DIGEST, k, c)) {
    }
  }

  /** The export is ready exactly when every item is done, and that by the theorem exactly when both windows were missed. */
  lemma Verdict(s: Story) returns (x: Export)
    requires Finale(s)
    ensures Shows(Last(s), x) && (IsReady(x) <==> forall id :: id in Last(s).items ==> IsDone(Last(s), id))
    ensures |s.worlds| == |s.events| + 1 && (IsReady(x) <==> AllNamed(s.events, |s.events|) && AllRepaired(s.worlds, s.events, |s.events|))
    ensures AllNamed(s.events, |s.events|) <==> forall id :: id in Last(s).items ==> IsPlanned(Last(s).m, id)
  {
    hide WorldInv, ItemInv, WorldRun, Inv, Ordered, Exported, DigestOk, Undisturbed, E.Complete, IsDone, AllNamed, AllRepaired, PlanValid, IsPlanned;
    var w := Last(s);
    ToldFacts(s, CONTAINS, GIT);
    PlanIsValid();
    OneCheck(w.m);
    assert Undisturbed(w.m, TREES) by { Undisturbing(w.m); }
    WorldSound(s.worlds, s.events, CONTAINS, GIT, |s.worlds| - 1);
    x := SomeExport(w, GIT, DIGEST, TREES) by { LogIn(w); }
    ReadyWhenDone(w, x, HOST, DIGEST, GIT, TREES);
    CompletedIsReady(s.worlds, s.events, |s.events|, x, HOST, DIGEST, GIT, TREES);
    AllNamedExactly(s.worlds, s.events, CONTAINS, GIT, |s.events|);
  }

  lemma Undisturbing(m: Mission)
    requires forall k :: 0 <= k < |m.plan| ==> m.plan[k].artifactHead == "h1"
    ensures Undisturbed(m, TREES)
  {
  }

  lemma LogIn(w: World)
    requires WorldInv(w, CONTAINS, GIT)
    ensures LogOk(w, GIT)
  {
    hide Inv, OrderInv, LogOk, CriteriaOk;
  }

  lemma Close(s: Story, a: Act) returns (u: Story)
    requires Holds(s, Plan(), a) && a.marks == [true, true, true] && a.heads == ["h1", "h1", "h1"] && a.source == "h1"
    ensures Finale(u) && Last(u).items == Last(s).items && Last(u).m.plan == Last(s).m.plan
  {
    hide Told, FromSource, SafeTask;
    var w := Last(s);
    assert SameShape(Plan()[2], w.m.plan[2]);
    assert HasRole(w.m.plan, Review);
    forall k | 0 <= k < |w.m.plan| ensures w.m.plan[k].artifactHead == "h1" {
      assert Stands(w.m.plan[k], a, k);
    }
    assert AllContained(w.m.plan, CONTAINS, "h1");
    u := TellConclude(s, "h1", CONTAINS, GIT);
    assert Commands(w.m) == ["c"];
  }

  // ---------- a run whose candidate is ready ----------

  const LED := Act([true, false, false], [1, 0, 0], ["item-one", "", ""], ["h1", "", ""], 1, "h1", 0)

  const TESTED := Act([true, true, false], [1, 1, 0], ["item-one", "item-two", ""], ["h1", "h1", ""], 2, "h1", 0)

  const REVIEWED := Act([true, true, true], [1, 1, 1], ["item-one", "item-two", "item-three"], ["h1", "h1", "h1"], 3, "h1", 0)

  /** The lead and QA succeed at once. */
  lemma UntilTested() returns (s: Story)
    ensures Holds(s, Plan(), TESTED) && Last(s).items.Keys == {"item-one", "item-two"} && IsDone(Last(s), "item-one") && IsDone(Last(s), "item-two")
  {
    hide Told, Performed, Turn;
    Turns();
    var a := Opened();
    var b := Play(a, Plan(), DAWN, 0, "item-one", "", "h1");
    assert Then(DAWN, 0, "item-one", "h1") == LED;
    s := Play(b, Plan(), LED, 1, "item-two", "p1", "h1");
    assert Then(LED, 1, "item-two", "h1") == TESTED;
  }

  /** Nothing goes wrong: the mission completes and its export is ready, so every condition of the readiness theorem can be met. */
  lemma ReadyRun() returns (s: Story, x: Export)
    ensures Finale(s) && Shows(Last(s), x) && IsReady(x)
  {
    hide Told, Performed, Turn, Finale, Shows, IsReady;
    Turns();
    var a := UntilTested();
    var b := Play(a, Plan(), TESTED, 2, "item-three", "", "h1");
    assert Then(TESTED, 2, "item-three", "h1") == REVIEWED;
    s := Close(b, REVIEWED);
    x := Verdict(s);
    forall id | id in Last(s).items ensures IsDone(Last(s), id) {
      assert id == "item-one" || id == "item-two" || id == "item-three";
    }
  }

  // ---------- attempts that come to nothing ----------

  /** Task `i` had an attempt more, which failed, and waits for the next. */
  predicate Tried(m: Mission, n: Mission, i: nat, id: string) {
    && i < |m.plan| && OthersWait(m.plan, n.plan, i) && SameSetup(m, n) && n.fixCycles == m.fixCycles && n.state.Retry? && Calm(n)
    && (var t, u := m.plan[i], n.plan[i];
        && u.state.Retry? && u.taskId == id && u.attempts == t.attempts + 1
        && u.id == t.id && u.role == t.role && u.dependsOn == t.dependsOn && u.maxAttempts == t.maxAttempts)
    && |n.executions| == |m.executions| + 1 && n.executions[..|m.executions|] == m.executions && !n.executions[|m.executions|].result.Completed?
  }

  function After(a: Act, i: nat, id: string): Act
    requires i < |a.marks| == |a.tries| == |a.ids| == |a.heads|
  {
    a.(tries := a.tries[i := a.tries[i] + 1], ids := a.ids[i := id], execs := a.execs + 1)
  }

  lemma SourceKept(execs: seq<Execution>, more: seq<Execution>, head: string)
    requires |more| == |execs| + 1 && more[..|execs|] == execs && !more[|execs|].result.Completed? && FromSource(execs, head)
    ensures FromSource(more, head)
  {
    assert more[..|more| - 1] == execs;
  }

  lemma TriedPerforms(w: World, v: World, shape: seq<Task>, a: Act, i: nat, id: string)
    requires Performed(w, shape, a) && i < |shape| && !a.marks[i] && Tried(w.m, v.m, i, id) && v.made.None? && v.criteria == w.criteria
    ensures Performed(v, shape, After(a, i, id))
  {
    hide FromSource, Calm;
    SourceKept(w.m.executions, v.m.executions, a.source);
    var b := After(a, i, id);
    forall k | 0 <= k < |shape| ensures SameShape(shape[k], v.m.plan[k]) && Stands(v.m.plan[k], b, k) && (if a.marks[k] then v.m.plan[k].state.Completed? else Schedulable(v.m.plan[k].state)) {
      assert SameShape(shape[k], w.m.plan[k]) && Stands(w.m.plan[k], a, k);
      assert k != i ==> SameButLabel(w.m.plan[k], v.m.plan[k]);
    }
  }

  lemma BegunTried(m: Mission, b: Mission, n: Mission, i: nat)
    requires Begun(m, b, i) && Recovered(b, n, i) && Calm(m)
    ensures i < |m.plan| && Tried(m, n, i, m.plan[i].taskId)
  {
    BegunCalm(m, b, i);
    hide RunsTask;
    assert |b.plan| == |m.plan|;
    forall k | 0 <= k < |n.plan| ensures SafeTask(n.plan[k]) {
      assert SafeTask(b.plan[k]);
    }
    assert n.executions[..|m.executions|] == b.executions[..|m.executions|];
  }

  lemma OccupiedTried(m: Mission, b: Mission, n: Mission, i: nat, id: string, head: string)
    requires Occupied(m, b, i, id, head) && Recovered(b, n, i)
    ensures Tried(m, n, i, id)
  {
    hide RunsTask;
    forall k | 0 <= k < |n.plan| ensures SafeTask(n.plan[k]) {
      assert SafeTask(b.plan[k]);
    }
    assert n.executions[..|m.executions|] == b.executions[..|m.executions|];
  }

  lemma TheseItems(w: World, a: Act)
    requires Performed(w, Plan(), a) && a.ids == ["item-one", "item-two", "item-three"]
    ensures forall id :: IsPlanned(w.m, id) <==> id == "item-one" || id == "item-two" || id == "item-three"
  {
    hide FromSource, Calm;
    assert Stands(w.m.plan[0], a, 0) && Stands(w.m.plan[1], a, 1) && Stands(w.m.plan[2], a, 2);
  }

  lemma SamePlanned(m: Mission, n: Mission)
    requires n.plan == m.plan
    ensures forall id :: IsPlanned(n, id) <==> IsPlanned(m, id)
  {
  }

  // ---------- the first window: an item is created, and the process dies before a save names it ----------

  const LOST := Act([false, false, false], [1, 0, 0], ["", "", ""], ["", "", ""], 1, "h1", 0)

  lemma BegunReady(w: World, shape: seq<Task>, a: Act, i: nat)
    requires Performed(w, shape, a) && |shape| == |a.marks| && Turn(shape, a.marks, i) && a.tries[i] <= 2 && a.execs < 12
    ensures Calm(w.m) && Idle(w.m) && NextUp(w.m.plan, i) && i < |w.m.plan| && w.m.plan[i].taskId == a.ids[i] && w.m.plan[i].attempts == a.tries[i]
    ensures w.m.plan[i].maxAttempts == shape[i].maxAttempts && w.m.plan[i].role == shape[i].role && !a.marks[i]
  {
    hide Calm, Idle, NextUp, FromSource;
    assert SameShape(shape[i], w.m.plan[i]) && Stands(w.m.plan[i], a, i);
    TurnIsNext(w, shape, a.marks, a.execs, i);
  }

  lemma LoseItem() returns (s: Story)
    ensures Holds(s, Plan(), LOST) && Last(s).items.Keys == {"item-lost"} && !IsDone(Last(s), "item-lost") && Last(s).log == []
  {
    hide Told, Performed, Turn, Calm, Idle, NextUp, Begun, Recovered, Tried, Unplaced;
    Turns();
    var a := Opened();
    BegunReady(Last(a), Plan(), DAWN, 0);
    var b, m := TellStart(a, 0, "execution", CONTAINS, GIT);
    BegunUnplaced(Last(a).m, m, 0) by { BegunLength(Last(a).m, m, 0); }
    BegunCalm(Last(a).m, m, 0);
    BegunLength(Last(a).m, m, 0);
    BegunMax(Last(a).m, m, 0);
    assert Unplaced(Last(b), 0) by { StillUnplaced(Last(b), 0); }
    var c := TellItem(b, 0, "item-lost", CONTAINS, GIT);
    var n;
    s, n := TellCrash(c, 0, CONTAINS, GIT);
    BegunTried(Last(a).m, m, n, 0);
    TriedPerforms(Last(a), Last(s), Plan(), DAWN, 0, "");
    assert After(DAWN, 0, "") == LOST;
  }

  lemma StillUnplaced(w: World, i: nat)
    requires RunsTask(w.m, i) && w.m.plan[i].worktree == ""
    ensures Unplaced(w, i)
  {
  }

  lemma BegunMax(m: Mission, b: Mission, i: nat)
    requires Begun(m, b, i) && i < |m.plan| == |b.plan|
    ensures b.plan[i].maxAttempts == m.plan[i].maxAttempts
  {
    hide RunsTask, OthersWait, SameSetup, SafeTask;
  }

  const RELED := Act([true, false, false], [2, 0, 0], ["item-one", "", ""], ["h1", "", ""], 2, "h1", 0)

  const RETESTED := Act([true, true, false], [2, 1, 0], ["item-one", "item-two", ""], ["h1", "h1", ""], 3, "h1", 0)

  const REREVIEWED := Act([true, true, true], [2, 1, 1], ["item-one", "item-two", "item-three"], ["h1", "h1", "h1"], 4, "h1", 0)

  /** The retried attempt makes an item of its own; the lost one stays open, and the completed mission's candidate is not ready. */
  lemma LostCreation() returns (s: Story, x: Export)
    ensures Finale(s) && Shows(Last(s), x) && !IsReady(x)
    ensures |s.worlds| == |s.events| + 1 && !AllNamed(s.events, |s.events|)
  {
    hide Told, Performed, Turn, Finale, Shows, IsReady, AllNamed, AllRepaired, IsPlanned;
    Turns();
    var a := LoseItem();
    var b := Play(a, Plan(), LOST, 0, "item-one", "", "h1");
    assert Then(LOST, 0, "item-one", "h1") == RELED;
    var c := Play(b, Plan(), RELED, 1, "item-two", "p1", "h1");
    assert Then(RELED, 1, "item-two", "h1") == RETESTED;
    var d := Play(c, Plan(), RETESTED, 2, "item-three", "", "h1");
    assert Then(RETESTED, 2, "item-three", "h1") == REREVIEWED;
    s := Close(d, REREVIEWED);
    x := Verdict(s);
    TheseItems(Last(d), REREVIEWED);
    assert "item-lost" in Last(s).items && !IsPlanned(Last(s).m, "item-lost") by { SamePlanned(Last(d).m, Last(s).m); }
  }

  // ---------- the second window: items are reset for a repair, and the process dies before the save ----------

  const BROKEN := Act([true, true, false], [1, 1, 1], ["item-one", "item-two", "item-three"], ["h1", "h1", ""], 3, "h1", 0)

  const RECOVERED := Act([true, true, true], [1, 1, 2], ["item-one", "item-two", "item-three"], ["h1", "h1", "h1"], 4, "h1", 0)

  lemma LeadFirst(plan: seq<Task>)
    requires plan != [] && CanRepair(plan[0])
    ensures RepairLead(plan, 0) == Some(0)
  {
  }

  /** What an occupied mission still shows of the other tasks. */
  lemma OccupiedOthers(w: World, n: Mission, shape: seq<Task>, a: Act, i: nat, id: string, head: string, k: nat)
    requires Performed(w, shape, a) && Occupied(w.m, n, i, id, head) && k < |shape| && k != i
    ensures |n.plan| == |shape| && n.plan[k].taskId == a.ids[k] && n.plan[k].attempts == a.tries[k]
    ensures n.plan[k].role == shape[k].role && n.plan[k].maxAttempts == shape[k].maxAttempts
    ensures n.fixCycles == a.fixes && n.budget == LIMITS
  {
    hide FromSource, Calm, RunsTask;
    assert SameShape(shape[k], w.m.plan[k]) && Stands(w.m.plan[k], a, k) && SameButLabel(w.m.plan[k], n.plan[k]);
  }

  lemma OccupiedSelf(w: World, n: Mission, shape: seq<Task>, a: Act, i: nat, id: string, head: string)
    requires Performed(w, shape, a) && i < |shape| && Occupied(w.m, n, i, id, head)
    ensures Placed(n, i) && RunsTask(n, i) && Calm(n) && n.state.Running? && |n.plan| == |shape|
    ensures n.plan[i].role == shape[i].role && n.plan[i].attempts == a.tries[i] + 1 && n.plan[i].maxAttempts == shape[i].maxAttempts && n.plan[i].taskId == id
  {
    hide FromSource, Calm, RunsTask;
    assert SameShape(shape[i], w.m.plan[i]) && Stands(w.m.plan[i], a, i);
  }

  lemma MayOccupy(w: World, shape: seq<Task>, a: Act, i: nat, id: string)
    requires Performed(w, shape, a) && |shape| == |a.marks| == |a.tries| == |a.ids| && Turn(shape, a.marks, i) && a.tries[i] <= 2 && a.execs < 12 && MayUse(w, a, i, id)
    ensures Calm(w.m) && Idle(w.m) && NextUp(w.m.plan, i) && i < |w.m.plan| && w.m.plan[i].attempts >= 0 && ItemFits(w, w.m.plan[i], id)
    ensures a.source != "" && FromSource(w.m.executions, a.source)
  {
    hide Calm, Idle, NextUp, FromSource, Turn;
    BegunReady(w, shape, a, i);
  }

  /** The review rejects, the lead's item is reset, and the process dies before the repair is saved. */
  lemma BreakRepair() returns (s: Story)
    ensures Holds(s, Plan(), BROKEN) && Last(s).items.Keys == {"item-one", "item-two", "item-three"} && !IsDone(Last(s), "item-one")
  {
    hide Told, Performed, Turn, Calm, Idle, NextUp, Occupied, Recovered, Tried, FromSource, Placed, RunsTask;
    Turns();
    var a := UntilTested();
    MayOccupy(Last(a), Plan(), TESTED, 2, "item-three");
    var b, m := Occupy(a, 2, "item-three", "h1", CONTAINS, GIT);
    OccupiedSelf(Last(a), m, Plan(), TESTED, 2, "item-three", "h1");
    OccupiedOthers(Last(a), m, Plan(), TESTED, 2, "item-three", "h1", 0);
    LeadFirst(m.plan);
    var c := TellReset(b, 2, 0, 0, CONTAINS, GIT);
    var n;
    s, n := TellCrash(c, 2, CONTAINS, GIT);
    OccupiedTried(Last(a).m, m, n, 2, "item-three", "h1");
    assert Last(s).made.None? && Last(s).criteria == Last(a).criteria;
    TriedPerforms(Last(a), Last(s), Plan(), TESTED, 2, "item-three") by { MarkLengths(Last(a), Plan(), TESTED); }
    assert After(TESTED, 2, "item-three") == BROKEN;
  }

  lemma MarkLengths(w: World, shape: seq<Task>, a: Act)
    requires Performed(w, shape, a)
    ensures |shape| == |a.marks| == |a.tries| == |a.ids| == |a.heads|
  {
    hide FromSource, Calm;
  }

  /** The recovered review passes without a repair; the lead's item stays open, and the completed mission's candidate is not ready. */
  lemma LostRepair() returns (s: Story, x: Export)
    ensures Finale(s) && Shows(Last(s), x) && !IsReady(x)
    ensures |s.worlds| == |s.events| + 1 && AllNamed(s.events, |s.events|) && !AllRepaired(s.worlds, s.events, |s.events|)
  {
    hide Told, Performed, Turn, Finale, Shows, IsReady, AllNamed, AllRepaired, IsPlanned;
    Turns();
    var a := BreakRepair();
    var b := Play(a, Plan(), BROKEN, 2, "item-three", "", "h1");
    assert Then(BROKEN, 2, "item-three", "h1") == RECOVERED;
    s := Close(b, RECOVERED);
    x := Verdict(s);
    TheseItems(Last(b), RECOVERED);
    SamePlanned(Last(b).m, Last(s).m);
    forall id | id in Last(s).items ensures IsPlanned(Last(s).m, id) {
      assert id == "item-one" || id == "item-two" || id == "item-three";
    }
    assert "item-one" in Last(s).items && !IsDone(Last(s), "item-one");
  }

  // ---------- a repair nobody tested ----------

  lemma OvertakingSafe()
    ensures forall k :: 0 <= k < |OvertakingPlan()| ==> SafeTask(OvertakingPlan()[k]) && FreshTask(OvertakingPlan()[k])
  {
    assert CAPABILITIES[0] == "coding" && CAPABILITIES[3] == "frontend" && CAPABILITIES[7] == "testing" && CAPABILITIES[6] == "review";
  }

  const MORNING := Act([false, false, false, false], [0, 0, 0, 0], ["", "", "", ""], ["", "", "", ""], 0, "h1", 0)

  const BUILT := Act([false, false, true, false], [0, 0, 1, 0], ["", "", "item-lead", ""], ["", "", "h1", ""], 1, "h1", 0)

  const FRONTED := Act([false, false, true, true], [0, 0, 1, 1], ["", "", "item-lead", "item-face"], ["", "", "h1", "h1"], 2, "h1", 0)

  const PROVEN := Act([true, false, true, true], [1, 0, 1, 1], ["item-test", "", "item-lead", "item-face"], ["h1", "", "h1", "h1"], 3, "h1", 0)

  const SENT_BACK := Act([false, false, false, true], [1, 1, 1, 1], ["item-test", "item-view", "item-lead", "item-face"], ["h1", "", "h1", "h1"], 4, "h1", 1)

  const REPROVEN := Act([true, false, false, true], [2, 1, 1, 1], ["item-test", "item-view", "item-lead", "item-face"], ["h1", "", "h1", "h1"], 5, "h1", 1)

  const APPROVED := Act([true, true, false, true], [2, 2, 1, 1], ["item-test", "item-view", "item-lead", "item-face"], ["h1", "h1", "h1", "h1"], 6, "h1", 1)

  const REPAIRED := Act([true, true, true, true], [2, 2, 2, 1], ["item-test", "item-view", "item-lead", "item-face"], ["h1", "h1", "h2", "h1"], 7, "h2", 1)

  /** QA and the review each wait for a task that is not done. */
  lemma JudgesWait(marks: seq<bool>)
    requires |marks| == 4 && !marks[0] && !marks[3]
    ensures var plan := OvertakingPlan();
      && |plan| == 4 && (exists j :: 0 <= j < 4 && plan[j].id in plan[0].dependsOn && !marks[j])
      && (exists j :: 0 <= j < 4 && plan[j].id in plan[1].dependsOn && !marks[j])
  {
    var plan := OvertakingPlan();
    assert plan[3].id in plan[0].dependsOn && plan[0].id in plan[1].dependsOn;
  }

  lemma LeadTurn()
    ensures Turn(OvertakingPlan(), [false, false, false, false], 2)
  {
    var plan := OvertakingPlan();
    assert plan[2].dependsOn == [];
    JudgesWait([false, false, false, false]);
  }

  lemma FrontendTurn()
    ensures Turn(OvertakingPlan(), [false, false, true, false], 3)
  {
    var plan := OvertakingPlan();
    assert plan[0].id == "q" && plan[1].id == "r" && plan[2].id == "l" && plan[3].id == "f" && plan[3].dependsOn == ["l"];
    JudgesWait([false, false, true, false]);
  }

  lemma JudgeTurns()
    ensures Turn(OvertakingPlan(), [false, false, true, true], 0) && Turn(OvertakingPlan(), [true, false, true, true], 1)
  {
    var plan := OvertakingPlan();
    assert plan[0].id == "q" && plan[1].id == "r" && plan[2].id == "l" && plan[3].id == "f";
  }

  /** After the repair has started, QA, then the review, then the repaired lead are next. */
  lemma OvertakenTurns()
    ensures Turn(OvertakingPlan(), [false, false, false, true], 0) && Turn(OvertakingPlan(), [true, false, false, true], 1)
    ensures Turn(OvertakingPlan(), [true, true, false, true], 2)
  {
    var plan := OvertakingPlan();
    assert plan[0].id == "q" && plan[1].id == "r" && plan[2].id == "l" && plan[3].id == "f";
  }

  lemma Overture() returns (s: Story)
    ensures Holds(s, OvertakingPlan(), MORNING) && Last(s).items == map[] && Last(s).log == []
  {
    hide PlanValid, Told, Fresh, FreshTask, FromSource, SafeTask;
    OvertakingValid();
    OvertakingSafe();
    var w := Opening(OvertakingPlan());
    OpeningIsFresh(OvertakingPlan());
    s := Begin(w, CONTAINS, GIT);
    NoSource(w.m, "h1");
    forall k | 0 <= k < |OvertakingPlan()| ensures Stands(w.m.plan[k], MORNING, k) {
    }
  }

  lemma UntilBuilt() returns (s: Story)
    ensures Holds(s, OvertakingPlan(), FRONTED) && Last(s).items.Keys == {"item-lead", "item-face"} && Last(s).log == []
  {
    hide Told, Performed, Turn, LoggedOnce, IsDone;
    LeadTurn();
    FrontendTurn();
    var a := Overture();
    var b := Play(a, OvertakingPlan(), MORNING, 2, "item-lead", "", "h1");
    assert Then(MORNING, 2, "item-lead", "h1") == BUILT;
    s := Play(b, OvertakingPlan(), BUILT, 3, "item-face", "", "h1");
    assert Then(BUILT, 3, "item-face", "h1") == FRONTED;
  }

  lemma UntilReview() returns (s: Story)
    ensures Holds(s, OvertakingPlan(), PROVEN) && Last(s).items.Keys == {"item-lead", "item-face", "item-test"}
    ensures LoggedOnce([], Last(s).log, "q", 1, "p1")
  {
    hide Told, Performed, Turn, LoggedOnce, IsDone;
    JudgeTurns();
    var c := UntilBuilt();
    s := Play(c, OvertakingPlan(), FRONTED, 0, "item-test", "p1", "h1");
    assert Then(FRONTED, 0, "item-test", "h1") == PROVEN;
  }

  /** The review of task `i` sent the work back to the lead. */
  function Rejected(a: Act, shape: seq<Task>, lead: nat, i: nat, id: string): Act
    requires i < |shape| == |a.marks| == |a.tries| == |a.ids| == |a.heads|
  {
    After(a, i, id).(marks := seq(|shape|, k requires 0 <= k < |shape| => a.marks[k] && k != lead && !Redone(shape[k].role)), fixes := a.fixes + 1)
  }

  lemma SentBackSafe(m: Mission, n: Mission, lead: nat)
    requires Calm(m) && SentBack(m, n, lead)
    ensures Calm(n)
  {
    forall k | 0 <= k < |n.plan| ensures SafeTask(n.plan[k]) {
      assert SafeTask(m.plan[k]);
    }
  }

  lemma RejectedPerforms(w: World, b: Mission, v: World, shape: seq<Task>, a: Act, lead: nat, i: nat, id: string)
    requires Performed(w, shape, a) && i < |shape| && shape[i].role.Review? && !a.marks[i] && Occupied(w.m, b, i, id, a.source) && SentBack(b, v.m, lead)
    requires v.made.None? && v.criteria == w.criteria && |shape| == |a.marks| == |a.tries| == |a.ids| == |a.heads|
    ensures Performed(v, shape, Rejected(a, shape, lead, i, id))
  {
    hide FromSource, Calm, RunsTask;
    SentBackSafe(b, v.m, lead);
    assert v.m.executions[..|w.m.executions|] == w.m.executions by {
      assert v.m.executions[..|w.m.executions|] == b.executions[..|w.m.executions|];
    }
    SourceKept(w.m.executions, v.m.executions, a.source);
    var c := Rejected(a, shape, lead, i, id);
    forall k | 0 <= k < |shape|
      ensures SameShape(shape[k], v.m.plan[k]) && Stands(v.m.plan[k], c, k) && (if c.marks[k] then v.m.plan[k].state.Completed? else Schedulable(v.m.plan[k].state))
    {
      assert SameShape(shape[k], w.m.plan[k]) && Stands(w.m.plan[k], a, k);
      assert k != i ==> SameButLabel(w.m.plan[k], b.plan[k]);
    }
  }

  lemma OvertakenLead(plan: seq<Task>)
    requires |plan| == 4 && plan[0].role.Qa? && plan[1].role.Review? && CanRepair(plan[2])
    ensures RepairLead(plan, 0) == Some(2)
  {
    var l := RepairLead(plan, 0);
    assert l.Some?;
  }

  /** What the rejecting review finds of the other tasks. */
  lemma Standing(w: World, m: Mission)
    requires Performed(w, OvertakingPlan(), PROVEN) && Occupied(w.m, m, 1, "item-view", "h1")
    ensures |m.plan| == 4 && m.plan[0].taskId == "item-test" && m.plan[1].taskId == "item-view" && m.plan[2].taskId == "item-lead"
    ensures m.plan[0].role.Qa? && m.plan[1].role.Review? && m.plan[3].role.Frontend? && m.fixCycles == 0 && m.budget == LIMITS
    ensures RepairLead(m.plan, 0) == Some(2) && Placed(m, 1) && Calm(m)
  {
    hide Performed, Occupied, Calm, RunsTask, RepairLead;
    OccupiedSelf(w, m, OvertakingPlan(), PROVEN, 1, "item-view", "h1");
    OccupiedOthers(w, m, OvertakingPlan(), PROVEN, 1, "item-view", "h1", 0);
    OccupiedOthers(w, m, OvertakingPlan(), PROVEN, 1, "item-view", "h1", 2);
    OccupiedOthers(w, m, OvertakingPlan(), PROVEN, 1, "item-view", "h1", 3);
    OvertakenLead(m.plan);
  }

  lemma Reset(s: Story, k: nat) returns (u: Story)
    requires Told(s, CONTAINS, GIT) && s.worlds != [] && Calm(Last(s).m) && Placed(Last(s).m, 1) && Last(s).m.plan[1].role.Review?
    requires Last(s).m.fixCycles == 0 && Last(s).m.budget == LIMITS && RepairLead(Last(s).m.plan, 0) == Some(2)
    requires Restarts(Last(s).m.plan, 2, k) && Last(s).m.plan[k].taskId in Last(s).items
    ensures Told(u, CONTAINS, GIT) && u.worlds != [] && u.worlds[0] == s.worlds[0] && IsTodo(Last(u), Last(s).m.plan[k].taskId)
    ensures Last(u) == Last(s).(items := Last(u).items) && Last(u).items.Keys == Last(s).items.Keys
    ensures forall id :: IsTodo(Last(s), id) ==> IsTodo(Last(u), id)
  {
    hide Told, Calm, Placed, RepairLead;
    u := TellReset(s, 1, 2, k, CONTAINS, GIT);
  }

  lemma SendBack() returns (s: Story)
    ensures Holds(s, OvertakingPlan(), SENT_BACK) && Last(s).items.Keys == {"item-lead", "item-face", "item-test", "item-view"}
    ensures LoggedOnce([], Last(s).log, "q", 1, "p1")
  {
    hide Told, Performed, Turn, Calm, Idle, NextUp, Occupied, SentBack, FromSource, Placed, RunsTask, RepairLead, IsTodo, LoggedOnce;
    JudgeTurns();
    var a := UntilReview();
    MayOccupy(Last(a), OvertakingPlan(), PROVEN, 1, "item-view");
    var b, m := Occupy(a, 1, "item-view", "h1", CONTAINS, GIT);
    Standing(Last(a), m);
    var c := Reset(b, 2);
    var d := Reset(c, 0);
    var e := Reset(d, 1);
    var n;
    s, n := TellReject(e, 1, 2, CONTAINS, GIT);
    assert Last(s).made.None? && Last(s).criteria == Last(a).criteria;
    RejectedPerforms(Last(a), m, Last(s), OvertakingPlan(), PROVEN, 2, 1, "item-view");
    assert Rejected(PROVEN, OvertakingPlan(), 2, 1, "item-view") == SENT_BACK;
  }

  lemma UntilApproved() returns (s: Story)
    ensures Holds(s, OvertakingPlan(), APPROVED) && "item-lead" in Last(s).items
  {
    hide Told, Performed, Turn, IsDone;
    OvertakenTurns();
    var a := SendBack();
    assert Unlogged(Last(a).log, "q", 2, "p2");
    hide LoggedOnce;
    var b := Play(a, OvertakingPlan(), SENT_BACK, 0, "item-test", "p2", "h1");
    assert Then(SENT_BACK, 0, "item-test", "h1") == REPROVEN;
    s := Play(b, OvertakingPlan(), REPROVEN, 1, "item-view", "", "h1");
    assert Then(REPROVEN, 1, "item-view", "h1") == APPROVED;
  }

  lemma LastLead(execs: seq<Execution>)
    requires execs != [] && execs[|execs| - 1].result.Completed? && execs[|execs| - 1].agent.Lead?
    requires exists j :: 0 <= j < |execs| && execs[j].result.Completed? && execs[j].agent.Qa?
    ensures LastBy(execs, Lead).Some? && LastBy(execs, Qa).Some? && LastBy(execs, Qa).value < LastBy(execs, Lead).value
  {
    var q, l := LastBy(execs, Qa), LastBy(execs, Lead);
    assert q.Some? && l.Some? && l.value == |execs| - 1 && q.value != l.value;
  }

  lemma SomeTested(m: Mission)
    requires Inv(m) && forall k :: 0 <= k < |m.plan| ==> m.plan[k].state.Completed?
    ensures exists j :: 0 <= j < |m.executions| && m.executions[j].result.Completed? && m.executions[j].agent.Qa?
  {
    hide Inv;
    var q := SomeQa(m);
    var j := CompletionRecord(m, q);
  }

  lemma ConcludeRepaired(s: Story) returns (u: Story)
    requires Holds(s, OvertakingPlan(), REPAIRED)
    ensures Told(u, CONTAINS, GIT) && u.worlds != [] && u.worlds[0] == Opening(OvertakingPlan()) && Last(u).m == Last(s).m.(state := Completed)
    ensures forall k :: 0 <= k < |Last(s).m.plan| ==> Last(s).m.plan[k].state.Completed?
  {
    hide Told, FromSource, SafeTask;
    var w := Last(s);
    assert SameShape(OvertakingPlan()[1], w.m.plan[1]);
    assert HasRole(w.m.plan, Review);
    forall k | 0 <= k < |w.m.plan| ensures w.m.plan[k].artifactHead == "h1" || w.m.plan[k].artifactHead == "h2" {
      assert Stands(w.m.plan[k], REPAIRED, k);
    }
    assert AllContained(w.m.plan, CONTAINS, "h2");
    u := TellConclude(s, "h2", CONTAINS, GIT);
  }

  /**
   * A valid plan, an honest run, and a repair that verification overtakes: QA and the review pass
   * again before the repaired lead runs, and the mission completes with its last change unchecked.
   */
  lemma UntestedRepairCompletes() returns (saved: seq<Mission>, steps: seq<Step>)
    ensures HonestRun(saved, steps, CONTAINS) && |saved| == |steps| + 1 && PlanValid(saved[0].plan, 1) && saved[|steps|].state.Completed?
    ensures var execs := saved[|steps|].executions;
      LastBy(execs, Lead).Some? && LastBy(execs, Qa).Some? && LastBy(execs, Qa).value < LastBy(execs, Lead).value
  {
    hide Told, Performed, Turn, Inv, ItemInv, PlanValid, HonestRun;
    OvertakenTurns();
    OvertakingValid();
    var a := UntilApproved();
    var b := Play(a, OvertakingPlan(), APPROVED, 2, "item-lead", "", "h2");
    assert Then(APPROVED, 2, "item-lead", "h2") == REPAIRED;
    var c := ConcludeRepaired(b);
    ToldFacts(b, CONTAINS, GIT);
    SomeTested(Last(b).m);
    LastLead(Last(b).m.executions);
    ToldFacts(c, CONTAINS, GIT);
    saved, steps := RunIn(c);
  }

  /** The mission's own run inside a told one. */
  lemma RunIn(s: Story) returns (saved: seq<Mission>, steps: seq<Step>)
    requires Told(s, CONTAINS, GIT) && s.worlds != []
    ensures |saved| == |steps| + 1 && HonestRun(saved, steps, CONTAINS) && saved[0] == s.worlds[0].m && saved[|steps|] == Last(s).m
  {
    hide Run, Fresh, Follows;
    saved, steps := MissionWorld.RunOf(s.worlds, s.events, CONTAINS, GIT, |s.worlds| - 1);
    assert |saved| == |steps| + 1 by { HonestLength(saved, steps); }
  }

  lemma HonestLength(saved: seq<Mission>, steps: seq<Step>)
    requires HonestRun(saved, steps, CONTAINS)
    ensures |saved| == |steps| + 1
  {
    hide Created, Enabled, Next, Honest;
  }

  /** Some honest run of an ordered plan completes, so nothing proved about such runs is empty. */
  lemma SomeRunCompletes() returns (saved: seq<Mission>, steps: seq<Step>)
    ensures HonestRun(saved, steps, CONTAINS) && |saved| == |steps| + 1 && Ordered(saved[0].plan) && saved[|steps|].state.Completed?
  {
    hide Shows, IsReady, HonestRun, Ordered, Told;
    PlanIsValid();
    var s, x := ReadyRun();
    saved, steps := RunIn(s);
  }
}
