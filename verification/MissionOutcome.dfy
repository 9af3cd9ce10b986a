/** What a completed mission vouches for, on simple plans and on every plan ordered like them. */
module MissionOutcome {
  import opened Graph
  import opened Team
  import opened MissionSteps
  import opened MissionInvariant
  import opened MissionOrder

  // ---------- simple plans ----------

  function NewTask(id: string, role: Role, dependsOn: seq<string>, capability: string, maxAttempts: int): Task {
    Task(id, role, dependsOn, [capability], 0, Pending, 0, maxAttempts, "", "", "", "", "")
  }

  /** The four-step plan, with a frontend step for goals that mention one and a second review at risk three. */
  function SimplePlan(frontend: bool, secondReview: bool): seq<Task> {
    [NewTask("analysis", Explorer, [], "exploration", 3), NewTask("build", Lead, ["analysis"], "coding", 3)]
    + (if frontend then [NewTask("frontend", Frontend, ["build"], "frontend", 3)] else [])
    + [NewTask("tests", Qa, [if frontend then "frontend" else "build"], "testing", 3),
       NewTask("review", Review, ["tests"], "review", 3)]
    + (if secondReview then [NewTask("review2", Review, ["review"], "review", 1)] else [])
  }

  function SimpleRank(id: string): int {
    if id == "analysis" then 0 else if id == "build" then 1 else if id == "frontend" then 2
    else if id == "tests" then 3 else if id == "review" then 4 else 5
  }

  function SimpleGraph(frontend: bool, secondReview: bool): Graph {
    var base := map["analysis" := [], "build" := ["analysis"]];
    var middle := if frontend then base["frontend" := ["build"]] else base;
    var tested := middle["tests" := [if frontend then "frontend" else "build"]]["review" := ["tests"]];
    if secondReview then tested["review2" := ["review"]] else tested
  }

  lemma PlanGraphSnoc(plan: seq<Task>, t: Task)
    ensures PlanGraph(plan + [t]) == PlanGraph(plan)[t.id := t.dependsOn]
  {
    assert (plan + [t])[..|plan|] == plan;
  }

  lemma SimplePlanGraph(frontend: bool, secondReview: bool)
    ensures PlanGraph(SimplePlan(frontend, secondReview)) == SimpleGraph(frontend, secondReview)
  {
    var a, b := NewTask("analysis", Explorer, [], "exploration", 3), NewTask("build", Lead, ["analysis"], "coding", 3);
    var f := NewTask("frontend", Frontend, ["build"], "frontend", 3);
    var t := NewTask("tests", Qa, [if frontend then "frontend" else "build"], "testing", 3);
    var r, s := NewTask("review", Review, ["tests"], "review", 3), NewTask("review2", Review, ["review"], "review", 1);
    hide PlanGraph;
    PlanGraphSnoc([], a);
    PlanGraphSnoc([a], b);
    var base := [a] + [b];
    var middle := if frontend then base + [f] else base;
    PlanGraphSnoc(base, f);
    PlanGraphSnoc(middle, t);
    PlanGraphSnoc(middle + [t], r);
    PlanGraphSnoc(middle + [t] + [r], s);
    assert [] + [a] == [a];
    assert PlanGraph([]) == map[] by { EmptyPlanGraph(); }
    var full := if secondReview then middle + [t] + [r] + [s] else middle + [t] + [r];
    assert SimplePlan(frontend, secondReview) == full;
  }

  lemma EmptyPlanGraph()
    ensures PlanGraph([]) == map[]
  {
  }

  lemma SimpleIds(frontend: bool, secondReview: bool)
    ensures UniqueIds(SimplePlan(frontend, secondReview))
  {
    var plan := SimplePlan(frontend, secondReview);
    forall k | 0 <= k < |plan| ensures 0 <= SimpleRank(plan[k].id) <= 5 && SimplePosition(frontend, SimpleRank(plan[k].id)) == k {
    }
  }

  lemma SimpleFresh(frontend: bool, secondReview: bool)
    ensures forall k :: 0 <= k < |SimplePlan(frontend, secondReview)| ==> FreshTask(SimplePlan(frontend, secondReview)[k])
  {
  }

  /** Where the task of a rank stands in the plan. */
  function SimplePosition(frontend: bool, rank: int): int {
    if !frontend && rank > 2 then rank - 1 else rank
  }

  lemma SimpleFields(frontend: bool, secondReview: bool)
    ensures forall k :: 0 <= k < |SimplePlan(frontend, secondReview)| ==> TaskFieldsOk(SimplePlan(frontend, secondReview)[k])
  {
    NewTaskOk("analysis", Explorer, [], "exploration", 3, 8);
    NewTaskOk("build", Lead, ["analysis"], "coding", 3, 0);
    NewTaskOk("frontend", Frontend, ["build"], "frontend", 3, 3);
    NewTaskOk("tests", Qa, [if frontend then "frontend" else "build"], "testing", 3, 7);
    NewTaskOk("review", Review, ["tests"], "review", 3, 6);
    NewTaskOk("review2", Review, ["review"], "review", 1, 6);
    hide TaskFieldsOk, NewTask;
  }

  lemma NewTaskOk(id: string, role: Role, dependsOn: seq<string>, capability: string, maxAttempts: int, k: nat)
    requires SafeId(id) && 1 <= maxAttempts <= 5 && k < |CAPABILITIES| && CAPABILITIES[k] == capability
    ensures TaskFieldsOk(NewTask(id, role, dependsOn, capability, maxAttempts))
  {
    hide SafeId;
    assert capability in CAPABILITIES;
  }

  lemma SimpleRoles(frontend: bool, secondReview: bool, risk: int)
    ensures RolesPresent(SimplePlan(frontend, secondReview), risk)
  {
    var plan := SimplePlan(frontend, secondReview);
    var lead, qa, review := 1, if frontend then 3 else 2, if frontend then 4 else 3;
    assert plan[lead].role == Lead && plan[qa].role == Qa && plan[review].role == Review;
  }

  lemma SimpleOrdered(frontend: bool, secondReview: bool)
    ensures Ordered(SimplePlan(frontend, secondReview))
  {
  }

  lemma SimpleGraphSound(frontend: bool, secondReview: bool)
    ensures var g := PlanGraph(SimplePlan(frontend, secondReview)); Grounded(g) && !Cyclic(g)
  {
    hide PlanGraph, Reaches, SimplePlan;
    SimplePlanGraph(frontend, secondReview);
    RankedIsAcyclic(SimpleGraph(frontend, secondReview), SimpleRank);
  }

  /** Every simple plan passes validation, starts fresh and is ordered. */
  lemma SimplePlanIsValid(frontend: bool, secondReview: bool, risk: int)
    ensures PlanValid(SimplePlan(frontend, secondReview), risk) && Ordered(SimplePlan(frontend, secondReview))
    ensures forall k :: 0 <= k < |SimplePlan(frontend, secondReview)| ==> FreshTask(SimplePlan(frontend, secondReview)[k])
  {
    hide PlanGraph, Reaches, OrderRules, UniqueIds, Ordered, RolesPresent, TaskFieldsOk, FreshTask, Grounded, Cyclic;
    SimpleIds(frontend, secondReview);
    SimpleFresh(frontend, secondReview);
    SimpleFields(frontend, secondReview);
    SimpleGraphSound(frontend, secondReview);
    SimpleOrderRules(frontend, secondReview);
    SimpleRoles(frontend, secondReview, risk);
    SimpleOrdered(frontend, secondReview);
  }

  lemma SimpleOrderRules(frontend: bool, secondReview: bool)
    ensures OrderRules(SimplePlan(frontend, secondReview))
  {
    var g := SimpleGraph(frontend, secondReview);
    SimplePlanGraph(frontend, secondReview);
    hide PlanGraph, Reaches;
    var first := if frontend then "frontend" else "build";
    ReachesEdge(g, "tests", first);
    if frontend {
      ReachesEdge(g, "frontend", "build");
      ReachesTransitive(g, "tests", "frontend", "build");
    }
    ReachesEdge(g, "review", "tests");
    if secondReview {
      ReachesEdge(g, "review2", "review");
      ReachesTransitive(g, "review2", "review", "tests");
    }
  }

  // ---------- what completion means ----------

  /** The last completed execution by agents of one role. */
  function LastBy(execs: seq<Execution>, role: Role): (r: Option<nat>)
    ensures r.Some? ==> r.value < |execs| && execs[r.value].result.Completed? && execs[r.value].agent == role
    ensures forall j :: 0 <= j < |execs| && execs[j].result.Completed? && execs[j].agent == role ==> r.Some? && j <= r.value
  {
    if execs == [] then None
    else if execs[|execs| - 1].result.Completed? && execs[|execs| - 1].agent == role then Some(|execs| - 1)
    else LastBy(execs[..|execs| - 1], role)
  }

  /** When only read-only executions completed after `z`, the final source is still the head of `z`. */
  lemma {:induction false} HeadCarried(execs: seq<Execution>, z: nat)
    requires HeadsChain(execs) && z < |execs| && execs[z].result.Completed?
    requires forall y :: z < y < |execs| && execs[y].result.Completed? ==> ReadOnly(execs[y].agent)
    ensures FromSource(execs, execs[z].head)
  {
    var front, last := execs[..|execs| - 1], execs[|execs| - 1];
    if z < |execs| - 1 {
      ChainFront(execs);
      HeadCarried(front, z);
      if last.result.Completed? {
        assert FromSource(front, last.head);
      } else {
        FrontSource(execs, execs[z].head);
      }
    }
  }

  lemma TaskOf(m: Mission, j: nat) returns (k: nat)
    requires Inv(m) && j < |m.executions|
    ensures k < |m.plan| && m.plan[k].id == m.executions[j].taskId && m.plan[k].role == m.executions[j].agent
  {
    hide PlanShape, TasksOk, ExecutionsOk, RunningLinked, CompletedLinked, Started, RetriesRise, StateOk, EscalationOk, OnlyLastRuns;
    assert Names(m.plan, m.executions[j]);
    k :| 0 <= k < |m.plan| && m.plan[k].id == m.executions[j].taskId;
    assert Belongs(m.executions[j], m.plan[k]);
  }

  /** A completed task's last execution completed it, with the verdict its role needs. */
  lemma CompletionRecord(m: Mission, k: nat) returns (j: nat)
    requires Inv(m) && k < |m.plan| && m.plan[k].state.Completed?
    ensures j < |m.executions| && j == LastIndex(m.executions, m.plan[k].id)
    ensures var e := m.executions[j];
      && e.taskId == m.plan[k].id && e.agent == m.plan[k].role && e.result.Completed? && e.evidence != []
      && e.worktree == m.plan[k].worktree && e.head == m.plan[k].artifactHead
      && (e.agent.Qa? ==> e.test.Passed?) && (e.agent.Review? ==> e.review.Passed?)
  {
    hide PlanShape, TasksOk, RunningLinked, Started, RetriesRise, StateOk, EscalationOk, OnlyLastRuns, LastIndex, UsedOwnWorktree;
    assert CompletedBy(m.plan[k], m.executions);
    j := LastIndex(m.executions, m.plan[k].id);
    assert ExecutionOk(m, j, m.executions[j]) && Belongs(m.executions[j], m.plan[k]);
  }

  lemma AllCompleted(m: Mission)
    requires Inv(m) && m.state.Completed?
    ensures forall k :: 0 <= k < |m.plan| ==> m.plan[k].state.Completed?
  {
    hide PlanShape, TasksOk, ExecutionsOk, AllBelong, RunningLinked, CompletedLinked, Started, RetriesRise, EscalationOk, OnlyLastRuns;
  }

  lemma FollowedBy(m: Mission, k: nat, x: nat, anc: (string, string) -> bool)
    requires OrderInv(m, anc) && k < |m.plan| && x < |m.executions| && m.plan[k].state.Completed? && m.executions[x].result.Completed?
    requires MustFollow(m.plan[k].role, m.executions[x].agent)
    ensures x < LastIndex(m.executions, m.plan[k].id)
  {
    hide Ordered, Waits, HeadsChain, StartsAtSource, Contained, LastIndex;
  }

  /** The last completed QA execution: after every finished implementation, and nothing but readers after it. */
  lemma LastQa(m: Mission, anc: (string, string) -> bool) returns (z: nat)
    requires Inv(m) && OrderInv(m, anc) && m.state.Completed?
    ensures LastBy(m.executions, Qa) == Some(z) && m.executions[z].test.Passed?
    ensures forall x :: 0 <= x < |m.executions| && m.executions[x].result.Completed? && IsBuild(m.executions[x].agent) ==> x < z
    ensures forall y :: z < y < |m.executions| && m.executions[y].result.Completed? ==> ReadOnly(m.executions[y].agent)
  {
    InvIds(m);
    var t := ExistsQa(m.plan);
    hide Inv, OrderInv, LastIndex, LastBy, PlanShape;
    AllCompleted(m);
    var first := CompletionRecord(m, t);
    z := LastBy(m.executions, Qa).value;
    var k := TaskOf(m, z);
    var j := CompletionRecord(m, k);
    assert j == z by { LastIndexBounds(m.executions, z); }
    forall x | 0 <= x < |m.executions| && m.executions[x].result.Completed? && IsBuild(m.executions[x].agent) ensures x < z {
      FollowedBy(m, k, x, anc);
    }
  }

  lemma LastIndexBounds(execs: seq<Execution>, z: nat)
    requires z < |execs|
    ensures z <= LastIndex(execs, execs[z].taskId)
  {
  }

  lemma ContainedInFinal(m: Mission, head: string, anc: (string, string) -> bool)
    requires OrderInv(m, anc) && m.state.Completed? && LastCompleted(m.executions).Some? && FromSource(m.executions, head)
    ensures AllContained(m.plan, anc, head)
  {
    hide Ordered, Waits, Covers, HeadsChain, StartsAtSource, AllContained;
  }

  lemma ChainOf(m: Mission, anc: (string, string) -> bool)
    requires OrderInv(m, anc)
    ensures HeadsChain(m.executions)
  {
    hide Ordered, Waits, Covers, HeadsChain, StartsAtSource, Contained;
  }

  /** The verdicts a completed mission rests on; `z` is its last completed QA execution. */
  predicate TestedAt(m: Mission, z: nat) {
    && LastBy(m.executions, Qa) == Some(z) && m.executions[z].test.Passed?
    && (LastBy(m.executions, Lead).Some? ==> LastBy(m.executions, Lead).value < z)
    && (LastBy(m.executions, Frontend).Some? ==> LastBy(m.executions, Frontend).value < z)
  }

  /** Task `r`'s last execution is a passed review of everything QA last checked. */
  predicate ReviewedAfter(m: Mission, r: nat, z: nat)
    requires r < |m.plan|
  {
    var j := LastIndex(m.executions, m.plan[r].id);
    z < j && m.executions[j].result.Completed? && m.executions[j].review.Passed?
  }

  lemma QaVouches(m: Mission, anc: (string, string) -> bool) returns (z: nat)
    requires Inv(m) && OrderInv(m, anc) && m.state.Completed?
    ensures TestedAt(m, z) && AllContained(m.plan, anc, m.executions[z].head)
  {
    hide Inv, OrderInv, FromSource, HeadsChain, AllContained, LastBy;
    z := LastQa(m, anc);
    ChainOf(m, anc);
    HeadCarried(m.executions, z);
    ContainedInFinal(m, m.executions[z].head, anc);
  }

  lemma ReviewVouches(m: Mission, r: nat, z: nat, anc: (string, string) -> bool)
    requires Inv(m) && OrderInv(m, anc) && m.state.Completed? && TestedAt(m, z) && r < |m.plan| && m.plan[r].role.Review?
    ensures ReviewedAfter(m, r, z)
  {
    hide Inv, OrderInv, LastIndex, LastBy;
    AllCompleted(m);
    var j := CompletionRecord(m, r);
    FollowedBy(m, r, z, anc);
  }

  lemma RunFacts(saved: seq<Mission>, steps: seq<Step>, anc: (string, string) -> bool, k: nat)
    requires HonestRun(saved, steps, anc) && Ordered(saved[0].plan) && k < |saved|
    ensures Inv(saved[k]) && OrderInv(saved[k], anc)
  {
    hide Inv, OrderInv, Run, Ordered;
    RunInv(saved, steps, k);
    RunOrder(saved, steps, anc, k);
  }

  /**
   * In every run of an ordered plan, a completed mission's last QA execution passed after every
   * finished implementation execution, each review task's last execution passed after every finished
   * QA execution, and every task's artifact is contained in the head that QA execution checked.
   */
  lemma CompletedIsTested(saved: seq<Mission>, steps: seq<Step>, anc: (string, string) -> bool, k: nat) returns (z: nat)
    requires HonestRun(saved, steps, anc) && Ordered(saved[0].plan) && k < |saved| && saved[k].state.Completed?
    ensures TestedAt(saved[k], z) && AllContained(saved[k].plan, anc, saved[k].executions[z].head)
    ensures forall r :: 0 <= r < |saved[k].plan| && saved[k].plan[r].role.Review? ==> ReviewedAfter(saved[k], r, z)
  {
    hide Inv, OrderInv, HonestRun, Ordered, ReviewedAfter, AllContained;
    RunFacts(saved, steps, anc, k);
    z := QaVouches(saved[k], anc);
    forall r | 0 <= r < |saved[k].plan| && saved[k].plan[r].role.Review? ensures ReviewedAfter(saved[k], r, z) {
      ReviewVouches(saved[k], r, z, anc);
    }
  }
}
