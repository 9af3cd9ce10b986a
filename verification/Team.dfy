/** Missions, their plans and the policies that schedule and route tasks (internal/team/model.go). */
module Team {
  import opened Graph
  import opened DependencySearch

  datatype Option<+T> = None | Some(value: T)

  datatype Role = Lead | Frontend | Explorer | Qa | Review

  /** Task states, mission states and execution results share one vocabulary in the source. */
  datatype State = Pending | Blocked | Ready | Retry | Running | Completed | Failed | Escalated

  /** Test and review results of an execution; a routing failure leaves them unset. */
  datatype Verdict = Unset | NotRun | Passed | Rejected

  datatype Model = Model(
    id: string, provider: string, adapter: string, capabilities: seq<string>, contextLimit: int, tier: int,
    cost: Option<real>, available: bool, tools: bool, enforcedPolicies: seq<string>, evaluation: real)

  datatype Budget = Budget(maxFixes: int, maxExecutions: int, maxTokens: int, maxCost: Option<real>)

  datatype Policy = Policy(
    requireDifferentReviewModel: bool, commitTaskChanges: bool, allowedProviders: seq<string>,
    sourceExport: bool, requiredEnforcement: seq<string>)

  datatype Task = Task(
    id: string, role: Role, dependsOn: seq<string>, capabilities: seq<string>, contextSize: int,
    state: State, attempts: int, maxAttempts: int, taskId: string,
    worktree: string, branch: string, head: string, artifactHead: string)

  datatype Execution = Execution(
    id: string, taskId: string, agent: Role, provider: string, model: string, sessionId: string,
    result: State, retry: int, escalation: int, evidence: seq<string>, test: Verdict, review: Verdict,
    worktree: string, head: string)

  datatype Mission = Mission(
    id: string, worktreeRoot: string, branchPrefix: string, fixCycles: int, risk: int, plan: seq<Task>,
    checks: seq<string>, integrationChecks: seq<string>, securityChecks: seq<string>, models: seq<Model>,
    budget: Budget, policy: Policy, state: State, executions: seq<Execution>)

  // ---------- plan graph ----------

  function PlanGraph(plan: seq<Task>): Graph {
    if plan == [] then map[]
    else
      var last := plan[|plan| - 1];
      PlanGraph(plan[..|plan| - 1])[last.id := last.dependsOn]
  }

  predicate UniqueIds(plan: seq<Task>) {
    forall i, j :: 0 <= i < j < |plan| ==> plan[i].id != plan[j].id
  }

  lemma {:induction false} PlanGraphDomain(plan: seq<Task>, id: string)
    ensures id in PlanGraph(plan) <==> exists k :: 0 <= k < |plan| && plan[k].id == id
  {
    if plan != [] {
      var n := |plan| - 1;
      PlanGraphDomain(plan[..n], id);
      if k :| 0 <= k < |plan| && plan[k].id == id {
        assert k == n || plan[..n][k].id == id;
      }
    }
  }

  lemma {:induction false} PlanGraphAt(plan: seq<Task>, k: nat)
    requires UniqueIds(plan) && k < |plan|
    ensures plan[k].id in PlanGraph(plan) && PlanGraph(plan)[plan[k].id] == plan[k].dependsOn
  {
    var n := |plan| - 1;
    if k < n {
      PlanGraphAt(plan[..n], k);
    }
  }

  predicate IsBuild(role: Role) {
    role.Lead? || role.Frontend?
  }

  /** QA comes after every implementation task, review after every QA task. */
  predicate MustFollow(task: Role, other: Role) {
    (task.Qa? && IsBuild(other)) || (task.Review? && other.Qa?)
  }

  ghost predicate OrderRules(plan: seq<Task>) {
    forall i, j :: 0 <= i < |plan| && 0 <= j < |plan| && MustFollow(plan[i].role, plan[j].role)
      ==> Reaches(PlanGraph(plan), plan[i].id, plan[j].id)
  }

  predicate HasRole(plan: seq<Task>, role: Role) {
    exists k :: 0 <= k < |plan| && plan[k].role == role
  }

  predicate RolesPresent(plan: seq<Task>, risk: int) {
    HasRole(plan, Lead) && HasRole(plan, Qa) && (risk >= 1 ==> HasRole(plan, Review))
  }

  predicate IsAlnum(c: char) {
    'a' <= c <= 'z' || 'A' <= c <= 'Z' || '0' <= c <= '9'
  }

  predicate SafeId(id: string) {
    && 1 <= |id| <= 64
    && IsAlnum(id[0])
    && forall k :: 0 < k < |id| ==> IsAlnum(id[k]) || id[k] == '.' || id[k] == '_' || id[k] == '-'
  }

  const CAPABILITIES := ["coding", "reasoning", "planning", "frontend", "vision", "long_context", "review", "testing", "exploration", "low_cost"]

  predicate All(have: seq<string>, need: seq<string>) {
    forall n :: n in need ==> n in have
  }

  predicate TaskFieldsOk(t: Task) {
    SafeId(t.id) && t.contextSize >= 0 && 1 <= t.maxAttempts <= 5 && All(CAPABILITIES, t.capabilities)
  }

  ghost predicate PlanValid(plan: seq<Task>, risk: int) {
    && 1 <= |plan| <= 100
    && (forall k :: 0 <= k < |plan| ==> TaskFieldsOk(plan[k]))
    && UniqueIds(plan)
    && Grounded(PlanGraph(plan))
    && !Cyclic(PlanGraph(plan))
    && OrderRules(plan)
    && RolesPresent(plan, risk)
  }

  /** A chain of dependencies through the plan: each task directly depends on the next. */
  ghost predicate Chain(plan: seq<Task>, c: seq<nat>) {
    && |c| >= 2 && (forall x :: 0 <= x < |c| ==> c[x] < |plan|)
    && forall x :: 0 <= x < |c| - 1 ==> plan[c[x + 1]].id in plan[c[x]].dependsOn
  }

  /** Task `i` waits for task `j`, directly or through others. */
  ghost predicate WaitsFor(plan: seq<Task>, i: nat, j: nat) {
    exists c :: Chain(plan, c) && c[0] == i && c[|c| - 1] == j
  }

  lemma TaskAt(plan: seq<Task>, id: string) returns (k: nat)
    requires id in PlanGraph(plan)
    ensures k < |plan| && plan[k].id == id
  {
    PlanGraphDomain(plan, id);
    k :| 0 <= k < |plan| && plan[k].id == id;
  }

  /** On plans with known dependencies, paths of the graph are chains of tasks. */
  lemma ReachesExactly(plan: seq<Task>, i: nat, j: nat)
    requires UniqueIds(plan) && Grounded(PlanGraph(plan)) && i < |plan| && j < |plan|
    ensures Reaches(PlanGraph(plan), plan[i].id, plan[j].id) <==> WaitsFor(plan, i, j)
  {
    hide PlanGraph, UniqueIds, Grounded;
    if Reaches(PlanGraph(plan), plan[i].id, plan[j].id) {
      var p :| IsPath(PlanGraph(plan), p) && p[0] == plan[i].id && p[|p| - 1] == plan[j].id;
      PathIsChain(plan, i, j, p);
    }
    if c :| Chain(plan, c) && c[0] == i && c[|c| - 1] == j {
      ChainIsPath(plan, c);
    }
  }

  lemma PathIsChain(plan: seq<Task>, i: nat, j: nat, p: seq<string>)
    requires UniqueIds(plan) && Grounded(PlanGraph(plan)) && i < |plan| && j < |plan|
    requires IsPath(PlanGraph(plan), p) && p[0] == plan[i].id && p[|p| - 1] == plan[j].id
    ensures WaitsFor(plan, i, j)
  {
    PlanGraphAt(plan, i);
    hide PlanGraph, Grounded;
    var c := ChainOf(plan, p, |p|);
    assert Chain(plan, c) && c[0] == i && c[|c| - 1] == j;
  }

  lemma ChainIsPath(plan: seq<Task>, c: seq<nat>)
    requires UniqueIds(plan) && Chain(plan, c)
    ensures Reaches(PlanGraph(plan), plan[c[0]].id, plan[c[|c| - 1]].id)
  {
    hide PlanGraph;
    var p := seq(|c|, x requires 0 <= x < |c| => plan[c[x]].id);
    forall x | 0 <= x < |p| - 1 ensures p[x + 1] in Deps(PlanGraph(plan), p[x]) {
      PlanGraphAt(plan, c[x]);
    }
    assert IsPath(PlanGraph(plan), p);
  }

  /** The first `n` nodes of a path as tasks. */
  lemma {:induction false} ChainOf(plan: seq<Task>, p: seq<string>, n: nat) returns (c: seq<nat>)
    requires UniqueIds(plan) && Grounded(PlanGraph(plan)) && IsPath(PlanGraph(plan), p) && 1 <= n <= |p| && p[0] in PlanGraph(plan)
    ensures |c| == n && forall x :: 0 <= x < n ==> c[x] < |plan| && plan[c[x]].id == p[x]
    ensures forall x :: 0 <= x < n - 1 ==> plan[c[x + 1]].id in plan[c[x]].dependsOn
  {
    if n == 1 {
      var k := TaskAt(plan, p[0]);
      c := [k];
    } else {
      c := ChainOf(plan, p, n - 1);
      PlanGraphAt(plan, c[n - 2]);
      assert p[n - 2 + 1] in Deps(PlanGraph(plan), p[n - 2]);
      var k := TaskAt(plan, p[n - 1]);
      c := c + [k];
    }
  }

  /** Every dependency names a task of the plan. */
  predicate NamesTasks(plan: seq<Task>) {
    forall k, d :: 0 <= k < |plan| && d in plan[k].dependsOn ==> exists j :: 0 <= j < |plan| && plan[j].id == d
  }

  lemma GroundedExactly(plan: seq<Task>)
    requires UniqueIds(plan)
    ensures Grounded(PlanGraph(plan)) <==> NamesTasks(plan)
  {
    var g := PlanGraph(plan);
    hide PlanGraph;
    forall k | 0 <= k < |plan| ensures plan[k].id in g && g[plan[k].id] == plan[k].dependsOn {
      PlanGraphAt(plan, k);
    }
    forall d ensures d in g <==> exists j :: 0 <= j < |plan| && plan[j].id == d {
      PlanGraphDomain(plan, d);
    }
    if NamesTasks(plan) {
      forall a, d | a in g && d in g[a] ensures d in g {
        var k :| 0 <= k < |plan| && plan[k].id == a;
        assert d in plan[k].dependsOn;
      }
    }
    if Grounded(g) {
      forall k, d | 0 <= k < |plan| && d in plan[k].dependsOn ensures exists j :: 0 <= j < |plan| && plan[j].id == d {
        assert plan[k].id in g && d in g[plan[k].id];
        assert d in g;
      }
    }
  }

  /** No task waits for itself. */
  ghost predicate NoneWaitsForItself(plan: seq<Task>) {
    forall k: nat :: k < |plan| ==> !WaitsFor(plan, k, k)
  }

  lemma AcyclicExactly(plan: seq<Task>)
    requires UniqueIds(plan) && Grounded(PlanGraph(plan))
    ensures !Cyclic(PlanGraph(plan)) <==> NoneWaitsForItself(plan)
  {
    var g := PlanGraph(plan);
    hide PlanGraph, WaitsFor;
    forall k: nat | k < |plan| ensures Reaches(g, plan[k].id, plan[k].id) <==> WaitsFor(plan, k, k) {
      ReachesExactly(plan, k, k);
    }
    if a :| Reaches(g, a, a) {
      var p :| IsPath(g, p) && p[0] == a && p[|p| - 1] == a;
      assert p[0 + 1] in Deps(g, p[0]);
      var k := TaskAt(plan, a);
    }
  }

  predicate KnownCapability(c: string) {
    c == "coding" || c == "reasoning" || c == "planning" || c == "frontend" || c == "vision" || c == "long_context"
    || c == "review" || c == "testing" || c == "exploration" || c == "low_cost"
  }

  /** A name of up to 64 letters, digits, dots, underscores and dashes that starts with a letter or digit, and sane limits. */
  predicate WellFormed(t: Task) {
    && 1 <= |t.id| <= 64 && t.id[0] != '.' && t.id[0] != '_' && t.id[0] != '-'
    && (forall k :: 0 <= k < |t.id| ==> var c := t.id[k];
          'a' <= c <= 'z' || 'A' <= c <= 'Z' || '0' <= c <= '9' || c == '.' || c == '_' || c == '-')
    && t.contextSize >= 0 && 1 <= t.maxAttempts <= 5
    && forall k :: 0 <= k < |t.capabilities| ==> KnownCapability(t.capabilities[k])
  }

  lemma WellFormedExactly(t: Task)
    ensures TaskFieldsOk(t) <==> WellFormed(t)
  {
    KnownExactly(t.capabilities);
    hide KnownCapability;
    if |t.id| > 0 && WellFormed(t) {
      assert t.id[0] == t.id[0];
    }
  }

  lemma KnownExactly(s: seq<string>)
    ensures All(CAPABILITIES, s) <==> forall k :: 0 <= k < |s| ==> KnownCapability(s[k])
  {
    forall c ensures c in CAPABILITIES <==> KnownCapability(c) {
      CapabilityExactly(c);
    }
    hide KnownCapability;
    assert forall k :: 0 <= k < |s| ==> s[k] in s;
  }

  lemma CapabilityExactly(c: string)
    ensures c in CAPABILITIES <==> KnownCapability(c)
  {
    var all := CAPABILITIES;
    assert |all| == 10;
    if KnownCapability(c) {
      assert all[0] == "coding" && all[1] == "reasoning" && all[2] == "planning" && all[3] == "frontend" && all[4] == "vision"
        && all[5] == "long_context" && all[6] == "review" && all[7] == "testing" && all[8] == "exploration" && all[9] == "low_cost";
    }
  }

  /** Every QA task waits for every lead and frontend task, every review for every QA task. */
  ghost predicate InRoleOrder(plan: seq<Task>) {
    forall i: nat, j: nat | i < |plan| && j < |plan| ::
      && (plan[i].role == Qa && (plan[j].role == Lead || plan[j].role == Frontend) ==> WaitsFor(plan, i, j))
      && (plan[i].role == Review && plan[j].role == Qa ==> WaitsFor(plan, i, j))
  }

  lemma RoleOrderExactly(plan: seq<Task>)
    requires UniqueIds(plan) && Grounded(PlanGraph(plan))
    ensures OrderRules(plan) <==> InRoleOrder(plan)
  {
    hide PlanGraph, WaitsFor, Reaches, Grounded;
    forall i: nat, j: nat | i < |plan| && j < |plan| ensures Reaches(PlanGraph(plan), plan[i].id, plan[j].id) <==> WaitsFor(plan, i, j) {
      ReachesExactly(plan, i, j);
    }
  }

  lemma UniqueExactly(plan: seq<Task>)
    ensures UniqueIds(plan) <==> forall i, j :: 0 <= i < |plan| && 0 <= j < |plan| && plan[i].id == plan[j].id ==> i == j
  {
  }

  lemma RolesExactly(plan: seq<Task>, risk: int)
    ensures RolesPresent(plan, risk) <==>
      && (exists k :: 0 <= k < |plan| && plan[k].role == Lead) && (exists k :: 0 <= k < |plan| && plan[k].role == Qa)
      && (risk > 0 ==> exists k :: 0 <= k < |plan| && plan[k].role == Review)
  {
  }

  /**
   * Exactly which plans are valid, task by task: one to a hundred well-formed tasks with different names,
   * dependencies that name tasks, no task that waits for itself, QA after every implementation and review
   * after every QA task, a lead and a QA task, and at any risk a review.
   */
  lemma ValidPlanExactly(plan: seq<Task>, risk: int)
    ensures PlanValid(plan, risk) <==>
      && 1 <= |plan| <= 100 && (forall k :: 0 <= k < |plan| ==> WellFormed(plan[k]))
      && (forall i, j :: 0 <= i < |plan| && 0 <= j < |plan| && plan[i].id == plan[j].id ==> i == j)
      && NamesTasks(plan) && NoneWaitsForItself(plan) && InRoleOrder(plan)
      && (exists k :: 0 <= k < |plan| && plan[k].role == Lead) && (exists k :: 0 <= k < |plan| && plan[k].role == Qa)
      && (risk > 0 ==> exists k :: 0 <= k < |plan| && plan[k].role == Review)
  {
    forall k | 0 <= k < |plan| ensures TaskFieldsOk(plan[k]) <==> WellFormed(plan[k]) {
      WellFormedExactly(plan[k]);
    }
    UniqueExactly(plan);
    RolesExactly(plan, risk);
    hide TaskFieldsOk, WellFormed, Grounded, Cyclic, OrderRules, NamesTasks, NoneWaitsForItself, InRoleOrder, PlanGraph, UniqueIds, RolesPresent;
    if UniqueIds(plan) {
      GroundedExactly(plan);
      if Grounded(PlanGraph(plan)) {
        AcyclicExactly(plan);
        RoleOrderExactly(plan);
      }
    }
  }

  datatype PlanVerdict =
    | Accepted | BadSize | BadTask | DagCycle | UnknownDependency(id: string) | QaTooEarly | ReviewTooEarly | MissingRole

  /** Checks every task on its own and collects the ids with their dependencies. */
  method IndexPlan(plan: seq<Task>) returns (ok: bool, ids: Graph)
    ensures ok <==> (forall k :: 0 <= k < |plan| ==> TaskFieldsOk(plan[k])) && UniqueIds(plan)
    ensures ok ==> ids == PlanGraph(plan)
  {
    hide TaskFieldsOk;
    ids := map[];
    for k := 0 to |plan|
      invariant forall j :: 0 <= j < k ==> TaskFieldsOk(plan[j])
      invariant UniqueIds(plan[..k]) && ids == PlanGraph(plan[..k])
    {
      PlanGraphDomain(plan[..k], plan[k].id);
      if !TaskFieldsOk(plan[k]) || plan[k].id in ids {
        if plan[k].id in ids {
          var j :| 0 <= j < k && plan[..k][j].id == plan[k].id;
          assert plan[j].id == plan[k].id;
        }
        return false, ids;
      }
      assert plan[..k + 1][..k] == plan[..k];
      ids := ids[plan[k].id := plan[k].dependsOn];
    }
    assert plan[..|plan|] == plan;
    ok := true;
  }

  /** Accepts exactly the plans that are well formed, grounded, acyclic and ordered by role. */
  method ValidatePlan(plan: seq<Task>, risk: int) returns (r: PlanVerdict)
    ensures r.Accepted? <==> PlanValid(plan, risk)
    ensures r.DagCycle? ==> Cyclic(PlanGraph(plan))
    ensures r.UnknownDependency? ==> !Grounded(PlanGraph(plan))
    ensures r.QaTooEarly? || r.ReviewTooEarly? ==> !Cyclic(PlanGraph(plan)) && !OrderRules(plan)
  {
    hide Reaches, Cyclic, Deps;
    if |plan| == 0 || |plan| > 100 {
      return BadSize;
    }
    var ok, ids := IndexPlan(plan);
    if !ok {
      return BadTask;
    }
    hide PlanGraph, TaskFieldsOk, UniqueIds, Grounded, OrderRules, RolesPresent;
    var dag := Check(ids, true);
    if dag.Cycle? {
      return DagCycle;
    }
    if dag.Unknown? {
      return UnknownDependency(dag.id);
    }
    r := CheckOrder(plan);
    if r.Accepted? && !RolesPresent(plan, risk) {
      r := MissingRole;
    }
  }

  /** The pairwise ordering rules, answered through one memo shared by all pairs. */
  method CheckOrder(plan: seq<Task>) returns (r: PlanVerdict)
    requires !Cyclic(PlanGraph(plan))
    ensures r.Accepted? <==> OrderRules(plan)
    ensures r.Accepted? || r.QaTooEarly? || r.ReviewTooEarly?
  {
    hide Reaches, PlanGraph, Deps, AllPairs, MustFollow;
    var memo := new AncestorMemo(PlanGraph(plan));
    ghost var pairs := AllPairs(plan);
    for i := 0 to |plan|
      invariant memo.g == PlanGraph(plan) && Answered(memo) && memo.checked <= pairs
      invariant forall a, b | 0 <= a < i && 0 <= b < |plan| && MustFollow(plan[a].role, plan[b].role) ::
                  Reaches(memo.g, plan[a].id, plan[b].id)
    {
      for j := 0 to |plan|
        invariant memo.g == PlanGraph(plan) && Answered(memo) && memo.checked <= pairs
        invariant forall b :: 0 <= b < j && MustFollow(plan[i].role, plan[b].role) ==> Reaches(memo.g, plan[i].id, plan[b].id)
      {
        if MustFollow(plan[i].role, plan[j].role) {
          PairsSuffice(plan, i, j);
          var follows := memo.Ancestor(plan[i].id, plan[j].id, {}, pairs);
          if !follows {
            return if plan[i].role.Qa? then QaTooEarly else ReviewTooEarly;
          }
        }
      }
    }
    r := Accepted;
  }

  /** Nothing is being searched, so every recorded pair carries its final answer. */
  ghost predicate Answered(memo: AncestorMemo)
    reads memo
  {
    && memo.reachable <= memo.checked
    && forall a, b :: (a, b) in memo.checked ==> ((a, b) in memo.reachable <==> Reaches(memo.g, a, b))
  }

  ghost function AllPairs(plan: seq<Task>): set<(string, string)> {
    set a, b | a in Universe(PlanGraph(plan)) && b in Universe(PlanGraph(plan)) :: (a, b)
  }

  lemma PairsSuffice(plan: seq<Task>, i: nat, j: nat)
    requires i < |plan| && j < |plan|
    ensures (plan[i].id, plan[j].id) in AllPairs(plan)
    ensures forall a, d :: (a, plan[j].id) in AllPairs(plan) && d in Deps(PlanGraph(plan), a) ==> (d, plan[j].id) in AllPairs(plan)
  {
    PlanGraphDomain(plan, plan[i].id);
    PlanGraphDomain(plan, plan[j].id);
    UniverseIsClosed(PlanGraph(plan));
  }
}
