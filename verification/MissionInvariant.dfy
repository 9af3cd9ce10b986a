/** What every persisted mission satisfies, whatever the agents, Git and crashes do. */
module MissionInvariant {
  import opened Graph
  import opened Team
  import opened Scheduler
  import opened MissionSteps

  // ---------- the invariant ----------

  /** The parts of a plan no step changes. */
  ghost predicate PlanShape(plan: seq<Task>) {
    && UniqueIds(plan) && Grounded(PlanGraph(plan)) && !Cyclic(PlanGraph(plan)) && OrderRules(plan)
    && HasRole(plan, Lead) && HasRole(plan, Qa)
    && forall k :: 0 <= k < |plan| ==> plan[k].maxAttempts >= 1
  }

  /** Work that a repair cycle takes back. */
  predicate Redone(role: Role) {
    role.Qa? || role.Review?
  }

  /** Repair cycles restart QA and review without consulting their own attempt limit. */
  function AttemptLimit(m: Mission, t: Task): int {
    t.maxAttempts + if Redone(t.role) then m.fixCycles else 0
  }

  predicate LocationOk(m: Mission, t: Task) {
    && (t.taskId != "" ==> GoodTaskId(t.taskId))
    && (t.worktree != "" ==>
          && t.taskId != "" && t.attempts > 0
          && t.worktree == WorktreePath(m, OwnedId(t.id, t.taskId, t.attempts))
          && t.branch == BranchName(m, OwnedId(t.id, t.taskId, t.attempts)))
    && (t.worktree == "" ==> t.branch == "" && t.head == "")
  }

  predicate TaskOk(m: Mission, t: Task) {
    && !t.state.Failed?
    && 0 <= t.attempts <= 3 && t.attempts <= AttemptLimit(m, t)
    && (Schedulable(t.state) ==> t.attempts < AttemptLimit(m, t))
    && (t.state.Running? || t.state.Completed? ==> t.attempts > 0)
    && (t.state.Completed? ==> t.worktree != "" && t.artifactHead != "")
    && LocationOk(m, t)
  }

  predicate IsDispatch(e: Execution) {
    !e.result.Escalated?
  }

  predicate ResultOk(e: Execution) {
    && (e.result.Running? || e.result.Completed? || e.result.Failed? || e.result.Escalated?)
    && (e.result.Running? ==> e.test.NotRun? && e.review.NotRun? && e.evidence == [])
    && (e.result.Completed? ==>
          && e.evidence != [] && e.worktree != "" && e.head != ""
          && (e.agent.Qa? ==> e.test.Passed?) && (e.agent.Review? ==> e.review.Passed?))
    && (!e.agent.Qa? ==> !e.test.Passed?) && (!e.agent.Review? ==> !e.review.Passed?)
  }

  /** The worktree an execution used is the one owned by its task and attempt. */
  ghost predicate UsedOwnWorktree(m: Mission, e: Execution)
    requires e.retry >= 0
  {
    exists taskId :: GoodTaskId(taskId) && e.worktree == WorktreePath(m, OwnedId(e.taskId, taskId, e.retry + 1))
  }

  ghost predicate ExecutionOk(m: Mission, j: nat, e: Execution) {
    && ResultOk(e)
    && (IsDispatch(e) ==> j < m.budget.maxExecutions && e.retry >= 0)
    && (e.worktree != "" ==> IsDispatch(e) && UsedOwnWorktree(m, e))
  }

  /** The last execution of a task, or -1. */
  function LastIndex(execs: seq<Execution>, id: string): (r: int)
    ensures -1 <= r < |execs|
    ensures r >= 0 ==> execs[r].taskId == id
    ensures forall j :: r < j < |execs| ==> execs[j].taskId != id
  {
    if execs == [] then -1
    else if execs[|execs| - 1].taskId == id then |execs| - 1
    else LastIndex(execs[..|execs| - 1], id)
  }

  /** An execution was made for this task: same role, and not a later attempt than the task has had. */
  predicate Belongs(e: Execution, t: Task) {
    e.taskId == t.id ==> e.agent == t.role && (IsDispatch(e) ==> e.retry < t.attempts)
  }

  predicate Names(plan: seq<Task>, e: Execution) {
    exists k :: 0 <= k < |plan| && plan[k].id == e.taskId
  }

  predicate AllBelong(plan: seq<Task>, execs: seq<Execution>) {
    && (forall j :: 0 <= j < |execs| ==> Names(plan, execs[j]))
    && (forall j, k :: 0 <= j < |execs| && 0 <= k < |plan| ==> Belongs(execs[j], plan[k]))
  }

  predicate OnlyLastRuns(execs: seq<Execution>) {
    forall j :: 0 <= j < |execs| - 1 ==> !execs[j].result.Running?
  }

  predicate LastRuns(execs: seq<Execution>, id: string) {
    execs != [] && execs[|execs| - 1].result.Running? && execs[|execs| - 1].taskId == id
  }

  predicate RunningBy(t: Task, execs: seq<Execution>) {
    && (t.state.Running? <==> LastRuns(execs, t.id))
    && (t.state.Running? ==> execs[|execs| - 1].retry == t.attempts - 1)
  }

  /** A running task is the one the last, still running execution names, and conversely. */
  predicate RunningLinked(plan: seq<Task>, execs: seq<Execution>) {
    forall k :: 0 <= k < |plan| ==> RunningBy(plan[k], execs)
  }

  /** A completed task's last execution is the one that completed it. */
  predicate CompletedBy(t: Task, execs: seq<Execution>) {
    var j := LastIndex(execs, t.id);
    j >= 0 && execs[j].result.Completed? && execs[j].worktree == t.worktree && execs[j].head == t.artifactHead
    && execs[j].retry == t.attempts - 1
  }

  predicate CompletedLinked(plan: seq<Task>, execs: seq<Execution>) {
    forall k :: 0 <= k < |plan| && plan[k].state.Completed? ==> CompletedBy(plan[k], execs)
  }

  /** Attempts of one task are numbered upwards. */
  predicate RetriesRise(execs: seq<Execution>) {
    forall i, j :: 0 <= i < j < |execs| && IsDispatch(execs[i]) && IsDispatch(execs[j]) && execs[i].taskId == execs[j].taskId
      ==> execs[i].retry < execs[j].retry
  }

  /** Whatever a started task depends on has started, and is done unless a repair took it back. */
  predicate StartedAfter(t: Task, d: Task) {
    t.attempts > 0 && d.id in t.dependsOn ==> d.attempts > 0 && (d.state.Completed? || d.role.Lead? || Redone(d.role))
  }

  predicate Started(plan: seq<Task>) {
    forall i, j :: 0 <= i < |plan| && 0 <= j < |plan| ==> StartedAfter(plan[i], plan[j])
  }

  predicate EscalationOk(m: Mission) {
    && (!m.state.Escalated? ==> forall k :: 0 <= k < |m.plan| ==> !m.plan[k].state.Escalated?)
    && (forall i, j :: 0 <= i < j < |m.plan| ==> !(m.plan[i].state.Escalated? && m.plan[j].state.Escalated?))
  }

  predicate StateOk(m: Mission) {
    && (m.state.Pending? || m.state.Running? || m.state.Retry? || m.state.Escalated? || m.state.Completed?)
    && (m.state.Completed? ==> forall k :: 0 <= k < |m.plan| ==> m.plan[k].state.Completed?)
    && (!NoneRunning(m.plan) ==> m.state.Running? || (m.state.Escalated? && m.risk >= 3))
  }

  predicate BoundsOk(m: Mission) {
    && 0 <= m.risk <= 4 && 0 <= m.fixCycles <= m.budget.maxFixes && m.budget.maxExecutions >= 1
    && 1 <= |m.checks|
  }

  predicate TasksOk(m: Mission) {
    forall k :: 0 <= k < |m.plan| ==> TaskOk(m, m.plan[k])
  }

  ghost predicate ExecutionsOk(m: Mission) {
    forall j :: 0 <= j < |m.executions| ==> ExecutionOk(m, j, m.executions[j])
  }

  ghost predicate Inv(m: Mission) {
    && PlanShape(m.plan) && BoundsOk(m) && StateOk(m) && EscalationOk(m)
    && TasksOk(m) && ExecutionsOk(m)
    && AllBelong(m.plan, m.executions) && OnlyLastRuns(m.executions)
    && RunningLinked(m.plan, m.executions) && CompletedLinked(m.plan, m.executions)
    && RetriesRise(m.executions) && Started(m.plan)
  }

  // ---------- shape ----------

  predicate SameShape(t: Task, u: Task) {
    t.id == u.id && t.role == u.role && t.dependsOn == u.dependsOn && t.maxAttempts == u.maxAttempts
  }

  predicate SamePlanShape(p: seq<Task>, q: seq<Task>) {
    |p| == |q| && forall k :: 0 <= k < |p| ==> SameShape(p[k], q[k])
  }

  lemma {:induction false} SameGraph(p: seq<Task>, q: seq<Task>)
    requires SamePlanShape(p, q)
    ensures PlanGraph(p) == PlanGraph(q)
  {
    if p != [] {
      SameGraph(p[..|p| - 1], q[..|q| - 1]);
    }
  }

  lemma OrderRulesKept(p: seq<Task>, q: seq<Task>)
    requires SamePlanShape(p, q) && OrderRules(p)
    ensures OrderRules(q)
  {
    SameGraph(p, q);
    hide PlanGraph, Reaches;
    forall i, j | 0 <= i < |q| && 0 <= j < |q| && MustFollow(q[i].role, q[j].role)
      ensures Reaches(PlanGraph(q), q[i].id, q[j].id)
    {
      assert SameShape(p[i], q[i]) && SameShape(p[j], q[j]);
    }
  }

  lemma HasRoleKept(p: seq<Task>, q: seq<Task>, role: Role)
    requires SamePlanShape(p, q) && HasRole(p, role)
    ensures HasRole(q, role)
  {
    var k :| 0 <= k < |p| && p[k].role == role;
    assert q[k].role == role;
  }

  lemma ShapeKept(p: seq<Task>, q: seq<Task>)
    requires PlanShape(p) && SamePlanShape(p, q)
    ensures PlanShape(q)
  {
    SameGraph(p, q);
    OrderRulesKept(p, q);
    HasRoleKept(p, q, Lead);
    HasRoleKept(p, q, Qa);
    hide PlanGraph, Cyclic, Grounded, OrderRules, HasRole;
    assert UniqueIds(q);
  }

  lemma CreatedInv(m: Mission)
    requires Created(m)
    ensures Inv(m)
  {
    hide Cyclic, Grounded, OrderRules, UniqueIds, PlanGraph, OwnedId;
  }

  // ---------- waiting tasks are relabelled ----------

  predicate SameButLabel(t: Task, u: Task) {
    u == t || (Schedulable(t.state) && Schedulable(u.state) && u == t.(state := u.state))
  }

  predicate Relabelled(p: seq<Task>, q: seq<Task>) {
    |p| == |q| && forall k :: 0 <= k < |p| ==> SameButLabel(p[k], q[k])
  }

  /** Everything the invariant reads from a mission besides its plan, executions, state and risk. */
  predicate SameFrame(m: Mission, n: Mission) {
    && n.id == m.id && n.worktreeRoot == m.worktreeRoot && n.branchPrefix == m.branchPrefix
    && n.budget == m.budget && n.checks == m.checks && n.fixCycles == m.fixCycles
  }

  lemma RelabelShape(p: seq<Task>, q: seq<Task>)
    requires Relabelled(p, q)
    ensures SamePlanShape(p, q)
  {
    forall k | 0 <= k < |p| ensures SameShape(p[k], q[k]) {
      assert SameButLabel(p[k], q[k]);
    }
  }

  lemma RelabelTasks(m: Mission, n: Mission)
    requires TasksOk(m) && SameFrame(m, n) && Relabelled(m.plan, n.plan)
    ensures TasksOk(n)
  {
    forall k | 0 <= k < |n.plan| ensures TaskOk(n, n.plan[k]) {
      assert TaskOk(m, m.plan[k]) && SameButLabel(m.plan[k], n.plan[k]);
    }
  }

  lemma ExecutionsKept(m: Mission, n: Mission)
    requires ExecutionsOk(m) && SameFrame(m, n) && n.executions == m.executions
    ensures ExecutionsOk(n)
  {
    forall j | 0 <= j < |n.executions| ensures ExecutionOk(n, j, n.executions[j]) {
      assert ExecutionOk(m, j, m.executions[j]);
    }
  }

  /** The links read a task only through its id, role, attempts, location and whether it runs or is done. */
  predicate SameLinks(t: Task, u: Task) {
    && u.id == t.id && u.role == t.role && u.attempts == t.attempts && u.dependsOn == t.dependsOn
    && (u.state.Running? <==> t.state.Running?)
    && (u.state.Completed? <==> t.state.Completed?)
    && (u.state.Completed? ==> u.worktree == t.worktree && u.artifactHead == t.artifactHead)
  }

  predicate SamePlanLinks(p: seq<Task>, q: seq<Task>) {
    |p| == |q| && forall k :: 0 <= k < |p| ==> SameLinks(p[k], q[k])
  }

  lemma LinksKept(p: seq<Task>, q: seq<Task>, execs: seq<Execution>)
    requires SamePlanLinks(p, q)
    requires AllBelong(p, execs) && RunningLinked(p, execs) && CompletedLinked(p, execs)
    ensures AllBelong(q, execs) && RunningLinked(q, execs) && CompletedLinked(q, execs)
  {
    hide LastIndex;
    forall j | 0 <= j < |execs| ensures Names(q, execs[j]) {
      assert Names(p, execs[j]);
      var k :| 0 <= k < |p| && p[k].id == execs[j].taskId;
      assert SameLinks(p[k], q[k]);
    }
    forall j, k | 0 <= j < |execs| && 0 <= k < |q| ensures Belongs(execs[j], q[k]) {
      assert SameLinks(p[k], q[k]) && Belongs(execs[j], p[k]);
    }
    forall k | 0 <= k < |q| && q[k].state.Completed? ensures CompletedBy(q[k], execs) {
      assert SameLinks(p[k], q[k]) && CompletedBy(p[k], execs);
    }
    forall k | 0 <= k < |q| ensures RunningBy(q[k], execs) {
      assert SameLinks(p[k], q[k]) && RunningBy(p[k], execs);
    }
  }

  lemma StartedKept(p: seq<Task>, q: seq<Task>)
    requires SamePlanLinks(p, q) && Started(p)
    ensures Started(q)
  {
    forall i, j | 0 <= i < |q| && 0 <= j < |q| ensures StartedAfter(q[i], q[j]) {
      assert SameLinks(p[i], q[i]) && SameLinks(p[j], q[j]) && StartedAfter(p[i], p[j]);
    }
  }

  lemma RelabelLinks(p: seq<Task>, q: seq<Task>)
    requires Relabelled(p, q)
    ensures SamePlanLinks(p, q)
  {
    forall k | 0 <= k < |p| ensures SameLinks(p[k], q[k]) {
      assert SameButLabel(p[k], q[k]);
    }
  }

  lemma RelabelStates(m: Mission, n: Mission)
    requires StateOk(m) && EscalationOk(m) && Relabelled(m.plan, n.plan) && n.state == m.state && n.risk >= m.risk
    ensures StateOk(n) && EscalationOk(n)
  {
    forall k | 0 <= k < |m.plan| ensures SameButLabel(m.plan[k], n.plan[k]) {
    }
  }

  lemma RelabelInv(m: Mission, n: Mission)
    requires Inv(m) && SameFrame(m, n) && Relabelled(m.plan, n.plan)
    requires n.executions == m.executions && n.state == m.state && m.risk <= n.risk <= 4
    ensures Inv(n)
  {
    hide Relabelled, SamePlanShape, SamePlanLinks, PlanShape, TasksOk, ExecutionsOk, AllBelong, RunningLinked, CompletedLinked, Started, StateOk, EscalationOk, RetriesRise, OnlyLastRuns;
    RelabelShape(m.plan, n.plan);
    ShapeKept(m.plan, n.plan);
    RelabelTasks(m, n);
    ExecutionsKept(m, n);
    RelabelLinks(m.plan, n.plan);
    LinksKept(m.plan, n.plan, m.executions);
    StartedKept(m.plan, n.plan);
    RelabelStates(m, n);
  }

  lemma ReschedulingRelabels(plan: seq<Task>)
    ensures Relabelled(plan, Rescheduled(plan))
  {
    hide DepsDone;
  }

  lemma PreparedInv(m: Mission, assessed: int, models: seq<Model>)
    requires Inv(m) && 0 <= assessed <= 4
    ensures Inv(Prepared(m, assessed, models))
    ensures Relabelled(m.plan, Prepared(m, assessed, models).plan)
  {
    hide Relabelled;
    ReschedulingRelabels(m.plan);
    RelabelInv(m, Prepared(m, assessed, models)) by {
      hide PlanShape, TasksOk, ExecutionsOk, AllBelong, RunningLinked, CompletedLinked, Started, StateOk, EscalationOk, RetriesRise, OnlyLastRuns;
    }
  }

  // ---------- one task starts: an execution is appended ----------

  lemma LastIndexAppend(execs: seq<Execution>, e: Execution, id: string)
    ensures LastIndex(execs + [e], id) == if e.taskId == id then |execs| else LastIndex(execs, id)
  {
    assert (execs + [e])[..|execs|] == execs;
  }

  lemma NobodyRuns(plan: seq<Task>, execs: seq<Execution>)
    requires NoneRunning(plan) && AllBelong(plan, execs) && RunningLinked(plan, execs) && OnlyLastRuns(execs)
    ensures forall j :: 0 <= j < |execs| ==> !execs[j].result.Running?
  {
  }

  /** Task `i` leaves the waiting tasks and gets execution `e`. */
  predicate Starts(p: seq<Task>, q: seq<Task>, i: nat, e: Execution) {
    && i < |p| && |q| == |p| && q == p[i := q[i]] && SameShape(p[i], q[i])
    && Schedulable(p[i].state) && (q[i].state.Running? || q[i].state.Escalated?)
    && e.taskId == p[i].id && e.agent == p[i].role && e.result == q[i].state
    && q[i].attempts == p[i].attempts + (if q[i].state.Running? then 1 else 0)
    && (IsDispatch(e) ==> e.retry == p[i].attempts)
  }

  lemma StartBelongs(p: seq<Task>, q: seq<Task>, i: nat, execs: seq<Execution>, e: Execution)
    requires UniqueIds(p) && Starts(p, q, i, e) && AllBelong(p, execs)
    ensures AllBelong(q, execs + [e])
  {
    forall j | 0 <= j < |execs + [e]| ensures Names(q, (execs + [e])[j]) {
      if j < |execs| {
        assert Names(p, execs[j]);
        var k :| 0 <= k < |p| && p[k].id == execs[j].taskId;
        assert q[k].id == p[k].id;
      } else {
        assert q[i].id == e.taskId;
      }
    }
    forall j, k | 0 <= j < |execs + [e]| && 0 <= k < |q| ensures Belongs((execs + [e])[j], q[k]) {
      if j < |execs| {
        assert Belongs(execs[j], p[k]);
      }
    }
  }

  lemma StartLinks(p: seq<Task>, q: seq<Task>, i: nat, execs: seq<Execution>, e: Execution)
    requires UniqueIds(p) && Starts(p, q, i, e) && NoneRunning(p)
    requires CompletedLinked(p, execs)
    ensures RunningLinked(q, execs + [e]) && CompletedLinked(q, execs + [e])
  {
    hide LastIndex;
    forall k | 0 <= k < |q| ensures RunningBy(q[k], execs + [e]) {
    }
    forall k | 0 <= k < |q| && q[k].state.Completed? ensures CompletedBy(q[k], execs + [e]) {
      assert q[k] == p[k] && CompletedBy(p[k], execs);
      LastIndexAppend(execs, e, q[k].id);
    }
  }

  lemma StartRetries(p: seq<Task>, q: seq<Task>, i: nat, execs: seq<Execution>, e: Execution)
    requires Starts(p, q, i, e) && AllBelong(p, execs) && RetriesRise(execs)
    ensures RetriesRise(execs + [e])
  {
    var all := execs + [e];
    forall a, b | 0 <= a < b < |all| && IsDispatch(all[a]) && IsDispatch(all[b]) && all[a].taskId == all[b].taskId
      ensures all[a].retry < all[b].retry
    {
      if b == |execs| {
        assert Belongs(execs[a], p[i]);
      }
    }
  }

  predicate DependenciesDone(p: seq<Task>, i: nat)
    requires i < |p|
  {
    forall j :: 0 <= j < |p| && p[j].id in p[i].dependsOn ==> p[j].state.Completed?
  }

  lemma StartStarted(p: seq<Task>, q: seq<Task>, i: nat, e: Execution)
    requires Starts(p, q, i, e) && Started(p) && DependenciesDone(p, i)
    requires forall k :: 0 <= k < |p| && p[k].state.Completed? ==> p[k].attempts > 0
    ensures Started(q)
  {
    forall a, b | 0 <= a < |q| && 0 <= b < |q| ensures StartedAfter(q[a], q[b]) {
      assert StartedAfter(p[a], p[b]);
    }
  }

  lemma StartExecutions(m: Mission, n: Mission, e: Execution)
    requires ExecutionsOk(m) && SameFrame(m, n) && n.executions == m.executions + [e] && ExecutionOk(n, |m.executions|, e)
    ensures ExecutionsOk(n)
  {
    forall j | 0 <= j < |n.executions| ensures ExecutionOk(n, j, n.executions[j]) {
      if j < |m.executions| {
        assert ExecutionOk(m, j, m.executions[j]);
      }
    }
  }

  lemma TasksAfterUpdate(m: Mission, n: Mission, i: nat)
    requires TasksOk(m) && SameFrame(m, n) && i < |m.plan| && |n.plan| == |m.plan| && n.plan == m.plan[i := n.plan[i]]
    requires TaskOk(n, n.plan[i])
    ensures TasksOk(n)
  {
    forall k | 0 <= k < |n.plan| ensures TaskOk(n, n.plan[k]) {
      if k != i {
        assert TaskOk(m, m.plan[k]);
      }
    }
  }

  lemma ShapeAfterUpdate(p: seq<Task>, q: seq<Task>, i: nat)
    requires PlanShape(p) && i < |p| && |q| == |p| && q == p[i := q[i]] && SameShape(p[i], q[i])
    ensures PlanShape(q)
  {
    hide PlanShape;
    ShapeKept(p, q);
  }

  lemma StartStates(m: Mission, n: Mission, i: nat, e: Execution)
    requires StateOk(m) && EscalationOk(m) && !Terminal(m.state) && NoneRunning(m.plan)
    requires Starts(m.plan, n.plan, i, e) && n.state == n.plan[i].state
    ensures StateOk(n) && EscalationOk(n)
  {
  }

  lemma StartedEither(p: seq<Task>, q: seq<Task>, i: nat, e: Execution)
    requires Starts(p, q, i, e) && Started(p) && CompletedHaveAttempts(p)
    requires q[i].state.Running? ==> DependenciesDone(p, i)
    ensures Started(q)
  {
    hide Started;
    if q[i].state.Running? {
      StartStarted(p, q, i, e);
    } else {
      RefusedStarted(p, q, i, e);
    }
  }

  lemma StartShape(p: seq<Task>, q: seq<Task>, i: nat, e: Execution)
    requires PlanShape(p) && Starts(p, q, i, e)
    ensures PlanShape(q) && UniqueIds(p)
  {
    assert UniqueIds(p);
    hide PlanShape;
    ShapeAfterUpdate(p, q, i);
  }

  lemma StartTasks(m: Mission, n: Mission, i: nat, e: Execution)
    requires TasksOk(m) && SameFrame(m, n) && Starts(m.plan, n.plan, i, e) && TaskOk(n, n.plan[i])
    ensures TasksOk(n) && CompletedHaveAttempts(m.plan)
  {
    hide TaskOk, TasksOk, CompletedHaveAttempts;
    TasksAfterUpdate(m, n, i);
    CompletedHaveAttemptsLemma(m);
  }

  lemma StartOnlyLast(plan: seq<Task>, execs: seq<Execution>, e: Execution)
    requires NoneRunning(plan) && AllBelong(plan, execs) && RunningLinked(plan, execs) && OnlyLastRuns(execs)
    ensures OnlyLastRuns(execs + [e])
  {
    NobodyRuns(plan, execs);
  }

  lemma StartInv(m: Mission, n: Mission, i: nat, e: Execution)
    requires Inv(m) && SameFrame(m, n) && !Terminal(m.state) && NoneRunning(m.plan)
    requires Starts(m.plan, n.plan, i, e) && n.executions == m.executions + [e] && n.risk == m.risk && n.state == n.plan[i].state
    requires n.state.Running? ==> DependenciesDone(m.plan, i)
    requires TaskOk(n, n.plan[i]) && ExecutionOk(n, |m.executions|, e)
    ensures Inv(n)
  {
    hide TaskOk, ExecutionOk, PlanShape, TasksOk, ExecutionsOk, AllBelong, RunningLinked, CompletedLinked, Started, RetriesRise,
      DependenciesDone, UniqueIds, StateOk, EscalationOk, CompletedHaveAttempts, NoneRunning, Starts, OnlyLastRuns, Terminal;
    StartShape(m.plan, n.plan, i, e);
    StartTasks(m, n, i, e);
    StartExecutions(m, n, e);
    StartOnlyLast(m.plan, m.executions, e);
    StartBelongs(m.plan, n.plan, i, m.executions, e);
    StartLinks(m.plan, n.plan, i, m.executions, e);
    StartRetries(m.plan, n.plan, i, m.executions, e);
    StartStates(m, n, i, e);
    StartedEither(m.plan, n.plan, i, e);
  }

  predicate CompletedHaveAttempts(plan: seq<Task>) {
    forall k :: 0 <= k < |plan| && plan[k].state.Completed? ==> plan[k].attempts > 0
  }

  lemma CompletedHaveAttemptsLemma(m: Mission)
    requires TasksOk(m)
    ensures CompletedHaveAttempts(m.plan)
  {
    forall k | 0 <= k < |m.plan| && m.plan[k].state.Completed? ensures m.plan[k].attempts > 0 {
      assert TaskOk(m, m.plan[k]);
    }
  }

  lemma RefusedStarted(p: seq<Task>, q: seq<Task>, i: nat, e: Execution)
    requires Starts(p, q, i, e) && q[i].state.Escalated? && Started(p)
    ensures Started(q)
  {
    forall a, b | 0 <= a < |q| && 0 <= b < |q| ensures StartedAfter(q[a], q[b]) {
      assert StartedAfter(p[a], p[b]);
    }
  }

  lemma CompletedStates(plan: seq<Task>, d: string)
    requires UniqueIds(plan) && IsCompleted(States(plan), d)
    ensures forall j :: 0 <= j < |plan| && plan[j].id == d ==> plan[j].state.Completed?
  {
    forall j | 0 <= j < |plan| && plan[j].id == d ensures plan[j].state.Completed? {
      StatesAt(plan, j);
    }
  }

  lemma ReadyMeansDone(plan: seq<Task>, i: nat)
    requires UniqueIds(plan) && i < |plan| && DepsDone(plan, plan[i])
    ensures DependenciesDone(plan, i)
  {
    hide States;
    forall j | 0 <= j < |plan| && plan[j].id in plan[i].dependsOn ensures plan[j].state.Completed? {
      assert IsCompleted(States(plan), plan[j].id);
      CompletedStates(plan, plan[j].id);
    }
  }

  lemma DoneRelabelled(p: seq<Task>, q: seq<Task>, i: nat)
    requires Relabelled(p, q) && i < |p| && DependenciesDone(p, i)
    ensures DependenciesDone(q, i)
  {
    forall j | 0 <= j < |q| && q[j].id in q[i].dependsOn ensures q[j].state.Completed? {
      assert SameButLabel(p[j], q[j]) && SameButLabel(p[i], q[i]);
    }
  }

  lemma InvTask(m: Mission, i: nat)
    requires Inv(m) && i < |m.plan|
    ensures TaskOk(m, m.plan[i])
  {
    hide PlanShape, ExecutionsOk, AllBelong, RunningLinked, CompletedLinked, Started, RetriesRise, StateOk, EscalationOk, OnlyLastRuns, TaskOk;
  }

  lemma RefusedTaskOk(m: Mission, n: Mission, t: Task, size: int)
    requires TaskOk(m, t) && SameFrame(m, n)
    ensures TaskOk(n, t.(contextSize := size, state := Escalated))
  {
    hide OwnedId, GoodTaskId;
  }

  lemma RefusedInv(m: Mission, i: nat, size: int, id: string)
    requires Inv(m) && !Terminal(m.state) && NoneRunning(m.plan)
    requires i < |m.plan| && Schedulable(m.plan[i].state)
    ensures Inv(Refused(m, i, size, id))
  {
    hide Inv, NoneRunning, UsedOwnWorktree, OwnedId, TaskOk;
    InvTask(m, i);
    var n := Refused(m, i, size, id);
    RefusedTaskOk(m, n, m.plan[i], size);
    StartInv(m, n, i, RefusedExecution(id, n.plan[i]));
  }

  lemma DispatchedTaskOk(m: Mission, n: Mission, t: Task, size: int)
    requires TaskOk(m, t) && Schedulable(t.state) && t.attempts <= 2 && n.fixCycles == m.fixCycles
    ensures TaskOk(n, DispatchedTask(t.(contextSize := size)))
  {
    hide OwnedId, WorktreePath, BranchName, GoodTaskId;
  }

  lemma DispatchedInv(m: Mission, i: nat, size: int, chosen: Model, id: string)
    requires Inv(m) && !Terminal(m.state) && NoneRunning(m.plan)
    requires i < |m.plan| && Schedulable(m.plan[i].state) && DependenciesDone(m.plan, i)
    requires |m.executions| < m.budget.maxExecutions
    requires MinTier(m.plan[i], m.risk) <= chosen.tier <= 2
    ensures Inv(Dispatched(m, i, size, chosen, id))
  {
    hide Inv, NoneRunning, UsedOwnWorktree, OwnedId, DependenciesDone, TaskOk;
    InvTask(m, i);
    var n := Dispatched(m, i, size, chosen, id);
    assert m.plan[i].attempts >= 0 by {
      DispatchAttempts(m, m.plan[i]);
    }
    DispatchedTaskOk(m, n, m.plan[i], size);
    StartInv(m, n, i, NewExecution(id, n.plan[i], chosen));
  }

  lemma DispatchAttempts(m: Mission, t: Task)
    requires TaskOk(m, t)
    ensures t.attempts >= 0
  {
  }

  // ---------- the running task is worked on ----------

  lemma InPlaceInv(m: Mission, n: Mission, i: nat)
    requires Inv(m) && SameFrame(m, n) && i < |m.plan| && |n.plan| == |m.plan| && n.plan == m.plan[i := n.plan[i]]
    requires SameShape(m.plan[i], n.plan[i]) && SameLinks(m.plan[i], n.plan[i]) && n.plan[i].state == m.plan[i].state
    requires n.executions == m.executions && n.state == m.state && m.risk <= n.risk <= 4 && TaskOk(n, n.plan[i])
    ensures Inv(n)
  {
    hide TaskOk, PlanShape, TasksOk, ExecutionsOk, AllBelong, RunningLinked, CompletedLinked, Started, RetriesRise,
      StateOk, EscalationOk, OnlyLastRuns;
    ShapeAfterUpdate(m.plan, n.plan, i);
    TasksAfterUpdate(m, n, i);
    ExecutionsKept(m, n);
    LinksKept(m.plan, n.plan, m.executions);
    StartedKept(m.plan, n.plan);
    InPlaceStates(m, n, i);
  }

  lemma InPlaceStates(m: Mission, n: Mission, i: nat)
    requires StateOk(m) && EscalationOk(m) && i < |m.plan| && |n.plan| == |m.plan| && n.plan == m.plan[i := n.plan[i]]
    requires n.plan[i].state == m.plan[i].state && n.state == m.state && n.risk >= m.risk
    ensures StateOk(n) && EscalationOk(n)
  {
    assert forall k :: 0 <= k < |m.plan| ==> n.plan[k].state == m.plan[k].state;
  }

  lemma LocatedTaskOk(m: Mission, n: Mission, t: Task, taskId: string, head: string)
    requires TaskOk(m, t) && SameFrame(m, n) && t.state.Running? && GoodTaskId(taskId) && taskId != ""
    ensures TaskOk(n, LocatedTask(m, t, taskId)) && TaskOk(n, LocatedTask(m, t, taskId).(head := head))
  {
    hide OwnedId, GoodTaskId;
    assert LocatedTask(m, t, taskId).worktree[|m.worktreeRoot|] == '/';
  }

  lemma WithPrepInv(m: Mission, i: nat, prep: Prep)
    requires Inv(m) && i < |m.plan| && m.plan[i].state.Running? && PrepFits(m.plan[i], prep)
    ensures Inv(WithPrep(m, i, prep))
  {
    hide Inv, OwnedId, TaskOk, WorktreePath, BranchName;
    if !prep.Unprepared? {
      InvTask(m, i);
      var n := WithPrep(m, i, prep);
      LocatedTaskOk(m, n, m.plan[i], prep.taskId, if prep.Headed? then prep.head else "");
      InPlaceBounds(m);
      InPlaceInv(m, n, i);
    }
  }

  lemma InPlaceBounds(m: Mission)
    requires Inv(m)
    ensures 0 <= m.risk <= 4
  {
    hide PlanShape, TasksOk, ExecutionsOk, AllBelong, RunningLinked, CompletedLinked, Started, RetriesRise, StateOk, EscalationOk, OnlyLastRuns;
  }

  lemma RaisedInv(m: Mission, assessed: int)
    requires Inv(m) && 0 <= assessed <= 4
    ensures Inv(Raised(m, assessed))
  {
    hide PlanShape, TasksOk, ExecutionsOk, AllBelong, RunningLinked, CompletedLinked, Started, StateOk, EscalationOk, RetriesRise, OnlyLastRuns;
    RelabelInv(m, Raised(m, assessed));
  }

  /** Executions that differ only in the session they are attached to. */
  predicate SameRecord(e: Execution, f: Execution) {
    f == e.(sessionId := f.sessionId)
  }

  lemma {:induction false} SameLastIndex(execs: seq<Execution>, others: seq<Execution>, id: string)
    requires |execs| == |others| && forall j :: 0 <= j < |execs| ==> execs[j].taskId == others[j].taskId
    ensures LastIndex(execs, id) == LastIndex(others, id)
  {
    if execs != [] {
      SameLastIndex(execs[..|execs| - 1], others[..|others| - 1], id);
    }
  }

  lemma AttachLinks(plan: seq<Task>, execs: seq<Execution>, others: seq<Execution>)
    requires |execs| == |others| && forall j :: 0 <= j < |execs| ==> SameRecord(execs[j], others[j])
    requires AllBelong(plan, execs) && RunningLinked(plan, execs) && CompletedLinked(plan, execs)
    ensures AllBelong(plan, others) && RunningLinked(plan, others) && CompletedLinked(plan, others)
  {
    hide LastIndex;
    forall j | 0 <= j < |others| ensures Names(plan, others[j]) {
      assert Names(plan, execs[j]) && SameRecord(execs[j], others[j]);
    }
    forall j, k | 0 <= j < |others| && 0 <= k < |plan| ensures Belongs(others[j], plan[k]) {
      assert Belongs(execs[j], plan[k]) && SameRecord(execs[j], others[j]);
    }
    forall k | 0 <= k < |plan| ensures RunningBy(plan[k], others) {
      assert RunningBy(plan[k], execs);
    }
    forall k | 0 <= k < |plan| && plan[k].state.Completed? ensures CompletedBy(plan[k], others) {
      assert CompletedBy(plan[k], execs);
      SameLastIndex(execs, others, plan[k].id);
    }
  }

  lemma AttachRecords(m: Mission, n: Mission)
    requires ExecutionsOk(m) && OnlyLastRuns(m.executions) && RetriesRise(m.executions) && SameFrame(m, n)
    requires |n.executions| == |m.executions| && forall j :: 0 <= j < |m.executions| ==> SameRecord(m.executions[j], n.executions[j])
    ensures ExecutionsOk(n) && OnlyLastRuns(n.executions) && RetriesRise(n.executions)
  {
    forall j | 0 <= j < |n.executions| ensures ExecutionOk(n, j, n.executions[j]) {
      assert ExecutionOk(m, j, m.executions[j]) && SameRecord(m.executions[j], n.executions[j]);
    }
  }

  lemma AttachInv(m: Mission, j: nat, sessionId: string)
    requires Inv(m) && j < |m.executions|
    ensures Inv(m.(executions := m.executions[j := m.executions[j].(sessionId := sessionId)]))
  {
    var n := m.(executions := m.executions[j := m.executions[j].(sessionId := sessionId)]);
    hide PlanShape, TasksOk, ExecutionsOk, AllBelong, RunningLinked, CompletedLinked, Started, StateOk, EscalationOk, RetriesRise, OnlyLastRuns;
    AttachLinks(m.plan, m.executions, n.executions);
    AttachRecords(m, n);
    assert TasksOk(n) by { RelabelTasks(m, n); }
    assert StateOk(n) && EscalationOk(n) by { RelabelStates(m, n); }
  }

  // ---------- the running task ends ----------

  lemma LastIndexOfUpdate(execs: seq<Execution>, j: nat, e: Execution, id: string)
    requires j < |execs| && e.taskId == execs[j].taskId
    ensures LastIndex(execs[j := e], id) == LastIndex(execs, id)
  {
    SameLastIndex(execs, execs[j := e], id);
  }

  lemma LastIndexIsLast(execs: seq<Execution>, id: string)
    requires execs != [] && execs[|execs| - 1].taskId == id
    ensures LastIndex(execs, id) == |execs| - 1
  {
  }

  /** Task `i` stops running and its execution, the last one, is closed as `e`. */
  predicate Ends(p: seq<Task>, q: seq<Task>, i: nat, execs: seq<Execution>, e: Execution) {
    && i < |p| && |q| == |p| && q == p[i := q[i]] && SameShape(p[i], q[i])
    && p[i].state.Running? && LastRuns(execs, p[i].id) && q[i].attempts == p[i].attempts
    && e.taskId == p[i].id && e.agent == execs[|execs| - 1].agent && e.retry == execs[|execs| - 1].retry
    && ((q[i].state.Completed? && e.result.Completed?) || (e.result.Failed? && (q[i].state.Retry? || q[i].state.Escalated?)))
    && (e.result.Completed? ==> e.worktree == q[i].worktree && e.head == q[i].artifactHead && e.retry == p[i].attempts - 1)
  }

  lemma EndBelongs(p: seq<Task>, q: seq<Task>, i: nat, execs: seq<Execution>, e: Execution)
    requires Ends(p, q, i, execs, e) && AllBelong(p, execs)
    ensures AllBelong(q, execs[|execs| - 1 := e])
  {
    var l := |execs| - 1;
    var all := execs[l := e];
    forall j | 0 <= j < |all| ensures Names(q, all[j]) {
      assert Names(p, execs[j]);
      var k :| 0 <= k < |p| && p[k].id == execs[j].taskId;
      assert q[k].id == p[k].id;
    }
    forall j, k | 0 <= j < |all| && 0 <= k < |q| ensures Belongs(all[j], q[k]) {
      assert Belongs(execs[j], p[k]);
    }
  }

  lemma EndRunning(p: seq<Task>, q: seq<Task>, i: nat, execs: seq<Execution>, e: Execution)
    requires UniqueIds(p) && Ends(p, q, i, execs, e) && RunningLinked(p, execs) && OnlyLastRuns(execs)
    ensures RunningLinked(q, execs[|execs| - 1 := e]) && OnlyLastRuns(execs[|execs| - 1 := e]) && NoneRunning(q)
  {
    forall k | 0 <= k < |q| ensures RunningBy(q[k], execs[|execs| - 1 := e]) && !q[k].state.Running? {
      assert RunningBy(p[k], execs);
    }
  }

  lemma EndCompleted(p: seq<Task>, q: seq<Task>, i: nat, execs: seq<Execution>, e: Execution)
    requires UniqueIds(p) && Ends(p, q, i, execs, e) && CompletedLinked(p, execs)
    ensures CompletedLinked(q, execs[|execs| - 1 := e])
  {
    hide LastIndex;
    var l := |execs| - 1;
    forall k | 0 <= k < |q| && q[k].state.Completed? ensures CompletedBy(q[k], execs[l := e]) {
      LastIndexOfUpdate(execs, l, e, q[k].id);
      if k == i {
        LastIndexIsLast(execs, q[k].id);
      } else {
        assert CompletedBy(p[k], execs);
      }
    }
  }

  lemma EndRetries(execs: seq<Execution>, e: Execution)
    requires RetriesRise(execs) && execs != []
    requires e.taskId == execs[|execs| - 1].taskId && e.retry == execs[|execs| - 1].retry && IsDispatch(e) && IsDispatch(execs[|execs| - 1])
    ensures RetriesRise(execs[|execs| - 1 := e])
  {
  }

  lemma EndStarted(p: seq<Task>, q: seq<Task>, i: nat, execs: seq<Execution>, e: Execution)
    requires Ends(p, q, i, execs, e) && Started(p)
    ensures Started(q)
  {
    forall a, b | 0 <= a < |q| && 0 <= b < |q| ensures StartedAfter(q[a], q[b]) {
      assert StartedAfter(p[a], p[b]);
    }
  }

  lemma EndStates(m: Mission, n: Mission, i: nat, e: Execution)
    requires EscalationOk(m) && !Terminal(m.state) && Ends(m.plan, n.plan, i, m.executions, e) && NoneRunning(n.plan)
    requires n.state == if n.plan[i].state.Completed? then Pending else n.plan[i].state
    ensures StateOk(n) && EscalationOk(n)
  {
  }

  lemma EndExecutions(m: Mission, n: Mission, e: Execution)
    requires ExecutionsOk(m) && SameFrame(m, n) && m.executions != [] && n.executions == m.executions[|m.executions| - 1 := e]
    requires ExecutionOk(n, |m.executions| - 1, e)
    ensures ExecutionsOk(n)
  {
    forall j | 0 <= j < |n.executions| ensures ExecutionOk(n, j, n.executions[j]) {
      assert ExecutionOk(m, j, m.executions[j]);
    }
  }

  lemma EndShape(p: seq<Task>, q: seq<Task>, i: nat, execs: seq<Execution>, e: Execution)
    requires PlanShape(p) && Ends(p, q, i, execs, e)
    ensures PlanShape(q) && UniqueIds(p)
  {
    assert UniqueIds(p);
    hide PlanShape;
    ShapeAfterUpdate(p, q, i);
  }

  lemma EndTasks(m: Mission, n: Mission, i: nat, e: Execution)
    requires TasksOk(m) && SameFrame(m, n) && Ends(m.plan, n.plan, i, m.executions, e) && TaskOk(n, n.plan[i])
    ensures TasksOk(n)
  {
    hide TaskOk, TasksOk;
    TasksAfterUpdate(m, n, i);
  }

  lemma EndRetriesOf(p: seq<Task>, q: seq<Task>, i: nat, execs: seq<Execution>, e: Execution)
    requires Ends(p, q, i, execs, e) && RetriesRise(execs)
    ensures RetriesRise(execs[|execs| - 1 := e])
  {
    EndRetries(execs, e);
  }

  lemma EndInv(m: Mission, n: Mission, i: nat, e: Execution)
    requires Inv(m) && SameFrame(m, n) && !Terminal(m.state) && m.executions != []
    requires Ends(m.plan, n.plan, i, m.executions, e) && n.executions == m.executions[|m.executions| - 1 := e]
    requires 0 <= n.risk <= 4 && n.state == if n.plan[i].state.Completed? then Pending else n.plan[i].state
    requires TaskOk(n, n.plan[i]) && ExecutionOk(n, |m.executions| - 1, e)
    ensures Inv(n) && NoneRunning(n.plan)
  {
    hide TaskOk, ExecutionOk, PlanShape, TasksOk, ExecutionsOk, AllBelong, RunningLinked, CompletedLinked, Started, RetriesRise,
      UniqueIds, StateOk, EscalationOk, NoneRunning, Ends, OnlyLastRuns, Terminal;
    EndShape(m.plan, n.plan, i, m.executions, e);
    EndTasks(m, n, i, e);
    EndExecutions(m, n, e);
    EndBelongs(m.plan, n.plan, i, m.executions, e);
    EndRunning(m.plan, n.plan, i, m.executions, e);
    EndCompleted(m.plan, n.plan, i, m.executions, e);
    EndRetriesOf(m.plan, n.plan, i, m.executions, e);
    EndStarted(m.plan, n.plan, i, m.executions, e);
    EndStates(m, n, i, e);
  }

  lemma InvLast(m: Mission, i: nat)
    requires Inv(m) && RunsTask(m, i)
    ensures LastRuns(m.executions, m.plan[i].id) && RunningBy(m.plan[i], m.executions)
    ensures Belongs(m.executions[|m.executions| - 1], m.plan[i])
    ensures ExecutionOk(m, |m.executions| - 1, m.executions[|m.executions| - 1])
    ensures 0 <= m.risk <= 4 && m.fixCycles >= 0
  {
    hide PlanShape, TasksOk, CompletedLinked, Started, RetriesRise, StateOk, EscalationOk, OnlyLastRuns, ExecutionOk;
  }

  /** A success means every gate held: the recorded verdicts and evidence are never empty claims. */
  lemma OutcomeFacts(m: Mission, t: Task, e: Execution, runErr: bool, o: FinishObs)
    requires 0 <= m.risk <= 4 && RiskObserved(o) && (o.tree.headRead ==> o.tree.head != "")
    requires e.test.NotRun? && e.review.NotRun?
    ensures var out := OutcomeOf(m, t, e, runErr, o);
      && m.risk <= out.risk <= 4
      && (!out.err ==> !runErr && out.artifactHead == o.tree.head != "" && out.evidence != [])
      && (!out.err && t.role.Qa? ==> out.test.Passed?) && (!out.err && t.role.Review? ==> out.review.Passed?)
      && (!out.err && ReadOnly(t.role) ==> out.artifactHead == t.head)
      && (!t.role.Qa? ==> !out.test.Passed?) && (!t.role.Review? ==> !out.review.Passed?)
  {
    hide CheckEvidence, ChecksPass;
  }

  lemma FinishedTaskOk(m: Mission, n: Mission, t: Task, out: Outcome)
    requires TaskOk(m, t) && SameFrame(m, n) && m.fixCycles >= 0
    requires t.state.Running? && (!out.err ==> t.worktree != "" && out.artifactHead != "")
    ensures TaskOk(n, FinishedTask(t, out))
  {
    hide OwnedId, GoodTaskId;
  }

  lemma FinishedExecutionOk(m: Mission, n: Mission, j: nat, e: Execution, t: Task, out: Outcome)
    requires ExecutionOk(m, j, e) && TaskOk(m, t) && SameFrame(m, n)
    requires e.result.Running? && e.taskId == t.id && e.agent == t.role && e.retry == t.attempts - 1
    requires !out.err ==> t.worktree != "" && out.artifactHead != "" && out.evidence != []
    requires (!out.err && t.role.Qa? ==> out.test.Passed?) && (!out.err && t.role.Review? ==> out.review.Passed?)
    requires (!t.role.Qa? ==> !out.test.Passed?) && (!t.role.Review? ==> !out.review.Passed?)
    ensures ExecutionOk(n, j, FinishedExecution(e, t, out))
  {
    hide OwnedId, GoodTaskId;
    if t.worktree != "" {
      assert GoodTaskId(t.taskId) && t.worktree == WorktreePath(n, OwnedId(t.id, t.taskId, e.retry + 1));
    }
  }

  lemma RecordedEnds(m: Mission, i: nat, out: Outcome)
    requires i < |m.plan| && m.plan[i].state.Running? && LastRuns(m.executions, m.plan[i].id) && RunningBy(m.plan[i], m.executions)
    ensures var j := |m.executions| - 1; var n := Recorded(m, i, j, out);
      Ends(m.plan, n.plan, i, m.executions, n.executions[j])
  {
  }

  lemma RecordedInv(m: Mission, i: nat, runErr: bool, o: FinishObs)
    requires Inv(m) && RunsTask(m, i) && RiskObserved(o) && (o.tree.headRead ==> o.tree.head != "")
    requires !runErr ==> m.plan[i].worktree != ""
    ensures var j := |m.executions| - 1;
      var n := Recorded(m, i, j, OutcomeOf(m, m.plan[i], m.executions[j], runErr, o));
      Inv(n) && NoneRunning(n.plan)
  {
    var j := |m.executions| - 1;
    var t, e := m.plan[i], m.executions[j];
    InvLast(m, i);
    InvTask(m, i);
    assert e.test.NotRun? && e.review.NotRun? && e.agent == t.role && e.retry == t.attempts - 1;
    hide Inv, TaskOk, ExecutionOk, OutcomeOf, NoneRunning, OwnedId;
    var out := OutcomeOf(m, t, e, runErr, o);
    OutcomeFacts(m, t, e, runErr, o);
    var n := Recorded(m, i, j, out);
    FinishedTaskOk(m, n, t, out);
    FinishedExecutionOk(m, n, j, e, t, out);
    RecordedEnds(m, i, out);
    EndInv(m, n, i, n.executions[j]);
  }

  // ---------- a repair cycle ----------

  lemma RepairedTasks(m: Mission, lead: nat)
    requires TasksOk(m) && lead < |m.plan| && CanRepair(m.plan[lead]) && m.fixCycles >= 0
    ensures TasksOk(Repaired(m, lead))
  {
    hide OwnedId, GoodTaskId;
    var n := Repaired(m, lead);
    forall k | 0 <= k < |n.plan| ensures TaskOk(n, n.plan[k]) {
      assert TaskOk(m, m.plan[k]);
    }
  }

  lemma RepairedLinks(m: Mission, lead: nat)
    requires lead < |m.plan| && NoneRunning(m.plan)
    requires AllBelong(m.plan, m.executions) && RunningLinked(m.plan, m.executions) && CompletedLinked(m.plan, m.executions)
    ensures var n := Repaired(m, lead);
      AllBelong(n.plan, m.executions) && RunningLinked(n.plan, m.executions) && CompletedLinked(n.plan, m.executions)
  {
    hide LastIndex;
    var n := Repaired(m, lead);
    forall j | 0 <= j < |m.executions| ensures Names(n.plan, m.executions[j]) {
      assert Names(m.plan, m.executions[j]);
      var k :| 0 <= k < |m.plan| && m.plan[k].id == m.executions[j].taskId;
      assert n.plan[k].id == m.plan[k].id;
    }
    forall j, k | 0 <= j < |m.executions| && 0 <= k < |n.plan| ensures Belongs(m.executions[j], n.plan[k]) {
      assert Belongs(m.executions[j], m.plan[k]);
    }
    forall k | 0 <= k < |n.plan| ensures RunningBy(n.plan[k], m.executions) {
      assert RunningBy(m.plan[k], m.executions);
    }
    forall k | 0 <= k < |n.plan| && n.plan[k].state.Completed? ensures CompletedBy(n.plan[k], m.executions) {
      assert CompletedBy(m.plan[k], m.executions);
    }
  }

  lemma RepairedStarted(m: Mission, lead: nat)
    requires lead < |m.plan| && m.plan[lead].role.Lead? && Started(m.plan)
    ensures Started(Repaired(m, lead).plan)
  {
    var n := Repaired(m, lead);
    forall a, b | 0 <= a < |n.plan| && 0 <= b < |n.plan| ensures StartedAfter(n.plan[a], n.plan[b]) {
      assert StartedAfter(m.plan[a], m.plan[b]);
    }
  }

  predicate EscalatedIsRedone(plan: seq<Task>) {
    forall k :: 0 <= k < |plan| && plan[k].state.Escalated? ==> Redone(plan[k].role)
  }

  lemma RepairedStates(m: Mission, lead: nat)
    requires lead < |m.plan| && NoneRunning(m.plan) && EscalatedIsRedone(m.plan)
    ensures StateOk(Repaired(m, lead)) && EscalationOk(Repaired(m, lead)) && NoneRunning(Repaired(m, lead).plan)
  {
  }

  lemma RepairedInv(m: Mission, lead: nat)
    requires Inv(m) && NoneRunning(m.plan) && EscalatedIsRedone(m.plan)
    requires lead < |m.plan| && CanRepair(m.plan[lead]) && m.fixCycles < m.budget.maxFixes
    ensures Inv(Repaired(m, lead)) && NoneRunning(Repaired(m, lead).plan)
  {
    var n := Repaired(m, lead);
    hide PlanShape, TasksOk, ExecutionsOk, AllBelong, RunningLinked, CompletedLinked, Started, RetriesRise, StateOk, EscalationOk,
      OnlyLastRuns, NoneRunning, EscalatedIsRedone;
    ShapeKept(m.plan, n.plan);
    RepairedTasks(m, lead);
    RepairedLinks(m, lead);
    RepairedStarted(m, lead);
    RepairedStates(m, lead);
    RepairedExecutions(m, n);
  }

  lemma RepairedExecutions(m: Mission, n: Mission)
    requires ExecutionsOk(m) && n.executions == m.executions && n.budget == m.budget && n.worktreeRoot == m.worktreeRoot && n.id == m.id
    ensures ExecutionsOk(n)
  {
    forall j | 0 <= j < |n.executions| ensures ExecutionOk(n, j, n.executions[j]) {
      assert ExecutionOk(m, j, m.executions[j]);
    }
  }

  lemma NotEscalatedBefore(m: Mission)
    requires Inv(m) && !Terminal(m.state)
    ensures forall k :: 0 <= k < |m.plan| ==> !m.plan[k].state.Escalated?
  {
    hide PlanShape, TasksOk, ExecutionsOk, AllBelong, RunningLinked, CompletedLinked, Started, RetriesRise, StateOk, OnlyLastRuns;
  }

  lemma FinishedInv(m: Mission, i: nat, runErr: bool, o: FinishObs)
    requires Inv(m) && RunsTask(m, i) && RiskObserved(o) && (o.tree.headRead ==> o.tree.head != "")
    requires !runErr ==> m.plan[i].worktree != ""
    ensures var j := |m.executions| - 1;
      var n := Finished(m, i, j, OutcomeOf(m, m.plan[i], m.executions[j], runErr, o));
      Inv(n) && NoneRunning(n.plan)
  {
    hide Inv, OutcomeOf, NoneRunning;
    var j := |m.executions| - 1;
    var out := OutcomeOf(m, m.plan[i], m.executions[j], runErr, o);
    RecordedInv(m, i, runErr, o);
    var n := Recorded(m, i, j, out);
    if WantsRepair(m, i, out) && RepairLead(n.plan, 0).Some? {
      NotEscalatedBefore(m);
      assert EscalatedIsRedone(n.plan);
      RepairedInv(n, RepairLead(n.plan, 0).value);
    }
  }

  // ---------- escalation, retry and conclusion ----------

  lemma AbandonedInv(m: Mission, i: nat)
    requires Inv(m) && i < |m.plan| && m.state == m.plan[i].state && (m.state.Retry? || m.state.Escalated?)
    ensures Inv(m.(plan := m.plan[i := m.plan[i].(state := Escalated)], state := Escalated))
  {
    var n := m.(plan := m.plan[i := m.plan[i].(state := Escalated)], state := Escalated);
    hide TaskOk, PlanShape, TasksOk, ExecutionsOk, AllBelong, RunningLinked, CompletedLinked, Started, RetriesRise, OnlyLastRuns,
      StateOk, EscalationOk, SamePlanLinks;
    InvTask(m, i);
    RefusedTaskOk(m, n, m.plan[i], m.plan[i].contextSize);
    AbandonedStates(m, n, i);
    AbandonedLinks(m.plan, i);
    ShapeAfterUpdate(m.plan, n.plan, i);
    TasksAfterUpdate(m, n, i);
    ExecutionsKept(m, n);
    LinksKept(m.plan, n.plan, m.executions);
    StartedKept(m.plan, n.plan);
  }

  lemma AbandonedLinks(p: seq<Task>, i: nat)
    requires i < |p| && (p[i].state.Retry? || p[i].state.Escalated?)
    ensures SamePlanLinks(p, p[i := p[i].(state := Escalated)])
  {
  }

  lemma AbandonedStates(m: Mission, n: Mission, i: nat)
    requires StateOk(m) && EscalationOk(m) && i < |m.plan| && m.state == m.plan[i].state && (m.state.Retry? || m.state.Escalated?)
    requires n == m.(plan := m.plan[i := m.plan[i].(state := Escalated)], state := Escalated)
    ensures StateOk(n) && EscalationOk(n)
  {
  }

  lemma RetriedTasks(m: Mission)
    requires TasksOk(m) && m.fixCycles >= 0
    ensures TasksOk(Retried(m))
  {
    hide OwnedId, GoodTaskId;
    var n := Retried(m);
    forall k | 0 <= k < |n.plan| ensures TaskOk(n, n.plan[k]) {
      assert TaskOk(m, m.plan[k]);
    }
  }

  lemma RetriedStates(m: Mission)
    requires StateOk(m) && EscalationOk(m) && CanRetry(m)
    ensures StateOk(Retried(m)) && EscalationOk(Retried(m)) && NoneRunning(Retried(m).plan)
  {
    var k :| 0 <= k < |m.plan| && Retryable(m.plan[k]);
    assert forall j :: 0 <= j < |m.plan| && m.plan[j].state.Escalated? ==> j == k;
  }

  lemma RetriedInv(m: Mission)
    requires Inv(m) && CanRetry(m)
    ensures Inv(Retried(m))
  {
    var n := Retried(m);
    hide TaskOk, PlanShape, TasksOk, ExecutionsOk, AllBelong, RunningLinked, CompletedLinked, Started, RetriesRise, OnlyLastRuns,
      StateOk, EscalationOk, CanRetry;
    ShapeKept(m.plan, n.plan);
    RetriedTasks(m);
    RetriedStates(m);
    ExecutionsKept(m, n);
    LinksKept(m.plan, n.plan, m.executions);
    StartedKept(m.plan, n.plan);
  }

  predicate MayBecome(m: Mission, s: State) {
    || (s.Escalated? && (NoneRunning(m.plan) || m.risk >= 3))
    || (s.Completed? && forall k :: 0 <= k < |m.plan| ==> m.plan[k].state.Completed?)
  }

  lemma StateChangeStates(m: Mission, s: State)
    requires StateOk(m) && EscalationOk(m) && !Terminal(m.state) && MayBecome(m, s)
    ensures StateOk(m.(state := s)) && EscalationOk(m.(state := s))
  {
  }

  lemma StateChangeInv(m: Mission, s: State)
    requires Inv(m) && !Terminal(m.state) && MayBecome(m, s)
    ensures Inv(m.(state := s))
  {
    var n := m.(state := s);
    hide TaskOk, PlanShape, TasksOk, ExecutionsOk, AllBelong, RunningLinked, CompletedLinked, Started, RetriesRise, OnlyLastRuns,
      StateOk, EscalationOk, MayBecome, Terminal;
    StateChangeStates(m, s);
    RelabelTasks(m, n);
    ExecutionsKept(m, n);
  }

  lemma {:induction false} WalkPassed(plan: seq<Task>, sites: seq<SiteObs>, from: nat)
    requires from <= |plan| && |sites| == |plan| && WalkSites(plan, sites, from).Pass?
    ensures forall k :: from <= k < |plan| ==>
      plan[k].state.Completed? && sites[k].head == plan[k].artifactHead && !sites[k].dirty && sites[k].covered
    decreases |plan| - from
  {
    if from < |plan| {
      WalkPassed(plan, sites, from + 1);
    }
  }

  lemma ConcludedInv(m: Mission, o: ConcludeObs)
    requires Inv(m) && !Terminal(m.state) && NoneRunning(m.plan) && |o.sites| == |m.plan| && Conclusion(m, o).Some?
    ensures Inv(m.(state := Conclusion(m, o).value))
  {
    hide Inv, NoneRunning, VerdictsSuffice, LatestLacksEvidence;
    if WalkSites(m.plan, o.sites, 0).Pass? {
      WalkPassed(m.plan, o.sites, 0);
    }
    StateChangeInv(m, Conclusion(m, o).value);
  }

  // ---------- every step keeps the invariant ----------

  lemma ReadySchedulable(m: Mission, assessed: int, models: seq<Model>, i: nat)
    requires Inv(m) && IsFirstReady(m.plan, i)
    ensures var b := Prepared(m, assessed, models);
      Schedulable(b.plan[i].state) && DependenciesDone(b.plan, i) && b.plan[i].attempts == m.plan[i].attempts
        && b.plan[i].role == m.plan[i].role && (NoneRunning(m.plan) ==> NoneRunning(b.plan))
  {
    var b := Prepared(m, assessed, models);
    assert UniqueIds(m.plan) by {
      hide TasksOk, ExecutionsOk, AllBelong, RunningLinked, CompletedLinked, Started, RetriesRise, OnlyLastRuns, StateOk, EscalationOk;
    }
    hide Inv, UniqueIds, DependenciesDone;
    ReadyMeansDone(m.plan, i) by { hide States; }
    ReschedulingRelabels(m.plan);
    DoneRelabelled(m.plan, b.plan, i);
    forall k | 0 <= k < |b.plan| ensures SameButLabel(m.plan[k], b.plan[k]) {
    }
  }

  lemma DispatchStepInv(m: Mission, s: Step)
    requires Inv(m) && Enabled(m, s) && (s.Dispatch? || s.Refuse?)
    ensures Inv(Next(m, s))
  {
    hide Inv, Rescheduled, IsReady, DependenciesDone, NoneRunning, Relabelled;
    PreparedInv(m, s.assessed, s.models);
    ReadySchedulable(m, s.assessed, s.models, s.index);
    var b := Prepared(m, s.assessed, s.models);
    if s.Dispatch? {
      DispatchedInv(b, s.index, s.size, s.chosen, s.id);
    } else {
      RefusedInv(b, s.index, s.size, s.id);
    }
  }

  lemma FinishStepInv(m: Mission, s: Step)
    requires Inv(m) && Enabled(m, s) && s.Finish?
    ensures Inv(Next(m, s)) && NoneRunning(Next(m, s).plan)
  {
    hide Inv, NoneRunning, OutcomeOf;
    RaisedInv(m, s.assessed);
    WithPrepInv(Raised(m, s.assessed), s.index, s.prep);
    FinishedInv(WithPrep(Raised(m, s.assessed), s.index, s.prep), s.index, s.runErr, s.obs);
  }

  lemma ConcludeStepInv(m: Mission, s: Step)
    requires Inv(m) && Enabled(m, s) && s.Conclude?
    ensures Inv(Next(m, s))
  {
    hide Inv, Relabelled;
    assert Concluding(m, s.assessed) == Prepared(m, s.assessed, m.models);
    PreparedInv(m, s.assessed, m.models);
    RelabelKeepsRunning(m.plan, Concluding(m, s.assessed).plan);
    ConcludedInv(Concluding(m, s.assessed), s.view);
  }

  lemma RelabelKeepsRunning(p: seq<Task>, q: seq<Task>)
    requires Relabelled(p, q) && NoneRunning(p)
    ensures NoneRunning(q)
  {
    forall k | 0 <= k < |q| ensures !q[k].state.Running? {
      assert SameButLabel(p[k], q[k]);
    }
  }

  /** The invariant of every persisted mission. */
  lemma NextInv(m: Mission, s: Step)
    requires Inv(m) && Enabled(m, s)
    ensures Inv(Next(m, s))
  {
    hide Inv;
    match s
    case EscalateRisk(assessed) =>
      RaisedInv(m, assessed);
      StateChangeInv(Raised(m, assessed), Escalated);
    case Refuse(_, _, _, _, _) => DispatchStepInv(m, s);
    case Dispatch(_, _, _, _, _, _, _) => DispatchStepInv(m, s);
    case Prepare(i, prep) => WithPrepInv(m, i, prep);
    case Attach(sessionId) => AttachInv(m, |m.executions| - 1, sessionId);
    case Finish(_, _, _, _, _) => FinishStepInv(m, s);
    case Abandon(i) => AbandonedInv(m, i);
    case Conclude(_, _) => ConcludeStepInv(m, s);
    case RetryMission => RetriedInv(m);
  }

  /** Every saved version of every run. */
  lemma {:induction false} RunInv(saved: seq<Mission>, steps: seq<Step>, k: nat)
    requires Run(saved, steps) && k < |saved|
    ensures Inv(saved[k])
  {
    hide Inv, Created, Enabled, Next;
    if k == 0 {
      CreatedInv(saved[0]);
    } else {
      RunInv(saved, steps, k - 1);
      assert Enabled(saved[k - 1], steps[k - 1]) && saved[k - 1 + 1] == Next(saved[k - 1], steps[k - 1]);
      NextInv(saved[k - 1], steps[k - 1]);
    }
  }
}
