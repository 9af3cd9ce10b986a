/** Repairs are tested and reviewed again: what the plan's order buys over whole runs. */
module MissionOrder {
  import opened Graph
  import opened Team
  import opened Scheduler
  import opened MissionSteps
  import opened MissionInvariant

  // ---------- the condition on plans ----------

  predicate NeedsPrecedence(first: Role, second: Role) {
    (first.Lead? && Redone(second)) || (first.Qa? && second.Review?)
  }

  /** Task `i` is listed before `j`, or `j` names it or another task that must come after it. */
  predicate Precedes(plan: seq<Task>, i: nat, j: nat)
    requires i < |plan| && j < |plan|
  {
    i < j || plan[i].id in plan[j].dependsOn || Shielded(plan, i, j)
  }

  /** A direct dependency of `j` itself has to wait for `i`. */
  predicate Shielded(plan: seq<Task>, i: nat, j: nat)
    requires i < |plan| && j < |plan|
  {
    exists h :: 0 <= h < |plan| && plan[h].id in plan[j].dependsOn && NeedsPrecedence(plan[i].role, plan[h].role)
  }

  /** Leads precede QA and review, QA precedes review. Every simple plan is like this. */
  predicate Ordered(plan: seq<Task>) {
    forall i, j :: 0 <= i < |plan| && 0 <= j < |plan| && NeedsPrecedence(plan[i].role, plan[j].role) ==> Precedes(plan, i, j)
  }

  lemma OrderedKept(p: seq<Task>, q: seq<Task>)
    requires SamePlanShape(p, q) && Ordered(p)
    ensures Ordered(q)
  {
    forall i, j | 0 <= i < |q| && 0 <= j < |q| && NeedsPrecedence(q[i].role, q[j].role) ensures Precedes(q, i, j) {
      assert SameShape(p[i], q[i]) && SameShape(p[j], q[j]) && Precedes(p, i, j);
      if Shielded(p, i, j) {
        var h :| 0 <= h < |p| && p[h].id in p[j].dependsOn && NeedsPrecedence(p[i].role, p[h].role);
        assert SameShape(p[h], q[h]);
      }
    }
  }

  // ---------- what may run when ----------

  predicate Active(t: Task) {
    t.state.Running? || t.state.Completed?
  }

  /** QA runs or has passed only over finished implementation work, review only over finished QA. */
  predicate Waits(plan: seq<Task>) {
    forall i, j :: 0 <= i < |plan| && 0 <= j < |plan| && MustFollow(plan[j].role, plan[i].role) && Active(plan[j]) ==> plan[i].state.Completed?
  }

  /** The ids of tasks that have started, and are done unless a repair may take them back. */
  ghost function StartedIds(plan: seq<Task>): set<string> {
    set k | 0 <= k < |plan| && plan[k].attempts > 0 && (plan[k].state.Completed? || plan[k].role.Lead? || Redone(plan[k].role)) :: plan[k].id
  }

  lemma StartedClosed(plan: seq<Task>)
    requires UniqueIds(plan) && Grounded(PlanGraph(plan)) && Started(plan)
    ensures Closed(PlanGraph(plan), StartedIds(plan))
  {
    hide PlanGraph;
    var g := PlanGraph(plan);
    forall a, d | a in StartedIds(plan) && d in Deps(g, a) ensures d in StartedIds(plan) {
      var k :| 0 <= k < |plan| && plan[k].id == a && plan[k].attempts > 0;
      PlanGraphAt(plan, k);
      PlanGraphDomain(plan, d);
      var j :| 0 <= j < |plan| && plan[j].id == d;
      assert StartedAfter(plan[k], plan[j]);
    }
  }

  /** Everything reachable from a task whose dependencies are done has started. */
  lemma AncestorStarted(plan: seq<Task>, i: nat, x: nat)
    requires UniqueIds(plan) && Grounded(PlanGraph(plan)) && Started(plan) && CompletedHaveAttempts(plan)
    requires i < |plan| && x < |plan| && DependenciesDone(plan, i) && Reaches(PlanGraph(plan), plan[i].id, plan[x].id)
    ensures plan[x].attempts > 0 && (plan[x].state.Completed? || plan[x].role.Lead? || Redone(plan[x].role))
  {
    hide PlanGraph;
    var g := PlanGraph(plan);
    StartedClosed(plan);
    var d := FirstEdge(g, plan[i].id, plan[x].id);
    PlanGraphAt(plan, i);
    PlanGraphDomain(plan, d);
    var j :| 0 <= j < |plan| && plan[j].id == d;
    assert plan[j].state.Completed? && d in StartedIds(plan);
    if d != plan[x].id {
      ClosedContains(g, StartedIds(plan), d, plan[x].id);
    }
    var k :| 0 <= k < |plan| && plan[k].id == plan[x].id && plan[k].attempts > 0
      && (plan[k].state.Completed? || plan[k].role.Lead? || Redone(plan[k].role));
    assert k == x;
  }

  /** Roles whose incomplete tasks could be overtaken by task `i`. */
  predicate MayLag(role: Role, of: Role) {
    role.Lead? || (role.Qa? && of.Review?)
  }

  ghost function LaggingIds(plan: seq<Task>, of: Role): set<string> {
    set k | 0 <= k < |plan| && MayLag(plan[k].role, of) && !plan[k].state.Completed? :: plan[k].id
  }

  /** A lead or QA task never depends on what must come after it. */
  lemma NoBackEdge(plan: seq<Task>, x: nat, d: nat, of: Role)
    requires PlanShape(plan) && x < |plan| && d < |plan| && Redone(of)
    requires MayLag(plan[x].role, of) && plan[d].id in plan[x].dependsOn && Redone(plan[d].role)
    ensures MayLag(plan[d].role, of)
  {
    var g := PlanGraph(plan);
    hide PlanGraph;
    PlanGraphAt(plan, x);
    ReachesEdge(g, plan[x].id, plan[d].id);
    if plan[x].role.Lead? || plan[d].role.Review? {
      var t :| 0 <= t < |plan| && plan[t].role == Qa;
      if plan[d].role.Qa? {
        assert MustFollow(plan[d].role, plan[x].role);
      } else if plan[x].role.Lead? {
        assert MustFollow(plan[d].role, plan[t].role) && MustFollow(plan[t].role, plan[x].role);
        ReachesTransitive(g, plan[d].id, plan[t].id, plan[x].id);
      } else {
        assert MustFollow(plan[d].role, plan[x].role);
      }
      ReachesTransitive(g, plan[x].id, plan[d].id, plan[x].id);
      assert false;
    }
  }

  lemma DoneMeansReady(plan: seq<Task>, x: nat)
    requires UniqueIds(plan) && Grounded(PlanGraph(plan)) && x < |plan| && DependenciesDone(plan, x) && Schedulable(plan[x].state)
    ensures IsReady(plan, x)
  {
    hide PlanGraph, States;
    PlanGraphAt(plan, x);
    forall d | d in plan[x].dependsOn ensures IsCompleted(States(plan), d) {
      PlanGraphDomain(plan, d);
      var j :| 0 <= j < |plan| && plan[j].id == d;
      StatesAt(plan, j);
    }
  }

  /** No running, escalated or failed task: what is not done is waiting. */
  predicate Settled(plan: seq<Task>) {
    forall k :: 0 <= k < |plan| ==> plan[k].state.Completed? || Schedulable(plan[k].state)
  }

  /** Among tasks that have started and lag behind, one is ready. */
  lemma LaggardReady(plan: seq<Task>, of: Role) returns (x: nat)
    requires PlanShape(plan) && Started(plan) && Settled(plan) && Redone(of) && LaggingIds(plan, of) != {}
    requires forall k :: 0 <= k < |plan| && MayLag(plan[k].role, of) && !plan[k].state.Completed? ==> plan[k].attempts > 0
    ensures x < |plan| && MayLag(plan[x].role, of) && !plan[x].state.Completed? && IsReady(plan, x)
  {
    var g := PlanGraph(plan);
    hide PlanGraph, Cyclic, OrderRules;
    var start :| start in LaggingIds(plan, of);
    var id := MinimalMember(g, LaggingIds(plan, of), start);
    x :| 0 <= x < |plan| && plan[x].id == id && MayLag(plan[x].role, of) && !plan[x].state.Completed?;
    PlanGraphAt(plan, x);
    forall j | 0 <= j < |plan| && plan[j].id in plan[x].dependsOn ensures plan[j].state.Completed? {
      assert plan[j].id in Deps(g, id);
      assert plan[j].id !in LaggingIds(plan, of);
      assert StartedAfter(plan[x], plan[j]);
      if !plan[j].state.Completed? && Redone(plan[j].role) {
        NoBackEdge(plan, x, j, of);
      }
    }
    DoneMeansReady(plan, x);
  }

  lemma SettledWhenIdle(m: Mission)
    requires Inv(m) && !Terminal(m.state) && NoneRunning(m.plan)
    ensures Settled(m.plan)
  {
    NotEscalatedBefore(m);
    forall k | 0 <= k < |m.plan| ensures m.plan[k].state.Completed? || Schedulable(m.plan[k].state) {
      InvTask(m, k) by { hide TaskOk; }
      assert !m.plan[k].state.Failed? by { hide Inv; }
    }
  }

  lemma ExistsQa(plan: seq<Task>) returns (t: nat)
    requires HasRole(plan, Qa)
    ensures t < |plan| && plan[t].role.Qa?
  {
    t :| 0 <= t < |plan| && plan[t].role == Qa;
  }

  /** What comes before the dispatched task has started, and only leads or QA can be unfinished. */
  lemma PredecessorStarted(plan: seq<Task>, i: nat, x: nat)
    requires PlanShape(plan) && Started(plan) && CompletedHaveAttempts(plan)
    requires i < |plan| && x < |plan| && DependenciesDone(plan, i) && Redone(plan[i].role)
    requires MustFollow(plan[i].role, plan[x].role) || (plan[i].role.Review? && IsBuild(plan[x].role))
    ensures plan[x].attempts > 0 && (plan[x].state.Completed? || MayLag(plan[x].role, plan[i].role))
  {
    hide PlanGraph, Grounded, Cyclic, Reaches;
    if !MustFollow(plan[i].role, plan[x].role) {
      var t := ExistsQa(plan);
      assert MustFollow(plan[i].role, plan[t].role) && MustFollow(plan[t].role, plan[x].role);
      ReachesTransitive(PlanGraph(plan), plan[i].id, plan[t].id, plan[x].id);
    }
    AncestorStarted(plan, i, x);
  }

  /** What a done task had to wait for is done. */
  lemma ShieldHolds(plan: seq<Task>, i: nat, j: nat)
    requires HasRole(plan, Qa) && Waits(plan) && i < |plan| && j < |plan| && DependenciesDone(plan, j) && Shielded(plan, i, j)
    ensures plan[i].state.Completed?
  {
    var h :| 0 <= h < |plan| && plan[h].id in plan[j].dependsOn && NeedsPrecedence(plan[i].role, plan[h].role);
    assert Active(plan[h]);
    if !MustFollow(plan[h].role, plan[i].role) {
      var t := ExistsQa(plan);
      assert MustFollow(plan[h].role, plan[t].role) && MustFollow(plan[t].role, plan[i].role);
    }
  }

  /** The task dispatched next never overtakes what its role must follow. */
  lemma NothingLags(plan: seq<Task>, i: nat)
    requires PlanShape(plan) && Started(plan) && Settled(plan) && CompletedHaveAttempts(plan) && Ordered(plan) && Waits(plan)
    requires i < |plan| && IsFirstReady(plan, i) && DependenciesDone(plan, i) && Redone(plan[i].role)
    ensures LaggingIds(plan, plan[i].role) == {}
  {
    hide PlanShape, IsReady;
    var of := plan[i].role;
    if LaggingIds(plan, of) != {} {
      forall k | 0 <= k < |plan| && MayLag(plan[k].role, of) && !plan[k].state.Completed? ensures plan[k].attempts > 0 {
        PredecessorStarted(plan, i, k);
      }
      var x := LaggardReady(plan, of);
      hide LaggingIds, Waits, Shielded;
      assert Precedes(plan, x, i);
      if Shielded(plan, x, i) {
        ShieldHolds(plan, x, i) by { ShapeHasQa(plan); }
      }
    }
  }

  lemma ShapeHasQa(plan: seq<Task>)
    requires PlanShape(plan)
    ensures HasRole(plan, Qa)
  {
    hide UniqueIds, Grounded, Cyclic, OrderRules, HasRole;
  }

  lemma DispatchFollows(m: Mission, i: nat)
    requires Inv(m) && Ordered(m.plan) && Waits(m.plan) && !Terminal(m.state) && NoneRunning(m.plan) && IsFirstReady(m.plan, i)
    ensures forall x :: 0 <= x < |m.plan| && MustFollow(m.plan[i].role, m.plan[x].role) ==> m.plan[x].state.Completed?
  {
    hide TasksOk, ExecutionsOk, AllBelong, RunningLinked, CompletedLinked, RetriesRise, StateOk, EscalationOk, OnlyLastRuns, Ordered, Waits,
      PlanGraph, Started, IsReady, CompletedHaveAttempts, Settled, Grounded, Cyclic, OrderRules, NoneRunning, DependenciesDone;
    CompletedHaveAttemptsLemma(m);
    SettledWhenIdle(m);
    assert DependenciesDone(m.plan, i) by { FirstReadyDone(m.plan, i); }
    if Redone(m.plan[i].role) {
      NothingLags(m.plan, i);
      forall x | 0 <= x < |m.plan| && MustFollow(m.plan[i].role, m.plan[x].role) ensures m.plan[x].state.Completed? {
        PredecessorStarted(m.plan, i, x);
        assert m.plan[x].id !in LaggingIds(m.plan, m.plan[i].role);
      }
    }
  }

  lemma FirstReadyDone(plan: seq<Task>, i: nat)
    requires UniqueIds(plan) && IsFirstReady(plan, i)
    ensures DependenciesDone(plan, i)
  {
    ReadyMeansDone(plan, i) by { hide States; }
  }

  // ---------- the order invariant ----------

  /** A finished QA or review task ran after every finished execution it has to follow. */
  predicate Covers(plan: seq<Task>, execs: seq<Execution>) {
    forall k, x | 0 <= k < |plan| && 0 <= x < |execs| && plan[k].state.Completed? && execs[x].result.Completed? ::
      MustFollow(plan[k].role, execs[x].agent) ==> x < LastIndex(execs, plan[k].id)
  }

  /** `head` is the head of the last completed execution, when there is one. */
  predicate FromSource(execs: seq<Execution>, head: string) {
    LastCompleted(execs).Some? ==> head == execs[LastCompleted(execs).value].head
  }

  /** A read-only execution reports exactly the head of the completed execution before it. */
  predicate HeadsChain(execs: seq<Execution>) {
    forall x :: 0 <= x < |execs| && execs[x].result.Completed? && ReadOnly(execs[x].agent) ==> FromSource(execs[..x], execs[x].head)
  }

  /** A running task's worktree was cut from the head of the last completed execution. */
  predicate StartsAtSource(m: Mission) {
    forall k :: 0 <= k < |m.plan| && m.plan[k].state.Running? && m.plan[k].head != "" ==> FromSource(m.executions, m.plan[k].head)
  }

  predicate AllContained(plan: seq<Task>, anc: (string, string) -> bool, head: string) {
    forall k :: 0 <= k < |plan| ==> anc(plan[k].artifactHead, head)
  }

  /** In a completed mission every artifact is contained in the final source. */
  ghost predicate Contained(m: Mission, anc: (string, string) -> bool) {
    m.state.Completed? ==> exists head :: FromSource(m.executions, head) && AllContained(m.plan, anc, head)
  }

  ghost predicate OrderInv(m: Mission, anc: (string, string) -> bool) {
    && Ordered(m.plan) && Waits(m.plan) && Covers(m.plan, m.executions)
    && HeadsChain(m.executions) && StartsAtSource(m) && Contained(m, anc)
  }

  /**
   * What Git answers: a new worktree starts at its source's head, the source still is where the last
   * completed execution left it, and containment is ancestry.
   */
  predicate Honest(m: Mission, s: Step, anc: (string, string) -> bool) {
    match s
    case Prepare(_, prep) => prep.Headed? ==> FromSource(m.executions, prep.head)
    case Conclude(_, o) =>
      o.sourceRead ==>
        && FromSource(m.executions, o.finalHead) && |o.sites| == |m.plan|
        && forall k :: 0 <= k < |m.plan| && o.sites[k].covered ==> anc(m.plan[k].artifactHead, o.finalHead)
    case _ => true
  }

  // ---------- every step keeps it ----------

  /** No task becomes active, and none stops being done. */
  predicate NothingNew(p: seq<Task>, q: seq<Task>) {
    && SamePlanShape(p, q)
    && forall k :: 0 <= k < |p| ==> (Active(q[k]) ==> Active(p[k])) && (p[k].state.Completed? ==> q[k].state.Completed?)
  }

  lemma WaitsKept(p: seq<Task>, q: seq<Task>)
    requires Waits(p) && NothingNew(p, q)
    ensures Waits(q)
  {
    forall i, j | 0 <= i < |q| && 0 <= j < |q| && MustFollow(q[j].role, q[i].role) && Active(q[j]) ensures q[i].state.Completed? {
      assert SameShape(p[i], q[i]) && SameShape(p[j], q[j]);
    }
  }

  /** Same executions, and nothing newly done: coverage is kept. */
  lemma CoversKept(p: seq<Task>, q: seq<Task>, execs: seq<Execution>)
    requires Covers(p, execs) && SamePlanShape(p, q) && forall k :: 0 <= k < |q| && q[k].state.Completed? ==> p[k].state.Completed?
    ensures Covers(q, execs)
  {
    hide LastIndex;
    forall k, x | 0 <= k < |q| && 0 <= x < |execs| && q[k].state.Completed? && execs[x].result.Completed? && MustFollow(q[k].role, execs[x].agent)
      ensures x < LastIndex(execs, q[k].id)
    {
      assert SameShape(p[k], q[k]);
    }
  }

  lemma CoversAppend(plan: seq<Task>, execs: seq<Execution>, e: Execution)
    requires Covers(plan, execs) && !e.result.Completed?
    requires forall k :: 0 <= k < |plan| && plan[k].state.Completed? ==> plan[k].id != e.taskId
    ensures Covers(plan, execs + [e])
  {
    hide LastIndex;
    forall k, x | 0 <= k < |plan| && 0 <= x < |execs + [e]| && plan[k].state.Completed? && (execs + [e])[x].result.Completed?
      && MustFollow(plan[k].role, (execs + [e])[x].agent)
      ensures x < LastIndex(execs + [e], plan[k].id)
    {
      LastIndexAppend(execs, e, plan[k].id);
    }
  }

  lemma ChainAppend(execs: seq<Execution>, e: Execution)
    requires HeadsChain(execs) && (e.result.Completed? && ReadOnly(e.agent) ==> FromSource(execs, e.head))
    ensures HeadsChain(execs + [e])
  {
    hide FromSource;
    forall x | 0 <= x < |execs + [e]| && (execs + [e])[x].result.Completed? && ReadOnly((execs + [e])[x].agent)
      ensures FromSource((execs + [e])[..x], (execs + [e])[x].head)
    {
      assert (execs + [e])[..x] == execs[..x];
      assert execs[..|execs|] == execs;
    }
  }

  lemma ChainFront(execs: seq<Execution>)
    requires HeadsChain(execs) && execs != []
    ensures HeadsChain(execs[..|execs| - 1])
  {
    hide FromSource;
    var front := execs[..|execs| - 1];
    forall x | 0 <= x < |front| && front[x].result.Completed? && ReadOnly(front[x].agent) ensures FromSource(front[..x], front[x].head) {
      assert front[..x] == execs[..x];
    }
  }

  lemma FrontSource(execs: seq<Execution>, head: string)
    requires execs != [] && !execs[|execs| - 1].result.Completed?
    ensures FromSource(execs, head) == FromSource(execs[..|execs| - 1], head)
  {
  }

  lemma RelabelNothingNew(p: seq<Task>, q: seq<Task>)
    requires Relabelled(p, q)
    ensures NothingNew(p, q)
  {
    forall k | 0 <= k < |p| ensures SameShape(p[k], q[k]) && (Active(q[k]) ==> Active(p[k])) && (p[k].state.Completed? ==> q[k].state.Completed?) {
      assert SameButLabel(p[k], q[k]);
    }
  }

  lemma RelabelOrder(m: Mission, n: Mission, anc: (string, string) -> bool)
    requires OrderInv(m, anc) && Relabelled(m.plan, n.plan) && n.executions == m.executions && !n.state.Completed?
    ensures OrderInv(n, anc)
  {
    hide Ordered, Waits, Covers, HeadsChain, FromSource, NothingNew, SamePlanShape, Relabelled, StartsAtSource;
    RelabelNothingNew(m.plan, n.plan);
    RelabelShape(m.plan, n.plan);
    OrderedKept(m.plan, n.plan);
    WaitsKept(m.plan, n.plan);
    CoversRelabel(m.plan, n.plan, m.executions);
    StartsRelabel(m, n);
  }

  lemma CoversRelabel(p: seq<Task>, q: seq<Task>, execs: seq<Execution>)
    requires Covers(p, execs) && Relabelled(p, q) && SamePlanShape(p, q)
    ensures Covers(q, execs)
  {
    hide Covers;
    forall k | 0 <= k < |q| && q[k].state.Completed? ensures p[k].state.Completed? {
      assert SameButLabel(p[k], q[k]);
    }
    CoversKept(p, q, execs);
  }

  lemma StartsRelabel(m: Mission, n: Mission)
    requires StartsAtSource(m) && Relabelled(m.plan, n.plan) && n.executions == m.executions
    ensures StartsAtSource(n)
  {
    hide FromSource;
    forall k | 0 <= k < |n.plan| && n.plan[k].state.Running? && n.plan[k].head != "" ensures FromSource(n.executions, n.plan[k].head) {
      assert SameButLabel(m.plan[k], n.plan[k]);
    }
  }

  /** A step that starts nothing, finishes nothing and touches no execution. */
  lemma QuietOrder(m: Mission, n: Mission, anc: (string, string) -> bool)
    requires OrderInv(m, anc) && NothingNew(m.plan, n.plan) && n.executions == m.executions
    requires forall k :: 0 <= k < |n.plan| && n.plan[k].state.Completed? ==> m.plan[k].state.Completed?
    requires StartsAtSource(n) && !n.state.Completed?
    ensures OrderInv(n, anc)
  {
    assert SamePlanShape(m.plan, n.plan);
    hide Ordered, Waits, Covers, HeadsChain, FromSource, NothingNew, SamePlanShape, StartsAtSource;
    OrderedKept(m.plan, n.plan);
    WaitsKept(m.plan, n.plan);
    CoversKept(m.plan, n.plan, m.executions);
  }

  lemma NoneRunningStarts(m: Mission)
    requires NoneRunning(m.plan)
    ensures StartsAtSource(m)
  {
  }

  lemma WaitsStart(p: seq<Task>, q: seq<Task>, i: nat, e: Execution)
    requires Waits(p) && Starts(p, q, i, e)
    requires q[i].state.Running? ==> forall x :: 0 <= x < |p| && MustFollow(p[i].role, p[x].role) ==> p[x].state.Completed?
    ensures Waits(q)
  {
    forall a, b | 0 <= a < |q| && 0 <= b < |q| && MustFollow(q[b].role, q[a].role) && Active(q[b]) ensures q[a].state.Completed? {
      assert b != i ==> Active(p[b]);
    }
  }

  lemma CoversStart(p: seq<Task>, q: seq<Task>, i: nat, execs: seq<Execution>, e: Execution)
    requires UniqueIds(p) && Covers(p, execs) && Starts(p, q, i, e)
    ensures Covers(q, execs + [e])
  {
    hide LastIndex, Covers;
    CoversKept(p, q, execs);
    forall k | 0 <= k < |q| && q[k].state.Completed? ensures q[k].id != e.taskId {
      assert k != i;
    }
    CoversAppend(q, execs, e);
  }

  lemma StartSource(m: Mission, n: Mission, i: nat, e: Execution)
    requires NoneRunning(m.plan) && Starts(m.plan, n.plan, i, e) && (n.plan[i].state.Running? ==> n.plan[i].head == "")
    ensures StartsAtSource(n)
  {
    forall k | 0 <= k < |n.plan| && n.plan[k].state.Running? ensures k == i {
    }
  }

  lemma StartOrder(m: Mission, n: Mission, i: nat, e: Execution, anc: (string, string) -> bool)
    requires OrderInv(m, anc) && UniqueIds(m.plan) && NoneRunning(m.plan) && Starts(m.plan, n.plan, i, e)
    requires n.executions == m.executions + [e] && !n.state.Completed? && (n.plan[i].state.Running? ==> n.plan[i].head == "")
    requires n.plan[i].state.Running? ==> forall x :: 0 <= x < |m.plan| && MustFollow(m.plan[i].role, m.plan[x].role) ==> m.plan[x].state.Completed?
    ensures OrderInv(n, anc)
  {
    assert SamePlanShape(m.plan, n.plan) && !e.result.Completed?;
    StartSource(m, n, i, e);
    hide Ordered, Waits, Covers, HeadsChain, FromSource, SamePlanShape, StartsAtSource, Starts, NoneRunning, UniqueIds;
    OrderedKept(m.plan, n.plan);
    WaitsStart(m.plan, n.plan, i, e);
    CoversStart(m.plan, n.plan, i, m.executions, e);
    ChainAppend(m.executions, e);
  }

  lemma InvIds(m: Mission)
    requires Inv(m)
    ensures UniqueIds(m.plan) && PlanShape(m.plan)
  {
    hide TasksOk, ExecutionsOk, AllBelong, RunningLinked, CompletedLinked, RetriesRise, StateOk, EscalationOk, OnlyLastRuns, Started;
  }

  lemma FreshHead(m: Mission, t: Task, size: int)
    requires TaskOk(m, t)
    ensures DispatchedTask(t.(contextSize := size)).head == ""
  {
    hide OwnedId, GoodTaskId;
  }

  lemma FollowsPrepared(m: Mission, b: Mission, i: nat)
    requires Relabelled(m.plan, b.plan) && i < |m.plan|
    requires forall x :: 0 <= x < |m.plan| && MustFollow(m.plan[i].role, m.plan[x].role) ==> m.plan[x].state.Completed?
    ensures forall x :: 0 <= x < |b.plan| && MustFollow(b.plan[i].role, b.plan[x].role) ==> b.plan[x].state.Completed?
  {
    forall k | 0 <= k < |b.plan| ensures SameButLabel(m.plan[k], b.plan[k]) {
    }
  }

  lemma DispatchStarts(m: Mission, i: nat, size: int, chosen: Model, id: string)
    requires i < |m.plan| && Schedulable(m.plan[i].state) && m.plan[i].attempts >= 0
    ensures var n := Dispatched(m, i, size, chosen, id);
      var e := NewExecution(id, n.plan[i], chosen);
      Starts(m.plan, n.plan, i, e) && n.executions == m.executions + [e] && n.plan[i].state.Running? && !n.state.Completed?
        && n.plan[i].head == DispatchedTask(m.plan[i].(contextSize := size)).head
  {
  }

  lemma RefusalStarts(m: Mission, i: nat, size: int, id: string)
    requires i < |m.plan| && Schedulable(m.plan[i].state)
    ensures var n := Refused(m, i, size, id);
      var e := RefusedExecution(id, n.plan[i]);
      Starts(m.plan, n.plan, i, e) && n.executions == m.executions + [e] && n.plan[i].state.Escalated? && !n.state.Completed?
  {
  }

  lemma DispatchStepOrder(m: Mission, s: Step, anc: (string, string) -> bool)
    requires Inv(m) && OrderInv(m, anc) && Enabled(m, s) && (s.Dispatch? || s.Refuse?)
    ensures OrderInv(Next(m, s), anc)
  {
    assert Ordered(m.plan) && Waits(m.plan) by { hide Inv, Waits, Covers, HeadsChain, StartsAtSource, Contained; }
    hide Inv, OrderInv, Rescheduled, DependenciesDone, NoneRunning, Relabelled, UniqueIds, TaskOk, IsReady, Ordered, PlanShape;
    var b := Prepared(m, s.assessed, s.models);
    var n := Next(m, s);
    PreparedInv(m, s.assessed, s.models);
    RelabelOrder(m, b, anc);
    InvIds(b);
    ReadySchedulable(m, s.assessed, s.models, s.index);
    DispatchFollows(m, s.index);
    FollowsPrepared(m, b, s.index);
    InvTask(b, s.index);
    FreshHead(b, b.plan[s.index], s.size);
    DispatchAttempts(b, b.plan[s.index]);
    var e := if s.Dispatch? then NewExecution(s.id, n.plan[s.index], s.chosen) else RefusedExecution(s.id, n.plan[s.index]);
    if s.Dispatch? {
      DispatchStarts(b, s.index, s.size, s.chosen, s.id);
    } else {
      RefusalStarts(b, s.index, s.size, s.id);
    }
    hide Starts, Dispatched, Refused;
    StartOrder(b, n, s.index, e, anc);
  }

  // ---------- finishing ----------

  lemma WaitsEnd(p: seq<Task>, q: seq<Task>, i: nat, execs: seq<Execution>, e: Execution)
    requires Waits(p) && Ends(p, q, i, execs, e)
    ensures Waits(q)
  {
    forall a, b | 0 <= a < |q| && 0 <= b < |q| && MustFollow(q[b].role, q[a].role) && Active(q[b]) ensures q[a].state.Completed? {
      assert Active(p[b]) && p[a].state.Completed?;
    }
  }

  lemma CoversEnd(p: seq<Task>, q: seq<Task>, i: nat, execs: seq<Execution>, e: Execution)
    requires UniqueIds(p) && Waits(p) && Covers(p, execs) && Ends(p, q, i, execs, e) && e.agent == p[i].role
    ensures Covers(q, execs[|execs| - 1 := e])
  {
    hide LastIndex;
    var l := |execs| - 1;
    var all := execs[l := e];
    forall k, x | 0 <= k < |q| && 0 <= x < |all| && q[k].state.Completed? && all[x].result.Completed? && MustFollow(q[k].role, all[x].agent)
      ensures x < LastIndex(all, q[k].id)
    {
      LastIndexOfUpdate(execs, l, e, q[k].id);
      if k == i {
        LastIndexIsLast(execs, q[k].id);
      }
    }
  }

  lemma ChainEnd(execs: seq<Execution>, e: Execution)
    requires HeadsChain(execs) && execs != [] && !execs[|execs| - 1].result.Completed?
    requires e.result.Completed? && ReadOnly(e.agent) ==> FromSource(execs, e.head)
    ensures HeadsChain(execs[|execs| - 1 := e])
  {
    var front := execs[..|execs| - 1];
    FrontSource(execs, e.head);
    hide HeadsChain, FromSource;
    ChainFront(execs);
    ChainAppend(front, e);
    assert execs[|execs| - 1 := e] == front + [e];
  }

  lemma EndOrder(m: Mission, n: Mission, i: nat, e: Execution, anc: (string, string) -> bool)
    requires UniqueIds(m.plan) && Ordered(m.plan) && Waits(m.plan) && Covers(m.plan, m.executions) && HeadsChain(m.executions)
    requires m.executions != [] && Ends(m.plan, n.plan, i, m.executions, e) && e.agent == m.plan[i].role
    requires n.executions == m.executions[|m.executions| - 1 := e] && !n.state.Completed? && NoneRunning(n.plan)
    requires e.result.Completed? && ReadOnly(e.agent) ==> FromSource(m.executions, e.head)
    ensures OrderInv(n, anc)
  {
    assert SamePlanShape(m.plan, n.plan) && !m.executions[|m.executions| - 1].result.Completed?;
    NoneRunningStarts(n);
    hide Ordered, Waits, Covers, HeadsChain, FromSource, SamePlanShape, StartsAtSource, Ends, NoneRunning, UniqueIds;
    OrderedKept(m.plan, n.plan);
    WaitsEnd(m.plan, n.plan, i, m.executions, e);
    CoversEnd(m.plan, n.plan, i, m.executions, e);
    ChainEnd(m.executions, e);
  }

  lemma RepairOrder(m: Mission, lead: nat, anc: (string, string) -> bool)
    requires OrderInv(m, anc) && NoneRunning(m.plan) && lead < |m.plan| && m.plan[lead].role.Lead?
    ensures OrderInv(Repaired(m, lead), anc)
  {
    var n := Repaired(m, lead);
    hide Ordered, Covers, HeadsChain, FromSource;
    assert SamePlanShape(m.plan, n.plan);
    OrderedKept(m.plan, n.plan);
    CoversKept(m.plan, n.plan, m.executions);
    NoneRunningStarts(n);
  }

  /** A read-only success reports the head its worktree started from. */
  lemma FinishedHead(m: Mission, i: nat, runErr: bool, o: FinishObs)
    requires Inv(m) && RunsTask(m, i) && RiskObserved(o) && (o.tree.headRead ==> o.tree.head != "")
    requires StartsAtSource(m) || runErr
    ensures var j := |m.executions| - 1;
      var out := OutcomeOf(m, m.plan[i], m.executions[j], runErr, o);
      !out.err && ReadOnly(m.plan[i].role) ==> FromSource(m.executions, out.artifactHead)
  {
    hide FromSource;
    var j := |m.executions| - 1;
    InvLast(m, i) by { hide Inv; }
    var e := m.executions[j];
    assert e.test.NotRun? && e.review.NotRun? && 0 <= m.risk <= 4 by { hide Inv, UsedOwnWorktree; }
    hide Inv, OutcomeOf;
    OutcomeFacts(m, m.plan[i], e, runErr, o);
  }

  lemma RecordedOrder(m: Mission, i: nat, runErr: bool, o: FinishObs, anc: (string, string) -> bool)
    requires Inv(m) && RunsTask(m, i) && RiskObserved(o) && (o.tree.headRead ==> o.tree.head != "")
    requires !runErr ==> m.plan[i].worktree != ""
    requires Ordered(m.plan) && Waits(m.plan) && Covers(m.plan, m.executions) && HeadsChain(m.executions)
    requires StartsAtSource(m) || runErr
    ensures var j := |m.executions| - 1;
      OrderInv(Recorded(m, i, j, OutcomeOf(m, m.plan[i], m.executions[j], runErr, o)), anc)
  {
    hide Inv, OrderInv, OutcomeOf, NoneRunning, Ordered, Waits, Covers, HeadsChain, StartsAtSource, FromSource, UniqueIds, ExecutionOk, PlanShape, Ends;
    var j := |m.executions| - 1;
    var out := OutcomeOf(m, m.plan[i], m.executions[j], runErr, o);
    var n := Recorded(m, i, j, out);
    InvIds(m);
    InvLast(m, i);
    RecordedInv(m, i, runErr, o);
    FinishedHead(m, i, runErr, o);
    RecordedEnds(m, i, out);
    EndOrder(m, n, i, n.executions[j], anc);
  }

  lemma FinishedOrder(m: Mission, i: nat, runErr: bool, o: FinishObs, anc: (string, string) -> bool)
    requires Inv(m) && RunsTask(m, i) && RiskObserved(o) && (o.tree.headRead ==> o.tree.head != "")
    requires !runErr ==> m.plan[i].worktree != ""
    requires Ordered(m.plan) && Waits(m.plan) && Covers(m.plan, m.executions) && HeadsChain(m.executions)
    requires StartsAtSource(m) || runErr
    ensures var j := |m.executions| - 1;
      OrderInv(Finished(m, i, j, OutcomeOf(m, m.plan[i], m.executions[j], runErr, o)), anc)
  {
    hide Inv, NoneRunning, OutcomeOf, Ordered, Waits, Covers, HeadsChain, StartsAtSource, OrderInv, Recorded, Repaired;
    var j := |m.executions| - 1;
    var out := OutcomeOf(m, m.plan[i], m.executions[j], runErr, o);
    RecordedOrder(m, i, runErr, o, anc);
    RecordedInv(m, i, runErr, o);
    var n := Recorded(m, i, j, out);
    if WantsRepair(m, i, out) && RepairLead(n.plan, 0).Some? {
      RepairOrder(n, RepairLead(n.plan, 0).value, anc);
    }
  }

  lemma FinishStepOrder(m: Mission, s: Step, anc: (string, string) -> bool)
    requires Inv(m) && OrderInv(m, anc) && Enabled(m, s) && s.Finish?
    ensures OrderInv(Next(m, s), anc)
  {
    hide Inv, NoneRunning, OutcomeOf, Ordered, Waits, Covers, HeadsChain, StartsAtSource, OrderInv, Finished, OwnedId, GoodTaskId;
    var base := WithPrep(Raised(m, s.assessed), s.index, s.prep);
    PrepOrder(m, s, anc);
    RaisedInv(m, s.assessed);
    WithPrepInv(Raised(m, s.assessed), s.index, s.prep);
    FinishedOrder(base, s.index, s.runErr, s.obs, anc);
  }

  lemma PrepOrder(m: Mission, s: Step, anc: (string, string) -> bool)
    requires OrderInv(m, anc) && Enabled(m, s) && s.Finish?
    ensures var b := WithPrep(Raised(m, s.assessed), s.index, s.prep);
      && Ordered(b.plan) && Waits(b.plan) && Covers(b.plan, b.executions) && HeadsChain(b.executions)
      && (StartsAtSource(b) || s.runErr)
  {
    var b := WithPrep(Raised(m, s.assessed), s.index, s.prep);
    PrepNothingNew(Raised(m, s.assessed), s.index, s.prep);
    hide Ordered, Waits, Covers, HeadsChain, FromSource, NothingNew, SamePlanShape, OwnedId;
    OrderedKept(m.plan, b.plan);
    WaitsKept(m.plan, b.plan);
    CoversKept(m.plan, b.plan, m.executions);
  }

  lemma PrepNothingNew(m: Mission, i: nat, prep: Prep)
    requires i < |m.plan| && m.plan[i].state.Running? && PrepFits(m.plan[i], prep)
    ensures var n := WithPrep(m, i, prep);
      && NothingNew(m.plan, n.plan) && SamePlanShape(m.plan, n.plan)
      && forall k :: 0 <= k < |n.plan| && n.plan[k].state.Completed? ==> m.plan[k].state.Completed?
  {
    hide OwnedId, GoodTaskId;
  }

  // ---------- the other steps ----------

  lemma PrepareOrder(m: Mission, i: nat, prep: Prep, anc: (string, string) -> bool)
    requires OrderInv(m, anc) && RunsTask(m, i) && UniqueIds(m.plan) && PrepFits(m.plan[i], prep)
    requires prep.Headed? ==> FromSource(m.executions, prep.head)
    ensures OrderInv(WithPrep(m, i, prep), anc)
  {
    var n := WithPrep(m, i, prep);
    PrepNothingNew(m, i, prep);
    assert StartsAtSource(n) by {
      hide FromSource, OwnedId, GoodTaskId, Ordered, Waits, Covers, HeadsChain, Contained;
      forall k | 0 <= k < |n.plan| && n.plan[k].state.Running? && n.plan[k].head != "" ensures FromSource(n.executions, n.plan[k].head) {
      }
    }
    hide OrderInv, NothingNew, StartsAtSource, FromSource, OwnedId, GoodTaskId, UniqueIds;
    QuietOrder(m, n, anc);
  }

  lemma AttachOrder(m: Mission, sessionId: string, anc: (string, string) -> bool)
    requires OrderInv(m, anc) && m.executions != [] && m.executions[|m.executions| - 1].result.Running? && !m.state.Completed?
    ensures var j := |m.executions| - 1;
      OrderInv(m.(executions := m.executions[j := m.executions[j].(sessionId := sessionId)]), anc)
  {
    var j := |m.executions| - 1;
    var e := m.executions[j].(sessionId := sessionId);
    var n := m.(executions := m.executions[j := e]);
    assert Covers(n.plan, n.executions) by {
      hide LastIndex;
      forall k, x | 0 <= k < |n.plan| && 0 <= x < |n.executions| && n.plan[k].state.Completed? && n.executions[x].result.Completed?
        && MustFollow(n.plan[k].role, n.executions[x].agent)
        ensures x < LastIndex(n.executions, n.plan[k].id)
      {
        LastIndexOfUpdate(m.executions, j, e, n.plan[k].id);
      }
    }
    ChainEnd(m.executions, e);
    assert forall head :: FromSource(n.executions, head) == FromSource(m.executions, head) by {
      forall head ensures FromSource(n.executions, head) == FromSource(m.executions, head) {
        FrontSource(m.executions, head);
        FrontSource(n.executions, head);
        assert n.executions[..j] == m.executions[..j];
      }
    }
    hide Ordered, Waits, Covers, HeadsChain, FromSource;
  }

  lemma AbandonOrder(m: Mission, i: nat, anc: (string, string) -> bool)
    requires OrderInv(m, anc) && i < |m.plan| && (m.plan[i].state.Retry? || m.plan[i].state.Escalated?)
    ensures OrderInv(m.(plan := m.plan[i := m.plan[i].(state := Escalated)], state := Escalated), anc)
  {
    var n := m.(plan := m.plan[i := m.plan[i].(state := Escalated)], state := Escalated);
    assert NothingNew(m.plan, n.plan);
    assert StartsAtSource(n) by {
      hide FromSource, Ordered, Waits, Covers, HeadsChain, Contained;
    }
    hide OrderInv, NothingNew, StartsAtSource, FromSource;
    QuietOrder(m, n, anc);
  }

  lemma RetryOrder(m: Mission, anc: (string, string) -> bool)
    requires OrderInv(m, anc)
    ensures OrderInv(Retried(m), anc)
  {
    var n := Retried(m);
    assert NothingNew(m.plan, n.plan);
    assert StartsAtSource(n) by {
      hide FromSource, Ordered, Waits, Covers, HeadsChain, Contained;
      forall k | 0 <= k < |n.plan| && n.plan[k].state.Running? && n.plan[k].head != "" ensures FromSource(n.executions, n.plan[k].head) {
      }
    }
    hide OrderInv, NothingNew, StartsAtSource, FromSource;
    QuietOrder(m, n, anc);
  }

  lemma RaiseOrder(m: Mission, assessed: int, s: State, anc: (string, string) -> bool)
    requires OrderInv(m, anc) && !s.Completed?
    ensures OrderInv(Raised(m, assessed).(state := s), anc)
  {
    hide OrderInv;
    RelabelOrder(m, Raised(m, assessed).(state := s), anc);
  }

  lemma ConcludeOrder(m: Mission, s: Step, anc: (string, string) -> bool)
    requires Inv(m) && OrderInv(m, anc) && Enabled(m, s) && s.Conclude? && Honest(m, s, anc)
    ensures OrderInv(Next(m, s), anc)
  {
    hide Inv, OrderInv, Relabelled, VerdictsSuffice, LatestLacksEvidence, NoneReady, NoneRunning, Rescheduled;
    var b := Concluding(m, s.assessed);
    ReschedulingRelabels(m.plan);
    RelabelOrder(m, b, anc);
    var n := Next(m, s);
    if n.state.Completed? {
      WalkPassed(b.plan, s.view.sites, 0);
      ContainedSites(m, b, s.view, anc);
      CompletedOrder(b, s.view.finalHead, anc);
    } else {
      RaiseOrder(b, 0, n.state, anc);
      assert Raised(b, 0).(state := n.state) == n.(risk := Max(b.risk, 0));
      RiskIrrelevant(n.(risk := Max(b.risk, 0)), n, anc);
    }
  }

  lemma RiskIrrelevant(m: Mission, n: Mission, anc: (string, string) -> bool)
    requires OrderInv(m, anc) && n == m.(risk := n.risk)
    ensures OrderInv(n, anc)
  {
    hide Ordered, Waits, Covers, HeadsChain, FromSource;
  }

  lemma ContainedSites(m: Mission, b: Mission, o: ConcludeObs, anc: (string, string) -> bool)
    requires Relabelled(m.plan, b.plan) && |o.sites| == |m.plan|
    requires forall k :: 0 <= k < |b.plan| ==> b.plan[k].state.Completed? && o.sites[k].covered
    requires forall k :: 0 <= k < |m.plan| && o.sites[k].covered ==> anc(m.plan[k].artifactHead, o.finalHead)
    ensures AllContained(b.plan, anc, o.finalHead)
  {
    forall k | 0 <= k < |b.plan| ensures anc(b.plan[k].artifactHead, o.finalHead) {
      assert SameButLabel(m.plan[k], b.plan[k]);
    }
  }

  lemma CompletedOrder(b: Mission, head: string, anc: (string, string) -> bool)
    requires OrderInv(b, anc) && FromSource(b.executions, head) && AllContained(b.plan, anc, head)
    ensures OrderInv(b.(state := Completed), anc)
  {
    hide Ordered, Waits, Covers, HeadsChain, FromSource, AllContained;
  }

  lemma NextOrder(m: Mission, s: Step, anc: (string, string) -> bool)
    requires Inv(m) && OrderInv(m, anc) && Enabled(m, s) && Honest(m, s, anc)
    ensures OrderInv(Next(m, s), anc)
  {
    hide Inv, OrderInv, UniqueIds, PlanShape, FromSource;
    InvIds(m);
    match s
    case EscalateRisk(assessed) => RaiseOrder(m, assessed, Escalated, anc);
    case Refuse(_, _, _, _, _) => DispatchStepOrder(m, s, anc);
    case Dispatch(_, _, _, _, _, _, _) => DispatchStepOrder(m, s, anc);
    case Prepare(i, prep) => PrepareOrder(m, i, prep, anc);
    case Attach(sessionId) => AttachOrder(m, sessionId, anc);
    case Finish(_, _, _, _, _) => FinishStepOrder(m, s, anc);
    case Abandon(i) => AbandonOrder(m, i, anc);
    case Conclude(_, _) => ConcludeOrder(m, s, anc);
    case RetryMission => RetryOrder(m, anc);
  }

  lemma CreatedOrder(m: Mission, anc: (string, string) -> bool)
    requires Created(m) && Ordered(m.plan)
    ensures OrderInv(m, anc)
  {
    hide PlanValid, Ordered;
  }

  ghost predicate HonestRun(saved: seq<Mission>, steps: seq<Step>, anc: (string, string) -> bool) {
    Run(saved, steps) && forall k :: 0 <= k < |steps| ==> Honest(saved[k], steps[k], anc)
  }

  lemma {:induction false} RunOrder(saved: seq<Mission>, steps: seq<Step>, anc: (string, string) -> bool, k: nat)
    requires HonestRun(saved, steps, anc) && Ordered(saved[0].plan) && k < |saved|
    ensures OrderInv(saved[k], anc)
  {
    hide Inv, OrderInv, Created, Enabled, Next, Ordered, Honest;
    if k == 0 {
      CreatedOrder(saved[0], anc);
    } else {
      RunOrder(saved, steps, anc, k - 1);
      RunInv(saved, steps, k - 1);
      assert Enabled(saved[k - 1], steps[k - 1]) && saved[k - 1 + 1] == Next(saved[k - 1], steps[k - 1]);
      NextOrder(saved[k - 1], steps[k - 1], anc);
    }
  }
}
