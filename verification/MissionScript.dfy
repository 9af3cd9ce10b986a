/** Stretches of a mission's run that can be put together: an attempt that starts, succeeds, is interrupted or is rejected. */
module MissionScript {
  import opened Graph
  import opened Team
  import opened Scheduler
  import opened MissionSteps
  import opened MissionInvariant
  import opened MissionOrder
  import opened MissionWorld
  import opened MissionOutcome
  import opened MissionProgress
  import opened MissionItems

  // ---------- the setting ----------

  const MODEL := Model("x", "p", "a", CAPABILITIES, 100, 2, None, true, true, [], 0.0)

  const POLICY := Policy(false, false, ["p"], true, [])

  predicate SafeTask(t: Task) {
    t.contextSize <= 100 && All(CAPABILITIES, t.capabilities)
  }

  /** One model may run everything, nothing needs a gate, and there is one check. */
  predicate Calm(m: Mission) {
    && m.models == [MODEL] && m.policy == POLICY && m.budget.maxCost.None? && m.budget.maxTokens <= 0
    && 0 <= m.risk <= 2 && m.checks == ["c"] && m.integrationChecks == [] && m.securityChecks == []
    && forall k :: 0 <= k < |m.plan| ==> SafeTask(m.plan[k])
  }

  /** Task `i` may be dispatched next. */
  predicate NextUp(plan: seq<Task>, i: nat) {
    && i < |plan| && Schedulable(plan[i].state) && plan[i].attempts <= 2 && DependenciesDone(plan, i)
    && forall k :: 0 <= k < i ==> !Schedulable(plan[k].state) || !DependenciesDone(plan, k)
  }

  predicate Idle(m: Mission) {
    !Terminal(m.state) && NoneRunning(m.plan) && |m.executions| < m.budget.maxExecutions
  }

  /** Only what a save of this run never touches. */
  predicate SameSetup(m: Mission, n: Mission) {
    && n.models == m.models && n.policy == m.policy && n.budget == m.budget && n.risk == m.risk && n.id == m.id
    && n.worktreeRoot == m.worktreeRoot && n.branchPrefix == m.branchPrefix
    && n.checks == m.checks && n.integrationChecks == m.integrationChecks && n.securityChecks == m.securityChecks
  }

  /** All tasks but `i` are as before, up to the label of waiting ones. */
  predicate OthersWait(p: seq<Task>, q: seq<Task>, i: nat) {
    |q| == |p| && forall k :: 0 <= k < |p| && k != i ==> SameButLabel(p[k], q[k])
  }

  // ---------- starting ----------

  function Start(m: Mission, i: nat, id: string): Step
    requires i < |m.plan|
  {
    Dispatch(0, [MODEL], i, m.plan[i].contextSize, map["a" := true], MODEL, id)
  }

  lemma NextUpIsFirst(m: Mission, i: nat)
    requires Inv(m) && NextUp(m.plan, i)
    ensures IsFirstReady(m.plan, i)
  {
    assert UniqueIds(m.plan) && Grounded(PlanGraph(m.plan)) by {
      hide TasksOk, ExecutionsOk, AllBelong, RunningLinked, CompletedLinked, Started, RetriesRise, OnlyLastRuns, StateOk, EscalationOk, UniqueIds, Grounded;
    }
    hide Inv, UniqueIds, Grounded, States;
    DoneMeansReady(m.plan, i);
    forall k | 0 <= k < i ensures !IsReady(m.plan, k) {
      if IsReady(m.plan, k) {
        ReadyMeansDone(m.plan, k);
      }
    }
  }

  lemma MayRunAny(m: Mission, t: Task)
    requires Calm(m) && SafeTask(t) && t.attempts <= 2
    ensures Eligible(m, t, map["a" := true], MODEL)
  {
  }

  lemma StartEnabled(m: Mission, i: nat, id: string)
    requires Inv(m) && Calm(m) && Idle(m) && NextUp(m.plan, i)
    ensures Enabled(m, Start(m, i, id))
  {
    hide Inv, IsFirstReady, NoneRunning, Eligible, DependenciesDone, SafeTask;
    NextUpIsFirst(m, i);
    MayRunAny(Raised(m, 0), m.plan[i]);
    assert m.plan[i].(contextSize := m.plan[i].contextSize) == m.plan[i];
  }

  /** Task `i` runs an attempt more, without a location, under a new execution. */
  predicate Begun(m: Mission, n: Mission, i: nat) {
    && RunsTask(n, i) && OthersWait(m.plan, n.plan, i) && SameSetup(m, n) && n.fixCycles == m.fixCycles
    && (var t, u := m.plan[i], n.plan[i];
        && u.attempts == t.attempts + 1 && u.worktree == "" && u.head == "" && u.taskId == t.taskId
        && u.id == t.id && u.role == t.role && u.dependsOn == t.dependsOn && u.maxAttempts == t.maxAttempts && SafeTask(u))
    && |n.executions| == |m.executions| + 1 && n.executions[..|m.executions|] == m.executions
    && n.executions[|m.executions|].agent == n.plan[i].role && !n.executions[|m.executions|].result.Completed?
  }

  lemma StartResult(m: Mission, i: nat, id: string, n: Mission)
    requires Calm(m) && i < |m.plan| && TaskOk(m, m.plan[i]) && Enabled(m, Start(m, i, id)) && n == Next(m, Start(m, i, id))
    ensures Begun(m, n, i) && n.state.Running?
  {
    hide DepsDone, NeedsGate, Eligible, Reevaluated, OwnedId, GoodTaskId, AttemptLimit;
  }

  // ---------- placing ----------

  predicate OthersStay(p: seq<Task>, q: seq<Task>, i: nat) {
    |q| == |p| && forall k :: 0 <= k < |p| && k != i ==> q[k] == p[k]
  }

  lemma PlaceEnabled(m: Mission, i: nat, taskId: string, head: string)
    requires RunsTask(m, i) && m.plan[i].attempts >= 0 && m.plan[i].worktree == "" && m.plan[i].head == "" && GoodTaskId(taskId)
    requires m.plan[i].taskId != "" ==> taskId == m.plan[i].taskId
    ensures Enabled(m, Prepare(i, Headed(taskId, head)))
    ensures var n := Next(m, Prepare(i, Headed(taskId, head)));
      n == m.(plan := m.plan[i := LocatedTask(m, m.plan[i], taskId).(head := head)])
  {
    hide LocatedTask;
  }

  // ---------- succeeding ----------

  function Success(head: string): FinishObs {
    FinishObs(CommitObs(false, 0, false, 0, false), TreeObs(true, true, false, true, 0, true, head, true),
              [CheckObs("v", true)], true, Clean, Some("e"))
  }

  function Succeed(i: nat, head: string): Step {
    Finish(0, i, Unprepared, false, Success(head))
  }

  predicate Placed(m: Mission, i: nat) {
    RunsTask(m, i) && m.plan[i].worktree != "" && m.plan[i].head != ""
  }

  lemma SucceedEnabled(m: Mission, i: nat, head: string)
    requires Calm(m) && Placed(m, i) && head != ""
    ensures Enabled(m, Succeed(i, head))
  {
  }

  lemma SuccessOutcome(m: Mission, t: Task, e: Execution, head: string)
    requires m.policy == POLICY && 0 <= m.risk && (ReadOnly(t.role) ==> head == t.head)
    ensures var out := OutcomeOf(m, t, e, false, Success(head));
      !out.err && out.risk == m.risk && out.artifactHead == head
  {
    hide CheckEvidence;
  }

  /** Task `i` is completed at `head`, and so is the last execution. */
  predicate Ended(m: Mission, n: Mission, i: nat, head: string) {
    && i < |m.plan| && n.plan == m.plan[i := m.plan[i].(state := Completed, artifactHead := head)]
    && SameSetup(m, n) && n.fixCycles == m.fixCycles && n.state.Pending?
    && m.executions != [] && |n.executions| == |m.executions|
    && (var j := |m.executions| - 1;
        && n.executions[..j] == m.executions[..j] && n.executions[j].result.Completed? && n.executions[j].head == head
        && n.executions[j].agent == m.executions[j].agent)
  }

  lemma SucceedResult(m: Mission, i: nat, head: string, n: Mission)
    requires Calm(m) && Enabled(m, Succeed(i, head)) && n == Next(m, Succeed(i, head)) && i < |m.plan|
    requires ReadOnly(m.plan[i].role) ==> head == m.plan[i].head
    ensures Ended(m, n, i, head)
  {
    assert m.executions != [] by { FinishRuns(m, Succeed(i, head)); }
    var base := Raised(m, 0);
    SuccessOutcome(base, base.plan[i], base.executions[|m.executions| - 1], head);
    hide OutcomeOf, RepairLead, PrepFits, RunsTask;
  }

  lemma EndedSource(m: Mission, n: Mission, i: nat, head: string)
    requires Ended(m, n, i, head)
    ensures FromSource(n.executions, head) && LastCompleted(n.executions) == Some(|n.executions| - 1)
  {
  }

  // ---------- being interrupted ----------

  function Interrupted(i: nat): Step {
    Finish(0, i, Unprepared, true, Success("h"))
  }

  /** Task `i` waits to be retried; nothing else changed, and no execution completed. */
  predicate Recovered(m: Mission, n: Mission, i: nat) {
    && i < |m.plan| && OthersStay(m.plan, n.plan, i) && n.plan[i] == m.plan[i].(state := Retry, artifactHead := n.plan[i].artifactHead)
    && SameSetup(m, n) && n.fixCycles == m.fixCycles && n.state.Retry?
    && m.executions != [] && |n.executions| == |m.executions|
    && (var j := |m.executions| - 1; n.executions[..j] == m.executions[..j] && n.executions[j].result.Failed?)
  }

  lemma InterruptedOutcome(m: Mission, t: Task, e: Execution)
    requires 0 <= m.risk
    ensures var out := OutcomeOf(m, t, e, true, Success("h"));
      out.err && out.risk == m.risk && out.review == e.review
  {
    hide CheckEvidence;
  }

  /** The interrupted execution failed and nothing else happened yet. */
  predicate Failing(m: Mission, n: Mission, i: nat) {
    && i < |m.plan| && OthersStay(m.plan, n.plan, i) && n.plan[i] == m.plan[i].(state := n.state, artifactHead := n.plan[i].artifactHead)
    && SameSetup(m, n) && n.fixCycles == m.fixCycles && n.state.Retry?
    && m.executions != [] && |n.executions| == |m.executions|
    && (var j := |m.executions| - 1; n.executions[..j] == m.executions[..j] && n.executions[j].result.Failed? && n.executions[j].taskId == n.plan[i].id)
  }

  lemma InterruptedResult(m: Mission, i: nat)
    requires Calm(m) && RunsTask(m, i) && m.executions[|m.executions| - 1].review.NotRun? && m.plan[i].attempts < m.plan[i].maxAttempts
    ensures Enabled(m, Interrupted(i)) && Failing(m, Next(m, Interrupted(i)), i)
  {
    var base := Raised(m, 0);
    InterruptedOutcome(base, base.plan[i], base.executions[|m.executions| - 1]);
    hide OutcomeOf, RepairLead;
  }

  lemma AbandonResult(m: Mission, n: Mission, i: nat)
    requires Failing(m, n, i) && Calm(m) && m.plan[i].attempts < m.plan[i].maxAttempts && forall k :: 0 <= k < |m.plan| ==> !m.plan[k].state.Escalated?
    ensures Enabled(n, Abandon(i)) && Enabled(Next(n, Abandon(i)), RetryMission)
    ensures Recovered(m, Next(Next(n, Abandon(i)), RetryMission), i)
  {
    var a := Next(n, Abandon(i));
    assert Retryable(a.plan[i]);
    var r := Next(a, RetryMission);
    forall k | 0 <= k < |m.plan| && k != i ensures r.plan[k] == m.plan[k] {
      assert a.plan[k] == m.plan[k];
    }
  }

  // ---------- being rejected ----------

  function Rejecting(head: string): FinishObs {
    Success(head).(response := Findings)
  }

  function RejectStep(i: nat, head: string): Step {
    Finish(0, i, Unprepared, false, Rejecting(head))
  }

  lemma RejectingOutcome(m: Mission, t: Task, e: Execution, head: string)
    requires m.policy == POLICY && 0 <= m.risk && t.role.Review? && head == t.head
    ensures var out := OutcomeOf(m, t, e, false, Rejecting(head));
      out.err && out.risk == m.risk && out.review.Rejected? && out.artifactHead == head
  {
    hide CheckEvidence;
  }

  /** The lead and all QA and review tasks start over. */
  predicate SentBack(m: Mission, n: Mission, lead: nat) {
    && |n.plan| == |m.plan| && SameSetup(m, n) && n.fixCycles == m.fixCycles + 1 && n.state.Retry?
    && (forall k :: 0 <= k < |m.plan| ==>
          if k == lead then n.plan[k] == ClearedTask(m.plan[k], Retry)
          else if Redone(m.plan[k].role) then n.plan[k] == ClearedTask(m.plan[k], Pending)
          else n.plan[k] == m.plan[k])
    && m.executions != [] && |n.executions| == |m.executions|
    && (var j := |m.executions| - 1; n.executions[..j] == m.executions[..j] && n.executions[j].result.Failed?)
  }

  lemma RejectEnabled(m: Mission, i: nat)
    requires Calm(m) && Placed(m, i)
    ensures Enabled(m, RejectStep(i, m.plan[i].head))
  {
  }

  lemma RejectResult(m: Mission, i: nat, lead: nat, n: Mission)
    requires Calm(m) && Placed(m, i) && m.plan[i].role.Review? && m.fixCycles < m.budget.maxFixes && RepairLead(m.plan, 0) == Some(lead)
    requires Enabled(m, RejectStep(i, m.plan[i].head)) && n == Next(m, RejectStep(i, m.plan[i].head))
    ensures SentBack(m, n, lead)
  {
    var base := Raised(m, 0);
    var j := |m.executions| - 1;
    var head := m.plan[i].head;
    RejectingOutcome(base, base.plan[i], base.executions[j], head);
    var out := OutcomeOf(base, base.plan[i], base.executions[j], false, Rejecting(head));
    RecordedLead(base, i, j, out);
    hide OutcomeOf, RepairLead, PrepFits, RunsTask, Enabled;
    RejectedPlan(base, i, j, out, lead);
    assert n == Finished(base, i, j, out);
  }

  lemma RejectedPlan(m: Mission, i: nat, j: nat, out: Outcome, lead: nat)
    requires i < |m.plan| && j == |m.executions| - 1 && m.plan[i].role.Review? && m.fixCycles < m.budget.maxFixes && m.risk <= 2
    requires RepairLead(Recorded(m, i, j, out).plan, 0) == Some(lead) && out.err && out.risk == m.risk && out.review.Rejected?
    ensures SentBack(m, Finished(m, i, j, out), lead)
  {
    hide RepairLead;
  }

  // ---------- concluding ----------

  lemma TestsHold(m: Mission, q: nat)
    requires Inv(m) && q < |m.plan| && m.plan[q].role.Qa? && m.plan[q].state.Completed?
    ensures LatestTested(m.executions)
  {
    var j := CompletionRecord(m, q);
    hide Inv, Latest, LastIndex;
    LatestIsLast(m.executions, m.plan[q].id);
    assert m.plan[q].id in Latest(m.executions) && Latest(m.executions)[m.plan[q].id].test.Passed?;
  }

  lemma ReviewsHold(m: Mission, r: nat)
    requires Inv(m) && r < |m.plan| && m.plan[r].role.Review? && m.plan[r].state.Completed?
    ensures LatestReviews(m.executions) != {}
  {
    var i := CompletionRecord(m, r);
    hide Inv, Latest, LastIndex;
    LatestIsLast(m.executions, m.plan[r].id);
    assert m.plan[r].id in LatestReviews(m.executions);
  }

  /** Below risk three, the verdicts of finished work always suffice. */
  lemma VerdictsHold(m: Mission)
    requires Inv(m) && AllDone(m.plan) && 0 <= m.risk <= 2 && (m.risk > 0 ==> HasRole(m.plan, Review))
    ensures VerdictsSuffice(m)
  {
    hide Inv, LatestTested, LatestReviews;
    var q := SomeQa(m);
    TestsHold(m, q);
    if m.risk > 0 {
      var r :| 0 <= r < |m.plan| && m.plan[r].role == Review;
      ReviewsHold(m, r);
    }
  }

  lemma SomeQa(m: Mission) returns (q: nat)
    requires Inv(m)
    ensures q < |m.plan| && m.plan[q].role.Qa?
  {
    hide TasksOk, ExecutionsOk, AllBelong, RunningLinked, CompletedLinked, Started, RetriesRise, OnlyLastRuns, StateOk, EscalationOk;
    q :| 0 <= q < |m.plan| && m.plan[q].role == Qa;
  }

  /** Every artifact is where it was left, and the final source contains it. */
  function Sites(m: Mission): (r: seq<SiteObs>)
    ensures |r| == |m.plan| && forall k :: 0 <= k < |m.plan| ==> r[k] == SiteObs(true, m.plan[k].artifactHead, true, false, true)
  {
    seq(|m.plan|, k requires 0 <= k < |m.plan| => SiteObs(true, m.plan[k].artifactHead, true, false, true))
  }

  function View(m: Mission, head: string): ConcludeObs {
    ConcludeObs(true, head, Sites(m), true)
  }

  lemma {:induction false} SitesPass(plan: seq<Task>, sites: seq<SiteObs>, from: nat)
    requires from <= |plan| && |sites| == |plan| && AllDone(plan)
    requires forall k :: 0 <= k < |plan| ==> sites[k] == SiteObs(true, plan[k].artifactHead, true, false, true)
    ensures WalkSites(plan, sites, from).Pass?
    decreases |plan| - from
  {
    if from < |plan| {
      SitesPass(plan, sites, from + 1);
    }
  }

  lemma DoneIsRescheduled(m: Mission)
    requires AllDone(m.plan) && 0 <= m.risk
    ensures Concluding(m, 0) == m && NoneReady(m.plan) && NoneRunning(m.plan)
  {
    hide DepsDone;
    assert Rescheduled(m.plan) == m.plan;
  }

  lemma ConclusionIs(m: Mission, head: string)
    requires Inv(m) && AllDone(m.plan) && 0 <= m.risk <= 2 && (m.risk > 0 ==> HasRole(m.plan, Review))
    ensures Conclusion(m, View(m, head)) == Some(Completed)
  {
    VerdictsHold(m);
    EvidenceNeverLacks(m);
    SitesPass(m.plan, Sites(m), 0);
    hide Inv, AllDone, VerdictsSuffice, LatestLacksEvidence, WalkSites, Sites, HasRole;
  }

  lemma ConcludeResult(m: Mission, head: string)
    requires Inv(m) && Calm(m) && !Terminal(m.state) && AllDone(m.plan) && (m.risk > 0 ==> HasRole(m.plan, Review))
    ensures Enabled(m, Conclude(0, View(m, head))) && Next(m, Conclude(0, View(m, head))) == m.(state := Completed)
  {
    hide Inv, AllDone, NoneReady, NoneRunning, Conclusion, Concluding, HasRole;
    assert 0 <= m.risk <= 2;
    DoneIsRescheduled(m);
    ConclusionIs(m, head);
  }
}
