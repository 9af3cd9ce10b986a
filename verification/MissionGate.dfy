/** Who may be given work, when a human has to decide, and what a human's retry restarts, in terms of the recorded fields. */
module MissionGate {
  import opened Decimals
  import opened Team
  import opened Scheduler
  import opened MissionSteps
  import opened MissionInvariant
  import opened MissionHistory
  import opened MissionOrder
  import opened MissionVerdict
  import opened MissionDispatch

  // ---------- the model of a dispatch ----------

  /** Work that takes a model of the highest tier. */
  predicate TopTierWork(role: Role, risk: int) {
    role == Lead || role == Review || risk >= 3
  }

  /**
   * The model is reachable, allowed and capable: its tier is no lower than the attempts made so far,
   * two for top-tier work, its context holds the prompt, it has every capability and enforces every
   * policy, and when the source must not leave, it is cut off from the network.
   */
  predicate Suits(m: Mission, risk: int, t: Task, size: int, available: map<string, bool>, x: Model) {
    && x.available && x.tools && x.adapter in available && available[x.adapter]
    && (exists p :: p in m.policy.allowedProviders && p == x.provider)
    && t.attempts <= x.tier && 0 <= x.tier && (TopTierWork(t.role, risk) ==> 2 <= x.tier)
    && size <= x.contextLimit
    && (forall c :: c in t.capabilities ==> c in x.capabilities)
    && (forall p :: p in m.policy.requiredEnforcement ==> p in x.enforcedPolicies)
    && (!m.policy.sourceExport ==> "no_network" in x.enforcedPolicies)
  }

  lemma EligibleExactly(m: Mission, t: Task, available: map<string, bool>, x: Model)
    ensures Eligible(m, t, available, x) <==> Suits(m, m.risk, t, t.contextSize, available, x)
  {
  }

  /** A waiting task all of whose dependencies name completed tasks. */
  predicate Startable(plan: seq<Task>, k: nat)
    requires k < |plan|
  {
    && (plan[k].state.Pending? || plan[k].state.Blocked? || plan[k].state.Ready? || plan[k].state.Retry?)
    && forall d :: d in plan[k].dependsOn ==> exists j :: 0 <= j < |plan| && plan[j].id == d && plan[j].state.Completed?
  }

  lemma StartableExactly(plan: seq<Task>, k: nat)
    requires UniqueIds(plan) && k < |plan|
    ensures IsReady(plan, k) <==> Startable(plan, k)
  {
    hide States, UniqueIds;
    forall d ensures IsCompleted(States(plan), d) <==> exists j :: 0 <= j < |plan| && plan[j].id == d && plan[j].state.Completed? {
      if IsCompleted(States(plan), d) {
        CompletedStates(plan, d);
        var j := StateNamed(plan, d);
      }
      if j :| 0 <= j < |plan| && plan[j].id == d && plan[j].state.Completed? {
        StatesAt(plan, j);
      }
    }
  }

  lemma {:induction false} StateNamed(plan: seq<Task>, d: string) returns (j: nat)
    requires d in States(plan)
    ensures j < |plan| && plan[j].id == d
  {
    var n := |plan| - 1;
    if plan[n].id == d {
      j := n;
    } else {
      j := StateNamed(plan[..n], d);
    }
  }

  /** Task `k` is the first that can start. */
  predicate StartsFirst(plan: seq<Task>, k: nat) {
    k < |plan| && Startable(plan, k) && forall j :: 0 <= j < k ==> !Startable(plan, j)
  }

  lemma FirstExactly(plan: seq<Task>, k: nat)
    requires UniqueIds(plan)
    ensures IsFirstReady(plan, k) <==> StartsFirst(plan, k)
  {
    forall j: nat | j < |plan| ensures IsReady(plan, j) <==> Startable(plan, j) {
      StartableExactly(plan, j);
    }
    hide IsReady, Startable;
  }

  /** No execution of a lead or frontend task was by this model of this provider, as far as their joined names tell. */
  predicate NoAuthor(execs: seq<Execution>, x: Model) {
    forall j :: 0 <= j < |execs| && (execs[j].agent.Lead? || execs[j].agent.Frontend?) ==>
      execs[j].provider + "/" + execs[j].model != x.provider + "/" + x.id
  }

  lemma IndependentExactly(execs: seq<Execution>, x: Model)
    ensures Independent(execs, x) <==> NoAuthor(execs, x)
  {
    if !NoAuthor(execs, x) {
      var j :| 0 <= j < |execs| && IsBuild(execs[j].agent) && Author(execs[j].provider, execs[j].model) == Author(x.provider, x.id);
    }
  }

  /**
   * Exactly when a model is given the next task: the mission is open and below the human gate, nothing
   * runs, the task is the first that can start, executions are left, no strict budget is set, and the
   * model suits; a review goes to no author where the policy forbids it.
   */
  lemma DispatchesExactly(m: Mission, s: Step)
    requires Inv(m) && s.Dispatch? && s.index < |m.plan| && 0 <= s.assessed <= 4 && s.chosen.tier <= 2
    requires s.size >= m.plan[s.index].contextSize && Reevaluated(m.models, s.models)
    ensures var t, risk := m.plan[s.index], RiskNow(m, s.assessed);
      Enabled(m, s) <==>
        && !m.state.Completed? && !m.state.Escalated? && !HumansOnly(m, risk)
        && (forall k :: 0 <= k < |m.plan| ==> !m.plan[k].state.Running?)
        && StartsFirst(m.plan, s.index)
        && |m.executions| < m.budget.maxExecutions && m.budget.maxCost.None? && m.budget.maxTokens <= 0
        && Suits(m, risk, t, s.size, s.available, s.chosen)
        && (t.role.Review? && m.policy.requireDifferentReviewModel ==> NoAuthor(m.executions, s.chosen))
  {
    hide Inv, Eligible, NeedsGate, IsFirstReady, StartsFirst, Independent, NoAuthor, HumansOnly, Reevaluated, TopTierWork;
    InvIds(m);
    hide UniqueIds;
    GateExactly(m, s.assessed);
    FirstExactly(m.plan, s.index);
    EligibleExactly(Raised(m, s.assessed), m.plan[s.index].(contextSize := s.size), s.available, s.chosen);
    IndependentExactly(m.executions, s.chosen);
    SuitsSized(m, RiskNow(m, s.assessed), m.plan[s.index], s.size, s.available, s.chosen);
    hide Suits;
  }

  lemma SuitsSized(m: Mission, risk: int, t: Task, size: int, available: map<string, bool>, x: Model)
    ensures Suits(m.(risk := risk), risk, t.(contextSize := size), size, available, x) <==> Suits(m, risk, t, size, available, x)
  {
  }

  lemma SomeIndependent(m: Mission, t: Task, models: seq<Model>, available: map<string, bool>)
    ensures (exists y :: y in models && Eligible(m, t, available, y) && Independent(m.executions, y)) <==>
      exists y :: y in models && Suits(m, m.risk, t, t.contextSize, available, y) && NoAuthor(m.executions, y)
  {
    hide Eligible, Suits, Independent, NoAuthor;
    forall y ensures Eligible(m, t, available, y) <==> Suits(m, m.risk, t, t.contextSize, available, y) {
      EligibleExactly(m, t, available, y);
    }
    forall y ensures Independent(m.executions, y) <==> NoAuthor(m.executions, y) {
      IndependentExactly(m.executions, y);
    }
  }

  /**
   * Which models may be chosen: the suitable ones, and for a review those who implemented nothing, or, when
   * nobody else suits and the policy does not forbid it, anyone suitable.
   */
  lemma MayRunExactly(m: Mission, t: Task, models: seq<Model>, available: map<string, bool>, x: Model)
    ensures MayRun(m, t, models, available, x) <==>
      && x in models && Suits(m, m.risk, t, t.contextSize, available, x)
      && (t.role.Review? && !NoAuthor(m.executions, x) ==>
            && !m.policy.requireDifferentReviewModel
            && !exists y :: y in models && Suits(m, m.risk, t, t.contextSize, available, y) && NoAuthor(m.executions, y))
  {
    SomeIndependent(m, t, models, available);
    EligibleExactly(m, t, available, x);
    IndependentExactly(m.executions, x);
    hide Eligible, Suits, Independent, NoAuthor;
  }

  /** Rescheduling labels the waiting tasks, ready or blocked, and leaves the rest of every task alone. */
  lemma ReschedulesExactly(plan: seq<Task>, k: nat)
    requires UniqueIds(plan) && k < |plan|
    ensures |Rescheduled(plan)| == |plan|
    ensures var t, u := plan[k], Rescheduled(plan)[k];
      if t.state.Pending? || t.state.Blocked? || t.state.Ready? || t.state.Retry?
      then u == t.(state := if Startable(plan, k) then Ready else Blocked) else u == t
  {
    StartableExactly(plan, k);
    hide DepsDone, Startable, UniqueIds;
  }

  /** Without a model the task and its mission escalate, and an execution without model, evidence or verdict says so. */
  lemma RefusesExactly(m: Mission, s: Step)
    requires Enabled(m, s) && s.Refuse?
    ensures var n, i := Next(m, s), s.index;
      && i < |m.plan| == |n.plan| && n.plan[i] == m.plan[i].(state := Escalated, contextSize := s.size)
      && n.state == Escalated && n.risk == RiskNow(m, s.assessed) && n.fixCycles == m.fixCycles
      && |n.executions| == |m.executions| + 1 && n.executions[..|m.executions|] == m.executions
      && (var e := n.executions[|m.executions|];
          && e.id == s.id && e.taskId == m.plan[i].id && e.agent == m.plan[i].role && e.result == Escalated && e.retry == 0 && e.escalation == 0
          && e.provider == "" && e.model == "" && e.evidence == [] && !e.test.Passed? && !e.review.Passed? && e.worktree == "" && e.head == "")
  {
    hide IsReady, NeedsGate, DepsDone, Reevaluated;
  }

  /** The names an attempt's worktree and branch get: the mission's own places, the task, its work item and the attempt. */
  lemma PlacesExactly(m: Mission, s: Step)
    requires Enabled(m, s) && s.Prepare? && s.prep.Headed?
    ensures s.index < |m.plan| && |s.prep.taskId| >= 8 && m.plan[s.index].attempts >= 0
    ensures var t, n := m.plan[s.index], Next(m, s);
      var name := t.id + "-" + s.prep.taskId[..8] + "-" + Decimal(t.attempts);
      n == m.(plan := m.plan[s.index := t.(taskId := s.prep.taskId, head := s.prep.head,
                                           worktree := m.worktreeRoot + "/" + m.id + "/" + name, branch := m.branchPrefix + "/" + m.id + "/" + name)])
  {
    hide Decimal;
  }

  // ---------- the human gate ----------

  /** The gate saves nothing but the risk and the escalation, exactly on open missions only a human may let through. */
  lemma EscalatesExactly(m: Mission, s: Step)
    requires Inv(m) && s.EscalateRisk?
    ensures Enabled(m, s) <==>
      !m.state.Completed? && !m.state.Escalated? && 0 <= s.assessed <= 4 && HumansOnly(m, RiskNow(m, s.assessed))
    ensures Enabled(m, s) ==> Next(m, s) == m.(risk := RiskNow(m, s.assessed), state := Escalated)
  {
    hide Inv, NeedsGate, HumansOnly;
    if 0 <= s.assessed <= 4 {
      GateExactly(m, s.assessed);
    }
  }

  /** No work starts and none is concluded, not even refused, while only a human may let it through. */
  lemma NothingPassesTheGate(m: Mission, s: Step)
    requires Inv(m) && Enabled(m, s) && (s.Dispatch? || s.Refuse? || s.Conclude?)
    ensures !HumansOnly(m, RiskNow(m, s.assessed))
  {
    hide Inv, NoneRunning, NoneReady, IsFirstReady, Reevaluated, Eligible, Independent, Conclusion, NeedsGate;
    GateExactly(m, s.assessed);
  }

  // ---------- reviews by others ----------

  /** No review was dispatched to who implemented something before it. */
  predicate ReviewedByOthers(execs: seq<Execution>) {
    forall i, j :: 0 <= i < j < |execs| && (execs[i].agent.Lead? || execs[i].agent.Frontend?) && execs[j].agent.Review? && IsDispatch(execs[j]) ==>
      execs[i].provider + "/" + execs[i].model != execs[j].provider + "/" + execs[j].model
  }

  lemma OthersKept(execs: seq<Execution>, later: seq<Execution>)
    requires ReviewedByOthers(execs) && |later| == |execs|
    requires forall j :: 0 <= j < |execs| ==> SameDispatch(execs[j], later[j]) && (IsDispatch(later[j]) ==> IsDispatch(execs[j]))
    ensures ReviewedByOthers(later)
  {
  }

  lemma OthersAppend(execs: seq<Execution>, e: Execution, x: Model)
    requires ReviewedByOthers(execs) && (e.agent.Review? && IsDispatch(e) ==> NoAuthor(execs, x) && e.provider == x.provider && e.model == x.id)
    ensures ReviewedByOthers(execs + [e])
  {
  }

  /** What a step appends, if anything, and that it makes no refusal out of a dispatch or the reverse. */
  lemma StepAppends(m: Mission, s: Step)
    requires Enabled(m, s)
    ensures var n := Next(m, s);
      && |n.executions| == |m.executions| + (if s.Dispatch? || s.Refuse? then 1 else 0)
      && forall j :: 0 <= j < |m.executions| ==> (IsDispatch(n.executions[j]) ==> IsDispatch(m.executions[j]))
  {
    hide OwnedId, GoodTaskId, OutcomeOf, IsReady, NeedsGate, Eligible, Conclusion, DepsDone, RepairLead, Retryable, Rescheduled, Independent, Reevaluated;
  }

  lemma Appended(m: Mission, s: Step)
    requires Enabled(m, s) && (s.Dispatch? || s.Refuse?)
    ensures s.index < |m.plan| && |Next(m, s).executions| == |m.executions| + 1 && Next(m, s).executions[..|m.executions|] == m.executions
    ensures var e := Next(m, s).executions[|m.executions|];
      if s.Dispatch? then e.agent == m.plan[s.index].role && e.provider == s.chosen.provider && e.model == s.chosen.id else !IsDispatch(e)
  {
    hide IsReady, NeedsGate, Eligible, DepsDone, Independent, Reevaluated;
  }

  lemma PolicyHeld(m: Mission, s: Step)
    requires Enabled(m, s) && s.Dispatch? && m.policy.requireDifferentReviewModel && s.index < |m.plan| && m.plan[s.index].role.Review?
    ensures NoAuthor(m.executions, s.chosen)
  {
    hide IsFirstReady, NoneRunning, NeedsGate, Eligible, Independent, Reevaluated, NoAuthor;
    IndependentExactly(m.executions, s.chosen);
  }

  lemma NextOthers(m: Mission, s: Step)
    requires Enabled(m, s) && m.policy.requireDifferentReviewModel && ReviewedByOthers(m.executions)
    ensures ReviewedByOthers(Next(m, s).executions)
  {
    hide Enabled, Next, NoAuthor, ReviewedByOthers, SameDispatch;
    StepExtends(m, s);
    StepAppends(m, s);
    var n := Next(m, s);
    if s.Dispatch? || s.Refuse? {
      Appended(m, s);
      var e := n.executions[|m.executions|];
      assert n.executions == m.executions + [e];
      if s.Dispatch? && e.agent.Review? {
        PolicyHeld(m, s);
      }
      OthersAppend(m.executions, e, if s.Dispatch? then s.chosen else Model("", "", "", [], 0, 0, None, false, false, [], 0.0));
    } else {
      OthersKept(m.executions, n.executions);
    }
  }

  /** Where the policy asks for it, no version of any run shows a review by who implemented something before it. */
  lemma {:induction false} ReviewsAreIndependent(saved: seq<Mission>, steps: seq<Step>, k: nat)
    requires Run(saved, steps) && k < |saved| && saved[0].policy.requireDifferentReviewModel
    ensures ReviewedByOthers(saved[k].executions)
  {
    hide Enabled, Next, PlanValid, SameSettings;
    if k == 0 {
    } else {
      hide Created, ReviewedByOthers;
      ReviewsAreIndependent(saved, steps, k - 1);
      assert Enabled(saved[k - 1], steps[k - 1]) && saved[k - 1 + 1] == Next(saved[k - 1], steps[k - 1]);
      RunPolicy(saved, steps, k - 1);
      NextOthers(saved[k - 1], steps[k - 1]);
    }
  }

  lemma RunPolicy(saved: seq<Mission>, steps: seq<Step>, k: nat)
    requires Run(saved, steps) && k < |saved|
    ensures saved[k].policy == saved[0].policy
  {
    hide Run;
    RunSettings(saved, steps, 0, k);
  }

  // ---------- a human's retry ----------

  /** An escalated task with an attempt left. */
  predicate MayTryAgain(t: Task) {
    t.state == Escalated && t.attempts < t.maxAttempts
  }

  /** A retry is possible exactly below risk three, on an escalated mission with such a task, and restarts exactly those. */
  lemma RetriesExactly(m: Mission)
    ensures Enabled(m, RetryMission) <==>
      m.risk <= 2 && m.state == Escalated && exists k :: 0 <= k < |m.plan| && MayTryAgain(m.plan[k])
    ensures Enabled(m, RetryMission) ==> (var n := Next(m, RetryMission);
      && n == m.(state := Retry, plan := n.plan) && |n.plan| == |m.plan|
      && forall k :: 0 <= k < |m.plan| ==> n.plan[k] == if MayTryAgain(m.plan[k]) then m.plan[k].(state := Retry) else m.plan[k])
  {
    assert forall k :: 0 <= k < |m.plan| ==> Retryable(m.plan[k]) == MayTryAgain(m.plan[k]);
  }
}
