/** What one save may change, and what follows over whole runs. */
module MissionHistory {
  import opened Decimals
  import opened Team
  import opened Scheduler
  import opened MissionSteps
  import opened MissionInvariant

  // ---------- one step ----------

  /** Who an execution was dispatched for, to whom, and as which attempt. */
  predicate SameDispatch(d: Execution, e: Execution) {
    && e.id == d.id && e.taskId == d.taskId && e.agent == d.agent && e.provider == d.provider && e.model == d.model
    && e.retry == d.retry && e.escalation == d.escalation && (IsDispatch(d) ==> IsDispatch(e))
  }

  /** Nothing that is over is ever rewritten, and the two counters only rise. */
  predicate Extends(m: Mission, n: Mission) {
    && |m.executions| <= |n.executions| <= |m.executions| + 1
    && (forall j :: 0 <= j < |m.executions| && !m.executions[j].result.Running? ==> n.executions[j] == m.executions[j])
    && (forall j :: 0 <= j < |m.executions| ==> SameDispatch(m.executions[j], n.executions[j]))
    && m.risk <= n.risk && m.fixCycles <= n.fixCycles
    && n.budget == m.budget && SamePlanShape(m.plan, n.plan)
    && (forall k :: 0 <= k < |m.plan| ==> m.plan[k].attempts <= n.plan[k].attempts <= m.plan[k].attempts + 1)
    && (forall k :: 0 <= k < |m.plan| && m.plan[k].taskId != "" ==> n.plan[k].taskId == m.plan[k].taskId)
  }

  lemma RecordedExtends(m: Mission, i: nat, out: Outcome)
    requires i < |m.plan| && m.executions != [] && m.executions[|m.executions| - 1].result.Running? && m.risk <= out.risk
    ensures Extends(m, Recorded(m, i, |m.executions| - 1, out))
    ensures |Recorded(m, i, |m.executions| - 1, out).plan| == |m.plan|
    ensures forall k :: 0 <= k < |m.plan| ==> Recorded(m, i, |m.executions| - 1, out).plan[k].attempts == m.plan[k].attempts
  {
  }

  lemma FinishExtends(m: Mission, i: nat, out: Outcome)
    requires i < |m.plan| && m.executions != [] && m.executions[|m.executions| - 1].result.Running? && m.risk <= out.risk
    ensures Extends(m, Finished(m, i, |m.executions| - 1, out))
  {
    RecordedExtends(m, i, out);
    hide Recorded, RepairLead, WantsRepair, Extends, Repaired;
    var r := Recorded(m, i, |m.executions| - 1, out);
    if RepairLead(r.plan, 0).Some? {
      RepairedExtends(r, RepairLead(r.plan, 0).value);
      RepairFollows(m, r, Repaired(r, RepairLead(r.plan, 0).value));
    }
  }

  lemma RepairedExtends(m: Mission, lead: nat)
    ensures Extends(m, Repaired(m, lead)) && Repaired(m, lead).executions == m.executions
  {
  }

  lemma RepairFollows(a: Mission, b: Mission, c: Mission)
    requires Extends(a, b) && Extends(b, c) && c.executions == b.executions
    requires forall k :: 0 <= k < |a.plan| ==> b.plan[k].attempts == a.plan[k].attempts
    ensures Extends(a, c)
  {
    assert forall j :: 0 <= j < |a.executions| && !a.executions[j].result.Running? ==> b.executions[j] == a.executions[j];
  }

  lemma RaisedRisk(m: Mission, t: Task, e: Execution, runErr: bool, o: FinishObs)
    ensures m.risk <= OutcomeOf(m, t, e, runErr, o).risk
  {
    hide CheckEvidence, ChecksPass;
  }

  lemma FinishStepExtends(m: Mission, s: Step)
    requires Enabled(m, s) && s.Finish?
    ensures Extends(m, Next(m, s))
  {
    hide OutcomeOf, OwnedId, GoodTaskId, Finished, Extends;
    var base := WithPrep(Raised(m, s.assessed), s.index, s.prep);
    PrepExtends(m, Raised(m, s.assessed), s.index, s.prep);
    var j := |m.executions| - 1;
    var out := OutcomeOf(base, base.plan[s.index], base.executions[j], s.runErr, s.obs);
    RaisedRisk(base, base.plan[s.index], base.executions[j], s.runErr, s.obs);
    FinishExtends(base, s.index, out);
    ExtendsTransitive(m, base, Finished(base, s.index, j, out));
  }

  lemma PrepExtends(m: Mission, r: Mission, i: nat, prep: Prep)
    requires r == m.(risk := r.risk) && m.risk <= r.risk && i < |m.plan| && PrepFits(m.plan[i], prep)
    ensures var n := WithPrep(r, i, prep);
      Extends(m, n) && n.executions == m.executions && forall k :: 0 <= k < |m.plan| ==> m.plan[k].attempts == n.plan[k].attempts
  {
    hide OwnedId, GoodTaskId;
  }

  lemma PreparedExtends(m: Mission, assessed: int, models: seq<Model>)
    ensures var n := Prepared(m, assessed, models);
      Extends(m, n) && n.executions == m.executions && forall k :: 0 <= k < |m.plan| ==> m.plan[k].attempts == n.plan[k].attempts
  {
    hide DepsDone;
  }

  lemma StartExtends(m: Mission, n: Mission, i: nat, size: int, chosen: Model, id: string)
    requires i < |m.plan| && (n == Dispatched(m, i, size, chosen, id) || n == Refused(m, i, size, id))
    ensures Extends(m, n)
  {
  }

  lemma StartStepExtends(m: Mission, s: Step)
    requires Enabled(m, s) && (s.Dispatch? || s.Refuse?)
    ensures Extends(m, Next(m, s))
  {
    hide Extends, IsReady, DepsDone, Eligible, NeedsGate, Reevaluated, Rescheduled, Dispatched, Refused;
    PreparedExtends(m, s.assessed, s.models);
    var b := Prepared(m, s.assessed, s.models);
    if s.Dispatch? {
      StartExtends(b, Dispatched(b, s.index, s.size, s.chosen, s.id), s.index, s.size, s.chosen, s.id);
    } else {
      StartExtends(b, Refused(b, s.index, s.size, s.id), s.index, s.size, Model("", "", "", [], 0, 0, None, false, false, [], 0.0), s.id);
    }
    ExtendsTransitive(m, b, Next(m, s));
  }

  lemma QuietExtends(m: Mission, s: Step)
    requires Enabled(m, s) && (s.EscalateRisk? || s.Attach? || s.Abandon? || s.RetryMission?)
    ensures Extends(m, Next(m, s))
  {
    hide NeedsGate;
  }

  lemma ConcludeExtends(m: Mission, s: Step)
    requires Enabled(m, s) && s.Conclude?
    ensures Extends(m, Next(m, s))
  {
    hide Conclusion, DepsDone, NoneReady, NoneRunning, Rescheduled;
    PreparedExtends(m, s.assessed, m.models);
  }

  lemma PrepareExtends(m: Mission, s: Step)
    requires Enabled(m, s) && s.Prepare?
    ensures Extends(m, Next(m, s))
  {
    hide WithPrep, Extends, PrepFits, RunsTask;
    assert s.index < |m.plan| by { PrepareIndex(m, s); }
    PrepExtends(m, m, s.index, s.prep);
  }

  lemma PrepareIndex(m: Mission, s: Step)
    requires Enabled(m, s) && s.Prepare?
    ensures s.index < |m.plan|
  {
    hide PrepFits;
  }

  lemma StepExtends(m: Mission, s: Step)
    requires Enabled(m, s)
    ensures Extends(m, Next(m, s))
  {
    hide Enabled, Next, Extends;
    match s
    case Finish(_, _, _, _, _) => FinishStepExtends(m, s);
    case Dispatch(_, _, _, _, _, _, _) => StartStepExtends(m, s);
    case Refuse(_, _, _, _, _) => StartStepExtends(m, s);
    case Conclude(assessed, _) => ConcludeExtends(m, s);
    case Prepare(i, prep) => PrepareExtends(m, s);
    case _ => QuietExtends(m, s);
  }

  lemma ExtendsTransitive(a: Mission, b: Mission, c: Mission)
    requires Extends(a, b) && b.executions == a.executions && Extends(b, c) && forall k :: 0 <= k < |a.plan| ==> a.plan[k].attempts == b.plan[k].attempts
    ensures Extends(a, c)
  {
  }

  /** The fields no step touches. */
  predicate SameSettings(m: Mission, n: Mission) {
    && n.id == m.id && n.worktreeRoot == m.worktreeRoot && n.branchPrefix == m.branchPrefix
    && n.checks == m.checks && n.integrationChecks == m.integrationChecks && n.securityChecks == m.securityChecks
    && n.budget == m.budget && n.policy == m.policy && |n.plan| == |m.plan| && |n.models| == |m.models|
  }

  lemma FinishSettings(m: Mission, i: nat, j: nat, out: Outcome)
    requires i < |m.plan| && j < |m.executions|
    ensures SameSettings(m, Finished(m, i, j, out))
  {
    hide RepairLead;
  }

  lemma PrepSettings(m: Mission, i: nat, prep: Prep)
    requires i < |m.plan| && PrepFits(m.plan[i], prep)
    ensures SameSettings(m, WithPrep(m, i, prep)) && WithPrep(m, i, prep).executions == m.executions
  {
    hide OwnedId, GoodTaskId;
  }

  lemma NextFrame(m: Mission, s: Step)
    requires Enabled(m, s)
    ensures SameSettings(m, Next(m, s))
  {
    hide OwnedId, GoodTaskId, OutcomeOf, IsReady, NeedsGate, Eligible, Conclusion, WithPrep, Finished, DepsDone;
    match s
    case Finish(assessed, i, prep, runErr, o) =>
      var base := WithPrep(Raised(m, assessed), i, prep);
      PrepSettings(Raised(m, assessed), i, prep);
      var j := |m.executions| - 1;
      FinishSettings(base, i, j, OutcomeOf(base, base.plan[i], base.executions[j], runErr, o));
    case Prepare(i, prep) => PrepSettings(m, i, prep);
    case _ =>
  }

  /** Completion is final: no caller, however late, can move a completed mission. */
  lemma CompletedIsFinal(m: Mission, s: Step)
    requires m.state.Completed?
    ensures !Enabled(m, s)
  {
    hide NeedsGate, IsFirstReady, NoneRunning, NoneReady, Reevaluated, Eligible, PrepFits, Conclusion, Rescheduled, Retryable;
  }

  // ---------- whole runs ----------

  /** How a later saved version relates to an earlier one. */
  predicate Preserves(m: Mission, n: Mission) {
    && |m.executions| <= |n.executions|
    && (forall j :: 0 <= j < |m.executions| && !m.executions[j].result.Running? ==> n.executions[j] == m.executions[j])
    && (forall j :: 0 <= j < |m.executions| ==> SameDispatch(m.executions[j], n.executions[j]))
    && m.risk <= n.risk && m.fixCycles <= n.fixCycles && n.budget == m.budget
    && |n.plan| == |m.plan|
    && (forall k :: 0 <= k < |m.plan| ==> SameShape(m.plan[k], n.plan[k]) && m.plan[k].attempts <= n.plan[k].attempts)
    && (forall k :: 0 <= k < |m.plan| && m.plan[k].taskId != "" ==> n.plan[k].taskId == m.plan[k].taskId)
  }

  lemma PreservesTransitive(a: Mission, b: Mission, c: Mission)
    requires Preserves(a, b) && Preserves(b, c)
    ensures Preserves(a, c)
  {
  }

  /** Finished executions, work-item identities and the counters survive every later save of a run. */
  lemma {:induction false} RunPreserves(saved: seq<Mission>, steps: seq<Step>, i: nat, j: nat)
    requires Run(saved, steps) && i <= j < |saved|
    ensures Preserves(saved[i], saved[j])
    decreases j - i
  {
    hide Enabled, Next, Created, Extends, Preserves;
    if i < j {
      RunPreserves(saved, steps, i, j - 1);
      assert Enabled(saved[j - 1], steps[j - 1]) && saved[j - 1 + 1] == Next(saved[j - 1], steps[j - 1]);
      StepExtends(saved[j - 1], steps[j - 1]);
      ExtendsPreserves(saved[j - 1], saved[j]);
      PreservesTransitive(saved[i], saved[j - 1], saved[j]);
    } else {
      PreservesItself(saved[i]);
    }
  }

  lemma ExtendsPreserves(m: Mission, n: Mission)
    requires Extends(m, n)
    ensures Preserves(m, n)
  {
  }

  lemma PreservesItself(m: Mission)
    ensures Preserves(m, m)
  {
  }

  /** A completed version can only be the last one of its run. */
  lemma CompletedEndsRun(saved: seq<Mission>, steps: seq<Step>, k: nat)
    requires Run(saved, steps) && k < |saved| && saved[k].state.Completed?
    ensures k == |saved| - 1
  {
    hide Inv, Created, Next, Enabled;
    if k < |steps| {
      RunInv(saved, steps, k);
      assert Enabled(saved[k], steps[k]);
      CompletedIsFinal(saved[k], steps[k]);
    }
  }

  // ---------- bounds ----------

  function Dispatches(execs: seq<Execution>): nat {
    if execs == [] then 0
    else Dispatches(execs[..|execs| - 1]) + if IsDispatch(execs[|execs| - 1]) then 1 else 0
  }

  function DispatchesOf(execs: seq<Execution>, id: string): nat {
    if execs == [] then 0
    else
      var last := execs[|execs| - 1];
      DispatchesOf(execs[..|execs| - 1], id) + if IsDispatch(last) && last.taskId == id then 1 else 0
  }

  lemma {:induction false} DispatchesBound(execs: seq<Execution>, limit: nat)
    requires forall j :: 0 <= j < |execs| && IsDispatch(execs[j]) ==> j < limit
    ensures Dispatches(execs) <= limit && Dispatches(execs) <= |execs|
  {
    if execs != [] {
      DispatchesBound(execs[..|execs| - 1], limit);
    }
  }

  lemma {:induction false} DispatchesOfBound(execs: seq<Execution>, id: string, limit: nat)
    requires RetriesRise(execs)
    requires forall j :: 0 <= j < |execs| && IsDispatch(execs[j]) && execs[j].taskId == id ==> 0 <= execs[j].retry < limit
    ensures DispatchesOf(execs, id) <= limit
  {
    if execs != [] {
      var front, last := execs[..|execs| - 1], execs[|execs| - 1];
      if IsDispatch(last) && last.taskId == id {
        forall j | 0 <= j < |front| && IsDispatch(front[j]) && front[j].taskId == id ensures front[j].retry < last.retry {
          assert front[j] == execs[j];
        }
        assert RetriesRise(front);
        DispatchesOfBound(front, id, last.retry);
      } else {
        DispatchesOfBound(front, id, limit);
      }
    }
  }

  /**
   * However often a mission is retried: dispatches stay within the execution budget, repair cycles
   * within theirs, no task is dispatched more than three times, and only QA and review may exceed
   * their own attempt limit, by at most one attempt per repair cycle.
   */
  lemma Bounded(m: Mission)
    requires Inv(m)
    ensures Dispatches(m.executions) <= m.budget.maxExecutions && m.fixCycles <= m.budget.maxFixes
    ensures forall k :: 0 <= k < |m.plan| ==>
      && DispatchesOf(m.executions, m.plan[k].id) <= m.plan[k].attempts <= 3
      && m.plan[k].attempts <= m.plan[k].maxAttempts + (if Redone(m.plan[k].role) then m.fixCycles else 0)
  {
    BoundedDispatches(m);
    forall k | 0 <= k < |m.plan|
      ensures DispatchesOf(m.executions, m.plan[k].id) <= m.plan[k].attempts <= 3
        && m.plan[k].attempts <= m.plan[k].maxAttempts + (if Redone(m.plan[k].role) then m.fixCycles else 0)
    {
      hide Inv;
      InvTask(m, k);
      InvExecutionsOf(m, k);
      DispatchesOfBound(m.executions, m.plan[k].id, m.plan[k].attempts);
    }
  }

  lemma BoundedDispatches(m: Mission)
    requires Inv(m)
    ensures Dispatches(m.executions) <= m.budget.maxExecutions && m.fixCycles <= m.budget.maxFixes
  {
    hide PlanShape, TasksOk, AllBelong, RunningLinked, CompletedLinked, Started, RetriesRise, StateOk, EscalationOk, OnlyLastRuns,
      UsedOwnWorktree, ResultOk;
    DispatchesBound(m.executions, m.budget.maxExecutions);
  }

  lemma InvExecutionsOf(m: Mission, k: nat)
    requires Inv(m) && k < |m.plan|
    ensures RetriesRise(m.executions)
    ensures forall j | 0 <= j < |m.executions| && IsDispatch(m.executions[j]) && m.executions[j].taskId == m.plan[k].id ::
              0 <= m.executions[j].retry < m.plan[k].attempts
  {
    hide PlanShape, TasksOk, RunningLinked, CompletedLinked, Started, RetriesRise, StateOk, EscalationOk, OnlyLastRuns,
      UsedOwnWorktree, ResultOk;
    forall j | 0 <= j < |m.executions| && IsDispatch(m.executions[j]) && m.executions[j].taskId == m.plan[k].id
      ensures 0 <= m.executions[j].retry < m.plan[k].attempts
    {
      assert ExecutionOk(m, j, m.executions[j]) && Belongs(m.executions[j], m.plan[k]);
    }
  }

  // ---------- artifact locations are never shared ----------

  /** The attempt starts after the last dash, and the work-item part has a fixed width. */
  lemma OwnedIdTail(id: string, taskId: string, attempt: nat)
    requires GoodTaskId(taskId)
    ensures var o := OwnedId(id, taskId, attempt);
      && |o| == |id| + 10 + |Decimal(attempt)| && o[|id| + 9] == '-' && o[..|id|] == id
      && o[|id| + 10..] == Decimal(attempt)
  {
  }

  lemma OwnedIdInjective(a: string, s: string, n: nat, b: string, t: string, k: nat)
    requires GoodTaskId(s) && GoodTaskId(t) && OwnedId(a, s, n) == OwnedId(b, t, k)
    ensures a == b && n == k
  {
    OwnedIdTail(a, s, n);
    OwnedIdTail(b, t, k);
    hide OwnedId, Decimal;
    var o := OwnedId(a, s, n);
    if |a| < |b| {
      assert o[|a| + 10..][|b| - |a| - 1] == '-';
      DecimalDigits(n, |b| - |a| - 1);
    } else if |b| < |a| {
      assert o[|b| + 10..][|a| - |b| - 1] == '-';
      DecimalDigits(k, |a| - |b| - 1);
    }
    DecimalInjective(n, k);
  }

  lemma WorktreeSuffix(m: Mission, x: string, y: string)
    requires WorktreePath(m, x) == WorktreePath(m, y)
    ensures x == y
  {
    var prefix := m.worktreeRoot + "/" + m.id + "/";
    assert WorktreePath(m, x)[|prefix|..] == x && WorktreePath(m, y)[|prefix|..] == y;
  }

  /** Equal branches or worktrees mean the same task and the same attempt. */
  lemma LocationInjective(m: Mission, t: Task, s: string, u: Task, v: string)
    requires GoodTaskId(s) && GoodTaskId(v) && t.attempts >= 0 && u.attempts >= 0
    requires LocatedTask(m, t, s).branch == LocatedTask(m, u, v).branch || LocatedTask(m, t, s).worktree == LocatedTask(m, u, v).worktree
    ensures t.id == u.id && t.attempts == u.attempts
  {
    hide OwnedId, GoodTaskId;
    var x, y := OwnedId(t.id, s, t.attempts), OwnedId(u.id, v, u.attempts);
    if LocatedTask(m, t, s).branch == LocatedTask(m, u, v).branch {
      var prefix := m.branchPrefix + "/" + m.id + "/";
      assert BranchName(m, x)[|prefix|..] == x && BranchName(m, y)[|prefix|..] == y;
    } else {
      WorktreeSuffix(m, x, y);
    }
    OwnedIdInjective(t.id, s, t.attempts, u.id, v, u.attempts);
  }

  lemma {:induction false} RunSettings(saved: seq<Mission>, steps: seq<Step>, i: nat, j: nat)
    requires Run(saved, steps) && i <= j < |saved|
    ensures SameSettings(saved[i], saved[j])
    decreases j - i
  {
    hide Enabled, Next, Created;
    if i < j {
      RunSettings(saved, steps, i, j - 1);
      assert Enabled(saved[j - 1], steps[j - 1]) && saved[j - 1 + 1] == Next(saved[j - 1], steps[j - 1]);
      NextFrame(saved[j - 1], steps[j - 1]);
    }
  }

  /** Dispatch `j` is the current attempt of task `k`, running or over. */
  predicate AttemptOf(m: Mission, k: nat, j: nat) {
    && k < |m.plan| && j < |m.executions| && IsDispatch(m.executions[j])
    && m.executions[j].taskId == m.plan[k].id && m.executions[j].retry == m.plan[k].attempts - 1
  }

  /** A dispatch seen in one version, as a later version has it. */
  lemma DispatchKept(saved: seq<Mission>, steps: seq<Step>, u: nat, v: nat, j: nat)
    requires Run(saved, steps) && u <= v < |saved| && j < |saved[u].executions|
    ensures j < |saved[v].executions| && SameDispatch(saved[u].executions[j], saved[v].executions[j])
  {
    hide Run, SameDispatch;
    RunPreserves(saved, steps, u, v);
  }

  lemma RunRetries(saved: seq<Mission>, steps: seq<Step>, v: nat)
    requires Run(saved, steps) && v < |saved|
    ensures RetriesRise(saved[v].executions)
  {
    hide Run;
    RunInv(saved, steps, v);
    hide PlanShape, TasksOk, ExecutionsOk, AllBelong, RunningLinked, CompletedLinked, Started, StateOk, EscalationOk, OnlyLastRuns, RetriesRise;
  }

  /** A task's attempt is dispatched once in a run. */
  lemma OneDispatchEach(saved: seq<Mission>, steps: seq<Step>, u: nat, i: nat, v: nat, j: nat)
    requires Run(saved, steps) && u < |saved| && v < |saved| && i < |saved[u].executions| && j < |saved[v].executions|
    requires IsDispatch(saved[u].executions[i]) && IsDispatch(saved[v].executions[j])
    requires saved[u].executions[i].taskId == saved[v].executions[j].taskId && saved[u].executions[i].retry == saved[v].executions[j].retry
    ensures i == j
  {
    hide Run;
    var w := if u < v then v else u;
    DispatchKept(saved, steps, u, w, i);
    DispatchKept(saved, steps, v, w, j);
    RunRetries(saved, steps, w);
  }

  lemma LocationOfTask(m: Mission, k: nat)
    requires Inv(m) && k < |m.plan|
    ensures LocationOk(m, m.plan[k]) && m.plan[k].attempts >= 0
  {
    hide Inv, LocationOk;
    InvTask(m, k);
  }

  lemma BranchNamed(m: Mission, t: Task)
    requires LocationOk(m, t)
    ensures t.worktree != "" <==> t.branch != ""
  {
    hide OwnedId, GoodTaskId, WorktreePath;
  }

  lemma SameLocationSameAttempt(m: Mission, t: Task, n: Mission, u: Task)
    requires SameSettings(m, n) && LocationOk(m, t) && LocationOk(n, u) && t.worktree != "" && u.worktree != ""
    requires t.worktree == u.worktree || t.branch == u.branch
    ensures t.id == u.id && t.attempts == u.attempts
  {
    hide OwnedId, GoodTaskId;
    LocationInjective(m, t, t.taskId, u, u.taskId);
  }

  /** Over a whole run, two dispatches never had the same worktree or branch, whether they run or are over. */
  lemma NoSharedLocation(saved: seq<Mission>, steps: seq<Step>, u: nat, k: nat, i: nat, v: nat, l: nat, j: nat)
    requires Run(saved, steps) && u < |saved| && v < |saved| && i != j
    requires AttemptOf(saved[u], k, i) && AttemptOf(saved[v], l, j) && saved[u].plan[k].worktree != ""
    ensures saved[u].plan[k].worktree != saved[v].plan[l].worktree && saved[u].plan[k].branch != saved[v].plan[l].branch
  {
    hide Run, Inv, LocationOk, SameSettings, OwnedId, IsDispatch;
    RunInv(saved, steps, u);
    RunInv(saved, steps, v);
    LocationOfTask(saved[u], k);
    LocationOfTask(saved[v], l);
    if u <= v {
      RunSettings(saved, steps, u, v);
    } else {
      RunSettings(saved, steps, v, u);
    }
    SettingsSymmetric(saved[v], saved[u]);
    var t, r := saved[u].plan[k], saved[v].plan[l];
    BranchNamed(saved[u], t);
    BranchNamed(saved[v], r);
    if t.worktree == r.worktree || t.branch == r.branch {
      SameLocationSameAttempt(saved[u], t, saved[v], r);
      OneDispatchEach(saved, steps, u, i, v, j);
    }
  }

  lemma SettingsSymmetric(m: Mission, n: Mission)
    ensures SameSettings(m, n) <==> SameSettings(n, m)
  {
  }
}
