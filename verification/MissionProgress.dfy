/** An idle mission is never stuck, and repeated advances end. */
module MissionProgress {
  import opened Graph
  import opened Team
  import opened Scheduler
  import opened MissionSteps
  import opened MissionInvariant
  import opened MissionOrder

  predicate AllDone(plan: seq<Task>) {
    forall k :: 0 <= k < |plan| ==> plan[k].state.Completed?
  }

  ghost function UnfinishedIds(plan: seq<Task>): set<string> {
    set k | 0 <= k < |plan| && !plan[k].state.Completed? :: plan[k].id
  }

  lemma SomeReady(plan: seq<Task>, k: nat) returns (x: nat)
    requires PlanShape(plan) && Settled(plan) && k < |plan| && !plan[k].state.Completed?
    ensures x < |plan| && IsReady(plan, x)
  {
    var g := PlanGraph(plan);
    hide PlanGraph, Cyclic, OrderRules;
    assert plan[k].id in UnfinishedIds(plan);
    var id := MinimalMember(g, UnfinishedIds(plan), plan[k].id);
    x :| 0 <= x < |plan| && plan[x].id == id && !plan[x].state.Completed?;
    PlanGraphAt(plan, x);
    forall j | 0 <= j < |plan| && plan[j].id in plan[x].dependsOn ensures plan[j].state.Completed? {
      assert plan[j].id in Deps(g, id) && plan[j].id !in UnfinishedIds(plan);
    }
    DoneMeansReady(plan, x);
  }

  /** An idle mission that is not over has nothing ready exactly when all its tasks are done. */
  lemma NothingReadyMeansDone(m: Mission)
    requires Inv(m) && !Terminal(m.state) && NoneRunning(m.plan)
    ensures NoneReady(m.plan) <==> AllDone(m.plan)
  {
    hide Inv, PlanShape, DepsDone;
    InvIds(m);
    SettledWhenIdle(m);
    if k :| 0 <= k < |m.plan| && !m.plan[k].state.Completed? {
      var x := SomeReady(m.plan, k);
    }
  }

  lemma {:induction false} LatestIsLast(execs: seq<Execution>, id: string)
    ensures id in Latest(execs) <==> LastIndex(execs, id) >= 0
    ensures id in Latest(execs) ==> Latest(execs)[id] == execs[LastIndex(execs, id)]
  {
    if execs != [] {
      LatestIsLast(execs[..|execs| - 1], id);
    }
  }

  lemma EvidenceNeverLacks(m: Mission)
    requires Inv(m)
    ensures !LatestLacksEvidence(m.executions)
  {
    hide PlanShape, TasksOk, AllBelong, RunningLinked, CompletedLinked, Started, RetriesRise, StateOk, EscalationOk, OnlyLastRuns,
      UsedOwnWorktree, LastIndex, Latest;
    forall id | id in Latest(m.executions) && Latest(m.executions)[id].result.Completed?
      ensures Latest(m.executions)[id].evidence != []
    {
      LatestIsLast(m.executions, id);
      var j := LastIndex(m.executions, id);
      assert ExecutionOk(m, j, m.executions[j]);
    }
  }

  /** Git and the criteria store answered every question of a concluding call. */
  predicate AllAnswered(o: ConcludeObs) {
    o.sourceRead && o.criteriaSaved && forall k :: 0 <= k < |o.sites| ==> o.sites[k].headRead && o.sites[k].statusRead
  }

  lemma {:induction false} WalkEnds(plan: seq<Task>, sites: seq<SiteObs>, from: nat)
    requires from <= |plan| && |sites| == |plan| && AllDone(plan)
    requires forall k :: 0 <= k < |sites| ==> sites[k].headRead && sites[k].statusRead
    ensures !WalkSites(plan, sites, from).Stop?
    decreases |plan| - from
  {
    if from < |plan| {
      WalkEnds(plan, sites, from + 1);
    }
  }

  /** When all tasks are done, a concluding call that gets its answers always decides. */
  lemma ConclusionDecides(m: Mission, o: ConcludeObs)
    requires Inv(m) && AllDone(m.plan) && |o.sites| == |m.plan| && AllAnswered(o)
    ensures Conclusion(m, o).Some? && Terminal(Conclusion(m, o).value)
  {
    hide Inv, LatestLacksEvidence, VerdictsSuffice, WalkSites;
    EvidenceNeverLacks(m);
    WalkEnds(m.plan, o.sites, 0);
  }

  // ---------- repeated advances ----------

  /** The dispatched task is located and attached to a session; nothing else happens meanwhile. */
  ghost predicate Works(m: Mission, steps: seq<Step>, n: Mission)
    decreases |steps|
  {
    if steps == [] then n == m
    else
      && Enabled(m, steps[0]) && (steps[0].Prepare? || steps[0].Attach?)
      && Works(Next(m, steps[0]), steps[1..], n)
  }

  /**
   * One advance that hits no infrastructure error, as the saves it makes: a decision, one execution,
   * or the recovery of an execution that was interrupted.
   */
  datatype Advance =
    | Decides(step: Step)
    | Executes(dispatch: Step, work: seq<Step>, worked: Mission, finish: Step, conclude: Option<Step>)
    | Recovers(finish: Step, abandon: Step)

  ghost predicate Advances(m: Mission, a: Advance, n: Mission) {
    match a
    case Decides(s) => Enabled(m, s) && (s.EscalateRisk? || s.Refuse? || s.Conclude?) && n == Next(m, s)
    case Executes(d, work, worked, f, c) =>
      && d.Dispatch? && Enabled(m, d) && Works(Next(m, d), work, worked)
      && f.Finish? && Enabled(worked, f)
      && (match c
          case None => n == Next(worked, f)
          case Some(s) => s.Conclude? && Enabled(Next(worked, f), s) && n == Next(Next(worked, f), s))
    case Recovers(f, s) =>
      f.Finish? && f.runErr && Enabled(m, f) && s.Abandon? && Enabled(Next(m, f), s) && n == Next(Next(m, f), s)
  }

  function Fuel(m: Mission): nat {
    if m.budget.maxExecutions > |m.executions| then m.budget.maxExecutions - |m.executions| else 0
  }

  lemma {:induction false} WorkKeeps(m: Mission, steps: seq<Step>, n: Mission)
    requires Inv(m) && Works(m, steps, n)
    ensures Inv(n) && n.budget == m.budget && |n.executions| == |m.executions|
    decreases |steps|
  {
    if steps != [] {
      NextInv(m, steps[0]) by { hide Works; }
      WorkStepSizes(m, steps[0]);
      hide Inv, Enabled, Next;
      WorkKeeps(Next(m, steps[0]), steps[1..], n);
    }
  }

  lemma WorkStepSizes(m: Mission, s: Step)
    requires Enabled(m, s) && (s.Prepare? || s.Attach?)
    ensures Next(m, s).budget == m.budget && |Next(m, s).executions| == |m.executions|
  {
    hide OwnedId, GoodTaskId;
  }

  lemma DispatchSizes(m: Mission, s: Step)
    requires Enabled(m, s) && s.Dispatch?
    ensures Next(m, s).budget == m.budget && |Next(m, s).executions| == |m.executions| + 1 && |m.executions| < m.budget.maxExecutions
  {
    hide IsReady, Rescheduled, Eligible, NeedsGate, Reevaluated;
  }

  lemma FinishSizes(m: Mission, s: Step)
    requires Enabled(m, s) && s.Finish?
    ensures Next(m, s).budget == m.budget && |Next(m, s).executions| == |m.executions|
  {
    hide OwnedId, GoodTaskId, OutcomeOf, RunsTask;
    assert m.executions != [] by { FinishRuns(m, s); }
  }

  lemma FinishRuns(m: Mission, s: Step)
    requires Enabled(m, s) && s.Finish?
    ensures m.executions != []
  {
    hide PrepFits;
  }

  lemma DecideEnds(m: Mission, s: Step)
    requires Inv(m) && Enabled(m, s) && (s.EscalateRisk? || s.Refuse? || s.Conclude?)
    ensures Terminal(Next(m, s).state)
  {
    hide Inv, IsReady, Rescheduled, NeedsGate, Reevaluated, NoneReady, WalkSites, LatestLacksEvidence, VerdictsSuffice;
  }

  lemma AbandonEnds(m: Mission, s: Step)
    requires Enabled(m, s) && s.Abandon?
    ensures Terminal(Next(m, s).state)
  {
  }

  /** Every advance either ends the mission or uses up one of its executions. */
  lemma AdvanceProgress(m: Mission, a: Advance, n: Mission)
    requires Inv(m) && Advances(m, a, n)
    ensures Inv(n) && (Terminal(n.state) || (NoneRunning(n.plan) && Fuel(n) < Fuel(m)))
  {
    hide Inv, Enabled, Next, NoneRunning;
    match a
    case Decides(s) =>
      NextInv(m, s);
      DecideEnds(m, s);
    case Executes(d, work, worked, f, c) =>
      NextInv(m, d);
      DispatchSizes(m, d);
      WorkKeeps(Next(m, d), work, worked);
      FinishStepInv(worked, f);
      FinishSizes(worked, f);
      if c.Some? {
        NextInv(Next(worked, f), c.value);
        DecideEnds(Next(worked, f), c.value);
      }
    case Recovers(f, s) =>
      NextInv(m, f);
      NextInv(Next(m, f), s);
      AbandonEnds(Next(m, f), s);
  }

  /** Consecutive versions of a mission under repeated advances, none of them over before the last. */
  ghost predicate Driven(versions: seq<Mission>, advances: seq<Advance>) {
    && |versions| == |advances| + 1
    && forall k :: 0 <= k < |advances| ==> Advances(versions[k], advances[k], versions[k + 1]) && !Terminal(versions[k].state)
  }

  /** Repeated advances reach completed or escalated within the remaining executions plus one call. */
  lemma {:induction false} AdvancesEnd(versions: seq<Mission>, advances: seq<Advance>)
    requires Driven(versions, advances) && Inv(versions[0])
    ensures |advances| <= Fuel(versions[0]) + 1
    decreases |advances|
  {
    hide Inv, Advances;
    if |advances| > 0 {
      assert Advances(versions[0], advances[0], versions[1]);
      AdvanceProgress(versions[0], advances[0], versions[1]);
      assert Driven(versions[1..], advances[1..]) by {
        forall k | 0 <= k < |advances| - 1
          ensures Advances(versions[1..][k], advances[1..][k], versions[1..][k + 1]) && !Terminal(versions[1..][k].state)
        {
          assert Advances(versions[k + 1], advances[k + 1], versions[k + 2]);
        }
      }
      if |advances| > 1 {
        assert !Terminal(versions[1].state);
        AdvancesEnd(versions[1..], advances[1..]);
      }
    }
  }
}
