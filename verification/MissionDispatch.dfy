/** Choosing and claiming the next task of an advance (internal/app/team.go). */
module MissionDispatch {
  import opened Team
  import opened Scheduler
  import opened MissionSteps
  import opened MissionInvariant

  // ---------- who may review ----------

  method FindAuthors(execs: seq<Execution>) returns (authors: set<string>)
    ensures authors == Authors(execs)
  {
    authors := {};
    for k := 0 to |execs|
      invariant authors == set j | 0 <= j < k && IsBuild(execs[j].agent) :: Author(execs[j].provider, execs[j].model)
    {
      if IsBuild(execs[k].agent) {
        authors := authors + {Author(execs[k].provider, execs[k].model)};
      }
    }
  }

  /** The independent candidates, in the order they were ranked. */
  method KeepIndependent(execs: seq<Execution>, choices: seq<Model>) returns (kept: seq<Model>)
    requires Ranked(choices)
    ensures Ranked(kept) && forall x :: x in kept <==> x in choices && Independent(execs, x)
  {
    hide Authors, RankedBefore;
    var authors := FindAuthors(execs);
    kept := [];
    for k := 0 to |choices|
      invariant Ranked(kept)
      invariant forall x :: x in kept <==> x in choices[..k] && Independent(execs, x)
    {
      if Author(choices[k].provider, choices[k].id) !in authors {
        forall i | 0 <= i < |kept| ensures RankedBefore(kept[i], choices[k]) {
          assert kept[i] in kept;
          var j :| 0 <= j < k && choices[j] == kept[i];
        }
        kept := kept + [choices[k]];
      }
    }
    assert choices[..|choices|] == choices;
  }

  /** The models a review may use: independent ones while there are any, otherwise all unless the policy forbids it. */
  predicate MayRun(m: Mission, t: Task, models: seq<Model>, available: map<string, bool>, x: Model) {
    && x in models && Eligible(m, t, available, x)
    && (t.role.Review? ==>
          Independent(m.executions, x) ||
          (!m.policy.requireDifferentReviewModel
           && forall y :: y in models && Eligible(m, t, available, y) ==> !Independent(m.executions, y)))
  }

  predicate Exhausted(m: Mission) {
    |m.executions| >= m.budget.maxExecutions || m.budget.maxCost.Some? || m.budget.maxTokens > 0
  }

  /**
   * The best ranked model allowed to run the task. A review never goes to an implementer's model
   * while an independent one is eligible, nor ever when the policy requires independence.
   */
  method Choose(m: Mission, t: Task, models: seq<Model>, available: map<string, bool>) returns (choice: Option<Model>)
    ensures choice.None? <==> Exhausted(m) || forall x :: x in models ==> !MayRun(m, t, models, available, x)
    ensures choice.Some? ==> MayRun(m, t, models, available, choice.value)
    ensures choice.Some? ==> forall x :: x in models && MayRun(m, t, models, available, x) && x != choice.value ==>
                                         RankedBefore(choice.value, x)
  {
    hide Eligible, RankedBefore, Independent;
    var routing := Route(m.(models := models), t, available);
    EligibleIgnoresModels(m, t, models, available);
    if !routing.Candidates? {
      return None;
    }
    AllEligible(m.(models := models), t, available, models);
    forall x ensures x in routing.models <==> x in models && Eligible(m, t, available, x) {
      assert x in routing.models <==> x in multiset(routing.models);
    }
    if !t.role.Review? {
      FirstIsBest(routing.models);
      return Some(routing.models[0]);
    }
    var independent := KeepIndependent(m.executions, routing.models);
    if independent != [] {
      FirstIsBest(independent);
      assert independent[0] in independent;
      return Some(independent[0]);
    }
    assert forall x :: x in routing.models ==> !Independent(m.executions, x);
    if m.policy.requireDifferentReviewModel {
      return None;
    }
    FirstIsBest(routing.models);
    choice := Some(routing.models[0]);
  }

  lemma FirstIsBest(s: seq<Model>)
    requires s != [] && Ranked(s)
    ensures forall x :: x in s && x != s[0] ==> RankedBefore(s[0], x)
  {
  }

  lemma EligibleIgnoresModels(m: Mission, t: Task, models: seq<Model>, available: map<string, bool>)
    ensures forall x :: Eligible(m.(models := models), t, available, x) == Eligible(m, t, available, x)
  {
  }

  lemma {:induction false} AllEligible(m: Mission, t: Task, available: map<string, bool>, models: seq<Model>)
    ensures forall x :: x in multiset(EligibleModels(m, t, available, models)) <==> x in models && Eligible(m, t, available, x)
  {
    if models != [] {
      hide Eligible;
      AllEligible(m, t, available, models[..|models| - 1]);
    }
  }

  // ---------- advisory ranking ----------

  /** Historical success rates replace the evaluations of the models that have a history. */
  method Rescore(models: seq<Model>, scores: seq<Option<real>>) returns (r: seq<Model>)
    requires |scores| == |models|
    ensures Reevaluated(models, r)
    ensures forall k :: 0 <= k < |models| ==> r[k].evaluation == if scores[k].Some? then scores[k].value else models[k].evaluation
  {
    r := models;
    for k := 0 to |models|
      invariant |r| == |models|
      invariant forall j :: 0 <= j < k ==>
        r[j] == models[j].(evaluation := if scores[j].Some? then scores[j].value else models[j].evaluation)
      invariant forall j :: k <= j < |models| ==> r[j] == models[j]
    {
      if scores[k].Some? {
        r := r[k := r[k].(evaluation := scores[k].value)];
      }
    }
  }

  // ---------- claiming ----------

  /** Nothing of an earlier attempt's location is left. */
  predicate NoLocation(t: Task) {
    t.worktree == "" && t.branch == "" && t.head == "" && t.artifactHead == ""
  }

  /** What a claim makes of a task: one attempt more, running, and of a retried task no location. */
  predicate ClaimedFrom(t: Task, u: Task, size: int) {
    && u.attempts == t.attempts + 1 && u.state.Running? && u.contextSize == size
    && (t.attempts > 0 ==> NoLocation(u))
    && (t.attempts <= 0 ==> u.worktree == t.worktree && u.branch == t.branch && u.head == t.head && u.artifactHead == t.artifactHead)
    && u.id == t.id && u.role == t.role && u.dependsOn == t.dependsOn && u.capabilities == t.capabilities
    && u.maxAttempts == t.maxAttempts && u.taskId == t.taskId
  }

  /** The execution that stands for the claim: running, without a session, evidence or verdict. */
  predicate StandsFor(e: Execution, t: Task, chosen: Model, id: string) {
    && e.id == id && e.taskId == t.id && e.agent == t.role && e.retry == t.attempts - 1 && e.result.Running?
    && e.provider == chosen.provider && e.model == chosen.id && e.escalation == chosen.tier
    && e.test.NotRun? && e.review.NotRun? && e.evidence == [] && e.sessionId == "" && e.worktree == "" && e.head == ""
  }

  /** Marks the task running under a new execution, before any side effect. */
  method Claim(m: Mission, i: nat, size: int, chosen: Model, id: string) returns (n: Mission)
    requires i < |m.plan|
    ensures |n.plan| == |m.plan| && ClaimedFrom(m.plan[i], n.plan[i], size)
    ensures forall k :: 0 <= k < |m.plan| && k != i ==> n.plan[k] == m.plan[k]
    ensures |n.executions| == |m.executions| + 1 && n.executions[..|m.executions|] == m.executions
    ensures StandsFor(n.executions[|m.executions|], n.plan[i], chosen, id)
    ensures n.state.Running? && n == m.(plan := n.plan, executions := n.executions, state := n.state)
  {
    var t := m.plan[i].(contextSize := size);
    if t.attempts > 0 {
      t := t.(worktree := "", branch := "", head := "", artifactHead := "");
    }
    t := t.(state := Running, attempts := t.attempts + 1);
    var e := Execution(id, t.id, t.role, chosen.provider, chosen.id, "", Running, t.attempts - 1, chosen.tier, [], NotRun, NotRun, "", "");
    n := m.(plan := m.plan[i := t], state := Running, executions := m.executions + [e]);
  }

  /** The claim's description leaves no choice: it is the dispatch of the step model. */
  lemma ClaimIsDispatch(m: Mission, i: nat, size: int, chosen: Model, id: string, n: Mission)
    requires i < |m.plan| && |n.plan| == |m.plan| && ClaimedFrom(m.plan[i], n.plan[i], size)
    requires forall k :: 0 <= k < |m.plan| && k != i ==> n.plan[k] == m.plan[k]
    requires |n.executions| == |m.executions| + 1 && n.executions[..|m.executions|] == m.executions
    requires StandsFor(n.executions[|m.executions|], n.plan[i], chosen, id)
    requires n.state.Running? && n == m.(plan := n.plan, executions := n.executions, state := n.state)
    ensures n == Dispatched(m, i, size, chosen, id)
  {
    assert n.plan[i] == DispatchedTask(m.plan[i].(contextSize := size));
    assert n.plan == m.plan[i := n.plan[i]];
    assert n.executions == m.executions + [n.executions[|m.executions|]];
  }

  lemma InvAttempts(m: Mission)
    requires Inv(m)
    ensures RetriesRise(m.executions) && OnlyLastRuns(m.executions)
  {
    hide PlanShape, TasksOk, ExecutionsOk, AllBelong, RunningLinked, CompletedLinked, Started, StateOk, EscalationOk, RetriesRise, OnlyLastRuns;
  }

  lemma DispatchAppends(m: Mission, s: Step)
    requires Enabled(m, s) && s.Dispatch? && TaskOk(m, m.plan[s.index])
    ensures var n := Next(m, s);
      && |n.plan| == |m.plan| && n.executions != [] && n.executions == m.executions + [n.executions[|n.executions| - 1]]
      && n.executions[|n.executions| - 1].result.Running? && n.executions[|n.executions| - 1].taskId == n.plan[s.index].id
      && NoLocation(n.plan[s.index].(artifactHead := ""))
  {
    hide DepsDone, NeedsGate, Eligible, Reevaluated, OwnedId, GoodTaskId;
  }

  /** In every reachable mission a claim opens an attempt no earlier execution had, on a task without a location. */
  lemma ClaimIsNew(m: Mission, s: Step, n: Mission)
    requires Inv(m) && Enabled(m, s) && s.Dispatch? && n == Next(m, s)
    ensures |n.executions| == |m.executions| + 1 && n.executions[..|m.executions|] == m.executions && s.index < |n.plan|
    ensures NoLocation(n.plan[s.index].(artifactHead := ""))
    ensures NewestAttempt(m.executions, n.executions[|m.executions|]) && n.executions[|m.executions|].taskId == n.plan[s.index].id
  {
    DispatchIndex(m, s);
    hide Inv, Enabled, Next, NoLocation;
    NextInv(m, s);
    InvAttempts(n);
    InvTask(m, s.index);
    DispatchAppends(m, s);
    LastIsNew(m.executions, n.executions);
  }

  /** A running execution whose attempt is later than every earlier one of its task, while nothing else runs. */
  predicate NewestAttempt(before: seq<Execution>, e: Execution) {
    && e.result.Running?
    && (forall j :: 0 <= j < |before| && IsDispatch(before[j]) && before[j].taskId == e.taskId ==> before[j].retry < e.retry)
    && (forall j :: 0 <= j < |before| ==> !before[j].result.Running?)
  }

  lemma DispatchIndex(m: Mission, s: Step)
    requires Enabled(m, s) && s.Dispatch?
    ensures s.index < |m.plan|
  {
    hide IsReady, NeedsGate, Eligible, Reevaluated;
  }

  lemma LastIsNew(before: seq<Execution>, execs: seq<Execution>)
    requires RetriesRise(execs) && OnlyLastRuns(execs) && execs != [] && execs == before + [execs[|execs| - 1]]
    requires execs[|execs| - 1].result.Running?
    ensures NewestAttempt(before, execs[|execs| - 1])
  {
    forall j | 0 <= j < |before| ensures before[j] == execs[j] {
    }
  }
}
