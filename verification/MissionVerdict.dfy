/** Exactly when a mission concludes, in terms of its tasks, its last executions and what Git answers. */
module MissionVerdict {
  import opened Team
  import opened Scheduler
  import opened MissionSteps
  import opened MissionInvariant
  import opened MissionProgress

  // ---------- the verdicts of the last executions ----------

  /** Task `k` ran, and its last execution passed the configured checks. */
  predicate LastTested(m: Mission, k: nat)
    requires k < |m.plan|
  {
    var j := LastIndex(m.executions, m.plan[k].id);
    j >= 0 && m.executions[j].test.Passed?
  }

  /** Task `k` ran, and its last execution passed a review. */
  predicate LastReviewed(m: Mission, k: nat)
    requires k < |m.plan|
  {
    var j := LastIndex(m.executions, m.plan[k].id);
    j >= 0 && m.executions[j].review.Passed?
  }

  /** Two different tasks' last executions passed reviews. */
  predicate ReviewedTwice(m: Mission) {
    exists j, k :: 0 <= j < |m.plan| && 0 <= k < |m.plan| && m.plan[j].id != m.plan[k].id && LastReviewed(m, j) && LastReviewed(m, k)
  }

  /** What a completed mission needs: a test, with any risk a review, and at risk three two reviews. */
  predicate WellJudged(m: Mission) {
    && (exists k :: 0 <= k < |m.plan| && LastTested(m, k))
    && (m.risk > 0 ==> exists k :: 0 <= k < |m.plan| && LastReviewed(m, k))
    && (m.risk == 3 ==> ReviewedTwice(m))
  }

  lemma TaskNamed(m: Mission, id: string) returns (k: nat)
    requires AllBelong(m.plan, m.executions) && id in Latest(m.executions)
    ensures k < |m.plan| && m.plan[k].id == id
    ensures LastTested(m, k) <==> Latest(m.executions)[id].test.Passed?
    ensures LastReviewed(m, k) <==> Latest(m.executions)[id].review.Passed?
  {
    hide Latest, LastIndex, Belongs;
    LatestIsLast(m.executions, id);
    var j := LastIndex(m.executions, id);
    assert Names(m.plan, m.executions[j]);
    k :| 0 <= k < |m.plan| && m.plan[k].id == id;
  }

  lemma NamedTask(m: Mission, k: nat)
    requires k < |m.plan| && (LastTested(m, k) || LastReviewed(m, k))
    ensures var id := m.plan[k].id;
      id in Latest(m.executions)
        && (LastTested(m, k) <==> Latest(m.executions)[id].test.Passed?) && (LastReviewed(m, k) <==> Latest(m.executions)[id].review.Passed?)
  {
    hide Latest, LastIndex;
    LatestIsLast(m.executions, m.plan[k].id);
  }

  lemma TestedExactly(m: Mission)
    requires AllBelong(m.plan, m.executions)
    ensures LatestTested(m.executions) <==> exists k :: 0 <= k < |m.plan| && LastTested(m, k)
  {
    hide Latest, LastTested, LastReviewed, AllBelong;
    if id :| id in Latest(m.executions) && Latest(m.executions)[id].test.Passed? {
      var k := TaskNamed(m, id);
    }
    if k :| 0 <= k < |m.plan| && LastTested(m, k) {
      NamedTask(m, k);
    }
  }

  lemma ReviewedExactly(m: Mission)
    requires AllBelong(m.plan, m.executions)
    ensures forall id :: id in LatestReviews(m.executions) <==> exists k :: 0 <= k < |m.plan| && m.plan[k].id == id && LastReviewed(m, k)
  {
    hide Latest, LastTested, LastReviewed, AllBelong;
    forall id ensures id in LatestReviews(m.executions) <==> exists k :: 0 <= k < |m.plan| && m.plan[k].id == id && LastReviewed(m, k) {
      if id in LatestReviews(m.executions) {
        var k := TaskNamed(m, id);
      }
      if k :| 0 <= k < |m.plan| && m.plan[k].id == id && LastReviewed(m, k) {
        NamedTask(m, k);
      }
    }
  }

  lemma TwoMembers(s: set<string>)
    ensures |s| >= 2 <==> exists a, b :: a in s && b in s && a != b
  {
    if |s| >= 2 {
      var a :| a in s;
      assert |s - {a}| == |s| - 1;
      var b :| b in s - {a};
    }
    if a, b :| a in s && b in s && a != b {
      assert |s| == |s - {a, b}| + 2;
    }
  }

  /** The tallied verdicts suffice exactly when the last executions of the plan's tasks do. */
  lemma VerdictsExactly(m: Mission)
    requires AllBelong(m.plan, m.executions) && m.risk >= 0
    ensures VerdictsSuffice(m) <==> WellJudged(m)
  {
    hide LatestTested, LatestReviews, LastTested, LastReviewed, AllBelong;
    TestedExactly(m);
    ReviewedExactly(m);
    TwoMembers(LatestReviews(m.executions));
    assert LatestReviews(m.executions) != {} <==> exists id :: id in LatestReviews(m.executions);
    assert ReviewedTwice(m) <==> exists a, b :: a in LatestReviews(m.executions) && b in LatestReviews(m.executions) && a != b by {
      if j, k :| 0 <= j < |m.plan| && 0 <= k < |m.plan| && m.plan[j].id != m.plan[k].id && LastReviewed(m, j) && LastReviewed(m, k) {
        assert m.plan[j].id in LatestReviews(m.executions) && m.plan[k].id in LatestReviews(m.executions);
      }
    }
    if k :| 0 <= k < |m.plan| && LastReviewed(m, k) {
      assert m.plan[k].id in LatestReviews(m.executions);
    }
  }

  // ---------- the worktrees ----------

  /** The task's artifact is where its execution left it, untouched, and part of the final source. */
  predicate SiteKept(t: Task, s: SiteObs) {
    s.headRead && s.statusRead && s.head == t.artifactHead && !s.dirty && s.covered
  }

  /** Git answered, and the artifact has moved, was edited or is missing from the final source. */
  predicate SiteLost(t: Task, s: SiteObs) {
    s.headRead && s.statusRead && (s.head != t.artifactHead || s.dirty || !s.covered)
  }

  predicate KeptBetween(plan: seq<Task>, sites: seq<SiteObs>, from: nat, to: nat)
    requires to <= |plan| && |sites| == |plan|
  {
    forall j :: from <= j < to ==> SiteKept(plan[j], sites[j])
  }

  lemma {:induction false} WalkExactly(plan: seq<Task>, sites: seq<SiteObs>, from: nat)
    requires from <= |plan| && |sites| == |plan| && AllDone(plan)
    ensures WalkSites(plan, sites, from).Pass? <==> forall k :: from <= k < |plan| ==> SiteKept(plan[k], sites[k])
    ensures WalkSites(plan, sites, from).Reject? <==>
      exists k :: from <= k < |plan| && SiteLost(plan[k], sites[k]) && KeptBetween(plan, sites, from, k)
    decreases |plan| - from
  {
    if from < |plan| {
      WalkExactly(plan, sites, from + 1);
      hide SiteKept, SiteLost;
      if SiteLost(plan[from], sites[from]) {
        assert KeptBetween(plan, sites, from, from);
      }
      if SiteKept(plan[from], sites[from]) {
        forall k | from + 1 <= k <= |plan| ensures KeptBetween(plan, sites, from, k) <==> KeptBetween(plan, sites, from + 1, k) {
        }
      }
    }
  }

  predicate AllKept(m: Mission, o: ConcludeObs)
    requires |o.sites| == |m.plan|
  {
    KeptBetween(m.plan, o.sites, 0, |m.plan|)
  }

  /** Everything before the first unreadable place is kept, and one place is lost. */
  predicate SomeLost(m: Mission, o: ConcludeObs)
    requires |o.sites| == |m.plan|
  {
    exists k :: 0 <= k < |m.plan| && SiteLost(m.plan[k], o.sites[k]) && KeptBetween(m.plan, o.sites, 0, k)
  }

  /** What a concluding call saves, when everything is done. */
  lemma ConclusionExactly(m: Mission, o: ConcludeObs)
    requires Inv(m) && AllDone(m.plan) && |o.sites| == |m.plan|
    ensures Conclusion(m, o) == Some(Completed) <==> o.sourceRead && AllKept(m, o) && WellJudged(m) && o.criteriaSaved
    ensures Conclusion(m, o) == Some(Escalated) <==> o.sourceRead && (SomeLost(m, o) || (AllKept(m, o) && !WellJudged(m)))
    ensures Conclusion(m, o).Some? ==> Conclusion(m, o).value.Completed? || Conclusion(m, o).value.Escalated?
  {
    hide Inv, AllBelong, WellJudged, VerdictsSuffice, LatestLacksEvidence, WalkSites, SiteKept, SiteLost, AllDone;
    WalkExactly(m.plan, o.sites, 0);
    EvidenceNeverLacks(m);
    InvBelong(m);
    VerdictsExactly(m);
  }

  lemma InvBelong(m: Mission)
    requires Inv(m)
    ensures AllBelong(m.plan, m.executions) && 0 <= m.risk <= 4
  {
    hide PlanShape, TasksOk, ExecutionsOk, AllBelong, RunningLinked, CompletedLinked, Started, RetriesRise, StateOk, EscalationOk, OnlyLastRuns;
  }

  // ---------- the concluding step ----------

  /** The risk after this call's reading of the mission's instructions. */
  function RiskNow(m: Mission, assessed: int): int {
    if assessed > m.risk then assessed else m.risk
  }

  /** A risk that only a human may let through: four, or three without both security and integration checks. */
  predicate HumansOnly(m: Mission, risk: int) {
    risk >= 4 || (risk >= 3 && (|m.securityChecks| == 0 || |m.integrationChecks| == 0))
  }

  lemma GateExactly(m: Mission, assessed: int)
    requires Inv(m) && 0 <= assessed <= 4
    ensures NeedsGate(Raised(m, assessed)) <==> HumansOnly(m, RiskNow(m, assessed))
  {
    hide Inv, AllBelong;
    InvBelong(m);
  }

  /** Nothing is over, running or left to do. */
  predicate Spent(m: Mission) {
    !m.state.Completed? && !m.state.Escalated? && AllDone(m.plan)
  }

  lemma SpentExactly(m: Mission)
    requires Inv(m)
    ensures Spent(m) <==> !Terminal(m.state) && NoneRunning(m.plan) && NoneReady(m.plan)
  {
    hide Inv, IsReady;
    if Spent(m) {
      NothingReadyMeansDone(m);
    }
    if !Terminal(m.state) && NoneRunning(m.plan) {
      NothingReadyMeansDone(m);
    }
  }

  /** A mission with all tasks done is the same after rescheduling, but for the risk. */
  lemma DoneConcluding(m: Mission, assessed: int)
    requires AllDone(m.plan)
    ensures Concluding(m, assessed) == m.(risk := RiskNow(m, assessed))
  {
    assert Rescheduled(m.plan) == m.plan;
  }

  lemma RaisedKeeps(m: Mission, assessed: int)
    requires Inv(m) && 0 <= assessed <= 4
    ensures Inv(m.(risk := RiskNow(m, assessed)))
  {
    hide Inv;
    RaisedInv(m, assessed);
    assert Raised(m, assessed) == m.(risk := RiskNow(m, assessed));
  }

  /**
   * Exactly when a concluding call saves a completed mission, and when an escalated one: nothing is
   * left to do, no human is needed, Git can read the final source, and every place is kept and the
   * last verdicts are enough, or else some place is lost or a verdict is missing.
   */
  lemma ConcludesExactly(m: Mission, s: Step)
    requires Inv(m) && s.Conclude? && |s.view.sites| == |m.plan| && 0 <= s.assessed <= 4
    ensures var risk := RiskNow(m, s.assessed);
      var ready := Spent(m) && !HumansOnly(m, risk) && s.view.sourceRead;
      var judged := WellJudged(m.(risk := risk));
      && (Enabled(m, s) && Next(m, s).state.Completed? <==> ready && AllKept(m, s.view) && judged && s.view.criteriaSaved)
      && (Enabled(m, s) && Next(m, s).state.Escalated? <==> ready && (SomeLost(m, s.view) || (AllKept(m, s.view) && !judged)))
      && (Enabled(m, s) ==> Next(m, s) == m.(risk := risk, state := Next(m, s).state))
  {
    hide Inv, WellJudged, HumansOnly, Conclusion, NeedsGate, NoneRunning, NoneReady, AllKept, SomeLost, Spent;
    SpentExactly(m);
    GateExactly(m, s.assessed);
    var n := m.(risk := RiskNow(m, s.assessed));
    if Spent(m) {
      assert AllDone(m.plan) by { SpentIsDone(m); }
      DoneConcluding(m, s.assessed);
      RaisedKeeps(m, s.assessed);
      ConclusionExactly(n, s.view);
      assert AllKept(n, s.view) == AllKept(m, s.view) && SomeLost(n, s.view) == SomeLost(m, s.view) by { SamePlaces(m, n, s.view); }
    }
  }

  lemma SpentIsDone(m: Mission)
    requires Spent(m)
    ensures AllDone(m.plan)
  {
  }

  lemma SamePlaces(m: Mission, n: Mission, o: ConcludeObs)
    requires n.plan == m.plan && |o.sites| == |m.plan|
    ensures AllKept(n, o) == AllKept(m, o) && SomeLost(n, o) == SomeLost(m, o)
  {
    hide SiteKept, SiteLost;
  }

  // ---------- whole runs ----------

  lemma OnlyConclusionsComplete(m: Mission, s: Step)
    requires Enabled(m, s) && Next(m, s).state.Completed?
    ensures s.Conclude?
  {
    hide OwnedId, GoodTaskId, OutcomeOf, IsReady, NeedsGate, Eligible, Conclusion, DepsDone, RepairLead, Retryable, Rescheduled;
  }

  /**
   * In every run a completed mission has all tasks done, a last execution that passed the checks, at
   * any risk one that passed review, at risk three two of different tasks, and no risk a human had to
   * let through.
   */
  lemma CompletedIsJudged(saved: seq<Mission>, steps: seq<Step>, k: nat)
    requires Run(saved, steps) && k < |saved| && saved[k].state.Completed?
    ensures AllDone(saved[k].plan) && WellJudged(saved[k]) && !HumansOnly(saved[k], saved[k].risk)
  {
    hide Inv, Enabled, Next, Created, WellJudged, HumansOnly, AllDone, AllKept, SomeLost, Spent;
    if k == 0 {
      StartsPending(saved, steps);
    } else {
      var m, s := saved[k - 1], steps[k - 1];
      assert Enabled(m, s) && saved[k - 1 + 1] == Next(m, s);
      RunInv(saved, steps, k - 1);
      OnlyConclusionsComplete(m, s);
      ConcludeFits(m, s);
      ConcludesExactly(m, s);
      assert AllDone(m.plan) by { SpentIsDone(m); }
      assert HumansOnly(saved[k], saved[k].risk) == HumansOnly(m, RiskNow(m, s.assessed)) by { SameHumans(m, saved[k]); }
      assert WellJudged(saved[k]) == WellJudged(m.(risk := RiskNow(m, s.assessed))) by { SameVerdicts(saved[k], m.(risk := RiskNow(m, s.assessed))); }
    }
  }

  lemma StartsPending(saved: seq<Mission>, steps: seq<Step>)
    requires Run(saved, steps)
    ensures saved[0].state.Pending?
  {
    hide PlanValid, Enabled, Next;
  }

  lemma ConcludeFits(m: Mission, s: Step)
    requires Enabled(m, s) && s.Conclude?
    ensures |s.view.sites| == |m.plan| && 0 <= s.assessed <= 4
  {
    hide NeedsGate, NoneRunning, NoneReady, Conclusion;
  }

  lemma SameHumans(m: Mission, n: Mission)
    requires n.securityChecks == m.securityChecks && n.integrationChecks == m.integrationChecks
    ensures forall risk :: HumansOnly(n, risk) == HumansOnly(m, risk)
  {
  }

  lemma SameVerdicts(m: Mission, n: Mission)
    requires n.plan == m.plan && n.executions == m.executions && n.risk == m.risk
    ensures WellJudged(n) == WellJudged(m)
  {
    hide LastIndex;
    assert forall k :: 0 <= k < |m.plan| ==> LastTested(m, k) == LastTested(n, k) && LastReviewed(m, k) == LastReviewed(n, k);
    hide LastTested, LastReviewed;
  }
}
