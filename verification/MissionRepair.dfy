/** When exactly a repair is the next thing to run, and a valid plan on which it is not. */
module MissionRepair {
  import opened Graph
  import opened Team
  import opened Scheduler
  import opened MissionSteps
  import opened MissionInvariant
  import opened MissionOrder
  import opened MissionOutcome

  /** Task `k` names, as a direct dependency, the repaired lead or another task the repair restarts. */
  predicate HeldBack(plan: seq<Task>, k: nat, lead: nat)
    requires k < |plan| && lead < |plan|
  {
    exists j :: 0 <= j < |plan| && plan[j].id in plan[k].dependsOn && (j == lead || Redone(plan[j].role))
  }

  /** The work around a review: everything but QA and review is done. */
  predicate WorkDone(plan: seq<Task>) {
    forall k :: 0 <= k < |plan| && !Redone(plan[k].role) ==> plan[k].state.Completed?
  }

  lemma NotReadyWhileHeld(plan: seq<Task>, k: nat, j: nat)
    requires UniqueIds(plan) && k < |plan| && j < |plan| && plan[j].id in plan[k].dependsOn && !plan[j].state.Completed?
    ensures !IsReady(plan, k)
  {
    hide States;
    StatesAt(plan, j);
  }

  lemma LeadHasNoRedoneDependency(plan: seq<Task>, lead: nat, j: nat)
    requires PlanShape(plan) && lead < |plan| && plan[lead].role.Lead? && j < |plan| && plan[j].id in plan[lead].dependsOn
    ensures !Redone(plan[j].role) && j != lead
  {
    hide PlanGraph, Reaches, Grounded, HasRole;
    if Redone(plan[j].role) {
      NoBackEdge(plan, lead, j, Qa);
    }
    if j == lead {
      PlanGraphAt(plan, lead);
      ReachesEdge(PlanGraph(plan), plan[lead].id, plan[lead].id);
    }
  }

  lemma ShapeFacts(plan: seq<Task>)
    requires PlanShape(plan)
    ensures UniqueIds(plan) && Grounded(PlanGraph(plan))
  {
    hide UniqueIds, Grounded, Cyclic, OrderRules, HasRole;
  }

  /** Every direct dependency of task `k` is finished work that a repair by `lead` leaves alone. */
  predicate Unblocked(plan: seq<Task>, k: nat, lead: nat)
    requires k < |plan|
  {
    forall j :: 0 <= j < |plan| && plan[j].id in plan[k].dependsOn ==> plan[j].state.Completed? && j != lead && !Redone(plan[j].role)
  }

  /** Task `k` waits once the repair has started. */
  predicate WaitsThen(plan: seq<Task>, k: nat)
    requires k < |plan|
  {
    Redone(plan[k].role) || Schedulable(plan[k].state)
  }

  lemma ReadyAfterRepair(m: Mission, lead: nat, k: nat)
    requires PlanShape(m.plan) && lead < |m.plan| && m.plan[lead].role.Lead? && k < |m.plan|
    ensures |Repaired(m, lead).plan| == |m.plan|
    ensures IsReady(Repaired(m, lead).plan, k) <==> (k == lead || WaitsThen(m.plan, k)) && Unblocked(m.plan, k, lead)
  {
    hide PlanShape, States, UniqueIds;
    var n := Repaired(m, lead);
    ShapeKept(m.plan, n.plan);
    ShapeFacts(n.plan);
    if j :| 0 <= j < |m.plan| && m.plan[j].id in m.plan[k].dependsOn && !(m.plan[j].state.Completed? && j != lead && !Redone(m.plan[j].role)) {
      NotReadyWhileHeld(n.plan, k, j);
    } else if k == lead || WaitsThen(m.plan, k) {
      DoneMeansReady(n.plan, k);
    }
  }

  /**
   * Once a repair cycle has started, whatever else of the plan is still unfinished, the repaired lead is
   * dispatched next if and only if nothing it names is unfinished or restarted, and everything listed
   * before it that waits names something that is.
   */
  lemma RepairRunsNext(m: Mission, lead: nat)
    requires PlanShape(m.plan) && lead < |m.plan| && m.plan[lead].role.Lead?
    ensures IsFirstReady(Repaired(m, lead).plan, lead)
      <==> Unblocked(m.plan, lead, lead) && forall k :: 0 <= k < lead && WaitsThen(m.plan, k) ==> !Unblocked(m.plan, k, lead)
  {
    hide PlanShape, Unblocked, WaitsThen, IsReady;
    ReadyAfterRepair(m, lead, lead);
    forall k | 0 <= k < lead
      ensures IsReady(Repaired(m, lead).plan, k) <==> WaitsThen(m.plan, k) && Unblocked(m.plan, k, lead)
    {
      ReadyAfterRepair(m, lead, k);
    }
  }

  /** Over finished work only the plan decides: every QA or review task listed before the lead must wait, directly, for it or for another restarted task. */
  lemma RepairRunsNextByPlan(m: Mission, lead: nat)
    requires PlanShape(m.plan) && WorkDone(m.plan) && lead < |m.plan| && m.plan[lead].role.Lead?
    ensures IsFirstReady(Repaired(m, lead).plan, lead)
      <==> forall k :: 0 <= k < lead && Redone(m.plan[k].role) ==> HeldBack(m.plan, k, lead)
  {
    hide PlanShape, IsReady;
    RepairRunsNext(m, lead);
    hide Repaired, IsFirstReady;
    forall j | 0 <= j < |m.plan| && m.plan[j].id in m.plan[lead].dependsOn ensures !Redone(m.plan[j].role) && j != lead {
      LeadHasNoRedoneDependency(m.plan, lead, j);
    }
    forall k | 0 <= k < lead ensures WaitsThen(m.plan, k) && Unblocked(m.plan, k, lead) <==> Redone(m.plan[k].role) && !HeldBack(m.plan, k, lead) {
    }
  }

  /** So on plans that order their leads, and on no others, a repair over finished work always runs before it is verified. */
  lemma OrderedLeadsExactly(m: Mission, lead: nat)
    requires PlanShape(m.plan) && WorkDone(m.plan) && lead < |m.plan| && m.plan[lead].role.Lead?
    ensures IsFirstReady(Repaired(m, lead).plan, lead)
      <==> forall k :: 0 <= k < |m.plan| && NeedsPrecedence(m.plan[lead].role, m.plan[k].role) ==> Precedes(m.plan, lead, k)
  {
    hide PlanShape, IsFirstReady, WorkDone;
    RepairRunsNextByPlan(m, lead);
    assert UniqueIds(m.plan) by { ShapeFacts(m.plan); }
    forall k | 0 <= k < lead && Redone(m.plan[k].role) ensures HeldBack(m.plan, k, lead) <==> Precedes(m.plan, lead, k) {
      if HeldBack(m.plan, k, lead) {
        var j :| 0 <= j < |m.plan| && m.plan[j].id in m.plan[k].dependsOn && (j == lead || Redone(m.plan[j].role));
        assert j != lead ==> Shielded(m.plan, lead, k);
      }
    }
  }

  // ---------- a plan on which verification overtakes the repair ----------

  /** QA is listed first and waits for the lead only through the frontend task. */
  function OvertakingPlan(): seq<Task> {
    [NewTask("q", Qa, ["f"], "testing", 3), NewTask("r", Review, ["q"], "review", 3),
     NewTask("l", Lead, [], "coding", 3), NewTask("f", Frontend, ["l"], "frontend", 3)]
  }

  function OvertakingRank(id: string): int {
    if id == "l" then 0 else if id == "f" then 1 else if id == "q" then 2 else 3
  }

  lemma OvertakingGraph()
    ensures PlanGraph(OvertakingPlan()) == map["q" := ["f"], "r" := ["q"], "l" := [], "f" := ["l"]]
  {
    var q, r := NewTask("q", Qa, ["f"], "testing", 3), NewTask("r", Review, ["q"], "review", 3);
    var l, f := NewTask("l", Lead, [], "coding", 3), NewTask("f", Frontend, ["l"], "frontend", 3);
    assert PlanGraph([]) == map[] by { EmptyPlanGraph(); }
    hide PlanGraph;
    PlanGraphSnoc([], q);
    PlanGraphSnoc([q], r);
    PlanGraphSnoc([q, r], l);
    PlanGraphSnoc([q, r, l], f);
    assert [] + [q] == [q] && [q] + [r] == [q, r] && [q, r] + [l] == [q, r, l];
    assert OvertakingPlan() == [q, r, l] + [f];
  }

  lemma OvertakingShape()
    ensures PlanShape(OvertakingPlan()) && OrderRules(OvertakingPlan())
  {
    var plan := OvertakingPlan();
    var g := PlanGraph(plan);
    OvertakingGraph();
    hide PlanGraph, Reaches;
    RankedIsAcyclic(g, OvertakingRank);
    ReachesEdge(g, "q", "f");
    ReachesEdge(g, "f", "l");
    ReachesTransitive(g, "q", "f", "l");
    ReachesEdge(g, "r", "q");
    assert plan[0].role == Qa && plan[2].role == Lead;
  }

  lemma OvertakingValid()
    ensures PlanValid(OvertakingPlan(), 1) && !Ordered(OvertakingPlan())
  {
    var plan := OvertakingPlan();
    OvertakingShape();
    hide PlanGraph, Reaches, Grounded, Cyclic, OrderRules;
    assert plan[0].role == Qa && plan[1].role == Review && plan[2].role == Lead;
    assert !Precedes(plan, 2, 0);
    NewTaskOk("q", Qa, ["f"], "testing", 3, 7);
    NewTaskOk("r", Review, ["q"], "review", 3, 6);
    NewTaskOk("l", Lead, [], "coding", 3, 0);
    NewTaskOk("f", Frontend, ["l"], "frontend", 3, 3);
    hide TaskFieldsOk;
  }

  /**
   * The plan passes validation, yet after a repair cycle QA is dispatched ahead of the repaired lead
   * and checks the unrepaired source.
   */
  lemma VerificationOvertakesRepair(m: Mission)
    requires SamePlanShape(OvertakingPlan(), m.plan) && WorkDone(m.plan)
    ensures PlanValid(OvertakingPlan(), 1) && !Ordered(OvertakingPlan())
    ensures var n := Repaired(m, 2).plan;
      IsFirstReady(n, 0) && n[0].role.Qa? && n[2].role.Lead? && !n[2].state.Completed?
  {
    OvertakingValid();
    OvertakingShape();
    hide PlanShape, IsReady, PlanValid, Ordered;
    ShapeKept(OvertakingPlan(), m.plan);
    assert SameShape(OvertakingPlan()[0], m.plan[0]) && SameShape(OvertakingPlan()[1], m.plan[1])
      && SameShape(OvertakingPlan()[2], m.plan[2]) && SameShape(OvertakingPlan()[3], m.plan[3]);
    assert Unblocked(m.plan, 0, 2);
    ReadyAfterRepair(m, 2, 0);
  }
}
