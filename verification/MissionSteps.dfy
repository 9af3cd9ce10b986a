/**
 * Every write that can change a persisted mission, as a step with the outside world's
 * answers as data (internal/app/team.go). One step is one successful save.
 */
module MissionSteps {
  import opened Decimals
  import opened Team
  import opened Scheduler

  // ---------- what the outside world answers ----------

  /** The controller's own commit of the task's edits. */
  datatype CommitObs = CommitObs(read: bool, files: nat, writable: bool, risk: int, committed: bool)

  /** The task worktree after the agent ended. */
  datatype TreeObs = TreeObs(
    listed: bool, statusRead: bool, dirty: bool, writable: bool, risk: int, headRead: bool, head: string, onBranch: bool)

  datatype CheckObs = CheckObs(evidence: string, passed: bool)

  datatype Response = Unavailable | Clean | Findings

  datatype FinishObs = FinishObs(
    commit: CommitObs, tree: TreeObs, checks: seq<CheckObs>, cleanAfter: bool, response: Response, proof: Option<string>)

  datatype SiteObs = SiteObs(headRead: bool, head: string, statusRead: bool, dirty: bool, covered: bool)

  datatype ConcludeObs = ConcludeObs(sourceRead: bool, finalHead: string, sites: seq<SiteObs>, criteriaSaved: bool)

  /** How far the artifact location of a dispatched task got before the next save. */
  datatype Prep = Unprepared | Located(taskId: string) | Headed(taskId: string, head: string)

  // ---------- common pieces ----------

  predicate Terminal(s: State) {
    s.Completed? || s.Escalated?
  }

  function Max(a: int, b: int): int {
    if a > b then a else b
  }

  /** Every advance re-reads the mission's instructions and may only raise the risk. */
  function Raised(m: Mission, assessed: int): Mission {
    m.(risk := Max(m.risk, assessed))
  }

  predicate NeedsGate(m: Mission) {
    m.risk == 4 || (m.risk == 3 && (m.securityChecks == [] || m.integrationChecks == []))
  }

  predicate NoneRunning(plan: seq<Task>) {
    forall k :: 0 <= k < |plan| ==> !plan[k].state.Running?
  }

  predicate IsFirstReady(plan: seq<Task>, i: nat) {
    i < |plan| && IsReady(plan, i) && forall k :: 0 <= k < i ==> !IsReady(plan, k)
  }

  predicate NoneReady(plan: seq<Task>) {
    forall k :: 0 <= k < |plan| ==> !IsReady(plan, k)
  }

  /** Work-item ids are long enough for the eight characters that name a worktree. */
  predicate GoodTaskId(id: string) {
    |id| >= 8
  }

  function OwnedId(id: string, taskId: string, attempt: nat): string
    requires GoodTaskId(taskId)
  {
    id + "-" + taskId[..8] + "-" + Decimal(attempt)
  }

  function WorktreePath(m: Mission, owned: string): string {
    m.worktreeRoot + "/" + m.id + "/" + owned
  }

  function BranchName(m: Mission, owned: string): string {
    m.branchPrefix + "/" + m.id + "/" + owned
  }

  function LastCompleted(execs: seq<Execution>): (r: Option<nat>)
    ensures r.Some? ==> r.value < |execs| && execs[r.value].result.Completed?
    ensures forall j :: 0 <= j < |execs| && execs[j].result.Completed? ==> r.Some? && j <= r.value
  {
    if execs == [] then None
    else if execs[|execs| - 1].result.Completed? then Some(|execs| - 1)
    else LastCompleted(execs[..|execs| - 1])
  }

  // ---------- dispatch ----------

  function Author(provider: string, model: string): string {
    provider + "/" + model
  }

  /** Everyone who implemented something in this mission. */
  function Authors(execs: seq<Execution>): set<string> {
    set j | 0 <= j < |execs| && IsBuild(execs[j].agent) :: Author(execs[j].provider, execs[j].model)
  }

  predicate Independent(execs: seq<Execution>, x: Model) {
    Author(x.provider, x.id) !in Authors(execs)
  }

  predicate SameButEvaluation(a: Model, b: Model) {
    b == a.(evaluation := b.evaluation)
  }

  predicate Reevaluated(a: seq<Model>, b: seq<Model>) {
    |a| == |b| && forall k :: 0 <= k < |a| ==> SameButEvaluation(a[k], b[k])
  }

  /** The mission a dispatch starts from: risk re-read, waiting tasks rescheduled, models re-ranked. */
  function Prepared(m: Mission, assessed: int, models: seq<Model>): Mission {
    Raised(m, assessed).(plan := Rescheduled(m.plan), models := models)
  }

  /** A logical task survives retries; each attempt gets a fresh artifact location. */
  function DispatchedTask(t: Task): Task {
    var clean := if t.attempts > 0 then t.(worktree := "", branch := "", head := "", artifactHead := "") else t;
    clean.(state := Running, attempts := t.attempts + 1)
  }

  function NewExecution(id: string, t: Task, chosen: Model): Execution {
    Execution(id, t.id, t.role, chosen.provider, chosen.id, "", Running, t.attempts - 1, chosen.tier, [], NotRun, NotRun, "", "")
  }

  function Dispatched(m: Mission, i: nat, size: int, chosen: Model, id: string): Mission
    requires i < |m.plan|
  {
    var t := DispatchedTask(m.plan[i].(contextSize := size));
    m.(plan := m.plan[i := t], state := Running, executions := m.executions + [NewExecution(id, t, chosen)])
  }

  function RefusedExecution(id: string, t: Task): Execution {
    Execution(id, t.id, t.role, "", "", "", Escalated, 0, 0, [], Unset, Unset, "", "")
  }

  function Refused(m: Mission, i: nat, size: int, id: string): Mission
    requires i < |m.plan|
  {
    var t := m.plan[i].(contextSize := size, state := Escalated);
    m.(plan := m.plan[i := t], state := Escalated, executions := m.executions + [RefusedExecution(id, t)])
  }

  // ---------- preparing the artifact location ----------

  function LocatedTask(m: Mission, t: Task, taskId: string): Task
    requires GoodTaskId(taskId) && t.attempts >= 0
  {
    var owned := OwnedId(t.id, taskId, t.attempts);
    t.(taskId := taskId, branch := BranchName(m, owned), worktree := WorktreePath(m, owned))
  }

  predicate PrepFits(t: Task, prep: Prep) {
    prep.Unprepared? ||
    (t.attempts >= 0 && t.worktree == "" && t.head == "" && GoodTaskId(prep.taskId) && (t.taskId != "" ==> prep.taskId == t.taskId))
  }

  function WithPrep(m: Mission, i: nat, prep: Prep): Mission
    requires i < |m.plan| && PrepFits(m.plan[i], prep)
  {
    match prep
    case Unprepared => m
    case Located(taskId) => m.(plan := m.plan[i := LocatedTask(m, m.plan[i], taskId)])
    case Headed(taskId, head) => m.(plan := m.plan[i := LocatedTask(m, m.plan[i], taskId).(head := head)])
  }

  // ---------- finishing a task ----------

  datatype Gate = Gate(err: bool, risk: int, artifactHead: string)

  function AfterCommit(m: Mission, err: bool, o: CommitObs): (r: Gate)
    ensures r.risk >= m.risk
  {
    if err || !m.policy.commitTaskChanges then Gate(err, m.risk, "")
    else if !o.read then Gate(true, m.risk, "")
    else if o.files == 0 then Gate(false, m.risk, "")
    else if !o.writable then Gate(true, m.risk, "")
    else
      var risk := Max(m.risk, o.risk);
      Gate(if risk >= 3 then true else !o.committed, risk, "")
  }

  predicate ReadOnly(role: Role) {
    role.Review? || role.Explorer?
  }

  function AfterTree(t: Task, g: Gate, o: TreeObs): (r: Gate)
    ensures r.risk >= g.risk
  {
    if g.err then Gate(true, g.risk, t.artifactHead)
    else
      var err := !o.listed || !o.statusRead || o.dirty || !o.writable || (o.risk > g.risk && o.risk >= 3)
        || !o.headRead || (ReadOnly(t.role) && o.head != t.head) || !o.onBranch;
      Gate(err, Max(g.risk, o.risk), o.head)
  }

  /** Checks run in order until one fails; the evidence of every check that ran is kept. */
  function CheckEvidence(checks: seq<CheckObs>): seq<string> {
    if checks == [] then []
    else
      var first := if checks[0].evidence != "" then [checks[0].evidence] else [];
      first + if checks[0].passed then CheckEvidence(checks[1..]) else []
  }

  predicate ChecksPass(checks: seq<CheckObs>) {
    forall k :: 0 <= k < |checks| ==> checks[k].passed
  }

  datatype Outcome = Outcome(
    err: bool, risk: int, artifactHead: string, test: Verdict, review: Verdict, evidence: seq<string>)

  function OutcomeOf(m: Mission, t: Task, e: Execution, runErr: bool, o: FinishObs): Outcome {
    var g := AfterTree(t, AfterCommit(m, runErr, o.commit), o.tree);
    var tested := !g.err && t.role.Qa?;
    var tests := ChecksPass(o.checks) && o.cleanAfter;
    var reviewed := !g.err && t.role.Review?;
    var err := g.err || (tested && !tests) || (reviewed && !o.response.Clean?);
    Outcome(
      err || o.proof.None?, g.risk, g.artifactHead,
      if tested then (if tests then Passed else Rejected) else e.test,
      if reviewed then (if o.response.Clean? then Passed else Rejected) else e.review,
      e.evidence + (if tested then CheckEvidence(o.checks) else []) + (if o.proof.Some? then [o.proof.value] else []))
  }

  function FinishedTask(t: Task, out: Outcome): Task {
    t.(artifactHead := out.artifactHead,
       state := if !out.err then Completed else if t.attempts < t.maxAttempts then Retry else Escalated)
  }

  function FinishedExecution(e: Execution, t: Task, out: Outcome): Execution {
    e.(result := if out.err then Failed else Completed, test := out.test, review := out.review,
       evidence := out.evidence, worktree := t.worktree, head := out.artifactHead)
  }

  function Recorded(m: Mission, i: nat, j: nat, out: Outcome): Mission
    requires i < |m.plan| && j < |m.executions|
  {
    var t := FinishedTask(m.plan[i], out);
    m.(risk := out.risk, plan := m.plan[i := t],
       executions := m.executions[j := FinishedExecution(m.executions[j], m.plan[i], out)],
       state := if !out.err then Pending else t.state)
  }

  predicate CanRepair(t: Task) {
    t.role.Lead? && t.attempts < t.maxAttempts
  }

  /** The first lead with an attempt left. */
  function RepairLead(plan: seq<Task>, from: nat): (r: Option<nat>)
    requires from <= |plan|
    ensures r.Some? ==> from <= r.value < |plan| && CanRepair(plan[r.value])
    ensures r.Some? ==> forall k :: from <= k < r.value ==> !CanRepair(plan[k])
    ensures r.None? ==> forall k :: from <= k < |plan| ==> !CanRepair(plan[k])
    decreases |plan| - from
  {
    if from == |plan| then None else if CanRepair(plan[from]) then Some(from) else RepairLead(plan, from + 1)
  }

  function ClearedTask(t: Task, s: State): Task {
    t.(state := s, worktree := "", branch := "", head := "", artifactHead := "")
  }

  function RepairedTask(t: Task, isLead: bool): Task {
    if isLead then ClearedTask(t, Retry)
    else if t.role.Qa? || t.role.Review? then ClearedTask(t, Pending)
    else t
  }

  /** Work returns to the lead, and every QA and review task starts over. */
  function Repaired(m: Mission, lead: nat): Mission {
    m.(fixCycles := m.fixCycles + 1, state := Retry,
       plan := seq(|m.plan|, k requires 0 <= k < |m.plan| => RepairedTask(m.plan[k], k == lead)))
  }

  predicate WantsRepair(m: Mission, i: nat, out: Outcome)
    requires i < |m.plan|
  {
    out.err && m.plan[i].role.Review? && out.review.Rejected? && m.fixCycles < m.budget.maxFixes && out.risk < 4
  }

  function Finished(m: Mission, i: nat, j: nat, out: Outcome): Mission
    requires i < |m.plan| && j < |m.executions|
  {
    var recorded := Recorded(m, i, j, out);
    if WantsRepair(m, i, out) && RepairLead(recorded.plan, 0).Some?
    then Repaired(recorded, RepairLead(recorded.plan, 0).value)
    else recorded
  }

  // ---------- concluding a mission ----------

  datatype Walk = Pass | Stop | Reject

  /** Every artifact is still where its execution left it and is contained in the final source. */
  function WalkSites(plan: seq<Task>, sites: seq<SiteObs>, from: nat): Walk
    requires from <= |plan| && |sites| == |plan|
    decreases |plan| - from
  {
    if from == |plan| then Pass
    else if !plan[from].state.Completed? then Stop
    else if !sites[from].headRead || !sites[from].statusRead then Stop
    else if sites[from].head != plan[from].artifactHead || sites[from].dirty then Reject
    else if !sites[from].covered then Reject
    else WalkSites(plan, sites, from + 1)
  }

  function Latest(execs: seq<Execution>): map<string, Execution> {
    if execs == [] then map[]
    else
      var last := execs[|execs| - 1];
      Latest(execs[..|execs| - 1])[last.taskId := last]
  }

  predicate LatestLacksEvidence(execs: seq<Execution>) {
    exists id :: id in Latest(execs) && Latest(execs)[id].result.Completed? && Latest(execs)[id].evidence == []
  }

  predicate LatestTested(execs: seq<Execution>) {
    exists id :: id in Latest(execs) && Latest(execs)[id].test.Passed?
  }

  function LatestReviews(execs: seq<Execution>): set<string> {
    set id | id in Latest(execs) && Latest(execs)[id].review.Passed?
  }

  predicate VerdictsSuffice(m: Mission) {
    && LatestTested(m.executions)
    && (m.risk == 0 || LatestReviews(m.executions) != {})
    && (m.risk == 3 ==> |LatestReviews(m.executions)| >= 2)
  }

  /** The state a concluding call saves, or none when it saves nothing. */
  function Conclusion(m: Mission, o: ConcludeObs): Option<State>
    requires |o.sites| == |m.plan|
  {
    if !o.sourceRead then None
    else
      match WalkSites(m.plan, o.sites, 0)
      case Stop => None
      case Reject => Some(Escalated)
      case Pass =>
        if LatestLacksEvidence(m.executions) then None
        else if !VerdictsSuffice(m) then Some(Escalated)
        else if o.criteriaSaved then Some(Completed)
        else None
  }

  // ---------- retrying ----------

  predicate Retryable(t: Task) {
    t.state.Escalated? && t.attempts < t.maxAttempts
  }

  predicate CanRetry(m: Mission) {
    m.risk < 3 && m.state.Escalated? && exists k :: 0 <= k < |m.plan| && Retryable(m.plan[k])
  }

  function RetriedTask(t: Task): Task {
    if Retryable(t) then t.(state := Retry) else t
  }

  function Retried(m: Mission): Mission {
    m.(state := Retry, plan := seq(|m.plan|, k requires 0 <= k < |m.plan| => RetriedTask(m.plan[k])))
  }

  // ---------- steps ----------

  datatype Step =
    | EscalateRisk(assessed: int)
    | Refuse(assessed: int, models: seq<Model>, index: nat, size: int, id: string)
    | Dispatch(assessed: int, models: seq<Model>, index: nat, size: int, available: map<string, bool>, chosen: Model, id: string)
    | Prepare(index: nat, prep: Prep)
    | Attach(sessionId: string)
    | Finish(assessed: int, index: nat, prep: Prep, runErr: bool, obs: FinishObs)
    | Abandon(index: nat)
    | Conclude(assessed: int, view: ConcludeObs)
    | RetryMission

  /** The execution being run and the plan task it names. */
  predicate RunsTask(m: Mission, i: nat) {
    && !Terminal(m.state)
    && i < |m.plan| && m.plan[i].state.Running?
    && m.executions != []
    && m.executions[|m.executions| - 1].result.Running?
    && m.executions[|m.executions| - 1].taskId == m.plan[i].id
  }

  predicate CanDispatch(m: Mission, assessed: int, models: seq<Model>, i: nat, size: int) {
    && !Terminal(m.state) && 0 <= assessed <= 4 && !NeedsGate(Raised(m, assessed))
    && NoneRunning(m.plan) && IsFirstReady(m.plan, i)
    && Reevaluated(m.models, models) && size >= m.plan[i].contextSize
  }

  predicate RiskObserved(o: FinishObs) {
    0 <= o.commit.risk <= 4 && 0 <= o.tree.risk <= 4
  }

  predicate Enabled(m: Mission, s: Step) {
    match s
    case EscalateRisk(assessed) => !Terminal(m.state) && 0 <= assessed <= 4 && NeedsGate(Raised(m, assessed))
    case Refuse(assessed, models, i, size, id) => CanDispatch(m, assessed, models, i, size)
    case Dispatch(assessed, models, i, size, available, chosen, id) =>
      && CanDispatch(m, assessed, models, i, size)
      && |m.executions| < m.budget.maxExecutions
      && m.budget.maxCost.None? && m.budget.maxTokens <= 0
      && Eligible(Raised(m, assessed), m.plan[i].(contextSize := size), available, chosen)
      && chosen.tier <= 2
      && (m.plan[i].role.Review? && m.policy.requireDifferentReviewModel ==> Independent(m.executions, chosen))
    case Prepare(i, prep) => RunsTask(m, i) && PrepFits(m.plan[i], prep)
    case Attach(sessionId) => m.executions != [] && !Terminal(m.state) && m.executions[|m.executions| - 1].result.Running?
    case Finish(assessed, i, prep, runErr, o) =>
      && RunsTask(m, i) && 0 <= assessed <= 4 && RiskObserved(o)
      && PrepFits(m.plan[i], prep)
      && (!runErr ==> prep.Unprepared? && m.plan[i].worktree != "" && m.plan[i].head != "")
      && (o.tree.headRead ==> o.tree.head != "")
      && |o.checks| == |m.checks| + |m.integrationChecks| + |m.securityChecks|
    case Abandon(i) =>
      && m.executions != [] && i < |m.plan|
      && m.executions[|m.executions| - 1].result.Failed?
      && m.executions[|m.executions| - 1].taskId == m.plan[i].id
      && m.state == m.plan[i].state && (m.state.Retry? || m.state.Escalated?)
    case Conclude(assessed, o) =>
      && !Terminal(m.state) && 0 <= assessed <= 4
      && !NeedsGate(Raised(m, assessed))
      && NoneRunning(m.plan) && NoneReady(m.plan)
      && |o.sites| == |m.plan|
      && Conclusion(Concluding(m, assessed), o).Some?
    case RetryMission => CanRetry(m)
  }

  function Concluding(m: Mission, assessed: int): Mission {
    Raised(m, assessed).(plan := Rescheduled(m.plan))
  }

  function Next(m: Mission, s: Step): Mission
    requires Enabled(m, s)
  {
    match s
    case EscalateRisk(assessed) => Raised(m, assessed).(state := Escalated)
    case Refuse(assessed, models, i, size, id) => Refused(Prepared(m, assessed, models), i, size, id)
    case Dispatch(assessed, models, i, size, available, chosen, id) =>
      Dispatched(Prepared(m, assessed, models), i, size, chosen, id)
    case Prepare(i, prep) => WithPrep(m, i, prep)
    case Attach(sessionId) =>
      var j := |m.executions| - 1;
      m.(executions := m.executions[j := m.executions[j].(sessionId := sessionId)])
    case Finish(assessed, i, prep, runErr, o) =>
      var base := WithPrep(Raised(m, assessed), i, prep);
      var j := |m.executions| - 1;
      Finished(base, i, j, OutcomeOf(base, base.plan[i], base.executions[j], runErr, o))
    case Abandon(i) => m.(plan := m.plan[i := m.plan[i].(state := Escalated)], state := Escalated)
    case Conclude(assessed, o) => Concluding(m, assessed).(state := Conclusion(Concluding(m, assessed), o).value)
    case RetryMission => Retried(m)
  }

  /** A mission as creation saves it. */
  ghost predicate Created(m: Mission) {
    && PlanValid(m.plan, m.risk) && 0 <= m.risk <= 4
    && 1 <= m.budget.maxExecutions <= 300 && 0 <= m.budget.maxFixes <= 3
    && 1 <= |m.checks| <= 20
    && m.fixCycles == 0 && m.executions == [] && m.state.Pending?
    && TiersOk(m.models)
    && forall k :: 0 <= k < |m.plan| ==> FreshTask(m.plan[k])
  }

  predicate TiersOk(models: seq<Model>) {
    forall k :: 0 <= k < |models| ==> 0 <= models[k].tier <= 2
  }

  predicate FreshTask(t: Task) {
    t.state.Pending? && t.attempts == 0 && t.taskId == "" && t.worktree == "" && t.branch == "" && t.head == "" && t.artifactHead == ""
  }

  /** A run: every saved version of one mission, and the step that produced each from the one before. */
  ghost predicate Run(saved: seq<Mission>, steps: seq<Step>) {
    && |saved| == |steps| + 1
    && Created(saved[0])
    && forall k :: 0 <= k < |steps| ==> Enabled(saved[k], steps[k]) && saved[k + 1] == Next(saved[k], steps[k])
  }
}
