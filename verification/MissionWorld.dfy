/**
 * A mission among the tables its calls write besides it: work items, recorded checks and acceptance
 * criteria. Each write is an event of its own, so a crash or a failed write may fall between any two
 * of them (internal/app/team.go, internal/app/app.go, internal/app/release.go).
 */
module MissionWorld {
  import opened Team
  import opened MissionSteps
  import opened MissionInvariant
  import opened MissionOrder
  import E = Evidence
  import W = WorkItems

  /** One recorded run of one configured check, bound to the QA attempt that made it. */
  datatype CheckRun = CheckRun(
    proofId: string, runId: string, executionId: string, planTaskId: string, taskId: string, attempt: int, checkIndex: nat,
    passed: bool, created: int, workingDir: string, before: E.Site, after: E.Site, verified: bool)

  /** A work item of the mission's requirement, with the worktree linked to it. */
  datatype Item = Item(status: W.Status, worktree: string)

  /**
   * A mission, every check recorded for it, the work items and criteria of its requirement and the
   * criteria that got a passing proof. `made` is the item created for the running attempt while no
   * save has recorded it.
   */
  datatype World = World(
    m: Mission, log: seq<CheckRun>, items: map<string, Item>, made: Option<string>, criteria: seq<E.Criterion>, accepted: seq<string>)

  datatype Event =
    | Saves(step: Step)
    | Checks(index: nat, run: CheckRun)
    | Creates(index: nat, id: string)
    | Links(index: nat)
    | Starts(index: nat)
    | Completes(index: nat)
    | Resets(review: nat, index: nat)
    | Accepts(criterion: nat, assessed: int, view: ConcludeObs)
    | Satisfies(criterion: nat, assessed: int, view: ConcludeObs)

  /** The repository as inspection reports it: all worktrees of a mission belong to one repository. */
  datatype Git = Git(repository: string, top: string -> string)

  function Commands(m: Mission): seq<string> {
    m.checks + m.integrationChecks + m.securityChecks
  }

  // ---------- recorded checks ----------

  predicate Of(t: Task, r: CheckRun) {
    r.planTaskId == t.id && r.attempt == t.attempts
  }

  predicate HasCheck(t: Task, log: seq<CheckRun>, c: nat) {
    exists x :: 0 <= x < |log| && Of(t, log[x]) && log[x].checkIndex == c
  }

  /** A passing check pins the worktree it ran in, unchanged and clean. */
  predicate RecordOk(git: Git, commands: nat, r: CheckRun) {
    && r.proofId != "" && r.runId != "" && r.executionId != "" && r.planTaskId != "" && r.taskId != "" && r.attempt >= 1 && r.checkIndex < commands
    && (r.passed ==>
          && r.verified && r.before == r.after && r.before.clean && r.before.commit != ""
          && r.before.repository == git.repository && r.before.worktree == git.top(r.workingDir))
  }

  /** The checks recorded in the attempt a QA finish completes are those the finish went through. */
  predicate Reported(m: Mission, log: seq<CheckRun>, s: Step)
    requires s.Finish? && s.index < |m.plan|
  {
    var t := m.plan[s.index];
    t.role.Qa? && !s.runErr && ChecksPass(s.obs.checks) ==>
      && (forall x :: 0 <= x < |log| && Of(t, log[x]) ==> log[x].passed && log[x].before.commit == s.obs.tree.head && log[x].workingDir == t.worktree)
      && (forall c :: 0 <= c < |s.obs.checks| ==> HasCheck(t, log, c))
  }

  predicate NewProof(log: seq<CheckRun>, r: CheckRun) {
    forall x :: 0 <= x < |log| ==> log[x].proofId != r.proofId
  }

  // ---------- work items ----------

  /** The item of a running task: the one its mission has recorded, or the one just created for it. */
  predicate HasItem(w: World, t: Task, id: string) {
    && GoodTaskId(id) && id in w.items
    && (if t.taskId != "" then id == t.taskId else w.made == Some(id))
  }

  /** The item is linked to this attempt's own worktree. */
  predicate IsLinked(w: World, t: Task, id: string) {
    HasItem(w, t, id) && t.attempts >= 0 && w.items[id].worktree == LocatedTask(w.m, t, id).worktree
  }

  function ItemId(w: World, t: Task): string {
    if t.taskId != "" then t.taskId else if w.made.Some? then w.made.value else ""
  }

  /** Task `i` runs and its location has not been saved yet. */
  predicate Unplaced(w: World, i: nat) {
    RunsTask(w.m, i) && w.m.plan[i].worktree == ""
  }

  predicate IsDone(w: World, id: string) {
    id in w.items && w.items[id].status.Done?
  }

  predicate IsTodo(w: World, id: string) {
    id in w.items && w.items[id].status.Todo?
  }

  /** A repair restarts the lead `lead` and, as far as they have items, all QA and review tasks. */
  predicate Restarts(plan: seq<Task>, lead: nat, k: nat) {
    k < |plan| && (k == lead || (Redone(plan[k].role) && plan[k].taskId != ""))
  }

  predicate Repairs(m: Mission, s: Step) {
    Enabled(m, s) && Next(m, s).fixCycles > m.fixCycles
  }

  /** The item writes a call makes before a save. */
  predicate ItemsWritten(w: World, s: Step)
    requires Enabled(w.m, s)
  {
    match s
    case Prepare(i, prep) =>
      prep.Headed? && IsLinked(w, w.m.plan[i], prep.taskId) && w.items[prep.taskId].status.InProgress?
    case Finish(_, i, prep, _, _) =>
      && i < |w.m.plan| && i < |Next(w.m, s).plan|
      && (!prep.Unprepared? ==> HasItem(w, w.m.plan[i], prep.taskId))
      && (Next(w.m, s).plan[i].state.Completed? ==> IsDone(w, w.m.plan[i].taskId))
      && (Repairs(w.m, s) && RepairLead(w.m.plan, 0).Some? ==>
            forall k :: 0 <= k < |w.m.plan| && Restarts(w.m.plan, RepairLead(w.m.plan, 0).value, k) ==> IsTodo(w, w.m.plan[k].taskId))
    case _ => true
  }

  // ---------- criteria ----------

  /** A concluding call has decided that the mission is complete. */
  predicate Decided(m: Mission, assessed: int, view: ConcludeObs) {
    Enabled(m, Conclude(assessed, view)) && Next(m, Conclude(assessed, view)).state.Completed?
  }

  predicate CriteriaMet(w: World) {
    forall c :: 0 <= c < |w.criteria| ==> w.criteria[c].satisfied && w.criteria[c].id in w.accepted
  }

  // ---------- events ----------

  predicate MaySave(w: World, s: Step, anc: (string, string) -> bool) {
    && Enabled(w.m, s) && Honest(w.m, s, anc)
    && (s.Finish? ==> s.index < |w.m.plan| && Reported(w.m, w.log, s))
    && ItemsWritten(w, s)
    && (Next(w.m, s).state.Completed? ==> CriteriaMet(w))
  }

  predicate Possible(w: World, ev: Event, anc: (string, string) -> bool, git: Git) {
    match ev
    case Saves(s) => MaySave(w, s, anc)
    case Checks(i, r) =>
      && RunsTask(w.m, i) && w.m.plan[i].role.Qa? && w.m.plan[i].worktree != "" && NewProof(w.log, r)
      && Of(w.m.plan[i], r) && r.taskId == w.m.plan[i].taskId && RecordOk(git, |Commands(w.m)|, r)
    case Creates(i, id) =>
      Unplaced(w, i) && w.m.plan[i].taskId == "" && w.made.None? && GoodTaskId(id) && id !in w.items
    case Links(i) =>
      && Unplaced(w, i) && HasItem(w, w.m.plan[i], ItemId(w, w.m.plan[i])) && w.m.plan[i].attempts >= 0
      && (w.items[ItemId(w, w.m.plan[i])].worktree == "" || w.m.plan[i].attempts > 1)
    case Starts(i) => Unplaced(w, i) && IsLinked(w, w.m.plan[i], ItemId(w, w.m.plan[i]))
    case Completes(i) => RunsTask(w.m, i) && w.m.plan[i].worktree != "" && w.m.plan[i].taskId in w.items
    case Resets(i, k) =>
      && RunsTask(w.m, i) && w.m.plan[i].role.Review? && w.m.plan[i].worktree != ""
      && w.m.fixCycles < w.m.budget.maxFixes && w.m.risk < 4
      && RepairLead(w.m.plan, 0).Some? && Restarts(w.m.plan, RepairLead(w.m.plan, 0).value, k) && w.m.plan[k].taskId in w.items
    case Accepts(c, assessed, view) => c < |w.criteria| && Decided(w.m, assessed, view)
    case Satisfies(c, assessed, view) => c < |w.criteria| && Decided(w.m, assessed, view) && w.criteria[c].id in w.accepted
  }

  function WithStatus(w: World, id: string, s: W.Status): World
    requires id in w.items
  {
    w.(items := w.items[id := w.items[id].(status := s)])
  }

  function Moved(w: World, ev: Event, anc: (string, string) -> bool, git: Git): World
    requires Possible(w, ev, anc, git)
  {
    match ev
    case Saves(s) => w.(m := Next(w.m, s), made := None)
    case Checks(_, r) => w.(log := w.log + [r])
    case Creates(i, id) => w.(items := w.items[id := Item(W.Todo, "")], made := Some(id))
    case Links(i) =>
      var t, id := w.m.plan[i], ItemId(w, w.m.plan[i]);
      var status := if w.items[id].status.Todo? then W.InProgress else w.items[id].status;
      w.(items := w.items[id := Item(status, LocatedTask(w.m, t, id).worktree)])
    case Starts(i) => WithStatus(w, ItemId(w, w.m.plan[i]), W.InProgress)
    case Completes(i) => WithStatus(w, w.m.plan[i].taskId, W.Done)
    case Resets(_, k) => WithStatus(w, w.m.plan[k].taskId, W.Todo)
    case Accepts(c, _, _) => w.(accepted := w.accepted + [w.criteria[c].id])
    case Satisfies(c, _, _) => w.(criteria := w.criteria[c := w.criteria[c].(satisfied := true)])
  }

  predicate Follows(w: World, ev: Event, next: World, anc: (string, string) -> bool, git: Git) {
    Possible(w, ev, anc, git) && next == Moved(w, ev, anc, git)
  }

  /** What mission creation leaves: criteria nobody has proven, and nothing else yet. */
  ghost predicate Fresh(w: World) {
    && Created(w.m) && w.log == [] && w.items == map[] && w.made.None? && w.accepted == []
    && w.criteria != [] && forall c :: 0 <= c < |w.criteria| ==> w.criteria[c].id != "" && !w.criteria[c].satisfied
  }

  ghost predicate WorldRun(worlds: seq<World>, events: seq<Event>, anc: (string, string) -> bool, git: Git) {
    && |worlds| == |events| + 1 && Fresh(worlds[0])
    && forall k :: 0 <= k < |events| ==> Follows(worlds[k], events[k], worlds[k + 1], anc, git)
  }

  // ---------- the mission's own run inside it ----------

  lemma RunOf(worlds: seq<World>, events: seq<Event>, anc: (string, string) -> bool, git: Git, n: nat) returns (saved: seq<Mission>, steps: seq<Step>)
    requires WorldRun(worlds, events, anc, git) && n < |worlds|
    ensures HonestRun(saved, steps, anc) && saved[0] == worlds[0].m && saved[|steps|] == worlds[n].m
  {
    hide Created, Enabled, Next, Honest;
    if n == 0 {
      saved, steps := [worlds[0].m], [];
    } else {
      saved, steps := RunOf(worlds, events, anc, git, n - 1);
      assert Follows(worlds[n - 1], events[n - 1], worlds[n - 1 + 1], anc, git);
      if events[n - 1].Saves? {
        SavedExtends(saved, steps, worlds[n - 1], events[n - 1], anc, git);
        saved, steps := saved + [worlds[n].m], steps + [events[n - 1].step];
      } else {
        OthersKeep(worlds[n - 1], events[n - 1], anc, git);
      }
    }
  }

  lemma OthersKeep(w: World, ev: Event, anc: (string, string) -> bool, git: Git)
    requires Possible(w, ev, anc, git) && !ev.Saves?
    ensures Moved(w, ev, anc, git).m == w.m
  {
    hide RunsTask, Decided, LocatedTask, RecordOk;
  }

  lemma SavedExtends(saved: seq<Mission>, steps: seq<Step>, w: World, ev: Event, anc: (string, string) -> bool, git: Git)
    requires HonestRun(saved, steps, anc) && saved[|steps|] == w.m && Possible(w, ev, anc, git) && ev.Saves?
    ensures HonestRun(saved + [Moved(w, ev, anc, git).m], steps + [ev.step], anc)
  {
    hide Created, Enabled, Next, Honest, ItemsWritten, Reported, CriteriaMet;
  }
}
