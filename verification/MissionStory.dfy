/** Runs of a whole world told event by event, attempt by attempt. */
module MissionStory {
  import opened Team
  import opened MissionSteps
  import opened MissionInvariant
  import opened MissionOrder
  import opened MissionWorld
  import opened MissionItems
  import opened MissionScript
  import E = Evidence
  import W = WorkItems

  /** A run so far. */
  datatype Story = Story(worlds: seq<World>, events: seq<Event>)

  ghost predicate Told(s: Story, anc: (string, string) -> bool, git: Git) {
    WorldRun(s.worlds, s.events, anc, git)
  }

  function Last(s: Story): World
    requires s.worlds != []
  {
    s.worlds[|s.worlds| - 1]
  }

  lemma Tell(s: Story, ev: Event, anc: (string, string) -> bool, git: Git) returns (u: Story)
    requires Told(s, anc, git) && s.worlds != [] && Possible(Last(s), ev, anc, git)
    ensures Told(u, anc, git) && u.worlds != [] && Last(u) == Moved(Last(s), ev, anc, git) && u.worlds[0] == s.worlds[0]
  {
    hide Possible, Moved, Fresh;
    u := Story(s.worlds + [Moved(Last(s), ev, anc, git)], s.events + [ev]);
  }

  lemma Begin(w: World, anc: (string, string) -> bool, git: Git) returns (s: Story)
    requires Fresh(w)
    ensures Told(s, anc, git) && s.worlds != [] && Last(s) == w && s.worlds[0] == w
  {
    hide Fresh;
    s := Story([w], []);
  }

  lemma ToldFacts(s: Story, anc: (string, string) -> bool, git: Git)
    requires Told(s, anc, git) && s.worlds != []
    ensures Inv(Last(s).m) && ItemInv(Last(s)) && |s.worlds| == |s.events| + 1
  {
    hide Inv, ItemInv, Follows, Fresh;
    RunItems(s.worlds, s.events, anc, git, |s.worlds| - 1);
  }

  // ---------- one event at a time ----------

  lemma TellSave(s: Story, step: Step, anc: (string, string) -> bool, git: Git) returns (u: Story)
    requires Told(s, anc, git) && s.worlds != [] && MaySave(Last(s), step, anc)
    ensures Told(u, anc, git) && u.worlds != [] && u.worlds[0] == s.worlds[0]
    ensures Last(u) == Last(s).(m := Next(Last(s).m, step), made := None)
  {
    hide Told, MaySave, Next;
    u := Tell(s, Saves(step), anc, git);
  }

  lemma TellStart(s: Story, i: nat, id: string, anc: (string, string) -> bool, git: Git) returns (u: Story, n: Mission)
    requires Told(s, anc, git) && s.worlds != [] && Calm(Last(s).m) && Idle(Last(s).m) && NextUp(Last(s).m.plan, i)
    ensures Told(u, anc, git) && u.worlds != [] && u.worlds[0] == s.worlds[0]
    ensures Last(u) == Last(s).(m := n, made := None) && Begun(Last(s).m, n, i) && n.state.Running?
  {
    hide Told, Inv, ItemInv, Calm, Idle, NextUp, Begun, MaySave;
    ToldFacts(s, anc, git);
    var w := Last(s);
    StartEnabled(w.m, i, id);
    NextUpIndex(w.m.plan, i);
    var step := Start(w.m, i, id);
    n := Next(w.m, step);
    InvTask(w.m, i);
    StartResult(w.m, i, id, n);
    StartMaySave(w, i, id, anc);
    u := TellSave(s, step, anc, git);
  }

  lemma NextUpIndex(plan: seq<Task>, i: nat)
    requires NextUp(plan, i)
    ensures i < |plan|
  {
    hide DependenciesDone;
  }

  lemma StartMaySave(w: World, i: nat, id: string, anc: (string, string) -> bool)
    requires i < |w.m.plan| && Enabled(w.m, Start(w.m, i, id)) && Next(w.m, Start(w.m, i, id)).state.Running?
    ensures MaySave(w, Start(w.m, i, id), anc)
  {
    hide Enabled, Next, Start, CriteriaMet;
    StartIsDispatch(w.m, i, id);
  }

  lemma StartIsDispatch(m: Mission, i: nat, id: string)
    requires i < |m.plan|
    ensures Start(m, i, id).Dispatch?
  {
  }

  lemma TellItem(s: Story, i: nat, id: string, anc: (string, string) -> bool, git: Git) returns (u: Story)
    requires Told(s, anc, git) && s.worlds != [] && Possible(Last(s), Creates(i, id), anc, git)
    ensures Told(u, anc, git) && u.worlds != [] && u.worlds[0] == s.worlds[0]
    ensures Last(u) == Last(s).(items := Last(s).items[id := Item(W.Todo, "")], made := Some(id))
  {
    hide Told, Unplaced, GoodTaskId;
    u := Tell(s, Creates(i, id), anc, git);
  }

  /** Where attempt `t` works. */
  function PathOf(m: Mission, t: Task, id: string): string
    requires GoodTaskId(id) && t.attempts >= 0
  {
    LocatedTask(m, t, id).worktree
  }

  lemma LinkMoves(w: World, i: nat, id: string, anc: (string, string) -> bool, git: Git)
    requires Unplaced(w, i) && HasItem(w, w.m.plan[i], id) && w.m.plan[i].attempts >= 0
    requires w.items[id].worktree == "" || w.m.plan[i].attempts > 1
    ensures Possible(w, Links(i), anc, git)
    ensures var v := Moved(w, Links(i), anc, git);
      v.items.Keys == w.items.Keys && v == w.(items := w.items[id := Item(v.items[id].status, PathOf(w.m, w.m.plan[i], id))])
  {
    hide LocatedTask, RunsTask, GoodTaskId;
  }

  lemma StartMoves(w: World, i: nat, id: string, anc: (string, string) -> bool, git: Git)
    requires Unplaced(w, i) && HasItem(w, w.m.plan[i], id) && w.m.plan[i].attempts >= 0
    requires w.items[id].worktree == PathOf(w.m, w.m.plan[i], id)
    ensures Possible(w, Event.Starts(i), anc, git)
    ensures Moved(w, Event.Starts(i), anc, git) == w.(items := w.items[id := Item(W.InProgress, w.items[id].worktree)])
  {
    hide LocatedTask, RunsTask, GoodTaskId;
  }

  lemma PlaceMaySave(w: World, i: nat, id: string, head: string, anc: (string, string) -> bool)
    requires Unplaced(w, i) && HasItem(w, w.m.plan[i], id) && w.m.plan[i].attempts >= 0 && w.m.plan[i].head == ""
    requires w.items[id] == Item(W.InProgress, PathOf(w.m, w.m.plan[i], id)) && FromSource(w.m.executions, head)
    ensures Enabled(w.m, Prepare(i, Headed(id, head))) && MaySave(w, Prepare(i, Headed(id, head)), anc)
    ensures Next(w.m, Prepare(i, Headed(id, head))) ==
            w.m.(plan := w.m.plan[i := LocatedTask(w.m, w.m.plan[i], id).(head := head)])
  {
    hide LocatedTask, GoodTaskId, FromSource;
    PlaceEnabled(w.m, i, id, head);
  }

  /** The running task `i` with its location, as placing saves it. */
  function Located(m: Mission, i: nat, id: string, head: string): Mission
    requires i < |m.plan| && GoodTaskId(id) && m.plan[i].attempts >= 0
  {
    m.(plan := m.plan[i := LocatedTask(m, m.plan[i], id).(head := head)])
  }

  lemma ItemKnown(w: World, i: nat, id: string)
    requires Unplaced(w, i) && HasItem(w, w.m.plan[i], id)
    ensures i < |w.m.plan| && GoodTaskId(id) && id in w.items
  {
    hide GoodTaskId;
  }

  lemma TellPlace(s: Story, i: nat, id: string, head: string, anc: (string, string) -> bool, git: Git) returns (u: Story)
    requires Told(s, anc, git) && s.worlds != [] && Unplaced(Last(s), i) && HasItem(Last(s), Last(s).m.plan[i], id)
    requires Last(s).m.plan[i].attempts >= 0 && Last(s).m.plan[i].head == "" && FromSource(Last(s).m.executions, head)
    requires Last(s).items[id].worktree == "" || Last(s).m.plan[i].attempts > 1
    ensures Told(u, anc, git) && u.worlds != [] && u.worlds[0] == s.worlds[0]
    ensures i < |Last(s).m.plan| && GoodTaskId(id)
    ensures Last(u) == Last(s).(m := Located(Last(s).m, i, id, head), made := None,
                                items := Last(s).items[id := Item(W.InProgress, PathOf(Last(s).m, Last(s).m.plan[i], id))])
  {
    hide Told, Unplaced, PathOf, LocatedTask, GoodTaskId, FromSource, Possible, Moved, MaySave, Next, Enabled;
    var w := Last(s);
    ItemKnown(w, i, id);
    LinkMoves(w, i, id, anc, git);
    var a := Tell(s, Links(i), anc, git);
    SameUnplaced(w, Last(a), i, id);
    StartMoves(Last(a), i, id, anc, git);
    var b := Tell(a, Event.Starts(i), anc, git);
    SameUnplaced(Last(a), Last(b), i, id);
    PlaceMaySave(Last(b), i, id, head, anc);
    u := TellSave(b, Prepare(i, Headed(id, head)), anc, git);
    assert Last(b).items == w.items[id := Item(W.InProgress, PathOf(w.m, w.m.plan[i], id))];
  }

  lemma SameUnplaced(w: World, v: World, i: nat, id: string)
    requires Unplaced(w, i) && HasItem(w, w.m.plan[i], id) && v.m == w.m && v.made == w.made && id in v.items
    ensures Unplaced(v, i) && HasItem(v, v.m.plan[i], id)
  {
    hide RunsTask, GoodTaskId;
  }

  // ---------- checking and finishing ----------

  /** The record of the one check, passed at `head` in the task's worktree. */
  function Record(git: Git, t: Task, proofId: string, head: string): CheckRun {
    var site := E.Site(git.repository, git.top(t.worktree), head, true);
    CheckRun(proofId, "run", "execution", t.id, t.taskId, t.attempts, 0, true, 0, t.worktree, site, site, true)
  }

  predicate MayCheck(w: World, i: nat, proofId: string, head: string) {
    && Placed(w.m, i) && w.m.plan[i].role.Qa? && w.m.plan[i].id != "" && w.m.plan[i].taskId != "" && w.m.plan[i].attempts >= 1
    && proofId != "" && head != "" && forall x :: 0 <= x < |w.log| ==> w.log[x].proofId != proofId
  }

  lemma TellCheck(s: Story, i: nat, proofId: string, head: string, anc: (string, string) -> bool, git: Git) returns (u: Story)
    requires Told(s, anc, git) && s.worlds != [] && Calm(Last(s).m) && MayCheck(Last(s), i, proofId, head)
    ensures Told(u, anc, git) && u.worlds != [] && u.worlds[0] == s.worlds[0] && i < |Last(s).m.plan|
    ensures Last(u) == Last(s).(log := Last(s).log + [Record(git, Last(s).m.plan[i], proofId, head)])
  {
    hide Told, RunsTask;
    PlacedIndex(Last(s).m, i);
    assert Commands(Last(s).m) == ["c"];
    u := Tell(s, Checks(i, Record(git, Last(s).m.plan[i], proofId, head)), anc, git);
  }

  /** What the log must hold for task `i` to succeed at `head`. */
  predicate Vouches(w: World, i: nat, head: string)
    requires i < |w.m.plan|
  {
    var t := w.m.plan[i];
    t.role.Qa? ==>
      && (forall x :: 0 <= x < |w.log| && Of(t, w.log[x]) ==> w.log[x].passed && w.log[x].before.commit == head && w.log[x].workingDir == t.worktree)
      && HasCheck(t, w.log, 0)
  }

  lemma SuccessMaySave(w: World, i: nat, head: string, anc: (string, string) -> bool)
    requires Calm(w.m) && Placed(w.m, i) && head != "" && (ReadOnly(w.m.plan[i].role) ==> head == w.m.plan[i].head)
    requires Vouches(w, i, head) && IsDone(w, w.m.plan[i].taskId)
    ensures Enabled(w.m, Succeed(i, head)) && Ended(w.m, Next(w.m, Succeed(i, head)), i, head)
    ensures MaySave(w, Succeed(i, head), anc)
  {
    hide Calm, Enabled, Next, IsDone;
    assert i < |w.m.plan|;
    SucceedEnabled(w.m, i, head);
    SucceedResult(w.m, i, head, Next(w.m, Succeed(i, head)));
  }

  lemma CompleteMoves(w: World, i: nat, anc: (string, string) -> bool, git: Git)
    requires Placed(w.m, i) && w.m.plan[i].taskId in w.items
    ensures Possible(w, Completes(i), anc, git)
    ensures Moved(w, Completes(i), anc, git) == w.(items := w.items[w.m.plan[i].taskId := w.items[w.m.plan[i].taskId].(status := W.Done)])
  {
    hide RunsTask;
  }

  lemma TellSuccess(s: Story, i: nat, head: string, anc: (string, string) -> bool, git: Git) returns (u: Story, n: Mission)
    requires Told(s, anc, git) && s.worlds != [] && Calm(Last(s).m) && Placed(Last(s).m, i) && head != ""
    requires ReadOnly(Last(s).m.plan[i].role) ==> head == Last(s).m.plan[i].head
    requires Vouches(Last(s), i, head) && Last(s).m.plan[i].taskId in Last(s).items
    ensures Told(u, anc, git) && u.worlds != [] && u.worlds[0] == s.worlds[0] && Ended(Last(s).m, n, i, head)
    ensures var w := Last(s); var id := w.m.plan[i].taskId;
      Last(u) == w.(m := n, made := None, items := w.items[id := w.items[id].(status := W.Done)])
  {
    hide Told, Calm, Placed, Vouches, MaySave, Next, Enabled, Possible, Moved, Ended;
    var w := Last(s);
    assert i < |w.m.plan| by { PlacedIndex(w.m, i); }
    CompleteMoves(w, i, anc, git);
    var a := Tell(s, Completes(i), anc, git);
    assert Vouches(Last(a), i, head) by { SameVouches(w, Last(a), i, head); }
    SuccessMaySave(Last(a), i, head, anc);
    n := Next(w.m, Succeed(i, head));
    u := TellSave(a, Succeed(i, head), anc, git);
  }

  lemma PlacedIndex(m: Mission, i: nat)
    requires Placed(m, i)
    ensures i < |m.plan|
  {
  }

  lemma SameVouches(w: World, v: World, i: nat, head: string)
    requires i < |w.m.plan| && Vouches(w, i, head) && v.m == w.m && v.log == w.log
    ensures Vouches(v, i, head)
  {
  }

  // ---------- being interrupted, resetting, being rejected ----------

  lemma QuietSave(w: World, step: Step, anc: (string, string) -> bool)
    requires Enabled(w.m, step) && !Next(w.m, step).state.Completed? && (step.Abandon? || step.RetryMission?)
    ensures MaySave(w, step, anc)
  {
    hide Enabled, Next, CriteriaMet;
  }

  lemma InterruptedMaySave(w: World, i: nat, anc: (string, string) -> bool)
    requires Enabled(w.m, Interrupted(i)) && Failing(w.m, Next(w.m, Interrupted(i)), i)
    ensures MaySave(w, Interrupted(i), anc)
  {
    hide Enabled, Next, CriteriaMet;
  }

  /** The process dies during the attempt of task `i`; the recovery fails it and a human retries. */
  lemma TellCrash(s: Story, i: nat, anc: (string, string) -> bool, git: Git) returns (u: Story, n: Mission)
    requires Told(s, anc, git) && s.worlds != [] && Calm(Last(s).m) && RunsTask(Last(s).m, i)
    requires Last(s).m.plan[i].attempts < Last(s).m.plan[i].maxAttempts && Last(s).m.state.Running?
    ensures Told(u, anc, git) && u.worlds != [] && u.worlds[0] == s.worlds[0] && Recovered(Last(s).m, n, i)
    ensures Last(u) == Last(s).(m := n, made := None)
  {
    hide Told, Inv, ItemInv, Calm, MaySave, Enabled, Next, Failing, Recovered;
    ToldFacts(s, anc, git);
    var w := Last(s);
    RunningUnjudged(w.m, i);
    NobodyEscalated(w.m);
    InterruptedResult(w.m, i);
    InterruptedMaySave(w, i, anc);
    var a := TellSave(s, Interrupted(i), anc, git);
    AbandonResult(w.m, Last(a).m, i);
    var b := TellStep(a, Abandon(i), anc, git) by { AbandonOpen(Last(a).m, i); }
    n := Next(Last(b).m, RetryMission);
    u := TellStep(b, RetryMission, anc, git) by { RetryOpen(Last(b).m); }
  }

  lemma AbandonOpen(m: Mission, i: nat)
    requires Enabled(m, Abandon(i))
    ensures !Next(m, Abandon(i)).state.Completed?
  {
  }

  lemma RetryOpen(m: Mission)
    requires Enabled(m, RetryMission)
    ensures !Next(m, RetryMission).state.Completed?
  {
  }

  lemma TellStep(s: Story, step: Step, anc: (string, string) -> bool, git: Git) returns (u: Story)
    requires Told(s, anc, git) && s.worlds != [] && (step.Abandon? || step.RetryMission?) && Enabled(Last(s).m, step)
    requires !Next(Last(s).m, step).state.Completed?
    ensures Told(u, anc, git) && u.worlds != [] && u.worlds[0] == s.worlds[0]
    ensures Last(u) == Last(s).(m := Next(Last(s).m, step), made := None)
  {
    hide Told, MaySave, Enabled, Next;
    QuietSave(Last(s), step, anc);
    u := TellSave(s, step, anc, git);
  }

  lemma RunningUnjudged(m: Mission, i: nat)
    requires Inv(m) && RunsTask(m, i)
    ensures m.executions[|m.executions| - 1].review.NotRun? && i < |m.plan|
  {
    hide PlanShape, TasksOk, AllBelong, RunningLinked, CompletedLinked, RetriesRise, StateOk, EscalationOk, OnlyLastRuns, Started, UsedOwnWorktree;
    assert ExecutionOk(m, |m.executions| - 1, m.executions[|m.executions| - 1]);
  }

  lemma NobodyEscalated(m: Mission)
    requires Inv(m) && !m.state.Escalated?
    ensures forall k :: 0 <= k < |m.plan| ==> !m.plan[k].state.Escalated?
  {
    hide PlanShape, TasksOk, ExecutionsOk, AllBelong, RunningLinked, CompletedLinked, RetriesRise, StateOk, OnlyLastRuns, Started;
  }

  lemma TellReset(s: Story, i: nat, lead: nat, k: nat, anc: (string, string) -> bool, git: Git) returns (u: Story)
    requires Told(s, anc, git) && s.worlds != [] && Calm(Last(s).m) && Placed(Last(s).m, i) && Last(s).m.plan[i].role.Review?
    requires Last(s).m.fixCycles < Last(s).m.budget.maxFixes && RepairLead(Last(s).m.plan, 0) == Some(lead)
    requires Restarts(Last(s).m.plan, lead, k) && Last(s).m.plan[k].taskId in Last(s).items
    ensures Told(u, anc, git) && u.worlds != [] && u.worlds[0] == s.worlds[0] && k < |Last(s).m.plan|
    ensures var w := Last(s); var id := w.m.plan[k].taskId;
      Last(u) == w.(items := w.items[id := w.items[id].(status := W.Todo)])
  {
    hide Told, RunsTask, RepairLead, SafeTask;
    u := Tell(s, Resets(i, k), anc, git);
  }

  lemma RejectMaySave(w: World, i: nat, lead: nat, anc: (string, string) -> bool)
    requires Calm(w.m) && Placed(w.m, i) && w.m.plan[i].role.Review? && w.m.fixCycles < w.m.budget.maxFixes && RepairLead(w.m.plan, 0) == Some(lead)
    requires forall k :: 0 <= k < |w.m.plan| && Restarts(w.m.plan, lead, k) ==> IsTodo(w, w.m.plan[k].taskId)
    ensures Enabled(w.m, RejectStep(i, w.m.plan[i].head)) && SentBack(w.m, Next(w.m, RejectStep(i, w.m.plan[i].head)), lead)
    ensures MaySave(w, RejectStep(i, w.m.plan[i].head), anc)
  {
    hide Calm, Enabled, Next, RepairLead, IsTodo, Restarts;
    assert i < |w.m.plan|;
    RejectEnabled(w.m, i);
    RejectResult(w.m, i, lead, Next(w.m, RejectStep(i, w.m.plan[i].head)));
  }

  lemma TellReject(s: Story, i: nat, lead: nat, anc: (string, string) -> bool, git: Git) returns (u: Story, n: Mission)
    requires Told(s, anc, git) && s.worlds != [] && Calm(Last(s).m) && Placed(Last(s).m, i) && Last(s).m.plan[i].role.Review?
    requires Last(s).m.fixCycles < Last(s).m.budget.maxFixes && RepairLead(Last(s).m.plan, 0) == Some(lead)
    requires forall k :: 0 <= k < |Last(s).m.plan| && Restarts(Last(s).m.plan, lead, k) ==> IsTodo(Last(s), Last(s).m.plan[k].taskId)
    ensures Told(u, anc, git) && u.worlds != [] && u.worlds[0] == s.worlds[0] && SentBack(Last(s).m, n, lead)
    ensures Last(u) == Last(s).(m := n, made := None)
  {
    hide Told, Calm, MaySave, Next, Enabled, RepairLead, IsTodo, Restarts, SentBack, RunsTask;
    PlacedIndex(Last(s).m, i);
    RejectMaySave(Last(s), i, lead, anc);
    n := Next(Last(s).m, RejectStep(i, Last(s).m.plan[i].head));
    u := TellSave(s, RejectStep(i, Last(s).m.plan[i].head), anc, git);
  }

  // ---------- concluding ----------

  predicate Over(m: Mission, head: string, anc: (string, string) -> bool) {
    && !Terminal(m.state) && (forall k :: 0 <= k < |m.plan| ==> m.plan[k].state.Completed?) && (m.risk > 0 ==> HasRole(m.plan, Review))
    && FromSource(m.executions, head) && AllContained(m.plan, anc, head)
  }

  lemma ConcludeMaySave(w: World, head: string, anc: (string, string) -> bool)
    requires Enabled(w.m, Conclude(0, View(w.m, head))) && CriteriaMet(w) && FromSource(w.m.executions, head) && AllContained(w.m.plan, anc, head)
    ensures MaySave(w, Conclude(0, View(w.m, head)), anc)
  {
    hide Enabled, Next, FromSource, CriteriaMet;
  }

  /** The one criterion is proven and satisfied, and the mission concludes. */
  lemma TellConclude(s: Story, head: string, anc: (string, string) -> bool, git: Git) returns (u: Story)
    requires Told(s, anc, git) && s.worlds != [] && Calm(Last(s).m) && Over(Last(s).m, head, anc) && |Last(s).criteria| == 1
    ensures Told(u, anc, git) && u.worlds != [] && u.worlds[0] == s.worlds[0]
    ensures Last(u).m == Last(s).m.(state := Completed) && Last(u).items == Last(s).items && Last(u).log == Last(s).log
  {
    hide Told, Inv, ItemInv, Calm, FromSource, AllContained, MaySave, Enabled, Next, View, HasRole;
    ToldFacts(s, anc, git);
    var w := Last(s);
    assert forall k :: 0 <= k < |w.m.plan| ==> w.m.plan[k].state.Completed?;
    ConcludeResult(w.m, head);
    var view := View(w.m, head);
    var a := Tell(s, Accepts(0, 0, view), anc, git);
    var b := Tell(a, Satisfies(0, 0, view), anc, git);
    assert CriteriaMet(Last(b));
    ConcludeMaySave(Last(b), head, anc);
    u := TellSave(b, Conclude(0, view), anc, git);
  }

  // ---------- whole attempts ----------

  /** The item an attempt of task `t` uses: a new one, or the task's own, which may be linked again from the second attempt on. */
  predicate ItemFits(w: World, t: Task, id: string) {
    && GoodTaskId(id) && w.made.None?
    && (if t.taskId == "" then id !in w.items
        else id == t.taskId && id in w.items && (w.items[id].worktree == "" || t.attempts >= 1))
  }

  lemma BegunSource(m: Mission, n: Mission, i: nat, head: string)
    requires Begun(m, n, i) && FromSource(m.executions, head)
    ensures FromSource(n.executions, head)
  {
    hide RunsTask, OthersWait, SameSetup, SafeTask;
    assert n.executions[..|n.executions| - 1] == m.executions;
  }

  lemma BegunCalm(m: Mission, n: Mission, i: nat)
    requires Calm(m) && Begun(m, n, i)
    ensures Calm(n)
  {
    hide RunsTask;
    forall k | 0 <= k < |n.plan| ensures SafeTask(n.plan[k]) {
      assert SafeTask(m.plan[k]);
      assert k != i ==> SameButLabel(m.plan[k], n.plan[k]);
    }
  }

  /** Task `i` is running in its own worktree; the rest waits as before. */
  predicate Occupied(m: Mission, n: Mission, i: nat, id: string, head: string) {
    && i < |m.plan| && OthersWait(m.plan, n.plan, i) && SameSetup(m, n) && n.fixCycles == m.fixCycles && n.state.Running?
    && Placed(n, i) && n.plan[i].head == head && n.plan[i].taskId == id
    && (var t, u := m.plan[i], n.plan[i];
        && u.attempts == t.attempts + 1 && u.id == t.id && u.role == t.role && u.dependsOn == t.dependsOn && u.maxAttempts == t.maxAttempts)
    && |n.executions| == |m.executions| + 1 && n.executions[..|m.executions|] == m.executions
    && n.executions[|m.executions|].agent == n.plan[i].role && !n.executions[|m.executions|].result.Completed?
    && Calm(n)
  }

  lemma BegunOccupied(m: Mission, b: Mission, i: nat, id: string, head: string)
    requires i < |m.plan| && |b.plan| == |m.plan| && Begun(m, b, i) && b.state.Running? && Calm(b) && GoodTaskId(id) && b.plan[i].attempts >= 0 && head != ""
    ensures Occupied(m, Located(b, i, id, head), i, id, head)
  {
    hide OwnedId, GoodTaskId, SafeTask;
    assert forall k :: 0 <= k < |b.plan| ==> SafeTask(b.plan[k]);
    LocatedSafe(b, i, id, head);
  }

  lemma LocatedSafe(m: Mission, i: nat, id: string, head: string)
    requires i < |m.plan| && GoodTaskId(id) && m.plan[i].attempts >= 0 && SafeTask(m.plan[i])
    ensures SafeTask(Located(m, i, id, head).plan[i])
  {
    hide OwnedId, GoodTaskId;
  }

  lemma BegunUnplaced(m: Mission, b: Mission, i: nat)
    requires i < |m.plan| && |b.plan| == |m.plan| && Begun(m, b, i)
    ensures RunsTask(b, i) && b.plan[i].worktree == "" && b.plan[i].head == "" && b.plan[i].taskId == m.plan[i].taskId && b.plan[i].attempts == m.plan[i].attempts + 1
  {
    hide RunsTask, OthersWait, SameSetup, SafeTask;
  }

  /** Dispatches task `i` and gives it an item and a worktree. */
  lemma Occupy(s: Story, i: nat, id: string, head: string, anc: (string, string) -> bool, git: Git) returns (u: Story, n: Mission)
    requires Told(s, anc, git) && s.worlds != [] && Calm(Last(s).m) && Idle(Last(s).m) && NextUp(Last(s).m.plan, i)
    requires i < |Last(s).m.plan| && Last(s).m.plan[i].attempts >= 0 && ItemFits(Last(s), Last(s).m.plan[i], id)
    requires head != "" && FromSource(Last(s).m.executions, head)
    ensures Told(u, anc, git) && u.worlds != [] && u.worlds[0] == s.worlds[0] && Occupied(Last(s).m, n, i, id, head)
    ensures id in Last(u).items && Last(u).items[id].status.InProgress?
    ensures Last(u) == Last(s).(m := n, items := Last(s).items[id := Last(u).items[id]])
  {
    hide Told, Calm, Idle, NextUp, Begun, FromSource, PathOf, Located, Occupied, RunsTask, GoodTaskId;
    var w := Last(s);
    var b, a;
    a, b := TellStart(s, i, "execution", anc, git);
    assert |b.plan| == |w.m.plan| by { BegunLength(w.m, b, i); }
    BegunUnplaced(w.m, b, i);
    BegunSource(w.m, b, i, head);
    BegunCalm(w.m, b, i);
    if w.m.plan[i].taskId == "" {
      a := TellItem(a, i, id, anc, git);
    }
    u := TellPlace(a, i, id, head, anc, git);
    n := Located(b, i, id, head);
    BegunOccupied(w.m, b, i, id, head);
  }

  lemma BegunLength(m: Mission, b: Mission, i: nat)
    requires Begun(m, b, i)
    ensures i < |m.plan| && |b.plan| == |m.plan|
  {
    hide SameSetup, SafeTask;
  }

  /** Task `i` had an attempt more, and it succeeded. */
  predicate Achieved(m: Mission, n: Mission, i: nat, id: string, head: string) {
    && i < |m.plan| && OthersWait(m.plan, n.plan, i) && SameSetup(m, n) && n.fixCycles == m.fixCycles && n.state.Pending?
    && (var t, u := m.plan[i], n.plan[i];
        && u.state.Completed? && u.artifactHead == head && u.taskId == id
        && u.attempts == t.attempts + 1 && u.id == t.id && u.role == t.role && u.dependsOn == t.dependsOn && u.maxAttempts == t.maxAttempts)
    && |n.executions| == |m.executions| + 1 && n.executions[..|m.executions|] == m.executions
    && (var e := n.executions[|m.executions|]; e.result.Completed? && e.agent == n.plan[i].role && e.head == head)
    && Calm(n)
  }

  lemma EndedAchieved(m: Mission, b: Mission, n: Mission, i: nat, id: string, h: string, head: string)
    requires Occupied(m, b, i, id, h) && Ended(b, n, i, head)
    ensures Achieved(m, n, i, id, head) && FromSource(n.executions, head)
  {
    EndedSource(b, n, i, head);
    hide RunsTask, SafeTask, FromSource;
    assert forall k :: 0 <= k < |b.plan| ==> SafeTask(b.plan[k]);
    forall k | 0 <= k < |n.plan| ensures SafeTask(n.plan[k]) {
      if k == i {
        EndedSafe(b.plan[i], head);
      }
    }
    assert n.executions[..|m.executions|] == b.executions[..|m.executions|];
  }

  lemma EndedSafe(t: Task, head: string)
    requires SafeTask(t)
    ensures SafeTask(t.(state := Completed, artifactHead := head))
  {
  }

  /** No check of task `t`'s next attempt has been recorded, and the proof id is free. */
  predicate CheckFits(w: World, t: Task, proofId: string) {
    && proofId != "" && t.id != ""
    && forall x :: 0 <= x < |w.log| ==> w.log[x].proofId != proofId && !(w.log[x].planTaskId == t.id && w.log[x].attempt == t.attempts + 1)
  }

  lemma OccupiedFacts(m: Mission, n: Mission, i: nat, id: string, head: string)
    requires Occupied(m, n, i, id, head)
    ensures Placed(n, i) && Calm(n) && i < |m.plan| && i < |n.plan| && n.plan[i].head == head && n.plan[i].taskId == id
    ensures n.plan[i].id == m.plan[i].id && n.plan[i].role == m.plan[i].role && n.plan[i].attempts == m.plan[i].attempts + 1
  {
    hide RunsTask, SafeTask;
  }

  lemma RecordVouches(w: World, v: World, i: nat, proofId: string, head: string, git: Git)
    requires i < |w.m.plan| && v == w.(log := w.log + [Record(git, w.m.plan[i], proofId, head)])
    requires forall x :: 0 <= x < |w.log| ==> !Of(w.m.plan[i], w.log[x])
    ensures Vouches(v, i, head)
  {
    assert Of(v.m.plan[i], v.log[|w.log|]);
  }

  /** The log may only have grown by the record of this attempt. */
  predicate LogGrew(log: seq<CheckRun>, more: seq<CheckRun>, t: Task, proofId: string) {
    more == log || (|more| == |log| + 1 && more[..|log|] == log && more[|log|].proofId == proofId && more[|log|].planTaskId == t.id && more[|log|].attempt == t.attempts + 1)
  }

  /** A whole successful attempt of task `i`. */
  lemma Attempt(s: Story, i: nat, id: string, proofId: string, from: string, head: string, anc: (string, string) -> bool, git: Git) returns (u: Story, n: Mission)
    requires Told(s, anc, git) && s.worlds != [] && Calm(Last(s).m) && Idle(Last(s).m) && NextUp(Last(s).m.plan, i)
    requires i < |Last(s).m.plan| && Last(s).m.plan[i].attempts >= 0 && ItemFits(Last(s), Last(s).m.plan[i], id)
    requires from != "" && head != "" && FromSource(Last(s).m.executions, from) && (ReadOnly(Last(s).m.plan[i].role) ==> head == from)
    requires Last(s).m.plan[i].role.Qa? ==> CheckFits(Last(s), Last(s).m.plan[i], proofId)
    ensures Told(u, anc, git) && u.worlds != [] && u.worlds[0] == s.worlds[0]
    ensures Achieved(Last(s).m, n, i, id, head) && FromSource(n.executions, head)
    ensures IsDone(Last(u), id) && LogGrew(Last(s).log, Last(u).log, Last(s).m.plan[i], proofId)
    ensures !Last(s).m.plan[i].role.Qa? ==> Last(u).log == Last(s).log
    ensures Last(u) == Last(s).(m := n, items := Last(s).items[id := Last(u).items[id]], log := Last(u).log)
  {
    hide Told, Calm, Idle, NextUp, FromSource, Occupied, RunsTask, GoodTaskId, Ended, Achieved, Vouches;
    var w := Last(s);
    var b, a;
    a, b := Occupy(s, i, id, from, anc, git);
    OccupiedFacts(w.m, b, i, id, from);
    assert id != "" by { GoodIds(id); }
    if w.m.plan[i].role.Qa? {
      ghost var v := Last(a);
      a := TellCheck(a, i, proofId, head, anc, git);
      RecordVouches(v, Last(a), i, proofId, head, git);
    } else {
      NoVouching(Last(a), i, head);
    }
    u, n := TellSuccess(a, i, head, anc, git);
    EndedAchieved(w.m, b, n, i, id, from, head);
  }

  lemma GoodIds(id: string)
    requires GoodTaskId(id)
    ensures id != ""
  {
  }

  lemma NoVouching(w: World, i: nat, head: string)
    requires i < |w.m.plan| && !w.m.plan[i].role.Qa?
    ensures Vouches(w, i, head)
  {
  }
}
