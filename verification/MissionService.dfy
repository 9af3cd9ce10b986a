/**
 * The service calls that drive a mission: each works on its own copy and saves it by
 * compare-and-swap while other callers do the same (internal/app/team.go).
 */
module MissionService {
  import opened Team
  import opened Scheduler
  import opened MissionSteps
  import opened MissionInvariant
  import opened MissionHistory
  import opened MissionRuntime
  import opened MissionStore
  import opened MissionDispatch
  import opened MissionProgress
  import opened MissionVerdict
  import opened MissionFinish

  datatype Routed = Unreadable | Unbound | Bound(models: seq<Model>)

  /** Getting the artifact location ready; `taskId` is the work item to use when the task has none yet. */
  datatype Setup = Setup(sourceRead: bool, created: bool, taskId: string, linked: bool, head: Option<string>, statusSaved: bool)

  /** Everything one call asks the outside world, and what other callers save in between. */
  datatype Env = Env(
    assessed: int, adapters: Option<map<string, bool>>, scores: Option<seq<Option<real>>>, promptSize: nat, routed: Routed,
    executionId: string, setup: Setup, handedOff: bool, session: Option<string>, sessionRunning: bool, runErr: bool,
    finish: FinishObs, statusSaved: bool, view: ConcludeObs,
    stored: nat -> bool, others: nat -> seq<Step>)

  predicate Plausible(m: Mission, env: Env) {
    && 0 <= env.assessed <= 4 && RiskObserved(env.finish)
    && (env.finish.tree.headRead ==> env.finish.tree.head != "")
    && |env.finish.checks| == |m.checks| + |m.integrationChecks| + |m.securityChecks|
    && |env.view.sites| == |m.plan|
    && GoodTaskId(env.setup.taskId) && env.setup.head != Some("")
    && (env.routed.Bound? ==> TiersOk(env.routed.models))
    && (env.scores.Some? ==> |env.scores.value| == |m.models|)
  }

  /** How a call ends: unchanged, with an error or lost race, or with everything it meant to do saved. */
  datatype Report = Unchanged | Interrupted | Done

  /** What a call's own saves amount to: `made` is one advance from version `base` to the copy's version. */
  ghost predicate Advanced(store: Missions, base: Mission, made: Advance, c: Copy)
    reads store
  {
    store.At(c, c.m) && Advances(base, made, c.m)
  }

  /** No answer is missing, every save is stored, no session is live, and nobody else saves meanwhile. */
  ghost predicate Untroubled(env: Env) {
    && (forall k :: env.stored(k)) && (forall k :: env.others(k) == [])
    && env.adapters.Some? && env.scores.Some? && env.statusSaved && AllAnswered(env.view) && !env.sessionRunning
  }

  /** An untroubled call whose copy is the stored version. */
  ghost predicate Smooth(store: Missions, c: Copy, env: Env)
    reads store
  {
    Untroubled(env) && c.revision == store.revision
  }

  // ---------- what stays the same while a call works ----------

  lemma PlausibleFacts(m: Mission, env: Env)
    requires Plausible(m, env)
    ensures |env.view.sites| == |m.plan| && 0 <= env.assessed <= 4
    ensures env.scores.Some? ==> |env.scores.value| == |m.models|
    ensures env.routed.Bound? ==> TiersOk(env.routed.models)
    ensures GoodTaskId(env.setup.taskId) && env.setup.head != Some("")
  {
  }

  /** The facts every later part of a call starts from. */
  ghost predicate Sound(m: Mission, env: Env) {
    Inv(m) && Plausible(m, env)
  }

  lemma SoundNext(m: Mission, s: Step, env: Env)
    requires Sound(m, env) && Enabled(m, s)
    ensures Sound(Next(m, s), env)
  {
    hide Inv, Enabled, Next;
    NextInv(m, s);
    NextFrame(m, s);
  }

  // ---------- concluding ----------

  lemma ConcludeEnabled(m: Mission, assessed: int, o: ConcludeObs, s: State)
    requires !Terminal(m.state) && 0 <= assessed <= 4 && NoneRunning(m.plan) && NoneReady(m.plan) && |o.sites| == |m.plan|
    requires !NeedsGate(Raised(m, assessed))
    requires Conclusion(Concluding(m, assessed), o) == Some(s)
    ensures Enabled(m, Conclude(assessed, o)) && Next(m, Conclude(assessed, o)) == Concluding(m, assessed).(state := s)
  {
  }

  lemma AnsweredDecides(m: Mission, env: Env)
    requires Sound(m, env) && !Terminal(m.state) && NoneRunning(m.plan) && NoneReady(m.plan) && AllAnswered(env.view)
    ensures |env.view.sites| == |m.plan| && Conclusion(Concluding(m, env.assessed), env.view).Some?
  {
    hide Inv, Plausible, NoneRunning, NoneReady, AllDone, AllAnswered, Conclusion, Rescheduled;
    PlausibleFacts(m, env);
    NothingReadyMeansDone(m);
    assert Concluding(m, env.assessed) == Prepared(m, env.assessed, m.models);
    PreparedInv(m, env.assessed, m.models);
    StillAllDone(m.plan);
    ConclusionDecides(Concluding(m, env.assessed), env.view);
  }

  lemma StillAllDone(plan: seq<Task>)
    requires AllDone(plan)
    ensures |Rescheduled(plan)| == |plan| && AllDone(Rescheduled(plan))
  {
    hide DepsDone;
  }

  /** Concludes from a rescheduled copy in which nothing is ready. */
  method CompleteMission(store: Missions, c: Copy, env: Env, round: nat, ghost base: Mission) returns (r: Report, d: Copy)
    requires store.Valid() && store.At(c, base) && c.m == Concluding(base, env.assessed)
    requires Sound(base, env) && !Terminal(base.state) && NoneRunning(base.plan) && NoneReady(base.plan)
    requires !NeedsGate(Raised(base, env.assessed))
    modifies store
    ensures store.Valid() && old(store.saved) <= store.saved
    ensures r.Done? ==> Enabled(base, Conclude(env.assessed, env.view)) && d.m == Next(base, Conclude(env.assessed, env.view))
    ensures r.Done? ==> store.At(d, d.m)
    ensures r.Unchanged? ==> store.saved == old(store.saved) && d == c
    ensures r.Done? ==> env.view.sourceRead && (d.m.state.Completed? || d.m.state.Escalated?)
    ensures r.Done? && d.m.state.Completed? ==> AllKept(base, env.view) && env.view.criteriaSaved && WellJudged(d.m)
    ensures r.Done? && d.m.state.Escalated? ==> SomeLost(base, env.view) || (AllKept(base, env.view) && !WellJudged(d.m))
    ensures old(Smooth(store, c, env)) ==> r.Done? && Smooth(store, d, env)
  {
    hide Run, Enabled, Next, Conclusion, Plausible, NoneRunning, NoneReady, Inv, AllAnswered, AllKept, SomeLost, WellJudged, NeedsGate;
    PlausibleFacts(base, env);
    if Untroubled(env) {
      AnsweredDecides(base, env);
    }
    var s := Decide(c.m, env.view);
    if s.None? {
      return Unchanged, c;
    }
    ConcludeEnabled(base, env.assessed, env.view, s.value);
    ConcludedAs(base, env);
    store.Others(env.others(round));
    var ok;
    ok, d := store.Save(Copy(c.m.(state := s.value), c.revision), env.stored(round), base, Conclude(env.assessed, env.view));
    r := if ok then Done else Interrupted;
  }

  lemma ConcludedAs(base: Mission, env: Env)
    requires Inv(base) && |env.view.sites| == |base.plan| && 0 <= env.assessed <= 4 && Enabled(base, Conclude(env.assessed, env.view))
    ensures env.view.sourceRead
    ensures var n := Next(base, Conclude(env.assessed, env.view));
      && (n.state.Completed? || n.state.Escalated?)
      && (n.state.Completed? ==> AllKept(base, env.view) && env.view.criteriaSaved && WellJudged(n))
      && (n.state.Escalated? ==> SomeLost(base, env.view) || (AllKept(base, env.view) && !WellJudged(n)))
  {
    var s := Conclude(env.assessed, env.view);
    ConcludeEither(base, s);
    hide Inv, Enabled, Next, AllKept, SomeLost, WellJudged, HumansOnly, Spent;
    ConcludesExactly(base, s);
    SameVerdicts(Next(base, s), base.(risk := RiskNow(base, s.assessed)));
  }

  lemma ConcludeEither(m: Mission, s: Step)
    requires Enabled(m, s) && s.Conclude?
    ensures Next(m, s).state.Completed? || Next(m, s).state.Escalated?
  {
    hide NeedsGate, NoneRunning, NoneReady, WalkSites, LatestLacksEvidence, VerdictsSuffice, Rescheduled;
  }

  // ---------- finishing ----------

  /** A copy with a task that runs, possibly with a location not saved yet. */
  ghost predicate Working(base: Mission, m: Mission, i: nat, prep: Prep, env: Env) {
    && RunsTask(base, i) && PrepFits(base.plan[i], prep)
    && m == WithPrep(Raised(base, env.assessed), i, prep)
  }

  function FinishStep(env: Env, i: nat, prep: Prep, runErr: bool): Step {
    Finish(env.assessed, i, prep, runErr, env.finish)
  }

  lemma FinishEnabled(base: Mission, m: Mission, i: nat, prep: Prep, runErr: bool, env: Env)
    requires Plausible(base, env) && Working(base, m, i, prep, env)
    requires !runErr ==> prep.Unprepared? && base.plan[i].worktree != "" && base.plan[i].head != ""
    ensures Enabled(base, FinishStep(env, i, prep, runErr))
  {
    hide WithPrep;
  }

  lemma FinishIs(base: Mission, m: Mission, i: nat, prep: Prep, runErr: bool, env: Env)
    requires Working(base, m, i, prep, env) && Enabled(base, FinishStep(env, i, prep, runErr))
    ensures i < |m.plan| && m.executions == base.executions && m.executions != []
    ensures var j := |m.executions| - 1;
      Next(base, FinishStep(env, i, prep, runErr)) == Finished(m, i, j, OutcomeOf(m, m.plan[i], m.executions[j], runErr, env.finish))
  {
    hide OutcomeOf, Finished, OwnedId, GoodTaskId;
  }

  /** A finished version has no running task, and its risk is at least what the call assessed. */
  lemma FinishLeaves(base: Mission, m: Mission, i: nat, prep: Prep, runErr: bool, env: Env)
    requires Inv(base) && Working(base, m, i, prep, env) && Enabled(base, FinishStep(env, i, prep, runErr))
    ensures var n := Next(base, FinishStep(env, i, prep, runErr));
      NoneRunning(n.plan) && n.risk >= env.assessed
  {
    var s := FinishStep(env, i, prep, runErr);
    FinishStepInv(base, s) by { hide Enabled; }
    FinishIs(base, m, i, prep, runErr, env);
    var j := |m.executions| - 1;
    RaisedRisk(m, m.plan[i], m.executions[j], runErr, env.finish);
    FinishedRisk(m, i, j, OutcomeOf(m, m.plan[i], m.executions[j], runErr, env.finish));
    assert m.risk >= env.assessed by { PrepRisk(base, m, i, prep, env); }
  }

  lemma PrepRisk(base: Mission, m: Mission, i: nat, prep: Prep, env: Env)
    requires Working(base, m, i, prep, env)
    ensures m.risk >= env.assessed && m.fixCycles == base.fixCycles
  {
    hide OwnedId, GoodTaskId;
  }

  lemma FinishedRisk(m: Mission, i: nat, j: nat, out: Outcome)
    requires i < |m.plan| && j < |m.executions|
    ensures Finished(m, i, j, out).risk == out.risk
  {
    hide RepairLead;
  }

  /** Judges the execution, applies the outcome to the copy and saves it. */
  method FinishMissionTask(store: Missions, c: Copy, i: nat, prep: Prep, runErr: bool, env: Env, ghost base: Mission)
    returns (r: Report, d: Copy, succeeded: bool)
    requires store.Valid() && store.At(c, base) && Sound(base, env) && Working(base, c.m, i, prep, env)
    requires !runErr ==> prep.Unprepared? && base.plan[i].worktree != "" && base.plan[i].head != "" && !NeedsGate(c.m)
    modifies store
    ensures store.Valid() && old(store.saved) <= store.saved && !r.Unchanged?
    ensures r.Done? ==> Enabled(base, FinishStep(env, i, prep, runErr)) && d.m == Next(base, FinishStep(env, i, prep, runErr))
    ensures r.Done? ==> store.At(d, d.m) && Sound(d.m, env) && NoneRunning(d.m.plan) && d.m.risk >= env.assessed
    ensures r.Done? && succeeded ==> d.m.state.Pending? && !NeedsGate(d.m)
    ensures runErr ==> !succeeded
    ensures i < |base.plan| && (succeeded <==> Succeeds(base, FinishStep(env, i, prep, runErr)))
    ensures old(Smooth(store, c, env)) ==> r.Done? && Smooth(store, d, env)
  {
    hide Run, Enabled, Next, Plausible, Inv, Working, OutcomeOf, Finished, NoneRunning, RunsTask, PrepFits, Succeeds, NeedsGate;
    FinishEnabled(base, c.m, i, prep, runErr, env);
    FinishIs(base, c.m, i, prep, runErr, env);
    FinishLeaves(base, c.m, i, prep, runErr, env);
    SoundNext(base, FinishStep(env, i, prep, runErr), env);
    SuccessIs(base, c.m, i, prep, runErr, env);
    var j := |c.m.executions| - 1;
    var m;
    m, succeeded := FinishLocally(c.m, i, j, runErr, env.finish);
    SuccessIsPending(c.m, i, j, runErr, env.finish);
    SuccessNeedsNoGate(c.m, i, j, runErr, env.finish);
    if (succeeded || m.fixCycles != c.m.fixCycles) && !env.statusSaved {
      return Interrupted, c, succeeded;
    }
    store.Others(env.others(3));
    var ok;
    ok, d := store.Save(Copy(m, c.revision), env.stored(3), base, FinishStep(env, i, prep, runErr));
    r := if ok then Done else Interrupted;
  }

  lemma SuccessIs(base: Mission, m: Mission, i: nat, prep: Prep, runErr: bool, env: Env)
    requires Working(base, m, i, prep, env) && Enabled(base, FinishStep(env, i, prep, runErr))
    ensures i < |base.plan| && i < |m.plan| && m.executions != []
    ensures !OutcomeOf(m, m.plan[i], m.executions[|m.executions| - 1], runErr, env.finish).err <==> Succeeds(base, FinishStep(env, i, prep, runErr))
  {
    var s := FinishStep(env, i, prep, runErr);
    assert m == Base(base, s);
    BaseFacts(base, s);
    hide Enabled, Working, OutcomeOf, Base, CommitHeld, BranchHeld, RiskCommitted, RiskFound, Approved;
    HeldOverBase(base, m, s);
    OutcomeExactly(m, m.plan[i], m.executions[|m.executions| - 1], runErr, env.finish);
  }

  lemma SuccessIsPending(m: Mission, i: nat, j: nat, runErr: bool, o: FinishObs)
    requires i < |m.plan| && j < |m.executions|
    ensures var out := OutcomeOf(m, m.plan[i], m.executions[j], runErr, o);
      (!out.err ==> Finished(m, i, j, out).state.Pending?) && (runErr ==> out.err)
  {
    hide CheckEvidence, ChecksPass, RepairLead;
  }

  /** A success raises the risk by nothing that would have needed a human. */
  lemma SuccessNeedsNoGate(m: Mission, i: nat, j: nat, runErr: bool, o: FinishObs)
    requires i < |m.plan| && j < |m.executions| && (!runErr ==> !NeedsGate(m))
    ensures var out := OutcomeOf(m, m.plan[i], m.executions[j], runErr, o);
      !out.err ==> !NeedsGate(Finished(m, i, j, out))
  {
    hide CheckEvidence, ChecksPass, RepairLead;
  }

  /** Finishes and, when that leaves nothing ready, concludes in the same call. */
  method FinishAndConclude(store: Missions, c: Copy, i: nat, prep: Prep, runErr: bool, env: Env, ghost base: Mission)
    returns (r: Report, d: Copy, ghost conclude: Option<Step>)
    requires store.Valid() && store.At(c, base) && Sound(base, env) && Working(base, c.m, i, prep, env)
    requires !runErr ==> prep.Unprepared? && base.plan[i].worktree != "" && base.plan[i].head != "" && !NeedsGate(c.m)
    modifies store
    ensures store.Valid() && old(store.saved) <= store.saved && !r.Unchanged?
    ensures r.Done? ==> Concluded(store, base, FinishStep(env, i, prep, runErr), conclude, d)
    ensures old(Smooth(store, c, env)) ==> r.Done? && Smooth(store, d, env)
  {
    hide Run, Enabled, Next, Plausible, Inv, Working, Concluding, NoneRunning, RunsTask, PrepFits, NeedsGate;
    var succeeded;
    conclude := None;
    r, d, succeeded := FinishMissionTask(store, c, i, prep, runErr, env, base);
    if r.Done? && succeeded {
      var plan, ready := FindReady(d.m.plan);
      if ready == [] {
        ghost var finished := d.m;
        NothingReady(finished, ready, plan, env);
        var e;
        r, e := CompleteMission(store, Copy(d.m.(plan := plan), d.revision), env, 4, finished);
        if r.Done? {
          d, conclude := e, Some(Conclude(env.assessed, env.view));
        } else if r.Unchanged? {
          r := Done;
        }
      }
    }
  }

  ghost predicate Concluded(store: Missions, base: Mission, finish: Step, conclude: Option<Step>, d: Copy)
    reads store
  {
    && store.At(d, d.m) && Enabled(base, finish)
    && (match conclude
        case None => d.m == Next(base, finish)
        case Some(s) => s.Conclude? && Enabled(Next(base, finish), s) && d.m == Next(Next(base, finish), s))
  }

  lemma NothingReady(m: Mission, ready: seq<nat>, plan: seq<Task>, env: Env)
    requires ready == [] && (forall k: nat :: k in ready <==> k < |m.plan| && IsReady(m.plan, k)) && m.risk >= env.assessed && !NeedsGate(m)
    requires plan == Rescheduled(m.plan)
    ensures NoneReady(m.plan) && m.(plan := plan) == Concluding(m, env.assessed) && !NeedsGate(Raised(m, env.assessed))
  {
    hide IsReady, Rescheduled, NeedsGate;
    assert Raised(m, env.assessed) == m;
    forall k: nat | k < |m.plan| ensures !IsReady(m.plan, k) {
      assert k !in ready;
    }
  }

  // ---------- running a claimed task ----------

  /** The claimed version `m` runs task `i`, which has no location yet. */
  ghost predicate Claimed(m: Mission, i: nat, env: Env) {
    RunsTask(m, i) && PrepFits(m.plan[i], Located(if m.plan[i].taskId == "" then env.setup.taskId else m.plan[i].taskId))
    && m.risk >= env.assessed && !NeedsGate(m)
  }

  lemma ClaimedWorks(m: Mission, i: nat, env: Env)
    requires Claimed(m, i, env)
    ensures Working(m, m, i, Unprepared, env)
  {
  }

  lemma LocatedWorks(m: Mission, i: nat, env: Env, taskId: string)
    requires Claimed(m, i, env) && taskId == if m.plan[i].taskId == "" then env.setup.taskId else m.plan[i].taskId
    ensures GoodTaskId(taskId) && m.plan[i].attempts >= 0
    ensures var t := LocatedTask(m, m.plan[i], taskId);
      Working(m, m.(plan := m.plan[i := t]), i, Located(taskId), env)
        && forall head :: Working(m, m.(plan := m.plan[i := t.(head := head)]), i, Headed(taskId, head), env)
  {
    hide OwnedId, GoodTaskId;
  }

  /** The saved location, from which the session starts. */
  ghost predicate Placed(m: Mission, i: nat, env: Env) {
    RunsTask(m, i) && m.plan[i].worktree != "" && m.plan[i].head != "" && m.risk >= env.assessed && !NeedsGate(m)
  }

  lemma PlacedWorks(m: Mission, i: nat, env: Env)
    requires Placed(m, i, env)
    ensures Working(m, m, i, Unprepared, env)
  {
  }

  lemma HeadedEnabled(m: Mission, n: Mission, i: nat, env: Env, prep: Prep)
    requires Claimed(m, i, env) && Working(m, n, i, prep, env) && prep.Headed? && prep.head != ""
    ensures Enabled(m, Prepare(i, prep)) && n == Next(m, Prepare(i, prep)) && Placed(n, i, env)
  {
    hide OwnedId, GoodTaskId;
  }

  lemma AttachPlaced(m: Mission, i: nat, env: Env, sessionId: string)
    requires Placed(m, i, env)
    ensures Enabled(m, Attach(sessionId))
    ensures Placed(Next(m, Attach(sessionId)), i, env)
  {
  }

  lemma WorksOne(m: Mission, s: Step)
    requires Enabled(m, s) && (s.Prepare? || s.Attach?)
    ensures Works(m, [s], Next(m, s))
  {
    hide Enabled, Next;
    assert Works(Next(m, s), [s][1..], Next(m, s));
  }

  lemma WorksTwo(m: Mission, s: Step, t: Step)
    requires Enabled(m, s) && s.Prepare? && Enabled(Next(m, s), t) && t.Attach?
    ensures Works(m, [s, t], Next(Next(m, s), t))
  {
    hide Enabled, Next;
    WorksOne(Next(m, s), t);
    assert [s, t][1..] == [t];
  }

  /** What a claimed task's run saved, up to its end. */
  ghost predicate Executed(store: Missions, claimed: Mission, work: seq<Step>, worked: Mission, finish: Step, conclude: Option<Step>, d: Copy)
    reads store
  {
    Works(claimed, work, worked) && finish.Finish? && Concluded(store, worked, finish, conclude, d)
  }

  /** Prepares the worktree, runs the session and finishes, whatever goes wrong on the way. */
  method RunClaimedTask(store: Missions, c: Copy, i: nat, env: Env)
    returns (r: Report, d: Copy, ghost work: seq<Step>, ghost worked: Mission, ghost finish: Step, ghost conclude: Option<Step>)
    requires store.Valid() && store.At(c, c.m) && Sound(c.m, env) && Claimed(c.m, i, env)
    modifies store
    ensures store.Valid() && old(store.saved) <= store.saved && !r.Unchanged?
    ensures r.Done? ==> Executed(store, c.m, work, worked, finish, conclude, d)
    ensures old(Smooth(store, c, env)) ==> r.Done? && Smooth(store, d, env)
  {
    hide Run, Enabled, Next, Plausible, Inv, Working, Claimed, Placed, Concluded, RunsTask, PrepFits, LocatedTask, GoodTaskId;
    var m := c.m;
    ClaimedIndex(m, i, env);
    work, worked, finish, conclude := [], m, FinishStep(env, i, Unprepared, true), None;
    ClaimedWorks(m, i, env);
    var setup := env.setup;
    if !setup.sourceRead || (m.plan[i].taskId == "" && !setup.created) {
      r, d, conclude := FinishAndConclude(store, c, i, Unprepared, true, env, m);
      return;
    }
    var taskId := if m.plan[i].taskId == "" then setup.taskId else m.plan[i].taskId;
    LocatedWorks(m, i, env, taskId);
    var t := LocatedTask(m, m.plan[i], taskId);
    if !setup.linked || setup.head.None? {
      finish := FinishStep(env, i, Located(taskId), true);
      r, d, conclude := FinishAndConclude(store, Copy(m.(plan := m.plan[i := t]), c.revision), i, Located(taskId), true, env, m);
      return;
    }
    var prep := Headed(taskId, setup.head.value);
    var n := m.(plan := m.plan[i := t.(head := setup.head.value)]);
    var saved := false;
    d := Copy(n, c.revision);
    if setup.statusSaved {
      PlausibleFacts(m, env);
      HeadedEnabled(m, n, i, env, prep);
      store.Others(env.others(1));
      saved, d := store.Save(d, env.stored(1), m, Prepare(i, prep));
    }
    if !saved {
      finish := FinishStep(env, i, prep, true);
      r, d, conclude := FinishAndConclude(store, d, i, prep, true, env, m);
      return;
    }
    SoundNext(m, Prepare(i, prep), env);
    r, d, work, worked, finish, conclude := RunSession(store, d, i, env, m, Prepare(i, prep));
  }

  lemma ClaimedIndex(m: Mission, i: nat, env: Env)
    requires Claimed(m, i, env)
    ensures i < |m.plan| && Works(m, [], m)
  {
  }

  lemma PlacedIndex(m: Mission, i: nat, env: Env)
    requires Placed(m, i, env)
    ensures i < |m.plan| && m.executions != [] && m.plan[i].worktree != "" && m.plan[i].head != "" && !NeedsGate(m)
  {
  }

  /** From the saved location to the end of the session. */
  method RunSession(store: Missions, c: Copy, i: nat, env: Env, ghost claimed: Mission, ghost prepare: Step)
    returns (r: Report, d: Copy, ghost work: seq<Step>, ghost worked: Mission, ghost finish: Step, ghost conclude: Option<Step>)
    requires store.Valid() && store.At(c, c.m) && Sound(c.m, env) && Placed(c.m, i, env)
    requires Enabled(claimed, prepare) && prepare.Prepare? && c.m == Next(claimed, prepare)
    modifies store
    ensures store.Valid() && old(store.saved) <= store.saved && !r.Unchanged?
    ensures r.Done? ==> Executed(store, claimed, work, worked, finish, conclude, d)
    ensures old(Smooth(store, c, env)) ==> r.Done? && Smooth(store, d, env)
  {
    hide Run, Enabled, Next, Plausible, Inv, Working, Placed, Concluded, RunsTask, PrepFits, Works;
    PlacedIndex(c.m, i, env);
    work, worked, finish, conclude := [prepare], c.m, FinishStep(env, i, Unprepared, true), None;
    WorksOne(claimed, prepare);
    if !env.handedOff || env.session.None? {
      PlacedWorks(c.m, i, env);
      r, d, conclude := FinishAndConclude(store, c, i, Unprepared, true, env, c.m);
      return;
    }
    var j := |c.m.executions| - 1;
    var n := c.m.(executions := c.m.executions[j := c.m.executions[j].(sessionId := env.session.value)]);
    ghost var attach := Attach(env.session.value);
    AttachPlaced(c.m, i, env, env.session.value);
    AttachIs(c.m, n, env.session.value);
    SoundNext(c.m, attach, env);
    store.Others(env.others(2));
    var saved;
    saved, d := store.Save(Copy(n, c.revision), env.stored(2), c.m, attach);
    if !saved {
      r := Interrupted;
      return;
    }
    PlacedIndex(n, i, env);
    PlacedWorks(n, i, env);
    WorksTwo(claimed, prepare, attach);
    work, worked, finish := [prepare, attach], n, FinishStep(env, i, Unprepared, env.runErr);
    r, d, conclude := FinishAndConclude(store, d, i, Unprepared, env.runErr, env, n);
  }

  lemma AttachIs(m: Mission, n: Mission, sessionId: string)
    requires Enabled(m, Attach(sessionId))
    requires m.executions != []
    requires n == m.(executions := m.executions[|m.executions| - 1 := m.executions[|m.executions| - 1].(sessionId := sessionId)])
    ensures n == Next(m, Attach(sessionId))
  {
    hide Enabled;
  }

  // ---------- starting a task ----------

  /** Nothing is over, gated or running, and task `i` is the first ready one. */
  ghost predicate Startable(base: Mission, i: nat, env: Env) {
    && !Terminal(base.state) && 0 <= env.assessed <= 4 && !NeedsGate(Raised(base, env.assessed))
    && NoneRunning(base.plan) && IsFirstReady(base.plan, i)
  }

  lemma StartEnabled(base: Mission, i: nat, env: Env, models: seq<Model>, size: int)
    requires Startable(base, i, env) && Reevaluated(base.models, models) && size >= base.plan[i].contextSize
    ensures CanDispatch(base, env.assessed, models, i, size)
  {
    hide NeedsGate, NoneRunning, IsFirstReady, Reevaluated;
  }

  /** Routing looks at the rescheduled task; its eligibility does not depend on the label. */
  lemma EligibleRescheduled(base: Mission, i: nat, env: Env, models: seq<Model>, size: int, available: map<string, bool>, x: Model)
    requires i < |base.plan|
    requires Eligible(Prepared(base, env.assessed, models), Prepared(base, env.assessed, models).plan[i].(contextSize := size), available, x)
    ensures Eligible(Raised(base, env.assessed), base.plan[i].(contextSize := size), available, x)
  {
    hide DepsDone;
  }

  /** The policy lets the chosen model do this task. */
  predicate Allowed(m: Mission, i: nat, chosen: Model) {
    i < |m.plan| && (m.plan[i].role.Review? && m.policy.requireDifferentReviewModel ==> Independent(m.executions, chosen))
  }

  lemma DispatchEnabled(base: Mission, i: nat, env: Env, models: seq<Model>, size: int, available: map<string, bool>, chosen: Model)
    requires CanDispatch(base, env.assessed, models, i, size) && 0 <= chosen.tier <= 2
    requires var m := Prepared(base, env.assessed, models);
      !Exhausted(m) && Eligible(m, m.plan[i].(contextSize := size), available, chosen)
    requires Allowed(base, i, chosen)
    ensures Enabled(base, Dispatch(env.assessed, models, i, size, available, chosen, env.executionId))
  {
    EligibleRescheduled(base, i, env, models, size, available, chosen);
    hide CanDispatch, Eligible, Rescheduled, Independent;
  }

  lemma FreshlyClaimed(m: Mission, t: Task, u: Task, size: int)
    requires TaskOk(m, t) && SameButLabel(t, u)
    ensures var v := DispatchedTask(u.(contextSize := size));
      v.worktree == "" && v.head == "" && v.attempts >= 0 && v.taskId == t.taskId && (t.taskId != "" ==> GoodTaskId(t.taskId))
  {
    hide OwnedId, GoodTaskId, AttemptLimit;
  }

  lemma ClaimOf(p: Mission, i: nat, size: int, chosen: Model, env: Env)
    requires i < |p.plan| && p.risk >= env.assessed && GoodTaskId(env.setup.taskId) && !NeedsGate(p)
    requires var v := DispatchedTask(p.plan[i].(contextSize := size));
      v.worktree == "" && v.head == "" && v.attempts >= 0 && (v.taskId != "" ==> GoodTaskId(v.taskId))
    ensures Claimed(Dispatched(p, i, size, chosen, env.executionId), i, env)
  {
    hide GoodTaskId;
  }

  lemma PreparedTask(base: Mission, i: nat, env: Env, models: seq<Model>)
    requires i < |base.plan|
    ensures var p := Prepared(base, env.assessed, models);
      |p.plan| == |base.plan| && SameButLabel(base.plan[i], p.plan[i]) && p.risk >= env.assessed
        && (!NeedsGate(Raised(base, env.assessed)) ==> !NeedsGate(p))
  {
    hide DepsDone;
  }

  lemma DispatchedClaims(base: Mission, i: nat, env: Env, models: seq<Model>, size: int, chosen: Model, n: Mission)
    requires Sound(base, env) && i < |base.plan| && !NeedsGate(Raised(base, env.assessed))
    requires n == Dispatched(Prepared(base, env.assessed, models), i, size, chosen, env.executionId)
    ensures Claimed(n, i, env)
  {
    hide Inv, Plausible, TaskOk, SameButLabel, Claimed, Dispatched, Prepared, DispatchedTask, GoodTaskId, NeedsGate;
    InvTask(base, i);
    PlausibleFacts(base, env);
    PreparedTask(base, i, env, models);
    FreshlyClaimed(base, base.plan[i], Prepared(base, env.assessed, models).plan[i], size);
    ClaimOf(Prepared(base, env.assessed, models), i, size, chosen, env);
  }

  lemma Ungated(base: Mission, env: Env, models: seq<Model>, i: nat, size: int)
    requires CanDispatch(base, env.assessed, models, i, size)
    ensures !NeedsGate(Raised(base, env.assessed))
  {
    hide NeedsGate, NoneRunning, IsFirstReady, Reevaluated;
  }

  /** Claims the task for the chosen model and runs it. */
  method DispatchTask(store: Missions, c: Copy, i: nat, size: int, available: map<string, bool>, chosen: Model, env: Env, ghost base: Mission)
    returns (r: Report, d: Copy, ghost made: Advance)
    requires store.Valid() && store.At(c, base) && Sound(base, env) && c.m == Prepared(base, env.assessed, c.m.models)
    requires CanDispatch(base, env.assessed, c.m.models, i, size) && i < |base.plan| && i < |c.m.plan|
    requires 0 <= chosen.tier <= 2 && !Exhausted(c.m) && Eligible(c.m, c.m.plan[i].(contextSize := size), available, chosen)
    requires Allowed(base, i, chosen)
    modifies store
    ensures store.Valid() && old(store.saved) <= store.saved && !r.Unchanged?
    ensures r.Done? ==> Advanced(store, base, made, d)
    ensures old(Smooth(store, c, env)) ==> r.Done? && Smooth(store, d, env)
  {
    hide Run, Enabled, Next, Plausible, Inv, CanDispatch, Executed, Claimed, Eligible, Exhausted, Prepared, Dispatched, Advanced, RunsTask, ClaimedFrom, StandsFor, Allowed, NeedsGate;
    assert !NeedsGate(Raised(base, env.assessed)) by { Ungated(base, env, c.m.models, i, size); }
    DispatchEnabled(base, i, env, c.m.models, size, available, chosen);
    var n := Claim(c.m, i, size, chosen, env.executionId);
    ClaimIsDispatch(c.m, i, size, chosen, env.executionId, n);
    ghost var dispatch := Dispatch(env.assessed, c.m.models, i, size, available, chosen, env.executionId);
    DispatchIs(base, n, dispatch);
    SoundNext(base, dispatch, env);
    DispatchedClaims(base, i, env, c.m.models, size, chosen, n);
    made := Decides(dispatch);
    store.Others(env.others(0));
    var saved;
    saved, d := store.Save(Copy(n, c.revision), env.stored(0), base, dispatch);
    r := Interrupted;
    if saved {
      ghost var work, worked, finish, conclude;
      r, d, work, worked, finish, conclude := RunClaimedTask(store, d, i, env);
      made := Executes(dispatch, work, worked, finish, conclude);
      if r.Done? {
        ExecutedAdvances(store, base, dispatch, work, worked, finish, conclude, d);
      }
    }
  }

  /** Without a model the task and its mission escalate. */
  method RefuseTask(store: Missions, c: Copy, i: nat, size: int, env: Env, ghost base: Mission)
    returns (r: Report, d: Copy, ghost made: Advance)
    requires store.Valid() && store.At(c, base) && c.m == Prepared(base, env.assessed, c.m.models)
    requires CanDispatch(base, env.assessed, c.m.models, i, size) && i < |c.m.plan|
    modifies store
    ensures store.Valid() && old(store.saved) <= store.saved && !r.Unchanged?
    ensures r.Done? ==> Advanced(store, base, made, d)
    ensures old(Smooth(store, c, env)) ==> r.Done? && Smooth(store, d, env)
  {
    hide Run, Enabled, Next, CanDispatch, Prepared, Advances, RefusedExecution;
    var m := c.m;
    var t := m.plan[i].(contextSize := size);
    var refused := m.(plan := m.plan[i := t.(state := Escalated)], state := Escalated, executions := m.executions + [RefusedExecution(env.executionId, t)]);
    ghost var refuse := Refuse(env.assessed, m.models, i, size, env.executionId);
    RefuseIs(base, refused, refuse, i, m.models, size, env);
    made := Decides(refuse);
    DecidesAdvance(base, refuse);
    store.Others(env.others(0));
    var saved;
    saved, d := store.Save(Copy(refused, c.revision), env.stored(0), base, refuse);
    r := if saved then Done else Interrupted;
  }

  /** Picks a model for the first ready task and dispatches it, or escalates. */
  method StartTask(store: Missions, c: Copy, i: nat, env: Env, ghost base: Mission)
    returns (r: Report, d: Copy, ghost made: Advance)
    requires store.Valid() && store.At(c, base) && c.m == Concluding(base, env.assessed)
    requires Sound(base, env) && Startable(base, i, env) && TiersOk(base.models)
    modifies store
    ensures store.Valid() && old(store.saved) <= store.saved && !r.Unchanged?
    ensures r.Done? ==> Advanced(store, base, made, d)
    ensures old(Smooth(store, c, env)) ==> r.Done? && Smooth(store, d, env)
  {
    hide Run, Plausible, Inv, Startable, CanDispatch, Eligible, Exhausted, TiersOk, Reevaluated, Advanced, Independent, RankedBefore, MayRun, Allowed;
    StartIndex(base, i, env);
    PlausibleFacts(base, env);
    r, d, made := Interrupted, c, Decides(RetryMission);
    if env.adapters.None? || env.scores.None? {
      return;
    }
    var models := Rescore(c.m.models, env.scores.value);
    RescoredTiers(base.models, models);
    var m := c.m.(models := models);
    var size := Max(m.plan[i].contextSize, env.promptSize);
    StartEnabled(base, i, env, models, size);
    var choice := None;
    if !env.routed.Unreadable? {
      var routes := if env.routed.Bound? then env.routed.models else models;
      choice := Choose(m, m.plan[i].(contextSize := size), routes, env.adapters.value);
      if choice.Some? {
        ChosenTier(m, m.plan[i].(contextSize := size), routes, env.adapters.value, choice.value);
        ChosenAllowed(base, m, i, size, routes, env.adapters.value, choice.value);
      }
    }
    if choice.None? {
      r, d, made := RefuseTask(store, Copy(m, c.revision), i, size, env, base);
    } else {
      r, d, made := DispatchTask(store, Copy(m, c.revision), i, size, env.adapters.value, choice.value, env, base);
    }
  }

  lemma StartIndex(base: Mission, i: nat, env: Env)
    requires Startable(base, i, env)
    ensures i < |base.plan| && Concluding(base, env.assessed).plan[i].contextSize == base.plan[i].contextSize && !Terminal(base.state)
    ensures Concluding(base, env.assessed).plan[i].role == base.plan[i].role
  {
    hide NeedsGate, NoneRunning, DepsDone;
  }

  lemma RescoredTiers(models: seq<Model>, rescored: seq<Model>)
    requires TiersOk(models) && Reevaluated(models, rescored)
    ensures TiersOk(rescored)
  {
    forall k | 0 <= k < |rescored| ensures 0 <= rescored[k].tier <= 2 {
      assert SameButEvaluation(models[k], rescored[k]);
    }
  }

  lemma ChosenTier(m: Mission, t: Task, models: seq<Model>, available: map<string, bool>, x: Model)
    requires MayRun(m, t, models, available, x) && TiersOk(models)
    ensures 0 <= x.tier <= 2 && Eligible(m, t, available, x)
  {
    hide Eligible, Independent;
  }

  lemma ChosenAllowed(base: Mission, m: Mission, i: nat, size: int, models: seq<Model>, available: map<string, bool>, x: Model)
    requires i < |m.plan| == |base.plan| && m.plan[i].role == base.plan[i].role && m.policy == base.policy && m.executions == base.executions
    requires MayRun(m, m.plan[i].(contextSize := size), models, available, x)
    ensures Allowed(base, i, x)
  {
    hide Eligible, Independent;
  }

  lemma RefuseIs(base: Mission, refused: Mission, s: Step, i: nat, models: seq<Model>, size: int, env: Env)
    requires CanDispatch(base, env.assessed, models, i, size) && s == Refuse(env.assessed, models, i, size, env.executionId)
    requires var m := Prepared(base, env.assessed, models);
      var t := m.plan[i].(contextSize := size);
      refused == m.(plan := m.plan[i := t.(state := Escalated)], state := Escalated, executions := m.executions + [RefusedExecution(env.executionId, t)])
    ensures Enabled(base, s) && refused == Next(base, s)
  {
    hide CanDispatch, Rescheduled;
  }

  lemma DispatchIs(base: Mission, n: Mission, s: Step)
    requires s.Dispatch? && Enabled(base, s) && s.index < |base.plan|
    requires n == Dispatched(Prepared(base, s.assessed, s.models), s.index, s.size, s.chosen, s.id)
    ensures n == Next(base, s)
  {
    hide Enabled, Prepared, Dispatched;
  }

  lemma DecidesAdvance(m: Mission, s: Step)
    requires Enabled(m, s) && (s.EscalateRisk? || s.Refuse? || s.Conclude?)
    ensures Advances(m, Decides(s), Next(m, s))
  {
    hide Enabled, Next;
  }

  lemma ExecutedAdvances(store: Missions, base: Mission, dispatch: Step, work: seq<Step>, worked: Mission, finish: Step, conclude: Option<Step>, d: Copy)
    requires dispatch.Dispatch? && Enabled(base, dispatch) && Executed(store, Next(base, dispatch), work, worked, finish, conclude, d)
    ensures Advanced(store, base, Executes(dispatch, work, worked, finish, conclude), d)
  {
    hide Enabled, Next, Works;
  }

  // ---------- recovery ----------

  lemma RecoveryEnabled(base: Mission, m: Mission, i: nat, env: Env)
    requires Inv(base) && Working(base, m, i, Unprepared, env) && Enabled(base, FinishStep(env, i, Unprepared, true))
    ensures var n := Next(base, FinishStep(env, i, Unprepared, true));
      i < |n.plan| && Enabled(n, Abandon(i)) && Next(n, Abandon(i)) == n.(plan := n.plan[i := n.plan[i].(state := Escalated)], state := Escalated)
  {
    FinishIs(base, m, i, Unprepared, true, env);
    RunningVerdict(base);
    FailedFinish(m, i, |m.executions| - 1, env.finish);
  }

  lemma RunningVerdict(m: Mission)
    requires Inv(m) && m.executions != [] && m.executions[|m.executions| - 1].result.Running?
    ensures m.executions[|m.executions| - 1].review.NotRun?
  {
    hide PlanShape, TasksOk, AllBelong, RunningLinked, CompletedLinked, RetriesRise, StateOk, EscalationOk, OnlyLastRuns, Started, UsedOwnWorktree;
    assert ExecutionOk(m, |m.executions| - 1, m.executions[|m.executions| - 1]);
  }

  /** A run error fails the execution without a verdict, so no repair cycle starts. */
  lemma FailedFinish(m: Mission, i: nat, j: nat, o: FinishObs)
    requires i < |m.plan| && j < |m.executions| && m.executions[j].review.NotRun? && m.executions[j].taskId == m.plan[i].id
    ensures var n := Finished(m, i, j, OutcomeOf(m, m.plan[i], m.executions[j], true, o));
      && |n.plan| == |m.plan| && |n.executions| == |m.executions| && n.executions[j].result.Failed? && n.executions[j].taskId == n.plan[i].id
      && n.state == n.plan[i].state && (n.state.Retry? || n.state.Escalated?)
  {
    hide CheckEvidence, ChecksPass, RepairLead;
  }

  /** Fails the interrupted execution of the running task, then escalates so that nothing replays it. */
  method ReconcileMission(store: Missions, c: Copy, env: Env, ghost base: Mission) returns (r: Report, d: Copy, ghost made: Advance)
    requires store.Valid() && store.At(c, base) && c.m == Raised(base, env.assessed)
    requires Sound(base, env) && !Terminal(base.state) && !NoneRunning(base.plan)
    modifies store
    ensures store.Valid() && old(store.saved) <= store.saved
    ensures r.Done? ==> Advanced(store, base, made, d)
    ensures r.Unchanged? ==> store.saved == old(store.saved) && env.sessionRunning
    ensures old(Smooth(store, c, env)) ==> r.Done? && Smooth(store, d, env)
  {
    hide Run, Enabled, Next, Plausible, Inv, Working;
    var m := c.m;
    var i, j := RunningTask(m, base, env);
    RecoverableWorks(base, m, i, j, env);
    made := Recovers(FinishStep(env, i, Unprepared, true), Abandon(i));
    if m.executions[j].sessionId != "" && env.sessionRunning {
      return Unchanged, c, made;
    }
    FinishEnabled(base, m, i, Unprepared, true, env);
    RecoveryEnabled(base, m, i, env);
    var succeeded;
    r, d, succeeded := FinishMissionTask(store, c, i, Unprepared, true, env, base);
    if r.Done? {
      store.Others(env.others(4));
      ghost var failed := d.m;
      var n := d.m.(plan := d.m.plan[i := d.m.plan[i].(state := Escalated)], state := Escalated);
      var saved;
      saved, d := store.Save(Copy(n, d.revision), env.stored(4), failed, Abandon(i));
      r := if saved then Done else Interrupted;
    }
  }

  lemma RecoverableWorks(base: Mission, m: Mission, i: nat, j: nat, env: Env)
    requires m == Raised(base, env.assessed) && !Terminal(base.state) && i < |m.plan| && m.plan[i].state.Running?
    requires j < |m.executions| && j == |m.executions| - 1 && m.executions[j].taskId == m.plan[i].id && m.executions[j].result.Running?
    ensures Working(base, m, i, Unprepared, env)
  {
  }

  /** The running task and its execution; the invariant makes the second the last one. */
  method RunningTask(m: Mission, ghost base: Mission, env: Env) returns (i: nat, j: nat)
    requires m == Raised(base, env.assessed) && Inv(base) && !NoneRunning(base.plan)
    ensures i < |m.plan| && m.plan[i].state.Running?
    ensures j < |m.executions| && j == |m.executions| - 1 && m.executions[j].taskId == m.plan[i].id && m.executions[j].result.Running?
  {
    hide Inv;
    i := 0;
    while !m.plan[i].state.Running?
      invariant i < |m.plan| && forall k :: 0 <= k < i ==> !m.plan[k].state.Running?
      decreases |m.plan| - i
    {
      i := i + 1;
    }
    RunningRecord(base, i);
    j := 0;
    while m.executions[j].taskId != m.plan[i].id || !m.executions[j].result.Running?
      invariant j < |m.executions|
      decreases |m.executions| - j
    {
      j := j + 1;
    }
  }

  lemma RunningRecord(m: Mission, i: nat)
    requires Inv(m) && i < |m.plan| && m.plan[i].state.Running?
    ensures m.executions != [] && m.executions[|m.executions| - 1].taskId == m.plan[i].id && m.executions[|m.executions| - 1].result.Running?
    ensures forall j :: 0 <= j < |m.executions| - 1 ==> !m.executions[j].result.Running?
  {
    hide PlanShape, TasksOk, ExecutionsOk, AllBelong, CompletedLinked, RetriesRise, StateOk, EscalationOk, Started;
  }

  // ---------- the two calls ----------

  /**
   * One advance. Whatever other callers save meanwhile, what this call saves extends the run, and a
   * call that gets everything saved has made exactly one advance of the version it read.
   */
  method AdvanceMission(store: Missions, env: Env) returns (r: Report, d: Copy, ghost made: Advance)
    requires store.Valid() && Plausible(store.body, env)
    modifies store
    ensures store.Valid() && old(store.saved) <= store.saved
    ensures r.Done? ==> Advanced(store, old(store.body), made, d)
    ensures r.Unchanged? ==> store.saved == old(store.saved)
    ensures Terminal(old(store.body.state)) ==> r.Unchanged?
    ensures r.Done? && HumansOnly(old(store.body), RiskNow(old(store.body), env.assessed)) ==>
      d.m == old(store.body).(risk := RiskNow(old(store.body), env.assessed), state := Escalated)
    ensures Untroubled(env) && !Terminal(old(store.body.state)) ==> r.Done? && d.m == store.body
  {
    hide Run, Enabled, Next, Plausible, Inv, NeedsGate, NoneRunning, IsReady, TiersOk, Advances, Untroubled, HumansOnly, Startable, AllKept, SomeLost,
      WellJudged, RescheduledTask;
    assert Untroubled(env) ==> env.others(0) == [] && env.stored(0) by { Quiet(env); }
    var c := store.Get();
    ghost var base := c.m;
    RunFactsAt(store, base);
    PlausibleFacts(base, env);
    GateExactly(base, env.assessed);
    var m := c.m.(risk := Max(c.m.risk, env.assessed));
    r, d, made := Unchanged, c, Decides(RetryMission);
    if Terminal(m.state) {
      return;
    }
    if NeedsGate(m) {
      GateEnabled(base, env);
      store.Others(env.others(0));
      var saved;
      saved, d := store.Save(Copy(m.(state := Escalated), c.revision), env.stored(0), base, EscalateRisk(env.assessed));
      made := Decides(EscalateRisk(env.assessed));
      DecidesAdvance(base, EscalateRisk(env.assessed));
      r := if saved then Done else Interrupted;
      return;
    }
    for k := 0 to |m.plan|
      invariant forall j :: 0 <= j < k ==> !m.plan[j].state.Running?
    {
      if m.plan[k].state.Running? {
        SomeRunning(base.plan, k);
        r, d, made := ReconcileMission(store, Copy(m, c.revision), env, base);
        return;
      }
    }
    var plan, ready := FindReady(m.plan);
    var copy := Copy(m.(plan := plan), c.revision);
    if ready == [] {
      IdleFacts(base, ready);
      r, d := CompleteMission(store, copy, env, 0, base);
      made := Decides(Conclude(env.assessed, env.view));
      if r.Done? {
        DecidesAdvance(base, Conclude(env.assessed, env.view));
      }
      return;
    }
    StartableFirst(base, ready, env);
    r, d, made := StartTask(store, copy, ready[0], env, base);
  }

  lemma RunFactsAt(store: Missions, base: Mission)
    requires store.Valid() && base == store.body
    ensures Inv(base) && TiersOk(base.models)
  {
    hide Run, Inv, TiersOk;
    RunInv(store.saved, store.steps, |store.saved| - 1);
    RunTiers(store.saved, store.steps, |store.saved| - 1);
  }

  lemma GateEnabled(m: Mission, env: Env)
    requires !Terminal(m.state) && 0 <= env.assessed <= 4 && NeedsGate(Raised(m, env.assessed))
    ensures Enabled(m, EscalateRisk(env.assessed)) && Next(m, EscalateRisk(env.assessed)) == Raised(m, env.assessed).(state := Escalated)
  {
    hide NeedsGate;
  }

  lemma SomeRunning(plan: seq<Task>, k: nat)
    requires k < |plan| && plan[k].state.Running?
    ensures !NoneRunning(plan)
  {
  }

  lemma IdleFacts(m: Mission, ready: seq<nat>)
    requires ready == [] && (forall k: nat :: k in ready <==> k < |m.plan| && IsReady(m.plan, k))
    requires forall k :: 0 <= k < |m.plan| ==> !m.plan[k].state.Running?
    ensures NoneReady(m.plan) && NoneRunning(m.plan)
  {
    hide IsReady;
    forall k: nat | k < |m.plan| ensures !IsReady(m.plan, k) {
      assert k !in ready;
    }
  }

  lemma StartableFirst(m: Mission, ready: seq<nat>, env: Env)
    requires ready != [] && (forall i, j :: 0 <= i < j < |ready| ==> ready[i] < ready[j])
    requires forall k: nat :: k in ready <==> k < |m.plan| && IsReady(m.plan, k)
    requires forall k :: 0 <= k < |m.plan| ==> !m.plan[k].state.Running?
    requires !Terminal(m.state) && 0 <= env.assessed <= 4 && !NeedsGate(Raised(m, env.assessed))
    ensures Startable(m, ready[0], env)
  {
    hide IsReady, NeedsGate;
    assert ready[0] in ready;
    assert forall x :: 0 <= x < |ready| ==> ready[x] >= ready[0];
    forall k: nat | k < ready[0] ensures !IsReady(m.plan, k) {
      assert k !in ready;
    }
  }

  lemma Quiet(env: Env)
    ensures Untroubled(env) ==> forall k :: env.others(k) == [] && env.stored(k)
  {
    hide AllAnswered;
  }

  // ---------- calling it again until it is over ----------

  lemma {:induction false} SoundWork(m: Mission, steps: seq<Step>, n: Mission, env: Env)
    requires Sound(m, env) && Works(m, steps, n)
    ensures Sound(n, env)
    decreases |steps|
  {
    hide Sound, Enabled, Next;
    if steps != [] {
      SoundNext(m, steps[0], env);
      SoundWork(Next(m, steps[0]), steps[1..], n, env);
    }
  }

  lemma SoundAdvance(m: Mission, a: Advance, n: Mission, env: Env)
    requires Sound(m, env) && Advances(m, a, n)
    ensures Sound(n, env)
  {
    hide Sound, Enabled, Next, Works;
    match a
    case Decides(s) => SoundNext(m, s, env);
    case Executes(d, work, worked, f, c) =>
      SoundNext(m, d, env);
      SoundWork(Next(m, d), work, worked, env);
      SoundNext(worked, f, env);
      if c.Some? {
        SoundNext(Next(worked, f), c.value, env);
      }
    case Recovers(f, s) =>
      SoundNext(m, f, env);
      SoundNext(Next(m, f), s, env);
  }

  /** The callers' loop: untroubled advances reach an end within the remaining executions plus one call. */
  method AdvanceToEnd(store: Missions, envs: nat -> Env) returns (calls: nat)
    requires store.Valid() && forall k :: Untroubled(envs(k)) && Plausible(store.body, envs(k))
    modifies store
    ensures store.Valid() && old(store.saved) <= store.saved
    ensures Terminal(store.body.state) && calls <= Fuel(old(store.body)) + 1
  {
    hide Run, Plausible, Inv, Untroubled, Fuel, Advances;
    calls := 0;
    ghost var fuel := Fuel(store.body);
    RunFactsAt(store, store.body);
    while !Terminal(store.body.state)
      invariant store.Valid() && old(store.saved) <= store.saved && Inv(store.body)
      invariant forall k :: Sound(store.body, envs(k))
      invariant calls <= fuel + 1 && (!Terminal(store.body.state) ==> calls + Fuel(store.body) <= fuel)
      decreases if Terminal(store.body.state) then 0 else Fuel(store.body) + 1
    {
      ghost var before := store.body;
      var r, d, made := AdvanceMission(store, envs(calls));
      AdvanceProgress(before, made, store.body);
      forall k ensures Sound(store.body, envs(k)) {
        SoundAdvance(before, made, store.body, envs(k));
      }
      calls := calls + 1;
    }
  }

  // ---------- retrying ----------

  datatype RetryReport = HighRisk | NotEscalated | NothingLeft | Retried | Lost

  /** An explicit human retry of everything that still has attempts. */
  method RetryMissionCall(store: Missions, env: Env) returns (r: RetryReport, d: Copy)
    requires store.Valid()
    modifies store
    ensures store.Valid() && old(store.saved) <= store.saved
    ensures r.Retried? ==> Enabled(old(store.body), RetryMission) && d.m == Next(old(store.body), RetryMission) && store.At(d, d.m)
    ensures CanRetry(old(store.body)) <==> r.Retried? || r.Lost?
    ensures r.Retried? ==> store.saved == old(store.saved) + [d.m]
    ensures CanRetry(old(store.body)) ==> (r.Retried? <==> env.stored(0) && Played(old(store.body), env.others(0)) == [])
    ensures r.Lost? ==> store.saved == old(store.saved) + Played(old(store.body), env.others(0))
    ensures !CanRetry(old(store.body)) ==> store.saved == old(store.saved)
  {
    hide Run;
    var c := store.Get();
    d := c;
    if c.m.risk >= 3 {
      return HighRisk, d;
    }
    if !c.m.state.Escalated? {
      return NotEscalated, d;
    }
    var m, retryable := c.m, false;
    for k := 0 to |m.plan|
      invariant m == c.m.(plan := m.plan) && |m.plan| == |c.m.plan|
      invariant forall j :: 0 <= j < k ==> m.plan[j] == RetriedTask(c.m.plan[j])
      invariant forall j :: k <= j < |m.plan| ==> m.plan[j] == c.m.plan[j]
      invariant retryable <==> exists j :: 0 <= j < k && Retryable(c.m.plan[j])
    {
      if Retryable(m.plan[k]) {
        m := m.(plan := m.plan[k := m.plan[k].(state := Retry)]);
        retryable := true;
      }
    }
    if !retryable {
      return NothingLeft, d;
    }
    assert m.(state := Retry) == MissionSteps.Retried(c.m);
    store.Others(env.others(0));
    var saved;
    saved, d := store.Save(Copy(m.(state := Retry), c.revision), env.stored(0), c.m, RetryMission);
    r := if saved then Retried else Lost;
  }
}
