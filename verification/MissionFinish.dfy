/** What finishing an execution decides and records, in terms of what the worktree, the checks and the review answered. */
module MissionFinish {
  import opened Team
  import opened MissionSteps
  import opened MissionInvariant
  import opened MissionVerdict

  // ---------- what has to hold ----------

  /** The controller's own commit: switched off, or of nothing, or of writable files at a low risk. */
  predicate CommitHeld(m: Mission, risk: int, c: CommitObs) {
    m.policy.commitTaskChanges ==> c.read && (c.files > 0 ==> c.writable && risk <= 2 && c.risk <= 2 && c.committed)
  }

  /** The risk once the committed files are assessed. */
  function RiskCommitted(m: Mission, risk: int, c: CommitObs): int {
    if m.policy.commitTaskChanges && c.files > 0 && c.risk > risk then c.risk else risk
  }

  /** The risk after everything that was looked at: the committed files, and the whole branch when the commit held. */
  function RiskFound(m: Mission, risk: int, runErr: bool, o: FinishObs): int {
    if runErr then risk
    else if !CommitHeld(m, risk, o.commit) then (if o.commit.read && o.commit.writable then RiskCommitted(m, risk, o.commit) else risk)
    else if o.tree.risk > RiskCommitted(m, risk, o.commit) then o.tree.risk else RiskCommitted(m, risk, o.commit)
  }

  /**
   * The task branch: listed, clean, its changes within the role's paths and not newly risky, its head
   * known and on the assigned branch, and for a read-only role where it started.
   */
  predicate BranchHeld(t: Task, risk: int, w: TreeObs) {
    && w.listed && w.statusRead && !w.dirty && w.writable
    && (w.risk >= 3 ==> w.risk <= risk)
    && w.headRead && w.onBranch
    && (t.role.Review? || t.role.Explorer? ==> w.head == t.head)
  }

  /** The agent ended without an error and left a branch that may be judged. */
  predicate WorkHeld(m: Mission, s: Step)
    requires s.Finish? && s.index < |m.plan|
  {
    var risk := RiskNow(m, s.assessed);
    && !s.runErr && CommitHeld(m, risk, s.obs.commit)
    && BranchHeld(m.plan[s.index], RiskCommitted(m, risk, s.obs.commit), s.obs.tree)
  }

  /** QA: every check passed and none touched the source. Review: a clean verdict. */
  predicate Approved(role: Role, o: FinishObs) {
    && (role.Qa? ==> (forall k :: 0 <= k < |o.checks| ==> o.checks[k].passed) && o.cleanAfter)
    && (role.Review? ==> o.response.Clean?)
  }

  predicate Succeeds(m: Mission, s: Step)
    requires s.Finish? && s.index < |m.plan|
  {
    WorkHeld(m, s) && Approved(m.plan[s.index].role, s.obs) && s.obs.proof.Some?
  }

  // ---------- the outcome of an execution ----------

  lemma GatesExactly(m: Mission, t: Task, runErr: bool, o: FinishObs)
    ensures var g := AfterTree(t, AfterCommit(m, runErr, o.commit), o.tree);
      && g.artifactHead == (if !runErr && CommitHeld(m, m.risk, o.commit) then o.tree.head else t.artifactHead)
      && (!g.err <==> !runErr && CommitHeld(m, m.risk, o.commit) && BranchHeld(t, RiskCommitted(m, m.risk, o.commit), o.tree))
      && g.risk == RiskFound(m, m.risk, runErr, o)
  {
  }

  /** The execution's own record of a success or failure. */
  lemma OutcomeExactly(m: Mission, t: Task, e: Execution, runErr: bool, o: FinishObs)
    ensures var out := OutcomeOf(m, t, e, runErr, o);
      var held := !runErr && CommitHeld(m, m.risk, o.commit) && BranchHeld(t, RiskCommitted(m, m.risk, o.commit), o.tree);
      && (!out.err <==> held && Approved(t.role, o) && o.proof.Some?)
      && out.artifactHead == (if !runErr && CommitHeld(m, m.risk, o.commit) then o.tree.head else t.artifactHead)
      && out.risk == RiskFound(m, m.risk, runErr, o)
      && out.test == (if held && t.role.Qa? then (if Approved(Qa, o) then Passed else Rejected) else e.test)
      && out.review == (if held && t.role.Review? then (if Approved(Review, o) then Passed else Rejected) else e.review)
  {
    hide AfterTree, AfterCommit, CheckEvidence, CommitHeld, BranchHeld, RiskCommitted, RiskFound;
    GatesExactly(m, t, runErr, o);
  }

  /** Everything that was recorded before or during a successful execution is kept as its evidence. */
  lemma EvidenceKept(m: Mission, t: Task, e: Execution, runErr: bool, o: FinishObs)
    ensures var out := OutcomeOf(m, t, e, runErr, o);
      && (forall x :: x in e.evidence ==> x in out.evidence)
      && (o.proof.Some? ==> o.proof.value in out.evidence)
      && (!out.err && t.role.Qa? ==> forall k :: 0 <= k < |o.checks| && o.checks[k].evidence != "" ==> o.checks[k].evidence in out.evidence)
  {
    OutcomeExactly(m, t, e, runErr, o);
    ChecksKept(o.checks);
    var out := OutcomeOf(m, t, e, runErr, o);
    var ran := if !AfterTree(t, AfterCommit(m, runErr, o.commit), o.tree).err && t.role.Qa? then CheckEvidence(o.checks) else [];
    assert out.evidence == e.evidence + ran + (if o.proof.Some? then [o.proof.value] else []);
    assert !out.err && t.role.Qa? ==> ran == CheckEvidence(o.checks);
    hide OutcomeOf, CheckEvidence, AfterTree, AfterCommit;
  }

  /** The evidence of failing checks too: of each check that ran, up to and including the first that failed, and of nothing else. */
  lemma {:induction false} ChecksExactly(checks: seq<CheckObs>, id: string)
    ensures id in CheckEvidence(checks) <==>
      id != "" && exists k :: 0 <= k < |checks| && checks[k].evidence == id && forall j :: 0 <= j < k ==> checks[j].passed
  {
    if checks != [] {
      ChecksExactly(checks[1..], id);
      if k :| 0 <= k < |checks| && checks[k].evidence == id && forall j :: 0 <= j < k ==> checks[j].passed {
        if k > 0 {
          assert checks[1..][k - 1] == checks[k] && forall j :: 0 <= j < k - 1 ==> checks[1..][j] == checks[j + 1];
        }
      }
      if checks[0].passed {
        if k :| 0 <= k < |checks[1..]| && checks[1..][k].evidence == id && forall j :: 0 <= j < k ==> checks[1..][j].passed {
          assert checks[k + 1] == checks[1..][k] && forall j :: 0 < j < k + 1 ==> checks[j] == checks[1..][j - 1];
        }
      }
    }
  }

  lemma {:induction false} ChecksKept(checks: seq<CheckObs>)
    ensures (forall k :: 0 <= k < |checks| ==> checks[k].passed) ==>
      forall k :: 0 <= k < |checks| && checks[k].evidence != "" ==> checks[k].evidence in CheckEvidence(checks)
  {
    if checks != [] {
      ChecksKept(checks[1..]);
      if forall k :: 0 <= k < |checks| ==> checks[k].passed {
        forall k | 0 <= k < |checks| && checks[k].evidence != "" ensures checks[k].evidence in CheckEvidence(checks) {
          if k > 0 {
            assert checks[1..][k - 1] == checks[k];
          }
        }
      }
    }
  }

  // ---------- the finishing step ----------

  /** The version a finishing step works on. */
  function Base(m: Mission, s: Step): Mission
    requires s.Finish? && Enabled(m, s)
  {
    WithPrep(Raised(m, s.assessed), s.index, s.prep)
  }

  lemma BaseFacts(m: Mission, s: Step)
    requires s.Finish? && Enabled(m, s)
    ensures s.index < |m.plan| && m.executions != []
    ensures var b := Base(m, s);
      && |b.plan| == |m.plan| && b.executions == m.executions && b.risk == RiskNow(m, s.assessed) && b.policy == m.policy
      && b.fixCycles == m.fixCycles && b.budget == m.budget
      && b.plan[s.index].role == m.plan[s.index].role && b.plan[s.index].attempts == m.plan[s.index].attempts
      && b.plan[s.index].maxAttempts == m.plan[s.index].maxAttempts && b.plan[s.index].artifactHead == m.plan[s.index].artifactHead
      && (!s.runErr ==> b == m.(risk := b.risk))
      && (forall k :: 0 <= k < |m.plan| && k != s.index ==> b.plan[k] == m.plan[k])
  {
    hide OwnedId, GoodTaskId;
  }

  lemma FinishIsFinished(m: Mission, s: Step)
    requires s.Finish? && Enabled(m, s) && m.executions != [] && s.index < |m.plan|
    requires |Base(m, s).plan| == |m.plan| && Base(m, s).executions == m.executions
    ensures var b, j := Base(m, s), |m.executions| - 1;
      Next(m, s) == Finished(b, s.index, j, OutcomeOf(b, b.plan[s.index], b.executions[j], s.runErr, s.obs))
  {
    hide OwnedId, GoodTaskId, OutcomeOf, Finished;
  }

  /** The gates seen from the version before the step. */
  lemma HeldOverBase(m: Mission, b: Mission, s: Step)
    requires s.Finish? && s.index < |m.plan| == |b.plan| && b.risk == RiskNow(m, s.assessed) && b.policy == m.policy
    requires b.plan[s.index].role == m.plan[s.index].role && (!s.runErr ==> b == m.(risk := b.risk))
    ensures WorkHeld(m, s) <==>
      !s.runErr && CommitHeld(b, b.risk, s.obs.commit) && BranchHeld(b.plan[s.index], RiskCommitted(b, b.risk, s.obs.commit), s.obs.tree)
    ensures CommitHeld(b, b.risk, s.obs.commit) == CommitHeld(m, RiskNow(m, s.assessed), s.obs.commit)
    ensures RiskFound(b, b.risk, s.runErr, s.obs) == RiskFound(m, RiskNow(m, s.assessed), s.runErr, s.obs)
  {
  }

  /** How the last execution of `n` differs from the running one of `m`. */
  predicate Judged(m: Mission, n: Mission, s: Step)
    requires s.Finish? && s.index < |m.plan| && m.executions != []
  {
    var j := |m.executions| - 1;
    var held, role := WorkHeld(m, s), m.plan[s.index].role;
    && |n.executions| == |m.executions| && n.executions[..j] == m.executions[..j]
    && n.risk == RiskFound(m, RiskNow(m, s.assessed), s.runErr, s.obs)
    && n.executions[j].result == (if Succeeds(m, s) then Completed else Failed)
    && n.executions[j].test == (if held && role.Qa? then (if Approved(Qa, s.obs) then Passed else Rejected) else m.executions[j].test)
    && n.executions[j].review == (if held && role.Review? then (if Approved(Review, s.obs) then Passed else Rejected) else m.executions[j].review)
  }

  /** A success in the record: the task and its execution at the head Git reported, everything else as it was. */
  predicate RecordsSuccess(m: Mission, n: Mission, s: Step)
    requires s.Finish? && s.index < |m.plan| && m.executions != []
  {
    var t, j := m.plan[s.index], |m.executions| - 1;
    && n.plan == m.plan[s.index := t.(state := Completed, artifactHead := s.obs.tree.head)]
    && |n.executions| == |m.executions| && n.executions[j].head == s.obs.tree.head && n.executions[j].worktree == t.worktree
    && n.state.Pending? && n.fixCycles == m.fixCycles
  }

  /** A failure in the record: try again while attempts are left, otherwise escalate; nothing else moves. */
  predicate RecordsFailure(m: Mission, n: Mission, s: Step)
    requires s.Finish? && s.index < |m.plan|
  {
    var t := m.plan[s.index];
    && |n.plan| == |m.plan| && (forall k :: 0 <= k < |m.plan| && k != s.index ==> n.plan[k] == m.plan[k])
    && n.plan[s.index].state == (if t.attempts < t.maxAttempts then Retry else Escalated)
    && n.state == n.plan[s.index].state && n.fixCycles == m.fixCycles
    && |n.executions| == |m.executions| > 0
    && n.executions[|m.executions| - 1].worktree == n.plan[s.index].worktree && n.executions[|m.executions| - 1].head == n.plan[s.index].artifactHead
    && n.plan[s.index].artifactHead ==
         if !s.runErr && CommitHeld(m, RiskNow(m, s.assessed), s.obs.commit) then s.obs.tree.head else t.artifactHead
  }

  /** A cleared task: waiting in state `s`, without any location, otherwise the same. */
  predicate StartsOver(t: Task, u: Task, s: State) {
    && u.state == s && u.worktree == "" && u.branch == "" && u.head == "" && u.artifactHead == ""
    && u == t.(state := u.state, worktree := u.worktree, branch := u.branch, head := u.head, artifactHead := u.artifactHead)
  }

  /** One more repair cycle: the first lead with an attempt left and all QA and review tasks start over. */
  predicate StartsRepair(m: Mission, n: Mission) {
    && |n.plan| == |m.plan| && n.fixCycles == m.fixCycles + 1 && n.state.Retry?
    && exists lead :: 0 <= lead < |m.plan| && HasAttempt(m.plan[lead]) && (forall k :: 0 <= k < lead ==> !HasAttempt(m.plan[k]))
                      && RepairTurns(m, n, lead)
  }

  predicate HasAttempt(t: Task) {
    t.role.Lead? && t.attempts < t.maxAttempts
  }

  predicate RepairTurns(m: Mission, n: Mission, lead: int)
    requires |n.plan| == |m.plan|
  {
    forall k :: 0 <= k < |m.plan| ==>
      if k == lead then StartsOver(m.plan[k], n.plan[k], Retry)
      else if m.plan[k].role.Qa? || m.plan[k].role.Review? then StartsOver(m.plan[k], n.plan[k], Pending)
      else n.plan[k] == m.plan[k]
  }

  /** Review found something that a lead may still repair. */
  predicate Repairable(m: Mission, n: Mission, s: Step)
    requires s.Finish? && s.index < |m.plan|
  {
    && m.plan[s.index].role.Review? && WorkHeld(m, s) && !s.obs.response.Clean?
    && m.fixCycles < m.budget.maxFixes && n.risk <= 3
    && exists k :: 0 <= k < |m.plan| && HasAttempt(m.plan[k])
  }

  lemma RunningUnjudged(m: Mission, s: Step)
    requires Inv(m) && Enabled(m, s) && s.Finish?
    ensures m.executions != [] && m.executions[|m.executions| - 1].review.NotRun?
  {
    hide PlanShape, TasksOk, AllBelong, RunningLinked, CompletedLinked, RetriesRise, StateOk, EscalationOk, OnlyLastRuns, Started,
      UsedOwnWorktree, PrepFits;
    assert ExecutionOk(m, |m.executions| - 1, m.executions[|m.executions| - 1]);
  }

  lemma RepairLeadExactly(m: Mission, p: seq<Task>, i: nat)
    requires |p| == |m.plan| && i < |p| && !p[i].role.Lead? && p[i].role == m.plan[i].role
    requires forall k :: 0 <= k < |p| && k != i ==> p[k] == m.plan[k]
    ensures RepairLead(p, 0).Some? <==> exists k :: 0 <= k < |m.plan| && HasAttempt(m.plan[k])
    ensures RepairLead(p, 0).Some? ==> RepairLead(p, 0).value < |m.plan| && HasAttempt(m.plan[RepairLead(p, 0).value])
    ensures RepairLead(p, 0).Some? ==> forall k :: 0 <= k < RepairLead(p, 0).value ==> !HasAttempt(m.plan[k])
  {
    assert forall k :: 0 <= k < |p| ==> CanRepair(p[k]) == HasAttempt(m.plan[k]);
  }

  /**
   * Exactly when an execution succeeds: no run error, the commit and the branch held, the checks or
   * the review approved and the proof was stored. Its verdicts follow from the same answers.
   */
  lemma FinishesExactly(m: Mission, s: Step)
    requires Inv(m) && Enabled(m, s) && s.Finish?
    ensures s.index < |m.plan| && m.executions != [] && s.index < |Next(m, s).plan|
    ensures Next(m, s).plan[s.index].state.Completed? <==> Succeeds(m, s)
    ensures Judged(m, Next(m, s), s)
  {
    hide Inv, Enabled, Next, OutcomeOf, Base, CommitHeld, BranchHeld, RiskCommitted, RiskFound, RepairLead, Approved;
    BaseFacts(m, s);
    FinishIsFinished(m, s);
    var b, j := Base(m, s), |m.executions| - 1;
    HeldOverBase(m, b, s);
    OutcomeExactly(b, b.plan[s.index], b.executions[j], s.runErr, s.obs);
    RunningUnjudged(m, s);
  }

  /** The execution keeps what it had, gains the stored proof, and of a successful QA the evidence of every check. */
  lemma EvidenceRecorded(m: Mission, s: Step)
    requires Inv(m) && Enabled(m, s) && s.Finish? && s.index < |m.plan| && m.executions != []
    ensures |Next(m, s).executions| == |m.executions|
    ensures var evidence := Next(m, s).executions[|m.executions| - 1].evidence;
      && (forall x :: x in m.executions[|m.executions| - 1].evidence ==> x in evidence)
      && (s.obs.proof.Some? ==> s.obs.proof.value in evidence)
      && (Succeeds(m, s) && m.plan[s.index].role.Qa? ==>
            forall k :: 0 <= k < |s.obs.checks| && s.obs.checks[k].evidence != "" ==> s.obs.checks[k].evidence in evidence)
  {
    hide Inv, Enabled, Next, OutcomeOf, Base, CommitHeld, BranchHeld, RiskCommitted, RiskFound, RepairLead, Approved;
    BaseFacts(m, s);
    FinishIsFinished(m, s);
    var b, j := Base(m, s), |m.executions| - 1;
    HeldOverBase(m, b, s);
    OutcomeExactly(b, b.plan[s.index], b.executions[j], s.runErr, s.obs);
    EvidenceKept(b, b.plan[s.index], b.executions[j], s.runErr, s.obs);
  }

  lemma SuccessRecorded(m: Mission, s: Step)
    requires Inv(m) && Enabled(m, s) && s.Finish? && s.index < |m.plan| && m.executions != [] && Succeeds(m, s)
    ensures RecordsSuccess(m, Next(m, s), s)
  {
    hide Inv, Enabled, Next, OutcomeOf, Base, CommitHeld, BranchHeld, RiskCommitted, RiskFound, RepairLead, Approved;
    BaseFacts(m, s);
    FinishIsFinished(m, s);
    var b, j := Base(m, s), |m.executions| - 1;
    HeldOverBase(m, b, s);
    OutcomeExactly(b, b.plan[s.index], b.executions[j], s.runErr, s.obs);
  }

  /** What is left of a failed execution's record before any repair. */
  lemma FailureLeft(m: Mission, b: Mission, i: nat, out: Outcome)
    requires i < |m.plan| == |b.plan| && b.executions == m.executions && m.executions != [] && b.fixCycles == m.fixCycles && out.err
    requires b.plan[i].attempts == m.plan[i].attempts && b.plan[i].maxAttempts == m.plan[i].maxAttempts && b.plan[i].role == m.plan[i].role
    requires forall k :: 0 <= k < |m.plan| && k != i ==> b.plan[k] == m.plan[k]
    ensures var r := Recorded(b, i, |m.executions| - 1, out);
      && Finished(b, i, |m.executions| - 1, out).risk == out.risk && |r.plan| == |m.plan| && r.risk == out.risk
      && r.fixCycles == m.fixCycles && r.state == r.plan[i].state && r.plan[i].role == m.plan[i].role
      && |r.executions| == |m.executions| && r.plan[i].artifactHead == out.artifactHead
      && r.executions[|m.executions| - 1].worktree == r.plan[i].worktree && r.executions[|m.executions| - 1].head == out.artifactHead
      && r.plan[i].state == (if m.plan[i].attempts < m.plan[i].maxAttempts then Retry else Escalated)
      && (forall k :: 0 <= k < |m.plan| && k != i ==> r.plan[k] == m.plan[k])
      && (!m.plan[i].role.Review? || !out.review.Rejected? || m.fixCycles >= b.budget.maxFixes || out.risk >= 4 || RepairLead(r.plan, 0).None? ==>
            Finished(b, i, |m.executions| - 1, out) == r)
      && (m.plan[i].role.Review? && out.review.Rejected? && m.fixCycles < b.budget.maxFixes && out.risk < 4 && RepairLead(r.plan, 0).Some? ==>
            Finished(b, i, |m.executions| - 1, out) == Repaired(r, RepairLead(r.plan, 0).value))
  {
    hide RepairLead;
  }

  lemma RepairTurned(m: Mission, r: Mission, i: nat, lead: nat)
    requires i < |m.plan| == |r.plan| && m.plan[i].role.Review? && r.plan[i].role.Review? && r.fixCycles == m.fixCycles
    requires forall k :: 0 <= k < |m.plan| && k != i ==> r.plan[k] == m.plan[k]
    requires lead < |m.plan| && HasAttempt(m.plan[lead]) && (forall k :: 0 <= k < lead ==> !HasAttempt(m.plan[k]))
    requires ClearedTask(r.plan[i], Pending) == ClearedTask(m.plan[i], Pending)
    ensures StartsRepair(m, Repaired(r, lead))
  {
    assert lead != i;
    assert RepairTurns(m, Repaired(r, lead), lead);
  }

  /** A review's location and label are all that a finish changes of its task. */
  lemma SameCleared(m: Mission, s: Step, out: Outcome)
    requires Enabled(m, s) && s.Finish? && s.index < |m.plan| && m.executions != [] && !s.runErr && |Base(m, s).plan| == |m.plan|
    requires Base(m, s).executions == m.executions
    ensures ClearedTask(Recorded(Base(m, s), s.index, |m.executions| - 1, out).plan[s.index], Pending) == ClearedTask(m.plan[s.index], Pending)
  {
    hide OwnedId, GoodTaskId;
  }

  /** A failure retries, escalates or, after review findings, sends the work back to a lead. */
  lemma FailureRecorded(m: Mission, s: Step)
    requires Inv(m) && Enabled(m, s) && s.Finish? && s.index < |m.plan| && !Succeeds(m, s)
    ensures if Repairable(m, Next(m, s), s) then StartsRepair(m, Next(m, s)) else RecordsFailure(m, Next(m, s), s)
  {
    hide Inv, Enabled, Next, OutcomeOf, Base, CommitHeld, BranchHeld, RiskCommitted, RiskFound, RepairLead, CanRepair, HasAttempt, Recorded, Repaired, Finished,
      StartsRepair, ClearedTask;
    BaseFacts(m, s);
    FinishIsFinished(m, s);
    var b, i, j := Base(m, s), s.index, |m.executions| - 1;
    HeldOverBase(m, b, s);
    OutcomeExactly(b, b.plan[i], b.executions[j], s.runErr, s.obs);
    RunningUnjudged(m, s);
    var out := OutcomeOf(b, b.plan[i], b.executions[j], s.runErr, s.obs);
    FailureLeft(m, b, i, out);
    var r := Recorded(b, i, j, out);
    if m.plan[i].role.Review? {
      RepairLeadExactly(m, r.plan, i);
      if Repairable(m, Next(m, s), s) {
        SameCleared(m, s, out);
        RepairTurned(m, r, i, RepairLead(r.plan, 0).value);
      }
    }
  }

  /** Recovery fails the interrupted execution without any verdict and escalates, so that nothing replays it; nothing else changes. */
  lemma RecoversExactly(m: Mission, s: Step, a: Step)
    requires Inv(m) && Enabled(m, s) && s.Finish? && s.runErr && Enabled(Next(m, s), a) && a.Abandon? && a.index == s.index
    ensures var n, j := Next(Next(m, s), a), |m.executions| - 1;
      && s.index < |m.plan| == |n.plan| && n.plan[s.index].state == Escalated && n.state == Escalated
      && j >= 0 && |n.executions| == j + 1 && n.executions[..j] == m.executions[..j]
      && n.executions[j].result == Failed && !n.executions[j].test.Passed? && !n.executions[j].review.Passed?
      && n.fixCycles == m.fixCycles && n.risk == RiskNow(m, s.assessed)
      && forall k :: 0 <= k < |m.plan| && k != s.index ==> n.plan[k] == m.plan[k]
  {
    hide Inv, Enabled, Next, CommitHeld, BranchHeld, RiskCommitted, Approved;
    FinishesExactly(m, s);
    FailureRecorded(m, s);
    RunningUnjudged(m, s);
    RunningUntested(m, s);
    AbandonIs(Next(m, s), a);
  }

  lemma RunningUntested(m: Mission, s: Step)
    requires Inv(m) && Enabled(m, s) && s.Finish?
    ensures m.executions != [] && m.executions[|m.executions| - 1].test.NotRun?
  {
    hide PlanShape, TasksOk, AllBelong, RunningLinked, CompletedLinked, RetriesRise, StateOk, EscalationOk, OnlyLastRuns, Started,
      UsedOwnWorktree, PrepFits;
    assert ExecutionOk(m, |m.executions| - 1, m.executions[|m.executions| - 1]);
  }

  lemma AbandonIs(m: Mission, a: Step)
    requires Enabled(m, a) && a.Abandon?
    ensures a.index < |m.plan|
    ensures var n := Next(m, a);
      && n.executions == m.executions && n.fixCycles == m.fixCycles && n.risk == m.risk && n.state == Escalated
      && n.plan == m.plan[a.index := m.plan[a.index].(state := Escalated)]
  {
  }
}
