/** The mission runtime as it executes: local copies, loops and compare-and-swap saves (internal/app/team.go, internal/team/store.go). */
module MissionRuntime {
  import opened Team
  import opened MissionSteps
  import opened MissionFinish

  // ---------- finishing a task, field by field ----------

  /** The commit and worktree gates in front of every verdict. */
  method CheckWorktree(m: Mission, t: Task, runErr: bool, o: FinishObs) returns (g: Gate)
    ensures g == AfterTree(t, AfterCommit(m, runErr, o.commit), o.tree)
    ensures !g.err <==> !runErr && CommitHeld(m, m.risk, o.commit) && BranchHeld(t, RiskCommitted(m, m.risk, o.commit), o.tree)
    ensures g.risk == RiskFound(m, m.risk, runErr, o) && (!g.err ==> g.artifactHead == o.tree.head)
  {
    var err, risk, artifactHead := runErr, m.risk, t.artifactHead;
    if !err && m.policy.commitTaskChanges {
      if !o.commit.read {
        err := true;
      } else if o.commit.files > 0 {
        if !o.commit.writable {
          err := true;
        } else {
          if o.commit.risk > risk {
            risk := o.commit.risk;
          }
          if risk >= 3 {
            err := true;
          } else {
            err := !o.commit.committed;
          }
        }
      }
    }
    if !err {
      if !o.tree.listed || !o.tree.statusRead {
        err := true;
      }
      if o.tree.dirty || !o.tree.writable {
        err := true;
      }
      if o.tree.risk > risk {
        risk := o.tree.risk;
        if risk >= 3 {
          err := true;
        }
      }
      if !o.tree.headRead {
        err := true;
      }
      if ReadOnly(t.role) && o.tree.head != t.head {
        err := true;
      }
      artifactHead := o.tree.head;
      if !o.tree.onBranch {
        err := true;
      }
    }
    g := Gate(err, risk, artifactHead);
    GatesExactly(m, t, runErr, o);
  }

  /** The evidence check `k` leaves behind. */
  function EvidenceOf(c: CheckObs): seq<string> {
    if c.evidence != "" then [c.evidence] else []
  }

  lemma EvidenceFrom(checks: seq<CheckObs>, k: nat, before: seq<string>)
    requires k < |checks|
    ensures checks[k].passed ==>
      before + CheckEvidence(checks[k..]) == (before + EvidenceOf(checks[k])) + CheckEvidence(checks[k + 1..])
    ensures !checks[k].passed ==> before + CheckEvidence(checks[k..]) == before + EvidenceOf(checks[k])
  {
    var rest := checks[k..];
    assert rest[0] == checks[k] && rest[1..] == checks[k + 1..];
    assert CheckEvidence(rest) == EvidenceOf(checks[k]) + if checks[k].passed then CheckEvidence(checks[k + 1..]) else [];
  }

  /** Runs the checks in order, stopping at the first failure, and keeps the evidence of those that ran. */
  method RunChecks(checks: seq<CheckObs>) returns (evidence: seq<string>, passed: bool)
    ensures evidence == CheckEvidence(checks) && (passed <==> ChecksPass(checks))
  {
    hide CheckEvidence;
    evidence, passed := [], true;
    AllEvidence(checks);
    for k := 0 to |checks|
      invariant passed && forall j :: 0 <= j < k ==> checks[j].passed
      invariant evidence + CheckEvidence(checks[k..]) == CheckEvidence(checks)
    {
      EvidenceFrom(checks, k, evidence);
      evidence := evidence + EvidenceOf(checks[k]);
      if !checks[k].passed {
        passed := false;
        return;
      }
    }
  }

  lemma AllEvidence(checks: seq<CheckObs>)
    ensures [] + CheckEvidence(checks[0..]) == CheckEvidence(checks)
    ensures forall before: seq<string> :: before + CheckEvidence(checks[|checks|..]) == before
  {
    assert checks[0..] == checks;
  }

  /** Verdicts and evidence of one execution. */
  method Judge(m: Mission, t: Task, e: Execution, runErr: bool, o: FinishObs) returns (out: Outcome)
    ensures out == OutcomeOf(m, t, e, runErr, o)
  {
    var g := CheckWorktree(m, t, runErr, o);
    var err, test, review, evidence := g.err, e.test, e.review, e.evidence;
    if !err && t.role.Qa? {
      test := Passed;
      var ids, passed := RunChecks(o.checks);
      evidence := evidence + ids;
      if !passed {
        err, test := true, Rejected;
      }
      if !o.cleanAfter {
        err, test := true, Rejected;
      }
    }
    if !err && t.role.Review? {
      review := Rejected;
      if o.response.Clean? {
        review := Passed;
      } else {
        err := true;
      }
    }
    if o.proof.None? {
      err := true;
    } else {
      evidence := evidence + [o.proof.value];
    }
    out := Outcome(err, g.risk, g.artifactHead, test, review, evidence);
  }

  /** Restarts the first lead with an attempt left, and with it every QA and review task. */
  method StartRepair(m: Mission) returns (n: Mission, repaired: bool)
    ensures repaired <==> RepairLead(m.plan, 0).Some?
    ensures n == if RepairLead(m.plan, 0).Some? then Repaired(m, RepairLead(m.plan, 0).value) else m
  {
    n, repaired := m, false;
    var j := 0;
    while j < |m.plan|
      invariant j <= |m.plan| && RepairLead(m.plan, 0) == RepairLead(m.plan, j)
    {
      if CanRepair(m.plan[j]) {
        var plan := m.plan[j := ClearedTask(m.plan[j], Retry)];
        for k := 0 to |plan|
          invariant |plan| == |m.plan|
          invariant forall x :: 0 <= x < k ==> plan[x] == RepairedTask(m.plan[x], x == j)
          invariant forall x :: k <= x < |plan| ==> plan[x] == if x == j then RepairedTask(m.plan[x], true) else m.plan[x]
        {
          if plan[k].role.Qa? || plan[k].role.Review? {
            plan := plan[k := ClearedTask(plan[k], Pending)];
          }
        }
        n := m.(fixCycles := m.fixCycles + 1, state := Retry, plan := plan);
        assert n.plan == Repaired(m, j).plan;
        return n, true;
      }
      j := j + 1;
    }
  }

  /** Everything a finished execution does to the local copy of its mission. */
  method FinishLocally(m: Mission, i: nat, j: nat, runErr: bool, o: FinishObs) returns (n: Mission, succeeded: bool)
    requires i < |m.plan| && j < |m.executions|
    ensures n == Finished(m, i, j, OutcomeOf(m, m.plan[i], m.executions[j], runErr, o))
    ensures succeeded <==> !OutcomeOf(m, m.plan[i], m.executions[j], runErr, o).err
  {
    hide OutcomeOf;
    var t, e := m.plan[i], m.executions[j];
    var out := Judge(m, t, e, runErr, o);
    e := e.(test := out.test, review := out.review, evidence := out.evidence, worktree := t.worktree, head := out.artifactHead);
    t := t.(artifactHead := out.artifactHead);
    n := m.(risk := out.risk);
    if out.err {
      e := e.(result := Failed);
      if t.attempts < t.maxAttempts {
        t, n := t.(state := Retry), n.(state := Retry);
      } else {
        t, n := t.(state := Escalated), n.(state := Escalated);
      }
    } else {
      e, t, n := e.(result := Completed), t.(state := Completed), n.(state := Pending);
    }
    n := n.(plan := n.plan[i := t], executions := n.executions[j := e]);
    assert n == Recorded(m, i, j, out);
    if out.err && t.role.Review? && e.review.Rejected? && n.fixCycles < n.budget.maxFixes && n.risk < 4 {
      var repaired;
      n, repaired := StartRepair(n);
    }
    succeeded := !out.err;
  }

  // ---------- concluding ----------

  method WalkPlan(plan: seq<Task>, sites: seq<SiteObs>) returns (w: Walk)
    requires |sites| == |plan|
    ensures w == WalkSites(plan, sites, 0)
  {
    for k := 0 to |plan|
      invariant WalkSites(plan, sites, 0) == WalkSites(plan, sites, k)
    {
      if !plan[k].state.Completed? {
        return Stop;
      }
      if !sites[k].headRead || !sites[k].statusRead {
        return Stop;
      }
      if sites[k].head != plan[k].artifactHead || sites[k].dirty {
        return Reject;
      }
      if !sites[k].covered {
        return Reject;
      }
    }
    w := Pass;
  }

  method LatestExecutions(execs: seq<Execution>) returns (latest: map<string, Execution>)
    ensures latest == Latest(execs)
  {
    latest := map[];
    for k := 0 to |execs|
      invariant latest == Latest(execs[..k])
    {
      assert execs[..k + 1][..k] == execs[..k];
      latest := latest[execs[k].taskId := execs[k]];
    }
    assert execs[..|execs|] == execs;
  }

  predicate Unproven(e: Execution) {
    e.result.Completed? && e.evidence == []
  }

  function Reviewed(latest: map<string, Execution>, ids: set<string>): set<string> {
    set id | id in ids && id in latest && latest[id].review.Passed?
  }

  lemma ReviewedMore(latest: map<string, Execution>, ids: set<string>, id: string)
    requires id in latest && id !in ids
    ensures |Reviewed(latest, ids + {id})| == |Reviewed(latest, ids)| + if latest[id].review.Passed? then 1 else 0
  {
    assert Reviewed(latest, ids + {id}) == Reviewed(latest, ids) + if latest[id].review.Passed? then {id} else {};
  }

  /** Counts the verdicts of the latest executions, in whatever order the map is ranged over. */
  method Tally(latest: map<string, Execution>) returns (lacking: bool, tests: bool, reviews: nat)
    ensures lacking <==> exists id :: id in latest && Unproven(latest[id])
    ensures !lacking ==> (tests <==> exists id :: id in latest && latest[id].test.Passed?)
    ensures !lacking ==> reviews == |Reviewed(latest, latest.Keys)|
  {
    hide Reviewed, Unproven;
    lacking, tests, reviews := false, false, 0;
    var todo := latest.Keys;
    ghost var done: set<string> := {};
    ReviewedNone(latest);
    while todo != {}
      invariant done + todo == latest.Keys && done !! todo && !lacking
      invariant tests <==> exists id :: id in done && latest[id].test.Passed?
      invariant reviews == |Reviewed(latest, done)|
      invariant forall id :: id in done ==> !Unproven(latest[id])
      decreases todo
    {
      var id :| id in todo;
      ReviewedMore(latest, done, id);
      tests := tests || latest[id].test.Passed?;
      if latest[id].review.Passed? {
        reviews := reviews + 1;
      }
      if Unproven(latest[id]) {
        lacking := true;
        return;
      }
      todo, done := todo - {id}, done + {id};
    }
    assert done == latest.Keys;
  }

  lemma ReviewedNone(latest: map<string, Execution>)
    ensures Reviewed(latest, {}) == {}
  {
  }

  /** Weighs the latest execution of each task. */
  method WeighVerdicts(m: Mission) returns (lacking: bool, enough: bool)
    ensures lacking <==> LatestLacksEvidence(m.executions)
    ensures !lacking ==> (enough <==> VerdictsSuffice(m))
  {
    hide Latest;
    var latest := LatestExecutions(m.executions);
    var tests, reviews;
    lacking, tests, reviews := Tally(latest);
    assert lacking <==> LatestLacksEvidence(m.executions) by {
      if id :| id in latest && Unproven(latest[id]) {
        assert latest[id].result.Completed?;
      }
      if id :| id in latest && latest[id].result.Completed? && latest[id].evidence == [] {
        assert Unproven(latest[id]);
      }
    }
    assert Reviewed(latest, latest.Keys) == LatestReviews(m.executions);
    enough := tests && (m.risk == 0 || reviews > 0) && !(m.risk == 3 && reviews < 2);
  }

  /** What a concluding call decides to save. */
  method Decide(m: Mission, o: ConcludeObs) returns (s: Option<State>)
    requires |o.sites| == |m.plan|
    ensures s == Conclusion(m, o)
  {
    hide VerdictsSuffice, LatestLacksEvidence, WalkSites;
    if !o.sourceRead {
      return None;
    }
    var walk := WalkPlan(m.plan, o.sites);
    if walk.Stop? {
      return None;
    }
    if walk.Reject? {
      return Some(Escalated);
    }
    var lacking, enough := WeighVerdicts(m);
    if lacking {
      return None;
    }
    if !enough {
      return Some(Escalated);
    }
    s := if o.criteriaSaved then Some(Completed) else None;
  }

  // ---------- where accumulated work lives ----------

  datatype SourceResult = Unreadable | Moved | Repository | At(index: nat, head: string)

  predicate Located(execs: seq<Execution>) {
    forall j :: 0 <= j < |execs| && execs[j].result.Completed? ==> execs[j].worktree != "" && execs[j].head != ""
  }

  /**
   * The worktree of the last completed execution, provided its head is still the recorded one.
   * Executions without a worktree fall back to their session's directory.
   */
  method MissionSource(execs: seq<Execution>, sessionDir: string -> Option<string>, headOf: string -> Option<string>) returns (r: SourceResult)
    ensures Located(execs) && r.At? ==>
      LastCompleted(execs) == Some(r.index) && r.head == execs[r.index].head && headOf(execs[r.index].worktree) == Some(r.head)
    ensures Located(execs) ==> (r.Repository? <==> LastCompleted(execs).None?)
    ensures Located(execs) && r.Moved? ==> LastCompleted(execs).Some? && headOf(execs[LastCompleted(execs).value].worktree) != Some(execs[LastCompleted(execs).value].head)
  {
    var i := |execs|;
    while i > 0
      invariant 0 <= i <= |execs|
      invariant Located(execs) ==> forall j :: i <= j < |execs| ==> !execs[j].result.Completed?
    {
      i := i - 1;
      var e := execs[i];
      if !e.result.Completed? {
        continue;
      }
      var source := e.worktree;
      if source == "" && e.sessionId != "" {
        var dir := sessionDir(e.sessionId);
        if dir.None? {
          return Unreadable;
        }
        source := dir.value;
      }
      if source == "" {
        continue;
      }
      var head := headOf(source);
      if head.None? {
        return Unreadable;
      }
      if e.head != "" && head.value != e.head {
        return Moved;
      }
      return At(i, head.value);
    }
    r := Repository;
  }

  // ---------- reading a review ----------

  /** A line of a review's response: a verdict, an attempt at one that cannot be read, or anything else. */
  datatype ReviewLine = Noise | Garbled | Stated(clean: bool)

  /** Passed exactly when a verdict was given, all verdicts are clean, and none was garbled. */
  method ReviewPassed(lines: seq<ReviewLine>) returns (passed: bool)
    ensures passed <==>
      (exists k :: 0 <= k < |lines| && lines[k].Stated?) && (forall k :: 0 <= k < |lines| ==> !lines[k].Garbled? && (lines[k].Stated? ==> lines[k].clean))
  {
    var count := 0;
    passed := true;
    for n := 0 to |lines|
      invariant forall k :: 0 <= k < n ==> !lines[k].Garbled?
      invariant passed <==> forall k :: 0 <= k < n && lines[k].Stated? ==> lines[k].clean
      invariant count >= 0 && (count > 0 <==> exists k :: 0 <= k < n && lines[k].Stated?)
    {
      match lines[n] {
        case Noise =>
        case Garbled =>
          return false;
        case Stated(clean) =>
          count := count + 1;
          passed := passed && clean;
      }
    }
    passed := count >= 1 && passed;
  }
}
