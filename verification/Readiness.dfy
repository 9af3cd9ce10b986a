/**
 * From the mission to the release: what the recorded checks of a completed mission amount to
 * (internal/app/team.go, internal/app/verification_source.go, internal/app/release.go).
 */
module Readiness {
  import opened Team
  import opened MissionSteps
  import opened MissionInvariant
  import opened MissionHistory
  import opened MissionOrder
  import opened MissionOutcome
  import opened MissionWorld
  import opened MissionItems
  import E = Evidence

  // ---------- what the log knows ----------

  predicate Attributed(t: Task, r: CheckRun) {
    t.role.Qa? && r.planTaskId == t.id && r.taskId == t.taskId && 1 <= r.attempt <= t.attempts
  }

  predicate HasOwner(plan: seq<Task>, r: CheckRun) {
    exists k :: 0 <= k < |plan| && Attributed(plan[k], r)
  }

  /** The last attempt of a completed QA task recorded every check, and all of them passed at the task's artifact. */
  predicate Vouched(t: Task, log: seq<CheckRun>, commands: nat) {
    && (forall x :: 0 <= x < |log| && Of(t, log[x]) ==> log[x].passed && log[x].before.commit == t.artifactHead && log[x].workingDir == t.worktree)
    && (forall c :: 0 <= c < commands ==> HasCheck(t, log, c))
  }

  predicate AllVouched(m: Mission, log: seq<CheckRun>) {
    forall k :: 0 <= k < |m.plan| && m.plan[k].role.Qa? && m.plan[k].state.Completed? ==> Vouched(m.plan[k], log, |Commands(m)|)
  }

  predicate AllOwned(m: Mission, log: seq<CheckRun>, git: Git) {
    forall x :: 0 <= x < |log| ==> RecordOk(git, |Commands(m)|, log[x]) && HasOwner(m.plan, log[x])
  }

  predicate UniqueProofs(log: seq<CheckRun>) {
    forall x, y :: 0 <= x < y < |log| ==> log[x].proofId != log[y].proofId
  }

  predicate LogOk(w: World, git: Git) {
    AllOwned(w.m, w.log, git) && AllVouched(w.m, w.log) && UniqueProofs(w.log)
  }

  // ---------- every event keeps the log in step with the mission ----------

  lemma OwnersKept(m: Mission, n: Mission, r: CheckRun, git: Git)
    requires Extends(m, n) && HasOwner(m.plan, r) && RecordOk(git, |Commands(m)|, r)
    ensures HasOwner(n.plan, r)
  {
    var k :| 0 <= k < |m.plan| && Attributed(m.plan[k], r);
    assert SameShape(m.plan[k], n.plan[k]);
    assert Attributed(n.plan[k], r);
  }

  lemma VouchedKept(t: Task, u: Task, log: seq<CheckRun>, commands: nat)
    requires Vouched(t, log, commands) && u.id == t.id && StillDone(t, u)
    ensures Vouched(u, log, commands)
  {
    forall c | 0 <= c < commands ensures HasCheck(u, log, c) {
      assert HasCheck(t, log, c);
      var x :| 0 <= x < |log| && Of(t, log[x]) && log[x].checkIndex == c;
      assert Of(u, log[x]);
    }
    assert forall x :: 0 <= x < |log| && Of(u, log[x]) ==> Of(t, log[x]);
  }

  lemma FinishVouches(m: Mission, s: Step, t: Task, u: Task, log: seq<CheckRun>)
    requires s.Finish? && s.index < |m.plan| && m.plan[s.index] == t && Reported(m, log, s) && t.role.Qa?
    requires JustDone(s, s.index, t, u) && u.id == t.id && |s.obs.checks| == |Commands(m)|
    ensures Vouched(u, log, |Commands(m)|)
  {
    assert forall x :: 0 <= x < |log| && Of(u, log[x]) ==> Of(t, log[x]);
    forall c | 0 <= c < |Commands(m)| ensures HasCheck(u, log, c) {
      assert HasCheck(t, log, c);
      var x :| 0 <= x < |log| && Of(t, log[x]) && log[x].checkIndex == c;
      assert Of(u, log[x]);
    }
  }

  lemma SavedVouched(m: Mission, log: seq<CheckRun>, s: Step, n: Mission, k: nat)
    requires AllVouched(m, log) && AllCarry(m, s, n) && k < |n.plan| && n.plan[k].role.Qa? && n.plan[k].state.Completed?
    requires s.Finish? ==> s.index < |m.plan| && Reported(m, log, s) && |s.obs.checks| == |Commands(m)|
    ensures Vouched(n.plan[k], log, |Commands(m)|)
  {
    var t, u := m.plan[k], n.plan[k];
    assert Carries(m, s, k, u);
    hide Reported, Vouched;
    if StillDone(t, u) {
      VouchedKept(t, u, log, |Commands(m)|);
    } else {
      FinishVouches(m, s, t, u, log);
    }
  }

  lemma CheckCount(m: Mission, s: Step)
    requires Enabled(m, s)
    ensures s.Finish? ==> |s.obs.checks| == |Commands(m)|
  {
    hide PrepFits, RunsTask, RiskObserved;
  }

  lemma LogCarried(m: Mission, log: seq<CheckRun>, s: Step, n: Mission, git: Git)
    requires AllOwned(m, log, git) && AllVouched(m, log) && AllCarry(m, s, n) && Extends(m, n) && Commands(n) == Commands(m)
    requires s.Finish? ==> s.index < |m.plan| && Reported(m, log, s) && |s.obs.checks| == |Commands(m)|
    ensures AllOwned(n, log, git) && AllVouched(n, log)
  {
    hide Reported, Vouched, HasOwner, AllCarry, Extends, RecordOk, Commands;
    forall x | 0 <= x < |log| ensures HasOwner(n.plan, log[x]) {
      OwnersKept(m, n, log[x], git);
    }
    assert |n.plan| == |m.plan| by { CarryLength(m, s, n); }
    forall k | 0 <= k < |n.plan| && n.plan[k].role.Qa? && n.plan[k].state.Completed? ensures Vouched(n.plan[k], log, |Commands(n)|) {
      SavedVouched(m, log, s, n, k);
    }
  }

  lemma CarryLength(m: Mission, s: Step, n: Mission)
    requires AllCarry(m, s, n)
    ensures |n.plan| == |m.plan|
  {
  }

  lemma SavedLogOk(w: World, s: Step, anc: (string, string) -> bool, git: Git)
    requires Inv(w.m) && LogOk(w, git) && MaySave(w, s, anc)
    ensures LogOk(w.(m := Next(w.m, s), made := None), git)
  {
    CheckCount(w.m, s);
    StepExtends(w.m, s);
    NextFrame(w.m, s);
    WrittenFacts(w, s);
    NextCarries(w.m, s);
    hide Inv, Enabled, Next, Reported, AllCarry, Extends, ItemsWritten, Honest, CriteriaMet, AllOwned, AllVouched, UniqueProofs, NamesItem, PlacesLinked, FinishesDone;
    LogCarried(w.m, w.log, s, Next(w.m, s), git);
  }

  lemma RecordedVouched(t: Task, log: seq<CheckRun>, commands: nat, r: CheckRun)
    requires Vouched(t, log, commands) && !Of(t, r)
    ensures Vouched(t, log + [r], commands)
  {
    forall c | 0 <= c < commands ensures HasCheck(t, log + [r], c) {
      assert HasCheck(t, log, c);
      var x :| 0 <= x < |log| && Of(t, log[x]) && log[x].checkIndex == c;
      assert (log + [r])[x] == log[x];
    }
  }

  /** What recording a check adds: it belongs to the running QA task and to no other attempt of the plan. */
  lemma CheckFacts(w: World, i: nat, r: CheckRun, anc: (string, string) -> bool, git: Git)
    requires Inv(w.m) && Possible(w, Checks(i, r), anc, git)
    ensures i < |w.m.plan| && Attributed(w.m.plan[i], r) && RecordOk(git, |Commands(w.m)|, r) && NewProof(w.log, r)
    ensures forall k :: 0 <= k < |w.m.plan| && w.m.plan[k].state.Completed? ==> !Of(w.m.plan[k], r)
  {
    InvIds(w.m);
    hide Inv, PlanShape;
  }

  lemma CheckedLogOk(w: World, i: nat, r: CheckRun, anc: (string, string) -> bool, git: Git)
    requires LogOk(w, git) && Inv(w.m) && Possible(w, Checks(i, r), anc, git)
    ensures LogOk(w.(log := w.log + [r]), git)
  {
    CheckFacts(w, i, r, anc, git);
    hide Inv, Possible, Of, RecordOk, AllOwned, AllVouched, NewProof;
    MoreOwned(w.m, w.log, i, r, git);
    MoreVouched(w.m, w.log, r);
    MoreUnique(w.log, r);
  }

  lemma MoreUnique(log: seq<CheckRun>, r: CheckRun)
    requires UniqueProofs(log) && NewProof(log, r)
    ensures UniqueProofs(log + [r])
  {
  }

  lemma MoreOwned(m: Mission, log: seq<CheckRun>, i: nat, r: CheckRun, git: Git)
    requires AllOwned(m, log, git) && i < |m.plan| && Attributed(m.plan[i], r) && RecordOk(git, |Commands(m)|, r)
    ensures AllOwned(m, log + [r], git)
  {
    hide Attributed, RecordOk;
  }

  lemma MoreVouched(m: Mission, log: seq<CheckRun>, r: CheckRun)
    requires AllVouched(m, log) && forall k :: 0 <= k < |m.plan| && m.plan[k].state.Completed? ==> !Of(m.plan[k], r)
    ensures AllVouched(m, log + [r])
  {
    hide Vouched, Of;
    forall k | 0 <= k < |m.plan| && m.plan[k].role.Qa? && m.plan[k].state.Completed? ensures Vouched(m.plan[k], log + [r], |Commands(m)|) {
      RecordedVouched(m.plan[k], log, |Commands(m)|, r);
    }
  }

  /** Criteria exist, and a completed mission has proven and satisfied all of them. */
  predicate CriteriaOk(w: World) {
    && w.criteria != [] && (forall c :: 0 <= c < |w.criteria| ==> w.criteria[c].id != "")
    && (w.m.state.Completed? ==> CriteriaMet(w))
  }

  ghost predicate WorldInv(w: World, anc: (string, string) -> bool, git: Git) {
    Inv(w.m) && OrderInv(w.m, anc) && LogOk(w, git) && CriteriaOk(w)
  }

  lemma SavesKeep(w: World, ev: Event, anc: (string, string) -> bool, git: Git)
    requires WorldInv(w, anc, git) && Possible(w, ev, anc, git) && ev.Saves?
    ensures WorldInv(Moved(w, ev, anc, git), anc, git)
  {
    SavedLogOk(w, ev.step, anc, git) by { hide Inv, OrderInv, LogOk, CriteriaOk; }
    hide Inv, OrderInv, LogOk, Enabled, Next, Honest, Reported, ItemsWritten;
    NextInv(w.m, ev.step);
    NextOrder(w.m, ev.step, anc);
  }

  lemma CriteriaStep(w: World, ev: Event, anc: (string, string) -> bool, git: Git)
    requires CriteriaOk(w) && Possible(w, ev, anc, git) && !ev.Saves? && !ev.Checks?
    ensures CriteriaOk(Moved(w, ev, anc, git)) && Moved(w, ev, anc, git).log == w.log
  {
    hide Decided, RunsTask, LocatedTask, RepairLead, GoodTaskId;
  }

  lemma WritesKeep(w: World, ev: Event, anc: (string, string) -> bool, git: Git)
    requires WorldInv(w, anc, git) && Possible(w, ev, anc, git) && !ev.Saves? && !ev.Checks?
    ensures WorldInv(Moved(w, ev, anc, git), anc, git)
  {
    hide Inv, OrderInv, AllOwned, AllVouched, UniqueProofs, CriteriaOk, Possible, Moved;
    OthersKeep(w, ev, anc, git);
    CriteriaStep(w, ev, anc, git);
  }

  lemma ChecksKeep(w: World, ev: Event, anc: (string, string) -> bool, git: Git)
    requires WorldInv(w, anc, git) && Possible(w, ev, anc, git) && ev.Checks?
    ensures WorldInv(Moved(w, ev, anc, git), anc, git)
  {
    hide Inv, OrderInv, LogOk, RunsTask, RecordOk;
    CheckedLogOk(w, ev.index, ev.run, anc, git);
  }

  lemma WorldStep(w: World, ev: Event, anc: (string, string) -> bool, git: Git)
    requires WorldInv(w, anc, git) && Possible(w, ev, anc, git)
    ensures WorldInv(Moved(w, ev, anc, git), anc, git)
  {
    hide WorldInv, Possible, Moved;
    match ev
    case Saves(_) => SavesKeep(w, ev, anc, git);
    case Checks(_, _) => ChecksKeep(w, ev, anc, git);
    case _ => WritesKeep(w, ev, anc, git);
  }

  lemma {:induction false} WorldSound(worlds: seq<World>, events: seq<Event>, anc: (string, string) -> bool, git: Git, k: nat)
    requires WorldRun(worlds, events, anc, git) && Ordered(worlds[0].m.plan) && k < |worlds|
    ensures WorldInv(worlds[k], anc, git)
  {
    hide WorldInv, Fresh, Ordered, Possible, Moved;
    if k == 0 {
      FreshWorld(worlds[0], anc, git);
    } else {
      WorldSound(worlds, events, anc, git, k - 1);
      assert Follows(worlds[k - 1], events[k - 1], worlds[k - 1 + 1], anc, git);
      WorldStep(worlds[k - 1], events[k - 1], anc, git);
    }
  }

  lemma FreshWorld(w: World, anc: (string, string) -> bool, git: Git)
    requires Fresh(w) && Ordered(w.m.plan)
    ensures WorldInv(w, anc, git)
  {
    CreatedInv(w.m);
    CreatedOrder(w.m, anc);
    hide PlanValid, Ordered, Inv, OrderInv;
  }

  // ---------- what the release export reads ----------

  /** The digest naming a check: mission, plan task, position and command. */
  type Digest = (string, string, nat, string) -> string

  function CheckDigest(m: Mission, digest: Digest, k: nat, c: nat): string
    requires k < |m.plan| && c < |Commands(m)|
  {
    digest(m.id, m.plan[k].id, c, Commands(m)[c])
  }

  predicate IsCheck(m: Mission, k: nat, c: nat) {
    k < |m.plan| && m.plan[k].role.Qa? && c < |Commands(m)|
  }

  predicate ToldApart(m: Mission, digest: Digest, k: nat, c: nat, j: nat, d: nat)
    requires IsCheck(m, k, c) && IsCheck(m, j, d)
  {
    CheckDigest(m, digest, k, c) == CheckDigest(m, digest, j, d) ==> m.plan[k].id == m.plan[j].id && c == d
  }

  /** The digests of this mission's own checks are digests, and tell the checks apart. */
  predicate DigestOk(m: Mission, digest: Digest) {
    && (forall k: nat, c: nat | k < |m.plan| && c < |Commands(m)| && IsCheck(m, k, c) :: E.IsDigest(CheckDigest(m, digest, k, c)))
    && (forall k: nat, c: nat, j: nat, d: nat |
          k < |m.plan| && c < |Commands(m)| && j < |m.plan| && d < |Commands(m)| && IsCheck(m, k, c) && IsCheck(m, j, d) ::
          ToldApart(m, digest, k, c, j, d))
  }

  function CommandOf(m: Mission, r: CheckRun): string {
    if r.checkIndex < |Commands(m)| then Commands(m)[r.checkIndex] else ""
  }

  function ProofOf(m: Mission, r: CheckRun, digest: Digest): E.Proof {
    var command := CommandOf(m, r);
    E.Proof(r.proofId, r.taskId, "", r.passed, r.created,
            E.Meta(digest(m.id, r.planTaskId, r.checkIndex, command), r.planTaskId, E.Number(r.attempt), E.Number(r.checkIndex), m.id,
                   r.executionId, r.runId, command, r.workingDir, r.before, r.after, r.verified))
  }

  function RunOf(m: Mission, r: CheckRun): E.VerificationRun {
    E.VerificationRun(r.runId, r.proofId, if r.passed then E.RunPassed else E.RunFailed, CommandOf(m, r), r.workingDir)
  }

  function SiteOf(git: Git, t: Task): E.Source {
    E.Source(git.repository, git.top(t.worktree), t.artifactHead, true)
  }

  predicate IsSite(m: Mission, git: Git, s: E.Source) {
    exists k :: 0 <= k < |m.plan| && s == SiteOf(git, m.plan[k])
  }

  datatype Export = Export(
    criteria: seq<E.Criterion>, items: seq<E.WorkItem>, evidence: seq<E.Proof>, runs: seq<E.VerificationRun>, sources: seq<E.Source>)

  predicate IsRecorded(w: World, digest: Digest, p: E.Proof) {
    exists y :: 0 <= y < |w.log| && p == ProofOf(w.m, w.log[y], digest)
  }

  /** The machine proofs in the export are exactly the recorded checks, each with its run. */
  predicate LogExported(w: World, x: Export, digest: Digest) {
    var byId := E.RunsById(x.runs);
    var proofs := E.Machine(x.evidence, byId);
    && !E.Active(x.runs)
    && (forall k :: 0 <= k < |proofs| ==> IsRecorded(w, digest, proofs[k]))
    && (forall y :: 0 <= y < |w.log| ==>
          ProofOf(w.m, w.log[y], digest) in proofs && w.log[y].proofId in byId && byId[w.log[y].proofId] == RunOf(w.m, w.log[y]))
  }

  /** What inspecting a worktree reports at the time of the export. */
  datatype Tree = Tree(head: string, clean: bool)

  function SourceAt(git: Git, trees: string -> Tree, dir: string): E.Source {
    E.Source(git.repository, git.top(dir), trees(dir).head, trees(dir).clean)
  }

  /** The work items are listed with their status. */
  predicate ItemsExported(w: World, x: Export) {
    && (forall y :: 0 <= y < |x.items| ==> x.items[y].id in w.items && (x.items[y].done <==> w.items[x.items[y].id].status.Done?))
    && (forall id :: id in w.items ==> Lists(x.items, id))
  }

  predicate Lists(items: seq<E.WorkItem>, id: string) {
    exists y :: 0 <= y < |items| && items[y].id == id
  }

  predicate HasWorktree(w: World, id: string) {
    id in w.items && w.items[id].worktree != ""
  }

  predicate IsInspected(w: World, git: Git, trees: string -> Tree, s: E.Source) {
    exists id :: id in w.items && HasWorktree(w, id) && s == SourceAt(git, trees, w.items[id].worktree)
  }

  /** The sources are the inspected worktrees of the work items. */
  predicate SourcesExported(w: World, x: Export, git: Git, trees: string -> Tree) {
    && (forall i :: 0 <= i < |x.sources| ==> IsInspected(w, git, trees, x.sources[i]))
    && (forall id :: id in w.items && HasWorktree(w, id) ==> SourceAt(git, trees, w.items[id].worktree) in x.sources)
  }

  predicate HasProof(evidence: seq<E.Proof>, id: string) {
    exists k :: 0 <= k < |evidence| && evidence[k].criterionId == id
  }

  /** Criteria are as the mission left them, with the passing proofs it recorded. */
  predicate CriteriaExported(w: World, x: Export) {
    && x.criteria == w.criteria
    && (forall k :: 0 <= k < |x.evidence| && x.evidence[k].criterionId != "" ==> x.evidence[k].passed)
    && (forall id :: id in w.accepted ==> HasProof(x.evidence, id))
  }

  predicate Exported(w: World, x: Export, git: Git, digest: Digest, trees: string -> Tree) {
    LogExported(w, x, digest) && ItemsExported(w, x) && SourcesExported(w, x, git, trees) && CriteriaExported(w, x)
  }

  /** Nobody edited a task's worktree since its execution: it is clean and at the recorded artifact. */
  predicate Undisturbed(m: Mission, trees: string -> Tree) {
    forall k :: 0 <= k < |m.plan| ==> trees(m.plan[k].worktree) == Tree(m.plan[k].artifactHead, true)
  }

  /** The sites of the plan are sources, and only they are when everything is done. */
  predicate SitesKnown(m: Mission, x: Export, git: Git) {
    forall k :: 0 <= k < |m.plan| ==> SiteOf(git, m.plan[k]) in x.sources
  }

  // ---------- why it is ready ----------

  lemma OwnDigest(m: Mission, r: CheckRun, digest: Digest, git: Git) returns (k: nat)
    requires RecordOk(git, |Commands(m)|, r) && HasOwner(m.plan, r)
    ensures k < |m.plan| && m.plan[k].role.Qa? && m.plan[k].id == r.planTaskId && r.checkIndex < |Commands(m)|
    ensures digest(m.id, r.planTaskId, r.checkIndex, CommandOf(m, r)) == CheckDigest(m, digest, k, r.checkIndex)
  {
    k :| 0 <= k < |m.plan| && Attributed(m.plan[k], r);
  }

  /** A proof of a recorded check names its task, attempt and command. */
  lemma ScopeOfProof(host: E.Host, m: Mission, r: CheckRun, digest: Digest, git: Git)
    requires RecordOk(git, |Commands(m)|, r) && HasOwner(m.plan, r) && DigestOk(m, digest) && m.id != ""
    ensures E.ScopeOf(host, ProofOf(m, r, digest)) ==
            E.Managed(E.ManagedKey(m.id, r.planTaskId, r.taskId, digest(m.id, r.planTaskId, r.checkIndex, CommandOf(m, r))), r.attempt)
  {
    var k := OwnDigest(m, r, digest, git);
    assert E.IsDigest(CheckDigest(m, digest, k, r.checkIndex));
    hide E.IsDigest, DigestOk, CheckDigest, HasOwner, CommandOf;
  }

  lemma SameCheckSameCommand(host: E.Host, m: Mission, r: CheckRun, q: CheckRun, digest: Digest, git: Git)
    requires RecordOk(git, |Commands(m)|, r) && RecordOk(git, |Commands(m)|, q) && HasOwner(m.plan, r) && HasOwner(m.plan, q)
    requires DigestOk(m, digest) && m.id != ""
    ensures E.SameCheck(host, ProofOf(m, r, digest), ProofOf(m, q, digest)) <==>
            r.planTaskId == q.planTaskId && r.taskId == q.taskId && r.checkIndex == q.checkIndex
  {
    ScopeOfProof(host, m, r, digest, git);
    ScopeOfProof(host, m, q, digest, git);
    var k := OwnDigest(m, r, digest, git);
    var j := OwnDigest(m, q, digest, git);
    assert IsCheck(m, k, r.checkIndex) && IsCheck(m, j, q.checkIndex);
    assert ToldApart(m, digest, k, r.checkIndex, j, q.checkIndex);
    hide RecordOk, HasOwner, ProofOf, E.ScopeOf, E.IsDigest;
  }

  /** The recorded check behind a machine proof, and its task. */
  lemma Behind(w: World, x: Export, digest: Digest, git: Git, k: nat) returns (y: nat, t: nat)
    requires LogOk(w, git) && LogExported(w, x, digest) && k < |E.Machine(x.evidence, E.RunsById(x.runs))|
    ensures y < |w.log| && E.Machine(x.evidence, E.RunsById(x.runs))[k] == ProofOf(w.m, w.log[y], digest)
    ensures RecordOk(git, |Commands(w.m)|, w.log[y]) && t < |w.m.plan| && Attributed(w.m.plan[t], w.log[y])
  {
    hide AllVouched, RecordOk, E.Machine, E.RunsById, E.Active;
    var proofs := E.Machine(x.evidence, E.RunsById(x.runs));
    assert IsRecorded(w, digest, proofs[k]);
    y :| 0 <= y < |w.log| && proofs[k] == ProofOf(w.m, w.log[y], digest);
    hide ProofOf, RunOf;
    assert HasOwner(w.m.plan, w.log[y]);
    t :| 0 <= t < |w.m.plan| && Attributed(w.m.plan[t], w.log[y]);
  }

  /** Check `c` of the last attempt of a completed QA task, as an exported proof. */
  lemma LastAttempt(w: World, x: Export, digest: Digest, git: Git, t: nat, c: nat) returns (y: nat, k: nat)
    requires LogOk(w, git) && LogExported(w, x, digest) && UniqueIds(w.m.plan)
    requires t < |w.m.plan| && w.m.plan[t].role.Qa? && w.m.plan[t].state.Completed? && c < |Commands(w.m)|
    ensures y < |w.log| && Of(w.m.plan[t], w.log[y]) && w.log[y].checkIndex == c && w.log[y].taskId == w.m.plan[t].taskId
    ensures RecordOk(git, |Commands(w.m)|, w.log[y])
    ensures k < |E.Machine(x.evidence, E.RunsById(x.runs))| && E.Machine(x.evidence, E.RunsById(x.runs))[k] == ProofOf(w.m, w.log[y], digest)
  {
    hide RecordOk, ProofOf, E.Machine, E.RunsById, E.Active, RunOf;
    assert HasCheck(w.m.plan[t], w.log, c);
    y :| 0 <= y < |w.log| && Of(w.m.plan[t], w.log[y]) && w.log[y].checkIndex == c;
    assert HasOwner(w.m.plan, w.log[y]);
    var s :| 0 <= s < |w.m.plan| && Attributed(w.m.plan[s], w.log[y]);
    assert s == t;
    k :| 0 <= k < |E.Machine(x.evidence, E.RunsById(x.runs))| && E.Machine(x.evidence, E.RunsById(x.runs))[k] == ProofOf(w.m, w.log[y], digest);
  }

  /** A deciding proof comes from the last attempt of its task. */
  lemma DeciderIsLast(w: World, x: Export, host: E.Host, digest: Digest, git: Git, k: nat) returns (y: nat, t: nat)
    requires LogOk(w, git) && LogExported(w, x, digest) && UniqueIds(w.m.plan) && DigestOk(w.m, digest) && w.m.id != ""
    requires forall j :: 0 <= j < |w.m.plan| ==> w.m.plan[j].state.Completed?
    requires k < |E.Machine(x.evidence, E.RunsById(x.runs))| && E.Decides(host, E.Machine(x.evidence, E.RunsById(x.runs)), k)
    ensures y < |w.log| && E.Machine(x.evidence, E.RunsById(x.runs))[k] == ProofOf(w.m, w.log[y], digest)
    ensures RecordOk(git, |Commands(w.m)|, w.log[y])
    ensures t < |w.m.plan| && Attributed(w.m.plan[t], w.log[y]) && Of(w.m.plan[t], w.log[y])
  {
    var proofs := E.Machine(x.evidence, E.RunsById(x.runs));
    y, t := Behind(w, x, digest, git, k);
    var r := w.log[y];
    assert r.checkIndex < |Commands(w.m)|;
    var z, j := LastAttempt(w, x, digest, git, t, r.checkIndex);
    SameCheckSameCommand(host, w.m, w.log[z], r, digest, git);
    ScopeOfProof(host, w.m, w.log[z], digest, git);
    ScopeOfProof(host, w.m, r, digest, git);
    hide LogOk, LogExported, ProofOf, E.Machine, E.RunsById, E.ScopeOf, RecordOk;
    if k != j {
      assert E.Stands(host, proofs, k, j);
    }
  }

  lemma DecidersAreGood(w: World, x: Export, host: E.Host, digest: Digest, git: Git)
    requires LogOk(w, git) && LogExported(w, x, digest) && UniqueIds(w.m.plan) && DigestOk(w.m, digest) && w.m.id != ""
    requires forall j :: 0 <= j < |w.m.plan| ==> w.m.plan[j].state.Completed?
    requires SitesKnown(w.m, x, git)
    ensures E.DecidersGood(host, E.Machine(x.evidence, E.RunsById(x.runs)), E.RunsById(x.runs), x.sources)
  {
    var byId := E.RunsById(x.runs);
    var proofs := E.Machine(x.evidence, byId);
    hide E.Machine, E.RunsById, E.Decides, UniqueIds, E.Active, E.GoodProof, ProofOf, RunOf, RecordOk, Attributed;
    forall k | 0 <= k < |proofs| && E.Decides(host, proofs, k) && proofs[k].id in byId
      ensures E.GoodProof(host, proofs[k], byId[proofs[k].id], x.sources)
    {
      var y, t := DeciderIsLast(w, x, host, digest, git, k);
      assert Vouched(w.m.plan[t], w.log, |Commands(w.m)|) by { IsQa(w.m.plan[t], w.log[y]); }
      GoodRecord(w.m, w.log[y], w.m.plan[t], host, digest, git, x.sources);
      ProofId(w.m, w.log[y], digest);
    }
  }

  lemma IsQa(t: Task, r: CheckRun)
    requires Attributed(t, r)
    ensures t.role.Qa?
  {
  }

  lemma ProofId(m: Mission, r: CheckRun, digest: Digest)
    ensures ProofOf(m, r, digest).id == r.proofId
  {
  }

  /** A passed check at a task's artifact is a good proof as long as the artifact is still there. */
  lemma GoodRecord(m: Mission, r: CheckRun, t: Task, host: E.Host, digest: Digest, git: Git, sources: seq<E.Source>)
    requires RecordOk(git, |Commands(m)|, r) && r.passed && r.before.commit == t.artifactHead && r.workingDir == t.worktree
    requires SiteOf(git, t) in sources
    ensures E.GoodProof(host, ProofOf(m, r, digest), RunOf(m, r), sources)
  {
    var i :| 0 <= i < |sources| && sources[i] == SiteOf(git, t);
    assert E.MatchesSource(host, ProofOf(m, r, digest), sources[i]);
  }

  lemma CommandsAgree(w: World, x: Export, host: E.Host, digest: Digest, git: Git)
    requires LogOk(w, git) && LogExported(w, x, digest) && DigestOk(w.m, digest) && w.m.id != ""
    ensures E.ScopesValid(host, E.Machine(x.evidence, E.RunsById(x.runs)))
    ensures E.OneCommand(host, E.Machine(x.evidence, E.RunsById(x.runs)))
  {
    var proofs := E.Machine(x.evidence, E.RunsById(x.runs));
    hide E.Machine, E.RunsById, LogOk, LogExported, ProofOf, RecordOk, E.ScopeOf, E.SameCheck, DigestOk, Attributed;
    forall k | 0 <= k < |proofs| ensures !E.ScopeOf(host, proofs[k]).Invalid? {
      var y, t := Behind(w, x, digest, git, k);
      ScopeOfProof(host, w.m, w.log[y], digest, git);
    }
    forall i, j | 0 <= i < j < |proofs| && E.SameCheck(host, proofs[i], proofs[j]) ensures proofs[i].meta.command == proofs[j].meta.command {
      var y, t := Behind(w, x, digest, git, i);
      var z, s := Behind(w, x, digest, git, j);
      SameCheckSameCommand(host, w.m, w.log[y], w.log[z], digest, git);
      SameCommand(w.m, w.log[y], w.log[z], digest);
    }
  }

  lemma SameCommand(m: Mission, r: CheckRun, q: CheckRun, digest: Digest)
    requires r.checkIndex == q.checkIndex
    ensures ProofOf(m, r, digest).meta.command == ProofOf(m, q, digest).meta.command
  {
  }

  /** Task `t` is the QA task whose last execution is the last completed QA execution `z`. */
  lemma LastQaTask(m: Mission, z: nat) returns (t: nat)
    requires Inv(m) && m.state.Completed? && TestedAt(m, z)
    ensures t < |m.plan| && m.plan[t].role.Qa? && m.plan[t].state.Completed? && m.plan[t].artifactHead == m.executions[z].head
  {
    hide Inv, LastBy, LastIndex;
    AllCompleted(m);
    t := TaskOf(m, z);
    var j := CompletionRecord(m, t);
    LastIndexBounds(m.executions, z);
    QaIsLast(m, z, j);
  }

  lemma QaIsLast(m: Mission, z: nat, j: nat)
    requires TestedAt(m, z) && z <= j < |m.executions| && m.executions[j].result.Completed? && m.executions[j].agent.Qa?
    ensures j == z
  {
  }

  /** The deciding proof of the first check of the last QA covers every artifact it contains. */
  lemma AllCovered(w: World, x: Export, host: E.Host, digest: Digest, git: Git, t: nat, anc: (string, string) -> bool)
    requires LogOk(w, git) && LogExported(w, x, digest) && UniqueIds(w.m.plan) && DigestOk(w.m, digest) && w.m.id != ""
    requires forall j :: 0 <= j < |w.m.plan| ==> w.m.plan[j].state.Completed?
    requires t < |w.m.plan| && w.m.plan[t].role.Qa? && |Commands(w.m)| > 0
    requires AllContained(w.m.plan, anc, w.m.plan[t].artifactHead) && host.ancestor == anc
    ensures E.Machine(x.evidence, E.RunsById(x.runs)) != []
    ensures forall k :: 0 <= k < |w.m.plan| ==> E.Covered(host, E.Machine(x.evidence, E.RunsById(x.runs)), SiteOf(git, w.m.plan[k]))
  {
    var proofs := E.Machine(x.evidence, E.RunsById(x.runs));
    CommandsAgree(w, x, host, digest, git);
    hide E.Machine, E.RunsById, E.Decides, LogExported, ProofOf, RecordOk, E.ScopeOf, E.SameCheck, DigestOk;
    var y, i := LastAttempt(w, x, digest, git, t, 0);
    var d := E.SomeDecides(host, proofs, i);
    var z, s := DeciderIsLast(w, x, host, digest, git, d);
    SameCheckSameCommand(host, w.m, w.log[z], w.log[y], digest, git);
    assert s == t;
    assert Vouched(w.m.plan[t], w.log, |Commands(w.m)|);
    forall k | 0 <= k < |w.m.plan| ensures E.Covered(host, proofs, SiteOf(git, w.m.plan[k])) {
      ProofSite(w.m, w.log[z], digest, git);
      assert host.ancestor(w.m.plan[k].artifactHead, w.m.plan[t].artifactHead);
      assert E.CoveredBy(host, SiteOf(git, w.m.plan[k]), proofs[d].meta.before.repository, proofs[d].meta.before.commit);
    }
  }

  lemma ProofSite(m: Mission, r: CheckRun, digest: Digest, git: Git)
    requires RecordOk(git, |Commands(m)|, r) && r.passed
    ensures ProofOf(m, r, digest).meta.before == r.before && r.before.repository == git.repository
  {
  }

  /** In a completed mission every task's site is a source. */
  lemma SitesAreSources(w: World, x: Export, git: Git, trees: string -> Tree)
    requires OwnItems(w) && LinkedOk(w) && SourcesExported(w, x, git, trees) && Undisturbed(w.m, trees)
    requires forall k :: 0 <= k < |w.m.plan| ==> w.m.plan[k].state.Completed? && w.m.plan[k].worktree != ""
    ensures SitesKnown(w.m, x, git)
  {
    forall k | 0 <= k < |w.m.plan| ensures SiteOf(git, w.m.plan[k]) in x.sources {
      assert Active(w.m.plan[k]);
      assert HasWorktree(w, w.m.plan[k].taskId);
    }
  }

  /** When every work item is done, every source is the site of a plan task. */
  lemma SourcesArePlanned(w: World, x: Export, git: Git, trees: string -> Tree)
    requires LinkedOk(w) && DoneIsPlanned(w) && SourcesExported(w, x, git, trees) && Undisturbed(w.m, trees)
    requires forall k :: 0 <= k < |w.m.plan| ==> w.m.plan[k].state.Completed? && w.m.plan[k].worktree != ""
    requires forall id :: id in w.items ==> IsDone(w, id)
    ensures forall i :: 0 <= i < |x.sources| ==> IsSite(w.m, git, x.sources[i])
  {
    forall i | 0 <= i < |x.sources| ensures IsSite(w.m, git, x.sources[i]) {
      assert IsInspected(w, git, trees, x.sources[i]);
      var id :| id in w.items && HasWorktree(w, id) && x.sources[i] == SourceAt(git, trees, w.items[id].worktree);
      assert IsDone(w, id);
      var k :| 0 <= k < |w.m.plan| && w.m.plan[k].taskId == id;
      assert Active(w.m.plan[k]);
      assert x.sources[i] == SiteOf(git, w.m.plan[k]);
    }
  }

  /** What a completed world provides: every task done, some check, and a QA task whose artifact contains all others. */
  ghost predicate Checked(w: World, t: nat, git: Git, anc: (string, string) -> bool) {
    && LogOk(w, git) && UniqueIds(w.m.plan) && |Commands(w.m)| > 0
    && (forall j :: 0 <= j < |w.m.plan| ==> w.m.plan[j].state.Completed?)
    && t < |w.m.plan| && w.m.plan[t].role.Qa? && AllContained(w.m.plan, anc, w.m.plan[t].artifactHead)
  }

  lemma CompletedIsChecked(w: World, git: Git, anc: (string, string) -> bool) returns (t: nat)
    requires w.m.state.Completed? && WorldInv(w, anc, git)
    ensures Checked(w, t, git, anc)
  {
    hide Inv, OrderInv, LogOk, TestedAt, AllContained, PlanShape, UniqueIds, Commands;
    InvIds(w.m);
    AllCompleted(w.m);
    SomeChecks(w.m);
    var z := QaVouches(w.m, anc);
    t := LastQaTask(w.m, z);
  }

  lemma MachineCurrent(w: World, x: Export, host: E.Host, digest: Digest, git: Git, t: nat)
    requires w.m.id != "" && LogExported(w, x, digest) && DigestOk(w.m, digest)
    requires SitesKnown(w.m, x, git) && forall i :: 0 <= i < |x.sources| ==> IsSite(w.m, git, x.sources[i])
    requires Checked(w, t, git, host.ancestor)
    ensures E.Current(host, x.evidence, x.runs, x.sources)
    ensures forall i :: 0 <= i < |x.sources| ==> x.sources[i].clean
  {
    hide LogOk, E.Machine, E.RunsById, E.DecidersGood, E.Covered, E.OneCommand, E.ScopesValid, UniqueIds, AllContained, DigestOk, Commands;
    DecidersAreGood(w, x, host, digest, git);
    CommandsAgree(w, x, host, digest, git);
    AllCovered(w, x, host, digest, git, t, host.ancestor);
    assert !E.Active(x.runs) by { hide E.Active; }
    forall i | 0 <= i < |x.sources| ensures E.Covered(host, E.Machine(x.evidence, E.RunsById(x.runs)), x.sources[i]) && x.sources[i].clean {
      assert IsSite(w.m, git, x.sources[i]);
      var k :| 0 <= k < |w.m.plan| && x.sources[i] == SiteOf(git, w.m.plan[k]);
    }
  }

  lemma SomeChecks(m: Mission)
    requires Inv(m)
    ensures |Commands(m)| > 0
  {
    hide PlanShape, TasksOk, ExecutionsOk, AllBelong, RunningLinked, CompletedLinked, Started, RetriesRise, StateOk, EscalationOk, OnlyLastRuns;
  }

  lemma CriteriaProven(w: World, x: Export)
    requires CriteriaOk(w) && w.m.state.Completed? && CriteriaExported(w, x)
    ensures x.criteria != [] && forall k :: 0 <= k < |x.criteria| ==> x.criteria[k].satisfied && E.Proven(x.evidence, x.criteria[k])
  {
    hide E.NewestFor;
    forall k | 0 <= k < |x.criteria| ensures x.criteria[k].satisfied && E.Proven(x.evidence, x.criteria[k]) {
      assert HasProof(x.evidence, x.criteria[k].id);
    }
  }

  lemma ItemsAgree(w: World, x: Export)
    requires ItemsExported(w, x)
    ensures (forall y :: 0 <= y < |x.items| ==> x.items[y].done) <==> forall id :: id in w.items ==> IsDone(w, id)
  {
    if forall y :: 0 <= y < |x.items| ==> x.items[y].done {
      forall id | id in w.items ensures IsDone(w, id) {
        assert Lists(x.items, id);
        var y :| 0 <= y < |x.items| && x.items[y].id == id;
      }
    }
    if forall id :: id in w.items ==> IsDone(w, id) {
      forall y | 0 <= y < |x.items| ensures x.items[y].done {
        assert IsDone(w, x.items[y].id);
      }
    }
  }

  lemma PlacedWhenDone(m: Mission)
    requires Inv(m) && m.state.Completed?
    ensures forall k :: 0 <= k < |m.plan| ==> m.plan[k].state.Completed? && m.plan[k].worktree != ""
  {
    CompletedPlan(m);
    hide Inv;
    forall k | 0 <= k < |m.plan| ensures m.plan[k].worktree != "" {
      InvTask(m, k);
    }
  }

  /** With every item done and every criterion proven, nothing is missing. */
  lemma NothingMissing(w: World, x: Export, host: E.Host, digest: Digest, git: Git, trees: string -> Tree, t: nat)
    requires OwnItems(w) && LinkedOk(w) && DoneIsPlanned(w) && Checked(w, t, git, host.ancestor) && w.m.id != ""
    requires forall k :: 0 <= k < |w.m.plan| ==> w.m.plan[k].state.Completed? && w.m.plan[k].worktree != ""
    requires DigestOk(w.m, digest) && Exported(w, x, git, digest, trees) && Undisturbed(w.m, trees)
    requires forall id :: id in w.items ==> IsDone(w, id)
    ensures E.Current(host, x.evidence, x.runs, x.sources) && forall i :: 0 <= i < |x.sources| ==> x.sources[i].clean
  {
    hide DigestOk, Checked, IsDone, Undisturbed, LinkedOk, OwnItems, DoneIsPlanned, E.Current, LogExported, ItemsExported, SourcesExported, CriteriaExported;
    SitesAreSources(w, x, git, trees);
    SourcesArePlanned(w, x, git, trees);
    MachineCurrent(w, x, host, digest, git, t);
  }

  lemma ItemFacts(w: World)
    requires ItemInv(w)
    ensures OwnItems(w) && LinkedOk(w) && DoneIsPlanned(w)
  {
    hide OwnItems, LinkedOk, DoneIsPlanned, MadeOk, LagsOk;
  }

  /** A completed world's candidate is ready exactly when every work item is done. */
  lemma ReadyWhenDone(w: World, x: Export, host: E.Host, digest: Digest, git: Git, trees: string -> Tree)
    requires w.m.state.Completed? && w.m.id != "" && WorldInv(w, host.ancestor, git) && ItemInv(w)
    requires DigestOk(w.m, digest) && Exported(w, x, git, digest, trees) && Undisturbed(w.m, trees)
    ensures E.Complete(host, x.criteria, x.items, x.evidence, x.sources, x.runs, true) <==> forall id :: id in w.items ==> IsDone(w, id)
  {
    hide ItemInv, Inv, OrderInv, LogOk, DigestOk, Checked, IsDone, Undisturbed, E.Current, E.Proven;
    hide LogExported, ItemsExported, SourcesExported, CriteriaExported, CriteriaOk;
    var t := CompletedIsChecked(w, git, host.ancestor);
    PlacedWhenDone(w.m);
    ItemFacts(w);
    hide OwnItems, LinkedOk, DoneIsPlanned;
    ItemsAgree(w, x);
    CriteriaProven(w, x);
    if forall id :: id in w.items ==> IsDone(w, id) {
      NothingMissing(w, x, host, digest, git, trees, t) by { hide Exported; }
    }
  }

  /**
   * When a mission with an ordered plan has completed and nobody edited its worktrees, its release
   * candidate is ready exactly when no creation of a work item went unsaved and no reset of finished
   * work was left without a repair being saved after it: the two windows a crash can fall into.
   */
  lemma CompletedIsReady(
    worlds: seq<World>, events: seq<Event>, n: nat, x: Export, host: E.Host, digest: Digest, git: Git, trees: string -> Tree)
    requires WorldRun(worlds, events, host.ancestor, git) && Ordered(worlds[0].m.plan) && n < |worlds|
    requires worlds[n].m.state.Completed? && worlds[n].m.id != "" && DigestOk(worlds[n].m, digest)
    requires Exported(worlds[n], x, git, digest, trees) && Undisturbed(worlds[n].m, trees)
    ensures E.Complete(host, x.criteria, x.items, x.evidence, x.sources, x.runs, true) <==> AllNamed(events, n) && AllRepaired(worlds, events, n)
  {
    hide WorldInv, WorldRun, Exported, DigestOk, Undisturbed, AllNamed, AllRepaired, Ordered, ItemInv, E.Complete;
    WorldSound(worlds, events, host.ancestor, git, n);
    RunItems(worlds, events, host.ancestor, git, n);
    AllDoneExactly(worlds, events, host.ancestor, git, n);
    ReadyWhenDone(worlds[n], x, host, digest, git, trees);
  }

  // ---------- every world can be exported ----------

  lemma {:induction false} Listed(ids: set<string>) returns (s: seq<string>)
    ensures forall id :: id in s <==> id in ids
    decreases |ids|
  {
    if ids == {} {
      s := [];
    } else {
      var id :| id in ids;
      var rest := Listed(ids - {id});
      s := rest + [id];
    }
  }

  lemma {:induction false} SourceList(w: World, git: Git, trees: string -> Tree, ids: seq<string>) returns (sources: seq<E.Source>)
    requires forall id :: id in ids ==> id in w.items
    ensures forall i :: 0 <= i < |sources| ==> IsInspected(w, git, trees, sources[i])
    ensures forall id :: id in ids && HasWorktree(w, id) ==> SourceAt(git, trees, w.items[id].worktree) in sources
  {
    sources := [];
    if ids != [] {
      var last := ids[|ids| - 1];
      sources := SourceList(w, git, trees, ids[..|ids| - 1]);
      if HasWorktree(w, last) {
        sources := sources + [SourceAt(git, trees, w.items[last].worktree)];
      }
    }
  }

  lemma {:induction false} RunsFound(runs: seq<E.VerificationRun>, k: nat)
    requires k < |runs| && forall i, j :: 0 <= i < j < |runs| ==> runs[i].evidenceId != runs[j].evidenceId
    ensures runs[k].evidenceId in E.RunsById(runs) && E.RunsById(runs)[runs[k].evidenceId] == runs[k]
  {
    if k < |runs| - 1 {
      RunsFound(runs[..|runs| - 1], k);
    }
  }

  lemma {:induction false} RunsKnown(runs: seq<E.VerificationRun>, id: string)
    requires id in E.RunsById(runs)
    ensures exists k :: 0 <= k < |runs| && runs[k].evidenceId == id
  {
    var n := |runs| - 1;
    if runs[n].evidenceId != id {
      RunsKnown(runs[..n], id);
      var k :| 0 <= k < n && runs[..n][k].evidenceId == id;
      assert runs[k].evidenceId == id;
    }
  }

  lemma {:induction false} MachineOfBoth(machine: seq<E.Proof>, others: seq<E.Proof>, byId: map<string, E.VerificationRun>)
    requires forall k :: 0 <= k < |machine| ==> machine[k].id in byId
    requires forall k :: 0 <= k < |others| ==> others[k].id !in byId
    ensures E.Machine(machine + others, byId) == machine
  {
    var all := machine + others;
    if others != [] {
      assert all[..|all| - 1] == machine + others[..|others| - 1] && all[|all| - 1] == others[|others| - 1];
      MachineOfBoth(machine, others[..|others| - 1], byId);
    } else if machine != [] {
      assert all[..|all| - 1] == machine[..|machine| - 1] + [] && all[|all| - 1] == machine[|machine| - 1];
      MachineOfBoth(machine[..|machine| - 1], [], byId);
      assert machine == machine[..|machine| - 1] + [machine[|machine| - 1]];
    }
  }

  function AcceptanceProof(criterionId: string): E.Proof {
    E.Proof("", "", criterionId, true, 0,
            E.Meta("", "", E.Absent, E.Absent, "", "", "", "", "", E.Site("", "", "", false), E.Site("", "", "", false), false))
  }

  function LogProofs(w: World, digest: Digest): (r: seq<E.Proof>)
    ensures |r| == |w.log| && forall y :: 0 <= y < |w.log| ==> r[y] == ProofOf(w.m, w.log[y], digest)
  {
    seq(|w.log|, y requires 0 <= y < |w.log| => ProofOf(w.m, w.log[y], digest))
  }

  function LogRuns(w: World): (r: seq<E.VerificationRun>)
    ensures |r| == |w.log| && forall y :: 0 <= y < |w.log| ==> r[y] == RunOf(w.m, w.log[y])
  {
    seq(|w.log|, y requires 0 <= y < |w.log| => RunOf(w.m, w.log[y]))
  }

  lemma LogListed(w: World, x: Export, digest: Digest)
    requires UniqueProofs(w.log) && forall y :: 0 <= y < |w.log| ==> w.log[y].proofId != ""
    requires x.evidence == LogProofs(w, digest) + seq(|w.accepted|, j requires 0 <= j < |w.accepted| => AcceptanceProof(w.accepted[j]))
    requires x.runs == LogRuns(w)
    ensures LogExported(w, x, digest)
  {
    var others := seq(|w.accepted|, j requires 0 <= j < |w.accepted| => AcceptanceProof(w.accepted[j]));
    var proofs := LogProofs(w, digest);
    var byId := E.RunsById(x.runs);
    hide E.RunsById, E.Machine;
    forall y | 0 <= y < |w.log|
      ensures w.log[y].proofId in byId && byId[w.log[y].proofId] == RunOf(w.m, w.log[y]) && proofs[y].id in byId
    {
      RunsFound(x.runs, y);
    }
    forall k | 0 <= k < |others| ensures others[k].id !in byId {
      if "" in byId {
        RunsKnown(x.runs, "");
      }
    }
    hide ProofOf, RunOf;
    MachineOfBoth(proofs, others, byId);
    forall k | 0 <= k < |proofs| ensures IsRecorded(w, digest, proofs[k]) {
      assert proofs[k] == ProofOf(w.m, w.log[k], digest);
    }
    forall y | 0 <= y < |w.log| ensures ProofOf(w.m, w.log[y], digest) in proofs {
      assert proofs[y] == ProofOf(w.m, w.log[y], digest);
    }
    NothingActive(w);
  }

  lemma NothingActive(w: World)
    ensures !E.Active(LogRuns(w))
  {
  }

  lemma CriteriaListed(w: World, x: Export, digest: Digest)
    requires x.evidence == LogProofs(w, digest) + seq(|w.accepted|, j requires 0 <= j < |w.accepted| => AcceptanceProof(w.accepted[j]))
    requires x.criteria == w.criteria
    ensures CriteriaExported(w, x)
  {
    var n := |w.log|;
    forall id | id in w.accepted ensures HasProof(x.evidence, id) {
      var j :| 0 <= j < |w.accepted| && w.accepted[j] == id;
      assert x.evidence[n + j].criterionId == id;
    }
  }

  lemma ItemList(w: World, ids: seq<string>) returns (items: seq<E.WorkItem>)
    requires forall id :: id in ids <==> id in w.items
    ensures forall y :: 0 <= y < |items| ==> items[y].id in w.items && (items[y].done <==> w.items[items[y].id].status.Done?)
    ensures forall id :: id in w.items ==> Lists(items, id)
  {
    items := seq(|ids|, k requires 0 <= k < |ids| => E.WorkItem(ids[k], IsDone(w, ids[k])));
    forall id | id in w.items ensures Lists(items, id) {
      var k :| 0 <= k < |ids| && ids[k] == id;
      assert items[k].id == id;
    }
  }

  lemma LogIds(w: World, git: Git)
    requires LogOk(w, git)
    ensures UniqueProofs(w.log) && forall y :: 0 <= y < |w.log| ==> w.log[y].proofId != ""
  {
    hide AllVouched, UniqueProofs, HasOwner;
  }

  /** Whatever a run has led to can be exported, so the readiness theorem always has something to speak of. */
  lemma SomeExport(w: World, git: Git, digest: Digest, trees: string -> Tree) returns (x: Export)
    requires LogOk(w, git)
    ensures Exported(w, x, git, digest, trees)
  {
    LogIds(w, git);
    hide LogOk, UniqueProofs, LogExported, CriteriaExported, HasWorktree, IsInspected, LogProofs, LogRuns, Lists;
    var ids := Listed(w.items.Keys);
    var items := ItemList(w, ids);
    var sources := SourceList(w, git, trees, ids);
    var others := seq(|w.accepted|, j requires 0 <= j < |w.accepted| => AcceptanceProof(w.accepted[j]));
    x := Export(w.criteria, items, LogProofs(w, digest) + others, LogRuns(w), sources);
    LogListed(w, x, digest);
    CriteriaListed(w, x, digest);
  }
}
