/** Which machine proofs currently count, and when a release candidate is ready (internal/app/verification_source.go, internal/app/release.go). */
module Evidence {
  /** A numeric metadata field as it was stored. */
  datatype Field = Absent | Garbled | Number(value: int)

  /** Where a verification ran, before and after. */
  datatype Site = Site(repository: string, worktree: string, commit: string, clean: bool)

  datatype Meta = Meta(
    logicalCheckId: string, planTaskId: string, attempt: Field, checkIndex: Field, missionId: string, executionId: string,
    runId: string, command: string, workingDir: string, before: Site, after: Site, verified: bool)

  datatype Proof = Proof(id: string, taskId: string, criterionId: string, passed: bool, created: int, meta: Meta)

  datatype RunStatus = Running | Stopping | RunPassed | RunFailed

  datatype VerificationRun = VerificationRun(id: string, evidenceId: string, status: RunStatus, command: string, workingDir: string)

  datatype Source = Source(repository: string, worktree: string, head: string, clean: bool)

  /** The check a proof is about; legacy proofs have no attempts. */
  datatype Key = LegacyKey(command: string, dir: string, taskId: string) | ManagedKey(missionId: string, planTaskId: string, taskId: string, check: string)

  datatype Scope = Invalid | Legacy(key: Key) | Managed(key: Key, attempt: int)

  predicate IsHex(c: char) {
    '0' <= c <= '9' || 'a' <= c <= 'f' || 'A' <= c <= 'F'
  }

  /** A SHA-256 digest in hexadecimal. */
  predicate IsDigest(s: string) {
    |s| == 64 && forall k :: 0 <= k < |s| ==> IsHex(s[k])
  }

  /** The host's view of a run of checks: path normalisation and commit ancestry. */
  datatype Host = Host(path: string -> string, ancestor: (string, string) -> bool)

  function ScopeOf(host: Host, p: Proof): Scope {
    var m := p.meta;
    if m.logicalCheckId == "" && m.planTaskId == "" && m.attempt.Absent? then
      Legacy(LegacyKey(m.command, host.path(m.workingDir), p.taskId))
    else if !IsDigest(m.logicalCheckId) || !m.attempt.Number? || m.attempt.value < 1 || !m.checkIndex.Number? || m.checkIndex.value < 0
         || m.missionId == "" || m.planTaskId == "" || m.executionId == "" || m.runId == "" || p.taskId == "" then Invalid
    else Managed(ManagedKey(m.missionId, m.planTaskId, p.taskId, m.logicalCheckId), m.attempt.value)
  }

  // ---------- which proof stands for a check ----------

  /** A later attempt, then a later time, then a failure over a pass. */
  predicate Beats(host: Host, p: Proof, q: Proof) {
    var a, b := ScopeOf(host, p), ScopeOf(host, q);
    a.Managed? && b.Managed? &&
    (a.attempt > b.attempt
     || (a.attempt == b.attempt && p.created > q.created)
     || (a.attempt == b.attempt && p.created == q.created && !p.passed && q.passed))
  }

  predicate SameCheck(host: Host, p: Proof, q: Proof) {
    !ScopeOf(host, p).Invalid? && !ScopeOf(host, q).Invalid? && ScopeOf(host, p).key == ScopeOf(host, q).key
  }

  /** Proof `k` stands against proof `j`: not beaten, and beating it when listed later; a legacy check goes by listing alone. */
  predicate Stands(host: Host, proofs: seq<Proof>, k: nat, j: nat)
    requires k < |proofs| && j < |proofs|
  {
    SameCheck(host, proofs[j], proofs[k]) ==>
      if ScopeOf(host, proofs[k]).Managed? then !Beats(host, proofs[j], proofs[k]) && (j < k ==> Beats(host, proofs[k], proofs[j])) else k < j
  }

  /** Proof `k` decides its check. */
  predicate Decides(host: Host, proofs: seq<Proof>, k: nat)
    requires k < |proofs|
  {
    !ScopeOf(host, proofs[k]).Invalid? && forall j :: 0 <= j < |proofs| && j != k ==> Stands(host, proofs, k, j)
  }

  // ---------- when a deciding proof is good ----------

  function RunsById(runs: seq<VerificationRun>): map<string, VerificationRun> {
    if runs == [] then map[]
    else
      var last := runs[|runs| - 1];
      RunsById(runs[..|runs| - 1])[last.evidenceId := last]
  }

  predicate Pinned(p: Proof, run: VerificationRun) {
    && run.status.RunPassed? && p.passed && p.meta.runId == run.id && p.meta.command == run.command && p.meta.workingDir == run.workingDir
    && p.meta.verified && p.meta.before.clean && p.meta.after.clean
    && p.meta.before.commit != "" && p.meta.before.commit == p.meta.after.commit
    && p.meta.before.repository == p.meta.after.repository && p.meta.before.worktree == p.meta.after.worktree
  }

  predicate MatchesSource(host: Host, p: Proof, s: Source) {
    && s.clean && host.path(s.repository) == host.path(p.meta.before.repository)
    && host.path(s.worktree) == host.path(p.meta.before.worktree) && s.head == p.meta.before.commit
  }

  predicate GoodProof(host: Host, p: Proof, run: VerificationRun, sources: seq<Source>) {
    Pinned(p, run) && exists i :: 0 <= i < |sources| && MatchesSource(host, p, sources[i])
  }

  predicate CoveredBy(host: Host, s: Source, repository: string, head: string) {
    host.path(s.repository) == host.path(repository) && (s.head == head || host.ancestor(s.head, head))
  }

  predicate Active(runs: seq<VerificationRun>) {
    exists i :: 0 <= i < |runs| && (runs[i].status.Running? || runs[i].status.Stopping?)
  }

  /** The proofs a verification run vouches for, in the order they are listed. */
  function Machine(evidence: seq<Proof>, byId: map<string, VerificationRun>): seq<Proof> {
    if evidence == [] then []
    else Machine(evidence[..|evidence| - 1], byId) + if evidence[|evidence| - 1].id in byId then [evidence[|evidence| - 1]] else []
  }

  lemma {:induction false} MachineIsMachine(evidence: seq<Proof>, byId: map<string, VerificationRun>)
    ensures forall k :: 0 <= k < |Machine(evidence, byId)| ==> Machine(evidence, byId)[k].id in byId
  {
    if evidence != [] {
      MachineIsMachine(evidence[..|evidence| - 1], byId);
    }
  }

  predicate ScopesValid(host: Host, proofs: seq<Proof>) {
    forall k :: 0 <= k < |proofs| ==> !ScopeOf(host, proofs[k]).Invalid?
  }

  /** All proofs of one managed check ran the same command. */
  predicate OneCommand(host: Host, proofs: seq<Proof>) {
    forall i, j :: 0 <= i < j < |proofs| && SameCheck(host, proofs[i], proofs[j]) && ScopeOf(host, proofs[i]).Managed? ==>
      proofs[i].meta.command == proofs[j].meta.command
  }

  predicate DecidersGood(host: Host, proofs: seq<Proof>, byId: map<string, VerificationRun>, sources: seq<Source>) {
    forall k :: 0 <= k < |proofs| && Decides(host, proofs, k) && proofs[k].id in byId ==> GoodProof(host, proofs[k], byId[proofs[k].id], sources)
  }

  predicate Covered(host: Host, proofs: seq<Proof>, s: Source) {
    exists k :: 0 <= k < |proofs| && Decides(host, proofs, k) && CoveredBy(host, s, proofs[k].meta.before.repository, proofs[k].meta.before.commit)
  }

  predicate CurrentProofs(host: Host, proofs: seq<Proof>, byId: map<string, VerificationRun>, sources: seq<Source>) {
    && ScopesValid(host, proofs) && OneCommand(host, proofs) && proofs != []
    && DecidersGood(host, proofs, byId, sources)
    && forall i :: 0 <= i < |sources| ==> Covered(host, proofs, sources[i])
  }

  /**
   * The machine evidence is current: nothing is running, every proof can be attributed, each check's
   * deciding proof passed on a current clean source, and every source is contained in a verified head.
   */
  predicate Current(host: Host, evidence: seq<Proof>, runs: seq<VerificationRun>, sources: seq<Source>) {
    var byId := RunsById(runs);
    !Active(runs) && CurrentProofs(host, Machine(evidence, byId), byId, sources)
  }

  // ---------- selecting the deciding proofs ----------

  /** The deciding proofs among the first few, by check. */
  ghost predicate Selected(host: Host, proofs: seq<Proof>, latest: map<Key, Proof>) {
    && (forall key :: key in latest ==> exists k :: 0 <= k < |proofs| && Decides(host, proofs, k) && proofs[k] == latest[key] && ScopeOf(host, proofs[k]).key == key)
    && (forall k :: 0 <= k < |proofs| ==> !ScopeOf(host, proofs[k]).Invalid? && ScopeOf(host, proofs[k]).key in latest)
  }

  lemma UniqueDecider(host: Host, proofs: seq<Proof>, i: nat, j: nat)
    requires i < |proofs| && j < |proofs| && Decides(host, proofs, i) && Decides(host, proofs, j) && SameCheck(host, proofs[i], proofs[j])
    ensures i == j
  {
    hide Stands, ScopeOf;
    if i != j {
      OneStands(host, proofs, i, j);
    }
  }

  lemma OneStands(host: Host, proofs: seq<Proof>, i: nat, j: nat)
    requires i < |proofs| && j < |proofs| && i != j && SameCheck(host, proofs[i], proofs[j])
    ensures !(Stands(host, proofs, i, j) && Stands(host, proofs, j, i))
  {
    KeysTell(host, proofs[i], proofs[j]);
  }

  /** What one more proof does to the decision of its check. */
  predicate Takes(host: Host, p: Proof, latest: map<Key, Proof>)
    requires !ScopeOf(host, p).Invalid?
  {
    var key := ScopeOf(host, p).key;
    key !in latest || Beats(host, p, latest[key])
  }

  predicate LegacyAgree(host: Host, p: Proof, q: Proof) {
    SameCheck(host, p, q) ==> (ScopeOf(host, p).Legacy? <==> ScopeOf(host, q).Legacy?)
  }

  lemma KeysTell(host: Host, p: Proof, q: Proof)
    ensures LegacyAgree(host, p, q)
  {
  }

  lemma DecidersGrow(host: Host, proofs: seq<Proof>, p: Proof, k: nat)
    requires k < |proofs| && Decides(host, proofs, k) && !ScopeOf(host, p).Invalid?
    requires SameCheck(host, p, proofs[k]) ==> !Beats(host, p, proofs[k])
    ensures Decides(host, proofs + [p], k)
  {
    KeysTell(host, p, proofs[k]);
    var more := proofs + [p];
    forall j | 0 <= j < |more| && j != k ensures Stands(host, more, k, j) {
      if j < |proofs| {
        assert more[j] == proofs[j] && Stands(host, proofs, k, j);
      }
    }
  }

  lemma BeatsTransitive(host: Host, p: Proof, q: Proof, r: Proof)
    requires Beats(host, p, q) && !Beats(host, r, q)
    ensures !Beats(host, r, p) && (ScopeOf(host, r).Managed? ==> Beats(host, p, r))
  {
  }

  /** A proof that beats the decider so far beats everything listed for that check. */
  lemma NewDecider(host: Host, proofs: seq<Proof>, p: Proof, k: nat)
    requires k < |proofs| && Decides(host, proofs, k) && SameCheck(host, p, proofs[k]) && Beats(host, p, proofs[k])
    ensures Decides(host, proofs + [p], |proofs|)
  {
    var more := proofs + [p];
    var n := |proofs|;
    forall j | 0 <= j < |more| && j != n ensures Stands(host, more, n, j) {
      assert more[j] == proofs[j];
      if SameCheck(host, more[j], more[n]) {
        KeysTell(host, proofs[j], p);
        if j != k {
          assert SameCheck(host, proofs[j], proofs[k]) && Stands(host, proofs, k, j);
        }
        BeatsTransitive(host, p, proofs[k], proofs[j]);
      }
    }
  }

  lemma FirstDecider(host: Host, proofs: seq<Proof>, p: Proof)
    requires !ScopeOf(host, p).Invalid? && forall j :: 0 <= j < |proofs| ==> !SameCheck(host, proofs[j], p)
    ensures Decides(host, proofs + [p], |proofs|)
  {
    var more := proofs + [p];
    forall j | 0 <= j < |more| && j != |proofs| ensures Stands(host, more, |proofs|, j) {
      assert more[j] == proofs[j];
    }
  }

  lemma SelectedStep(host: Host, proofs: seq<Proof>, latest: map<Key, Proof>, p: Proof)
    requires Selected(host, proofs, latest) && !ScopeOf(host, p).Invalid?
    ensures Selected(host, proofs + [p], if Takes(host, p, latest) then latest[ScopeOf(host, p).key := p] else latest)
  {
    var more := proofs + [p];
    var key := ScopeOf(host, p).key;
    var next := if Takes(host, p, latest) then latest[key := p] else latest;
    hide Decides, Beats, ScopeOf;
    forall x | x in next
      ensures exists k :: 0 <= k < |more| && Decides(host, more, k) && more[k] == next[x] && ScopeOf(host, more[k]).key == x
    {
      if x == key && Takes(host, p, latest) {
        if key in latest {
          var k :| 0 <= k < |proofs| && Decides(host, proofs, k) && proofs[k] == latest[key] && ScopeOf(host, proofs[k]).key == key;
          NewDecider(host, proofs, p, k);
        } else {
          FirstDecider(host, proofs, p);
        }
        assert more[|proofs|] == p;
      } else {
        var k :| 0 <= k < |proofs| && Decides(host, proofs, k) && proofs[k] == latest[x] && ScopeOf(host, proofs[k]).key == x;
        DecidersGrow(host, proofs, p, k);
        assert more[k] == proofs[k];
      }
    }
    forall k | 0 <= k < |more| ensures !ScopeOf(host, more[k]).Invalid? && ScopeOf(host, more[k]).key in next {
      if k < |proofs| {
        assert more[k] == proofs[k];
      }
    }
  }

  lemma {:induction false} SomeSelected(host: Host, proofs: seq<Proof>) returns (latest: map<Key, Proof>)
    requires ScopesValid(host, proofs)
    ensures Selected(host, proofs, latest)
  {
    if proofs == [] {
      latest := map[];
    } else {
      var front, p := proofs[..|proofs| - 1], proofs[|proofs| - 1];
      latest := SomeSelected(host, front);
      SelectedStep(host, front, latest, p);
      assert front + [p] == proofs;
      latest := if Takes(host, p, latest) then latest[ScopeOf(host, p).key := p] else latest;
    }
  }

  /** Every check with a proof has a deciding one. */
  lemma SomeDecides(host: Host, proofs: seq<Proof>, k: nat) returns (j: nat)
    requires ScopesValid(host, proofs) && k < |proofs|
    ensures j < |proofs| && Decides(host, proofs, j) && SameCheck(host, proofs[j], proofs[k])
  {
    hide Decides, ScopeOf;
    var latest := SomeSelected(host, proofs);
    var key := ScopeOf(host, proofs[k]).key;
    j :| 0 <= j < |proofs| && Decides(host, proofs, j) && proofs[j] == latest[key] && ScopeOf(host, proofs[j]).key == key;
  }

  lemma {:induction false} MachinePrefix(evidence: seq<Proof>, byId: map<string, VerificationRun>, n: nat)
    requires n <= |evidence|
    ensures Machine(evidence[..n], byId) <= Machine(evidence, byId)
  {
    if n == |evidence| {
      assert evidence[..n] == evidence;
    } else {
      assert evidence[..|evidence| - 1][..n] == evidence[..n];
      MachinePrefix(evidence[..|evidence| - 1], byId, n);
    }
  }

  lemma MachineStep(evidence: seq<Proof>, byId: map<string, VerificationRun>, n: nat)
    requires n < |evidence|
    ensures Machine(evidence[..n + 1], byId) == Machine(evidence[..n], byId) + if evidence[n].id in byId then [evidence[n]] else []
  {
    assert evidence[..n + 1][..n] == evidence[..n];
  }

  lemma CommandKept(host: Host, proofs: seq<Proof>, latest: map<Key, Proof>, p: Proof)
    requires Selected(host, proofs, latest) && OneCommand(host, proofs) && !ScopeOf(host, p).Invalid?
    ensures var key := ScopeOf(host, p).key;
      OneCommand(host, proofs + [p]) <==> !(ScopeOf(host, p).Managed? && key in latest && latest[key].meta.command != p.meta.command)
  {
    var key := ScopeOf(host, p).key;
    var more := proofs + [p];
    hide Decides, ScopeOf;
    if key in latest {
      var k :| 0 <= k < |proofs| && Decides(host, proofs, k) && proofs[k] == latest[key] && ScopeOf(host, proofs[k]).key == key;
      KeysTell(host, proofs[k], p);
      assert more[k] == proofs[k] && more[|proofs|] == p && SameCheck(host, more[k], p);
      if !(ScopeOf(host, p).Managed? && latest[key].meta.command != p.meta.command) {
        forall i, j | 0 <= i < j < |more| && SameCheck(host, more[i], more[j]) && ScopeOf(host, more[i]).Managed?
          ensures more[i].meta.command == more[j].meta.command
        {
          KeysTell(host, more[i], more[j]);
          CommandPair(host, proofs, p, k, i, j);
        }
      }
    } else {
      forall i, j | 0 <= i < j < |more| && SameCheck(host, more[i], more[j]) ensures j < |proofs| {
        assert more[i] == proofs[i];
      }
    }
  }

  lemma CommandPair(host: Host, proofs: seq<Proof>, p: Proof, k: nat, i: nat, j: nat)
    requires OneCommand(host, proofs) && k < |proofs| && i < j < |proofs + [p]|
    requires SameCheck(host, proofs[k], p) && (ScopeOf(host, p).Managed? ==> proofs[k].meta.command == p.meta.command)
    requires SameCheck(host, (proofs + [p])[i], (proofs + [p])[j]) && ScopeOf(host, (proofs + [p])[i]).Managed? && ScopeOf(host, (proofs + [p])[j]).Managed?
    ensures (proofs + [p])[i].meta.command == (proofs + [p])[j].meta.command
  {
    hide ScopeOf;
    if j == |proofs| && i != k {
      KeysTell(host, proofs[k], p);
      assert SameCheck(host, proofs[i], proofs[k]) && SameCheck(host, proofs[k], proofs[i]);
    }
  }

  predicate Older(attempt: int, created: int, otherAttempt: int, otherCreated: int) {
    attempt < otherAttempt || (attempt == otherAttempt && created < otherCreated)
  }

  /** Walks the listed proofs once and keeps the deciding proof of every check. */
  method Select(host: Host, evidence: seq<Proof>, byId: map<string, VerificationRun>) returns (ok: bool, latest: map<Key, Proof>)
    ensures ok <==> ScopesValid(host, Machine(evidence, byId)) && OneCommand(host, Machine(evidence, byId))
    ensures ok ==> Selected(host, Machine(evidence, byId), latest)
  {
    hide ScopeOf, Decides, Beats, OneCommand, Selected, Machine;
    ok, latest := false, map[];
    SelectedNone(host, byId);
    for n := 0 to |evidence|
      invariant ScopesValid(host, Machine(evidence[..n], byId)) && OneCommand(host, Machine(evidence[..n], byId))
      invariant Selected(host, Machine(evidence[..n], byId), latest)
    {
      var p := evidence[n];
      MachineStep(evidence, byId, n);
      MachinePrefix(evidence, byId, n + 1);
      if p.id !in byId {
        assert Machine(evidence[..n + 1], byId) == Machine(evidence[..n], byId);
        continue;
      }
      ghost var proofs := Machine(evidence[..n], byId);
      assert Machine(evidence, byId)[|proofs|] == p;
      var scope := ScopeOf(host, p);
      if scope.Invalid? {
        return;
      }
      CommandKept(host, proofs, latest, p);
      SelectedStep(host, proofs, latest, p);
      if scope.key in latest {
        var previous := latest[scope.key];
        DeciderScope(host, proofs, latest, p);
        if scope.Legacy? {
          continue;
        }
        if previous.meta.command != p.meta.command {
          if OneCommand(host, Machine(evidence, byId)) {
            OneCommandPrefix(host, proofs + [p], Machine(evidence, byId));
          }
          return;
        }
        var attempt := ScopeOf(host, previous).attempt;
        if Older(scope.attempt, p.created, attempt, previous.created) {
          continue;
        }
        if scope.attempt == attempt && p.created == previous.created && (p.passed || !previous.passed) {
          continue;
        }
      }
      latest := latest[scope.key := p];
    }
    assert evidence[..|evidence|] == evidence;
    ok := true;
  }

  lemma SelectedNone(host: Host, byId: map<string, VerificationRun>)
    ensures forall evidence: seq<Proof> :: Machine(evidence[..0], byId) == []
    ensures Selected(host, [], map[]) && OneCommand(host, [])
  {
  }

  /** What the decider so far and one more proof of the same check have in common, and when the latter takes over. */
  lemma DeciderScope(host: Host, proofs: seq<Proof>, latest: map<Key, Proof>, p: Proof)
    requires Selected(host, proofs, latest) && !ScopeOf(host, p).Invalid? && ScopeOf(host, p).key in latest
    ensures var previous := latest[ScopeOf(host, p).key];
      var a, b := ScopeOf(host, p), ScopeOf(host, previous);
      !b.Invalid? && (a.Managed? <==> b.Managed?)
        && (a.Managed? && Takes(host, p, latest) ==> !Older(a.attempt, p.created, b.attempt, previous.created))
        && (a.Managed? && !Older(a.attempt, p.created, b.attempt, previous.created) ==>
              Takes(host, p, latest) == !(a.attempt == b.attempt && p.created == previous.created && (p.passed || !previous.passed)))
        && (a.Legacy? ==> !Takes(host, p, latest))
  {
    var key := ScopeOf(host, p).key;
    var k :| 0 <= k < |proofs| && Decides(host, proofs, k) && proofs[k] == latest[key] && ScopeOf(host, proofs[k]).key == key;
    KeysTell(host, p, proofs[k]);
  }

  lemma OneCommandPrefix(host: Host, some: seq<Proof>, all: seq<Proof>)
    requires some <= all && OneCommand(host, all)
    ensures OneCommand(host, some)
  {
    hide ScopeOf;
    forall i, j | 0 <= i < j < |some| && SameCheck(host, some[i], some[j]) && ScopeOf(host, some[i]).Managed?
      ensures some[i].meta.command == some[j].meta.command
    {
      assert all[i] == some[i] && all[j] == some[j];
    }
  }

  // ---------- the whole decision ----------

  method IndexRuns(runs: seq<VerificationRun>) returns (active: bool, byId: map<string, VerificationRun>)
    ensures active <==> Active(runs)
    ensures !active ==> byId == RunsById(runs)
  {
    active, byId := false, map[];
    for n := 0 to |runs|
      invariant byId == RunsById(runs[..n])
      invariant forall i :: 0 <= i < n ==> !runs[i].status.Running? && !runs[i].status.Stopping?
    {
      assert runs[..n + 1][..n] == runs[..n];
      if runs[n].status.Running? || runs[n].status.Stopping? {
        active := true;
        return;
      }
      byId := byId[runs[n].evidenceId := runs[n]];
    }
    assert runs[..|runs|] == runs;
  }

  /** The first clean source a proof was made on. */
  method FindSource(host: Host, p: Proof, sources: seq<Source>) returns (found: bool, s: Source)
    ensures found <==> exists i :: 0 <= i < |sources| && MatchesSource(host, p, sources[i])
    ensures found ==> MatchesSource(host, p, s)
  {
    for i := 0 to |sources|
      invariant forall j :: 0 <= j < i ==> !MatchesSource(host, p, sources[j])
    {
      if MatchesSource(host, p, sources[i]) {
        return true, sources[i];
      }
    }
    found, s := false, Source("", "", "", false);
  }

  /** Each source stands for one deciding proof made on it. */
  ghost predicate Represents(host: Host, latest: map<Key, Proof>, order: seq<Key>, verified: seq<Source>) {
    |order| == |verified| && forall i :: 0 <= i < |verified| ==> order[i] in latest && MatchesSource(host, latest[order[i]], verified[i])
  }

  predicate AllGood(host: Host, latest: map<Key, Proof>, byId: map<string, VerificationRun>, sources: seq<Source>) {
    forall key :: key in latest ==> latest[key].id in byId && GoodProof(host, latest[key], byId[latest[key].id], sources)
  }

  /** Checks the deciding proofs, in whatever order the map is ranged over. */
  method CheckDeciders(host: Host, latest: map<Key, Proof>, byId: map<string, VerificationRun>, sources: seq<Source>)
    returns (good: bool, verified: seq<Source>, ghost order: seq<Key>)
    requires forall key :: key in latest ==> latest[key].id in byId
    ensures good <==> AllGood(host, latest, byId, sources)
    ensures good ==> Represents(host, latest, order, verified) && forall key :: key in latest ==> key in order
  {
    hide Pinned, MatchesSource, GoodProof;
    good, verified, order := true, [], [];
    var todo := latest.Keys;
    while todo != {}
      invariant todo <= latest.Keys && good
      invariant forall key :: key in latest && key !in todo ==> GoodProof(host, latest[key], byId[latest[key].id], sources) && key in order
      invariant Represents(host, latest, order, verified)
      decreases todo
    {
      var key :| key in todo;
      var p := latest[key];
      var matched, s := FindSource(host, p, sources);
      GoodMeansPinnedAndFound(host, p, byId[p.id], sources);
      if !Pinned(p, byId[p.id]) || !matched {
        good := false;
        return;
      }
      verified, order := verified + [s], order + [key];
      todo := todo - {key};
    }
  }

  lemma GoodMeansPinnedAndFound(host: Host, p: Proof, run: VerificationRun, sources: seq<Source>)
    ensures GoodProof(host, p, run, sources) <==> Pinned(p, run) && exists i :: 0 <= i < |sources| && MatchesSource(host, p, sources[i])
  {
  }

  method IsCovered(host: Host, s: Source, verified: seq<Source>) returns (covered: bool)
    ensures covered <==> exists i :: 0 <= i < |verified| && CoveredBy(host, s, verified[i].repository, verified[i].head)
  {
    for i := 0 to |verified|
      invariant forall j :: 0 <= j < i ==> !CoveredBy(host, s, verified[j].repository, verified[j].head)
    {
      if host.path(s.repository) != host.path(verified[i].repository) {
        continue;
      }
      if s.head == verified[i].head {
        return true;
      }
      if host.ancestor(s.head, verified[i].head) {
        return true;
      }
    }
    covered := false;
  }

  lemma MatchCovers(host: Host, p: Proof, v: Source, s: Source)
    requires MatchesSource(host, p, v)
    ensures CoveredBy(host, s, v.repository, v.head) <==> CoveredBy(host, s, p.meta.before.repository, p.meta.before.commit)
  {
  }

  /** The selected proofs are exactly the deciding ones. */
  lemma SelectedDecides(host: Host, proofs: seq<Proof>, latest: map<Key, Proof>, k: nat)
    requires Selected(host, proofs, latest) && k < |proofs| && Decides(host, proofs, k)
    ensures latest[ScopeOf(host, proofs[k]).key] == proofs[k]
  {
    var key := ScopeOf(host, proofs[k]).key;
    var j :| 0 <= j < |proofs| && Decides(host, proofs, j) && proofs[j] == latest[key] && ScopeOf(host, proofs[j]).key == key;
    UniqueDecider(host, proofs, j, k);
  }

  lemma GoodMeansGood(host: Host, proofs: seq<Proof>, latest: map<Key, Proof>, byId: map<string, VerificationRun>, sources: seq<Source>)
    requires Selected(host, proofs, latest) && forall k :: 0 <= k < |proofs| ==> proofs[k].id in byId
    ensures AllGood(host, latest, byId, sources) <==> DecidersGood(host, proofs, byId, sources)
  {
    hide GoodProof, Decides, ScopeOf;
    forall k | 0 <= k < |proofs| && Decides(host, proofs, k) ensures latest[ScopeOf(host, proofs[k]).key] == proofs[k] {
      SelectedDecides(host, proofs, latest, k);
    }
  }

  lemma CoverMeansCover(host: Host, proofs: seq<Proof>, latest: map<Key, Proof>, order: seq<Key>, verified: seq<Source>, s: Source)
    requires Selected(host, proofs, latest) && Represents(host, latest, order, verified) && forall key :: key in latest ==> key in order
    ensures (exists i :: 0 <= i < |verified| && CoveredBy(host, s, verified[i].repository, verified[i].head)) <==> Covered(host, proofs, s)
  {
    hide MatchesSource, CoveredBy, Decides, ScopeOf;
    if i :| 0 <= i < |verified| && CoveredBy(host, s, verified[i].repository, verified[i].head) {
      var key := order[i];
      MatchCovers(host, latest[key], verified[i], s);
      var k :| 0 <= k < |proofs| && Decides(host, proofs, k) && proofs[k] == latest[key] && ScopeOf(host, proofs[k]).key == key;
    }
    if k :| 0 <= k < |proofs| && Decides(host, proofs, k) && CoveredBy(host, s, proofs[k].meta.before.repository, proofs[k].meta.before.commit) {
      SelectedDecides(host, proofs, latest, k);
      var i :| 0 <= i < |order| && order[i] == ScopeOf(host, proofs[k]).key;
      MatchCovers(host, proofs[k], verified[i], s);
    }
  }

  /** Whether the machine evidence is current; the maps may be ranged over in any order. */
  method CurrentMachineEvidence(host: Host, evidence: seq<Proof>, runs: seq<VerificationRun>, sources: seq<Source>) returns (current: bool)
    ensures current <==> Current(host, evidence, runs, sources)
  {
    hide Covered, DecidersGood, OneCommand, ScopesValid, Selected, Represents, AllGood, Machine, RunsById, Active;
    var active, byId := IndexRuns(runs);
    if active {
      return false;
    }
    var ok, latest := Select(host, evidence, byId);
    if !ok {
      return false;
    }
    ghost var proofs := Machine(evidence, byId);
    MachineIsMachine(evidence, byId);
    SelectedAreMachine(host, proofs, latest, byId);
    var good, verified;
    ghost var order;
    good, verified, order := CheckDeciders(host, latest, byId, sources);
    GoodMeansGood(host, proofs, latest, byId, sources);
    if !good {
      return false;
    }
    SomethingVerified(host, proofs, latest, order, verified);
    if verified == [] {
      return false;
    }
    for i := 0 to |sources|
      invariant forall j :: 0 <= j < i ==> Covered(host, proofs, sources[j])
    {
      var covered := IsCovered(host, sources[i], verified);
      CoverMeansCover(host, proofs, latest, order, verified, sources[i]);
      if !covered {
        return false;
      }
    }
    current := true;
  }

  lemma SelectedAreMachine(host: Host, proofs: seq<Proof>, latest: map<Key, Proof>, byId: map<string, VerificationRun>)
    requires Selected(host, proofs, latest) && forall k :: 0 <= k < |proofs| ==> proofs[k].id in byId
    ensures forall key :: key in latest ==> latest[key].id in byId
  {
    hide Decides, ScopeOf;
  }

  lemma SomethingVerified(host: Host, proofs: seq<Proof>, latest: map<Key, Proof>, order: seq<Key>, verified: seq<Source>)
    requires Selected(host, proofs, latest) && Represents(host, latest, order, verified) && forall key :: key in latest ==> key in order
    ensures verified == [] <==> proofs == []
  {
    hide Decides, ScopeOf, MatchesSource;
    if proofs != [] {
      assert ScopeOf(host, proofs[0]).key in order;
    }
    if verified != [] {
      assert order[0] in latest;
    }
  }

  // ---------- superseded proofs do not matter ----------

  /** `proofs` with one more inserted before position `i`. */
  function WithProof(proofs: seq<Proof>, i: nat, p: Proof): seq<Proof>
    requires i <= |proofs|
  {
    seq(|proofs| + 1, k requires 0 <= k < |proofs| + 1 => if k < i then proofs[k] else if k == i then p else proofs[k - 1])
  }

  /** Where the old positions go. */
  function Shifted(i: nat, k: nat): nat {
    if k < i then k else k + 1
  }

  /** Proof `x` is of the same check: it ran the same command and beats `p`, or is a legacy proof listed before it. */
  predicate Supersedes(host: Host, proofs: seq<Proof>, i: nat, p: Proof, x: nat)
    requires i <= |proofs| && x < |proofs|
  {
    SameCheck(host, proofs[x], p) &&
    if ScopeOf(host, p).Managed? then Beats(host, proofs[x], p) && proofs[x].meta.command == p.meta.command else x < i
  }

  lemma ShiftedAt(proofs: seq<Proof>, i: nat, p: Proof)
    requires i <= |proofs|
    ensures |WithProof(proofs, i, p)| == |proofs| + 1 && WithProof(proofs, i, p)[i] == p
    ensures forall j :: 0 <= j < |proofs| ==> WithProof(proofs, i, p)[Shifted(i, j)] == proofs[j]
    ensures forall j :: 0 <= j < |proofs| + 1 && j != i ==> WithProof(proofs, i, p)[j] == proofs[if j < i then j else j - 1]
  {
  }

  lemma BeatsChain(host: Host, x: Proof, p: Proof, k: Proof)
    requires Beats(host, x, p) && !Beats(host, x, k) && ScopeOf(host, k).Managed?
    ensures Beats(host, k, p) && !Beats(host, p, k)
  {
  }

  lemma SameCheckTransitive(host: Host, p: Proof, q: Proof, r: Proof)
    requires SameCheck(host, p, q) && SameCheck(host, q, r)
    ensures SameCheck(host, p, r) && SameCheck(host, q, p)
  {
  }

  /** The decider of a check also stands against a superseded proof. */
  lemma InsertedStands(host: Host, proofs: seq<Proof>, i: nat, p: Proof, x: nat, k: nat)
    requires i <= |proofs| && x < |proofs| && k < |proofs| && Supersedes(host, proofs, i, p, x) && Decides(host, proofs, k)
    ensures Stands(host, WithProof(proofs, i, p), Shifted(i, k), i)
  {
    ShiftedAt(proofs, i, p);
    assert WithProof(proofs, i, p)[Shifted(i, k)] == proofs[k];
    hide ScopeOf, Beats, WithProof;
    if SameCheck(host, p, proofs[k]) {
      SameCheckTransitive(host, proofs[x], p, proofs[k]);
      KeysTell(host, p, proofs[k]);
      if ScopeOf(host, p).Legacy? && x != k {
        assert Stands(host, proofs, k, x);
      }
      if ScopeOf(host, p).Managed? {
        if x == k {
          BeatsIrreflexive(host, proofs[k]);
        } else {
          assert Stands(host, proofs, k, x);
        }
        BeatsChain(host, proofs[x], p, proofs[k]);
      }
    }
  }

  lemma BeatsIrreflexive(host: Host, p: Proof)
    ensures !Beats(host, p, p)
  {
  }

  lemma StandsShifts(host: Host, proofs: seq<Proof>, i: nat, p: Proof, k: nat, j: nat)
    requires i <= |proofs| && k < |proofs| && j < |proofs|
    ensures Stands(host, WithProof(proofs, i, p), Shifted(i, k), Shifted(i, j)) <==> Stands(host, proofs, k, j)
  {
    hide ScopeOf, SameCheck, Beats, WithProof, Shifted;
    ShiftedAt(proofs, i, p);
    ShiftedOrder(i, k, j);
  }

  lemma ShiftedOrder(i: nat, k: nat, j: nat)
    ensures Shifted(i, j) < Shifted(i, k) <==> j < k
    ensures Shifted(i, k) < Shifted(i, j) <==> k < j
  {
  }

  lemma DecidesForward(host: Host, proofs: seq<Proof>, i: nat, p: Proof, x: nat, k: nat)
    requires i <= |proofs| && x < |proofs| && k < |proofs| && Supersedes(host, proofs, i, p, x) && Decides(host, proofs, k)
    ensures Decides(host, WithProof(proofs, i, p), Shifted(i, k))
  {
    var more, at := WithProof(proofs, i, p), Shifted(i, k);
    assert |more| == |proofs| + 1 && more[at] == proofs[k];
    hide ScopeOf, Stands, WithProof, Supersedes;
    forall j | 0 <= j < |more| && j != at ensures Stands(host, more, at, j) {
      if j == i {
        InsertedStands(host, proofs, i, p, x, k);
      } else {
        var y := if j < i then j else j - 1;
        assert Stands(host, proofs, k, y);
        StandsShifts(host, proofs, i, p, k, y);
      }
    }
  }

  /** Inserting a superseded proof moves no decision. */
  lemma DecidesShifts(host: Host, proofs: seq<Proof>, i: nat, p: Proof, x: nat, k: nat)
    requires i <= |proofs| && x < |proofs| && k < |proofs| && Supersedes(host, proofs, i, p, x)
    ensures Decides(host, WithProof(proofs, i, p), Shifted(i, k)) <==> Decides(host, proofs, k)
  {
    var more, at := WithProof(proofs, i, p), Shifted(i, k);
    assert |more| == |proofs| + 1 && more[at] == proofs[k];
    if Decides(host, proofs, k) {
      DecidesForward(host, proofs, i, p, x, k);
    }
    hide ScopeOf, Stands, WithProof, Supersedes;
    if Decides(host, more, at) {
      forall j | 0 <= j < |proofs| && j != k ensures Stands(host, proofs, k, j) {
        StandsShifts(host, proofs, i, p, k, j);
        assert Stands(host, more, at, Shifted(i, j));
      }
    }
  }

  lemma NeverDecides(host: Host, proofs: seq<Proof>, i: nat, p: Proof, x: nat)
    requires i <= |proofs| && x < |proofs| && Supersedes(host, proofs, i, p, x)
    ensures !Decides(host, WithProof(proofs, i, p), i)
  {
    ShiftedAt(proofs, i, p);
    hide ScopeOf, Beats;
    var more := WithProof(proofs, i, p);
    assert more[Shifted(i, x)] == proofs[x];
    assert Decides(host, more, i) ==> Stands(host, more, i, Shifted(i, x));
  }

  lemma InsertedCommands(host: Host, proofs: seq<Proof>, i: nat, p: Proof, x: nat)
    requires i <= |proofs| && x < |proofs| && Supersedes(host, proofs, i, p, x) && OneCommand(host, proofs)
    ensures OneCommand(host, WithProof(proofs, i, p))
  {
    var more := WithProof(proofs, i, p);
    hide OneCommand, CommandsAgree, Supersedes;
    AgreeMeansOne(host, more);
    hide WithProof;
    forall a, b | 0 <= a < b < |more| ensures CommandsAgree(host, more[a], more[b]) {
      InsertedAgree(host, proofs, i, p, x, a, b);
    }
  }

  lemma InsertedAgree(host: Host, proofs: seq<Proof>, i: nat, p: Proof, x: nat, a: nat, b: nat)
    requires i <= |proofs| && x < |proofs| && Supersedes(host, proofs, i, p, x) && OneCommand(host, proofs)
    requires a < b < |WithProof(proofs, i, p)|
    ensures CommandsAgree(host, WithProof(proofs, i, p)[a], WithProof(proofs, i, p)[b])
  {
    hide OneCommand, CommandsAgree, Supersedes;
    var c, d := if a < i then a else a - 1, if b < i then b else b - 1;
    if a == i {
      StandIn(host, proofs, i, p, x, d);
      AgreeSymmetric(host, proofs[d], p);
    } else if b == i {
      StandIn(host, proofs, i, p, x, c);
    } else {
      OthersAgree(host, proofs, c, d);
    }
  }

  predicate CommandsAgree(host: Host, p: Proof, q: Proof) {
    SameCheck(host, p, q) && ScopeOf(host, p).Managed? ==> p.meta.command == q.meta.command
  }

  lemma AgreeSymmetric(host: Host, p: Proof, q: Proof)
    ensures CommandsAgree(host, p, q) <==> CommandsAgree(host, q, p)
  {
    KeysTell(host, p, q);
  }

  lemma AgreeMeansOne(host: Host, proofs: seq<Proof>)
    ensures OneCommand(host, proofs) <==> forall a, b :: 0 <= a < b < |proofs| ==> CommandsAgree(host, proofs[a], proofs[b])
  {
    hide ScopeOf, SameCheck;
  }

  lemma OthersAgree(host: Host, proofs: seq<Proof>, a: nat, b: nat)
    requires a < |proofs| && b < |proofs| && OneCommand(host, proofs)
    ensures CommandsAgree(host, proofs[a], proofs[b])
  {
    AgreeMeansOne(host, proofs);
    AgreeSymmetric(host, proofs[a], proofs[b]);
    hide CommandsAgree, OneCommand;
    if a == b {
      assert CommandsAgree(host, proofs[a], proofs[a]) by { AgreesWithItself(host, proofs[a]); }
    }
  }

  lemma AgreesWithItself(host: Host, p: Proof)
    ensures CommandsAgree(host, p, p)
  {
  }

  /** The superseding proof speaks for the superseded one. */
  lemma StandIn(host: Host, proofs: seq<Proof>, i: nat, p: Proof, x: nat, a: nat)
    requires i <= |proofs| && x < |proofs| && a < |proofs| && Supersedes(host, proofs, i, p, x) && OneCommand(host, proofs)
    ensures CommandsAgree(host, proofs[a], p)
  {
    OthersAgree(host, proofs, a, x);
    hide Beats, OneCommand;
    KeysTell(host, p, proofs[x]);
    KeysTell(host, p, proofs[a]);
  }

  lemma InsertedCommandsBack(host: Host, proofs: seq<Proof>, i: nat, p: Proof)
    requires i <= |proofs| && OneCommand(host, WithProof(proofs, i, p))
    ensures OneCommand(host, proofs)
  {
    var more := WithProof(proofs, i, p);
    ShiftedAt(proofs, i, p);
    AgreeMeansOne(host, more);
    AgreeMeansOne(host, proofs);
    hide CommandsAgree, OneCommand, WithProof;
    forall a, b | 0 <= a < b < |proofs| ensures CommandsAgree(host, proofs[a], proofs[b]) {
      assert more[Shifted(i, a)] == proofs[a] && more[Shifted(i, b)] == proofs[b];
    }
  }

  lemma InsertedScopes(host: Host, proofs: seq<Proof>, i: nat, p: Proof)
    requires i <= |proofs| && !ScopeOf(host, p).Invalid?
    ensures ScopesValid(host, WithProof(proofs, i, p)) <==> ScopesValid(host, proofs)
  {
    var more := WithProof(proofs, i, p);
    ShiftedAt(proofs, i, p);
    hide ScopeOf, WithProof;
    if ScopesValid(host, more) {
      forall k | 0 <= k < |proofs| ensures !ScopeOf(host, proofs[k]).Invalid? {
        assert more[Shifted(i, k)] == proofs[k];
      }
    }
  }

  lemma InsertedGood(host: Host, proofs: seq<Proof>, i: nat, p: Proof, x: nat, byId: map<string, VerificationRun>, sources: seq<Source>)
    requires i <= |proofs| && x < |proofs| && Supersedes(host, proofs, i, p, x)
    ensures DecidersGood(host, WithProof(proofs, i, p), byId, sources) <==> DecidersGood(host, proofs, byId, sources)
    ensures forall s :: Covered(host, WithProof(proofs, i, p), s) <==> Covered(host, proofs, s)
  {
    var more := WithProof(proofs, i, p);
    ShiftedAt(proofs, i, p);
    hide ScopeOf, Beats, WithProof, GoodProof, Decides, Supersedes, CoveredBy;
    NeverDecides(host, proofs, i, p, x);
    forall k | 0 <= k < |proofs| ensures Decides(host, more, Shifted(i, k)) <==> Decides(host, proofs, k) {
      DecidesShifts(host, proofs, i, p, x, k);
    }
    forall k | 0 <= k < |more| && Decides(host, more, k)
      ensures var y := if k < i then k else k - 1; 0 <= y < |proofs| && more[k] == proofs[y] && Decides(host, proofs, y)
    {
      assert k == Shifted(i, if k < i then k else k - 1);
    }
    forall s ensures Covered(host, more, s) <==> Covered(host, proofs, s) {
      if k :| 0 <= k < |proofs| && Decides(host, proofs, k) && CoveredBy(host, s, proofs[k].meta.before.repository, proofs[k].meta.before.commit) {
        assert Decides(host, more, Shifted(i, k)) && more[Shifted(i, k)] == proofs[k];
      }
    }
    if DecidersGood(host, more, byId, sources) {
      forall k | 0 <= k < |proofs| && Decides(host, proofs, k) && proofs[k].id in byId ensures GoodProof(host, proofs[k], byId[proofs[k].id], sources) {
        assert Decides(host, more, Shifted(i, k)) && more[Shifted(i, k)] == proofs[k];
      }
    }
  }

  lemma {:induction false} MachineOfInserted(evidence: seq<Proof>, byId: map<string, VerificationRun>, e: nat, p: Proof)
    requires e <= |evidence| && p.id in byId
    ensures |Machine(evidence[..e], byId)| <= |Machine(evidence, byId)|
    ensures Machine(WithProof(evidence, e, p), byId) == WithProof(Machine(evidence, byId), |Machine(evidence[..e], byId)|, p)
    decreases |evidence|
  {
    var n := |evidence| - 1;
    var more := WithProof(evidence, e, p);
    MachineLast(more, byId);
    if e == |evidence| {
      assert evidence[..e] == evidence && more[..|more| - 1] == evidence && more[|more| - 1] == p;
      var proofs := Machine(evidence, byId);
      hide Machine;
      assert proofs + [p] == WithProof(proofs, |proofs|, p);
    } else {
      MachineLast(evidence, byId);
      MachineOfInserted(evidence[..n], byId, e, p);
      assert evidence[..n][..e] == evidence[..e];
      assert more[..|more| - 1] == WithProof(evidence[..n], e, p) && more[|more| - 1] == evidence[n];
      hide Machine;
      InsertedThenLast(Machine(evidence[..n], byId), |Machine(evidence[..e], byId)|, p, evidence[n]);
    }
  }

  lemma MachineLast(evidence: seq<Proof>, byId: map<string, VerificationRun>)
    requires evidence != []
    ensures var last := evidence[|evidence| - 1];
      Machine(evidence, byId) == Machine(evidence[..|evidence| - 1], byId) + if last.id in byId then [last] else []
  {
  }

  lemma InsertedThenLast(proofs: seq<Proof>, i: nat, p: Proof, last: Proof)
    requires i <= |proofs|
    ensures WithProof(proofs, i, p) + [last] == WithProof(proofs + [last], i, p)
    ensures WithProof(proofs, i, p) + [] == WithProof(proofs, i, p) && proofs + [] == proofs
  {
  }

  /**
   * Wherever it is listed and whatever it says, a proof superseded by another of its check cannot
   * change whether the evidence is current: earlier failed attempts no longer count, nor do earlier passes.
   */
  lemma SupersededIsIrrelevant(host: Host, evidence: seq<Proof>, runs: seq<VerificationRun>, sources: seq<Source>, e: nat, p: Proof, x: nat)
    requires e <= |evidence| && p.id in RunsById(runs)
    requires x < |Machine(evidence, RunsById(runs))|
    requires |Machine(evidence[..e], RunsById(runs))| <= |Machine(evidence, RunsById(runs))|
    requires Supersedes(host, Machine(evidence, RunsById(runs)), |Machine(evidence[..e], RunsById(runs))|, p, x)
    ensures Current(host, WithProof(evidence, e, p), runs, sources) <==> Current(host, evidence, runs, sources)
  {
    var byId := RunsById(runs);
    var proofs, i := Machine(evidence, byId), |Machine(evidence[..e], byId)|;
    hide Machine, RunsById, Active, OneCommand, DecidersGood, Covered, ScopeOf, Beats, ScopesValid, WithProof;
    MachineOfInserted(evidence, byId, e, p);
    if OneCommand(host, proofs) {
      InsertedCommands(host, proofs, i, p, x);
    }
    if OneCommand(host, WithProof(proofs, i, p)) {
      InsertedCommandsBack(host, proofs, i, p);
    }
    InsertedGood(host, proofs, i, p, x, byId, sources);
    InsertedScopes(host, proofs, i, p);
    ShiftedAt(proofs, i, p);
  }

  // ---------- readiness ----------

  datatype Criterion = Criterion(id: string, satisfied: bool)

  datatype WorkItem = WorkItem(id: string, done: bool)

  datatype Readiness = Readiness(
    criteriaTotal: nat, criteriaSatisfied: nat, criteriaWithEvidence: nat, tasksTotal: nat, tasksDone: nat,
    sourcesTotal: nat, sourcesClean: nat, ready: bool)

  /** The newest evidence of a criterion; evidence is listed newest first. */
  function NewestFor(evidence: seq<Proof>, criterionId: string): (r: int)
    ensures -1 <= r < |evidence|
    ensures r >= 0 ==> evidence[r].criterionId == criterionId && forall j :: 0 <= j < r ==> evidence[j].criterionId != criterionId
    ensures r < 0 ==> forall j :: 0 <= j < |evidence| ==> evidence[j].criterionId != criterionId
  {
    if evidence == [] then -1
    else if evidence[0].criterionId == criterionId then 0
    else
      var rest := NewestFor(evidence[1..], criterionId);
      if rest < 0 then -1 else rest + 1
  }

  predicate Proven(evidence: seq<Proof>, c: Criterion) {
    var k := NewestFor(evidence, c.id);
    k >= 0 && evidence[k].passed
  }

  /** Nothing is missing: every criterion is satisfied and newly proven, every work item done, every source clean. */
  predicate Complete(host: Host, criteria: seq<Criterion>, items: seq<WorkItem>, evidence: seq<Proof>, sources: seq<Source>,
                     runs: seq<VerificationRun>, teamMade: bool) {
    && criteria != []
    && (forall k :: 0 <= k < |criteria| ==> criteria[k].satisfied && Proven(evidence, criteria[k]))
    && (forall k :: 0 <= k < |items| ==> items[k].done)
    && (forall k :: 0 <= k < |sources| ==> sources[k].clean)
    && (runs != [] || teamMade ==> Current(host, evidence, runs, sources))
  }

  lemma NewestIs(evidence: seq<Proof>, n: nat)
    requires n < |evidence|
    ensures 0 <= NewestFor(evidence, evidence[n].criterionId) <= n
    ensures (forall j :: 0 <= j < n ==> evidence[j].criterionId != evidence[n].criterionId) ==> NewestFor(evidence, evidence[n].criterionId) == n
  {
  }

  /** The first listed evidence of every criterion that has any. */
  method NewestEvidence(evidence: seq<Proof>) returns (newest: map<string, Proof>)
    ensures forall id :: id != "" ==> (id in newest <==> NewestFor(evidence, id) >= 0)
    ensures forall id :: id != "" && id in newest ==> newest[id] == evidence[NewestFor(evidence, id)]
  {
    hide NewestFor;
    newest := map[];
    for n := 0 to |evidence|
      invariant forall j :: 0 <= j < n && evidence[j].criterionId != "" ==> evidence[j].criterionId in newest
      invariant forall id :: id in newest ==> 0 <= NewestFor(evidence, id) < n && newest[id] == evidence[NewestFor(evidence, id)]
    {
      NewestIs(evidence, n);
      if evidence[n].criterionId != "" && evidence[n].criterionId !in newest {
        newest := newest[evidence[n].criterionId := evidence[n]];
      }
    }
  }

  /** Counts everything; the counters meet their totals exactly when nothing is missing. */
  method ExportReadiness(host: Host, criteria: seq<Criterion>, items: seq<WorkItem>, evidence: seq<Proof>, sources: seq<Source>,
                         runs: seq<VerificationRun>, teamMade: bool) returns (r: Readiness)
    requires forall k :: 0 <= k < |criteria| ==> criteria[k].id != ""
    ensures r.ready <==> Complete(host, criteria, items, evidence, sources, runs, teamMade)
    ensures r.criteriaSatisfied <= r.criteriaTotal == |criteria| && r.tasksDone <= r.tasksTotal == |items| && r.sourcesClean <= r.sourcesTotal == |sources|
  {
    hide Current;
    var newest := NewestEvidence(evidence);
    var satisfied, proven, done, clean := 0, 0, 0, 0;
    for k := 0 to |criteria|
      invariant satisfied <= k && (satisfied == k <==> forall j :: 0 <= j < k ==> criteria[j].satisfied)
      invariant proven <= k && (proven == k <==> forall j :: 0 <= j < k ==> Proven(evidence, criteria[j]))
    {
      if criteria[k].satisfied {
        satisfied := satisfied + 1;
      }
      if criteria[k].id in newest && newest[criteria[k].id].passed {
        proven := proven + 1;
      }
    }
    for k := 0 to |items|
      invariant done <= k && (done == k <==> forall j :: 0 <= j < k ==> items[j].done)
    {
      if items[k].done {
        done := done + 1;
      }
    }
    for k := 0 to |sources|
      invariant clean <= k && (clean == k <==> forall j :: 0 <= j < k ==> sources[j].clean)
    {
      if sources[k].clean {
        clean := clean + 1;
      }
    }
    var ready := |criteria| > 0 && satisfied == |criteria| && proven == |criteria| && done == |items| && clean == |sources|;
    if ready && (|runs| > 0 || teamMade) {
      ready := CurrentMachineEvidence(host, evidence, runs, sources);
    }
    r := Readiness(|criteria|, satisfied, proven, |items|, done, |sources|, clean, ready);
  }

  // ---------- the decision, field by field ----------

  /** Which proofs are attributed to a plan check, which to a bare command, and which to nothing. */
  lemma ScopeExactly(host: Host, p: Proof)
    ensures ScopeOf(host, p).Legacy? <==> p.meta.logicalCheckId == "" && p.meta.planTaskId == "" && p.meta.attempt.Absent?
    ensures ScopeOf(host, p).Managed? <==>
      && |p.meta.logicalCheckId| == 64
      && (forall k :: 0 <= k < 64 ==> var c := p.meta.logicalCheckId[k]; '0' <= c <= '9' || 'a' <= c <= 'f' || 'A' <= c <= 'F')
      && p.meta.attempt.Number? && 1 <= p.meta.attempt.value && p.meta.checkIndex.Number? && 0 <= p.meta.checkIndex.value
      && p.meta.missionId != "" && p.meta.planTaskId != "" && p.meta.executionId != "" && p.meta.runId != "" && p.taskId != ""
    ensures ScopeOf(host, p).Managed? ==> ScopeOf(host, p).attempt == p.meta.attempt.value
  {
  }

  /** Attributed proofs are of one check when they name the same command, place and item, or the same plan check and item. */
  lemma SameCheckExactly(host: Host, p: Proof, q: Proof)
    requires !ScopeOf(host, p).Invalid? && !ScopeOf(host, q).Invalid?
    ensures SameCheck(host, p, q) <==>
      && p.taskId == q.taskId
      && if ScopeOf(host, p).Legacy?
         then ScopeOf(host, q).Legacy? && p.meta.command == q.meta.command && host.path(p.meta.workingDir) == host.path(q.meta.workingDir)
         else ScopeOf(host, q).Managed? && p.meta.missionId == q.meta.missionId && p.meta.planTaskId == q.meta.planTaskId
              && p.meta.logicalCheckId == q.meta.logicalCheckId
  {
  }

  /** A later attempt, or a later time of the same attempt, or a failure against a pass of the same time. */
  predicate Outranks(p: Proof, q: Proof)
    requires p.meta.attempt.Number? && q.meta.attempt.Number?
  {
    var a, b := p.meta.attempt.value, q.meta.attempt.value;
    a > b || (a == b && p.created > q.created) || (a == b && p.created == q.created && !p.passed && q.passed)
  }

  /**
   * A plan check is decided by the proof that outranks all its others, the first listed among equals,
   * and a bare command by the proof listed first.
   */
  lemma DecidesExactly(host: Host, proofs: seq<Proof>, k: nat)
    requires ScopesValid(host, proofs) && k < |proofs|
    ensures Decides(host, proofs, k) <==>
      forall j :: 0 <= j < |proofs| && j != k && SameCheck(host, proofs[j], proofs[k]) ==>
        if ScopeOf(host, proofs[k]).Legacy? then k < j
        else AttemptsKnown(proofs[k], proofs[j]) && (Outranks(proofs[k], proofs[j]) || (k < j && !Outranks(proofs[j], proofs[k])))
  {
    forall j | 0 <= j < |proofs| && j != k && SameCheck(host, proofs[j], proofs[k])
      ensures Stands(host, proofs, k, j) <==>
        if ScopeOf(host, proofs[k]).Legacy? then k < j
        else AttemptsKnown(proofs[k], proofs[j]) && (Outranks(proofs[k], proofs[j]) || (k < j && !Outranks(proofs[j], proofs[k])))
    {
      BeatsExactly(host, proofs[j], proofs[k]);
    }
    hide Stands, SameCheck, ScopeOf, Outranks;
    forall j | 0 <= j < |proofs| && !SameCheck(host, proofs[j], proofs[k]) ensures Stands(host, proofs, k, j) {
      StandsOthers(host, proofs, k, j);
    }
  }

  lemma StandsOthers(host: Host, proofs: seq<Proof>, k: nat, j: nat)
    requires k < |proofs| && j < |proofs| && !SameCheck(host, proofs[j], proofs[k])
    ensures Stands(host, proofs, k, j)
  {
  }

  predicate AttemptsKnown(p: Proof, q: Proof) {
    p.meta.attempt.Number? && q.meta.attempt.Number?
  }

  lemma BeatsExactly(host: Host, p: Proof, q: Proof)
    requires SameCheck(host, p, q)
    ensures ScopeOf(host, p).Legacy? <==> ScopeOf(host, q).Legacy?
    ensures ScopeOf(host, p).Legacy? ==> !Beats(host, p, q) && !Beats(host, q, p)
    ensures ScopeOf(host, p).Managed? ==>
      AttemptsKnown(p, q) && (Beats(host, p, q) <==> Outranks(p, q)) && (Beats(host, q, p) <==> Outranks(q, p))
  {
  }

  /** Run `r` is the one that counts for a proof: the last listed that recorded it. */
  predicate RunOf(runs: seq<VerificationRun>, r: int, id: string) {
    0 <= r < |runs| && runs[r].evidenceId == id && forall j :: r < j < |runs| ==> runs[j].evidenceId != id
  }

  lemma {:induction false} RunsExactly(runs: seq<VerificationRun>, id: string)
    ensures id in RunsById(runs) <==> exists r :: RunOf(runs, r, id)
    ensures forall r :: RunOf(runs, r, id) ==> id in RunsById(runs) && RunsById(runs)[id] == runs[r]
  {
    if runs != [] {
      var front, n := runs[..|runs| - 1], |runs| - 1;
      RunsExactly(front, id);
      RunOfStep(runs, id);
      assert RunsById(runs) == RunsById(front)[runs[n].evidenceId := runs[n]];
      forall r | RunOf(front, r, id) ensures 0 <= r < n && front[r] == runs[r] {
      }
      hide RunsById, RunOf;
      if runs[n].evidenceId == id {
        assert RunOf(runs, n, id);
      } else if r :| RunOf(front, r, id) {
        assert RunOf(runs, r, id);
      }
    }
  }

  lemma RunOfStep(runs: seq<VerificationRun>, id: string)
    requires runs != []
    ensures var front, n := runs[..|runs| - 1], |runs| - 1;
      forall r :: RunOf(runs, r, id) <==> if runs[n].evidenceId == id then r == n else RunOf(front, r, id)
  {
    var front, n := runs[..|runs| - 1], |runs| - 1;
    assert forall j :: 0 <= j < n ==> front[j] == runs[j];
    forall r ensures RunOf(runs, r, id) <==> if runs[n].evidenceId == id then r == n else RunOf(front, r, id) {
      if RunOf(runs, r, id) && r < n {
        assert front[r].evidenceId == id && runs[n].evidenceId != id;
      }
      if RunOf(front, r, id) && runs[n].evidenceId != id {
        assert forall j :: r < j < |runs| ==> runs[j].evidenceId != id;
      }
    }
  }

  lemma {:induction false} MachineExactly(evidence: seq<Proof>, byId: map<string, VerificationRun>)
    ensures forall p :: p in Machine(evidence, byId) <==> p in evidence && p.id in byId
  {
    if evidence != [] {
      MachineExactly(evidence[..|evidence| - 1], byId);
    }
  }

  /** Nothing still runs. */
  predicate AllOver(runs: seq<VerificationRun>) {
    forall i :: 0 <= i < |runs| ==> runs[i].status == RunPassed || runs[i].status == RunFailed
  }

  /**
   * Exactly when a deciding proof is accepted: its run passed and it passed, both name the same run,
   * command and directory, the source was verified, clean and at one commit of one worktree before and
   * after, and one of today's sources is clean at that commit in that worktree.
   */
  lemma GoodExactly(host: Host, p: Proof, run: VerificationRun, sources: seq<Source>)
    ensures GoodProof(host, p, run, sources) <==>
      && run.status == RunPassed && p.passed
      && p.meta.runId == run.id && p.meta.command == run.command && p.meta.workingDir == run.workingDir
      && p.meta.verified && p.meta.before.clean && p.meta.after.clean
      && p.meta.before.commit != "" && p.meta.after == p.meta.before
      && exists i :: 0 <= i < |sources|
           && sources[i].clean && sources[i].head == p.meta.before.commit
           && host.path(sources[i].repository) == host.path(p.meta.before.repository)
           && host.path(sources[i].worktree) == host.path(p.meta.before.worktree)
  {
    if i :| 0 <= i < |sources| && MatchesSource(host, p, sources[i]) {
      assert sources[i].clean;
    }
    if i :| 0 <= i < |sources|
           && sources[i].clean && sources[i].head == p.meta.before.commit
           && host.path(sources[i].repository) == host.path(p.meta.before.repository)
           && host.path(sources[i].worktree) == host.path(p.meta.before.worktree) {
      assert MatchesSource(host, p, sources[i]);
    }
  }

  /** A source is part of a verified commit of its repository. */
  predicate WithinVerified(host: Host, s: Source, p: Proof) {
    && host.path(s.repository) == host.path(p.meta.before.repository)
    && (s.head == p.meta.before.commit || host.ancestor(s.head, p.meta.before.commit))
  }

  /** Some deciding proof verified a commit the source is part of. */
  predicate SourceVerified(host: Host, proofs: seq<Proof>, s: Source) {
    exists k :: 0 <= k < |proofs| && Decides(host, proofs, k) && WithinVerified(host, s, proofs[k])
  }

  lemma CoveredExactly(host: Host, proofs: seq<Proof>, s: Source)
    ensures Covered(host, proofs, s) <==> SourceVerified(host, proofs, s)
  {
    hide Decides;
    if k :| 0 <= k < |proofs| && Decides(host, proofs, k) && WithinVerified(host, s, proofs[k]) {
      assert CoveredBy(host, s, proofs[k].meta.before.repository, proofs[k].meta.before.commit);
    }
    if k :| 0 <= k < |proofs| && Decides(host, proofs, k) && CoveredBy(host, s, proofs[k].meta.before.repository, proofs[k].meta.before.commit) {
      assert WithinVerified(host, s, proofs[k]);
    }
  }

  /** All attributed, and the proofs of one plan check ran one command. */
  predicate Consistent(host: Host, proofs: seq<Proof>) {
    && (forall k :: 0 <= k < |proofs| ==> ScopeOf(host, proofs[k]).Legacy? || ScopeOf(host, proofs[k]).Managed?)
    && (forall i, j :: 0 <= i < j < |proofs| && SameCheck(host, proofs[i], proofs[j]) && ScopeOf(host, proofs[i]).Managed? ==>
          proofs[i].meta.command == proofs[j].meta.command)
  }

  /**
   * Exactly when machine evidence is current: every run is over, the proofs of runs are consistent and
   * there are some, every deciding proof passed together with its run at a clean commit that is a
   * clean source's today, and every source is part of a commit so verified.
   */
  lemma CurrentExactly(host: Host, evidence: seq<Proof>, runs: seq<VerificationRun>, sources: seq<Source>)
    ensures var proofs := Machine(evidence, RunsById(runs));
      Current(host, evidence, runs, sources) <==>
        && AllOver(runs) && proofs != [] && Consistent(host, proofs)
        && (forall k :: 0 <= k < |proofs| && Decides(host, proofs, k) ==> DeciderStands(host, proofs[k], runs, sources))
        && (forall i :: 0 <= i < |sources| ==> SourceVerified(host, proofs, sources[i]))
  {
    hide ScopeOf, SameCheck, Decides, CoveredBy, WithinVerified, DeciderStands, RunsById, Machine, Consistent, ScopesValid, OneCommand,
      Active, AllOver, Covered, DecidersGood, SourceVerified;
    var byId := RunsById(runs);
    var proofs := Machine(evidence, byId);
    OverExactly(runs);
    ConsistentExactly(host, proofs);
    MachineIsMachine(evidence, byId);
    DecidersExactly(host, proofs, runs, sources);
    forall i | 0 <= i < |sources| ensures Covered(host, proofs, sources[i]) <==> SourceVerified(host, proofs, sources[i]) {
      CoveredExactly(host, proofs, sources[i]);
    }
    assert CurrentProofs(host, proofs, byId, sources) <==>
      Consistent(host, proofs) && proofs != [] && DecidersGood(host, proofs, byId, sources)
        && forall i :: 0 <= i < |sources| ==> SourceVerified(host, proofs, sources[i]);
  }

  lemma DecidersExactly(host: Host, proofs: seq<Proof>, runs: seq<VerificationRun>, sources: seq<Source>)
    requires forall k :: 0 <= k < |proofs| ==> proofs[k].id in RunsById(runs)
    ensures DecidersGood(host, proofs, RunsById(runs), sources) <==>
      forall k :: 0 <= k < |proofs| && Decides(host, proofs, k) ==> DeciderStands(host, proofs[k], runs, sources)
  {
    hide Decides, DeciderStands, RunsById, GoodProof;
    forall k | 0 <= k < |proofs| ensures GoodProof(host, proofs[k], RunsById(runs)[proofs[k].id], sources) <==> DeciderStands(host, proofs[k], runs, sources) {
      StandsExactly(host, proofs[k], runs, sources);
    }
  }

  lemma ConsistentExactly(host: Host, proofs: seq<Proof>)
    ensures ScopesValid(host, proofs) && OneCommand(host, proofs) <==> Consistent(host, proofs)
  {
    hide ScopeOf, SameCheck;
  }

  lemma OverExactly(runs: seq<VerificationRun>)
    ensures Active(runs) <==> !AllOver(runs)
  {
  }

  /** The proof and the run that counts for it passed, on a source that is clean and unmoved until today. */
  predicate DeciderStands(host: Host, p: Proof, runs: seq<VerificationRun>, sources: seq<Source>) {
    && p.passed && p.meta.verified && p.meta.before.clean && p.meta.before.commit != "" && p.meta.after == p.meta.before
    && (exists r :: 0 <= r < |runs| && RunOf(runs, r, p.id) && runs[r].status == RunPassed && runs[r].id == p.meta.runId
                    && runs[r].command == p.meta.command && runs[r].workingDir == p.meta.workingDir)
    && (exists i :: 0 <= i < |sources|
                    && sources[i].clean && sources[i].head == p.meta.before.commit
                    && host.path(sources[i].repository) == host.path(p.meta.before.repository)
                    && host.path(sources[i].worktree) == host.path(p.meta.before.worktree))
  }

  lemma StandsExactly(host: Host, p: Proof, runs: seq<VerificationRun>, sources: seq<Source>)
    requires p.id in RunsById(runs)
    ensures GoodProof(host, p, RunsById(runs)[p.id], sources) <==> DeciderStands(host, p, runs, sources)
  {
    hide GoodProof, RunsById;
    RunsExactly(runs, p.id);
    GoodExactly(host, p, RunsById(runs)[p.id], sources);
    var r :| RunOf(runs, r, p.id);
    hide RunOf;
    assert RunsById(runs)[p.id] == runs[r];
  }

  /** A failed proof that decides its check, or one whose run failed, leaves the evidence stale and the candidate not ready. */
  lemma FailureCounts(host: Host, criteria: seq<Criterion>, items: seq<WorkItem>, evidence: seq<Proof>, sources: seq<Source>,
                      runs: seq<VerificationRun>, teamMade: bool, k: nat, r: nat)
    requires k < |Machine(evidence, RunsById(runs))| && Decides(host, Machine(evidence, RunsById(runs)), k)
    requires RunOf(runs, r, Machine(evidence, RunsById(runs))[k].id)
    requires !Machine(evidence, RunsById(runs))[k].passed || runs[r].status != RunPassed
    ensures !Current(host, evidence, runs, sources)
    ensures runs != [] && !Complete(host, criteria, items, evidence, sources, runs, teamMade)
  {
    hide Decides, Machine, RunsById, WithinVerified, Consistent, AllOver, Current;
    CurrentExactly(host, evidence, runs, sources);
    var p := Machine(evidence, RunsById(runs))[k];
    forall q | RunOf(runs, q, p.id) ensures q == r {
    }
  }

  /** The first listed proof for a criterion, as evidence is listed newest first, exists and passed. */
  predicate ProvenNow(evidence: seq<Proof>, id: string) {
    exists k :: 0 <= k < |evidence| && evidence[k].criterionId == id && evidence[k].passed
                && forall j :: 0 <= j < k ==> evidence[j].criterionId != id
  }

  /** Exactly when a candidate is ready; machine evidence is asked for as soon as there are runs or the team made it. */
  lemma ReadyExactly(host: Host, criteria: seq<Criterion>, items: seq<WorkItem>, evidence: seq<Proof>, sources: seq<Source>,
                     runs: seq<VerificationRun>, teamMade: bool)
    ensures Complete(host, criteria, items, evidence, sources, runs, teamMade) <==>
      && |criteria| > 0
      && (forall k :: 0 <= k < |criteria| ==> criteria[k].satisfied && ProvenNow(evidence, criteria[k].id))
      && (forall k :: 0 <= k < |items| ==> items[k].done) && (forall k :: 0 <= k < |sources| ==> sources[k].clean)
      && (|runs| > 0 || teamMade ==> Current(host, evidence, runs, sources))
  {
    hide Current, NewestFor;
    forall c: Criterion ensures Proven(evidence, c) <==> ProvenNow(evidence, c.id) {
    }
    hide Proven, ProvenNow;
  }
}
