/** How the work items of a mission keep up with its plan, and exactly when one lags behind for good. */
module MissionItems {
  import opened Team
  import opened Scheduler
  import opened MissionSteps
  import opened MissionInvariant
  import opened MissionHistory
  import opened MissionOrder
  import opened MissionWorld
  import W = WorkItems

  // ---------- what every event keeps ----------

  predicate IsPlanned(m: Mission, id: string) {
    exists k :: 0 <= k < |m.plan| && m.plan[k].taskId == id
  }

  /** Every recorded item exists, and belongs to one task only. */
  predicate OwnItems(w: World) {
    && (forall id :: id in w.items ==> id != "")
    && (forall k :: 0 <= k < |w.m.plan| && w.m.plan[k].taskId != "" ==> w.m.plan[k].taskId in w.items)
    && (forall j, k :: 0 <= j < k < |w.m.plan| && w.m.plan[j].taskId != "" ==> w.m.plan[k].taskId != w.m.plan[j].taskId)
  }

  /** The created but unrecorded item belongs to the running task and to no other. */
  predicate MadeOk(w: World) {
    w.made.Some? ==>
      && w.made.value in w.items && w.made.value != "" && !IsPlanned(w.m, w.made.value)
      && exists i :: 0 <= i < |w.m.plan| && w.m.plan[i].state.Running?
  }

  /** A placed or completed task's item is linked to its worktree. */
  predicate LinkedOk(w: World) {
    forall k :: 0 <= k < |w.m.plan| && Active(w.m.plan[k]) && w.m.plan[k].worktree != "" ==>
      w.m.plan[k].taskId in w.items && w.items[w.m.plan[k].taskId].worktree == w.m.plan[k].worktree
  }

  /** Only recorded items are ever finished. */
  predicate DoneIsPlanned(w: World) {
    forall id :: id in w.items && w.items[id].status.Done? ==> IsPlanned(w.m, id)
  }

  /** Finished work whose item is open again is work the next repair restarts. */
  predicate LagsOk(w: World) {
    forall k :: 0 <= k < |w.m.plan| && w.m.plan[k].state.Completed? && !IsDone(w, w.m.plan[k].taskId) ==>
      Redone(w.m.plan[k].role) || RepairLead(w.m.plan, 0) == Some(k)
  }

  predicate ItemInv(w: World) {
    OwnItems(w) && MadeOk(w) && LinkedOk(w) && DoneIsPlanned(w) && LagsOk(w)
  }

  // ---------- what a save does to identities, locations and finished work ----------

  /** A save names `id` as the item of the task it is about. */
  predicate Records(s: Step, id: string) {
    || (s.Prepare? && !s.prep.Unprepared? && s.prep.taskId == id)
    || (s.Finish? && !s.prep.Unprepared? && s.prep.taskId == id)
  }

  /** How task `k` comes out of a save, as far as its item is concerned. */
  predicate Carries(m: Mission, s: Step, k: nat, u: Task)
    requires k < |m.plan|
  {
    var t := m.plan[k];
    && u.id == t.id && u.role == t.role && u.maxAttempts == t.maxAttempts && t.attempts <= u.attempts
    && (u.taskId == t.taskId || (t.taskId == "" && Records(s, u.taskId) && Touches(s, k)))
    && (u.state.Completed? ==> StillDone(t, u) || JustDone(s, k, t, u))
    && (u.state.Running? && u.worktree != "" ==> (t.state.Running? && u.worktree == t.worktree) || Places(m, s, k, u))
  }

  predicate Touches(s: Step, k: nat) {
    (s.Prepare? || s.Finish?) && s.index == k
  }

  /** Nothing about a completed task changed. */
  predicate StillDone(t: Task, u: Task) {
    t.state.Completed? && u.attempts == t.attempts && u.artifactHead == t.artifactHead && u.worktree == t.worktree && u.taskId == t.taskId
  }

  /** The task was completed by this very finish. */
  predicate JustDone(s: Step, k: nat, t: Task, u: Task) {
    && s.Finish? && s.index == k && !s.runErr && t.state.Running? && t.worktree != ""
    && u.attempts == t.attempts && u.artifactHead == s.obs.tree.head && u.worktree == t.worktree && u.taskId == t.taskId
    && (t.role.Qa? ==> ChecksPass(s.obs.checks))
  }

  /** This save records the location of the running task. */
  predicate Places(m: Mission, s: Step, k: nat, u: Task)
    requires k < |m.plan|
  {
    && s.Prepare? && s.index == k && s.prep.Headed? && PrepFits(m.plan[k], s.prep)
    && u.taskId == s.prep.taskId && u.worktree == LocatedTask(m, m.plan[k], s.prep.taskId).worktree
  }

  lemma PrepCarries(m: Mission, i: nat, prep: Prep, k: nat)
    requires i < |m.plan| && k < |m.plan| && PrepFits(m.plan[i], prep)
    ensures var n := WithPrep(m, i, prep);
      && |n.plan| == |m.plan| && n.executions == m.executions
      && (k != i ==> n.plan[k] == m.plan[k])
      && (var t, u := m.plan[k], n.plan[k];
          && u == t.(taskId := u.taskId, worktree := u.worktree, branch := u.branch, head := u.head)
          && (prep.Unprepared? ==> u == t)
          && (k == i && !prep.Unprepared? ==> u.taskId == prep.taskId && (t.taskId != "" ==> u.taskId == t.taskId)))
  {
    hide OwnedId, GoodTaskId;
  }

  lemma FinishedCarries(m: Mission, i: nat, j: nat, runErr: bool, o: FinishObs, k: nat)
    requires i < |m.plan| && j < |m.executions| && k < |m.plan| && m.plan[i].state.Running?
    ensures var n := Finished(m, i, j, OutcomeOf(m, m.plan[i], m.executions[j], runErr, o));
      && |n.plan| == |m.plan|
      && (var t, u := m.plan[k], n.plan[k];
          && u.id == t.id && u.role == t.role && u.maxAttempts == t.maxAttempts && u.attempts == t.attempts && u.taskId == t.taskId
          && (u.state.Running? ==> u == t && k != i)
          && (u.state.Completed? ==>
                if k != i then u == t
                else !runErr && u.artifactHead == o.tree.head && u.worktree == t.worktree && (t.role.Qa? ==> ChecksPass(o.checks))))
  {
    hide CheckEvidence, ChecksPass;
  }

  lemma FinishCarries(m: Mission, s: Step, k: nat)
    requires Enabled(m, s) && s.Finish? && k < |m.plan|
    ensures k < |Next(m, s).plan| && Carries(m, s, k, Next(m, s).plan[k])
  {
    hide OutcomeOf, Finished, OwnedId, GoodTaskId, ChecksPass, WithPrep;
    var r := Raised(m, s.assessed);
    var base := WithPrep(r, s.index, s.prep);
    PrepCarries(r, s.index, s.prep, k);
    PrepCarries(r, s.index, s.prep, s.index);
    FinishedCarries(base, s.index, |m.executions| - 1, s.runErr, s.obs, k);
  }

  lemma StartCarries(m: Mission, s: Step, k: nat)
    requires Enabled(m, s) && (s.Dispatch? || s.Refuse?) && k < |m.plan| && TaskOk(m, m.plan[k])
    ensures k < |Next(m, s).plan| && Carries(m, s, k, Next(m, s).plan[k])
  {
    hide DepsDone, OwnedId, GoodTaskId, NeedsGate, Eligible, Reevaluated, AttemptLimit;
  }

  lemma PrepareCarries(m: Mission, s: Step, k: nat)
    requires Enabled(m, s) && s.Prepare? && s.prep.Headed? && k < |m.plan|
    ensures k < |Next(m, s).plan| && Carries(m, s, k, Next(m, s).plan[k])
  {
    hide OwnedId, GoodTaskId;
  }

  lemma StepCarries(m: Mission, s: Step, k: nat)
    requires Enabled(m, s) && k < |m.plan| && TaskOk(m, m.plan[k]) && (s.Prepare? ==> s.prep.Headed?)
    ensures k < |Next(m, s).plan| && Carries(m, s, k, Next(m, s).plan[k])
  {
    if s.Finish? {
      FinishCarries(m, s, k);
    } else if s.Dispatch? || s.Refuse? {
      StartCarries(m, s, k);
    } else if s.Prepare? {
      PrepareCarries(m, s, k);
    } else {
      hide DepsDone, OwnedId, GoodTaskId, IsReady, NeedsGate, Eligible, Conclusion, Reevaluated, TaskOk, WithPrep, Finished, Dispatched, Refused;
    }
  }

  // ---------- the invariant over saves ----------

  predicate AllCarry(m: Mission, s: Step, n: Mission) {
    |n.plan| == |m.plan| && forall k :: 0 <= k < |m.plan| ==> Carries(m, s, k, n.plan[k])
  }

  predicate HeadedOnly(s: Step) {
    s.Prepare? ==> s.prep.Headed?
  }

  lemma NextCarries(m: Mission, s: Step)
    requires Inv(m) && Enabled(m, s) && HeadedOnly(s)
    ensures AllCarry(m, s, Next(m, s))
  {
    hide Inv, Enabled, Next, Carries, TaskOk;
    NextFrame(m, s);
    forall k | 0 <= k < |m.plan| ensures Carries(m, s, k, Next(m, s).plan[k]) {
      InvTask(m, k);
      StepCarries(m, s, k);
    }
  }

  /** The item a save names is the running task's. */
  predicate NamesItem(w: World, s: Step) {
    (s.Prepare? || s.Finish?) && !s.prep.Unprepared? ==> s.index < |w.m.plan| && HasItem(w, w.m.plan[s.index], s.prep.taskId)
  }

  predicate PlacesLinked(w: World, s: Step) {
    s.Prepare? && s.prep.Headed? ==> s.index < |w.m.plan| && IsLinked(w, w.m.plan[s.index], s.prep.taskId)
  }

  predicate FinishesDone(w: World, s: Step, n: Mission) {
    s.Finish? && s.index < |w.m.plan| && s.index < |n.plan| && n.plan[s.index].state.Completed? ==> IsDone(w, w.m.plan[s.index].taskId)
  }

  lemma WrittenFacts(w: World, s: Step)
    requires Enabled(w.m, s) && ItemsWritten(w, s)
    ensures HeadedOnly(s) && NamesItem(w, s) && PlacesLinked(w, s) && FinishesDone(w, s, Next(w.m, s))
  {
    hide Next, Repairs, PrepFits, RiskObserved;
  }

  lemma SavedOwn(w: World, s: Step, n: Mission)
    requires OwnItems(w) && MadeOk(w) && AllCarry(w.m, s, n) && NamesItem(w, s)
    ensures OwnItems(w.(m := n, made := None))
    ensures forall id :: id != "" && IsPlanned(w.m, id) ==> IsPlanned(n, id)
  {
    hide StillDone, JustDone, Places;
    forall k | 0 <= k < |n.plan| && n.plan[k].taskId != "" ensures n.plan[k].taskId in w.items {
      assert Carries(w.m, s, k, n.plan[k]);
    }
    forall j, k | 0 <= j < k < |n.plan| && n.plan[j].taskId != "" ensures n.plan[k].taskId != n.plan[j].taskId {
      assert Carries(w.m, s, j, n.plan[j]) && Carries(w.m, s, k, n.plan[k]);
    }
    forall id | id != "" && IsPlanned(w.m, id) ensures IsPlanned(n, id) {
      var k :| 0 <= k < |w.m.plan| && w.m.plan[k].taskId == id;
      assert Carries(w.m, s, k, n.plan[k]);
    }
  }

  lemma SavedLinked(w: World, s: Step, n: Mission)
    requires OwnItems(w) && LinkedOk(w) && AllCarry(w.m, s, n) && PlacesLinked(w, s)
    requires forall k :: 0 <= k < |w.m.plan| && w.m.plan[k].worktree != "" ==> w.m.plan[k].taskId != ""
    ensures LinkedOk(w.(m := n, made := None))
  {
    hide LocatedTask, PrepFits, GoodTaskId;
    forall k | 0 <= k < |n.plan| && Active(n.plan[k]) && n.plan[k].worktree != ""
      ensures n.plan[k].taskId in w.items && w.items[n.plan[k].taskId].worktree == n.plan[k].worktree
    {
      assert Carries(w.m, s, k, n.plan[k]);
    }
  }

  lemma LeadKept(p: seq<Task>, q: seq<Task>, k: nat)
    requires RepairLead(p, 0) == Some(k) && |q| == |p| && q[k].attempts == p[k].attempts
    requires forall j :: 0 <= j < |p| ==> q[j].role == p[j].role && q[j].maxAttempts == p[j].maxAttempts && p[j].attempts <= q[j].attempts
    ensures RepairLead(q, 0) == Some(k)
  {
    assert CanRepair(q[k]);
    var l := RepairLead(q, 0);
    assert CanRepair(p[l.value]);
  }

  lemma SavedLags(w: World, s: Step, n: Mission)
    requires LagsOk(w) && AllCarry(w.m, s, n) && FinishesDone(w, s, n)
    ensures LagsOk(w.(m := n, made := None))
  {
    hide RepairLead, Places;
    forall k | 0 <= k < |n.plan| && n.plan[k].state.Completed? && !IsDone(w, n.plan[k].taskId)
      ensures Redone(n.plan[k].role) || RepairLead(n.plan, 0) == Some(k)
    {
      assert Carries(w.m, s, k, n.plan[k]);
      if RepairLead(w.m.plan, 0) == Some(k) {
        forall j | 0 <= j < |w.m.plan|
          ensures n.plan[j].role == w.m.plan[j].role && n.plan[j].maxAttempts == w.m.plan[j].maxAttempts && w.m.plan[j].attempts <= n.plan[j].attempts
        {
          assert Carries(w.m, s, j, n.plan[j]);
        }
        LeadKept(w.m.plan, n.plan, k);
      }
    }
  }

  lemma PlacedAreNamed(m: Mission)
    requires Inv(m)
    ensures forall k :: 0 <= k < |m.plan| && m.plan[k].worktree != "" ==> m.plan[k].taskId != ""
  {
    hide Inv, OwnedId, GoodTaskId;
    forall k | 0 <= k < |m.plan| ensures LocationOk(m, m.plan[k]) {
      InvTask(m, k);
    }
  }

  lemma SavedItems(w: World, s: Step)
    requires Inv(w.m) && ItemInv(w) && Enabled(w.m, s) && ItemsWritten(w, s)
    ensures ItemInv(w.(m := Next(w.m, s), made := None))
  {
    var n := Next(w.m, s);
    WrittenFacts(w, s);
    NextCarries(w.m, s);
    PlacedAreNamed(w.m);
    hide Inv, Enabled, Next, ItemsWritten, AllCarry, NamesItem, PlacesLinked, FinishesDone, LinkedOk, LagsOk;
    SavedOwn(w, s, n);
    SavedLinked(w, s, n);
    SavedLags(w, s, n);
  }

  // ---------- the invariant over the item writes ----------

  /** The item of the running task `i` changes; it belongs to no other task. */
  predicate ChangesItem(w: World, v: World, i: nat, id: string) {
    && v == w.(items := v.items) && v.items.Keys == w.items.Keys && id in w.items
    && (forall x :: x in w.items && x != id ==> v.items[x] == w.items[x])
    && i < |w.m.plan| && w.m.plan[i].state.Running?
    && (w.m.plan[i].taskId == id || w.made == Some(id))
    && (v.items[id].worktree == w.items[id].worktree || w.m.plan[i].worktree == "")
    && (v.items[id].status.Done? ==> w.items[id].status.Done? || w.m.plan[i].taskId == id)
  }

  lemma RunningItem(w: World, v: World, i: nat, id: string)
    requires ItemInv(w) && ChangesItem(w, v, i, id)
    ensures ItemInv(v)
  {
    hide RepairLead;
    assert id != "";
    assert forall k :: 0 <= k < |w.m.plan| && w.m.plan[k].taskId == id ==> k == i;
    assert DoneIsPlanned(v) by {
      forall x | x in v.items && v.items[x].status.Done? ensures IsPlanned(v.m, x) {
        if x == id && w.m.plan[i].taskId == id {
          assert IsPlanned(w.m, id);
        }
      }
    }
  }

  lemma ResetItem(w: World, i: nat, k: nat, anc: (string, string) -> bool, git: Git)
    requires ItemInv(w) && Possible(w, Resets(i, k), anc, git)
    ensures ItemInv(WithStatus(w, w.m.plan[k].taskId, W.Todo))
  {
    hide RepairLead, RunsTask;
  }

  lemma CreatedItem(w: World, i: nat, id: string, anc: (string, string) -> bool, git: Git)
    requires ItemInv(w) && Possible(w, Creates(i, id), anc, git)
    ensures ItemInv(Moved(w, Creates(i, id), anc, git))
  {
    hide RepairLead;
    var v := Moved(w, Creates(i, id), anc, git);
    assert forall k :: 0 <= k < |w.m.plan| ==> w.m.plan[k].taskId != id;
    assert forall x :: IsDone(v, x) ==> IsDone(w, x);
  }

  lemma RunningWrites(w: World, ev: Event, anc: (string, string) -> bool, git: Git)
    requires Possible(w, ev, anc, git) && (ev.Links? || ev.Starts? || ev.Completes?)
    ensures ChangesItem(w, Moved(w, ev, anc, git), ev.index, if ev.Completes? then w.m.plan[ev.index].taskId else ItemId(w, w.m.plan[ev.index]))
  {
    hide LocatedTask;
  }

  lemma RunningItems(w: World, ev: Event, anc: (string, string) -> bool, git: Git)
    requires ItemInv(w) && Possible(w, ev, anc, git) && (ev.Links? || ev.Starts? || ev.Completes?)
    ensures ItemInv(Moved(w, ev, anc, git))
  {
    RunningWrites(w, ev, anc, git);
    hide ItemInv, Possible, Moved, ChangesItem;
    RunningItem(w, Moved(w, ev, anc, git), ev.index, if ev.Completes? then w.m.plan[ev.index].taskId else ItemId(w, w.m.plan[ev.index]));
  }

  lemma SavesItems(w: World, ev: Event, anc: (string, string) -> bool, git: Git)
    requires Inv(w.m) && ItemInv(w) && Possible(w, ev, anc, git) && ev.Saves?
    ensures ItemInv(Moved(w, ev, anc, git))
  {
    hide Inv, ItemInv, Enabled, Next, ItemsWritten, Reported, Honest, CriteriaMet;
    SavedItems(w, ev.step);
  }

  lemma ResetItems(w: World, ev: Event, anc: (string, string) -> bool, git: Git)
    requires ItemInv(w) && Possible(w, ev, anc, git) && ev.Resets?
    ensures ItemInv(Moved(w, ev, anc, git))
  {
    hide ItemInv, RunsTask;
    ResetItem(w, ev.review, ev.index, anc, git);
  }

  lemma SameItems(w: World, ev: Event, anc: (string, string) -> bool, git: Git)
    requires ItemInv(w) && Possible(w, ev, anc, git) && (ev.Checks? || ev.Accepts? || ev.Satisfies?)
    ensures ItemInv(Moved(w, ev, anc, git))
  {
    hide Decided, RunsTask, RepairLead, RecordOk;
  }

  lemma EventItems(w: World, ev: Event, anc: (string, string) -> bool, git: Git)
    requires Inv(w.m) && ItemInv(w) && Possible(w, ev, anc, git)
    ensures ItemInv(Moved(w, ev, anc, git))
  {
    hide Inv, ItemInv, Possible, Moved;
    match ev
    case Saves(s) => SavesItems(w, ev, anc, git);
    case Creates(i, id) => CreatedItem(w, i, id, anc, git);
    case Resets(i, k) => ResetItems(w, ev, anc, git);
    case Links(i) => RunningItems(w, ev, anc, git);
    case Starts(i) => RunningItems(w, ev, anc, git);
    case Completes(i) => RunningItems(w, ev, anc, git);
    case _ => SameItems(w, ev, anc, git);
  }

  // ---------- every world of every run ----------

  lemma FreshItems(w: World)
    requires Fresh(w)
    ensures Inv(w.m) && ItemInv(w)
  {
    hide Inv, PlanValid, TiersOk;
    CreatedInv(w.m);
  }

  lemma EventInv(w: World, ev: Event, anc: (string, string) -> bool, git: Git)
    requires Inv(w.m) && Possible(w, ev, anc, git)
    ensures Inv(Moved(w, ev, anc, git).m)
  {
    if ev.Saves? {
      hide Inv, Enabled, Next, ItemsWritten, Reported, Honest, CriteriaMet;
      NextInv(w.m, ev.step);
    } else {
      hide Inv;
      OthersKeep(w, ev, anc, git);
    }
  }

  lemma {:induction false} RunItems(worlds: seq<World>, events: seq<Event>, anc: (string, string) -> bool, git: Git, n: nat)
    requires WorldRun(worlds, events, anc, git) && n < |worlds|
    ensures Inv(worlds[n].m) && ItemInv(worlds[n])
  {
    hide Inv, ItemInv, Possible, Moved, Fresh;
    if n == 0 {
      FreshItems(worlds[0]);
    } else {
      RunItems(worlds, events, anc, git, n - 1);
      assert Follows(worlds[n - 1], events[n - 1], worlds[n - 1 + 1], anc, git);
      EventItems(worlds[n - 1], events[n - 1], anc, git);
      EventInv(worlds[n - 1], events[n - 1], anc, git);
    }
  }

  // ---------- items that were created and never recorded ----------

  predicate Names(ev: Event, id: string) {
    ev.Saves? && Records(ev.step, id)
  }

  predicate Makes(ev: Event, id: string) {
    ev.Creates? && ev.id == id
  }

  predicate Named(events: seq<Event>, n: nat, id: string)
    requires n <= |events|
  {
    exists q :: 0 <= q < n && Names(events[q], id)
  }

  predicate Made(events: seq<Event>, n: nat, id: string)
    requires n <= |events|
  {
    exists p :: 0 <= p < n && Makes(events[p], id)
  }

  /** No creation went unsaved: every item made was named by a save. */
  predicate AllNamed(events: seq<Event>, n: nat)
    requires n <= |events|
  {
    forall p :: 0 <= p < n && events[p].Creates? ==> Named(events, n, events[p].id)
  }

  /** Items are exactly those made, and plans name exactly those named by a save. */
  ghost predicate Traced(w: World, events: seq<Event>, n: nat)
    requires n <= |events|
  {
    && (forall id :: id in w.items <==> Made(events, n, id))
    && (forall id :: id != "" ==> (IsPlanned(w.m, id) <==> Named(events, n, id)))
  }

  lemma NamedStep(events: seq<Event>, n: nat, id: string)
    requires n < |events|
    ensures Named(events, n + 1, id) <==> Named(events, n, id) || Names(events[n], id)
    ensures Made(events, n + 1, id) <==> Made(events, n, id) || Makes(events[n], id)
  {
    hide Names, Makes;
  }

  lemma RecordedIsPlanned(m: Mission, s: Step, id: string)
    requires Enabled(m, s) && Records(s, id)
    ensures IsPlanned(Next(m, s), id) && id != ""
  {
    hide OutcomeOf, Finished, OwnedId, WithPrep;
    var i := s.index;
    if s.Finish? {
      var base := WithPrep(Raised(m, s.assessed), i, s.prep);
      PrepCarries(Raised(m, s.assessed), i, s.prep, i);
      FinishedCarries(base, i, |m.executions| - 1, s.runErr, s.obs, i);
      assert Next(m, s).plan[i].taskId == id;
    } else {
      PrepCarries(m, i, s.prep, i);
      assert Next(m, s).plan[i].taskId == id;
    }
  }

  lemma SavedPlanned(w: World, s: Step, id: string)
    requires Inv(w.m) && ItemInv(w) && Enabled(w.m, s) && ItemsWritten(w, s) && id != ""
    ensures IsPlanned(Next(w.m, s), id) <==> IsPlanned(w.m, id) || Records(s, id)
  {
    var n := Next(w.m, s);
    WrittenFacts(w, s);
    NextCarries(w.m, s);
    hide Inv, Enabled, Next, ItemsWritten, NamesItem, PlacesLinked, FinishesDone, LinkedOk, LagsOk;
    SavedOwn(w, s, n) by { hide AllCarry; }
    if Records(s, id) {
      RecordedIsPlanned(w.m, s, id);
    }
    if IsPlanned(n, id) {
      var k :| 0 <= k < |n.plan| && n.plan[k].taskId == id;
      assert Carries(w.m, s, k, n.plan[k]);
      assert IsPlanned(w.m, id) || Records(s, id);
    }
  }

  lemma TracedStep(w: World, v: World, ev: Event, events: seq<Event>, n: nat)
    requires n < |events| && events[n] == ev && Traced(w, events, n)
    requires forall id :: id in v.items <==> id in w.items || Makes(ev, id)
    requires forall id :: id != "" ==> (IsPlanned(v.m, id) <==> IsPlanned(w.m, id) || Names(ev, id))
    ensures Traced(v, events, n + 1)
  {
    hide IsPlanned, Records, Named, Made;
    forall id ensures id in v.items <==> Made(events, n + 1, id) {
      NamedStep(events, n, id);
    }
    forall id | id != "" ensures IsPlanned(v.m, id) <==> Named(events, n + 1, id) {
      NamedStep(events, n, id);
    }
  }

  lemma EventTraced(w: World, ev: Event, events: seq<Event>, n: nat, anc: (string, string) -> bool, git: Git)
    requires n < |events| && events[n] == ev && Traced(w, events, n)
    requires Inv(w.m) && ItemInv(w) && Possible(w, ev, anc, git)
    ensures Traced(Moved(w, ev, anc, git), events, n + 1)
  {
    hide Inv, ItemInv, IsPlanned, Possible, Moved, Traced, Names, Makes;
    MovedKeys(w, ev, anc, git);
    forall id | id != "" ensures IsPlanned(Moved(w, ev, anc, git).m, id) <==> IsPlanned(w.m, id) || Names(ev, id) {
      PlannedStep(w, ev, id, anc, git);
    }
    TracedStep(w, Moved(w, ev, anc, git), ev, events, n);
  }

  lemma MovedKeys(w: World, ev: Event, anc: (string, string) -> bool, git: Git)
    requires Possible(w, ev, anc, git)
    ensures forall id :: id in Moved(w, ev, anc, git).items <==> id in w.items || Makes(ev, id)
  {
    hide RunsTask, LocatedTask, Decided, RepairLead, RecordOk, GoodTaskId, MaySave;
  }

  lemma PlannedStep(w: World, ev: Event, id: string, anc: (string, string) -> bool, git: Git)
    requires Inv(w.m) && ItemInv(w) && Possible(w, ev, anc, git) && id != ""
    ensures IsPlanned(Moved(w, ev, anc, git).m, id) <==> IsPlanned(w.m, id) || Names(ev, id)
  {
    hide Inv, ItemInv, IsPlanned, Records;
    if ev.Saves? {
      hide Enabled, Next, ItemsWritten, Reported, Honest, CriteriaMet;
      SavedPlanned(w, ev.step, id);
    } else {
      OthersKeep(w, ev, anc, git);
    }
  }

  // ---------- items that were reset for a repair nobody saved ----------

  /** The event resets the item of finished work. */
  predicate ResetsDone(w: World, ev: Event, k: nat) {
    ev.Resets? && ev.index == k && k < |w.m.plan| && w.m.plan[k].state.Completed?
  }

  predicate RepairSaved(w: World, ev: Event) {
    ev.Saves? && Repairs(w.m, ev.step)
  }

  predicate RepairFollows(worlds: seq<World>, events: seq<Event>, p: int, n: nat)
    requires n <= |events| <= |worlds|
  {
    exists q :: 0 <= p < q < n && RepairSaved(worlds[q], events[q])
  }

  /** Finished work of task `k` was reset for a repair, and no repair was saved since. */
  predicate Owed(worlds: seq<World>, events: seq<Event>, n: nat, k: nat)
    requires n <= |events| <= |worlds|
  {
    exists p :: 0 <= p < n && ResetsDone(worlds[p], events[p], k) && !RepairFollows(worlds, events, p, n)
  }

  /** No reset for a repair went unsaved. */
  predicate AllRepaired(worlds: seq<World>, events: seq<Event>, n: nat)
    requires n <= |events| <= |worlds|
  {
    forall p :: 0 <= p < n && events[p].Resets? && ResetsDone(worlds[p], events[p], events[p].index) ==> RepairFollows(worlds, events, p, n)
  }

  lemma OwedStep(worlds: seq<World>, events: seq<Event>, n: nat, k: nat)
    requires n < |events| <= |worlds|
    ensures Owed(worlds, events, n + 1, k) <==>
      ResetsDone(worlds[n], events[n], k) || (Owed(worlds, events, n, k) && !RepairSaved(worlds[n], events[n]))
  {
    hide Repairs;
    var here, later := RepairSaved(worlds[n], events[n]), ResetsDone(worlds[n], events[n], k);
    forall p | 0 <= p < n ensures RepairFollows(worlds, events, p, n + 1) <==> RepairFollows(worlds, events, p, n) || here {
      if here {
        assert RepairSaved(worlds[n], events[n]);
      }
    }
    if later {
      assert !RepairFollows(worlds, events, n, n + 1);
    }
    if Owed(worlds, events, n, k) && !here {
      var p :| 0 <= p < n && ResetsDone(worlds[p], events[p], k) && !RepairFollows(worlds, events, p, n);
      assert !RepairFollows(worlds, events, p, n + 1);
    }
  }

  /** Only a repair takes finished work back. */
  lemma FinishedKept(m: Mission, i: nat, j: nat, out: Outcome, k: nat)
    requires i < |m.plan| && j < |m.executions| && k < |m.plan| && k != i && m.plan[k].state.Completed?
    ensures var n := Finished(m, i, j, out);
      && |n.plan| == |m.plan| && n.fixCycles >= m.fixCycles
      && (n.fixCycles == m.fixCycles ==> n.plan[k].state.Completed?)
      && (n.fixCycles > m.fixCycles && n.plan[k].state.Completed? ==>
            !Redone(m.plan[k].role) && RepairLead(Recorded(m, i, j, out).plan, 0) != Some(k))
  {
    hide RepairLead;
  }

  lemma RecordedLead(m: Mission, i: nat, j: nat, out: Outcome)
    requires i < |m.plan| && j < |m.executions|
    ensures RepairLead(Recorded(m, i, j, out).plan, 0) == RepairLead(m.plan, 0)
  {
    SameLead(m.plan, Recorded(m, i, j, out).plan);
  }

  lemma SameLead(p: seq<Task>, q: seq<Task>)
    requires |p| == |q| && forall k :: 0 <= k < |p| ==> CanRepair(p[k]) == CanRepair(q[k])
    ensures RepairLead(p, 0) == RepairLead(q, 0)
  {
    var a, b := RepairLead(p, 0), RepairLead(q, 0);
    assert a.Some? ==> CanRepair(q[a.value]);
    assert b.Some? ==> CanRepair(p[b.value]);
  }

  lemma PreparedLead(m: Mission, i: nat, prep: Prep)
    requires i < |m.plan| && PrepFits(m.plan[i], prep)
    ensures RepairLead(WithPrep(m, i, prep).plan, 0) == RepairLead(m.plan, 0) && WithPrep(m, i, prep).fixCycles == m.fixCycles
  {
    var n := WithPrep(m, i, prep);
    hide OwnedId, GoodTaskId;
    SameLead(m.plan, n.plan);
  }

  lemma FinishTakesBack(m: Mission, s: Step, k: nat)
    requires Enabled(m, s) && s.Finish? && k < |m.plan| && m.plan[k].state.Completed?
    ensures var n := Next(m, s);
      && |n.plan| == |m.plan| && n.fixCycles >= m.fixCycles
      && (n.fixCycles == m.fixCycles ==> n.plan[k].state.Completed?)
      && (n.fixCycles > m.fixCycles && n.plan[k].state.Completed? ==> !Redone(m.plan[k].role) && RepairLead(m.plan, 0) != Some(k))
  {
    hide OutcomeOf, Finished, Recorded, OwnedId, GoodTaskId, WithPrep, RepairLead;
    var r := Raised(m, s.assessed);
    var base := WithPrep(r, s.index, s.prep);
    var j := |m.executions| - 1;
    PrepCarries(r, s.index, s.prep, k);
    PrepCarries(r, s.index, s.prep, s.index);
    PreparedLead(r, s.index, s.prep);
    var out := OutcomeOf(base, base.plan[s.index], base.executions[j], s.runErr, s.obs);
    FinishedKept(base, s.index, j, out, k);
    RecordedLead(base, s.index, j, out);
  }

  lemma OthersTakeNothing(m: Mission, s: Step, k: nat)
    requires Enabled(m, s) && !s.Finish? && k < |m.plan| && m.plan[k].state.Completed?
    ensures var n := Next(m, s);
      |n.plan| == |m.plan| && n.fixCycles == m.fixCycles && n.plan[k].state.Completed?
  {
    hide OwnedId, GoodTaskId, NeedsGate, Eligible, Conclusion, Reevaluated, DepsDone;
  }

  lemma TakenBack(m: Mission, s: Step, k: nat)
    requires Enabled(m, s) && k < |m.plan| && m.plan[k].state.Completed?
    ensures k < |Next(m, s).plan|
    ensures !Repairs(m, s) ==> Next(m, s).plan[k].state.Completed?
    ensures Repairs(m, s) && Next(m, s).plan[k].state.Completed? ==> !Redone(m.plan[k].role) && RepairLead(m.plan, 0) != Some(k)
  {
    hide Next, Enabled, RepairLead;
    if s.Finish? {
      FinishTakesBack(m, s, k);
    } else {
      OthersTakeNothing(m, s, k);
    }
  }

  /** Finished work's item is done exactly when no reset of it is owed a repair; only finished work is ever owed one. */
  ghost predicate DoneUnlessOwed(w: World, owed: nat -> bool) {
    forall k: nat ::
      && (owed(k) ==> k < |w.m.plan| && w.m.plan[k].state.Completed?)
      && (k < |w.m.plan| && w.m.plan[k].state.Completed? ==> (IsDone(w, w.m.plan[k].taskId) <==> !owed(k)))
  }

  /** What the event does to the item of task `k`, whose work is finished before and after it. */
  lemma FinishedItem(w: World, ev: Event, k: nat, anc: (string, string) -> bool, git: Git)
    requires OwnItems(w) && MadeOk(w) && Possible(w, ev, anc, git) && !ev.Saves? && k < |w.m.plan| && w.m.plan[k].state.Completed? && w.m.plan[k].taskId != ""
    ensures IsDone(Moved(w, ev, anc, git), w.m.plan[k].taskId) <==> IsDone(w, w.m.plan[k].taskId) && !ResetsDone(w, ev, k)
  {
    hide LocatedTask, Decided, RepairLead, RecordOk, GoodTaskId, MaySave, NewProof;
    var id := w.m.plan[k].taskId;
    assert forall j :: 0 <= j < |w.m.plan| && j != k ==> w.m.plan[j].taskId != id;
    assert w.made != Some(id);
  }

  lemma FinishedAreNamed(m: Mission)
    requires Inv(m)
    ensures forall k :: 0 <= k < |m.plan| && m.plan[k].state.Completed? ==> m.plan[k].taskId != ""
  {
    hide Inv, OwnedId, GoodTaskId;
    forall k | 0 <= k < |m.plan| ensures TaskOk(m, m.plan[k]) {
      InvTask(m, k);
    }
  }

  lemma OwedAfterWrite(w: World, v: World, owed: nat -> bool, later: nat -> bool, reset: nat -> bool)
    requires v.m == w.m && DoneUnlessOwed(w, owed) && forall k: nat :: later(k) <==> reset(k) || owed(k)
    requires forall k: nat :: reset(k) ==> k < |w.m.plan| && w.m.plan[k].state.Completed?
    requires forall k: nat :: k < |w.m.plan| && w.m.plan[k].state.Completed? ==>
      (IsDone(v, w.m.plan[k].taskId) <==> IsDone(w, w.m.plan[k].taskId) && !reset(k))
    ensures DoneUnlessOwed(v, later)
  {
    hide IsDone;
  }

  lemma WriteKeepsOwed(w: World, ev: Event, owed: nat -> bool, later: nat -> bool, anc: (string, string) -> bool, git: Git)
    requires Inv(w.m) && ItemInv(w) && Possible(w, ev, anc, git) && !ev.Saves? && DoneUnlessOwed(w, owed)
    requires forall k: nat :: later(k) <==> ResetsDone(w, ev, k) || owed(k)
    ensures DoneUnlessOwed(Moved(w, ev, anc, git), later)
  {
    hide Inv, LinkedOk, LagsOk, Possible, Moved, OwnItems, MadeOk, DoneIsPlanned, IsDone, DoneUnlessOwed;
    FinishedAreNamed(w.m);
    OthersKeep(w, ev, anc, git);
    var reset := (k: nat) => ResetsDone(w, ev, k);
    assert forall k: nat :: reset(k) ==> k < |w.m.plan| && w.m.plan[k].state.Completed?;
    hide ResetsDone;
    forall k: nat | k < |w.m.plan| && w.m.plan[k].state.Completed?
      ensures IsDone(Moved(w, ev, anc, git), w.m.plan[k].taskId) <==> IsDone(w, w.m.plan[k].taskId) && !reset(k)
    {
      FinishedItem(w, ev, k, anc, git);
    }
    OwedAfterWrite(w, Moved(w, ev, anc, git), owed, later, reset);
  }

  lemma SaveKeepsOne(w: World, s: Step, n: Mission, k: nat, owed: bool, repairs: bool)
    requires k < |w.m.plan| && |n.plan| == |w.m.plan| && Carries(w.m, s, k, n.plan[k]) && FinishesDone(w, s, n) && LagsOk(w)
    requires (owed ==> w.m.plan[k].state.Completed?) && (w.m.plan[k].state.Completed? ==> (IsDone(w, w.m.plan[k].taskId) <==> !owed))
    requires w.m.plan[k].state.Completed? ==>
      (!repairs ==> n.plan[k].state.Completed?)
      && (repairs && n.plan[k].state.Completed? ==> !Redone(w.m.plan[k].role) && RepairLead(w.m.plan, 0) != Some(k))
    ensures owed && !repairs ==> n.plan[k].state.Completed?
    ensures n.plan[k].state.Completed? ==> (IsDone(w, n.plan[k].taskId) <==> !(owed && !repairs))
  {
    hide RepairLead, Places;
  }

  /** What a save leaves of finished work, depending on whether it starts a repair. */
  predicate TakesBack(m: Mission, n: Mission, repairs: bool) {
    |n.plan| == |m.plan| && forall k :: 0 <= k < |m.plan| && m.plan[k].state.Completed? ==>
      && (!repairs ==> n.plan[k].state.Completed?)
      && (repairs && n.plan[k].state.Completed? ==> !Redone(m.plan[k].role) && RepairLead(m.plan, 0) != Some(k))
  }

  lemma StepTakesBack(m: Mission, s: Step)
    requires Inv(m) && Enabled(m, s)
    ensures TakesBack(m, Next(m, s), Repairs(m, s))
  {
    hide Inv, Enabled, Next, Repairs, RepairLead;
    NextFrame(m, s);
    forall k | 0 <= k < |m.plan| && m.plan[k].state.Completed?
      ensures !Repairs(m, s) ==> Next(m, s).plan[k].state.Completed?
      ensures Repairs(m, s) && Next(m, s).plan[k].state.Completed? ==> !Redone(m.plan[k].role) && RepairLead(m.plan, 0) != Some(k)
    {
      TakenBack(m, s, k);
    }
  }

  lemma OwedAfter(w: World, s: Step, n: Mission, repairs: bool, owed: nat -> bool, later: nat -> bool)
    requires AllCarry(w.m, s, n) && FinishesDone(w, s, n) && LagsOk(w) && TakesBack(w.m, n, repairs) && DoneUnlessOwed(w, owed)
    requires forall k: nat :: later(k) <==> owed(k) && !repairs
    ensures DoneUnlessOwed(w.(m := n, made := None), later)
  {
    hide RepairLead, FinishesDone, LagsOk, Carries, IsDone;
    forall k: nat
      ensures later(k) ==> k < |n.plan| && n.plan[k].state.Completed?
      ensures k < |n.plan| && n.plan[k].state.Completed? ==> (IsDone(w, n.plan[k].taskId) <==> !later(k))
    {
      if k < |w.m.plan| {
        SaveKeepsOne(w, s, n, k, owed(k), repairs);
      }
    }
    IsDoneSame(w, n);
  }

  lemma SaveKeepsOwed(w: World, s: Step, owed: nat -> bool, later: nat -> bool)
    requires Inv(w.m) && ItemInv(w) && Enabled(w.m, s) && ItemsWritten(w, s) && DoneUnlessOwed(w, owed)
    requires forall k: nat :: later(k) <==> owed(k) && !Repairs(w.m, s)
    ensures DoneUnlessOwed(w.(m := Next(w.m, s), made := None), later)
  {
    WrittenFacts(w, s);
    NextCarries(w.m, s);
    StepTakesBack(w.m, s);
    assert LagsOk(w);
    hide Inv, ItemInv, Enabled, Next, ItemsWritten, Repairs, TakesBack, NamesItem, PlacesLinked, FinishesDone, LagsOk, AllCarry, DoneUnlessOwed;
    OwedAfter(w, s, Next(w.m, s), Repairs(w.m, s), owed, later);
  }

  lemma IsDoneSame(w: World, n: Mission)
    ensures forall id :: IsDone(w.(m := n, made := None), id) <==> IsDone(w, id)
  {
  }

  ghost predicate Accounted(worlds: seq<World>, events: seq<Event>, n: nat)
    requires n <= |events| <= |worlds| && n < |worlds|
  {
    Traced(worlds[n], events, n) && DoneUnlessOwed(worlds[n], (k: nat) => Owed(worlds, events, n, k))
  }

  lemma OwedNext(worlds: seq<World>, events: seq<Event>, n: nat, anc: (string, string) -> bool, git: Git)
    requires n < |events| && |worlds| == |events| + 1 && Inv(worlds[n].m) && ItemInv(worlds[n])
    requires Follows(worlds[n], events[n], worlds[n + 1], anc, git)
    requires DoneUnlessOwed(worlds[n], (k: nat) => Owed(worlds, events, n, k))
    ensures DoneUnlessOwed(worlds[n + 1], (k: nat) => Owed(worlds, events, n + 1, k))
  {
    var w, ev := worlds[n], events[n];
    var owed, later := (k: nat) => Owed(worlds, events, n, k), (k: nat) => Owed(worlds, events, n + 1, k);
    forall k: nat ensures later(k) <==> ResetsDone(w, ev, k) || (owed(k) && !RepairSaved(w, ev)) {
      OwedStep(worlds, events, n, k);
    }
    hide Inv, ItemInv, DoneUnlessOwed, Owed, Enabled, Next, ItemsWritten, Repairs;
    if ev.Saves? {
      SaveKeepsOwed(w, ev.step, owed, later);
    } else {
      WriteKeepsOwed(w, ev, owed, later, anc, git);
    }
  }

  lemma {:induction false} RunAccounted(worlds: seq<World>, events: seq<Event>, anc: (string, string) -> bool, git: Git, n: nat)
    requires WorldRun(worlds, events, anc, git) && n < |worlds|
    ensures Accounted(worlds, events, n)
  {
    hide Inv, ItemInv, Possible, Moved, Fresh, Traced, DoneUnlessOwed, Owed;
    if n == 0 {
      FreshAccounted(worlds, events);
    } else {
      RunAccounted(worlds, events, anc, git, n - 1);
      RunItems(worlds, events, anc, git, n - 1);
      assert Follows(worlds[n - 1], events[n - 1], worlds[n - 1 + 1], anc, git);
      EventTraced(worlds[n - 1], events[n - 1], events, n - 1, anc, git);
      OwedNext(worlds, events, n - 1, anc, git);
    }
  }

  lemma FreshAccounted(worlds: seq<World>, events: seq<Event>)
    requires |worlds| == |events| + 1 && Fresh(worlds[0])
    ensures Accounted(worlds, events, 0)
  {
    hide PlanValid;
    assert forall k :: 0 <= k < |worlds[0].m.plan| ==> FreshTask(worlds[0].m.plan[k]);
  }

  /**
   * When a mission has completed, every work item of its requirement is done exactly when no creation
   * of an item went unsaved and no reset of finished work was left without a repair being saved after it.
   */
  lemma AllDoneExactly(worlds: seq<World>, events: seq<Event>, anc: (string, string) -> bool, git: Git, n: nat)
    requires WorldRun(worlds, events, anc, git) && n < |worlds| && worlds[n].m.state.Completed?
    ensures (forall id :: id in worlds[n].items ==> IsDone(worlds[n], id)) <==> AllNamed(events, n) && AllRepaired(worlds, events, n)
  {
    RunItems(worlds, events, anc, git, n);
    RunAccounted(worlds, events, anc, git, n);
    hide WorldRun, Inv, ItemInv, Traced, DoneUnlessOwed, IsDone, AllNamed, AllRepaired;
    CompletedFacts(worlds[n]);
    if forall id :: id in worlds[n].items ==> IsDone(worlds[n], id) {
      NamedWhenDone(worlds[n], events, n);
      RepairedWhenDone(worlds, events, n);
    }
    if AllNamed(events, n) && AllRepaired(worlds, events, n) {
      DoneWhenNamed(worlds, events, n);
    }
  }

  lemma CompletedFacts(w: World)
    requires Inv(w.m) && ItemInv(w) && w.m.state.Completed?
    ensures OwnItems(w) && DoneIsPlanned(w)
    ensures forall k :: 0 <= k < |w.m.plan| ==> w.m.plan[k].state.Completed? && w.m.plan[k].taskId != ""
  {
    hide Inv, LinkedOk, LagsOk, MadeOk, OwnItems, DoneIsPlanned;
    CompletedPlan(w.m);
    FinishedAreNamed(w.m);
  }

  /** No creation went unsaved exactly when every item belongs to a task. */
  lemma AllNamedExactly(worlds: seq<World>, events: seq<Event>, anc: (string, string) -> bool, git: Git, n: nat)
    requires WorldRun(worlds, events, anc, git) && n < |worlds|
    ensures AllNamed(events, n) <==> forall id :: id in worlds[n].items ==> IsPlanned(worlds[n].m, id)
  {
    hide Inv, LinkedOk, LagsOk, MadeOk, DoneIsPlanned, DoneUnlessOwed, IsPlanned, Named, Fresh, Follows;
    assert |worlds| == |events| + 1;
    hide WorldRun;
    RunItems(worlds, events, anc, git, n);
    RunAccounted(worlds, events, anc, git, n);
    var w := worlds[n];
    if AllNamed(events, n) {
      forall id | id in w.items ensures IsPlanned(w.m, id) {
        assert Made(events, n, id);
        var p :| 0 <= p < n && Makes(events[p], id);
        assert Named(events, n, events[p].id);
      }
    }
    if forall id :: id in w.items ==> IsPlanned(w.m, id) {
      forall p | 0 <= p < n && events[p].Creates? ensures Named(events, n, events[p].id) {
        assert Makes(events[p], events[p].id) && Made(events, n, events[p].id);
      }
    }
  }

  lemma CompletedPlan(m: Mission)
    requires Inv(m) && m.state.Completed?
    ensures forall k :: 0 <= k < |m.plan| ==> m.plan[k].state.Completed?
  {
    hide PlanShape, TasksOk, ExecutionsOk, AllBelong, RunningLinked, CompletedLinked, Started, RetriesRise, EscalationOk, OnlyLastRuns;
  }

  lemma NamedWhenDone(w: World, events: seq<Event>, n: nat)
    requires n <= |events| && Traced(w, events, n) && OwnItems(w) && DoneIsPlanned(w) && forall id :: id in w.items ==> IsDone(w, id)
    ensures AllNamed(events, n)
  {
    hide IsPlanned, Named;
    forall p | 0 <= p < n && events[p].Creates? ensures Named(events, n, events[p].id) {
      assert Makes(events[p], events[p].id);
      assert Made(events, n, events[p].id);
      assert events[p].id in w.items && IsDone(w, events[p].id);
    }
  }

  lemma RepairedWhenDone(worlds: seq<World>, events: seq<Event>, n: nat)
    requires n <= |events| && |worlds| == |events| + 1
    requires DoneUnlessOwed(worlds[n], (k: nat) => Owed(worlds, events, n, k)) && OwnItems(worlds[n])
    requires forall k :: 0 <= k < |worlds[n].m.plan| ==> worlds[n].m.plan[k].state.Completed? && worlds[n].m.plan[k].taskId != ""
    requires forall id :: id in worlds[n].items ==> IsDone(worlds[n], id)
    ensures AllRepaired(worlds, events, n)
  {
    hide RepairFollows, ResetsDone;
    var w, owed := worlds[n], (k: nat) => Owed(worlds, events, n, k);
    forall p | 0 <= p < n && events[p].Resets? && ResetsDone(worlds[p], events[p], events[p].index) ensures RepairFollows(worlds, events, p, n) {
      var k := events[p].index;
      assert owed(k) <==> Owed(worlds, events, n, k);
      assert k < |w.m.plan| ==> IsDone(w, w.m.plan[k].taskId);
    }
  }

  lemma DoneWhenNamed(worlds: seq<World>, events: seq<Event>, n: nat)
    requires n <= |events| && |worlds| == |events| + 1 && Traced(worlds[n], events, n) && OwnItems(worlds[n])
    requires DoneUnlessOwed(worlds[n], (k: nat) => Owed(worlds, events, n, k))
    requires forall k :: 0 <= k < |worlds[n].m.plan| ==> worlds[n].m.plan[k].state.Completed? && worlds[n].m.plan[k].taskId != ""
    requires AllNamed(events, n) && AllRepaired(worlds, events, n)
    ensures forall id :: id in worlds[n].items ==> IsDone(worlds[n], id)
  {
    hide RepairFollows, Named;
    var w, owed := worlds[n], (k: nat) => Owed(worlds, events, n, k);
    forall id | id in w.items ensures IsDone(w, id) {
      assert Made(events, n, id);
      var p :| 0 <= p < n && Makes(events[p], id);
      assert Named(events, n, events[p].id) && IsPlanned(w.m, id);
      var k: nat :| k < |w.m.plan| && w.m.plan[k].taskId == id;
      assert owed(k) <==> Owed(worlds, events, n, k);
      assert !Owed(worlds, events, n, k);
    }
  }
}
