/** Which task may run next, and on which model (internal/team/model.go). */
module Scheduler {
  import opened Team

  // ---------- ready tasks ----------

  predicate Schedulable(s: State) {
    s.Pending? || s.Blocked? || s.Ready? || s.Retry?
  }

  /** The last task bearing an id decides its state, as filling a map does. */
  function States(plan: seq<Task>): map<string, State> {
    if plan == [] then map[]
    else
      var last := plan[|plan| - 1];
      States(plan[..|plan| - 1])[last.id := last.state]
  }

  lemma {:induction false} StatesAt(plan: seq<Task>, k: nat)
    requires UniqueIds(plan) && k < |plan|
    ensures plan[k].id in States(plan) && States(plan)[plan[k].id] == plan[k].state
  {
    var n := |plan| - 1;
    if k < n {
      StatesAt(plan[..n], k);
    }
  }

  predicate IsCompleted(states: map<string, State>, id: string) {
    id in states && states[id].Completed?
  }

  predicate DepsDone(plan: seq<Task>, t: Task) {
    forall d :: d in t.dependsOn ==> IsCompleted(States(plan), d)
  }

  predicate IsReady(plan: seq<Task>, k: nat)
    requires k < |plan|
  {
    Schedulable(plan[k].state) && DepsDone(plan, plan[k])
  }

  function RescheduledTask(plan: seq<Task>, t: Task): Task {
    if !Schedulable(t.state) then t
    else t.(state := if DepsDone(plan, t) then Ready else Blocked)
  }

  function Rescheduled(plan: seq<Task>): (r: seq<Task>)
    ensures |r| == |plan|
    ensures forall k :: 0 <= k < |plan| ==> r[k] == RescheduledTask(plan, plan[k])
  {
    seq(|plan|, k requires 0 <= k < |plan| => RescheduledTask(plan, plan[k]))
  }

  method CollectStates(plan: seq<Task>) returns (states: map<string, State>)
    ensures states == States(plan)
  {
    states := map[];
    for k := 0 to |plan|
      invariant states == States(plan[..k])
    {
      assert plan[..k + 1][..k] == plan[..k];
      states := states[plan[k].id := plan[k].state];
    }
    assert plan[..|plan|] == plan;
  }

  method DependenciesCompleted(states: map<string, State>, deps: seq<string>) returns (all: bool)
    ensures all <==> forall d :: d in deps ==> IsCompleted(states, d)
  {
    all := true;
    for d := 0 to |deps|
      invariant all <==> forall j :: 0 <= j < d ==> IsCompleted(states, deps[j])
    {
      if !IsCompleted(states, deps[d]) {
        all := false;
      }
    }
  }

  /** Rewrites waiting tasks to ready or blocked and lists the ready ones in plan order. */
  method FindReady(plan: seq<Task>) returns (updated: seq<Task>, ready: seq<nat>)
    ensures updated == Rescheduled(plan)
    ensures forall i, j :: 0 <= i < j < |ready| ==> ready[i] < ready[j]
    ensures forall k: nat :: k in ready <==> k < |plan| && IsReady(plan, k)
  {
    hide States, IsCompleted;
    var states := CollectStates(plan);
    updated, ready := plan, [];
    for i := 0 to |plan|
      invariant |updated| == |plan|
      invariant forall k :: 0 <= k < i ==> updated[k] == Rescheduled(plan)[k]
      invariant forall k :: i <= k < |plan| ==> updated[k] == plan[k]
      invariant forall a, b :: 0 <= a < b < |ready| ==> ready[a] < ready[b]
      invariant forall a :: 0 <= a < |ready| ==> ready[a] < i
      invariant forall k: nat :: k in ready <==> k < i && IsReady(plan, k)
    {
      var t := updated[i];
      if !Schedulable(t.state) {
        continue;
      }
      var isReady := DependenciesCompleted(states, t.dependsOn);
      if isReady {
        updated := updated[i := t.(state := Ready)];
        ready := ready + [i];
      } else {
        updated := updated[i := t.(state := Blocked)];
      }
    }
  }

  // ---------- routing ----------

  function MinTier(t: Task, risk: int): int {
    var floor := if t.role.Lead? || t.role.Review? || risk >= 3 then 2 else 0;
    if t.attempts > floor then t.attempts else floor
  }

  predicate Eligible(m: Mission, t: Task, available: map<string, bool>, model: Model) {
    && model.available
    && model.adapter in available && available[model.adapter]
    && model.provider in m.policy.allowedProviders
    && model.tools
    && model.tier >= MinTier(t, m.risk)
    && model.contextLimit >= t.contextSize
    && All(model.capabilities, t.capabilities)
    && All(model.enforcedPolicies, m.policy.requiredEnforcement)
    && (m.policy.sourceExport || "no_network" in model.enforcedPolicies)
  }

  function EligibleModels(m: Mission, t: Task, available: map<string, bool>, models: seq<Model>): seq<Model> {
    if models == [] then []
    else
      var last := models[|models| - 1];
      EligibleModels(m, t, available, models[..|models| - 1]) + if Eligible(m, t, available, last) then [last] else []
  }

  /** Byte order on identifiers. */
  predicate IdBefore(a: string, b: string) {
    if b == "" then false
    else if a == "" then true
    else if a[0] != b[0] then a[0] < b[0]
    else IdBefore(a[1..], b[1..])
  }

  /** The comparator: lower tier, better evaluation, lower cost when both costs are known, then id. */
  predicate Before(a: Model, b: Model) {
    if a.tier != b.tier then a.tier < b.tier
    else if a.evaluation != b.evaluation then a.evaluation > b.evaluation
    else if a.cost.Some? && b.cost.Some? && a.cost != b.cost then a.cost.value < b.cost.value
    else IdBefore(a.id, b.id)
  }

  /** A new element moves left past every neighbour it precedes. */
  function Inserted(s: seq<Model>, x: Model): seq<Model> {
    if s == [] || !Before(x, s[|s| - 1]) then s + [x]
    else Inserted(s[..|s| - 1], x) + [s[|s| - 1]]
  }

  function StableSorted(s: seq<Model>): seq<Model> {
    if s == [] then [] else Inserted(StableSorted(s[..|s| - 1]), s[|s| - 1])
  }

  lemma {:induction false} InsertedContents(s: seq<Model>, x: Model)
    ensures multiset(Inserted(s, x)) == multiset(s) + multiset{x}
    ensures |Inserted(s, x)| == |s| + 1
  {
    if s == [] || !Before(x, s[|s| - 1]) {
    } else {
      InsertedContents(s[..|s| - 1], x);
      assert s == s[..|s| - 1] + [s[|s| - 1]];
    }
  }

  lemma {:induction false} SortedContents(s: seq<Model>)
    ensures multiset(StableSorted(s)) == multiset(s)
  {
    hide Inserted;
    if s != [] {
      var front, last := s[..|s| - 1], s[|s| - 1];
      SortedContents(front);
      InsertedContents(StableSorted(front), last);
      assert s == front + [last];
    }
  }

  /** `a` may stand before `b` as far as tier and evaluation go. */
  predicate RankedBefore(a: Model, b: Model) {
    a.tier < b.tier || (a.tier == b.tier && a.evaluation >= b.evaluation)
  }

  ghost predicate Ranked(s: seq<Model>) {
    forall i, j :: 0 <= i < j < |s| ==> RankedBefore(s[i], s[j])
  }

  lemma {:induction false} InsertedRanked(s: seq<Model>, x: Model)
    requires Ranked(s)
    ensures Ranked(Inserted(s, x))
  {
    if s == [] || !Before(x, s[|s| - 1]) {
    } else {
      var front, last := s[..|s| - 1], s[|s| - 1];
      InsertedRanked(front, x);
      InsertedContents(front, x);
      var moved := Inserted(front, x);
      forall k | 0 <= k < |moved| ensures RankedBefore(moved[k], last) {
        assert moved[k] in multiset(moved);
        assert moved[k] in front || moved[k] == x;
      }
    }
  }

  /** Tier and evaluation order the candidates whatever is known about costs. */
  lemma {:induction false} SortedRanked(s: seq<Model>)
    ensures Ranked(StableSorted(s))
  {
    if s != [] {
      SortedRanked(s[..|s| - 1]);
      InsertedRanked(StableSorted(s[..|s| - 1]), s[|s| - 1]);
    }
  }

  lemma {:induction false} IdBeforeTotal(a: string, b: string)
    ensures IdBefore(a, b) || a == b || IdBefore(b, a)
    ensures !(IdBefore(a, b) && IdBefore(b, a)) && !IdBefore(a, a)
  {
    if a != "" && b != "" {
      IdBeforeTotal(a[1..], b[1..]);
      assert a[0] == b[0] && a[1..] == b[1..] ==> a == [a[0]] + a[1..] && b == [b[0]] + b[1..];
    }
    if a != "" {
      IdBeforeTotal(a[1..], a[1..]);
    }
  }

  lemma {:induction false} IdBeforeTransitive(a: string, b: string, c: string)
    requires !IdBefore(b, a) && !IdBefore(c, b)
    ensures !IdBefore(c, a)
  {
    if a != "" && b != "" && c != "" && a[0] == b[0] == c[0] {
      IdBeforeTransitive(a[1..], b[1..], c[1..]);
    }
  }

  predicate SameGroup(a: Model, b: Model) {
    a.tier == b.tier && a.evaluation == b.evaluation
  }

  /** Cost puts `p` before `q`, while an unknown cost between their ids puts `q` before `r` and `r` before `p`. */
  predicate Circle(p: Model, q: Model, r: Model) {
    && SameGroup(p, q) && SameGroup(q, r)
    && p.cost.Some? && q.cost.Some? && r.cost.None? && p.cost.value < q.cost.value
    && !IdBefore(r.id, q.id) && !IdBefore(p.id, r.id)
  }

  ghost predicate CircleFree(s: seq<Model>) {
    forall p, q, r :: p in s && q in s && r in s ==> !Circle(p, q, r)
  }

  ghost predicate InOrder(s: seq<Model>) {
    forall i, j :: 0 <= i < j < |s| ==> !Before(s[j], s[i])
  }

  lemma NotBeforeTransitive(a: Model, b: Model, c: Model)
    requires !Circle(a, b, c) && !Circle(c, a, b) && !Circle(b, c, a)
    requires !Before(b, a) && !Before(c, b)
    ensures !Before(c, a)
  {
    if SameGroup(a, b) && SameGroup(b, c) {
      IdBeforeTotal(a.id, b.id);
      IdBeforeTotal(b.id, c.id);
      IdBeforeTotal(a.id, c.id);
      IdsChain(a.id, b.id, c.id);
      IdsChain(b.id, c.id, a.id);
      IdsChain(c.id, a.id, b.id);
    }
  }

  lemma IdsChain(a: string, b: string, c: string)
    ensures !IdBefore(b, a) && !IdBefore(c, b) ==> !IdBefore(c, a)
  {
    if !IdBefore(b, a) && !IdBefore(c, b) {
      IdBeforeTransitive(a, b, c);
    }
  }

  lemma BeforeAsymmetric(a: Model, b: Model)
    ensures !(Before(a, b) && Before(b, a))
  {
    IdBeforeTotal(a.id, b.id);
  }

  lemma {:induction false} InsertedInOrder(s: seq<Model>, x: Model)
    requires InOrder(s) && CircleFree(s + [x])
    ensures InOrder(Inserted(s, x))
  {
    hide Circle, Before;
    if s == [] {
    } else if !Before(x, s[|s| - 1]) {
      var last := s[|s| - 1];
      assert last in s + [x] && x in s + [x];
      forall i | 0 <= i < |s| ensures !Before(x, s[i]) {
        assert s[i] in s + [x];
        if i < |s| - 1 {
          NotBeforeTransitive(s[i], last, x);
        }
      }
    } else {
      var front, last := s[..|s| - 1], s[|s| - 1];
      assert forall y :: y in front + [x] ==> y in s + [x];
      InsertedInOrder(front, x);
      InsertedContents(front, x);
      var moved := Inserted(front, x);
      BeforeAsymmetric(x, last);
      forall k | 0 <= k < |moved| ensures !Before(last, moved[k]) {
        assert moved[k] in multiset(moved);
        if moved[k] in front {
          var i :| 0 <= i < |front| && front[i] == moved[k];
          assert s[i] == moved[k];
        }
      }
    }
  }

  /** Without such a circle the candidates come out in the comparator's order; with all costs known, or none, there is none. */
  lemma {:induction false} SortedInOrder(s: seq<Model>)
    requires CircleFree(s)
    ensures InOrder(StableSorted(s))
  {
    if s != [] {
      var front, last := s[..|s| - 1], s[|s| - 1];
      hide Circle;
      assert CircleFree(front);
      SortedInOrder(front);
      SortedContents(front);
      var sorted := StableSorted(front);
      assert StableSorted(s) == Inserted(sorted, last);
      hide StableSorted, InOrder, Inserted;
      forall x | x in sorted + [last] ensures x in s {
        if x in sorted {
          assert x in multiset(sorted);
          assert x in front;
        }
      }
      InsertedInOrder(sorted, last);
    }
  }

  lemma FirstDiffers(a: string, b: string, k: nat)
    requires 0 < k <= |a| && k <= |b| && a[0] != b[0]
    ensures a[..k] != b[..k]
  {
    assert a[..k][0] == a[0] && b[..k][0] == b[0];
  }

  /** Identifiers compare byte by byte: at the first difference, or by length when one is the beginning of the other. */
  lemma {:induction false} IdBeforeExactly(a: string, b: string)
    ensures IdBefore(a, b) <==> exists k :: 0 <= k <= |a| && k < |b| && a[..k] == b[..k] && (k == |a| || a[k] < b[k])
  {
    if b == "" {
    } else if a == "" || a[0] != b[0] {
      assert a[..0] == b[..0];
      forall k | 0 < k <= |a| && k < |b| ensures a[..k] != b[..k] {
        FirstDiffers(a, b, k);
      }
    } else {
      IdBeforeExactly(a[1..], b[1..]);
      if k :| 0 <= k <= |a[1..]| && k < |b[1..]| && a[1..][..k] == b[1..][..k] && (k == |a[1..]| || a[1..][k] < b[1..][k]) {
        assert a[..k + 1] == [a[0]] + a[1..][..k] && b[..k + 1] == [b[0]] + b[1..][..k];
        assert k + 1 == |a| || a[k + 1] < b[k + 1];
      }
      if k :| 0 <= k <= |a| && k < |b| && a[..k] == b[..k] && (k == |a| || a[k] < b[k]) {
        assert k > 0 && a[1..][..k - 1] == a[..k][1..] && b[1..][..k - 1] == b[..k][1..];
        assert k - 1 == |a[1..]| || a[1..][k - 1] < b[1..][k - 1];
      }
    }
  }

  /**
   * In order means: lower tiers first, within a tier better evaluations, among equals the cheaper of two
   * known costs, and otherwise the identifiers do not run backwards.
   */
  lemma InOrderMeans(s: seq<Model>)
    ensures InOrder(s) <==> forall i, j :: 0 <= i < j < |s| ==>
      || s[i].tier < s[j].tier
      || (s[i].tier == s[j].tier && s[i].evaluation > s[j].evaluation)
      || (s[i].tier == s[j].tier && s[i].evaluation == s[j].evaluation
          && (if s[i].cost.Some? && s[j].cost.Some? && s[i].cost.value != s[j].cost.value then s[i].cost.value < s[j].cost.value
              else !IdBefore(s[j].id, s[i].id)))
  {
  }

  /** Registries hold every model id once. */
  predicate DistinctIds(s: seq<Model>) {
    forall i, j :: 0 <= i < j < |s| ==> s[i].id != s[j].id
  }

  /** A circle leaves no arrangement in order, whichever sort produced it. */
  lemma OrderedIsCircleFree(s: seq<Model>, t: seq<Model>)
    requires DistinctIds(s) && multiset(t) == multiset(s) && InOrder(t)
    ensures CircleFree(s)
  {
    forall p, q, r | p in s && q in s && r in s ensures !Circle(p, q, r) {
      assert p in multiset(t) && q in multiset(t) && r in multiset(t);
      var i :| 0 <= i < |t| && t[i] == p;
      var j :| 0 <= j < |t| && t[j] == q;
      var k :| 0 <= k < |t| && t[k] == r;
      hide Circle, Before;
      CircleTurns(p, q, r);
      NoTurns(t, i, j, k);
    }
  }

  lemma CircleTurns(p: Model, q: Model, r: Model)
    requires r.cost.None? ==> (p.cost.Some? ==> p.id != r.id) && (q.cost.Some? ==> q.id != r.id)
    ensures Circle(p, q, r) ==> Before(p, q) && Before(q, r) && Before(r, p)
  {
    IdBeforeTotal(p.id, r.id);
    IdBeforeTotal(q.id, r.id);
  }

  lemma NoTurns(s: seq<Model>, i: int, j: int, k: int)
    requires InOrder(s) && 0 <= i < |s| && 0 <= j < |s| && 0 <= k < |s|
    ensures !(Before(s[i], s[j]) && Before(s[j], s[k]) && Before(s[k], s[i]))
  {
    BeforeAsymmetric(s[i], s[j]);
    BeforeAsymmetric(s[j], s[k]);
    BeforeAsymmetric(s[k], s[i]);
  }

  /** The sort puts the candidates in order exactly when no circle exists among them. */
  lemma InOrderExactly(s: seq<Model>)
    requires DistinctIds(s)
    ensures InOrder(StableSorted(s)) <==> CircleFree(s)
  {
    hide CircleFree, InOrder, StableSorted;
    SortedContents(s);
    if InOrder(StableSorted(s)) {
      OrderedIsCircleFree(s, StableSorted(s));
    }
    if CircleFree(s) {
      SortedInOrder(s);
    }
  }

  lemma {:induction false} EligibleDistinct(m: Mission, t: Task, available: map<string, bool>, models: seq<Model>)
    requires DistinctIds(models)
    ensures DistinctIds(EligibleModels(m, t, available, models))
    ensures forall x :: x in EligibleModels(m, t, available, models) ==> x in models
  {
    hide Eligible;
    if models != [] {
      var front := models[..|models| - 1];
      EligibleDistinct(m, t, available, front);
      var kept := EligibleModels(m, t, available, front);
      forall i | 0 <= i < |kept| ensures kept[i].id != models[|models| - 1].id {
        assert kept[i] in front;
      }
    }
  }

  /**
   * With a known and an unknown cost in one group the comparator runs in a circle,
   * so three models exist that no order satisfies.
   */
  lemma MixedCostsHaveNoOrder() returns (a: Model, b: Model, c: Model)
    ensures Before(a, c) && Before(c, b) && Before(b, a)
    ensures forall s | multiset(s) == multiset{a, b, c} :: !InOrder(s)
  {
    a := Model("z", "p", "x", [], 1, 2, Some(1.0), true, true, [], 0.0);
    b := Model("m", "p", "x", [], 1, 2, None, true, true, [], 0.0);
    c := Model("a", "p", "x", [], 1, 2, Some(2.0), true, true, [], 0.0);
    forall s | multiset(s) == multiset{a, b, c} ensures !InOrder(s) {
      assert |s| == |multiset(s)| == 3;
      assert s == [s[0], s[1], s[2]];
      assert s[0] in multiset(s) && s[1] in multiset(s) && s[2] in multiset(s);
      assert multiset(s)[a] == 1 && multiset(s)[b] == 1 && multiset(s)[c] == 1;
    }
  }

  lemma CandidateFacts(out: seq<Model>)
    ensures multiset(StableSorted(out)) == multiset(out) && |StableSorted(out)| == |out|
    ensures Ranked(StableSorted(out)) && (CircleFree(out) ==> InOrder(StableSorted(out)))
    ensures DistinctIds(out) && InOrder(StableSorted(out)) ==> CircleFree(out)
    ensures forall x :: x in StableSorted(out) ==> x in out
  {
    hide StableSorted, Ranked, InOrder, CircleFree;
    SortedContents(out);
    SortedRanked(out);
    if CircleFree(out) {
      SortedInOrder(out);
    }
    if DistinctIds(out) {
      InOrderExactly(out);
    }
    assert |StableSorted(out)| == |multiset(StableSorted(out))| == |multiset(out)| == |out|;
    forall x | x in StableSorted(out) ensures x in out {
      assert x in multiset(StableSorted(out));
    }
  }

  method CollectEligible(m: Mission, t: Task, available: map<string, bool>) returns (out: seq<Model>)
    ensures out == EligibleModels(m, t, available, m.models)
    ensures forall x :: x in out ==> x in m.models && Eligible(m, t, available, x)
    ensures out == [] ==> forall x :: x in m.models ==> !Eligible(m, t, available, x)
  {
    hide Eligible;
    out := [];
    for k := 0 to |m.models|
      invariant out == EligibleModels(m, t, available, m.models[..k])
      invariant forall x :: x in out ==> x in m.models && Eligible(m, t, available, x)
      invariant out == [] ==> forall j :: 0 <= j < k ==> !Eligible(m, t, available, m.models[j])
    {
      assert m.models[..k + 1][..k] == m.models[..k];
      if Eligible(m, t, available, m.models[k]) {
        out := out + [m.models[k]];
      }
    }
    assert m.models[..|m.models|] == m.models;
  }

  datatype Routing = BudgetExceeded | StrictBudget | NoExecutor | Candidates(models: seq<Model>)

  /** The candidates for one task: exactly the eligible models, best tier and evaluation first. */
  method Route(m: Mission, t: Task, available: map<string, bool>) returns (r: Routing)
    ensures r.BudgetExceeded? <==> |m.executions| >= m.budget.maxExecutions
    ensures r.StrictBudget? <==> |m.executions| < m.budget.maxExecutions && (m.budget.maxCost.Some? || m.budget.maxTokens > 0)
    ensures r.NoExecutor? ==> forall x :: x in m.models ==> !Eligible(m, t, available, x)
    ensures r.Candidates? ==> r.models != [] && Ranked(r.models)
    ensures r.Candidates? ==> multiset(r.models) == multiset(EligibleModels(m, t, available, m.models))
    ensures r.Candidates? ==> forall x :: x in r.models ==> x in m.models && Eligible(m, t, available, x)
    ensures r.Candidates? && CircleFree(EligibleModels(m, t, available, m.models)) ==> InOrder(r.models)
    ensures r.Candidates? && DistinctIds(m.models) && InOrder(r.models) ==> CircleFree(EligibleModels(m, t, available, m.models))
  {
    hide Eligible, StableSorted, Ranked, InOrder, CircleFree;
    if DistinctIds(m.models) {
      EligibleDistinct(m, t, available, m.models);
    }
    if |m.executions| >= m.budget.maxExecutions {
      return BudgetExceeded;
    }
    if m.budget.maxCost.Some? || m.budget.maxTokens > 0 {
      return StrictBudget;
    }
    hide EligibleModels;
    var out := CollectEligible(m, t, available);
    CandidateFacts(out);
    if out == [] {
      return NoExecutor;
    }
    r := Candidates(StableSorted(out));
  }
}
