/** The mission table under compare-and-swap, shared by any number of callers (internal/team/store.go). */
module MissionStore {
  import opened Team
  import opened Scheduler
  import opened MissionSteps
  import opened Sequences

  /** A caller's own copy of a mission and the revision it was read or saved at. */
  datatype Copy = Copy(m: Mission, revision: nat)

  lemma RunExtended(saved: seq<Mission>, steps: seq<Step>, s: Step)
    requires Run(saved, steps) && Enabled(saved[|saved| - 1], s)
    ensures Run(saved + [Next(saved[|saved| - 1], s)], steps + [s])
  {
    hide Created, Enabled, Next;
  }

  lemma RunStarts(saved: seq<Mission>)
    requires |saved| == 1 && Created(saved[0])
    ensures Run(saved, [])
  {
    hide Created;
  }

  lemma RunNonEmpty(saved: seq<Mission>, steps: seq<Step>)
    requires Run(saved, steps)
    ensures |saved| == |steps| + 1
  {
    hide Created, Enabled, Next;
  }

  /** No step changes a model's tier, so the bound checked at creation holds in every saved version. */
  lemma {:induction false} RunTiers(saved: seq<Mission>, steps: seq<Step>, k: nat)
    requires Run(saved, steps) && k < |saved|
    ensures TiersOk(saved[k].models)
  {
    if k == 0 {
      hide PlanValid;
    } else {
      hide Created, Enabled, Next;
      RunTiers(saved, steps, k - 1);
      assert Enabled(saved[k - 1], steps[k - 1]) && saved[k - 1 + 1] == Next(saved[k - 1], steps[k - 1]);
      NextTiers(saved[k - 1], steps[k - 1]);
    }
  }

  lemma NextTiers(m: Mission, s: Step)
    requires Enabled(m, s) && TiersOk(m.models)
    ensures TiersOk(Next(m, s).models)
  {
    hide OwnedId, GoodTaskId, OutcomeOf, Rescheduled, IsReady, NeedsGate, Eligible, Conclusion, RepairLead;
  }

  /** The versions a script of steps saves on top of `m`: each step that is possible in its turn. */
  function Played(m: Mission, script: seq<Step>): seq<Mission>
    decreases |script|
  {
    if script == [] then []
    else if Enabled(m, script[0]) then [Next(m, script[0])] + Played(Next(m, script[0]), script[1..])
    else Played(m, script[1..])
  }

  /** One row: the stored body and its revision. The ghost fields remember how it came about. */
  class Missions {
    var revision: nat
    var body: Mission
    ghost var saved: seq<Mission>
    ghost var steps: seq<Step>

    ghost predicate Valid()
      reads this
    {
      revision == |saved| && Run(saved, steps) && saved != [] && body == saved[|saved| - 1]
    }

    /** `c` was read from, or saved as, the version of its revision. */
    ghost predicate At(c: Copy, m: Mission)
      reads this
    {
      0 < c.revision <= |saved| && saved[c.revision - 1] == m
    }

    constructor (m: Mission)
      requires Created(m)
      ensures Valid() && saved == [m] && revision == 1
    {
      revision, body, saved, steps := 1, m, [m], [];
      new;
      RunStarts(saved);
    }

    method Get() returns (c: Copy)
      requires Valid()
      ensures c == Copy(body, revision) && At(c, c.m)
    {
      hide Run;
      c := Copy(body, revision);
    }

    /**
     * Stores the caller's copy only when nobody saved since its revision. A success extends
     * the run by exactly the caller's step; a conflict or a database error changes nothing.
     */
    method Save(c: Copy, stored: bool, ghost base: Mission, ghost step: Step) returns (ok: bool, d: Copy)
      requires Valid() && At(c, base) && Enabled(base, step) && c.m == Next(base, step)
      modifies this
      ensures Valid() && old(saved) <= saved
      ensures ok <==> stored && c.revision == old(revision)
      ensures ok ==> saved == old(saved) + [c.m] && steps == old(steps) + [step] && d == Copy(c.m, c.revision + 1) && At(d, c.m)
      ensures !ok ==> d == c && saved == old(saved) && steps == old(steps) && body == old(body) && revision == old(revision)
    {
      hide Run, Enabled, Next;
      ok, d := stored && c.revision == revision, c;
      if ok {
        RunNonEmpty(saved, steps);
        RunExtended(saved, steps, step);
        d := Copy(c.m, c.revision + 1);
        revision, body := d.revision, c.m;
        saved, steps := saved + [c.m], steps + [step];
      }
    }

    /** What other callers manage to save meanwhile: each of their steps succeeds in turn. */
    method Others(script: seq<Step>)
      requires Valid()
      modifies this
      ensures Valid() && old(saved) <= saved
      ensures script == [] ==> saved == old(saved) && steps == old(steps)
      ensures saved == old(saved) + Played(old(body), script)
    {
      hide Run, Enabled, Next;
      assert script[0..] == script;
      for k := 0 to |script|
        invariant Valid() && old(saved) <= saved
        invariant k == 0 ==> saved == old(saved) && steps == old(steps)
        invariant saved + Played(body, script[k..]) == old(saved) + Played(old(body), script)
      {
        assert script[k..][0] == script[k] && script[k..][1..] == script[k + 1..];
        if Enabled(body, script[k]) {
          RunNonEmpty(saved, steps);
          RunExtended(saved, steps, script[k]);
          var next := Next(body, script[k]);
          Associative(saved, [next], Played(next, script[k + 1..]));
          revision, body := revision + 1, next;
          saved, steps := saved + [next], steps + [script[k]];
        }
      }
    }
  }
}
