/**
 * Provider setup and connection tests: slow tests run without the lock while setup goes on
 * (internal/app/product.go, internal/app/ai_providers.go, internal/app/agent_adapters.go).
 */
module Providers {

  /** A saved configuration; every save gets a stamp of its own. */
  datatype Config = Config(body: string, stamp: nat)

  datatype Key = Api(id: string) | Cli(adapter: string)

  datatype Model = Model(provider: string, name: string, traits: string, transport: Key)

  /** A registry entry: the verified digest is empty until a test passes. */
  datatype Entry = Entry(model: Model, roles: seq<string>, digest: string, failed: bool)

  /** What a digest is taken of. */
  datatype Subject = Subject(model: Model, roles: seq<string>, config: Config)

  type Digest = Subject -> string

  ghost predicate DigestOk(digest: Digest) {
    && (forall a, b :: digest(a) == digest(b) ==> a == b)
    && (forall a :: digest(a) != "")
  }

  function SubjectOf(e: Entry, c: Config): Subject {
    Subject(e.model, e.roles, c)
  }

  /** What a test captured under the lock before its request. */
  datatype Snapshot = Snapshot(entry: Entry, config: Config, revision: nat)

  datatype Setup = Setup(revision: nat, clock: nat, registry: seq<Entry>, configs: map<Key, Config>)

  /** A test in flight, and where the counters stood when it began. */
  datatype Probe = Probe(snapshot: Snapshot, changes: nat, clock: nat)

  /** A test that passed, of exactly this subject. */
  datatype Test = Test(subject: Subject, changes: nat, clock: nat)

  /** Completed setup changes by provider, and the tests that passed. */
  datatype Past = Past(changes: map<string, nat>, passed: seq<Test>)

  datatype World = World(setup: Setup, probes: map<nat, Probe>, past: Past)

  /** How far saving a configuration got: not at all, saved without clearing verifications, or all the way. */
  datatype Saving = Refused | Partial | Done

  datatype Action =
    | Configure(id: string, body: string, saving: Saving)
    | DeleteConfig(key: Key, deleted: bool)
    | ConfigureAdapter(adapter: string, body: string, saved: bool)
    | Register(entry: Entry, body: string, saving: Saving, registered: bool)
    | Revoke(id: string, deleted: bool, saved: bool)
    | Resume(id: string, resumed: bool)
    | Begin(probe: nat, id: string)
    | End(probe: nat, passed: bool, saved: bool)

  // ---------- the pieces ----------

  function Cleared(e: Entry): Entry {
    e.(digest := "", failed := false)
  }

  function Invalidated(registry: seq<Entry>, id: string): (r: seq<Entry>)
    ensures |r| == |registry|
    ensures forall k :: 0 <= k < |registry| ==> r[k] == if registry[k].model.provider == id then Cleared(registry[k]) else registry[k]
  {
    seq(|registry|, k requires 0 <= k < |registry| => if registry[k].model.provider == id then Cleared(registry[k]) else registry[k])
  }

  function SavedConfig(s: Setup, key: Key, body: string): Setup {
    s.(configs := s.configs[key := Config(body, s.clock)], clock := s.clock + 1)
  }

  function Bumped(s: Setup): Setup {
    s.(revision := s.revision + 1)
  }

  /** The entry of a provider; the last one counts. */
  function Find(registry: seq<Entry>, id: string): (r: int)
    ensures -1 <= r < |registry|
    ensures r >= 0 ==> registry[r].model.provider == id
    ensures forall k :: r < k < |registry| ==> registry[k].model.provider != id
  {
    if registry == [] then -1
    else if registry[|registry| - 1].model.provider == id then |registry| - 1
    else Find(registry[..|registry| - 1], id)
  }

  /** Replaces every entry of the provider, or adds one. */
  function Registered(registry: seq<Entry>, e: Entry): seq<Entry> {
    if Find(registry, e.model.provider) < 0 then registry + [e]
    else seq(|registry|, k requires 0 <= k < |registry| => if registry[k].model.provider == e.model.provider then e else registry[k])
  }

  function WithoutProvider(registry: seq<Entry>, id: string): (r: seq<Entry>)
    ensures forall e :: e in r <==> e in registry && e.model.provider != id
  {
    if registry == [] then []
    else WithoutProvider(registry[..|registry| - 1], id) + if registry[|registry| - 1].model.provider == id then [] else [registry[|registry| - 1]]
  }

  function Changes(past: Past, id: string): nat {
    if id in past.changes then past.changes[id] else 0
  }

  function Changed(past: Past, id: string): Past {
    past.(changes := past.changes[id := Changes(past, id) + 1])
  }

  /** What a test or its end reads: the provider's entry and the configuration behind it. */
  predicate Captures(s: Setup, id: string) {
    Find(s.registry, id) >= 0 && s.registry[Find(s.registry, id)].model.transport in s.configs
  }

  function Captured(s: Setup, id: string): Snapshot
    requires Captures(s, id)
  {
    var e := s.registry[Find(s.registry, id)];
    Snapshot(e, s.configs[e.model.transport], s.revision)
  }

  /** A late result counts only when nothing was set up meanwhile and the same subject is still configured. */
  predicate StillCurrent(digest: Digest, s: Setup, sn: Snapshot) {
    var id := sn.entry.model.provider;
    && s.revision == sn.revision && Captures(s, id)
    && digest(SubjectOf(sn.entry, sn.config)) == digest(SubjectOf(Captured(s, id).entry, Captured(s, id).config))
  }

  function Judged(digest: Digest, e: Entry, sn: Snapshot, passed: bool): Entry {
    if passed then e.(digest := digest(SubjectOf(sn.entry, sn.config)), failed := false) else e.(digest := "", failed := true)
  }

  function Configured(w: World, id: string, body: string, saving: Saving): World {
    match saving
    case Refused => w
    case Partial => w.(setup := SavedConfig(w.setup, Api(id), body))
    case Done =>
      var s := SavedConfig(w.setup, Api(id), body);
      World(s.(registry := Invalidated(s.registry, id)), w.probes, Changed(w.past, id))
  }

  /** The entry registration builds: never verified, and an API entry uses the configuration named after its provider. */
  predicate NewEntry(e: Entry) {
    e.digest == "" && !e.failed && (e.model.transport.Api? ==> e.model.transport.id == e.model.provider)
  }

  function Registering(w: World, e: Entry, body: string, saving: Saving, registered: bool): World {
    var id := e.model.provider;
    var c := if e.model.transport.Api? then Configured(w, id, body, saving)
             else if saving.Refused? then w
             else w.(setup := SavedConfig(w.setup, e.model.transport, body));
    if !saving.Done? || !registered then c
    else World(c.setup.(registry := Registered(c.setup.registry, e)), c.probes, Changed(c.past, id))
  }

  function Ended(digest: Digest, w: World, k: nat, passed: bool, saved: bool): World
    requires k in w.probes
  {
    var p := w.probes[k];
    var sn, id := p.snapshot, p.snapshot.entry.model.provider;
    var left := w.probes - {k};
    if !saved || !StillCurrent(digest, w.setup, sn) then w.(probes := left)
    else
      var i := Find(w.setup.registry, id);
      World(
        w.setup.(registry := w.setup.registry[i := Judged(digest, w.setup.registry[i], sn, passed)]), left,
        if passed then w.past.(passed := w.past.passed + [Test(SubjectOf(sn.entry, sn.config), p.changes, p.clock)]) else w.past)
  }

  function Next(digest: Digest, w: World, a: Action): World {
    match a
    case Configure(id, body, saving) => Configured(w.(setup := Bumped(w.setup)), id, body, saving)
    case DeleteConfig(key, deleted) =>
      var s := Bumped(w.setup);
      w.(setup := if deleted then s.(configs := s.configs - {key}) else s)
    case ConfigureAdapter(adapter, body, saved) =>
      var s := Bumped(w.setup);
      w.(setup := if saved then SavedConfig(s, Cli(adapter), body) else s)
    case Register(e, body, saving, registered) =>
      if NewEntry(e) then Registering(w.(setup := Bumped(w.setup)), e, body, saving, registered) else w.(setup := Bumped(w.setup))
    case Revoke(id, deleted, saved) =>
      var s := Bumped(w.setup);
      var t := if deleted then s.(configs := s.configs - {Api(id)}) else s;
      if saved then World(t.(registry := WithoutProvider(t.registry, id)), w.probes, Changed(w.past, id)) else w.(setup := t)
    case Resume(id, resumed) =>
      var s := Bumped(w.setup);
      if resumed then World(s.(registry := Invalidated(s.registry, id)), w.probes, Changed(w.past, id)) else w.(setup := s)
    case Begin(k, id) =>
      if k in w.probes || !Captures(w.setup, id) then w
      else w.(probes := w.probes[k := Probe(Captured(w.setup, id), Changes(w.past, id), w.setup.clock)])
    case End(k, passed, saved) => if k in w.probes then Ended(digest, w, k, passed, saved) else w
  }

  const START := World(Setup(0, 0, [], map[]), map[], Past(map[], []))

  function Replay(digest: Digest, actions: seq<Action>): World {
    if actions == [] then START else Next(digest, Replay(digest, actions[..|actions| - 1]), actions[|actions| - 1])
  }

  // ---------- what every interleaving keeps ----------

  predicate UniqueProviders(registry: seq<Entry>) {
    forall i, j :: 0 <= i < j < |registry| ==> registry[i].model.provider != registry[j].model.provider
  }

  predicate StampsOk(s: Setup) {
    forall key :: key in s.configs ==> s.configs[key].stamp < s.clock
  }

  /** A passed test of this entry, with no completed change of its provider since the test began. */
  predicate Proves(digest: Digest, t: Test, e: Entry, changes: nat) {
    && t.subject.model == e.model && t.subject.roles == e.roles && digest(t.subject) == e.digest
    && t.changes == changes && t.subject.config.stamp < t.clock
  }

  predicate HasProof(digest: Digest, past: Past, e: Entry) {
    exists k :: 0 <= k < |past.passed| && Proves(digest, past.passed[k], e, Changes(past, e.model.provider))
  }

  predicate VerifiedOk(digest: Digest, w: World) {
    forall k :: 0 <= k < |w.setup.registry| && w.setup.registry[k].digest != "" ==> HasProof(digest, w.past, w.setup.registry[k])
  }

  /** A test in flight began at a revision no later than now, and nothing completed since if it is the same. */
  predicate ProbeOk(w: World, p: Probe) {
    && p.snapshot.revision <= w.setup.revision && p.clock <= w.setup.clock && p.snapshot.config.stamp < p.clock
    && (p.snapshot.revision == w.setup.revision ==> p.changes == Changes(w.past, p.snapshot.entry.model.provider))
  }

  predicate ProbesOk(w: World) {
    forall k :: k in w.probes ==> ProbeOk(w, w.probes[k])
  }

  predicate Inv(digest: Digest, w: World) {
    UniqueProviders(w.setup.registry) && StampsOk(w.setup) && VerifiedOk(digest, w) && ProbesOk(w)
  }

  /** Proofs survive as long as their provider's change count does. */
  lemma ProofKept(digest: Digest, past: Past, more: Past, e: Entry)
    requires HasProof(digest, past, e) && past.passed <= more.passed && Changes(more, e.model.provider) == Changes(past, e.model.provider)
    ensures HasProof(digest, more, e)
  {
    var k :| 0 <= k < |past.passed| && Proves(digest, past.passed[k], e, Changes(past, e.model.provider));
    assert more.passed[k] == past.passed[k];
  }

  /** A setup change keeps the invariant when it bumps the revision and only clears or drops verifications of changed providers. */
  lemma SetupKeeps(digest: Digest, w: World, n: World)
    requires Inv(digest, w) && n.probes == w.probes && n.past.passed == w.past.passed
    requires n.setup.revision == w.setup.revision + 1 && n.setup.clock >= w.setup.clock && StampsOk(n.setup)
    requires UniqueProviders(n.setup.registry)
    requires forall k :: 0 <= k < |n.setup.registry| && n.setup.registry[k].digest != "" ==> Unchanged(w, n, n.setup.registry[k])
    ensures Inv(digest, n)
  {
    hide Proves, HasProof;
    forall k | 0 <= k < |n.setup.registry| && n.setup.registry[k].digest != "" ensures HasProof(digest, n.past, n.setup.registry[k]) {
      var e := n.setup.registry[k];
      var j :| 0 <= j < |w.setup.registry| && w.setup.registry[j] == e;
      ProofKept(digest, w.past, n.past, e);
    }
  }

  /** Still registered as it was, with its provider's change count as it was. */
  predicate Unchanged(w: World, n: World, e: Entry) {
    e in w.setup.registry && Changes(n.past, e.model.provider) == Changes(w.past, e.model.provider)
  }

  lemma ConfiguredKeeps(digest: Digest, w: World, b: World, id: string, body: string, saving: Saving)
    requires Inv(digest, w) && b == w.(setup := Bumped(w.setup))
    ensures Inv(digest, Configured(b, id, body, saving))
  {
    hide HasProof, ProbeOk;
    SetupKeeps(digest, w, Configured(b, id, body, saving));
  }

  lemma RegisteredUnique(registry: seq<Entry>, e: Entry)
    requires UniqueProviders(registry)
    ensures UniqueProviders(Registered(registry, e))
    ensures forall x :: x in Registered(registry, e) ==> x == e || (x in registry && x.model.provider != e.model.provider)
  {
  }

  lemma {:induction false} WithoutUnique(registry: seq<Entry>, id: string)
    requires UniqueProviders(registry)
    ensures UniqueProviders(WithoutProvider(registry, id))
  {
    if registry != [] {
      var front := registry[..|registry| - 1];
      WithoutUnique(front, id);
      forall e | e in WithoutProvider(front, id) ensures e.model.provider != registry[|registry| - 1].model.provider {
      }
    }
  }

  lemma RegisteringKeeps(digest: Digest, w: World, b: World, e: Entry, body: string, saving: Saving, registered: bool)
    requires Inv(digest, w) && b == w.(setup := Bumped(w.setup)) && NewEntry(e)
    ensures Inv(digest, Registering(b, e, body, saving, registered))
  {
    hide HasProof, ProbeOk, Registered;
    var n := Registering(b, e, body, saving, registered);
    if saving.Done? && registered {
      var c := Registering(b, e, body, saving, false);
      RegisteredUnique(c.setup.registry, e);
      SetupKeeps(digest, w, n);
    } else {
      SetupKeeps(digest, w, n);
    }
  }

  lemma EndedKeeps(digest: Digest, w: World, k: nat, passed: bool, saved: bool)
    requires DigestOk(digest) && Inv(digest, w) && k in w.probes
    ensures Inv(digest, Ended(digest, w, k, passed, saved))
  {
    var p := w.probes[k];
    var sn, id := p.snapshot, p.snapshot.entry.model.provider;
    var n := Ended(digest, w, k, passed, saved);
    if saved && StillCurrent(digest, w.setup, sn) {
      var i := Find(w.setup.registry, id);
      assert ProbeOk(w, p);
      hide HasProof, Proves;
      forall j | 0 <= j < |n.setup.registry| && n.setup.registry[j].digest != "" ensures HasProof(digest, n.past, n.setup.registry[j]) {
        if j == i {
          NewProof(digest, w, p, n.setup.registry[i], n.past);
        } else {
          ProofKept(digest, w.past, n.past, n.setup.registry[j]);
        }
      }
    }
  }

  lemma NewProof(digest: Digest, w: World, p: Probe, e: Entry, past: Past)
    requires DigestOk(digest) && ProbeOk(w, p) && StillCurrent(digest, w.setup, p.snapshot)
    requires e == Judged(digest, w.setup.registry[Find(w.setup.registry, p.snapshot.entry.model.provider)], p.snapshot, true)
    requires past == w.past.(passed := w.past.passed + [Test(SubjectOf(p.snapshot.entry, p.snapshot.config), p.changes, p.clock)])
    ensures HasProof(digest, past, e)
  {
    assert Proves(digest, past.passed[|w.past.passed|], e, Changes(past, e.model.provider));
  }

  lemma BeginKeeps(digest: Digest, w: World, k: nat, id: string)
    requires Inv(digest, w)
    ensures Inv(digest, Next(digest, w, Begin(k, id)))
  {
    hide HasProof;
  }

  lemma NextKeeps(digest: Digest, w: World, a: Action)
    requires DigestOk(digest) && Inv(digest, w)
    ensures Inv(digest, Next(digest, w, a))
  {
    var b := w.(setup := Bumped(w.setup));
    match a
    case Configure(id, body, saving) => ConfiguredKeeps(digest, w, b, id, body, saving);
    case Register(e, body, saving, registered) =>
      hide HasProof, ProbeOk;
      if NewEntry(e) {
        RegisteringKeeps(digest, w, b, e, body, saving, registered);
      } else {
        SetupKeeps(digest, w, b);
      }
    case Revoke(id, deleted, saved) =>
      hide HasProof, ProbeOk, WithoutProvider;
      WithoutUnique(w.setup.registry, id);
      SetupKeeps(digest, w, Next(digest, w, a));
    case Begin(k, id) => BeginKeeps(digest, w, k, id);
    case End(k, passed, saved) =>
      if k in w.probes {
        EndedKeeps(digest, w, k, passed, saved);
      }
    case _ =>
      hide HasProof, ProbeOk;
      SetupKeeps(digest, w, Next(digest, w, a));
  }

  lemma {:induction false} AlwaysInv(digest: Digest, actions: seq<Action>)
    requires DigestOk(digest)
    ensures Inv(digest, Replay(digest, actions))
  {
    if actions != [] {
      hide Inv, Next;
      AlwaysInv(digest, actions[..|actions| - 1]);
      NextKeeps(digest, Replay(digest, actions[..|actions| - 1]), actions[|actions| - 1]);
    }
  }

  // ---------- ready means tested ----------

  /** The part of being shown ready that rests on verification. */
  predicate ShownReady(digest: Digest, s: Setup, id: string) {
    && Captures(s, id)
    && (var c := Captured(s, id);
        !c.entry.failed && c.entry.model.name != "" && c.entry.digest == digest(SubjectOf(c.entry, c.config)))
  }

  /**
   * In every interleaving of setup changes and slow tests, a provider shown ready has passed a test of
   * exactly its present model, roles and configuration; no setup change of it completed since that test
   * began, and its configuration was last saved before it, even if it was changed away and back.
   */
  lemma ReadyWasTested(digest: Digest, actions: seq<Action>, id: string) returns (k: nat)
    requires DigestOk(digest) && ShownReady(digest, Replay(digest, actions).setup, id)
    ensures var w := Replay(digest, actions);
      var c := Captured(w.setup, id);
      && k < |w.past.passed| && w.past.passed[k].subject == SubjectOf(c.entry, c.config)
      && w.past.passed[k].changes == Changes(w.past, id) && c.config.stamp < w.past.passed[k].clock
  {
    hide Replay, UniqueProviders, StampsOk, ProbesOk;
    AlwaysInv(digest, actions);
    var w := Replay(digest, actions);
    var c := Captured(w.setup, id);
    assert HasProof(digest, w.past, c.entry);
    k :| 0 <= k < |w.past.passed| && Proves(digest, w.past.passed[k], c.entry, Changes(w.past, id));
  }

  predicate IsSetupChange(a: Action) {
    !a.Begin? && !a.End?
  }

  lemma RevisionStep(digest: Digest, w: World, a: Action)
    ensures Next(digest, w, a).setup.revision == w.setup.revision + if IsSetupChange(a) then 1 else 0
  {
  }

  lemma ProbeStep(digest: Digest, w: World, a: Action, k: nat)
    requires k in w.probes && !(a.End? && a.probe == k)
    ensures k in Next(digest, w, a).probes && Next(digest, w, a).probes[k] == w.probes[k]
  {
  }

  /** A test in flight keeps what it captured, and falls behind with the first setup change. */
  lemma {:induction false} FlightKept(digest: Digest, actions: seq<Action>, n: nat, j: nat, k: nat)
    requires n < j <= |actions| && k in Replay(digest, actions[..n + 1]).probes
    requires forall q :: n < q < j ==> !(actions[q].End? && actions[q].probe == k)
    ensures var w, v := Replay(digest, actions[..n + 1]), Replay(digest, actions[..j]);
      && k in v.probes && v.probes[k] == w.probes[k] && w.setup.revision <= v.setup.revision
      && ((exists p :: n < p < j && IsSetupChange(actions[p])) ==> w.setup.revision < v.setup.revision)
    decreases j
  {
    hide Next, IsSetupChange;
    if j > n + 1 {
      FlightKept(digest, actions, n, j - 1, k);
      var v := Replay(digest, actions[..j - 1]);
      assert actions[..j][..j - 1] == actions[..j - 1];
      ProbeStep(digest, v, actions[j - 1], k);
      RevisionStep(digest, v, actions[j - 1]);
    }
  }

  lemma StaleIgnored(digest: Digest, w: World, k: nat, passed: bool, saved: bool)
    requires k in w.probes && w.probes[k].snapshot.revision != w.setup.revision
    ensures Next(digest, w, End(k, passed, saved)) == w.(probes := w.probes - {k})
  {
  }

  /**
   * A result that arrives after any setup change made since its test began, of any provider and even one
   * undone again, decides nothing: neither the setup nor the record of passed tests changes.
   */
  lemma LateResultIgnored(digest: Digest, actions: seq<Action>, n: nat, p: nat, k: nat, passed: bool, saved: bool)
    requires n < p < |actions| && actions[n].Begin? && actions[n].probe == k && IsSetupChange(actions[p])
    requires var w := Replay(digest, actions[..n]); k !in w.probes && Captures(w.setup, actions[n].id)
    requires forall q :: n < q < |actions| ==> !(actions[q].End? && actions[q].probe == k)
    ensures var w := Replay(digest, actions);
      var v := Next(digest, w, End(k, passed, saved));
      v.setup == w.setup && v.past == w.past
  {
    var start := Replay(digest, actions[..n]);
    assert actions[..n + 1][..n] == actions[..n] && actions[..|actions|] == actions;
    assert Next(digest, start, actions[n]).probes[k].snapshot.revision == start.setup.revision
      && Next(digest, start, actions[n]).setup == start.setup;
    hide Next, IsSetupChange, Captures;
    FlightKept(digest, actions, n, |actions|, k);
    StaleIgnored(digest, Replay(digest, actions), k, passed, saved);
  }

  // ---------- dispatching with what was approved ----------

  /** A mission's binding, with the configuration it was approved on. */
  datatype Binding = Binding(entry: Entry, approved: Config)

  predicate ApprovedOk(digest: Digest, b: Binding) {
    b.entry.digest == digest(SubjectOf(b.entry, b.approved))
  }

  /** An entry that still carries the approved verification, for the configuration at hand. */
  predicate Matches(digest: Digest, b: Entry, e: Entry, transport: Key, model: string, config: Config) {
    && e.model.provider == b.model.provider && e.model.transport == transport && e.model.name == model
    && !e.failed && e.digest == b.digest && e.digest == digest(SubjectOf(e, config))
  }

  predicate Permits(digest: Digest, s: Setup, b: Entry, transport: Key, model: string, role: string, config: Config) {
    && b.model.transport == transport && b.model.name == model && role in b.roles && b.digest != ""
    && exists i :: 0 <= i < |s.registry| && Matches(digest, b, s.registry[i], transport, model, config)
  }

  method ValidatePinnedDispatch(digest: Digest, s: Setup, bindings: seq<Binding>, transport: Key, model: string, role: string, config: Config)
    returns (ok: bool)
    ensures ok <==> exists k :: 0 <= k < |bindings| && Permits(digest, s, bindings[k].entry, transport, model, role, config)
  {
    hide Matches;
    for k := 0 to |bindings|
      invariant forall j :: 0 <= j < k ==> !Permits(digest, s, bindings[j].entry, transport, model, role, config)
    {
      var b := bindings[k].entry;
      if b.model.transport != transport || b.model.name != model || role !in b.roles || b.digest == "" {
        continue;
      }
      for i := 0 to |s.registry|
        invariant forall j :: 0 <= j < i ==> !Matches(digest, b, s.registry[j], transport, model, config)
      {
        if Matches(digest, b, s.registry[i], transport, model, config) {
          return true;
        }
      }
    }
    ok := false;
  }

  /** A guided mission dispatches only on the configuration approved at its creation, which passed its test. */
  lemma DispatchedAsApproved(digest: Digest, actions: seq<Action>, b: Binding, transport: Key, model: string, role: string, config: Config)
    returns (k: nat)
    requires DigestOk(digest) && ApprovedOk(digest, b)
    requires Permits(digest, Replay(digest, actions).setup, b.entry, transport, model, role, config)
    ensures config == b.approved && role in b.entry.roles
    ensures var w := Replay(digest, actions);
      k < |w.past.passed| && w.past.passed[k].subject == SubjectOf(b.entry, config)
        && w.past.passed[k].changes == Changes(w.past, b.entry.model.provider)
  {
    hide Replay, UniqueProviders, StampsOk, ProbesOk;
    AlwaysInv(digest, actions);
    var w := Replay(digest, actions);
    var i :| 0 <= i < |w.setup.registry| && Matches(digest, b.entry, w.setup.registry[i], transport, model, config);
    var e := w.setup.registry[i];
    assert HasProof(digest, w.past, e);
    k :| 0 <= k < |w.past.passed| && Proves(digest, w.past.passed[k], e, Changes(w.past, e.model.provider));
  }

  // ---------- the calls, field by field ----------

  /** Whether entry `i` is the one a provider's calls look at: its last. */
  predicate CountsFor(s: Setup, i: int, id: string) {
    0 <= i < |s.registry| && s.registry[i].model.provider == id && forall j :: i < j < |s.registry| ==> s.registry[j].model.provider != id
  }

  lemma FindExactly(s: Setup, i: int, id: string)
    ensures CountsFor(s, i, id) <==> i >= 0 && i == Find(s.registry, id)
  {
  }

  /**
   * Exactly when a result is applied, and what it does: the test is in flight, the result was stored,
   * nothing was set up since its snapshot, and the provider's entry and configuration digest to the
   * same; then that entry alone carries the digest, or none and the failure.
   */
  lemma EndsExactly(digest: Digest, w: World, k: nat, passed: bool, saved: bool, i: nat)
    requires k in w.probes && CountsFor(w.setup, i, w.probes[k].snapshot.entry.model.provider)
    ensures var sn, n := w.probes[k].snapshot, Next(digest, w, End(k, passed, saved));
      var e := w.setup.registry[i];
      var tested := digest(Subject(sn.entry.model, sn.entry.roles, sn.config));
      && n.probes == w.probes - {k} && n.setup == w.setup.(registry := n.setup.registry)
      && if saved && w.setup.revision == sn.revision && e.model.transport in w.setup.configs
            && digest(Subject(e.model, e.roles, w.setup.configs[e.model.transport])) == tested
         then n.setup.registry == w.setup.registry[i := e.(digest := if passed then tested else "", failed := !passed)]
         else n.setup.registry == w.setup.registry
  {
    FindExactly(w.setup, i, w.probes[k].snapshot.entry.model.provider);
    hide Find;
  }

  /** Exactly what a provider needs to be shown ready, as far as verification goes. */
  lemma ShownExactly(digest: Digest, s: Setup, id: string)
    ensures ShownReady(digest, s, id) <==> exists i ::
      && CountsFor(s, i, id) && s.registry[i].model.transport in s.configs && !s.registry[i].failed && s.registry[i].model.name != ""
      && s.registry[i].digest == digest(Subject(s.registry[i].model, s.registry[i].roles, s.configs[s.registry[i].model.transport]))
  {
    var i := Find(s.registry, id);
    FindExactly(s, i, id);
    forall j | CountsFor(s, j, id) ensures j == i {
      FindExactly(s, j, id);
    }
    hide Find, CountsFor;
  }

  /** A failed test takes readiness away, whatever was verified before; digests are never empty. */
  lemma FailureUnverifies(digest: Digest, w: World, k: nat)
    requires DigestOk(digest) && k in w.probes && StillCurrent(digest, w.setup, w.probes[k].snapshot)
    ensures !ShownReady(digest, Next(digest, w, End(k, false, true)).setup, w.probes[k].snapshot.entry.model.provider)
  {
    var id := w.probes[k].snapshot.entry.model.provider;
    var i, n := Find(w.setup.registry, id), Next(digest, w, End(k, false, true)).setup;
    FindExactly(w.setup, i, id);
    EndsExactly(digest, w, k, false, true, i);
    ShownExactly(digest, n, id);
    hide Find, Next, ShownReady;
    assert n.registry[i].failed;
    forall j | CountsFor(n, j, id) ensures j == i {
    }
  }

  /** A completed change of configuration or an explicit resumption leaves no verdict about the provider, good or bad, and no other touched. */
  lemma ChangesUnverify(digest: Digest, w: World, a: Action, id: string, k: nat)
    requires (a.Configure? && a.id == id && a.saving.Done?) || (a.Resume? && a.id == id && a.resumed)
    requires k < |w.setup.registry|
    ensures var n := Next(digest, w, a).setup;
      && |n.registry| == |w.setup.registry| && n.revision == w.setup.revision + 1
      && n.registry[k] == if w.setup.registry[k].model.provider == id then w.setup.registry[k].(digest := "", failed := false) else w.setup.registry[k]
  {
  }

  /**
   * Exactly when a pinned dispatch is permitted: the approved binding is for this transport, model and
   * role and was verified, and some entry of its provider still carries that verification, unfailed, for
   * the configuration at hand.
   */
  lemma PermitsExactly(digest: Digest, s: Setup, b: Entry, transport: Key, model: string, role: string, config: Config)
    ensures Permits(digest, s, b, transport, model, role, config) <==>
      && b.model.transport == transport && b.model.name == model && role in b.roles && b.digest != ""
      && exists i :: 0 <= i < |s.registry|
           && s.registry[i].model.provider == b.model.provider && s.registry[i].model.transport == transport && s.registry[i].model.name == model
           && !s.registry[i].failed && s.registry[i].digest == b.digest
           && digest(Subject(s.registry[i].model, s.registry[i].roles, config)) == b.digest
  {
    if i :| 0 <= i < |s.registry| && Matches(digest, b, s.registry[i], transport, model, config) {
      assert !s.registry[i].failed;
    }
    if i :| 0 <= i < |s.registry|
           && s.registry[i].model.provider == b.model.provider && s.registry[i].model.transport == transport && s.registry[i].model.name == model
           && !s.registry[i].failed && s.registry[i].digest == b.digest
           && digest(Subject(s.registry[i].model, s.registry[i].roles, config)) == b.digest {
      assert Matches(digest, b, s.registry[i], transport, model, config);
    }
  }

  /** Registering replaces every entry of the provider by the new one, or adds it; revoking drops them; all other entries stay in place. */
  lemma RegistersExactly(registry: seq<Entry>, e: Entry, id: string)
    ensures forall x :: x in WithoutProvider(registry, id) <==> x in registry && x.model.provider != id
    ensures if exists k :: 0 <= k < |registry| && registry[k].model.provider == e.model.provider
            then |Registered(registry, e)| == |registry|
                 && forall k :: 0 <= k < |registry| ==> Registered(registry, e)[k] == if registry[k].model.provider == e.model.provider then e else registry[k]
            else Registered(registry, e) == registry + [e]
  {
  }
}
