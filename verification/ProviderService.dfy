/** The provider calls as they execute under the setup lock (internal/app/product.go, internal/app/ai_providers.go). */
module ProviderService {
  import Team
  import opened Providers

  class Product {
    const digest: Digest
    var revision: nat
    var clock: nat
    var registry: seq<Entry>
    var configs: map<Key, Config>

    ghost function Now(): Setup
      reads this
    {
      Setup(revision, clock, registry, configs)
    }

    constructor (digest: Digest)
      ensures this.digest == digest && Now() == START.setup
    {
      this.digest := digest;
      revision, clock, registry, configs := 0, 0, [], map[];
    }

    method SaveConfig(key: Key, body: string)
      modifies this`configs, this`clock
      ensures Now() == SavedConfig(old(Now()), key, body)
    {
      configs := configs[key := Config(body, clock)];
      clock := clock + 1;
    }

    /** Clears the verification of every entry of a provider, in place. */
    method Invalidate(id: string)
      modifies this`registry
      ensures registry == Invalidated(old(registry), id)
    {
      for k := 0 to |registry|
        invariant |registry| == |old(registry)|
        invariant forall j :: 0 <= j < k ==> registry[j] == Invalidated(old(registry), id)[j]
        invariant forall j :: k <= j < |registry| ==> registry[j] == old(registry)[j]
      {
        if registry[k].model.provider == id {
          registry := registry[k := registry[k].(digest := "", failed := false)];
        }
      }
    }

    /** Saves a provider's configuration; only a save that runs to its end clears the verifications. */
    method Configure(id: string, body: string, saving: Saving)
      modifies this
      ensures forall probes, past :: Now() == Next(digest, World(old(Now()), probes, past), Providers.Configure(id, body, saving)).setup
    {
      revision := revision + 1;
      if saving.Refused? {
        return;
      }
      SaveConfig(Api(id), body);
      if saving.Partial? {
        return;
      }
      Invalidate(id);
    }

    /** Saves the configuration behind a new entry, then the entry in place of any other of its provider. */
    method RegisterProduct(e: Entry, body: string, saving: Saving, registered: bool)
      requires NewEntry(e)
      modifies this
      ensures forall probes, past :: Now() == Next(digest, World(old(Now()), probes, past), Register(e, body, saving, registered)).setup
    {
      hide Registered;
      revision := revision + 1;
      if saving.Refused? {
        return;
      }
      SaveConfig(e.model.transport, body);
      if e.model.transport.Api? && saving.Done? {
        Invalidate(e.model.provider);
      }
      if saving.Partial? || !registered {
        return;
      }
      ReplaceEntry(e);
    }

    method ReplaceEntry(e: Entry)
      modifies this`registry
      ensures registry == Registered(old(registry), e)
    {
      var found := false;
      for k := 0 to |registry|
        invariant |registry| == |old(registry)|
        invariant found <==> exists j :: 0 <= j < k && old(registry)[j].model.provider == e.model.provider
        invariant forall j :: 0 <= j < k ==> registry[j] == if old(registry)[j].model.provider == e.model.provider then e else old(registry)[j]
        invariant forall j :: k <= j < |registry| ==> registry[j] == old(registry)[j]
      {
        if registry[k].model.provider == e.model.provider {
          registry := registry[k := e];
          found := true;
        }
      }
      if !found {
        assert registry == old(registry);
        registry := registry + [e];
      }
    }

    /** Drops every entry of a provider. */
    method RevokeProduct(id: string, deleted: bool, saved: bool)
      modifies this
      ensures forall probes, past :: Now() == Next(digest, World(old(Now()), probes, past), Revoke(id, deleted, saved)).setup
    {
      hide WithoutProvider;
      revision := revision + 1;
      if deleted {
        configs := configs - {Api(id)};
      }
      if saved {
        RemoveEntries(id);
      }
    }

    method RemoveEntries(id: string)
      modifies this`registry
      ensures registry == WithoutProvider(old(registry), id)
    {
      var kept := [];
      for k := 0 to |registry|
        invariant registry == old(registry) && kept == WithoutProvider(registry[..k], id)
      {
        assert registry[..k + 1][..k] == registry[..k];
        if registry[k].model.provider != id {
          kept := kept + [registry[k]];
        }
      }
      assert registry[..|registry|] == registry;
      registry := kept;
    }

    method FindEntry(id: string) returns (index: int)
      ensures index == Find(registry, id)
    {
      index := -1;
      for k := 0 to |registry|
        invariant index == Find(registry[..k], id)
      {
        assert registry[..k + 1][..k] == registry[..k];
        if registry[k].model.provider == id {
          index := k;
        }
      }
      assert registry[..|registry|] == registry;
    }

    /** What a test captures under the lock; no request is made. */
    method ProbeSnapshot(id: string) returns (sn: Team.Option<Snapshot>)
      ensures sn.Some? <==> Captures(Now(), id)
      ensures sn.Some? ==> sn.value == Captured(Now(), id)
    {
      var index := FindEntry(id);
      if index < 0 || registry[index].model.transport !in configs {
        return Team.None;
      }
      sn := Team.Some(Snapshot(registry[index], configs[registry[index].model.transport], revision));
    }

    /** Applies the result of a test, unless anything was set up since its snapshot. */
    method FinishProbe(sn: Snapshot, passed: bool, saved: bool) returns (ok: bool)
      requires UniqueProviders(registry)
      modifies this
      ensures ok <==> saved && StillCurrent(digest, old(Now()), sn)
      ensures forall p: Probe, past | p.snapshot == sn ::
                Now() == Next(digest, World(old(Now()), map[0 := p], past), End(0, passed, saved)).setup
    {
      ok := false;
      if revision != sn.revision {
        return;
      }
      var id := sn.entry.model.provider;
      var current := ProbeSnapshot(id);
      if current.None? || digest(SubjectOf(sn.entry, sn.config)) != digest(SubjectOf(current.value.entry, current.value.config)) {
        return;
      }
      for k := 0 to |registry|
        invariant registry == old(registry) && forall j :: 0 <= j < k ==> registry[j].model.provider != id
      {
        if registry[k].model.provider == id {
          assert k == Find(registry, id);
          var e := registry[k].(digest := "", failed := false);
          if passed {
            e := e.(digest := digest(SubjectOf(sn.entry, sn.config)));
          } else {
            e := e.(failed := true);
          }
          if saved {
            registry, ok := registry[k := e], true;
          }
          return;
        }
      }
    }
  }
}
