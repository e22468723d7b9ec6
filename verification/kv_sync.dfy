/** The key-vault sync driver: for every `kvSync` entry, the secrets of the
    source vault are listed, and each secret whose value the target does not
    already hold is copied to the target, unless the run is a dry run. A
    failure on one secret skips that secret, and a failure on one vault pair
    skips that pair. The vaults the run reaches are given as a map from vault
    name to vault; the helper module's key-vault client is a pass-through to
    the secret client, so a vault here is its secrets and the calls the
    service refuses. */
module KeyVaultSync {
  import opened Common
  import BuildConfig

  /** What a vault holds and refuses, as one value: the secrets by name, the
      secrets whose value cannot be read (a disabled secret is listed but
      not readable), the secrets whose writes are refused, and whether the
      vault can be reached at all. */
  datatype VaultState = VaultState(secrets: map<string, string>, unreadable: set<string>,
                                   refusedWrites: set<string>, reachable: bool)

  /** A key vault. `setCalls` records every `set_secret` call made on it, in
      order, whether or not the service accepted it. */
  class KeyVault {
    var secrets: map<string, string>
    var setCalls: seq<string>
    const unreadable: set<string>
    const refusedWrites: set<string>
    const reachable: bool

    constructor(secrets: map<string, string>, unreadable: set<string>, refusedWrites: set<string>, reachable: bool)
      ensures this.secrets == secrets && setCalls == []
      ensures this.unreadable == unreadable && this.refusedWrites == refusedWrites && this.reachable == reachable
    {
      this.secrets := secrets;
      this.setCalls := [];
      this.unreadable := unreadable;
      this.refusedWrites := refusedWrites;
      this.reachable := reachable;
    }

    function State(): VaultState
      reads this
    {
      VaultState(secrets, unreadable, refusedWrites, reachable)
    }

    /** `list_secrets`: every secret name once, in the service's order; an
        unreachable vault raises. */
    method ListSecrets() returns (r: Result<seq<string>>)
      ensures r.Ok? <==> reachable
      ensures r.Err? ==> r.error == ServiceError
      ensures r.Ok? ==> Distinct(r.value) && forall n :: n in r.value <==> n in secrets
    {
      if !reachable {
        return Err(ServiceError);
      }
      var names: seq<string> := [];
      var rest := secrets.Keys;
      while rest != {}
        invariant rest <= secrets.Keys
        invariant Distinct(names)
        invariant forall n :: n in names <==> n in secrets && n !in rest
        decreases rest
      {
        var n :| n in rest;
        names := names + [n];
        rest := rest - {n};
      }
      r := Ok(names);
    }

    /** `get_secret`: the value of a readable secret; otherwise it raises. */
    method GetSecret(name: string) returns (r: Result<string>)
      ensures r.Ok? <==> Readable(State(), name)
      ensures r.Ok? ==> r.value == secrets[name]
      ensures r.Err? ==> r.error == ServiceError
    {
      if !reachable || name !in secrets || name in unreadable {
        return Err(ServiceError);
      }
      r := Ok(secrets[name]);
    }

    /** `set_secret`: the call is recorded; an accepted write sets the
        value, a refused one raises and changes nothing. */
    method SetSecret(name: string, value: string) returns (r: Result<()>)
      modifies this
      ensures setCalls == old(setCalls) + [name]
      ensures r.Ok? <==> reachable && name !in refusedWrites
      ensures r.Err? ==> r.error == ServiceError
      ensures secrets == if r.Ok? then old(secrets)[name := value] else old(secrets)
    {
      setCalls := setCalls + [name];
      if !reachable || name in refusedWrites {
        return Err(ServiceError);
      }
      secrets := secrets[name := value];
      r := Ok(());
    }
  }

  predicate Readable(v: VaultState, n: string) {
    v.reachable && n in v.secrets && n !in v.unreadable
  }

  /** Whether the sync calls `set_secret` for `n`: the source value can be
      read, the target does not hold it already (a target read that fails
      counts as absent), and the run is not a dry run. */
  predicate Copies(src: VaultState, tgt: VaultState, n: string, dryRun: bool) {
    && Readable(src, n)
    && !(Readable(tgt, n) && tgt.secrets[n] == src.secrets[n])
    && !dryRun
  }

  /** Whether that call is accepted. */
  predicate Lands(src: VaultState, tgt: VaultState, n: string, dryRun: bool) {
    Copies(src, tgt, n, dryRun) && tgt.reachable && n !in tgt.refusedWrites
  }

  /** The target's secrets once the secrets in `done` have been handled. */
  function SyncedOver(src: VaultState, tgt: VaultState, dryRun: bool, done: set<string>): map<string, string> {
    map n | n in tgt.secrets.Keys + (set k | k in done && Lands(src, tgt, k, dryRun)) ::
      if n in done && Lands(src, tgt, n, dryRun) then src.secrets[n] else tgt.secrets[n]
  }

  /** The target's secrets after syncing every secret of the source. */
  function Synced(src: VaultState, tgt: VaultState, dryRun: bool): map<string, string> {
    SyncedOver(src, tgt, dryRun, src.secrets.Keys)
  }

  /** What a sync promises: outside a dry run, every readable source secret
      the target accepts ends with the source's value; every other secret of
      the target keeps its value; and no secret appears that the source does
      not have. */
  lemma SyncedMeaning(src: VaultState, tgt: VaultState, dryRun: bool, n: string)
    ensures !dryRun && Readable(src, n) && tgt.reachable && n !in tgt.refusedWrites ==>
      n in Synced(src, tgt, dryRun) && Synced(src, tgt, dryRun)[n] == src.secrets[n]
    ensures n in tgt.secrets && !Lands(src, tgt, n, dryRun) ==> Synced(src, tgt, dryRun)[n] == tgt.secrets[n]
    ensures n in Synced(src, tgt, dryRun) <==> n in tgt.secrets || Lands(src, tgt, n, dryRun)
  {
  }

  /** A dry run leaves the target as it is. */
  lemma DryRunChangesNothing(src: VaultState, tgt: VaultState)
    ensures Synced(src, tgt, true) == tgt.secrets
    ensures forall n :: !Copies(src, tgt, n, true)
  {
  }

  /** Syncing a vault with itself writes nothing. */
  lemma SelfSync(v: VaultState, dryRun: bool, done: set<string>)
    ensures SyncedOver(v, v, dryRun, done) == v.secrets
    ensures forall n :: !Copies(v, v, n, dryRun)
  {
  }

  /** A second sync right after the first leaves the target as the first
      left it. */
  lemma SyncIdempotent(src: VaultState, tgt: VaultState, dryRun: bool)
    ensures var once := tgt.(secrets := Synced(src, tgt, dryRun));
      Synced(src, once, dryRun) == once.secrets
  {
    var once := tgt.(secrets := Synced(src, tgt, dryRun));
    forall n | n in src.secrets && Lands(src, once, n, dryRun)
      ensures n in once.secrets && once.secrets[n] == src.secrets[n]
    {
      if !Lands(src, tgt, n, dryRun) {
        assert Readable(tgt, n) && tgt.secrets[n] == src.secrets[n];
      }
    }
  }

  /** A second sync outside a dry run calls `set_secret` again only for a
      secret the target could not read back or did not accept. */
  lemma SecondRunCalls(src: VaultState, tgt: VaultState, n: string)
    ensures var once := tgt.(secrets := Synced(src, tgt, false));
      Copies(src, once, n, false) ==> n in tgt.unreadable || n in tgt.refusedWrites || !tgt.reachable
  {
    SyncedMeaning(src, tgt, false, n);
  }

  /** Handling one more secret, given the ones handled so far. */
  lemma SyncStep(src: VaultState, tgt: VaultState, dryRun: bool, done: set<string>, n: string)
    requires n !in done
    ensures var now := tgt.(secrets := SyncedOver(src, tgt, dryRun, done));
      && Copies(src, now, n, dryRun) == Copies(src, tgt, n, dryRun)
      && Lands(src, now, n, dryRun) == Lands(src, tgt, n, dryRun)
      && SyncedOver(src, tgt, dryRun, done + {n}) ==
         (if Lands(src, tgt, n, dryRun) then now.secrets[n := src.secrets[n]] else now.secrets)
  {
    var now := tgt.(secrets := SyncedOver(src, tgt, dryRun, done));
    assert n in now.secrets <==> n in tgt.secrets;
    assert n in now.secrets ==> now.secrets[n] == tgt.secrets[n];
  }

  /** How one vault pair ends. */
  datatype ConfigOutcome =
    | Failed
    | NoSecrets
    | Processed

  /** One secret: read from the source (a failure skips the secret), compare
      with the target (equal values skip it), and outside a dry run write
      it (a refused write skips it). */
  method SyncSecret(source: KeyVault, target: KeyVault, name: string, dryRun: bool)
    modifies target
    ensures target.secrets == if Lands(old(source.State()), old(target.State()), name, dryRun)
                              then old(target.secrets)[name := old(source.secrets)[name]] else old(target.secrets)
    ensures target.setCalls == old(target.setCalls) +
                               if Copies(old(source.State()), old(target.State()), name, dryRun) then [name] else []
  {
    var sourceValue := source.GetSecret(name);
    if sourceValue.Err? {
      return;
    }
    var targetValue := target.GetSecret(name);
    if targetValue.Ok? && targetValue.value == sourceValue.value {
      return;
    }
    if dryRun {
      return;
    }
    var written := target.SetSecret(name, sourceValue.value);
  }

  /** The body of the loop for one vault pair: the source's secrets are
      listed (a failure skips the pair), an empty source is skipped, and
      every listed secret is synced. */
  method SyncPair(source: KeyVault, target: KeyVault, dryRun: bool) returns (outcome: ConfigOutcome)
    modifies target
    ensures outcome == Failed <==> !source.reachable
    ensures outcome == NoSecrets <==> source.reachable && old(source.secrets) == map[]
    ensures source.secrets == old(source.secrets)
    ensures target.secrets == Synced(old(source.State()), old(target.State()), dryRun)
    ensures |old(target.setCalls)| <= |target.setCalls| && target.setCalls[..|old(target.setCalls)|] == old(target.setCalls)
    ensures (set k | k in target.setCalls[|old(target.setCalls)|..]) ==
            set n | n in old(source.secrets) && Copies(old(source.State()), old(target.State()), n, dryRun)
    ensures dryRun ==> target.setCalls == old(target.setCalls)
  {
    ghost var src0, tgt0, calls0 := source.State(), target.State(), target.setCalls;
    var listed := source.ListSecrets();
    if listed.Err? {
      assert Synced(src0, tgt0, dryRun) == tgt0.secrets;
      assert target.setCalls[|calls0|..] == [];
      return Failed;
    }
    var names := listed.value;
    if names == [] {
      assert src0.secrets.Keys == {};
      assert Synced(src0, tgt0, dryRun) == tgt0.secrets;
      assert target.setCalls[|calls0|..] == [];
      return NoSecrets;
    }
    assert names[0] in source.secrets;
    SyncSecrets(source, target, names, dryRun);
    outcome := Processed;
  }

  /** The loop over the listed secrets, each handled by `SyncSecret`. */
  method SyncSecrets(source: KeyVault, target: KeyVault, names: seq<string>, dryRun: bool)
    requires Distinct(names) && forall n :: n in names <==> n in source.secrets
    modifies target
    ensures source.secrets == old(source.secrets)
    ensures target.secrets == Synced(old(source.State()), old(target.State()), dryRun)
    ensures |old(target.setCalls)| <= |target.setCalls| && target.setCalls[..|old(target.setCalls)|] == old(target.setCalls)
    ensures (set k | k in target.setCalls[|old(target.setCalls)|..]) ==
            set n | n in old(source.secrets) && Copies(old(source.State()), old(target.State()), n, dryRun)
    ensures dryRun ==> target.setCalls == old(target.setCalls)
  {
    ghost var src0, tgt0, calls0 := source.State(), target.State(), target.setCalls;
    if source == target {
      SelfSync(src0, dryRun, {});
    }
    assert target.setCalls[|calls0|..] == [];
    var i := 0;
    while i < |names|
      invariant 0 <= i <= |names|
      invariant SyncedUpTo(source, target, src0, tgt0, calls0, names, i, dryRun)
    {
      SyncNext(source, target, src0, tgt0, calls0, names, i, dryRun);
      i := i + 1;
    }
    assert names[..i] == names;
    assert Done(names, i) == src0.secrets.Keys;
  }

  /** The first `i` listed secrets, as a set. */
  function Done(names: seq<string>, i: nat): set<string>
    requires i <= |names|
  {
    set k | k in names[..i]
  }

  /** The state after the first `i` listed secrets are handled. */
  ghost predicate SyncedUpTo(source: KeyVault, target: KeyVault, src0: VaultState, tgt0: VaultState,
                             calls0: seq<string>, names: seq<string>, i: nat, dryRun: bool)
    reads source, target
    requires i <= |names|
  {
    && source.State() == src0
    && target.State() == tgt0.(secrets := SyncedOver(src0, tgt0, dryRun, Done(names, i)))
    && |calls0| <= |target.setCalls| && target.setCalls[..|calls0|] == calls0
    && (set k | k in target.setCalls[|calls0|..]) == (set n | n in names[..i] && Copies(src0, tgt0, n, dryRun))
    && (dryRun ==> target.setCalls == calls0)
  }

  /** One turn of the loop over the secrets. */
  method SyncNext(source: KeyVault, target: KeyVault, ghost src0: VaultState, ghost tgt0: VaultState,
                  ghost calls0: seq<string>, names: seq<string>, i: nat, dryRun: bool)
    requires i < |names| && Distinct(names)
    requires source == target ==> src0 == tgt0
    requires SyncedUpTo(source, target, src0, tgt0, calls0, names, i, dryRun)
    modifies target
    ensures SyncedUpTo(source, target, src0, tgt0, calls0, names, i + 1, dryRun)
  {
    var n := names[i];
    ghost var before := target.setCalls;
    SecretsStep(src0, tgt0, dryRun, names, i);
    if source == target {
      SelfSync(src0, dryRun, Done(names, i));
    }
    SyncSecret(source, target, n, dryRun);
    CallsStep(calls0, before, names, i, src0, tgt0, dryRun);
  }

  /** The target's secrets after one more listed secret. */
  lemma SecretsStep(src0: VaultState, tgt0: VaultState, dryRun: bool, names: seq<string>, i: nat)
    requires i < |names| && Distinct(names)
    ensures var n := names[i];
      var now := tgt0.(secrets := SyncedOver(src0, tgt0, dryRun, Done(names, i)));
      && Copies(src0, now, n, dryRun) == Copies(src0, tgt0, n, dryRun)
      && Lands(src0, now, n, dryRun) == Lands(src0, tgt0, n, dryRun)
      && SyncedOver(src0, tgt0, dryRun, Done(names, i + 1)) ==
         (if Lands(src0, tgt0, n, dryRun) then now.secrets[n := src0.secrets[n]] else now.secrets)
  {
    var done := Done(names, i);
    assert names[i] !in done by {
      forall j | 0 <= j < i ensures names[j] != names[i] { }
    }
    assert names[..i + 1] == names[..i] + [names[i]];
    assert Done(names, i + 1) == done + {names[i]};
    SyncStep(src0, tgt0, dryRun, done, names[i]);
  }

  /** The calls recorded after one more secret. */
  lemma CallsStep(calls0: seq<string>, before: seq<string>, names: seq<string>, i: nat,
                  src0: VaultState, tgt0: VaultState, dryRun: bool)
    requires i < |names| && |calls0| <= |before| && before[..|calls0|] == calls0
    requires (set k | k in before[|calls0|..]) == (set m | m in names[..i] && Copies(src0, tgt0, m, dryRun))
    ensures var after := before + if Copies(src0, tgt0, names[i], dryRun) then [names[i]] else [];
      && |calls0| <= |after| && after[..|calls0|] == calls0
      && (set k | k in after[|calls0|..]) == (set m | m in names[..i + 1] && Copies(src0, tgt0, m, dryRun))
  {
    var added := if Copies(src0, tgt0, names[i], dryRun) then [names[i]] else [];
    var after := before + added;
    assert after[|calls0|..] == before[|calls0|..] + added;
    assert names[..i + 1] == names[..i] + [names[i]];
    assert (set m | m in names[..i + 1] && Copies(src0, tgt0, m, dryRun)) ==
           (set m | m in names[..i] && Copies(src0, tgt0, m, dryRun)) + (set m | m in added);
  }

  /** The state of every vault the run reaches. */
  function World(vaults: map<string, KeyVault>): map<string, VaultState>
    reads set n | n in vaults :: vaults[n]
  {
    map n | n in vaults :: vaults[n].State()
  }

  /** The write log of every vault. */
  function Calls(vaults: map<string, KeyVault>): map<string, seq<string>>
    reads set n | n in vaults :: vaults[n]
  {
    map n | n in vaults :: vaults[n].setCalls
  }

  /** The vaults after one `kvSync` entry: the target holds the synced
      secrets and nothing else changes. */
  function PairAfter(world: map<string, VaultState>, pair: BuildConfig.KvSyncPair, dryRun: bool)
    : map<string, VaultState>
  {
    var from, to := pair.from.kv, pair.to.kv;
    if from in world && to in world then world[to := world[to].(secrets := Synced(world[from], world[to], dryRun))]
    else world
  }

  /** The vaults after the entries, one after the other. */
  function SyncAll(world: map<string, VaultState>, configs: seq<BuildConfig.KvSyncPair>, dryRun: bool)
    : map<string, VaultState>
  {
    if configs == [] then world
    else PairAfter(SyncAll(world, configs[..|configs| - 1], dryRun), configs[|configs| - 1], dryRun)
  }

  lemma SyncAllSnoc(world: map<string, VaultState>, configs: seq<BuildConfig.KvSyncPair>, i: nat, dryRun: bool)
    requires i < |configs|
    ensures SyncAll(world, configs[..i + 1], dryRun) == PairAfter(SyncAll(world, configs[..i], dryRun), configs[i], dryRun)
  {
    assert configs[..i + 1][..i] == configs[..i];
  }

  /** A dry run over any number of entries changes no vault. */
  lemma {:induction false} DryRunSyncAll(world: map<string, VaultState>, configs: seq<BuildConfig.KvSyncPair>)
    ensures SyncAll(world, configs, true) == world
  {
    if configs != [] {
      var before := configs[..|configs| - 1];
      DryRunSyncAll(world, before);
      var pair := configs[|configs| - 1];
      if pair.from.kv in world && pair.to.kv in world {
        DryRunChangesNothing(world[pair.from.kv], world[pair.to.kv]);
      }
    }
  }

  predicate Injective(vaults: map<string, KeyVault>) {
    forall m, n :: m in vaults && n in vaults && m != n ==> vaults[m] != vaults[n]
  }

  /** One entry against the vaults: the world moves on as `PairAfter` says. */
  method SyncConfig(vaults: map<string, KeyVault>, pair: BuildConfig.KvSyncPair, dryRun: bool)
    returns (outcome: ConfigOutcome)
    requires Injective(vaults) && pair.from.kv in vaults && pair.to.kv in vaults
    modifies set n | n in vaults :: vaults[n]
    ensures World(vaults) == PairAfter(old(World(vaults)), pair, dryRun)
    ensures outcome == Failed <==> !vaults[pair.from.kv].reachable
    ensures outcome == NoSecrets <==> vaults[pair.from.kv].reachable && old(World(vaults))[pair.from.kv].secrets == map[]
    ensures dryRun ==> Calls(vaults) == old(Calls(vaults))
  {
    var source, target := vaults[pair.from.kv], vaults[pair.to.kv];
    ghost var w0 := World(vaults);
    outcome := SyncPair(source, target, dryRun);
    forall n | n in vaults ensures World(vaults)[n] == PairAfter(w0, pair, dryRun)[n] {
      if n != pair.to.kv {
        assert vaults[n] != target;
      }
    }
    if dryRun {
      forall n | n in vaults ensures Calls(vaults)[n] == old(Calls(vaults))[n] {
        if n != pair.to.kv {
          assert vaults[n] != target;
        }
      }
    }
  }

  /** `sync_key_vaults`: the section is read as a list (a missing one raises
      KeyError) and every entry is synced in turn. */
  method SyncKeyVaults(section: Option<OneOrMany<BuildConfig.KvSyncPair>>, vaults: map<string, KeyVault>, dryRun: bool)
    returns (r: Result<seq<ConfigOutcome>>)
    requires Injective(vaults)
    requires SectionAsList(section).Ok? ==>
      forall c :: c in SectionAsList(section).value ==> c.from.kv in vaults && c.to.kv in vaults
    modifies set n | n in vaults :: vaults[n]
    ensures r.Err? <==> section.None?
    ensures r.Err? ==> r.error == KeyError && World(vaults) == old(World(vaults))
    ensures r.Ok? ==>
      var configs := SectionAsList(section).value;
      && World(vaults) == SyncAll(old(World(vaults)), configs, dryRun)
      && |r.value| == |configs|
      && (forall i :: 0 <= i < |configs| ==> (r.value[i] == Failed <==> !vaults[configs[i].from.kv].reachable))
    ensures dryRun ==> Calls(vaults) == old(Calls(vaults))
  {
    var configs :- SectionAsList(section);
    var outcomes := SyncEach(configs, vaults, dryRun);
    r := Ok(outcomes);
  }

  /** The loop over the entries. */
  method SyncEach(configs: seq<BuildConfig.KvSyncPair>, vaults: map<string, KeyVault>, dryRun: bool)
    returns (outcomes: seq<ConfigOutcome>)
    requires Injective(vaults)
    requires forall c :: c in configs ==> c.from.kv in vaults && c.to.kv in vaults
    modifies set n | n in vaults :: vaults[n]
    ensures World(vaults) == SyncAll(old(World(vaults)), configs, dryRun)
    ensures |outcomes| == |configs|
    ensures forall i :: 0 <= i < |configs| ==> (outcomes[i] == Failed <==> !vaults[configs[i].from.kv].reachable)
    ensures dryRun ==> Calls(vaults) == old(Calls(vaults))
  {
    ghost var w0 := World(vaults);
    ghost var calls0 := Calls(vaults);
    outcomes := [];
    assert configs[..0] == [];
    while |outcomes| < |configs|
      invariant EachUpTo(World(vaults), Calls(vaults), w0, calls0, configs, outcomes, dryRun)
      decreases |configs| - |outcomes|
    {
      var outcome := SyncNextConfig(vaults, w0, calls0, configs, outcomes, dryRun);
      outcomes := outcomes + [outcome];
    }
    assert configs[..|outcomes|] == configs;
    forall k | 0 <= k < |configs| ensures outcomes[k] == Failed <==> !vaults[configs[k].from.kv].reachable {
      assert configs[k] in configs;
    }
  }

  /** The vaults after the first entries: the world has moved on by them,
      each outcome says whether its source vault was reachable, and a dry
      run has written nothing. */
  predicate EachUpTo(world: map<string, VaultState>, calls: map<string, seq<string>>,
                     w0: map<string, VaultState>, calls0: map<string, seq<string>>,
                     configs: seq<BuildConfig.KvSyncPair>, outcomes: seq<ConfigOutcome>, dryRun: bool)
  {
    && |outcomes| <= |configs|
    && world == SyncAll(w0, configs[..|outcomes|], dryRun)
    && (forall k :: 0 <= k < |outcomes| ==>
          configs[k].from.kv in w0 && (outcomes[k] == Failed <==> !w0[configs[k].from.kv].reachable))
    && (dryRun ==> calls == calls0)
  }

  /** One turn of the loop over the entries. */
  method SyncNextConfig(vaults: map<string, KeyVault>, ghost w0: map<string, VaultState>,
                        ghost calls0: map<string, seq<string>>, configs: seq<BuildConfig.KvSyncPair>,
                        outcomes: seq<ConfigOutcome>, dryRun: bool)
    returns (outcome: ConfigOutcome)
    requires Injective(vaults)
    requires forall c :: c in configs ==> c.from.kv in vaults && c.to.kv in vaults
    requires |outcomes| < |configs| && EachUpTo(World(vaults), Calls(vaults), w0, calls0, configs, outcomes, dryRun)
    modifies set n | n in vaults :: vaults[n]
    ensures EachUpTo(World(vaults), Calls(vaults), w0, calls0, configs, outcomes + [outcome], dryRun)
  {
    var i := |outcomes|;
    var pair := configs[i];
    assert pair in configs;
    ghost var before, callsBefore := World(vaults), Calls(vaults);
    ghost var reachable := before[pair.from.kv].reachable;
    outcome := SyncConfig(vaults, pair, dryRun);
    EachStep(before, World(vaults), callsBefore, Calls(vaults), w0, calls0, configs, outcomes, outcome, reachable, dryRun);
  }

  /** The bookkeeping of one turn, on the vaults' states before and after
      the entry. */
  lemma EachStep(before: map<string, VaultState>, after: map<string, VaultState>,
                 callsBefore: map<string, seq<string>>, callsAfter: map<string, seq<string>>,
                 w0: map<string, VaultState>, calls0: map<string, seq<string>>,
                 configs: seq<BuildConfig.KvSyncPair>, outcomes: seq<ConfigOutcome>, outcome: ConfigOutcome,
                 reachable: bool, dryRun: bool)
    requires |outcomes| < |configs| && EachUpTo(before, callsBefore, w0, calls0, configs, outcomes, dryRun)
    requires configs[|outcomes|].from.kv in before && reachable == before[configs[|outcomes|].from.kv].reachable
    requires after == PairAfter(before, configs[|outcomes|], dryRun)
    requires outcome == Failed <==> !reachable
    requires dryRun ==> callsAfter == callsBefore
    ensures EachUpTo(after, callsAfter, w0, calls0, configs, outcomes + [outcome], dryRun)
  {
    var i := |outcomes|;
    var from := configs[i].from.kv;
    assert after == SyncAll(w0, configs[..i + 1], dryRun) by {
      SyncAllSnoc(w0, configs, i, dryRun);
    }
    assert from in w0 && (outcome == Failed <==> !w0[from].reachable) by {
      SyncAllKeepsReach(w0, configs[..i], dryRun);
    }
    var os := outcomes + [outcome];
    forall k | 0 <= k < |os|
      ensures configs[k].from.kv in w0 && (os[k] == Failed <==> !w0[configs[k].from.kv].reachable)
    {
      if k < i {
        assert os[k] == outcomes[k];
      }
    }
  }

  /** The entries only ever change the secrets of a vault. */
  lemma {:induction false} SyncAllKeepsReach(world: map<string, VaultState>, configs: seq<BuildConfig.KvSyncPair>, dryRun: bool)
    ensures SyncAll(world, configs, dryRun).Keys == world.Keys
    ensures forall n :: n in world ==> SyncAll(world, configs, dryRun)[n].reachable == world[n].reachable
  {
    if configs != [] {
      SyncAllKeepsReach(world, configs[..|configs| - 1], dryRun);
    }
  }

  /** `main`: the `--dry-run` option is checked first; left out, the run
      is a dry run and no vault is written, and with "False" the vaults end
      as `SyncAll` says. */
  method Run(dryRunArg: Option<string>, section: Option<OneOrMany<BuildConfig.KvSyncPair>>, vaults: map<string, KeyVault>)
    returns (r: Result<seq<ConfigOutcome>>)
    requires Injective(vaults)
    requires SectionAsList(section).Ok? ==>
      forall c :: c in SectionAsList(section).value ==> c.from.kv in vaults && c.to.kv in vaults
    modifies set n | n in vaults :: vaults[n]
    ensures DryRunArgument(dryRunArg).Err? ==> r == Err(ValueError) && World(vaults) == old(World(vaults))
    ensures DryRunArgument(dryRunArg).Ok? ==> (r.Err? <==> section.None?)
    ensures DryRunArgument(dryRunArg) == Ok(true) ==>
      World(vaults) == old(World(vaults))
      && Calls(vaults) == old(Calls(vaults))
    ensures DryRunArgument(dryRunArg).Ok? && r.Err? ==> r.error == KeyError && World(vaults) == old(World(vaults))
    ensures DryRunArgument(dryRunArg) == Ok(false) && r.Ok? ==>
      var configs := SectionAsList(section).value;
      && World(vaults) == SyncAll(old(World(vaults)), configs, false)
      && |r.value| == |configs|
      && (forall i :: 0 <= i < |configs| ==> (r.value[i] == Failed <==> !vaults[configs[i].from.kv].reachable))
  {
    var dryRun :- DryRunArgument(dryRunArg);
    r := SyncKeyVaults(section, vaults, dryRun);
    if dryRun && r.Ok? {
      DryRunSyncAll(old(World(vaults)), SectionAsList(section).value);
    }
  }
}
