/** The storage-sync driver: the `StgSync` section names one source and
    one target storage account, and each container of a list is copied
    from the source to the target under its own name. Every container gets
    one result; when the copy client cannot be set up, every container is
    marked failed. The accounts that exist are given as a map from account
    name to account; whether the client can be set up (the sign-in and the
    subscription lookup) is an input of its own. */
module StorageSync {
  import opened Common
  import opened Storage
  import BuildConfig

  /** The containers synchronised when none are named. */
  const DefaultContainers: seq<string> := ["batch-pool", "scriptfiles"]

  /** `get_stg_sync_config`: the section must be one mapping with a "from"
      and a "to" side, each naming its account; anything else, a list
      included, raises ValueError. */
  function StgSyncConfig(section: Option<OneOrMany<BuildConfig.StgSyncPair>>): (r: Result<BuildConfig.StgSyncPair>)
    ensures r.Err? ==> r.error == ValueError
    ensures r.Ok? <==> && section.Some? && section.value.One?
                       && section.value.item.from.Some? && section.value.item.from.value.stg.Some?
                       && section.value.item.to.Some? && section.value.item.to.value.stg.Some?
    ensures r.Ok? ==> r.value == section.value.item
  {
    match section
    case None => Err(ValueError)
    case Some(Many(_)) => Err(ValueError)
    case Some(One(pair)) =>
      if pair.from.None? || pair.to.None? then Err(ValueError)
      else if pair.from.value.stg.None? || pair.to.value.stg.None? then Err(ValueError)
      else Ok(pair)
  }

  /** A section with one entry per domain, as the configuration generator
      writes for all domains at once, is always refused. */
  lemma ListSectionRefused(items: seq<BuildConfig.StgSyncPair>)
    ensures StgSyncConfig(Some(Many(items))) == Err(ValueError)
  {
  }

  function SourceName(pair: BuildConfig.StgSyncPair): string
    requires pair.from.Some? && pair.from.value.stg.Some?
  {
    pair.from.value.stg.value
  }

  function TargetName(pair: BuildConfig.StgSyncPair): string
    requires pair.to.Some? && pair.to.value.stg.Some?
  {
    pair.to.value.stg.value
  }

  /** A container's entry in `sync_results`. */
  datatype ContainerResult =
    | Copied
    | CopyFailed(error: Error)
    | InitFailed

  /** Whether `copy_container(c, c)` returns normally: the container exists
      in the source, and the target either has it or may create it. */
  predicate CopySucceeds(source: map<string, Container>, target: map<string, Container>,
                         refused: set<string>, c: string) {
    c in source && (c in target || c !in refused)
  }

  /** The entry a container ends with. */
  function Expected(initOk: bool, source: map<string, Container>, target: map<string, Container>,
                    refused: set<string>, c: string): (e: ContainerResult)
    ensures e == Copied <==> initOk && CopySucceeds(source, target, refused, c)
    ensures e == InitFailed <==> !initOk
  {
    if !initOk then InitFailed
    else if CopySucceeds(source, target, refused, c) then Copied
    else CopyFailed(ServiceError)
  }

  /** Copying a list of containers in turn: a container's outcome does not
      depend on the containers copied before it, because a copy only ever
      adds containers the target may create. So a name listed twice ends
      with the same result either time. */
  lemma OutcomeIndependentOfOrder(source: map<string, Container>, target: map<string, Container>,
                                  grown: map<string, Container>, refused: set<string>, c: string)
    requires target.Keys <= grown.Keys
    requires forall k :: k in grown && k !in target ==> k !in refused
    ensures CopySucceeds(source, grown, refused, c) == CopySucceeds(source, target, refused, c)
  {
  }

  /** The containers of every reachable account, as a value. */
  function ContainersOf(accounts: map<string, StorageAccount>): (r: map<string, map<string, Container>>)
    reads set n | n in accounts :: accounts[n]
    ensures r.Keys == accounts.Keys
  {
    map n | n in accounts :: accounts[n].containers
  }

  /** What a sync from `sourceName` to `targetName` leaves behind, from the
      containers before and after: one entry per container name. When the
      client could not be set up every entry is InitFailed; when it was but
      an account does not exist, every copy raises; otherwise each entry is
      the outcome of copying that container and the target has gained
      exactly the containers copied. No account but the target changes,
      and none changes unless the client was set up and both accounts
      exist. */
  predicate Synced(accounts: map<string, StorageAccount>, before: map<string, map<string, Container>>,
                   after: map<string, map<string, Container>>, initOk: bool, sourceName: string,
                   targetName: string, names: seq<string>, results: map<string, ContainerResult>)
    requires before.Keys == accounts.Keys == after.Keys
  {
    var copying := initOk && sourceName in accounts && targetName in accounts;
    && results.Keys == (set c | c in names)
    && (forall c :: c in results ==>
          if !initOk then results[c] == InitFailed
          else if !copying then results[c] == CopyFailed(ServiceError)
          else results[c] == Expected(true, before[sourceName], before[targetName],
                                      accounts[targetName].refusedContainers, c))
    && (copying ==>
          after[targetName].Keys == before[targetName].Keys +
            set c | c in names && CopySucceeds(before[sourceName], before[targetName],
                                               accounts[targetName].refusedContainers, c))
    && (forall n :: n in accounts && (n != targetName || !copying) ==> after[n] == before[n])
  }

  /** `run_storage_sync`: the configuration is read (its errors propagate),
      the copy client is set up on the two accounts (`initOk` says whether
      that succeeds), and each container is copied under its own name, one
      result per container name. A container is copied exactly when both
      accounts exist, the source has it and the target has it or may
      create it; when the client cannot be set up, every container is
      marked failed and nothing changes. The summary splits the result
      names by status. */
  method RunStorageSync(stgSync: Option<OneOrMany<BuildConfig.StgSyncPair>>, containers: Option<seq<string>>,
                        initOk: bool, accounts: map<string, StorageAccount>)
    returns (r: Result<map<string, ContainerResult>>, successful: seq<string>, failed: seq<string>)
    requires forall n :: n in accounts ==> accounts[n].Valid()
    requires forall m, n :: m in accounts && n in accounts && m != n ==> accounts[m] != accounts[n]
    modifies set n | n in accounts :: accounts[n]
    ensures forall n :: n in accounts ==> accounts[n].Valid()
    ensures r.Err? <==> StgSyncConfig(stgSync).Err?
    ensures r.Err? ==> r.error == ValueError && ContainersOf(accounts) == old(ContainersOf(accounts))
    ensures r.Ok? ==>
      var pair := StgSyncConfig(stgSync).value;
      && Synced(accounts, old(ContainersOf(accounts)), ContainersOf(accounts), initOk, SourceName(pair),
                TargetName(pair), containers.GetOr(DefaultContainers), r.value)
      && |successful| + |failed| == |r.value|
      && (forall c :: c in successful <==> c in r.value && r.value[c] == Copied)
      && (forall c :: c in failed <==> c in r.value && r.value[c] != Copied)
  {
    successful, failed := [], [];
    var pair :- StgSyncConfig(stgSync);
    var names := if containers.None? then DefaultContainers else containers.value;
    var sourceName, targetName := pair.from.value.stg.value, pair.to.value.stg.value;
    var results := SyncAccounts(sourceName, targetName, names, initOk, accounts);
    successful, failed := Summarize(results, (e: ContainerResult) => e == Copied);
    r := Ok(results);
  }

  /** The part of `run_storage_sync` inside its outer handler: the copy
      client is set up, or every container is marked failed. */
  method SyncAccounts(sourceName: string, targetName: string, names: seq<string>, initOk: bool,
                      accounts: map<string, StorageAccount>)
    returns (results: map<string, ContainerResult>)
    requires forall n :: n in accounts ==> accounts[n].Valid()
    requires forall m, n :: m in accounts && n in accounts && m != n ==> accounts[m] != accounts[n]
    modifies set n | n in accounts :: accounts[n]
    ensures forall n :: n in accounts ==> accounts[n].Valid()
    ensures Synced(accounts, old(ContainersOf(accounts)), ContainersOf(accounts), initOk, sourceName, targetName,
                   names, results)
  {
    ghost var before := ContainersOf(accounts);
    if !initOk {
      results := MarkAllFailed(names, InitFailed);
      assert ContainersOf(accounts) == before;
    } else if sourceName !in accounts || targetName !in accounts {
      results := MarkAllFailed(names, CopyFailed(ServiceError));
      assert ContainersOf(accounts) == before;
    } else {
      var copier := new AzureStorageCopy(accounts[sourceName], accounts[targetName]);
      results := CopyContainers(copier, names);
      forall n | n in accounts && n != targetName
        ensures accounts[n].containers == before[n]
      {
        assert accounts[n] != accounts[targetName];
      }
    }
  }

  /** Every container gets the same failed entry: the handler for a copy
      client that could not be set up, or a copy from or to an account
      that does not exist, which raises for every container. */
  method MarkAllFailed(names: seq<string>, failure: ContainerResult) returns (results: map<string, ContainerResult>)
    requires failure != Copied
    ensures results.Keys == set c | c in names
    ensures forall c :: c in results ==> results[c] == failure
  {
    results := map[];
    var i := 0;
    while i < |names|
      invariant 0 <= i <= |names|
      invariant results.Keys == set c | c in names[..i]
      invariant forall c :: c in results ==> results[c] == failure
    {
      assert names[..i + 1] == names[..i] + [names[i]];
      results := results[names[i] := failure];
      i := i + 1;
    }
    assert names[..i] == names;
  }

  /** The loop over the containers: each is copied under its own name and
      its entry records whether the copy returned. The two accounts may be
      one: a container copied onto itself is left as it was. */
  method CopyContainers(copier: AzureStorageCopy, names: seq<string>) returns (results: map<string, ContainerResult>)
    requires copier.source.Valid() && copier.target.Valid()
    modifies copier.target
    ensures copier.target.Valid()
    ensures results.Keys == set c | c in names
    ensures forall c :: c in results ==>
      results[c] == Expected(true, old(copier.source.containers), old(copier.target.containers),
                             copier.target.refusedContainers, c)
    ensures copier.target.containers.Keys == old(copier.target.containers).Keys +
      set c | c in names && CopySucceeds(old(copier.source.containers), old(copier.target.containers),
                                         copier.target.refusedContainers, c)
  {
    var source, target := copier.source, copier.target;
    ghost var srcC, tgt0, refused := source.containers, target.containers, target.refusedContainers;
    results := map[];
    var i := 0;
    assert names[..0] == [];
    while i < |names|
      invariant 0 <= i <= |names|
      invariant target.Valid() && source.Valid() && source.containers == srcC
      invariant CopiedUpTo(srcC, tgt0, target.containers, refused, names, i, results)
    {
      results := CopyNext(copier, srcC, tgt0, names, i, results);
      i := i + 1;
    }
    assert names[..i] == names;
  }

  /** The body of the loop above: container `names[i]` is copied under its
      own name and its entry recorded. */
  method CopyNext(copier: AzureStorageCopy, ghost srcC: map<string, Container>, ghost tgt0: map<string, Container>,
                  names: seq<string>, i: nat, results: map<string, ContainerResult>)
    returns (results': map<string, ContainerResult>)
    requires copier.source.Valid() && copier.target.Valid()
    requires srcC == copier.source.containers && i < |names|
    requires CopiedUpTo(srcC, tgt0, copier.target.containers, copier.target.refusedContainers, names, i, results)
    modifies copier.target
    ensures copier.target.Valid() && copier.source.Valid() && copier.source.containers == srcC
    ensures CopiedUpTo(srcC, tgt0, copier.target.containers, copier.target.refusedContainers, names, i + 1, results')
  {
    var c := names[i];
    ghost var before := copier.target.containers;
    var copied := copier.CopyContainer(c, None, true);
    if copier.source == copier.target && copied.Ok? {
      SelfCopyLeavesAccount(before, c, copier.target.refusedUploads);
    }
    CopiedStep(srcC, tgt0, before, copier.target.containers, copier.target.refusedContainers, names, i, results, copied.Ok?);
    results' := results[c := if copied.Ok? then Copied else CopyFailed(copied.error)];
  }

  /** The containers among the first `i` names whose copy succeeds. */
  function CopiedSoFar(srcC: map<string, Container>, tgt0: map<string, Container>, refused: set<string>,
                       names: seq<string>, i: nat): set<string>
    requires i <= |names|
  {
    set c | c in names[..i] && CopySucceeds(srcC, tgt0, refused, c)
  }

  /** The first `i` names, as a set. */
  function HandledSoFar(names: seq<string>, i: nat): set<string>
    requires i <= |names|
  {
    set c | c in names[..i]
  }

  /** The loop above after its first `i` containers: the target has gained
      exactly the containers copied so far, none of which it refuses, and
      each container handled has its entry. */
  predicate CopiedUpTo(srcC: map<string, Container>, tgt0: map<string, Container>, now: map<string, Container>,
                       refused: set<string>, names: seq<string>, i: nat, results: map<string, ContainerResult>)
    requires i <= |names|
  {
    && now.Keys == tgt0.Keys + CopiedSoFar(srcC, tgt0, refused, names, i)
    && (forall k :: k in now && k !in tgt0 ==> k !in refused)
    && results.Keys == HandledSoFar(names, i)
    && forall c :: c in results ==> results[c] == Expected(true, srcC, tgt0, refused, c)
  }

  /** One container more: its copy succeeds as it would have on the
      original target, and the invariant moves on by one. */
  lemma CopiedStep(srcC: map<string, Container>, tgt0: map<string, Container>, before: map<string, Container>,
                   after: map<string, Container>, refused: set<string>, names: seq<string>, i: nat,
                   results: map<string, ContainerResult>, ok: bool)
    requires i < |names| && CopiedUpTo(srcC, tgt0, before, refused, names, i, results)
    requires ok <==> names[i] in srcC && (names[i] in before || names[i] !in refused)
    requires after.Keys == if ok then before.Keys + {names[i]} else before.Keys
    ensures ok <==> CopySucceeds(srcC, tgt0, refused, names[i])
    ensures CopiedUpTo(srcC, tgt0, after, refused, names, i + 1,
                       results[names[i] := if ok then Copied else CopyFailed(ServiceError)])
  {
    OutcomeIndependentOfOrder(srcC, tgt0, before, refused, names[i]);
    SliceGrows(names, i);
    CopiedGrows(srcC, tgt0, refused, names, i);
    var c := names[i];
    assert after.Keys == tgt0.Keys + CopiedSoFar(srcC, tgt0, refused, names, i + 1);
    assert forall k :: k in after && k !in tgt0 ==> k !in refused;
    EntryAdded(srcC, tgt0, refused, results, c, if ok then Copied else CopyFailed(ServiceError));
  }

  /** Recording the entry of one more container keeps every entry the
      outcome of its copy. */
  lemma EntryAdded(srcC: map<string, Container>, tgt0: map<string, Container>, refused: set<string>,
                   results: map<string, ContainerResult>, c: string, e: ContainerResult)
    requires forall d :: d in results ==> results[d] == Expected(true, srcC, tgt0, refused, d)
    requires e == Expected(true, srcC, tgt0, refused, c)
    ensures results[c := e].Keys == results.Keys + {c}
    ensures forall d :: d in results[c := e] ==> results[c := e][d] == Expected(true, srcC, tgt0, refused, d)
  {
  }

  /** The containers copied among one name more. */
  lemma CopiedGrows(srcC: map<string, Container>, tgt0: map<string, Container>, refused: set<string>,
                    names: seq<string>, i: nat)
    requires i < |names|
    ensures CopiedSoFar(srcC, tgt0, refused, names, i + 1) ==
      CopiedSoFar(srcC, tgt0, refused, names, i) + (if CopySucceeds(srcC, tgt0, refused, names[i]) then {names[i]} else {})
  {
    SliceGrows(names, i);
  }

  /** One name more among the first `i`. */
  lemma SliceGrows(names: seq<string>, i: nat)
    requires i < |names|
    ensures forall d :: d in names[..i + 1] <==> d in names[..i] || d == names[i]
    ensures HandledSoFar(names, i + 1) == HandledSoFar(names, i) + {names[i]}
  {
    assert names[..i + 1] == names[..i] + [names[i]];
  }

  /** Copying a container of an account onto itself, under its own name,
      leaves the account as it was. */
  lemma SelfCopyLeavesAccount(m: map<string, Container>, c: string, refused: set<string>)
    requires c in m && UniqueBlobNames(m[c].blobs)
    ensures var made := WithContainer(m, c, None);
      made[c := made[c].(blobs := PutAll(made[c].blobs, Filter(m[c].blobs, Succeeds(made[c].blobs, true, refused))))] == m
  {
    var copies := Filter(m[c].blobs, Succeeds(m[c].blobs, true, refused));
    FilterMembers(m[c].blobs, Succeeds(m[c].blobs, true, refused));
    PutAllPresent(m[c].blobs, copies);
  }
}
