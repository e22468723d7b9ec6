/** Batch pool scaling. A pool's node count lives in its scale settings;
    scaling rewrites those settings as a fixed scale of the requested
    number of dedicated nodes. The DR step moves capacity from one pool to
    its partner: the pool being left is scaled down to nothing and its
    partner is scaled up to the count the first one had. The batch service
    is a map from pool address to pool configuration, with the set of
    pools whose updates it refuses. */
module Batch {
  import opened Common
  import BuildConfig

  type PoolRef = BuildConfig.BatchRef

  /** `scaleSettings.fixedScale`: the dedicated node count, when set, and the
      other fixed-scale settings (resize timeout, low-priority nodes). */
  datatype FixedScale = FixedScale(targetDedicatedNodes: Option<int>, others: map<string, string>)

  /** `scaleSettings`: a fixed scale, an autoscale formula, or neither. */
  datatype ScaleSettings = ScaleSettings(fixedScale: Option<FixedScale>, autoScale: Option<string>)

  /** A pool's configuration on the service: its name, VM size, scale
      settings and other properties, whatever the spelling of their keys in
      a document that carries them. */
  datatype PoolConfig = PoolConfig(name: string, vmSize: string, scaleSettings: Option<ScaleSettings>,
                                   others: map<string, string>)

  /** The dedicated node count held by some scale settings, with 0 for every
      missing level. */
  function SettingsNodes(s: Option<ScaleSettings>): int {
    match s
    case None => 0
    case Some(settings) =>
      match settings.fixedScale
      case None => 0
      case Some(f) => f.targetDedicatedNodes.GetOr(0)
  }

  /** The node count the code means to read: the dedicated node count of the
      pool's fixed scale settings. (CurrentNodesAsWritten is the read the code
      makes.) */
  function CurrentNodes(p: PoolConfig): int {
    SettingsNodes(p.scaleSettings)
  }

  /** Scale settings that are a fixed scale holding only a target count. */
  function FixedTarget(target: int): ScaleSettings {
    ScaleSettings(Some(FixedScale(Some(target), map[])), None)
  }

  /** The configuration with its scale settings replaced wholesale by a fixed
      scale holding only the target count. */
  function Rescaled(p: PoolConfig, target: int): PoolConfig {
    p.(scaleSettings := Some(FixedTarget(target)))
  }

  /** A pool as `pool.get(...).as_dict()` returns it. The SDK writes attribute
      names in snake case, so the pool's scale settings sit under
      `scale_settings` / `fixed_scale` / `target_dedicated_nodes` (`config`).
      The camel-case `scaleSettings` key that the code looks up is absent
      until the code adds one (`scaleSettingsKey`). */
  datatype PoolDict = PoolDict(config: PoolConfig, scaleSettingsKey: Option<ScaleSettings>)

  /** The `as_dict()` document of a pool. */
  function AsPoolDict(p: PoolConfig): PoolDict {
    PoolDict(p, None)
  }

  /** The node count as AzHelper.py:540 and DR_scale_batch.py:58 read it:
      under the camel-case `scaleSettings` key of the document, with 0 for
      every missing level. */
  function CurrentNodesAsWritten(d: PoolDict): int {
    SettingsNodes(d.scaleSettingsKey)
  }

  /** The read as written finds no `scaleSettings` key in an `as_dict()`
      document, so every pool reads as having no nodes, whatever its
      settings hold. */
  lemma ReadsZero(p: PoolConfig)
    ensures CurrentNodesAsWritten(AsPoolDict(p)) == 0
    ensures CurrentNodes(p) != 0 ==> CurrentNodesAsWritten(AsPoolDict(p)) != CurrentNodes(p)
  {
  }

  /** What rescaling keeps and what it drops: the pool then reads as having
      the target count; its name, VM size and other settings are kept; an
      autoscale formula and the other fixed-scale settings are gone; and a
      second rescale overrides the first. */
  lemma RescaledSettings(p: PoolConfig, target: int, again: int)
    ensures CurrentNodes(Rescaled(p, target)) == target
    ensures Rescaled(p, target).name == p.name && Rescaled(p, target).vmSize == p.vmSize
    ensures Rescaled(p, target).others == p.others
    ensures Rescaled(p, target).scaleSettings.value.autoScale.None?
    ensures Rescaled(p, target).scaleSettings.value.fixedScale.value.others == map[]
    ensures Rescaled(Rescaled(p, target), again) == Rescaled(p, again)
  {
  }

  /** The pools after `scale_pool_nodes(target, dry_run=False)` on `ref`: a
      negative target raises ValueError before anything is read, a pool the
      service does not have raises, a pool already at the target is left as
      it is, and otherwise the update is sent and raises when refused. */
  function PoolsAfterScale(pools: map<PoolRef, PoolConfig>, ref: PoolRef, target: int, refused: set<PoolRef>)
    : (r: Result<map<PoolRef, PoolConfig>>)
    ensures r.Err? <==> target < 0 || ref !in pools || (CurrentNodes(pools[ref]) != target && ref in refused)
    ensures r.Err? ==> r.error == (if target < 0 then ValueError else ServiceError)
    ensures r.Ok? ==>
      && r.value.Keys == pools.Keys
      && CurrentNodes(r.value[ref]) == target
      && (forall k :: k in pools && k != ref ==> r.value[k] == pools[k])
      && (CurrentNodes(pools[ref]) == target ==> r.value == pools)
  {
    if target < 0 then Err(ValueError)
    else if ref !in pools then Err(ServiceError)
    else if CurrentNodes(pools[ref]) == target then Ok(pools)
    else if ref in refused then Err(ServiceError)
    else Ok(pools[ref := Rescaled(pools[ref], target)])
  }

  /** Scaling is idempotent: a second call with the same target finds the
      pool at the target and changes nothing. */
  lemma ScaleIdempotent(pools: map<PoolRef, PoolConfig>, ref: PoolRef, target: int, refused: set<PoolRef>)
    requires PoolsAfterScale(pools, ref, target, refused).Ok?
    ensures PoolsAfterScale(PoolsAfterScale(pools, ref, target, refused).value, ref, target, refused)
         == PoolsAfterScale(pools, ref, target, refused)
  {
  }

  /** The pools after `scale_pool_nodes(target, dry_run=False)` as written.
      The count is read as CurrentNodesAsWritten, so a target of 0 always
      finds the pool "already" there and returns before any update. Any
      other target adds a camel-case `scaleSettings` key beside the
      document's own `scale_settings` and sends the document; whether the
      service applies the added key or the original settings is an input
      (`appliesAddedKey`). */
  function PoolsAfterScaleAsWritten(pools: map<PoolRef, PoolConfig>, ref: PoolRef, target: int, refused: set<PoolRef>,
                                    appliesAddedKey: bool)
    : (r: Result<map<PoolRef, PoolConfig>>)
    ensures r.Err? <==> target < 0 || ref !in pools || (target != 0 && ref in refused)
    ensures r.Err? ==> r.error == (if target < 0 then ValueError else ServiceError)
    ensures r.Ok? ==> r.value.Keys == pools.Keys && forall k :: k in pools && k != ref ==> r.value[k] == pools[k]
    ensures r.Ok? && (target == 0 || !appliesAddedKey) ==> r.value == pools
    ensures r.Ok? && target != 0 && appliesAddedKey ==> CurrentNodes(r.value[ref]) == target
  {
    if target < 0 then Err(ValueError)
    else if ref !in pools then Err(ServiceError)
    else if CurrentNodesAsWritten(AsPoolDict(pools[ref])) == target then Ok(pools)
    else if ref in refused then Err(ServiceError)
    else if appliesAddedKey then Ok(pools[ref := Rescaled(pools[ref], target)])
    else Ok(pools)
  }

  /** The batch management service. */
  class BatchService {
    var pools: map<PoolRef, PoolConfig>
    const refusedUpdates: set<PoolRef>

    constructor(pools: map<PoolRef, PoolConfig>, refusedUpdates: set<PoolRef>)
      ensures this.pools == pools && this.refusedUpdates == refusedUpdates
    {
      this.pools := pools;
      this.refusedUpdates := refusedUpdates;
    }
  }

  /** `AzureBatchPool`: one pool of one batch account. */
  class AzureBatchPool {
    const service: BatchService
    const pool: PoolRef

    constructor(service: BatchService, pool: PoolRef)
      ensures this.service == service && this.pool == pool
    {
      this.service := service;
      this.pool := pool;
    }

    /** `get_pool_config`: the stored configuration; a pool the service does
        not have raises. */
    method GetPoolConfig() returns (r: Result<PoolConfig>)
      ensures r.Ok? <==> pool in service.pools
      ensures r.Ok? ==> r.value == service.pools[pool]
      ensures r.Err? ==> r.error == ServiceError
    {
      if pool !in service.pools {
        return Err(ServiceError);
      }
      r := Ok(service.pools[pool]);
    }

    /** `scale_pool_nodes`: outside a dry run the service ends as
        `PoolsAfterScale` says and the updated configuration is returned; a
        dry run changes nothing and returns the configuration the update
        would send. A pool already at the target comes back as it is. */
    method ScalePoolNodes(target: int, dryRun: bool := true) returns (r: Result<PoolConfig>)
      modifies service
      ensures r.Err? <==>
        target < 0 || pool !in old(service.pools) ||
        (!dryRun && CurrentNodes(old(service.pools)[pool]) != target && pool in service.refusedUpdates)
      ensures r.Err? ==> r.error == (if target < 0 then ValueError else ServiceError)
      ensures r.Ok? ==> CurrentNodes(r.value) == target
      ensures r.Ok? ==> r.value == if CurrentNodes(old(service.pools)[pool]) == target
                                   then old(service.pools)[pool]
                                   else Rescaled(old(service.pools)[pool], target)
      ensures dryRun || r.Err? ==> service.pools == old(service.pools)
      ensures !dryRun ==>
        var after := PoolsAfterScale(old(service.pools), pool, target, service.refusedUpdates);
        (r.Ok? <==> after.Ok?) && (r.Ok? ==> service.pools == after.value && r.value == after.value[pool])
    {
      if target < 0 {
        return Err(ValueError);
      }
      var config := GetPoolConfig();
      if config.Err? {
        return Err(config.error);
      }
      if CurrentNodes(config.value) == target {
        return config;
      }
      var updated := Rescaled(config.value, target);
      if dryRun {
        return Ok(updated);
      }
      if pool in service.refusedUpdates {
        return Err(ServiceError);
      }
      service.pools := service.pools[pool := updated];
      r := Ok(updated);
    }

    /** `scale_pool_nodes` as written: the same error cases as ScalePoolNodes
        with the count read as 0, so a target of 0 returns the `as_dict()`
        document untouched and is never refused. A dry run returns the
        document with the `scaleSettings` key added; otherwise the service
        ends as `PoolsAfterScaleAsWritten` says and the pool's new document
        is returned. */
    method ScalePoolNodesAsWritten(target: int, appliesAddedKey: bool, dryRun: bool := true) returns (r: Result<PoolDict>)
      modifies service
      ensures r.Err? <==>
        target < 0 || pool !in old(service.pools) || (!dryRun && target != 0 && pool in service.refusedUpdates)
      ensures r.Err? ==> r.error == (if target < 0 then ValueError else ServiceError)
      ensures r.Ok? && target == 0 ==> r.value == AsPoolDict(old(service.pools)[pool])
      ensures r.Ok? && target != 0 && dryRun ==> r.value == PoolDict(old(service.pools)[pool], Some(FixedTarget(target)))
      ensures dryRun || r.Err? ==> service.pools == old(service.pools)
      ensures !dryRun ==>
        var after := PoolsAfterScaleAsWritten(old(service.pools), pool, target, service.refusedUpdates, appliesAddedKey);
        (r.Ok? <==> after.Ok?) && (r.Ok? ==> service.pools == after.value) &&
        (r.Ok? && target != 0 ==> r.value == AsPoolDict(after.value[pool]))
    {
      if target < 0 {
        return Err(ValueError);
      }
      var config := GetPoolConfig();
      if config.Err? {
        return Err(config.error);
      }
      var document := AsPoolDict(config.value);
      if CurrentNodesAsWritten(document) == target {
        return Ok(document);
      }
      document := document.(scaleSettingsKey := Some(FixedTarget(target)));
      if dryRun {
        return Ok(document);
      }
      if pool in service.refusedUpdates {
        return Err(ServiceError);
      }
      if appliesAddedKey {
        service.pools := service.pools[pool := Rescaled(config.value, target)];
      }
      r := Ok(AsPoolDict(service.pools[pool]));
    }
  }

  /** The count the partner pool is scaled up to: the count the pool being
      left had, or one node when it had none. */
  function UpTarget(current: int): (target: int)
    ensures current >= 0 ==> target >= 1
    ensures current != 0 ==> target == current
  {
    if current == 0 then 1 else current
  }

  /** The pools after one scale configuration outside a dry run: the count
      of the pool being left is read, that pool is scaled to 0 and its
      partner to `UpTarget` of the count read. A failure at any step stops
      this configuration, keeping whatever was already done. */
  function Swap(pools: map<PoolRef, PoolConfig>, pair: BuildConfig.ScalePair, refused: set<PoolRef>)
    : map<PoolRef, PoolConfig>
  {
    if pair.scaleDown !in pools then pools
    else
      var n := CurrentNodes(pools[pair.scaleDown]);
      match PoolsAfterScale(pools, pair.scaleDown, 0, refused)
      case Err(_) => pools
      case Ok(down) =>
        match PoolsAfterScale(down, pair.scaleUp, UpTarget(n), refused)
        case Err(_) => down
        case Ok(up) => up
  }

  /** Whether every step of a configuration goes through. */
  predicate SwapCompletes(pools: map<PoolRef, PoolConfig>, pair: BuildConfig.ScalePair, refused: set<PoolRef>) {
    && pair.scaleDown in pools
    && PoolsAfterScale(pools, pair.scaleDown, 0, refused).Ok?
    && PoolsAfterScale(PoolsAfterScale(pools, pair.scaleDown, 0, refused).value, pair.scaleUp,
                       UpTarget(CurrentNodes(pools[pair.scaleDown])), refused).Ok?
  }

  /** Capacity moves: with two distinct pools that both exist and accept
      updates, the pool being left ends with no nodes, its partner ends with
      the count the first had (one node when it had none), and every other
      pool is unchanged. */
  lemma SwapMovesCapacity(pools: map<PoolRef, PoolConfig>, pair: BuildConfig.ScalePair, refused: set<PoolRef>)
    requires pair.scaleDown != pair.scaleUp
    requires pair.scaleDown in pools && pair.scaleUp in pools
    requires pair.scaleDown !in refused && pair.scaleUp !in refused
    requires CurrentNodes(pools[pair.scaleDown]) >= 0
    ensures SwapCompletes(pools, pair, refused)
    ensures var after := Swap(pools, pair, refused);
      && after.Keys == pools.Keys
      && CurrentNodes(after[pair.scaleDown]) == 0
      && CurrentNodes(after[pair.scaleUp]) == UpTarget(CurrentNodes(pools[pair.scaleDown]))
      && forall k :: k in pools && k != pair.scaleDown && k != pair.scaleUp ==> after[k] == pools[k]
  {
    var down := PoolsAfterScale(pools, pair.scaleDown, 0, refused);
    assert down.Ok?;
    var up := PoolsAfterScale(down.value, pair.scaleUp, UpTarget(CurrentNodes(pools[pair.scaleDown])), refused);
    assert up.Ok?;
    assert Swap(pools, pair, refused) == up.value;
  }

  /** A scale-up that fails does not undo the scale-down: when the partner
      pool does not exist, the pool being left still ends with no nodes. */
  lemma FailedScaleUpKeepsScaleDown(pools: map<PoolRef, PoolConfig>, pair: BuildConfig.ScalePair, refused: set<PoolRef>)
    requires pair.scaleDown in pools && pair.scaleDown !in refused
    requires pair.scaleUp !in pools
    ensures !SwapCompletes(pools, pair, refused)
    ensures CurrentNodes(Swap(pools, pair, refused)[pair.scaleDown]) == 0
  {
    var down := PoolsAfterScale(pools, pair.scaleDown, 0, refused);
    assert down.Ok? && pair.scaleUp !in down.value;
  }

  /** Running a completed configuration a second time does not give the same
      pools: the pool being left now reads 0, so its partner is scaled down
      to a single node. */
  lemma SecondRunLeavesOneNode(pools: map<PoolRef, PoolConfig>, pair: BuildConfig.ScalePair, refused: set<PoolRef>)
    requires pair.scaleDown != pair.scaleUp
    requires pair.scaleDown in pools && pair.scaleUp in pools
    requires pair.scaleDown !in refused && pair.scaleUp !in refused
    requires CurrentNodes(pools[pair.scaleDown]) > 1
    ensures CurrentNodes(Swap(pools, pair, refused)[pair.scaleUp]) == CurrentNodes(pools[pair.scaleDown])
    ensures CurrentNodes(Swap(Swap(pools, pair, refused), pair, refused)[pair.scaleUp]) == 1
  {
    SwapMovesCapacity(pools, pair, refused);
    var once := Swap(pools, pair, refused);
    SwapMovesCapacity(once, pair, refused);
  }

  /** The pools after the configurations in order, outside a dry run. */
  function SwapAll(pools: map<PoolRef, PoolConfig>, configs: seq<BuildConfig.ScalePair>, refused: set<PoolRef>)
    : map<PoolRef, PoolConfig>
  {
    if configs == [] then pools
    else Swap(SwapAll(pools, configs[..|configs| - 1], refused), configs[|configs| - 1], refused)
  }

  /** Whether a pool is named by some configuration, on either side. */
  predicate Named(configs: seq<BuildConfig.ScalePair>, ref: PoolRef) {
    exists i :: 0 <= i < |configs| && (configs[i].scaleDown == ref || configs[i].scaleUp == ref)
  }

  /** One configuration creates no pool, removes none, and touches only the
      two pools it names. */
  lemma SwapFrame(pools: map<PoolRef, PoolConfig>, pair: BuildConfig.ScalePair, refused: set<PoolRef>)
    ensures Swap(pools, pair, refused).Keys == pools.Keys
    ensures forall k :: k in pools && k != pair.scaleDown && k != pair.scaleUp ==>
      Swap(pools, pair, refused)[k] == pools[k]
  {
    if pair.scaleDown in pools {
      var down := PoolsAfterScale(pools, pair.scaleDown, 0, refused);
      if down.Ok? {
        var up := PoolsAfterScale(down.value, pair.scaleUp, UpTarget(CurrentNodes(pools[pair.scaleDown])), refused);
      }
    }
  }

  /** The whole run creates no pool, removes none, and leaves every pool no
      configuration names exactly as it was. */
  lemma {:induction false} SwapAllFrame(pools: map<PoolRef, PoolConfig>, configs: seq<BuildConfig.ScalePair>,
                                        refused: set<PoolRef>)
    ensures SwapAll(pools, configs, refused).Keys == pools.Keys
    ensures forall k :: k in pools && !Named(configs, k) ==> SwapAll(pools, configs, refused)[k] == pools[k]
  {
    if configs != [] {
      var init := configs[..|configs| - 1];
      var last := configs[|configs| - 1];
      SwapAllFrame(pools, init, refused);
      SwapFrame(SwapAll(pools, init, refused), last, refused);
      assert forall i :: 0 <= i < |init| ==> init[i] == configs[i];
      assert configs[|configs| - 1] == last;
    }
  }

  /** One configuration as written: the count of the pool being left is read
      as 0, so its scale-down to 0 returns at once and its partner is
      always scaled to one node. A failure stops this configuration,
      keeping whatever was already done. */
  function SwapAsWritten(pools: map<PoolRef, PoolConfig>, pair: BuildConfig.ScalePair, refused: set<PoolRef>,
                         appliesAddedKey: bool)
    : map<PoolRef, PoolConfig>
  {
    if pair.scaleDown !in pools then pools
    else
      var n := CurrentNodesAsWritten(AsPoolDict(pools[pair.scaleDown]));
      match PoolsAfterScaleAsWritten(pools, pair.scaleDown, 0, refused, appliesAddedKey)
      case Err(_) => pools
      case Ok(down) =>
        match PoolsAfterScaleAsWritten(down, pair.scaleUp, UpTarget(n), refused, appliesAddedKey)
        case Err(_) => down
        case Ok(up) => up
  }

  /** As written, the pool being left is never scaled down: every pool but
      the partner keeps its configuration, the partner is rescaled to one
      node when it exists, accepts updates and the service applies the added
      key, and otherwise nothing changes at all. */
  lemma LeftPoolNeverScaledDown(pools: map<PoolRef, PoolConfig>, pair: BuildConfig.ScalePair, refused: set<PoolRef>,
                                appliesAddedKey: bool)
    ensures var after := SwapAsWritten(pools, pair, refused, appliesAddedKey);
      && after.Keys == pools.Keys
      && (forall k :: k in pools && k != pair.scaleUp ==> after[k] == pools[k])
      && (!appliesAddedKey ==> after == pools)
      && (pair.scaleDown in pools && pair.scaleUp in pools && pair.scaleUp !in refused && appliesAddedKey ==>
            after == pools[pair.scaleUp := Rescaled(pools[pair.scaleUp], 1)])
  {
    if pair.scaleDown in pools {
      ReadsZero(pools[pair.scaleDown]);
    }
  }

  /** Where the two halves part: with a pool being left that has nodes and a
      partner that both exist and accept updates, the intended swap empties
      the first pool and gives its count to the partner, while the swap as
      written leaves the first pool's count as it was and gives the partner
      one node (or nothing, when the service applies the original
      settings). A pool with 4 nodes and a partner with 0 end 0 and 4 as
      intended, 4 and 1 (or 4 and 0) as written. */
  lemma SwapAsWrittenDiffers(pools: map<PoolRef, PoolConfig>, pair: BuildConfig.ScalePair, refused: set<PoolRef>,
                             appliesAddedKey: bool)
    requires pair.scaleDown != pair.scaleUp
    requires pair.scaleDown in pools && pair.scaleUp in pools
    requires pair.scaleDown !in refused && pair.scaleUp !in refused
    requires CurrentNodes(pools[pair.scaleDown]) > 0
    ensures CurrentNodes(Swap(pools, pair, refused)[pair.scaleDown]) == 0
    ensures CurrentNodes(Swap(pools, pair, refused)[pair.scaleUp]) == CurrentNodes(pools[pair.scaleDown])
    ensures CurrentNodes(SwapAsWritten(pools, pair, refused, appliesAddedKey)[pair.scaleDown])
         == CurrentNodes(pools[pair.scaleDown])
    ensures CurrentNodes(SwapAsWritten(pools, pair, refused, appliesAddedKey)[pair.scaleUp])
         == if appliesAddedKey then 1 else CurrentNodes(pools[pair.scaleUp])
  {
    SwapMovesCapacity(pools, pair, refused);
    LeftPoolNeverScaledDown(pools, pair, refused, appliesAddedKey);
  }

  /** The pools after the configurations in order as written, outside a dry
      run. */
  function SwapAllAsWritten(pools: map<PoolRef, PoolConfig>, configs: seq<BuildConfig.ScalePair>, refused: set<PoolRef>,
                            appliesAddedKey: bool)
    : map<PoolRef, PoolConfig>
  {
    if configs == [] then pools
    else SwapAsWritten(SwapAllAsWritten(pools, configs[..|configs| - 1], refused, appliesAddedKey),
                       configs[|configs| - 1], refused, appliesAddedKey)
  }

  /** Whether a pool is the partner of some configuration. */
  predicate NamedUp(configs: seq<BuildConfig.ScalePair>, ref: PoolRef) {
    exists i :: 0 <= i < |configs| && configs[i].scaleUp == ref
  }

  /** The whole run as written scales no pool down: every pool that is no
      configuration's partner keeps its configuration, no pool is created or
      removed, and when the service applies the original settings nothing
      changes at all. */
  lemma {:induction false} LeftPoolsNeverScaledDown(pools: map<PoolRef, PoolConfig>, configs: seq<BuildConfig.ScalePair>,
                                                    refused: set<PoolRef>, appliesAddedKey: bool)
    ensures SwapAllAsWritten(pools, configs, refused, appliesAddedKey).Keys == pools.Keys
    ensures forall k :: k in pools && !NamedUp(configs, k) ==>
      SwapAllAsWritten(pools, configs, refused, appliesAddedKey)[k] == pools[k]
    ensures !appliesAddedKey ==> SwapAllAsWritten(pools, configs, refused, appliesAddedKey) == pools
  {
    if configs != [] {
      var init := configs[..|configs| - 1];
      var last := configs[|configs| - 1];
      LeftPoolsNeverScaledDown(pools, init, refused, appliesAddedKey);
      LeftPoolNeverScaledDown(SwapAllAsWritten(pools, init, refused, appliesAddedKey), last, refused, appliesAddedKey);
      assert forall i :: 0 <= i < |init| ==> init[i] == configs[i];
    }
  }

  /** The handling of one configuration inside the loop's `try`: outside a
      dry run the pools end as `Swap` says, and the handling completes
      exactly when every step goes through; a dry run changes nothing and
      completes when both pools exist and the scale-up target is not
      negative. */
  method ScalePair(service: BatchService, pair: BuildConfig.ScalePair, dryRun: bool) returns (completed: bool)
    modifies service
    ensures dryRun ==> service.pools == old(service.pools)
    ensures !dryRun ==> service.pools == Swap(old(service.pools), pair, service.refusedUpdates)
    ensures !dryRun ==> (completed <==> SwapCompletes(old(service.pools), pair, service.refusedUpdates))
    ensures dryRun ==>
      (completed <==> pair.scaleDown in old(service.pools) && pair.scaleUp in old(service.pools) &&
                      UpTarget(CurrentNodes(old(service.pools)[pair.scaleDown])) >= 0)
  {
    var downPool := new AzureBatchPool(service, pair.scaleDown);
    var upPool := new AzureBatchPool(service, pair.scaleUp);
    var config := downPool.GetPoolConfig();
    if config.Err? {
      return false;
    }
    var current := CurrentNodes(config.value);
    var down := downPool.ScalePoolNodes(0, dryRun);
    if down.Err? {
      return false;
    }
    var up := upPool.ScalePoolNodes(UpTarget(current), dryRun);
    completed := up.Ok?;
  }

  /** `scale_batch_pools`: the scale section is read (a missing section
      raises KeyError) and every configuration is handled in turn; a
      configuration that fails is reported and the loop goes on. Outside a
      dry run the pools end as `SwapAll` says; a dry run changes nothing. */
  method ScaleBatchPools(section: Option<OneOrMany<BuildConfig.ScalePair>>, service: BatchService, dryRun: bool)
    returns (r: Result<seq<bool>>)
    modifies service
    ensures r.Err? <==> section.None?
    ensures r.Err? ==> r.error == KeyError
    ensures r.Ok? ==> |r.value| == |SectionAsList(section).value|
    ensures dryRun || r.Err? ==> service.pools == old(service.pools)
    ensures !dryRun && r.Ok? ==> service.pools == SwapAll(old(service.pools), SectionAsList(section).value, service.refusedUpdates)
  {
    var configs :- SectionAsList(section);
    ghost var p0 := service.pools;
    var completed: seq<bool> := [];
    var i := 0;
    while i < |configs|
      invariant 0 <= i <= |configs| && |completed| == i
      invariant dryRun ==> service.pools == p0
      invariant !dryRun ==> service.pools == SwapAll(p0, configs[..i], service.refusedUpdates)
    {
      var done := ScalePair(service, configs[i], dryRun);
      assert configs[..i + 1][..i] == configs[..i];
      completed := completed + [done];
      i := i + 1;
    }
    assert configs[..i] == configs;
    r := Ok(completed);
  }

  /** `main`: the dry-run option is read (a value other than "True" or
      "False" is refused) and the pools are scaled; only "False" changes
      them, as `SwapAll` says. */
  method Run(dryRunArg: Option<string>, section: Option<OneOrMany<BuildConfig.ScalePair>>, service: BatchService)
    returns (r: Result<seq<bool>>)
    modifies service
    ensures DryRunArgument(dryRunArg).Err? ==> r == Err(ValueError)
    ensures DryRunArgument(dryRunArg).Ok? ==> (r.Err? <==> section.None?) && (r.Err? ==> r.error == KeyError)
    ensures r.Ok? ==> |r.value| == |SectionAsList(section).value|
    ensures dryRunArg != Some("False") || r.Err? ==> service.pools == old(service.pools)
    ensures dryRunArg == Some("False") && r.Ok? ==>
      service.pools == SwapAll(old(service.pools), SectionAsList(section).value, service.refusedUpdates)
  {
    var dryRun :- DryRunArgument(dryRunArg);
    r := ScaleBatchPools(section, service, dryRun);
  }

  /** The handling of one configuration as written: the pools end as
      `SwapAsWritten` says, and the handling completes exactly when both
      pools exist and, outside a dry run, the partner accepts its update. */
  method ScalePairAsWritten(service: BatchService, pair: BuildConfig.ScalePair, dryRun: bool, appliesAddedKey: bool)
    returns (completed: bool)
    modifies service
    ensures dryRun ==> service.pools == old(service.pools)
    ensures !dryRun ==> service.pools == SwapAsWritten(old(service.pools), pair, service.refusedUpdates, appliesAddedKey)
    ensures completed <==> pair.scaleDown in old(service.pools) && pair.scaleUp in old(service.pools) &&
                           (dryRun || pair.scaleUp !in service.refusedUpdates)
  {
    var downPool := new AzureBatchPool(service, pair.scaleDown);
    var upPool := new AzureBatchPool(service, pair.scaleUp);
    var config := downPool.GetPoolConfig();
    if config.Err? {
      return false;
    }
    var current := CurrentNodesAsWritten(AsPoolDict(config.value));
    var down := downPool.ScalePoolNodesAsWritten(0, appliesAddedKey, dryRun);
    if down.Err? {
      return false;
    }
    var up := upPool.ScalePoolNodesAsWritten(UpTarget(current), appliesAddedKey, dryRun);
    completed := up.Ok?;
  }

  /** `scale_batch_pools` as written: the same loop over the configurations,
      each handled as ScalePairAsWritten says. */
  method ScaleBatchPoolsAsWritten(section: Option<OneOrMany<BuildConfig.ScalePair>>, service: BatchService, dryRun: bool,
                                  appliesAddedKey: bool)
    returns (r: Result<seq<bool>>)
    modifies service
    ensures r.Err? <==> section.None?
    ensures r.Err? ==> r.error == KeyError
    ensures r.Ok? ==> |r.value| == |SectionAsList(section).value|
    ensures dryRun || r.Err? ==> service.pools == old(service.pools)
    ensures !dryRun && r.Ok? ==>
      service.pools == SwapAllAsWritten(old(service.pools), SectionAsList(section).value, service.refusedUpdates, appliesAddedKey)
  {
    var configs :- SectionAsList(section);
    ghost var p0 := service.pools;
    var completed: seq<bool> := [];
    var i := 0;
    while i < |configs|
      invariant 0 <= i <= |configs| && |completed| == i
      invariant dryRun ==> service.pools == p0
      invariant !dryRun ==> service.pools == SwapAllAsWritten(p0, configs[..i], service.refusedUpdates, appliesAddedKey)
    {
      var done := ScalePairAsWritten(service, configs[i], dryRun, appliesAddedKey);
      assert configs[..i + 1][..i] == configs[..i];
      completed := completed + [done];
      i := i + 1;
    }
    assert configs[..i] == configs;
    r := Ok(completed);
  }

  /** `main` as written: the same option handling, with the pools ending as
      `SwapAllAsWritten` says under "False", so no pool is ever scaled
      down (LeftPoolsNeverScaledDown). */
  method RunAsWritten(dryRunArg: Option<string>, section: Option<OneOrMany<BuildConfig.ScalePair>>, service: BatchService,
                      appliesAddedKey: bool)
    returns (r: Result<seq<bool>>)
    modifies service
    ensures DryRunArgument(dryRunArg).Err? ==> r == Err(ValueError)
    ensures DryRunArgument(dryRunArg).Ok? ==> (r.Err? <==> section.None?) && (r.Err? ==> r.error == KeyError)
    ensures r.Ok? ==> |r.value| == |SectionAsList(section).value|
    ensures dryRunArg != Some("False") || r.Err? ==> service.pools == old(service.pools)
    ensures dryRunArg == Some("False") && r.Ok? ==>
      service.pools == SwapAllAsWritten(old(service.pools), SectionAsList(section).value, service.refusedUpdates, appliesAddedKey)
  {
    var dryRun :- DryRunArgument(dryRunArg);
    r := ScaleBatchPoolsAsWritten(section, service, dryRun, appliesAddedKey);
  }
}
