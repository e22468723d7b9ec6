/** The private-endpoint step of a DR run. Every factory of the FQDN
    section has two managed private endpoints to Snowflake, one per region.
    On failover the Snowflake domain is taken out of the east endpoint's
    FQDN list and added to the west one; on failback it moves back. Both
    lists are read before anything is written, an endpoint that cannot be
    read counts as having no FQDNs, an endpoint already as desired gets no
    update, and an error ends the handling of that factory only. The driver
    builds its endpoint client from the helper module's class without a
    resource type, which raises before anything is read (`ConstructAsWritten`);
    the members named `AsWritten` follow it. Behind that, the helper's update
    never writes either (`SyncFactoryWithHelperUpdate`). The other members
    run the package's class and update, as the driver evidently intends. */
module EndpointSync {
  import opened Common
  import opened ManagedEndpoints
  import BuildConfig
  import ResourceBase

  const Domain := "kmx-qa"
  const EastEndpoint := "snowflake_east"
  const WestEndpoint := "snowflake_west"

  /** `get_adf_configs_and_mode`: the FQDN section as a list (a missing one
      raises KeyError) and the mode of the config block, "failover" when the
      block or its mode is missing. */
  function ConfigsAndMode(section: Option<OneOrMany<BuildConfig.AdfRef>>, mode: Option<string>)
    : (r: Result<(seq<BuildConfig.AdfRef>, string)>)
    ensures r.Err? <==> section.None?
    ensures r.Err? ==> r.error == KeyError
    ensures r.Ok? ==> Ok(r.value.0) == SectionAsList(section)
    ensures r.Ok? ==> r.value.1 == if mode.Some? then mode.value else "failover"
  {
    var configs :- SectionAsList(section);
    Ok((configs, mode.GetOr("failover")))
  }

  function IsNotDomain(f: string): bool { f != Domain }

  /** `[fqdn for fqdn in fqdns if fqdn != domain]`. */
  function WithoutDomain(fqdns: seq<string>): (r: seq<string>)
    ensures Domain !in r
    ensures forall f :: f != Domain ==> (f in r <==> f in fqdns)
  {
    FilterMembers(fqdns, IsNotDomain);
    Filter(fqdns, IsNotDomain)
  }

  /** The FQDNs a read gives: those of the endpoint, or none when the read
      fails. */
  function FqdnsRead(endpoints: map<EndpointAddress, Endpoint>, addr: EndpointAddress): seq<string> {
    if addr in endpoints then endpoints[addr].fqdns else []
  }

  function Addr(factory: BuildConfig.AdfRef, name: string): EndpointAddress {
    EndpointAddress(factory, DefaultVnet, name)
  }

  /** The endpoints after the domain is moved from one endpoint to the
      other outside a dry run, given the lists read at the start: the domain
      is removed where present and appended where absent; a failed removal
      abandons the move. */
  function Move(endpoints: map<EndpointAddress, Endpoint>, from: EndpointAddress, to: EndpointAddress,
                fromFqdns: seq<string>, toFqdns: seq<string>, refused: set<EndpointAddress>)
    : map<EndpointAddress, Endpoint>
  {
    var removed := if Domain in fromFqdns then AfterUpdate(endpoints, from, WithoutDomain(fromFqdns), refused)
                   else Ok(endpoints);
    match removed
    case Err(_) => endpoints
    case Ok(mid) =>
      if Domain in toFqdns then mid
      else AfterUpdate(mid, to, toFqdns + [Domain], refused).GetOr(mid)
  }

  /** The number of update requests a move issues outside a dry run. */
  function MoveUpdates(endpoints: map<EndpointAddress, Endpoint>, from: EndpointAddress,
                       fromFqdns: seq<string>, toFqdns: seq<string>, refused: set<EndpointAddress>): nat
  {
    var removal := Domain in fromFqdns;
    if removal && AfterUpdate(endpoints, from, WithoutDomain(fromFqdns), refused).Err? then 1
    else (if removal then 1 else 0) + (if Domain !in toFqdns then 1 else 0)
  }

  /** The side the domain leaves and the side it joins, by mode. */
  function Source(factory: BuildConfig.AdfRef, mode: string): EndpointAddress {
    if mode == "failover" then Addr(factory, EastEndpoint) else Addr(factory, WestEndpoint)
  }
  function Destination(factory: BuildConfig.AdfRef, mode: string): EndpointAddress {
    if mode == "failover" then Addr(factory, WestEndpoint) else Addr(factory, EastEndpoint)
  }

  predicate KnownMode(mode: string) { mode == "failover" || mode == "failback" }

  /** The endpoints after one factory is handled outside a dry run. */
  function Synced(endpoints: map<EndpointAddress, Endpoint>, factory: BuildConfig.AdfRef, mode: string,
                  refused: set<EndpointAddress>): map<EndpointAddress, Endpoint>
  {
    if !KnownMode(mode) then endpoints
    else
      var from := Source(factory, mode);
      var to := Destination(factory, mode);
      Move(endpoints, from, to, FqdnsRead(endpoints, from), FqdnsRead(endpoints, to), refused)
  }

  /** What the move achieves for a factory whose two endpoints exist and
      accept writes: the domain is gone from the side it leaves, whose other
      FQDNs stay in their order; it is on the side it joins, appended once
      when it was missing and with the list untouched when it was there;
      both endpoints keep their link properties; nothing else changes. */
  lemma SyncedMovesDomain(endpoints: map<EndpointAddress, Endpoint>, factory: BuildConfig.AdfRef, mode: string,
                          refused: set<EndpointAddress>)
    requires KnownMode(mode)
    requires Source(factory, mode) in endpoints && Destination(factory, mode) in endpoints
    requires Source(factory, mode) !in refused && Destination(factory, mode) !in refused
    ensures var after := Synced(endpoints, factory, mode, refused);
      var from := Source(factory, mode);
      var to := Destination(factory, mode);
      && after.Keys == endpoints.Keys
      && after[from].fqdns == WithoutDomain(endpoints[from].fqdns)
      && after[to].fqdns == (if Domain in endpoints[to].fqdns then endpoints[to].fqdns
                             else endpoints[to].fqdns + [Domain])
      && Domain in after[to].fqdns
      && after[from].groupId == endpoints[from].groupId && after[to].groupId == endpoints[to].groupId
      && after[from].privateLinkResourceId == endpoints[from].privateLinkResourceId
      && after[to].privateLinkResourceId == endpoints[to].privateLinkResourceId
      && forall a :: a in endpoints && a != from && a != to ==> after[a] == endpoints[a]
  {
    var from := Source(factory, mode);
    var to := Destination(factory, mode);
    var f := endpoints[from].fqdns;
    assert from != to;
    if Domain !in f {
      FilterAllKept(f);
    }
  }

  /** A list without the domain is its own selection. */
  lemma {:induction false} FilterAllKept(f: seq<string>)
    requires Domain !in f
    ensures WithoutDomain(f) == f
  {
    if f != [] {
      assert f[0] in f;
      assert forall x :: x in f[1..] ==> x in f;
      FilterAllKept(f[1..]);
      assert f == [f[0]] + f[1..];
    }
  }

  /** The move is idempotent: a second run finds the domain where it should
      be and changes nothing. */
  lemma SyncedIdempotent(endpoints: map<EndpointAddress, Endpoint>, factory: BuildConfig.AdfRef, mode: string,
                         refused: set<EndpointAddress>)
    requires KnownMode(mode)
    requires Source(factory, mode) in endpoints && Destination(factory, mode) in endpoints
    requires Source(factory, mode) !in refused && Destination(factory, mode) !in refused
    ensures var once := Synced(endpoints, factory, mode, refused);
      Synced(once, factory, mode, refused) == once
  {
    SyncedMovesDomain(endpoints, factory, mode, refused);
  }

  /** An endpoint pair already as desired gets no update, and a mode other
      than failover or failback touches nothing. */
  lemma NothingToDo(endpoints: map<EndpointAddress, Endpoint>, factory: BuildConfig.AdfRef, mode: string,
                    refused: set<EndpointAddress>)
    requires !KnownMode(mode) ||
      (Domain !in FqdnsRead(endpoints, Source(factory, mode)) && Domain in FqdnsRead(endpoints, Destination(factory, mode)))
    ensures Synced(endpoints, factory, mode, refused) == endpoints
    ensures KnownMode(mode) ==>
      MoveUpdates(endpoints, Source(factory, mode), FqdnsRead(endpoints, Source(factory, mode)),
                  FqdnsRead(endpoints, Destination(factory, mode)), refused) == 0
  {
  }

  /** One side of the move: the update of the side the domain leaves or the
      side it joins, skipped in a dry run. */
  method Apply(mgr: ADFManagedPrivateEndpoint, name: string, fqdns: seq<string>, dryRun: bool)
    returns (r: Result<()>, updates: nat)
    modifies mgr.service
    ensures dryRun ==> r.Ok? && updates == 0 && mgr.service.endpoints == old(mgr.service.endpoints)
    ensures !dryRun ==>
      var after := AfterUpdate(old(mgr.service.endpoints), Addr(mgr.factory, name), fqdns, mgr.service.refusedWrites);
      && updates == 1
      && (r.Ok? <==> after.Ok?)
      && mgr.service.endpoints == after.GetOr(old(mgr.service.endpoints))
  {
    if dryRun {
      return Ok(()), 0;
    }
    var written := mgr.UpdateManagedPrivateEndpointFqdn(name, fqdns);
    updates := 1;
    r := if written.Ok? then Ok(()) else Err(written.error);
  }

  /** The body of the loop's `try` for one factory: both lists are read,
      then the domain is moved as the mode says. Outside a dry run the
      endpoints end as `Synced` says; a dry run changes nothing and issues
      no update. */
  method SyncFactory(mgr: ADFManagedPrivateEndpoint, mode: string, dryRun: bool) returns (updates: nat)
    modifies mgr.service
    ensures dryRun ==> updates == 0 && mgr.service.endpoints == old(mgr.service.endpoints)
    ensures !dryRun ==>
      mgr.service.endpoints == Synced(old(mgr.service.endpoints), mgr.factory, mode, mgr.service.refusedWrites)
    ensures !dryRun && KnownMode(mode) ==>
      var e0 := old(mgr.service.endpoints);
      var from := Source(mgr.factory, mode);
      updates == MoveUpdates(e0, from, FqdnsRead(e0, from), FqdnsRead(e0, Destination(mgr.factory, mode)),
                             mgr.service.refusedWrites)
    ensures !KnownMode(mode) ==> updates == 0
  {
    var east := mgr.GetManagedPrivateEndpoint(EastEndpoint);
    var eastFqdns := if east.Ok? then east.value.fqdns else [];
    var west := mgr.GetManagedPrivateEndpoint(WestEndpoint);
    var westFqdns := if west.Ok? then west.value.fqdns else [];
    updates := 0;
    if !KnownMode(mode) {
      return;
    }
    var leaving, joining := EastEndpoint, WestEndpoint;
    var leavingFqdns, joiningFqdns := eastFqdns, westFqdns;
    if mode == "failback" {
      leaving, joining := WestEndpoint, EastEndpoint;
      leavingFqdns, joiningFqdns := westFqdns, eastFqdns;
    }
    if Domain in leavingFqdns {
      var removed, n := Apply(mgr, leaving, WithoutDomain(leavingFqdns), dryRun);
      updates := n;
      if removed.Err? {
        return;
      }
    }
    if Domain !in joiningFqdns {
      var added, n := Apply(mgr, joining, joiningFqdns + [Domain], dryRun);
      updates := updates + n;
    }
  }

  /** The endpoints after every factory in turn, outside a dry run. */
  function SyncedAll(endpoints: map<EndpointAddress, Endpoint>, configs: seq<BuildConfig.AdfRef>, mode: string,
                     refused: set<EndpointAddress>): map<EndpointAddress, Endpoint>
  {
    if configs == [] then endpoints
    else Synced(SyncedAll(endpoints, configs[..|configs| - 1], mode, refused), configs[|configs| - 1], mode, refused)
  }

  /** `manage_private_endpoints`: the section and the mode are read, then
      every factory is handled in turn. The result holds the number of
      update requests issued per factory. */
  method ManagePrivateEndpoints(section: Option<OneOrMany<BuildConfig.AdfRef>>, mode: Option<string>,
                                service: EndpointService, dryRun: bool)
    returns (r: Result<seq<nat>>)
    modifies service
    ensures r.Err? <==> section.None?
    ensures r.Err? ==> r.error == KeyError
    ensures r.Ok? ==> |r.value| == |SectionAsList(section).value|
    ensures dryRun ==> r.Ok? ==> forall k :: 0 <= k < |r.value| ==> r.value[k] == 0
    ensures dryRun || r.Err? ==> service.endpoints == old(service.endpoints)
    ensures !dryRun && r.Ok? ==>
      service.endpoints == SyncedAll(old(service.endpoints), SectionAsList(section).value, mode.GetOr("failover"),
                                     service.refusedWrites)
  {
    var configsAndMode :- ConfigsAndMode(section, mode);
    var (configs, m) := configsAndMode;
    ghost var e0 := service.endpoints;
    var updates: seq<nat> := [];
    var i := 0;
    while i < |configs|
      invariant 0 <= i <= |configs| && |updates| == i
      invariant dryRun ==> service.endpoints == e0 && forall k :: 0 <= k < i ==> updates[k] == 0
      invariant !dryRun ==> service.endpoints == SyncedAll(e0, configs[..i], m, service.refusedWrites)
    {
      var mgr := new ADFManagedPrivateEndpoint(service, configs[i]);
      var n := SyncFactory(mgr, m, dryRun);
      assert configs[..i + 1][..i] == configs[..i];
      updates := updates + [n];
      i := i + 1;
    }
    assert configs[..i] == configs;
    r := Ok(updates);
  }

  /** `main`: the dry-run option is read and the endpoints are managed. */
  method Run(dryRunArg: Option<string>, section: Option<OneOrMany<BuildConfig.AdfRef>>, mode: Option<string>,
             service: EndpointService)
    returns (r: Result<seq<nat>>)
    modifies service
    ensures DryRunArgument(dryRunArg).Err? ==> r == Err(ValueError)
    ensures DryRunArgument(dryRunArg).Ok? ==> (r.Err? <==> section.None?)
    ensures dryRunArg != Some("False") ==> service.endpoints == old(service.endpoints)
    ensures dryRunArg == Some("False") && r.Ok? ==>
      service.endpoints == SyncedAll(old(service.endpoints), SectionAsList(section).value, mode.GetOr("failover"),
                                     service.refusedWrites)
  {
    var dryRun :- DryRunArgument(dryRunArg);
    r := ManagePrivateEndpoints(section, mode, service, dryRun);
  }

  /** Whether handling a factory calls the update at all: the mode is known
      and the domain is still on the side it leaves or not yet on the side
      it joins. */
  predicate NeedsUpdate(endpoints: map<EndpointAddress, Endpoint>, factory: BuildConfig.AdfRef, mode: string) {
    && KnownMode(mode)
    && (Domain in FqdnsRead(endpoints, Source(factory, mode)) || Domain !in FqdnsRead(endpoints, Destination(factory, mode)))
  }

  /** With the package's update, a factory that needs an update and whose
      two endpoints exist and accept writes does change; with the helper's,
      it never does. */
  lemma MoveNeededChanges(endpoints: map<EndpointAddress, Endpoint>, factory: BuildConfig.AdfRef, mode: string,
                          refused: set<EndpointAddress>)
    requires NeedsUpdate(endpoints, factory, mode)
    requires Source(factory, mode) in endpoints && Destination(factory, mode) in endpoints
    requires Source(factory, mode) !in refused && Destination(factory, mode) !in refused
    ensures Synced(endpoints, factory, mode, refused) != endpoints
  {
    SyncedMovesDomain(endpoints, factory, mode, refused);
    var after := Synced(endpoints, factory, mode, refused);
    var from, to := Source(factory, mode), Destination(factory, mode);
    if Domain in endpoints[from].fqdns {
      assert Domain !in after[from].fqdns;
    } else {
      assert Domain in after[to].fqdns;
    }
  }

  /** One side of the move with the helper module's update (lines 84-97
      once the client is built): outside a dry run the helper's update is
      called and raises, KeyError for an endpoint that exists; nothing is
      written. */
  method ApplyAsWritten(mgr: ADFManagedPrivateEndpoint, name: string, fqdns: seq<string>, dryRun: bool)
    returns (r: Result<()>)
    ensures r.Ok? <==> dryRun
    ensures !dryRun && Addr(mgr.factory, name) in mgr.service.endpoints ==> r == Err(KeyError)
  {
    if dryRun {
      return Ok(());
    }
    var written := mgr.UpdateManagedPrivateEndpointFqdnAsWritten(name, fqdns);
    r := Err(written.error);
  }

  /** The driver's construction of its endpoint client
      (DR_sync_adf_private_endpoint.py:59-62): the helper module's class
      defines no `__init__` of its own (AzHelper.py:319), so the base's runs,
      and the driver passes it no `resource_type`. The package's class
      supplies the type "adf" itself, which the base accepts. */
  function ConstructAsWritten(config: BuildConfig.AdfRef): (r: Result<ResourceBase.Client>)
    ensures r == Err(TypeError)
    ensures ResourceBase.Dispatch("adf", config.adf).Ok?
  {
    ResourceBase.LegacyInit(None, config.adf)
  }

  /** Lines 64-117 of the loop's `try` with the helper module's update, as
      they would run once the client is built: the result says whether they
      complete without reaching the handler. Outside a dry run they complete
      exactly when no update is called, since every update raises. */
  method SyncFactoryWithHelperUpdate(mgr: ADFManagedPrivateEndpoint, mode: string, dryRun: bool) returns (completed: bool)
    ensures completed <==> dryRun || !NeedsUpdate(mgr.service.endpoints, mgr.factory, mode)
  {
    var east := mgr.GetManagedPrivateEndpoint(EastEndpoint);
    var eastFqdns := if east.Ok? then east.value.fqdns else [];
    var west := mgr.GetManagedPrivateEndpoint(WestEndpoint);
    var westFqdns := if west.Ok? then west.value.fqdns else [];
    completed := true;
    if !KnownMode(mode) {
      return;
    }
    var leaving, joining := EastEndpoint, WestEndpoint;
    var leavingFqdns, joiningFqdns := eastFqdns, westFqdns;
    if mode == "failback" {
      leaving, joining := WestEndpoint, EastEndpoint;
      leavingFqdns, joiningFqdns := westFqdns, eastFqdns;
    }
    if Domain in leavingFqdns {
      var removed := ApplyAsWritten(mgr, leaving, WithoutDomain(leavingFqdns), dryRun);
      if removed.Err? {
        return false;
      }
    }
    if Domain !in joiningFqdns {
      var added := ApplyAsWritten(mgr, joining, joiningFqdns + [Domain], dryRun);
      completed := added.Ok?;
    }
  }

  /** The body of the loop's `try` for one factory as the driver runs it:
      the construction raises TypeError into the handler, so the handling
      never completes and nothing is read or written, in a dry run too. */
  method SyncFactoryAsWritten(service: EndpointService, config: BuildConfig.AdfRef, mode: string, dryRun: bool)
    returns (completed: bool)
    ensures !completed
  {
    var client := ConstructAsWritten(config);
    completed := client.Ok?;
  }

  /** `manage_private_endpoints` as the driver runs it: the section and the
      mode are read, then every factory is handled in turn. It changes no
      endpoint (the method modifies nothing), and every factory's handling
      ends in the handler, whatever the mode and the dry-run flag. */
  method ManagePrivateEndpointsAsWritten(section: Option<OneOrMany<BuildConfig.AdfRef>>, mode: Option<string>,
                                         service: EndpointService, dryRun: bool)
    returns (r: Result<seq<bool>>)
    ensures r.Err? <==> section.None?
    ensures r.Err? ==> r.error == KeyError
    ensures r.Ok? ==> |r.value| == |SectionAsList(section).value| && forall k :: 0 <= k < |r.value| ==> !r.value[k]
  {
    var configsAndMode :- ConfigsAndMode(section, mode);
    var (configs, m) := configsAndMode;
    var completed: seq<bool> := [];
    var i := 0;
    while i < |configs|
      invariant 0 <= i <= |configs| && |completed| == i
      invariant forall k :: 0 <= k < i ==> !completed[k]
    {
      var ok := SyncFactoryAsWritten(service, configs[i], m, dryRun);
      completed := completed + [ok];
      i := i + 1;
    }
    r := Ok(completed);
  }

  /** `main` as written: whatever the dry-run option and the mode, no
      endpoint changes and every factory's handling fails. */
  method RunAsWritten(dryRunArg: Option<string>, section: Option<OneOrMany<BuildConfig.AdfRef>>, mode: Option<string>,
                      service: EndpointService)
    returns (r: Result<seq<bool>>)
    ensures DryRunArgument(dryRunArg).Err? ==> r == Err(ValueError)
    ensures DryRunArgument(dryRunArg).Ok? ==> (r.Err? <==> section.None?)
    ensures r.Ok? ==> |r.value| == |SectionAsList(section).value| && forall k :: 0 <= k < |r.value| ==> !r.value[k]
  {
    var dryRun :- DryRunArgument(dryRunArg);
    r := ManagePrivateEndpointsAsWritten(section, mode, service, dryRun);
  }
}
