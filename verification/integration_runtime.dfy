/** Integration runtimes of a data factory and the interactive-authoring
    switch. A runtime's status report carries its type and the state of
    interactive authoring. Enabling is asynchronous: the enable request is
    accepted at once, and the runtime reports itself enabled only after some
    waiting. The service keeps, per runtime that is being enabled, the
    number of waits still needed; a wait (the code's `time.sleep`) moves
    every pending activation on by one. */
module IntegrationRuntime {
  import opened Common
  import BuildConfig

  datatype RuntimeAddress = RuntimeAddress(factory: BuildConfig.AdfRef, name: string)

  /** The `getStatus` report: `properties.type` and
      `properties.typeProperties.interactiveQuery.status`, either of which
      may be missing. */
  datatype StatusReport = StatusReport(irType: Option<string>, interactiveStatus: Option<string>)

  /** An enable request as sent: the runtime and `autoTerminationMinutes`. */
  datatype EnableRequest = EnableRequest(runtime: RuntimeAddress, autoTerminationMinutes: int)

  const DefaultMinutes := 10

  /** `get_ir_status`: enabled exactly when the status is "Enabled"; a
      missing status is not enabled. */
  predicate InteractiveEnabled(s: StatusReport) {
    s.interactiveStatus == Some("Enabled")
  }

  /** `get_ir_type`: the runtime's type; a report without one raises
      ValueError. */
  function RuntimeType(s: StatusReport): (r: Result<string>)
    ensures r.Err? <==> s.irType.None?
    ensures r.Err? ==> r.error == ValueError
    ensures r.Ok? ==> r.value == s.irType.value
  {
    match s.irType
    case None => Err(ValueError)
    case Some(t) => Ok(t)
  }

  /** How `enable_interactive_authoring` ends when nothing fails. */
  datatype Outcome = NotManaged | AlreadyEnabled | Enabled

  /** The guards of the enable: a runtime that is not "Managed" and one
      already enabled get no request; only a managed runtime without
      interactive authoring is sent one. */
  function Guard(s: StatusReport): (r: Result<Outcome>)
    ensures r.Err? <==> s.irType.None?
    ensures r == Ok(Enabled) <==> s.irType == Some("Managed") && !InteractiveEnabled(s)
    ensures r == Ok(AlreadyEnabled) <==> s.irType == Some("Managed") && InteractiveEnabled(s)
    ensures r == Ok(NotManaged) <==> s.irType.Some? && s.irType != Some("Managed")
  {
    var t :- RuntimeType(s);
    if t != "Managed" then Ok(NotManaged)
    else if InteractiveEnabled(s) then Ok(AlreadyEnabled)
    else Ok(Enabled)
  }

  function WithInteractive(s: StatusReport): StatusReport {
    s.(interactiveStatus := Some("Enabled"))
  }

  /** The data factory service's integration runtimes. */
  class RuntimeService {
    var runtimes: map<RuntimeAddress, StatusReport>
    /** Runtimes being enabled, with the waits still needed. */
    var activating: map<RuntimeAddress, nat>
    /** Every enable request the service has accepted, in order. */
    var requests: seq<EnableRequest>
    /** How many waits an accepted request takes to show. */
    const activationWaits: nat
    const refusedEnables: set<RuntimeAddress>

    ghost predicate Valid()
      reads this
    {
      activating.Keys <= runtimes.Keys && forall a :: a in activating ==> activating[a] > 0
    }

    constructor(runtimes: map<RuntimeAddress, StatusReport>, activationWaits: nat, refusedEnables: set<RuntimeAddress>)
      ensures Valid()
      ensures this.runtimes == runtimes && this.activating == map[] && this.requests == []
      ensures this.activationWaits == activationWaits && this.refusedEnables == refusedEnables
    {
      this.runtimes := runtimes;
      this.activating := map[];
      this.requests := [];
      this.activationWaits := activationWaits;
      this.refusedEnables := refusedEnables;
    }

    /** The `enableInteractiveQuery` request: a missing or refusing runtime
        raises; an accepted request is recorded and the runtime starts
        activating (at once when the service needs no wait). */
    method RequestEnable(a: RuntimeAddress, minutes: int) returns (r: Result<()>)
      requires Valid()
      modifies this
      ensures Valid()
      ensures r.Ok? <==> a in old(runtimes) && a !in refusedEnables
      ensures r.Err? ==> r.error == ServiceError && runtimes == old(runtimes)
                         && activating == old(activating) && requests == old(requests)
      ensures r.Ok? ==> requests == old(requests) + [EnableRequest(a, minutes)]
      ensures r.Ok? ==> runtimes.Keys == old(runtimes).Keys
      ensures r.Ok? ==> a in activating || InteractiveEnabled(runtimes[a])
      ensures forall b :: b in old(runtimes) && b != a ==> runtimes[b] == old(runtimes)[b]
      ensures forall b :: b in old(runtimes) ==> runtimes[b].irType == old(runtimes)[b].irType
      ensures forall b :: b in old(runtimes) && InteractiveEnabled(old(runtimes)[b]) ==> InteractiveEnabled(runtimes[b])
    {
      if a !in runtimes || a in refusedEnables {
        return Err(ServiceError);
      }
      requests := requests + [EnableRequest(a, minutes)];
      if activationWaits == 0 {
        runtimes := runtimes[a := WithInteractive(runtimes[a])];
        activating := activating - {a};
      } else {
        activating := activating[a := activationWaits];
      }
      r := Ok(());
    }

    /** One wait: every pending activation moves on, and a runtime whose
        last wait has passed reports interactive authoring enabled. */
    method Wait()
      requires Valid()
      modifies this
      ensures Valid()
      ensures requests == old(requests)
      ensures runtimes.Keys == old(runtimes).Keys
      ensures forall b :: b in old(runtimes) ==> runtimes[b].irType == old(runtimes)[b].irType
      ensures forall b :: b in old(runtimes) && InteractiveEnabled(old(runtimes)[b]) ==> InteractiveEnabled(runtimes[b])
      ensures forall b :: b in old(runtimes) && b !in old(activating) ==> runtimes[b] == old(runtimes)[b]
      ensures forall b :: b in old(activating) ==>
        if old(activating)[b] == 1 then b !in activating && InteractiveEnabled(runtimes[b])
        else b in activating && activating[b] == old(activating)[b] - 1
      ensures activating.Keys <= old(activating).Keys
    {
      var due := set b | b in activating && activating[b] == 1;
      runtimes := map b | b in runtimes :: if b in due then WithInteractive(runtimes[b]) else runtimes[b];
      activating := map b | b in activating && b !in due :: activating[b] - 1;
    }
  }

  /** `ADFIntegrationRuntime`: the runtimes of one factory. */
  class ADFIntegrationRuntime {
    const service: RuntimeService
    const factory: BuildConfig.AdfRef

    constructor(service: RuntimeService, factory: BuildConfig.AdfRef)
      ensures this.service == service && this.factory == factory
    {
      this.service := service;
      this.factory := factory;
    }

    /** `get_ir`: the status report; a runtime the service does not have
        raises. */
    method GetIr(name: string) returns (r: Result<StatusReport>)
      ensures r.Ok? <==> RuntimeAddress(factory, name) in service.runtimes
      ensures r.Ok? ==> r.value == service.runtimes[RuntimeAddress(factory, name)]
      ensures r.Err? ==> r.error == ServiceError
    {
      var a := RuntimeAddress(factory, name);
      if a !in service.runtimes {
        return Err(ServiceError);
      }
      r := Ok(service.runtimes[a]);
    }

    method GetIrStatus(name: string) returns (r: Result<bool>)
      ensures r.Ok? <==> RuntimeAddress(factory, name) in service.runtimes
      ensures r.Ok? ==> r.value == InteractiveEnabled(service.runtimes[RuntimeAddress(factory, name)])
      ensures r.Err? ==> r.error == ServiceError
    {
      var report :- GetIr(name);
      r := Ok(InteractiveEnabled(report));
    }

    method GetIrType(name: string) returns (r: Result<string>)
      ensures RuntimeAddress(factory, name) !in service.runtimes ==> r == Err(ServiceError)
      ensures RuntimeAddress(factory, name) in service.runtimes ==>
        r == RuntimeType(service.runtimes[RuntimeAddress(factory, name)])
    {
      var report :- GetIr(name);
      r := RuntimeType(report);
    }

    /** `enable_interactive_authoring`: the guards decide on the report
        read at the start; a request goes out only when they let it, and
        then the runtime is polled, with a wait between reads, until it
        reports interactive authoring enabled. */
    method EnableInteractiveAuthoring(name: string, minutes: int := DefaultMinutes) returns (r: Result<Outcome>)
      requires service.Valid()
      modifies service
      ensures service.Valid()
      ensures var a := RuntimeAddress(factory, name);
        && (a !in old(service.runtimes) ==> r == Err(ServiceError))
        && (a in old(service.runtimes) && Guard(old(service.runtimes)[a]) != Ok(Enabled) ==>
              r == Guard(old(service.runtimes)[a]))
        && (a in old(service.runtimes) && Guard(old(service.runtimes)[a]) == Ok(Enabled) ==>
              (r.Ok? <==> a !in service.refusedEnables))
      ensures r != Ok(Enabled) ==> service.requests == old(service.requests)
                                   && service.runtimes == old(service.runtimes)
      ensures r == Ok(Enabled) ==>
        var a := RuntimeAddress(factory, name);
        && service.runtimes.Keys == old(service.runtimes).Keys
        && a in service.runtimes && InteractiveEnabled(service.runtimes[a])
        && service.requests == old(service.requests) + [EnableRequest(a, minutes)]
    {
      var a := RuntimeAddress(factory, name);
      var irType :- GetIrType(name);
      if irType != "Managed" {
        return Ok(NotManaged);
      }
      var enabled := GetIrStatus(name);
      if enabled.value {
        return Ok(AlreadyEnabled);
      }
      var sent := service.RequestEnable(a, minutes);
      if sent.Err? {
        return Err(sent.error);
      }
      ghost var reqs := service.requests;
      var on := GetIrStatus(name);
      while !on.value
        invariant service.Valid()
        invariant a in service.runtimes && on == Ok(InteractiveEnabled(service.runtimes[a]))
        invariant on.value || a in service.activating
        invariant service.requests == reqs
        invariant service.runtimes.Keys == old(service.runtimes).Keys
        decreases if a in service.activating then service.activating[a] else 0
      {
        service.Wait();
        on := GetIrStatus(name);
      }
      r := Ok(Enabled);
    }
  }
}
