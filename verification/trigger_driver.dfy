/** The trigger step of a DR run. For every trigger configuration the
    factory named for the action ("start" or "stop") is handled in turn:
    outside a dry run its resource group's locks are released first, all
    listed triggers are started or stopped, after a start every
    tumbling-window trigger is recreated from the new start time, and the
    locks are put back. An error in one configuration is reported and the
    run goes on with the next, putting the locks back on the way. Resource
    lookups by name are the maps passed in; a name with no entry is a
    resource the service does not find. */
module TriggerDriver {
  import opened Common
  import opened Locks
  import opened Triggers
  import BuildConfig

  /** The factory's default listing: the triggers of the two valid types. */
  function DefaultListing(f: Factory): seq<ListedTrigger>
    reads f
    requires f.Valid()
  {
    ListTriggers(f.Listing(), None).value
  }

  /** How the handling of one configuration ended. */
  datatype Outcome = Completed | NoTriggers | WhatIf | Failed

  /** `config[action]`: the factory a start or a stop works on. */
  function Selected(config: BuildConfig.TriggerPair, action: string): BuildConfig.AdfRef {
    if action == "start" then config.start else config.stop
  }

  /** One trigger after the trigger step when nothing is refused: only the
      two listed types are touched; they are started or stopped as
      `manage_trigger` does, and after a start a tumbling-window trigger is
      recreated with the new start time. */
  function AfterStep(p: TriggerProps, action: string, start: int): TriggerProps {
    if p.ttype !in ValidTriggerTypes then p
    else if action == "start" && p.ttype == TumblingWindow then Recreated(Managed(p, action), start)
    else Managed(p, action)
  }

  /** What the step promises: a started or stopped trigger of a listed type
      ends in the state the action asks for, a tumbling-window trigger
      restarted by a start runs from the new start time, and every other
      trigger is left alone. */
  lemma StepReachesTarget(p: TriggerProps, action: string, start: int)
    requires action == "start" || action == "stop"
    ensures p.ttype in ValidTriggerTypes && p.state in {"Started", "Stopped"} ==>
      AfterStep(p, action, start).state == Target(action)
    ensures action == "start" && p.ttype == TumblingWindow ==> AfterStep(p, action, start).startTime == Some(start)
    ensures p.ttype !in ValidTriggerTypes ==> AfterStep(p, action, start) == p
    ensures AfterStep(p, action, start).ttype == p.ttype
  {
  }

  /** The reset loop after a start: every tumbling-window trigger of the
      listing is reset to `start`; a failed reset is reported and skipped. */
  method ResetAllTumbling(tm: ADFTrigger, start: int)
    requires tm.factory.Valid()
    modifies tm.factory
    ensures tm.factory.Valid()
    ensures !tm.factory.Refuses() ==>
      && tm.factory.props.Keys == old(tm.factory.props).Keys
      && forall n :: n in old(tm.factory.props) ==>
           tm.factory.props[n] == if old(tm.factory.props)[n].ttype == TumblingWindow
                                  then Recreated(old(tm.factory.props)[n], start)
                                  else old(tm.factory.props)[n]
  {
    var f := tm.factory;
    ghost var m0 := f.props;
    var listed := ListTriggers(f.Listing(), Some(TumblingWindow));
    var ts := NamesOfListed(listed.value);
    assert forall n :: n in ts <==> n in m0 && m0[n].ttype == TumblingWindow by {
      ListedNames(f.order, f.props, Kept(Some(TumblingWindow)));
    }
    assert ResetUpTo(m0, f.props, ts, 0, start);
    var i := 0;
    while i < |ts|
      invariant 0 <= i <= |ts|
      invariant f.Valid()
      invariant !f.Refuses() ==> ResetUpTo(m0, f.props, ts, i, start)
    {
      assert ts[i] in ts;
      ResetNext(tm, m0, ts, i, start);
      i := i + 1;
    }
    if !f.Refuses() {
      ResetAllDone(m0, f.props, ts, start);
    }
  }

  /** After the whole listing, exactly the tumbling-window triggers are
      reset. */
  lemma ResetAllDone(m0: map<string, TriggerProps>, props: map<string, TriggerProps>, ts: seq<string>, start: int)
    requires ResetUpTo(m0, props, ts, |ts|, start)
    requires forall n :: n in ts <==> n in m0 && m0[n].ttype == TumblingWindow
    ensures props.Keys == m0.Keys
    ensures forall n :: n in m0 ==> props[n] == if m0[n].ttype == TumblingWindow then Recreated(m0[n], start) else m0[n]
  {
    assert ts[..|ts|] == ts;
  }

  /** The triggers after the first `i` resets of the loop above, when
      nothing is refused. */
  predicate ResetUpTo(m0: map<string, TriggerProps>, props: map<string, TriggerProps>, ts: seq<string>, i: nat, start: int)
    requires i <= |ts|
  {
    && props.Keys == m0.Keys
    && forall n :: n in m0 ==> props[n] == if n in ts[..i] then Recreated(m0[n], start) else m0[n]
  }

  /** One turn of the reset loop: the result of the reset is reported and
      the loop goes on. */
  method ResetNext(tm: ADFTrigger, ghost m0: map<string, TriggerProps>, ts: seq<string>, i: nat, start: int)
    requires i < |ts| && tm.factory.Valid()
    requires ts[i] in m0 && m0[ts[i]].ttype == TumblingWindow
    requires !tm.factory.Refuses() ==> ResetUpTo(m0, tm.factory.props, ts, i, start)
    modifies tm.factory
    ensures tm.factory.Valid()
    ensures !tm.factory.Refuses() ==> ResetUpTo(m0, tm.factory.props, ts, i + 1, start)
  {
    var f := tm.factory;
    ghost var before := f.props;
    var reset := tm.ResetTumbling(ts[i], Some(start));
    if !f.Refuses() {
      assert f.props == before[ts[i] := Recreated(before[ts[i]], start)];
      ResetStep(m0, before, f.props, ts, i, start);
    }
  }

  /** One reset of the loop above keeps its invariant. */
  lemma ResetStep(m0: map<string, TriggerProps>, before: map<string, TriggerProps>, after: map<string, TriggerProps>,
                  ts: seq<string>, i: nat, start: int)
    requires i < |ts| && ts[i] in m0 && m0[ts[i]].ttype == TumblingWindow
    requires ResetUpTo(m0, before, ts, i, start)
    requires after == before[ts[i] := Recreated(before[ts[i]], start)]
    ensures ResetUpTo(m0, after, ts, i + 1, start)
  {
    var n := ts[i];
    ResetTwiceSame([], n, m0[n], start);
    forall k | k in m0
      ensures after[k] == if k in ts[..i + 1] then Recreated(m0[k], start) else m0[k]
    {
      assert k in ts[..i + 1] <==> k in ts[..i] || k == n;
    }
  }

  /** The start or stop of one factory (the part of a configuration's
      handling after the checks): all triggers of the default listing are
      managed, and after a start the tumbling-window triggers are reset. */
  method StartStop(tm: ADFTrigger, action: string, start: int) returns (r: Result<()>)
    requires tm.factory.Valid()
    modifies tm.factory
    ensures tm.factory.Valid()
    ensures r.Err? ==> r.error == ServiceError
    ensures !tm.factory.Refuses() ==>
      && r.Ok?
      && tm.factory.props.Keys == old(tm.factory.props).Keys
      && forall n :: n in old(tm.factory.props) ==>
           tm.factory.props[n] == AfterStep(old(tm.factory.props)[n], action, start)
  {
    var f := tm.factory;
    ghost var m0 := f.props;
    ListedNames(f.order, f.props, Kept(None));
    ghost var ns := NamesOfListed(ListTriggers(f.Listing(), None).value);
    if !f.Refuses() {
      RunWithoutRefusals(m0, ns, action);
      CompleteRunAppliesAll(m0, ns, action, {});
      ApplyAllAt(m0, ns, action);
    }
    r := tm.ManageAllTriggers(action);
    if r.Err? {
      return;
    }
    if action == "start" {
      ResetAllTumbling(tm, start);
    }
  }

  /** The handler of a configuration's error: locks that were released are
      put back, and the run goes on; a failure to put them back escapes. */
  method Recover(mgr: AzureResourceLock?) returns (r: Result<Outcome>)
    modifies if mgr != null then {mgr.store} else {}
    ensures mgr == null ==> r == Ok(Failed)
    ensures mgr != null ==>
      var go := mgr.lockObjs != [] && mgr.deleted;
      var k := Handled(mgr.lockObjs, mgr.store.refusedPuts);
      && (!go ==> r == Ok(Failed) && mgr.store.locks == old(mgr.store.locks))
      && (go ==> (r.Ok? <==> k == |mgr.lockObjs|)
                 && mgr.store.locks == UpsertAll(old(mgr.store.locks), mgr.lockObjs[..k]))
      && (r.Ok? ==> r.value == Failed)
      && (r.Err? ==> r.error == ServiceError)
  {
    if mgr != null {
      var rc := mgr.RecreateLocks();
      if rc.Err? {
        return Err(ServiceError);
      }
    }
    r := Ok(Failed);
  }

  /** Whether a lock store restores what it released: its lock names are
      unique and it refuses no delete and no create. */
  predicate Cooperative(s: LockStore)
    reads s
  {
    UniqueNames(s.locks) && s.refusedDeletes == {} && s.refusedPuts == {}
  }

  /** Releasing every snapshot lock and creating them all again, against a
      store that refuses nothing, gives back the snapshot. */
  lemma PutBackRestores(s: seq<Lock>)
    requires UniqueNames(s)
    ensures s[..Handled(s, {})] == s
    ensures UpsertAll(Without(s, NamesOf(s[..Handled(s, {})])), s[..Handled(s, {})]) == s
  {
    assert s[..Handled(s, {})] == s;
    ReleaseRecreateRestores(s);
  }

  /** The locks just after their release, against a store that refuses
      nothing: the snapshot's names are unique, every snapshot lock is gone,
      and the flag is set when there was one to release. */
  ghost predicate Released(mgr: AzureResourceLock)
    reads mgr, mgr.store
  {
    && UniqueNames(mgr.lockObjs) && mgr.store.refusedPuts == {}
    && mgr.deleted == (mgr.lockObjs != [])
    && mgr.store.locks == Without(mgr.lockObjs, NamesOf(mgr.lockObjs))
  }

  /** The release at the start of a configuration's handling outside a dry
      run, against a cooperative store, leaves the locks `Released`. */
  lemma ReleasedByCooperative(mgr: AzureResourceLock, released: Result<()>)
    requires UniqueNames(mgr.lockObjs) && mgr.store.refusedPuts == {} && mgr.store.refusedDeletes == {}
    requires mgr.lockObjs == [] ==> !mgr.deleted && mgr.store.locks == []
    requires mgr.lockObjs != [] ==>
      var k := Handled(mgr.lockObjs, mgr.store.refusedDeletes);
      && (released.Ok? <==> k == |mgr.lockObjs|)
      && mgr.store.locks == Without(mgr.lockObjs, NamesOf(mgr.lockObjs[..k]))
      && mgr.deleted == released.Ok?
    ensures Released(mgr)
  {
    if mgr.lockObjs != [] {
      assert mgr.lockObjs[..|mgr.lockObjs|] == mgr.lockObjs;
    }
  }

  /** Putting the locks back; when a create is refused, the error handler
      tries once more and the configuration ends as failed. */
  method PutBack(mgr: AzureResourceLock, outcome: Outcome, ghost coop: bool) returns (r: Result<Outcome>)
    requires coop ==> Released(mgr)
    modifies mgr.store
    ensures r.Ok? ==> r.value == outcome || r.value == Failed
    ensures r.Err? ==> r.error == ServiceError && mgr.store.refusedPuts != {}
    ensures coop ==> r == Ok(outcome) && mgr.store.locks == mgr.lockObjs
  {
    if coop {
      PutBackRestores(mgr.lockObjs);
    }
    var rc := mgr.RecreateLocks();
    if rc.Err? {
      r := Recover(mgr);
      return;
    }
    r := Ok(outcome);
  }

  /** The start or stop of the factory's triggers followed by putting the
      locks back; an error in the step goes to the handler. */
  method StepAndPutBack(mgr: AzureResourceLock, tm: ADFTrigger, action: string, start: int, ghost coop: bool)
    returns (r: Result<Outcome>)
    requires tm.factory.Valid()
    requires coop ==> Released(mgr)
    modifies mgr.store, tm.factory
    ensures tm.factory.Valid()
    ensures r.Err? ==> r.error == ServiceError && mgr.store.refusedPuts != {}
    ensures coop ==> r.Ok? && mgr.store.locks == mgr.lockObjs
    ensures coop && !tm.factory.Refuses() ==>
      && r == Ok(Completed)
      && tm.factory.props.Keys == old(tm.factory.props).Keys
      && forall n :: n in old(tm.factory.props) ==>
           tm.factory.props[n] == AfterStep(old(tm.factory.props)[n], action, start)
  {
    var stepped := StartStop(tm, action, start);
    if stepped.Err? {
      if coop {
        PutBackRestores(mgr.lockObjs);
      }
      r := Recover(mgr);
      return;
    }
    r := PutBack(mgr, Completed, coop);
  }

  /** The handling of one configuration, with the locks put back on every
      path that released them, including the path that finds no triggers. */
  method ProcessConfig(store: Option<LockStore>, factory: Option<Factory>, action: string, dryRun: bool, start: int)
    returns (r: Result<Outcome>)
    requires factory.Some? ==> factory.value.Valid()
    modifies if store.Some? then {store.value} else {}
    modifies if factory.Some? then {factory.value} else {}
    ensures factory.Some? ==> factory.value.Valid()
    ensures dryRun ==> r.Ok? && (factory.Some? ==>
      factory.value.props == old(factory.value.props) && factory.value.order == old(factory.value.order))
    ensures dryRun && store.Some? ==> store.value.locks == old(store.value.locks)
    ensures !dryRun && store.Some? && old(Cooperative(store.value)) ==>
      r.Ok? && store.value.locks == old(store.value.locks)
    ensures (&& !dryRun && store.Some? && old(Cooperative(store.value))
             && factory.Some? && !factory.value.Refuses() && old(DefaultListing(factory.value)) != []) ==>
      && r == Ok(Completed)
      && factory.value.props.Keys == old(factory.value.props).Keys
      && forall n :: n in old(factory.value.props) ==>
           factory.value.props[n] == AfterStep(old(factory.value.props)[n], action, start)
    ensures r.Err? ==> !dryRun && store.Some? && store.value.refusedPuts != {}
  {
    ghost var coop := !dryRun && store.Some? && Cooperative(store.value);
    var mgr: AzureResourceLock? := null;
    if !dryRun {
      if store.None? {
        return Ok(Failed);
      }
      mgr := new AzureResourceLock(store.value);
      var released := Ok(());
      if mgr.lockObjs != [] {
        released := mgr.ReleaseLocks();
        if released.Err? {
          r := Recover(mgr);
          return;
        }
      }
      if coop {
        ReleasedByCooperative(mgr, released);
      }
    }
    r := HandleFactory(mgr, factory, action, start, coop);
  }

  /** The part of a configuration's handling after the release (`mgr` is
      null in a dry run): a missing factory goes to the handler, a factory
      without triggers has its locks put back, a dry run stops before any
      change, and otherwise the triggers are started or stopped. */
  method HandleFactory(mgr: AzureResourceLock?, factory: Option<Factory>, action: string, start: int, ghost coop: bool)
    returns (r: Result<Outcome>)
    requires factory.Some? ==> factory.value.Valid()
    requires coop ==> mgr != null && Released(mgr)
    modifies if mgr != null then {mgr.store} else {}
    modifies if factory.Some? then {factory.value} else {}
    ensures factory.Some? ==> factory.value.Valid()
    ensures mgr == null ==> r.Ok? && (factory.Some? ==>
      factory.value.props == old(factory.value.props) && factory.value.order == old(factory.value.order))
    ensures coop ==> r.Ok? && mgr.store.locks == mgr.lockObjs
    ensures (coop && factory.Some? && !factory.value.Refuses() && old(DefaultListing(factory.value)) != []) ==>
      && r == Ok(Completed)
      && factory.value.props.Keys == old(factory.value.props).Keys
      && forall n :: n in old(factory.value.props) ==>
           factory.value.props[n] == AfterStep(old(factory.value.props)[n], action, start)
    ensures r.Err? ==> mgr != null && mgr.store.refusedPuts != {}
  {
    if factory.None? {
      if coop {
        PutBackRestores(mgr.lockObjs);
      }
      r := Recover(mgr);
      return;
    }
    var tm := new ADFTrigger(factory.value);
    var triggers := ListTriggers(factory.value.Listing(), None);
    if triggers.value == [] {
      if mgr != null {
        r := PutBack(mgr, NoTriggers, coop);
      } else {
        r := Ok(NoTriggers);
      }
      return;
    }
    if mgr == null {
      return Ok(WhatIf);
    }
    r := StepAndPutBack(mgr, tm, action, start, coop);
  }

  /** The handling of one configuration as the script has it: when the
      factory lists no triggers the loop moves on to the next configuration
      at once, so locks released for it are never put back. */
  method ProcessConfigAsWritten(store: Option<LockStore>, factory: Option<Factory>, action: string, dryRun: bool, start: int)
    returns (r: Result<Outcome>)
    requires factory.Some? ==> factory.value.Valid()
    modifies if store.Some? then {store.value} else {}
    modifies if factory.Some? then {factory.value} else {}
    ensures factory.Some? ==> factory.value.Valid()
    ensures dryRun ==> r.Ok? && (factory.Some? ==>
      factory.value.props == old(factory.value.props) && factory.value.order == old(factory.value.order))
    ensures dryRun && store.Some? ==> store.value.locks == old(store.value.locks)
    ensures (&& !dryRun && store.Some? && old(Cooperative(store.value))
             && factory.Some? && old(DefaultListing(factory.value)) == []) ==>
      r == Ok(NoTriggers) && store.value.locks == []
    ensures (&& !dryRun && store.Some? && old(Cooperative(store.value))
             && (factory.None? || old(DefaultListing(factory.value)) != [])) ==>
      r.Ok? && store.value.locks == old(store.value.locks)
  {
    ghost var coop := !dryRun && store.Some? && Cooperative(store.value);
    var mgr: AzureResourceLock? := null;
    if !dryRun {
      if store.None? {
        return Ok(Failed);
      }
      mgr := new AzureResourceLock(store.value);
      var released := Ok(());
      if mgr.lockObjs != [] {
        released := mgr.ReleaseLocks();
        if released.Err? {
          r := Recover(mgr);
          return;
        }
      }
      if coop {
        ReleasedByCooperative(mgr, released);
      }
    }
    r := HandleFactoryAsWritten(mgr, factory, action, start, coop);
  }

  /** The part after the release as the script has it: a factory without
      triggers is skipped at once. */
  method HandleFactoryAsWritten(mgr: AzureResourceLock?, factory: Option<Factory>, action: string, start: int,
                                ghost coop: bool)
    returns (r: Result<Outcome>)
    requires factory.Some? ==> factory.value.Valid()
    requires coop ==> mgr != null && Released(mgr)
    modifies if mgr != null then {mgr.store} else {}
    modifies if factory.Some? then {factory.value} else {}
    ensures factory.Some? ==> factory.value.Valid()
    ensures mgr == null ==> r.Ok? && (factory.Some? ==>
      factory.value.props == old(factory.value.props) && factory.value.order == old(factory.value.order))
    ensures (coop && factory.Some? && old(DefaultListing(factory.value)) == []) ==>
      r == Ok(NoTriggers) && mgr.store.locks == []
    ensures (coop && (factory.None? || old(DefaultListing(factory.value)) != [])) ==>
      r.Ok? && mgr.store.locks == mgr.lockObjs
  {
    if factory.None? {
      if coop {
        PutBackRestores(mgr.lockObjs);
      }
      r := Recover(mgr);
      return;
    }
    var tm := new ADFTrigger(factory.value);
    var triggers := ListTriggers(factory.value.Listing(), None);
    if triggers.value == [] {
      if coop {
        WithoutAll(mgr.lockObjs);
      }
      return Ok(NoTriggers);
    }
    if mgr == null {
      return Ok(WhatIf);
    }
    r := StepAndPutBack(mgr, tm, action, start, coop);
  }

  /** A resource group with one lock and a factory with no triggers: the
      script as written leaves the group without its lock. */
  method LocksLostWithoutTriggers() returns (before: seq<Lock>, after: seq<Lock>)
    ensures before == [Lock("keep", "CanNotDelete", None)]
    ensures after == []
  {
    var store := new LockStore([Lock("keep", "CanNotDelete", None)], {}, {});
    var factory := new Factory([], map[], {}, {}, {}, {});
    before := store.locks;
    assert DefaultListing(factory) == [];
    var r := ProcessConfigAsWritten(Some(store), Some(factory), "stop", false, 0);
    after := store.locks;
  }

  /** `manage_adf_triggers`: the trigger section is read (a missing one
      raises KeyError), then each configuration is handled in turn with the
      lock store of its resource group and its factory; only a failure to
      put locks back in an error handler ends the run early. */
  method ManageAdfTriggers(
    section: Option<OneOrMany<BuildConfig.TriggerPair>>,
    stores: map<string, LockStore>, factories: map<BuildConfig.AdfRef, Factory>,
    action: string, dryRun: bool, start: int)
    returns (r: Result<seq<Outcome>>)
    requires action == "start" || action == "stop"
    requires forall f :: f in factories.Values ==> f.Valid()
    modifies stores.Values, factories.Values
    ensures forall f :: f in factories.Values ==> f.Valid()
    ensures section.None? ==> r == Err(KeyError)
    ensures r.Ok? ==> |r.value| == |SectionAsList(section).value|
    ensures dryRun ==>
      && (section.Some? ==> r.Ok?)
      && LocksOf(stores) == old(LocksOf(stores))
      && TriggersOf(factories) == old(TriggersOf(factories))
    ensures old(AllCooperative(stores)) ==>
      && (section.Some? ==> r.Ok?)
      && LocksOf(stores) == old(LocksOf(stores))
  {
    var configs :- SectionAsList(section);
    ghost var locks0, triggers0, coop0 := LocksOf(stores), TriggersOf(factories), AllCooperative(stores);
    var outcomes: seq<Outcome> := [];
    var i := 0;
    while i < |configs|
      invariant 0 <= i <= |configs| && |outcomes| == i
      invariant forall f :: f in factories.Values ==> f.Valid()
      invariant dryRun ==> LocksOf(stores) == locks0 && TriggersOf(factories) == triggers0
      invariant coop0 ==> LocksOf(stores) == locks0 && AllCooperative(stores)
    {
      var outcome := HandleEntry(configs[i], stores, factories, action, dryRun, start);
      if outcome.Err? {
        return Err(outcome.error);
      }
      outcomes := outcomes + [outcome.value];
      i := i + 1;
    }
    r := Ok(outcomes);
  }

  /** The locks of every resource group. */
  function LocksOf(stores: map<string, LockStore>): map<string, seq<Lock>>
    reads stores.Values
  {
    map n | n in stores :: stores[n].locks
  }

  /** The triggers of every factory, in listing order and by name. */
  function TriggersOf(factories: map<BuildConfig.AdfRef, Factory>)
    : map<BuildConfig.AdfRef, (seq<string>, map<string, TriggerProps>)>
    reads factories.Values
  {
    map a | a in factories :: (factories[a].order, factories[a].props)
  }

  predicate AllCooperative(stores: map<string, LockStore>)
    reads stores.Values
  {
    forall n :: n in stores ==> Cooperative(stores[n])
  }

  /** One configuration of the loop: its factory and its resource group's
      lock store are looked up, and the configuration is handled. */
  method HandleEntry(config: BuildConfig.TriggerPair, stores: map<string, LockStore>,
                     factories: map<BuildConfig.AdfRef, Factory>, action: string, dryRun: bool, start: int)
    returns (outcome: Result<Outcome>)
    requires forall f :: f in factories.Values ==> f.Valid()
    modifies stores.Values, factories.Values
    ensures forall f :: f in factories.Values ==> f.Valid()
    ensures dryRun ==>
      outcome.Ok? && LocksOf(stores) == old(LocksOf(stores)) && TriggersOf(factories) == old(TriggersOf(factories))
    ensures old(AllCooperative(stores)) ==>
      outcome.Ok? && LocksOf(stores) == old(LocksOf(stores)) && AllCooperative(stores)
  {
    var target := Selected(config, action);
    var store := if target.resourceGroup in stores then Some(stores[target.resourceGroup]) else None;
    var factory := if target in factories then Some(factories[target]) else None;
    ghost var coop := AllCooperative(stores);
    outcome := ProcessConfig(store, factory, action, dryRun, start);
    if dryRun || coop {
      forall n | n in stores ensures stores[n].locks == old(stores[n].locks) {
      }
    }
    if dryRun {
      forall a | a in factories
        ensures factories[a].order == old(factories[a].order) && factories[a].props == old(factories[a].props)
      {
      }
    }
  }
}
