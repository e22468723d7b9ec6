/** The drivers that move Snowflake linked services from one account to
    another: for every configured factory, list its Snowflake linked
    services and update each one, logging a failed update and going on
    with the next. The automation copy (kept twice, identically) reads the
    configuration section strictly and handles both Snowflake connectors;
    the older script treats a missing section as empty and handles only
    the first connector. */
module SnowflakeFqdnDrivers {
  import opened Common
  import opened Fqdn
  import opened LinkedServices
  import BuildConfig

  /** Every selected service after one pass over a factory. */
  function UpdatedAll(services: seq<LinkedService>, filter: TypeFilter, oldName: string, newName: string,
                      dryRun: bool, refused: set<string>): (r: seq<LinkedService>)
    ensures |r| == |services|
    ensures forall j :: 0 <= j < |services| ==>
      r[j] == if Selects(filter, services[j]) then Updated(services[j], oldName, newName, dryRun, refused) else services[j]
  {
    seq(|services|, j requires 0 <= j < |services| =>
      if Selects(filter, services[j]) then Updated(services[j], oldName, newName, dryRun, refused) else services[j])
  }

  function Names(services: seq<LinkedService>): (r: seq<string>)
    ensures |r| == |services|
    ensures forall i :: 0 <= i < |services| ==> r[i] == services[i].name
  {
    if services == [] then [] else [services[0].name] + Names(services[1..])
  }

  /** Same names and types, position by position. */
  predicate SameShape(a: seq<LinkedService>, b: seq<LinkedService>) {
    |a| == |b| && forall j :: 0 <= j < |a| ==> a[j].name == b[j].name && a[j].ltype == b[j].ltype
  }

  /** A pass changes no name and no type, so it leaves the next listing's
      selection as it was. */
  lemma {:induction false} SameShapeSameSelection(a: seq<LinkedService>, b: seq<LinkedService>, filter: TypeFilter)
    requires SameShape(a, b)
    ensures Names(Filter(a, Admits(filter))) == Names(Filter(b, Admits(filter)))
  {
    if a != [] {
      SameShapeSameSelection(a[1..], b[1..], filter);
      var ra, rb := Filter(a[1..], Admits(filter)), Filter(b[1..], Admits(filter));
      if Selects(filter, a[0]) {
        assert Names([a[0]] + ra) == [a[0].name] + Names(ra);
        assert Names([b[0]] + rb) == [b[0].name] + Names(rb);
      } else {
        assert [] + ra == ra && [] + rb == rb;
      }
    }
  }

  lemma UpdatedAllSameShape(services: seq<LinkedService>, filter: TypeFilter, oldName: string, newName: string,
                            dryRun: bool, refused: set<string>)
    ensures SameShape(UpdatedAll(services, filter, oldName, newName, dryRun, refused), services)
  {
  }

  /** A dry run, or an old name equal to the new one, changes nothing. */
  lemma QuietPasses(services: seq<LinkedService>, filter: TypeFilter, oldName: string, newName: string,
                    dryRun: bool, refused: set<string>)
    requires dryRun || oldName == newName
    ensures UpdatedAll(services, filter, oldName, newName, dryRun, refused) == services
  {
  }

  /** A service the filter does not select is left alone. */
  lemma UnchangedSelected(services: seq<LinkedService>, filter: TypeFilter, oldName: string, newName: string,
                          refused: set<string>, j: nat)
    requires j < |services| && !Selects(filter, services[j])
    ensures UpdatedAll(services, filter, oldName, newName, false, refused)[j] == services[j]
  {
  }

  /** The per-factory step: list the selected services and attempt each
      update in turn; a failed update is logged and the next one is
      attempted. The names attempted are returned. */
  method UpdateFactory(ls: ADFLinkedServices, filter: TypeFilter, oldName: string, newName: string, dryRun: bool)
    returns (attempted: seq<string>)
    requires ls.store.Valid()
    modifies ls.store
    ensures ls.store.Valid()
    ensures attempted == Selection(old(ls.store.services), filter)
    ensures OnePass(ls.store.services, old(ls.store.services), filter, oldName, newName, dryRun, ls.store.refusedWrites)
  {
    ghost var s0 := ls.store.services;
    ghost var refused := ls.store.refusedWrites;
    var listed := ls.ListLinkedServices(filter);
    StartProgress(s0, filter, oldName, newName, dryRun, refused);
    attempted := [];
    if listed == [] {
      ProgressDone(s0, filter, ls.store.services, oldName, newName, dryRun, refused);
      return;
    }
    FilterMembers(s0, Admits(filter));
    attempted := UpdateListed(ls, s0, listed, oldName, newName, dryRun);
    ProgressDone(s0, filter, ls.store.services, oldName, newName, dryRun, refused);
  }

  /** The loop of the per-factory step over the services listed. */
  method UpdateListed(ls: ADFLinkedServices, ghost s0: seq<LinkedService>, listed: seq<LinkedService>,
                      oldName: string, newName: string, dryRun: bool)
    returns (attempted: seq<string>)
    requires UniqueNames(s0) && Distinct(listed) && forall x :: x in listed ==> x in s0
    requires ls.store.Valid()
    requires Progress(s0, listed, 0, ls.store.services, oldName, newName, dryRun, ls.store.refusedWrites)
    modifies ls.store
    ensures ls.store.Valid()
    ensures Progress(s0, listed, |listed|, ls.store.services, oldName, newName, dryRun, ls.store.refusedWrites)
    ensures attempted == Names(listed)
  {
    attempted := [];
    var i := 0;
    while i < |listed|
      invariant 0 <= i <= |listed|
      invariant ls.store.Valid()
      invariant Progress(s0, listed, i, ls.store.services, oldName, newName, dryRun, ls.store.refusedWrites)
      invariant attempted == Names(listed[..i])
    {
      var name := listed[i].name;
      UpdateOne(ls, s0, listed, i, oldName, newName, dryRun);
      NamesStep(listed, i);
      attempted := attempted + [name];
      i := i + 1;
    }
    assert listed[..i] == listed;
  }

  lemma NamesStep(listed: seq<LinkedService>, i: nat)
    requires i < |listed|
    ensures Names(listed[..i + 1]) == Names(listed[..i]) + [listed[i].name]
  {
    assert listed[..i + 1] == listed[..i] + [listed[i]];
  }

  /** One attempt of the per-factory step; its outcome is logged and
      dropped. */
  method UpdateOne(ls: ADFLinkedServices, ghost s0: seq<LinkedService>, listed: seq<LinkedService>, i: nat,
                   oldName: string, newName: string, dryRun: bool)
    requires i < |listed| && UniqueNames(s0) && Distinct(listed)
    requires forall x :: x in listed ==> x in s0
    requires ls.store.Valid()
    requires Progress(s0, listed, i, ls.store.services, oldName, newName, dryRun, ls.store.refusedWrites)
    modifies ls.store
    ensures ls.store.Valid()
    ensures Progress(s0, listed, i + 1, ls.store.services, oldName, newName, dryRun, ls.store.refusedWrites)
  {
    var j := FactoryStep(s0, listed, i, ls.store.services, oldName, newName, dryRun, ls.store.refusedWrites);
    ghost var before := ls.store.services;
    var _ := ls.UpdateLinkedServiceSfAccount(listed[i].name, oldName, newName, dryRun);
    StepProgress(s0, listed, i, j, before, ls.store.services, oldName, newName, dryRun, ls.store.refusedWrites);
  }

  lemma StartProgress(s0: seq<LinkedService>, filter: TypeFilter,
                      oldName: string, newName: string, dryRun: bool, refused: set<string>)
    requires UniqueNames(s0)
    ensures Distinct(Filter(s0, Admits(filter)))
    ensures Progress(s0, Filter(s0, Admits(filter)), 0, s0, oldName, newName, dryRun, refused)
  {
    assert Distinct(s0) by {
      forall a, b | 0 <= a < b < |s0| ensures s0[a] != s0[b] {
        assert s0[a].name != s0[b].name;
      }
    }
    FilterDistinct(s0, Admits(filter));
  }

  /** Once the whole listing is handled, every selected service is updated. */
  lemma ProgressDone(s0: seq<LinkedService>, filter: TypeFilter, now: seq<LinkedService>,
                     oldName: string, newName: string, dryRun: bool, refused: set<string>)
    requires Progress(s0, Filter(s0, Admits(filter)), |Filter(s0, Admits(filter))|, now, oldName, newName, dryRun, refused)
    ensures OnePass(now, s0, filter, oldName, newName, dryRun, refused)
  {
    var listed := Filter(s0, Admits(filter));
    FilterMembers(s0, Admits(filter));
    assert listed[..|listed|] == listed;
    forall j | 0 <= j < |s0| ensures (s0[j] in listed <==> Selects(filter, s0[j])) {
      assert s0[j] in s0;
    }
  }

  /** The services of the listing already handled hold their updated
      form, the others their original one. */
  ghost predicate Progress(s0: seq<LinkedService>, listed: seq<LinkedService>, i: nat, now: seq<LinkedService>,
                           oldName: string, newName: string, dryRun: bool, refused: set<string>)
    requires i <= |listed|
  {
    && |now| == |s0|
    && forall j :: 0 <= j < |s0| ==>
         now[j] == if s0[j] in listed[..i] then Updated(s0[j], oldName, newName, dryRun, refused) else s0[j]
  }

  /** The service next in the listing stands, untouched so far, at the
      position the update finds it. */
  lemma FactoryStep(s0: seq<LinkedService>, listed: seq<LinkedService>, i: nat, now: seq<LinkedService>,
                    oldName: string, newName: string, dryRun: bool, refused: set<string>)
    returns (j: nat)
    requires i < |listed| && UniqueNames(s0) && Distinct(listed) && UniqueNames(now)
    requires forall x :: x in listed ==> x in s0
    requires Progress(s0, listed, i, now, oldName, newName, dryRun, refused)
    ensures j < |s0| && IndexOf(now, listed[i].name) == Some(j)
    ensures s0[j] == listed[i] && now[j] == s0[j]
  {
    var x := listed[i];
    assert x in s0;
    j :| 0 <= j < |s0| && s0[j] == x;
    assert x !in listed[..i] by {
      forall k | 0 <= k < i ensures listed[k] != x {
        assert listed[k] == listed[..i][k];
      }
    }
    UniqueIndex(now, j);
  }

  lemma StepProgress(s0: seq<LinkedService>, listed: seq<LinkedService>, i: nat, j: nat,
                     before: seq<LinkedService>, after: seq<LinkedService>,
                     oldName: string, newName: string, dryRun: bool, refused: set<string>)
    requires i < |listed| && UniqueNames(s0) && j < |s0|
    requires Progress(s0, listed, i, before, oldName, newName, dryRun, refused)
    requires s0[j] == listed[i] && before[j] == s0[j]
    requires after == before[j := Updated(before[j], oldName, newName, dryRun, refused)]
    ensures Progress(s0, listed, i + 1, after, oldName, newName, dryRun, refused)
  {
    assert listed[..i + 1] == listed[..i] + [listed[i]];
    forall k | 0 <= k < |s0| && k != j ensures (s0[k] in listed[..i + 1] <==> s0[k] in listed[..i]) {
      assert s0[k].name != s0[j].name;
    }
  }

  /** The automation copy lists both Snowflake connectors. */
  const BothConnectors: TypeFilter := AnyOf([SnowflakeV1, SnowflakeV2])

  /** The older script lists the first connector only. */
  const FirstConnector: TypeFilter := OneType(SnowflakeV1)

  /** The older script's `config.get(key, [])`, with a single mapping
      wrapped into a list: a missing section is no factories at all. */
  function ConfigsOrEmpty<T>(section: Option<OneOrMany<T>>): (r: seq<T>)
    ensures section.None? ==> r == []
    ensures section.Some? ==> SectionAsList(section) == Ok(r)
  {
    match section
    case None => []
    case Some(One(x)) => [x]
    case Some(Many(xs)) => xs
  }

  /** The linked services of every factory the configuration can name. */
  ghost function Services(stores: map<BuildConfig.AdfRef, FactoryServices>): (m: map<BuildConfig.AdfRef, seq<LinkedService>>)
    reads stores.Values
    ensures m.Keys == stores.Keys
  {
    map c | c in stores :: stores[c].services
  }

  ghost predicate AllValid(stores: map<BuildConfig.AdfRef, FactoryServices>)
    reads stores.Values
  {
    forall c :: c in stores ==> stores[c].Valid()
  }

  /** What a run may have done to the factories: names and types stay, and
      a dry run changes nothing. */
  predicate Evolved(now: map<BuildConfig.AdfRef, seq<LinkedService>>, before: map<BuildConfig.AdfRef, seq<LinkedService>>,
                    dryRun: bool)
  {
    && now.Keys == before.Keys
    && (forall c :: c in before ==> SameShape(now[c], before[c]))
    && (dryRun ==> now == before)
  }

  /** Where a run over `configs` stands after `k` factories: `Evolved`
      from the start, nothing touched before the first factory, and a run
      of one factory leaving it after one pass. */
  predicate Progressed(now: map<BuildConfig.AdfRef, seq<LinkedService>>, s0: map<BuildConfig.AdfRef, seq<LinkedService>>,
                       configs: seq<BuildConfig.AdfRef>, k: nat, filter: TypeFilter, oldName: string, newName: string,
                       dryRun: bool, refused: map<BuildConfig.AdfRef, set<string>>)
  {
    && Evolved(now, s0, dryRun)
    && (k == 0 ==> now == s0)
    && (|configs| == 1 && k == 1 && configs[0] in s0 && configs[0] in refused ==>
          OnePass(now[configs[0]], s0[configs[0]], filter, oldName, newName, dryRun, refused[configs[0]]))
  }

  /** The loop over the configured factories. A factory that cannot be
      listed raises out of the whole run; within a factory every selected
      service is attempted. For every factory handled, the names attempted
      are returned. */
  method UpdateSnowflakeFqdns(configs: seq<BuildConfig.AdfRef>, stores: map<BuildConfig.AdfRef, FactoryServices>,
                              filter: TypeFilter, oldName: string, newName: string, dryRun: bool)
    returns (r: Result<seq<seq<string>>>)
    requires AllValid(stores)
    modifies stores.Values
    ensures AllValid(stores)
    ensures r.Ok? <==> forall c :: c in configs ==> c in stores
    ensures r.Err? ==> r.error == ServiceError
    ensures r.Ok? ==> |r.value| == |configs|
    ensures r.Ok? ==> forall k :: 0 <= k < |configs| ==>
      r.value[k] == Selection(old(Services(stores))[configs[k]], filter)
    ensures Evolved(Services(stores), old(Services(stores)), dryRun)
    ensures configs == [] ==> Services(stores) == old(Services(stores))
    ensures |configs| == 1 && configs[0] in stores ==>
      OnePass(Services(stores)[configs[0]], old(Services(stores))[configs[0]], filter, oldName, newName, dryRun,
              stores[configs[0]].refusedWrites)
  {
    ghost var s0 := Services(stores);
    ghost var refused := Refusals(stores);
    var out: seq<seq<string>> := [];
    var k := 0;
    while k < |configs|
      invariant 0 <= k <= |configs|
      invariant AllUnique(Services(stores))
      invariant forall c :: c in configs[..k] ==> c in s0
      invariant out == Selections(s0, configs[..k], filter)
      invariant Progressed(Services(stores), s0, configs, k, filter, oldName, newName, dryRun, refused)
    {
      var c := configs[k];
      if c !in stores {
        assert c in configs;
        return Err(ServiceError);
      }
      out := HandleConfig(configs, k, stores, s0, refused, out, filter, oldName, newName, dryRun);
      k := k + 1;
    }
    assert configs[..k] == configs;
    r := Ok(out);
  }

  /** One pass of the loop over the configured factories, for a factory
      that exists. */
  method HandleConfig(configs: seq<BuildConfig.AdfRef>, k: nat, stores: map<BuildConfig.AdfRef, FactoryServices>,
                      ghost s0: map<BuildConfig.AdfRef, seq<LinkedService>>,
                      ghost refused: map<BuildConfig.AdfRef, set<string>>, out: seq<seq<string>>,
                      filter: TypeFilter, oldName: string, newName: string, dryRun: bool)
    returns (out': seq<seq<string>>)
    requires k < |configs| && configs[k] in stores
    requires refused == Refusals(stores) && s0.Keys == stores.Keys
    requires AllUnique(Services(stores))
    requires forall c :: c in configs[..k] ==> c in s0
    requires out == Selections(s0, configs[..k], filter)
    requires Progressed(Services(stores), s0, configs, k, filter, oldName, newName, dryRun, refused)
    modifies stores.Values
    ensures AllUnique(Services(stores))
    ensures forall c :: c in configs[..k + 1] ==> c in s0
    ensures out' == Selections(s0, configs[..k + 1], filter)
    ensures Progressed(Services(stores), s0, configs, k + 1, filter, oldName, newName, dryRun, refused)
  {
    var c := configs[k];
    var st := stores[c];
    ghost var mid := Services(stores);
    ghost var same := set d | d in stores && stores[d] == st;
    var names := HandleFactory(st, filter, oldName, newName, dryRun);
    ghost var now := Services(stores);
    assert forall d :: d in now ==> now[d] == if d in same then st.services else mid[d];
    ProgressStep(now, mid, s0, configs, k, same, st.services, filter, oldName, newName, dryRun, refused);
    SameShapeSameSelection(mid[c], s0[c], filter);
    SelectionsStep(s0, configs, k, filter, out, names);
    out' := out + [names];
  }

  /** Every factory's names are unique: the validity of every store, on
      the values. */
  predicate AllUnique(m: map<BuildConfig.AdfRef, seq<LinkedService>>) {
    forall c :: c in m ==> UniqueNames(m[c])
  }

  /** The names listed, factory by factory. */
  function Selections(s0: map<BuildConfig.AdfRef, seq<LinkedService>>, cs: seq<BuildConfig.AdfRef>, filter: TypeFilter)
    : (r: seq<seq<string>>)
    requires forall c :: c in cs ==> c in s0
    ensures |r| == |cs|
    ensures forall m :: 0 <= m < |cs| ==> r[m] == Selection(s0[cs[m]], filter)
  {
    seq(|cs|, m requires 0 <= m < |cs| => Selection(s0[cs[m]], filter))
  }

  lemma SelectionsStep(s0: map<BuildConfig.AdfRef, seq<LinkedService>>, configs: seq<BuildConfig.AdfRef>, k: nat,
                       filter: TypeFilter, out: seq<seq<string>>, names: seq<string>)
    requires k < |configs| && (forall c :: c in configs[..k] ==> c in s0) && configs[k] in s0
    requires out == Selections(s0, configs[..k], filter) && names == Selection(s0[configs[k]], filter)
    ensures forall c :: c in configs[..k + 1] ==> c in s0
    ensures out + [names] == Selections(s0, configs[..k + 1], filter)
  {
    assert configs[..k + 1] == configs[..k] + [configs[k]];
  }

  ghost function Refusals(stores: map<BuildConfig.AdfRef, FactoryServices>): (m: map<BuildConfig.AdfRef, set<string>>)
    ensures m.Keys == stores.Keys
    ensures forall c :: c in stores ==> m[c] == stores[c].refusedWrites
  {
    map c | c in stores :: stores[c].refusedWrites
  }

  /** The factories after one more was handled: only the entries that name
      the handled store object changed, and they changed by one pass. */
  lemma ProgressStep(now: map<BuildConfig.AdfRef, seq<LinkedService>>, mid: map<BuildConfig.AdfRef, seq<LinkedService>>,
                     s0: map<BuildConfig.AdfRef, seq<LinkedService>>, configs: seq<BuildConfig.AdfRef>, k: nat,
                     same: set<BuildConfig.AdfRef>, handled: seq<LinkedService>,
                     filter: TypeFilter, oldName: string, newName: string, dryRun: bool,
                     refused: map<BuildConfig.AdfRef, set<string>>)
    requires k < |configs| && configs[k] in same && same <= mid.Keys && mid.Keys == refused.Keys
    requires Progressed(mid, s0, configs, k, filter, oldName, newName, dryRun, refused)
    requires now.Keys == mid.Keys
    requires forall d :: d in now ==> now[d] == if d in same then handled else mid[d]
    requires forall d :: d in same ==> mid[d] == mid[configs[k]] && refused[d] == refused[configs[k]]
    requires OnePass(handled, mid[configs[k]], filter, oldName, newName, dryRun, refused[configs[k]])
    requires AllUnique(mid) && UniqueNames(handled)
    ensures Progressed(now, s0, configs, k + 1, filter, oldName, newName, dryRun, refused)
    ensures AllUnique(now)
  {
    var c := configs[k];
    UpdatedAllSameShape(mid[c], filter, oldName, newName, dryRun, refused[c]);
    if dryRun {
      QuietPasses(mid[c], filter, oldName, newName, dryRun, refused[c]);
    }
    forall d | d in s0 ensures SameShape(now[d], s0[d]) {
      if d in same {
        SameShapeTrans(handled, mid[d], s0[d]);
      }
    }
    if dryRun {
      assert forall d :: d in now ==> now[d] == mid[d];
    }
  }

  /** One configured factory: a client is made for it and the per-factory
      step runs. */
  method HandleFactory(st: FactoryServices, filter: TypeFilter, oldName: string, newName: string, dryRun: bool)
    returns (names: seq<string>)
    requires st.Valid()
    modifies st
    ensures st.Valid()
    ensures names == Selection(old(st.services), filter)
    ensures OnePass(st.services, old(st.services), filter, oldName, newName, dryRun, st.refusedWrites)
  {
    var ls := new ADFLinkedServices(st);
    names := UpdateFactory(ls, filter, oldName, newName, dryRun);
  }

  /** The names a listing through `filter` yields, in order. */
  function Selection(services: seq<LinkedService>, filter: TypeFilter): seq<string> {
    Names(Filter(services, Admits(filter)))
  }

  /** `now` is what one pass over a factory holding `before` leaves. */
  predicate OnePass(now: seq<LinkedService>, before: seq<LinkedService>, filter: TypeFilter,
                    oldName: string, newName: string, dryRun: bool, refused: set<string>)
  {
    now == UpdatedAll(before, filter, oldName, newName, dryRun, refused)
  }

  lemma SameShapeTrans(a: seq<LinkedService>, b: seq<LinkedService>, c: seq<LinkedService>)
    requires SameShape(a, b) && SameShape(b, c)
    ensures SameShape(a, c)
  {
  }

  /** `update_snowflake_fqdns` of the automation copy: a missing
      configuration section raises KeyError before anything is touched. */
  method UpdateSnowflakeFqdnsStrict(section: Option<OneOrMany<BuildConfig.AdfRef>>,
                                    stores: map<BuildConfig.AdfRef, FactoryServices>,
                                    oldName: string, newName: string, dryRun: bool)
    returns (r: Result<seq<seq<string>>>)
    requires forall c :: c in stores ==> stores[c].Valid()
    modifies stores.Values
    ensures section.None? ==> r == Err(KeyError)
    ensures r.Ok? <==> section.Some? && forall c :: c in SectionAsList(section).value ==> c in stores
    ensures dryRun || section.None? ==> forall c :: c in stores ==> stores[c].services == old(stores[c].services)
    ensures forall c :: section == Some(One(c)) && c in stores ==>
      stores[c].services
        == UpdatedAll(old(stores[c].services), BothConnectors, oldName, newName, dryRun, stores[c].refusedWrites)
  {
    var configs :- SectionAsList(section);
    r := UpdateSnowflakeFqdns(configs, stores, BothConnectors, oldName, newName, dryRun);
  }

  /** `update_snowflake_fqdns` of the older script: a missing section is an
      empty run, and only the first connector is listed. */
  method UpdateSnowflakeFqdnsLenient(section: Option<OneOrMany<BuildConfig.AdfRef>>,
                                     stores: map<BuildConfig.AdfRef, FactoryServices>,
                                     oldName: string, newName: string, dryRun: bool)
    returns (r: Result<seq<seq<string>>>)
    requires forall c :: c in stores ==> stores[c].Valid()
    modifies stores.Values
    ensures section.None? ==> r == Ok([])
    ensures r.Ok? <==> forall c :: c in ConfigsOrEmpty(section) ==> c in stores
    ensures dryRun || section.None? ==> forall c :: c in stores ==> stores[c].services == old(stores[c].services)
    ensures forall c :: section == Some(One(c)) && c in stores ==>
      stores[c].services
        == UpdatedAll(old(stores[c].services), FirstConnector, oldName, newName, dryRun, stores[c].refusedWrites)
  {
    r := UpdateSnowflakeFqdns(ConfigsOrEmpty(section), stores, FirstConnector, oldName, newName, dryRun);
  }

  /** The older script only ever touches services of the first connector;
      the automation copy also touches the second. */
  lemma FirstConnectorOnly(services: seq<LinkedService>, oldName: string, newName: string,
                           dryRun: bool, refused: set<string>, j: nat)
    requires j < |services| && services[j].ltype != Some(SnowflakeV1)
    ensures UpdatedAll(services, FirstConnector, oldName, newName, dryRun, refused)[j] == services[j]
    ensures services[j].ltype == Some(SnowflakeV2) ==>
      UpdatedAll(services, BothConnectors, oldName, newName, dryRun, refused)[j]
        == Updated(services[j], oldName, newName, dryRun, refused)
  {
  }
}
