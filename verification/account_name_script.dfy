/** The stand-alone account-name script: for every configured factory it
    reads each linked service in full, keeps those of either Snowflake
    connector, rewrites the account name in each and deploys the result.
    Unlike the client classes it never gives up when the rewrite changes
    nothing, and any error ends the whole run. From the command line the
    dry-run flag cannot be switched off. */
module AccountNameScript {
  import opened Common
  import opened Fqdn
  import opened LinkedServices
  import opened SnowflakeFqdnDrivers
  import BuildConfig

  /** `update_snowflake_account_name`: the account field of the service
      (`connectionString` for the first connector, `accountIdentifier`
      otherwise) is rewritten, whether or not the rewrite changes it. A
      service without a type, or without the field, raises KeyError. */
  function AccountNameUpdate(s: LinkedService, oldName: string, newName: string): (r: Result<LinkedService>)
    ensures r.Err? <==> s.ltype.None? || AccountField(s.ltype) !in s.typeProperties
    ensures r.Err? ==> r.error == KeyError
    ensures r.Ok? ==>
      var f := AccountField(s.ltype);
      && r.value.name == s.name && r.value.ltype == s.ltype && r.value.parameters == s.parameters
      && r.value.typeProperties.Keys == s.typeProperties.Keys
      && r.value.typeProperties[f] == Rewrite(s.typeProperties[f], oldName, newName)
      && (forall k :: k in s.typeProperties && k != f ==> r.value.typeProperties[k] == s.typeProperties[k])
  {
    if s.ltype.None? then Err(KeyError)
    else
      var f := AccountField(s.ltype);
      if f !in s.typeProperties then Err(KeyError)
      else Ok(s.(typeProperties := s.typeProperties[f := Rewrite(s.typeProperties[f], oldName, newName)]))
  }

  /** The script and the helper module compute the same document; where
      the helper gives up because nothing would change, the script's
      document is the service as it was. */
  lemma AgreesWithHelper(s: LinkedService, oldName: string, newName: string)
    requires s.ltype.Some?
    ensures AccountNameUpdate(s, oldName, newName).Err? <==> Retarget(s, oldName, newName).Err?
    ensures Retarget(s, oldName, newName).Ok? && Retarget(s, oldName, newName).value.Some? ==>
      AccountNameUpdate(s, oldName, newName) == Ok(Retarget(s, oldName, newName).value.value)
    ensures Retarget(s, oldName, newName) == Ok(None) ==> AccountNameUpdate(s, oldName, newName) == Ok(s)
  {
    var f := AccountField(s.ltype);
    if f in s.typeProperties {
      RewriteUnchangedIff(s.typeProperties[f], oldName, newName);
      if Rewrite(s.typeProperties[f], oldName, newName) == s.typeProperties[f] {
        assert s.typeProperties[f := s.typeProperties[f]] == s.typeProperties;
      }
    }
  }

  /** The document the script deploys for a service, or the service itself
      when the rewrite raises. */
  function Renamed(s: LinkedService, oldName: string, newName: string): (u: LinkedService)
    ensures u.name == s.name && u.ltype == s.ltype
  {
    match AccountNameUpdate(s, oldName, newName)
    case Ok(v) => v
    case Err(_) => s
  }

  /** A service the script cannot handle: one without a type stops the
      listing; a Snowflake one without the account field stops the
      rewrite, and one whose write is refused stops the deploy. */
  predicate Untyped(s: LinkedService) {
    s.ltype.None?
  }

  predicate Blocked(s: LinkedService, dryRun: bool, refused: set<string>) {
    AccountField(s.ltype) !in s.typeProperties || (!dryRun && s.name in refused)
  }

  predicate ScriptFails(services: seq<LinkedService>, dryRun: bool, refused: set<string>) {
    || (exists s :: s in services && Untyped(s))
    || (exists s :: s in services && Selects(BothConnectors, s) && Blocked(s, dryRun, refused))
  }

  /** What a complete run over one factory leaves: every Snowflake service
      rewritten, the others as they were; a dry run leaves everything. */
  function ScriptPass(services: seq<LinkedService>, oldName: string, newName: string, dryRun: bool)
    : (r: seq<LinkedService>)
    ensures |r| == |services|
    ensures forall j :: 0 <= j < |services| ==>
      r[j] == if !dryRun && Selects(BothConnectors, services[j]) then Renamed(services[j], oldName, newName)
              else services[j]
  {
    seq(|services|, j requires 0 <= j < |services| =>
      if !dryRun && Selects(BothConnectors, services[j]) then Renamed(services[j], oldName, newName)
      else services[j])
  }

  /** A completed run keeps every name and type, and changes a service only
      when it is a Snowflake one whose account name occurs in its field. */
  lemma ScriptPassChanges(services: seq<LinkedService>, oldName: string, newName: string, dryRun: bool, j: nat)
    requires j < |services|
    ensures ScriptPass(services, oldName, newName, dryRun)[j].name == services[j].name
    ensures ScriptPass(services, oldName, newName, dryRun)[j] != services[j] ==>
      && !dryRun && Selects(BothConnectors, services[j])
      && HasMatch(services[j].typeProperties[AccountField(services[j].ltype)], oldName) && oldName != newName
  {
    var s := services[j];
    if !dryRun && Selects(BothConnectors, s) && AccountNameUpdate(s, oldName, newName).Ok? {
      var f := AccountField(s.ltype);
      RewriteUnchangedIff(s.typeProperties[f], oldName, newName);
      if Rewrite(s.typeProperties[f], oldName, newName) == s.typeProperties[f] {
        assert s.typeProperties[f := s.typeProperties[f]] == s.typeProperties;
      }
    }
  }

  /** `get_snowflake_linked_services`: every listed service is read in
      full by name and kept when its type is one of the two Snowflake
      connectors; a service without a type raises KeyError. */
  method GetSnowflakeLinkedServices(store: FactoryServices) returns (r: Result<seq<LinkedService>>)
    requires store.Valid()
    ensures r.Err? <==> exists s :: s in store.services && Untyped(s)
    ensures r.Err? ==> r.error == KeyError
    ensures r.Ok? ==> r.value == Filter(store.services, Admits(BothConnectors))
  {
    var listing := store.services;
    var kept := [];
    var i := 0;
    while i < |listing|
      invariant 0 <= i <= |listing|
      invariant forall k :: 0 <= k < i ==> !Untyped(listing[k])
      invariant kept == Filter(listing[..i], Admits(BothConnectors))
    {
      UniqueIndex(listing, i);
      var details := store.Get(listing[i].name);
      var s := details.value;
      assert s == listing[i];
      if s.ltype.None? {
        assert listing[i] in store.services;
        return Err(KeyError);
      }
      KeptStep(listing, i);
      if s.ltype.value in [SnowflakeV1, SnowflakeV2] {
        kept := kept + [s];
      }
      i := i + 1;
    }
    assert listing[..i] == listing;
    r := Ok(kept);
  }

  lemma KeptStep(listing: seq<LinkedService>, i: nat)
    requires i < |listing| && listing[i].ltype.Some?
    ensures Filter(listing[..i + 1], Admits(BothConnectors)) == Filter(listing[..i], Admits(BothConnectors))
      + if listing[i].ltype.value in [SnowflakeV1, SnowflakeV2] then [listing[i]] else []
  {
    FilterSnoc(listing[..i], listing[i], Admits(BothConnectors));
    assert listing[..i + 1] == listing[..i] + [listing[i]];
  }

  /** `deploy_snowflake_linked_service`: a dry run writes nothing. */
  method Deploy(store: FactoryServices, s: LinkedService, dryRun: bool) returns (r: Result<()>)
    requires store.Valid()
    modifies store
    ensures store.Valid()
    ensures dryRun ==> r == Ok(()) && store.services == old(store.services)
    ensures !dryRun ==> (r.Ok? <==> s.name !in store.refusedWrites)
    ensures !dryRun && r.Ok? ==> store.services == Stored(old(store.services), s)
    ensures r.Err? ==> r.error == ServiceError && store.services == old(store.services)
  {
    if dryRun {
      return Ok(());
    }
    var w := store.Write(s);
    if w.Err? {
      return Err(w.error);
    }
    r := Ok(());
  }

  /** The services of the listing already handled hold the document the
      script deployed for them, the others their original form. */
  ghost predicate Deployed(s0: seq<LinkedService>, listed: seq<LinkedService>, i: nat, now: seq<LinkedService>,
                           oldName: string, newName: string, dryRun: bool)
    requires i <= |listed|
  {
    && |now| == |s0|
    && forall j :: 0 <= j < |s0| ==>
         now[j] == if !dryRun && s0[j] in listed[..i] then Renamed(s0[j], oldName, newName) else s0[j]
  }

  /** The part of the script's loop over one factory after the listing:
      each Snowflake service is rewritten and deployed in turn, and the
      first error ends the run. */
  method ProcessFactory(store: FactoryServices, oldName: string, newName: string, dryRun: bool)
    returns (r: Result<()>)
    requires store.Valid()
    modifies store
    ensures store.Valid()
    ensures r.Err? <==> ScriptFails(old(store.services), dryRun, store.refusedWrites)
    ensures r.Err? ==> r.error == KeyError || r.error == ServiceError
    ensures r.Ok? ==> store.services == ScriptPass(old(store.services), oldName, newName, dryRun)
    ensures dryRun ==> store.services == old(store.services)
  {
    var got := GetSnowflakeLinkedServices(store);
    if got.Err? {
      return Err(got.error);
    }
    StartDeployed(store.services, oldName, newName, dryRun);
    r := DeployListed(store, store.services, got.value, oldName, newName, dryRun);
  }

  /** The loop over the services listed: each is rewritten and deployed in
      turn, and the first error ends the run. */
  method DeployListed(store: FactoryServices, ghost s0: seq<LinkedService>, listed: seq<LinkedService>,
                      oldName: string, newName: string, dryRun: bool)
    returns (r: Result<()>)
    requires store.Valid() && store.services == s0
    requires listed == Filter(s0, Admits(BothConnectors)) && Distinct(listed)
    requires forall s :: s in s0 ==> !Untyped(s)
    requires Deployed(s0, listed, 0, s0, oldName, newName, dryRun)
    modifies store
    ensures store.Valid()
    ensures r.Err? ==> ScriptFails(s0, dryRun, store.refusedWrites) && (r.error == KeyError || r.error == ServiceError)
    ensures r.Ok? ==> !ScriptFails(s0, dryRun, store.refusedWrites) && store.services == ScriptPass(s0, oldName, newName, dryRun)
    ensures dryRun ==> store.services == s0
  {
    ghost var refused := store.refusedWrites;
    var i := 0;
    while i < |listed|
      invariant 0 <= i <= |listed|
      invariant store.Valid()
      invariant Deployed(s0, listed, i, store.services, oldName, newName, dryRun)
      invariant forall k :: 0 <= k < i ==> !Blocked(listed[k], dryRun, refused)
      invariant dryRun ==> store.services == s0
    {
      r := DeployNext(store, s0, listed, i, oldName, newName, dryRun);
      if r.Err? {
        return;
      }
      i := i + 1;
    }
    r := Ok(());
    DeployedDone(s0, store.services, oldName, newName, dryRun, refused);
  }

  /** One turn of the loop above: the next service is handled, or the run
      fails because of it. */
  method DeployNext(store: FactoryServices, ghost s0: seq<LinkedService>, listed: seq<LinkedService>, i: nat,
                    oldName: string, newName: string, dryRun: bool)
    returns (r: Result<()>)
    requires i < |listed| && UniqueNames(s0) && listed == Filter(s0, Admits(BothConnectors)) && Distinct(listed)
    requires forall s :: s in s0 ==> !Untyped(s)
    requires store.Valid()
    requires Deployed(s0, listed, i, store.services, oldName, newName, dryRun)
    requires forall k :: 0 <= k < i ==> !Blocked(listed[k], dryRun, store.refusedWrites)
    requires dryRun ==> store.services == s0
    modifies store
    ensures store.Valid()
    ensures r.Err? ==> ScriptFails(s0, dryRun, store.refusedWrites) && (r.error == KeyError || r.error == ServiceError)
    ensures r.Ok? ==> Deployed(s0, listed, i + 1, store.services, oldName, newName, dryRun)
    ensures r.Ok? ==> forall k :: 0 <= k < i + 1 ==> !Blocked(listed[k], dryRun, store.refusedWrites)
    ensures dryRun ==> store.services == s0
  {
    r := DeployOne(store, s0, listed, i, oldName, newName, dryRun);
    if r.Err? {
      BlockedFails(s0, i, dryRun, store.refusedWrites);
    }
  }

  /** A Snowflake service that cannot be handled makes the run fail. */
  lemma BlockedFails(s0: seq<LinkedService>, i: nat, dryRun: bool, refused: set<string>)
    requires i < |Filter(s0, Admits(BothConnectors))|
    requires Blocked(Filter(s0, Admits(BothConnectors))[i], dryRun, refused)
    ensures ScriptFails(s0, dryRun, refused)
  {
    var listed := Filter(s0, Admits(BothConnectors));
    FilterMembers(s0, Admits(BothConnectors));
    assert listed[i] in listed;
  }

  /** One service: rewrite, then deploy. */
  method DeployOne(store: FactoryServices, ghost s0: seq<LinkedService>, listed: seq<LinkedService>, i: nat,
                   oldName: string, newName: string, dryRun: bool)
    returns (r: Result<()>)
    requires i < |listed| && UniqueNames(s0) && listed == Filter(s0, Admits(BothConnectors))
    requires forall s :: s in s0 ==> !Untyped(s)
    requires Distinct(listed)
    requires store.Valid()
    requires Deployed(s0, listed, i, store.services, oldName, newName, dryRun)
    modifies store
    ensures store.Valid()
    ensures r.Err? <==> Blocked(listed[i], dryRun, store.refusedWrites)
    ensures r.Err? ==> r.error == KeyError || r.error == ServiceError
    ensures r.Ok? ==> Deployed(s0, listed, i + 1, store.services, oldName, newName, dryRun)
    ensures dryRun || r.Err? ==> store.services == old(store.services)
  {
    var j := DeployStep(s0, listed, i, store.services, oldName, newName, dryRun);
    var updated := AccountNameUpdate(listed[i], oldName, newName);
    assert listed[i] in s0;
    if updated.Err? {
      return Err(updated.error);
    }
    ghost var before := store.services;
    r := Deploy(store, updated.value, dryRun);
    if r.Ok? {
      DeployStepDone(s0, listed, i, j, before, store.services, oldName, newName, dryRun);
    }
  }

  lemma StartDeployed(s0: seq<LinkedService>, oldName: string, newName: string, dryRun: bool)
    requires UniqueNames(s0)
    ensures Distinct(Filter(s0, Admits(BothConnectors)))
    ensures Deployed(s0, Filter(s0, Admits(BothConnectors)), 0, s0, oldName, newName, dryRun)
  {
    assert Distinct(s0) by {
      forall a, b | 0 <= a < b < |s0| ensures s0[a] != s0[b] {
        assert s0[a].name != s0[b].name;
      }
    }
    FilterDistinct(s0, Admits(BothConnectors));
  }

  /** The next service of the listing stands, untouched so far, where the
      write of its new document replaces it. */
  lemma DeployStep(s0: seq<LinkedService>, listed: seq<LinkedService>, i: nat, now: seq<LinkedService>,
                   oldName: string, newName: string, dryRun: bool)
    returns (j: nat)
    requires i < |listed| && UniqueNames(s0) && Distinct(listed) && UniqueNames(now)
    requires listed == Filter(s0, Admits(BothConnectors))
    requires Deployed(s0, listed, i, now, oldName, newName, dryRun)
    ensures j < |s0| && IndexOf(now, listed[i].name) == Some(j)
    ensures s0[j] == listed[i] && now[j] == s0[j]
  {
    var x := listed[i];
    FilterMembers(s0, Admits(BothConnectors));
    assert x in s0;
    j :| 0 <= j < |s0| && s0[j] == x;
    assert x !in listed[..i] by {
      forall k | 0 <= k < i ensures listed[k] != x {
        assert listed[k] == listed[..i][k];
      }
    }
    UniqueIndex(now, j);
  }

  lemma DeployStepDone(s0: seq<LinkedService>, listed: seq<LinkedService>, i: nat, j: nat,
                       before: seq<LinkedService>, after: seq<LinkedService>,
                       oldName: string, newName: string, dryRun: bool)
    requires i < |listed| && UniqueNames(s0) && j < |s0| && UniqueNames(before)
    requires Deployed(s0, listed, i, before, oldName, newName, dryRun)
    requires s0[j] == listed[i] && before[j] == s0[j] && IndexOf(before, listed[i].name) == Some(j)
    requires AccountNameUpdate(listed[i], oldName, newName).Ok?
    requires dryRun ==> after == before
    requires !dryRun ==> after == Stored(before, AccountNameUpdate(listed[i], oldName, newName).value)
    ensures Deployed(s0, listed, i + 1, after, oldName, newName, dryRun)
  {
    var v := AccountNameUpdate(listed[i], oldName, newName).value;
    StoredAt(before, j, v);
    assert listed[..i + 1][i] == s0[j];
    forall k | 0 <= k < |s0| && k != j
      ensures after[k] == if !dryRun && s0[k] in listed[..i + 1] then Renamed(s0[k], oldName, newName) else s0[k]
    {
      OtherUntouched(s0, listed, i, j, k);
    }
  }

  lemma StoredAt(services: seq<LinkedService>, j: nat, s: LinkedService)
    requires UniqueNames(services) && IndexOf(services, s.name) == Some(j)
    ensures Stored(services, s) == services[j := s]
  {
  }

  lemma OtherUntouched(s0: seq<LinkedService>, listed: seq<LinkedService>, i: nat, j: nat, k: nat)
    requires i < |listed| && UniqueNames(s0) && j < |s0| && k < |s0| && k != j && s0[j] == listed[i]
    ensures s0[k] in listed[..i + 1] <==> s0[k] in listed[..i]
  {
    assert listed[..i + 1] == listed[..i] + [listed[i]];
    assert s0[k].name != s0[j].name;
  }

  lemma DeployedDone(s0: seq<LinkedService>, now: seq<LinkedService>, oldName: string, newName: string,
                     dryRun: bool, refused: set<string>)
    requires forall s :: s in s0 ==> !Untyped(s)
    requires Deployed(s0, Filter(s0, Admits(BothConnectors)), |Filter(s0, Admits(BothConnectors))|, now,
                      oldName, newName, dryRun)
    requires forall k :: 0 <= k < |Filter(s0, Admits(BothConnectors))| ==>
      !Blocked(Filter(s0, Admits(BothConnectors))[k], dryRun, refused)
    ensures !ScriptFails(s0, dryRun, refused)
    ensures now == ScriptPass(s0, oldName, newName, dryRun)
  {
    var listed := Filter(s0, Admits(BothConnectors));
    FilterMembers(s0, Admits(BothConnectors));
    assert listed[..|listed|] == listed;
    forall s | s in s0 && Selects(BothConnectors, s) ensures !Blocked(s, dryRun, refused) {
      assert s in listed;
      var k :| 0 <= k < |listed| && listed[k] == s;
    }
    forall j | 0 <= j < |s0| ensures (s0[j] in listed <==> Selects(BothConnectors, s0[j])) {
      assert s0[j] in s0;
    }
  }

  /** The `--dry-run` option is a switch whose default is already on, so
      a run from the command line is always a dry run. */
  function CliDryRun(switchGiven: bool): (dryRun: bool)
    ensures dryRun
  {
    true
  }

  /** `main`, from the configuration section on: a list of factories is
      handled entry by entry, a single one once, and a missing section
      only prints a message. A factory the service does not know fails
      its listing; the first error ends the run. */
  method RunScript(section: Option<OneOrMany<BuildConfig.AdfRef>>, stores: map<BuildConfig.AdfRef, FactoryServices>,
              oldName: string, newName: string, switchGiven: bool)
    returns (r: Result<()>)
    requires AllValid(stores)
    modifies stores.Values
    ensures AllValid(stores)
    ensures Services(stores) == old(Services(stores))
    ensures section.None? ==> r == Ok(())
    ensures r.Ok? <==> forall c :: c in ConfigsOrEmpty(section) ==>
      c in stores && !ScriptFails(old(Services(stores))[c], true, stores[c].refusedWrites)
  {
    var dryRun := CliDryRun(switchGiven);
    var configs := ConfigsOrEmpty(section);
    ghost var s0 := Services(stores);
    var k := 0;
    while k < |configs|
      invariant 0 <= k <= |configs|
      invariant AllValid(stores)
      invariant Services(stores) == s0
      invariant forall c :: c in configs[..k] ==> c in stores && !ScriptFails(s0[c], true, stores[c].refusedWrites)
    {
      var c := configs[k];
      if c !in stores {
        assert c in configs;
        return Err(ServiceError);
      }
      var st := stores[c];
      ghost var mid := Services(stores);
      r := ProcessFactory(st, oldName, newName, dryRun);
      assert Services(stores) == mid by {
        forall d | d in stores ensures stores[d].services == mid[d] {
        }
      }
      if r.Err? {
        assert c in configs;
        return;
      }
      assert configs[..k + 1] == configs[..k] + [c];
      k := k + 1;
    }
    assert configs[..k] == configs;
    r := Ok(());
  }

  /** The script reads each service with `as_dict()`, which flattens the
      connector's `typeProperties` into `properties` under the SDK's
      attribute names, so the account field is read from a key the document
      does not have. The members named `AsWritten` follow that document;
      the ones above read the service in its REST form, as the script's
      own key paths assume. */

  /** A value of the dictionary `as_dict()` returns: text, or a nested
      dictionary of text. */
  datatype DictValue = Text(text: string) | Nested(entries: map<string, string>)

  datatype ServiceDict = ServiceDict(name: string, properties: map<string, DictValue>)

  /** The SDK's attribute name for a camel-case REST key: each capital
      becomes `_` followed by its small letter. */
  function SnakeCase(key: string): (r: string)
    ensures forall c :: c in r ==> !('A' <= c <= 'Z')
    ensures |r| >= |key|
  {
    if key == [] then []
    else (if 'A' <= key[0] <= 'Z' then ['_', (key[0] as int + 32) as char] else [key[0]]) + SnakeCase(key[1..])
  }

  /** The SDK name of a joined key is the joined SDK names. */
  lemma {:induction false} SnakeCaseAppend(a: string, b: string)
    ensures SnakeCase(a + b) == SnakeCase(a) + SnakeCase(b)
  {
    if a == [] {
      assert a + b == b;
    } else {
      assert (a + b)[0] == a[0] && (a + b)[1..] == a[1..] + b;
      SnakeCaseAppend(a[1..], b);
    }
  }

  /** A key without capitals is its own SDK name. */
  lemma {:induction false} SnakeCaseKeepsSmall(key: string)
    requires forall i :: 0 <= i < |key| ==> !('A' <= key[i] <= 'Z')
    ensures SnakeCase(key) == key
  {
    if key != [] {
      SnakeCaseKeepsSmall(key[1..]);
    }
  }

  /** A key with a single capital: the capital becomes `_` and its small
      letter. */
  lemma SnakeCaseOneCapital(key: string, head: string, capital: char, tail: string)
    requires key == head + [capital] + tail
    requires forall i :: 0 <= i < |head| ==> !('A' <= head[i] <= 'Z')
    requires forall i :: 0 <= i < |tail| ==> !('A' <= tail[i] <= 'Z')
    requires 'A' <= capital <= 'Z'
    ensures SnakeCase(key) == head + ['_', (capital as int + 32) as char] + tail
  {
    var small := (capital as int + 32) as char;
    assert [capital][0] == capital && [capital][1..] == [];
    assert SnakeCase([capital]) == ['_', small];
    SnakeCaseAppend(head + [capital], tail);
    SnakeCaseAppend(head, [capital]);
    SnakeCaseKeepsSmall(head);
    SnakeCaseKeepsSmall(tail);
  }

  /** The SDK name of `connectionString`. */
  lemma SnakeCaseConnectionString(key: string)
    requires key == "connectionString"
    ensures SnakeCase(key) == "connection_string"
  {
    SnakeCaseOneCapital(key, "connection", 'S', "tring");
  }

  /** The SDK name of `accountIdentifier`. */
  lemma SnakeCaseAccountIdentifier(key: string)
    requires key == "accountIdentifier"
    ensures SnakeCase(key) == "account_identifier"
  {
    SnakeCaseOneCapital(key, "account", 'I', "dentifier");
  }

  /** The connectors' account fields under their SDK names: where the
      script looks for `connectionString` or `accountIdentifier`
      (AccountField), an `as_dict()` document holds `connection_string` or
      `account_identifier`. */
  lemma SnakeCaseAccountKeys(key: string)
    ensures key == "connectionString" ==> SnakeCase(key) == "connection_string"
    ensures key == "accountIdentifier" ==> SnakeCase(key) == "account_identifier"
  {
    if key == "connectionString" {
      SnakeCaseConnectionString(key);
    } else if key == "accountIdentifier" {
      SnakeCaseAccountIdentifier(key);
    }
  }

  /** The part of `as_dict()` the script reads: `properties.type` and the
      account field, directly under `properties` and in snake case. The
      connector's other attributes, which the script never reads, are not
      modelled. */
  function AsDict(s: LinkedService): (d: ServiceDict)
    ensures d.name == s.name
    ensures "type" in d.properties <==> s.ltype.Some?
    ensures s.ltype.Some? ==> d.properties["type"] == Text(s.ltype.value)
    ensures "typeProperties" !in d.properties
  {
    var f := AccountField(s.ltype);
    var typed := if s.ltype.Some? then map["type" := Text(s.ltype.value)] else map[];
    var flat := if f in s.typeProperties then map[SnakeCase(f) := Text(s.typeProperties[f])] else map[];
    assert 'P' in "typeProperties" && 'P' !in SnakeCase(f);
    assert |SnakeCase(f)| > |"type"|;
    ServiceDict(s.name, flat + typed)
  }

  /** The filter of `get_snowflake_linked_services` on the document read:
      `properties.type` is one of the two connectors; a document without
      it raises KeyError. */
  function KeepsAsWritten(d: ServiceDict): (r: Result<bool>)
    ensures r.Err? <==> "type" !in d.properties
    ensures r.Ok? ==> (r.value <==> d.properties["type"] in [Text(SnowflakeV1), Text(SnowflakeV2)])
  {
    if "type" !in d.properties then Err(KeyError)
    else Ok(d.properties["type"] in [Text(SnowflakeV1), Text(SnowflakeV2)])
  }

  /** On what `as_dict()` returns, the filter keeps exactly the services of
      the two Snowflake connectors. */
  lemma KeepsAsDict(s: LinkedService)
    requires s.ltype.Some?
    ensures KeepsAsWritten(AsDict(s)) == Ok(s.ltype.value in [SnowflakeV1, SnowflakeV2])
  {
    assert Text(s.ltype.value) in [Text(SnowflakeV1), Text(SnowflakeV2)] <==> s.ltype.value in [SnowflakeV1, SnowflakeV2];
  }

  /** `update_snowflake_account_name` on a dictionary: `properties.type`
      picks the field, which is read under `properties.typeProperties`;
      a missing key raises KeyError, and a text where a dictionary is
      indexed raises TypeError. */
  function AccountNameUpdateAsWritten(d: ServiceDict, oldName: string, newName: string): (r: Result<ServiceDict>)
    ensures "typeProperties" !in d.properties ==> r == Err(KeyError)
    ensures r.Ok? ==>
      && r.value.name == d.name && r.value.properties.Keys == d.properties.Keys
      && "type" in d.properties && d.properties["typeProperties"].Nested?
      && var f := if d.properties["type"] == Text(SnowflakeV1) then "connectionString" else "accountIdentifier";
         var tp := d.properties["typeProperties"].entries;
         && f in tp
         && r.value.properties["typeProperties"] == Nested(tp[f := Rewrite(tp[f], oldName, newName)])
  {
    if "type" !in d.properties || "typeProperties" !in d.properties then Err(KeyError)
    else
      var f := if d.properties["type"] == Text(SnowflakeV1) then "connectionString" else "accountIdentifier";
      match d.properties["typeProperties"]
      case Text(_) => Err(TypeError)
      case Nested(tp) =>
        if f !in tp then Err(KeyError)
        else Ok(d.(properties := d.properties["typeProperties" := Nested(tp[f := Rewrite(tp[f], oldName, newName)])]))
  }

  /** On what `as_dict()` returns, the rewrite raises KeyError for every
      service, of either connector and whatever its account field holds. */
  lemma AsDictUpdateFails(s: LinkedService, oldName: string, newName: string)
    ensures AccountNameUpdateAsWritten(AsDict(s), oldName, newName) == Err(KeyError)
  {
  }

  /** `get_snowflake_linked_services` as written: each listed service is
      read with `as_dict()` and kept by its type; a service without a type
      raises KeyError. */
  method GetSnowflakeLinkedServicesAsWritten(store: FactoryServices) returns (r: Result<seq<ServiceDict>>)
    requires store.Valid()
    ensures r.Err? <==> exists s :: s in store.services && Untyped(s)
    ensures r.Err? ==> r.error == KeyError
    ensures r.Ok? ==>
      var kept := Filter(store.services, Admits(BothConnectors));
      |r.value| == |kept| && forall k :: 0 <= k < |kept| ==> r.value[k] == AsDict(kept[k])
  {
    var listing := store.services;
    var dicts: seq<ServiceDict> := [];
    ghost var kept: seq<LinkedService> := [];
    var i := 0;
    while i < |listing|
      invariant 0 <= i <= |listing|
      invariant forall k :: 0 <= k < i ==> !Untyped(listing[k])
      invariant kept == Filter(listing[..i], Admits(BothConnectors))
      invariant |dicts| == |kept| && forall k :: 0 <= k < |kept| ==> dicts[k] == AsDict(kept[k])
    {
      UniqueIndex(listing, i);
      var details := store.Get(listing[i].name);
      var d := AsDict(details.value);
      var keep := KeepsAsWritten(d);
      if keep.Err? {
        assert listing[i] in store.services;
        return Err(keep.error);
      }
      KeepsAsDict(listing[i]);
      KeptStep(listing, i);
      if keep.value {
        dicts := dicts + [d];
        kept := kept + [listing[i]];
      }
      i := i + 1;
    }
    assert listing[..i] == listing;
    r := Ok(dicts);
  }

  /** A factory the script can complete as written: no service lacks a
      type and none is of either Snowflake connector. */
  predicate CompletesAsWritten(services: seq<LinkedService>) {
    forall s :: s in services ==> !Untyped(s) && !Selects(BothConnectors, s)
  }

  /** The script's loop over one factory as written: the listing, then the
      rewrite of the first Snowflake service, which raises before anything
      is deployed. It writes nothing, in a dry run or not (the method
      modifies nothing), and fails with KeyError exactly when the factory
      has a Snowflake service or an untyped one. */
  method ProcessFactoryAsWritten(store: FactoryServices, oldName: string, newName: string)
    returns (r: Result<()>)
    requires store.Valid()
    ensures r.Ok? <==> CompletesAsWritten(store.services)
    ensures r.Err? ==> r.error == KeyError
  {
    var got := GetSnowflakeLinkedServicesAsWritten(store);
    if got.Err? {
      return Err(got.error);
    }
    var kept := Filter(store.services, Admits(BothConnectors));
    FilterMembers(store.services, Admits(BothConnectors));
    if |got.value| == 0 {
      assert kept == [];
      return Ok(());
    }
    assert kept[0] in kept;
    AsDictUpdateFails(kept[0], oldName, newName);
    var updated := AccountNameUpdateAsWritten(got.value[0], oldName, newName);
    r := Err(updated.error);
  }

  /** `main` as written: no factory's services change, and the run fails
      as soon as a configured factory is unknown or holds a Snowflake
      service (or an untyped one). */
  method RunScriptAsWritten(section: Option<OneOrMany<BuildConfig.AdfRef>>, stores: map<BuildConfig.AdfRef, FactoryServices>,
                            oldName: string, newName: string)
    returns (r: Result<()>)
    requires AllValid(stores)
    ensures section.None? ==> r == Ok(())
    ensures r.Ok? <==> forall c :: c in ConfigsOrEmpty(section) ==> c in stores && CompletesAsWritten(stores[c].services)
    ensures r.Err? ==> r.error == KeyError || r.error == ServiceError
  {
    var configs := ConfigsOrEmpty(section);
    var k := 0;
    while k < |configs|
      invariant 0 <= k <= |configs|
      invariant forall c :: c in configs[..k] ==> c in stores && CompletesAsWritten(stores[c].services)
    {
      var c := configs[k];
      if c !in stores {
        assert c in configs;
        return Err(ServiceError);
      }
      r := ProcessFactoryAsWritten(stores[c], oldName, newName);
      if r.Err? {
        assert c in configs;
        return;
      }
      assert configs[..k + 1] == configs[..k] + [c];
      k := k + 1;
    }
    assert configs[..k] == configs;
    r := Ok(());
  }
}
