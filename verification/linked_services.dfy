/** Data-factory linked services: listing with a type filter, the Snowflake
    account-name update and the request body of a connection test. A
    factory's linked services are a store object that the update writes
    through `create_or_update`. */
module LinkedServices {
  import opened Common
  import opened Fqdn

  /** A linked-service document: its name, `properties.type` (absent when
      the document has none), `properties.typeProperties` and
      `properties.parameters`. */
  datatype LinkedService = LinkedService(
    name: string,
    ltype: Option<string>,
    typeProperties: map<string, string>,
    parameters: Option<map<string, string>>)

  const SnowflakeV1: string := "Snowflake"
  const SnowflakeV2: string := "SnowflakeV2"

  /** The field that holds the account name: `connectionString` for the
      first Snowflake connector and `accountIdentifier` for any other type. */
  function AccountField(ltype: Option<string>): string {
    if ltype == Some(SnowflakeV1) then "connectionString" else "accountIdentifier"
  }

  /** `filter_by_type`: nothing, one type name, or a list of type names. */
  datatype TypeFilter = NoFilter | OneType(t: string) | AnyOf(ts: seq<string>)

  /** Only a truthy filter filters: an empty string or an empty list lists
      everything. */
  predicate Selective(f: TypeFilter) {
    match f
    case NoFilter => false
    case OneType(t) => t != ""
    case AnyOf(ts) => ts != []
  }

  /** A service without a type matches no selective filter. */
  predicate Selects(f: TypeFilter, s: LinkedService) {
    match f
    case NoFilter => true
    case OneType(t) => t == "" || s.ltype == Some(t)
    case AnyOf(ts) => ts == [] || (s.ltype.Some? && s.ltype.value in ts)
  }

  function Admits(f: TypeFilter): LinkedService -> bool {
    (s: LinkedService) => Selects(f, s)
  }

  /** An unfiltered listing is the factory's listing as it is. */
  lemma {:induction false} UnfilteredListsAll(services: seq<LinkedService>, f: TypeFilter)
    requires !Selective(f)
    ensures Filter(services, Admits(f)) == services
  {
    if services != [] {
      UnfilteredListsAll(services[1..], f);
      assert [services[0]] + services[1..] == services;
    }
  }

  /** A non-empty type name filters exactly as the one-element list holding
      it; the empty name filters nothing, while a list holding only the
      empty name keeps the services typed "". */
  lemma OneTypeAsList(services: seq<LinkedService>, t: string)
    ensures t != "" ==> Filter(services, Admits(OneType(t))) == Filter(services, Admits(AnyOf([t])))
    ensures t == "" ==> Filter(services, Admits(OneType(t))) == services
    ensures forall s :: s in Filter(services, Admits(AnyOf([t]))) <==> s in services && s.ltype == Some(t)
  {
    if t != "" {
      FilterPointwise(services, Admits(OneType(t)), Admits(AnyOf([t])));
    } else {
      UnfilteredListsAll(services, OneType(t));
    }
  }

  predicate UniqueNames(services: seq<LinkedService>) {
    forall i, j :: 0 <= i < j < |services| ==> services[i].name != services[j].name
  }

  /** Where the service called `name` stands in the listing. */
  function IndexOf(services: seq<LinkedService>, name: string): (r: Option<nat>)
    ensures r.Some? ==> r.value < |services| && services[r.value].name == name
    ensures r.Some? ==> forall j :: 0 <= j < r.value ==> services[j].name != name
    ensures r.None? ==> forall j :: 0 <= j < |services| ==> services[j].name != name
  {
    if services == [] then None
    else if services[0].name == name then Some(0)
    else match IndexOf(services[1..], name)
      case None => None
      case Some(i) => Some(i + 1)
  }

  lemma UniqueIndex(services: seq<LinkedService>, i: nat)
    requires UniqueNames(services) && i < |services|
    ensures IndexOf(services, services[i].name) == Some(i)
  {
  }

  /** `create_or_update`: an existing service of that name is replaced
      where it stands, a new one is added at the end. */
  function Stored(services: seq<LinkedService>, s: LinkedService): (r: seq<LinkedService>)
    requires UniqueNames(services)
    ensures UniqueNames(r)
    ensures s in r
    ensures forall x :: x in r && x.name != s.name <==> x in services && x.name != s.name
  {
    match IndexOf(services, s.name)
    case Some(i) => ReplacedAt(services, i, s); services[i := s]
    case None => services + [s]
  }

  lemma ReplacedAt(services: seq<LinkedService>, i: nat, s: LinkedService)
    requires UniqueNames(services) && i < |services| && services[i].name == s.name
    ensures UniqueNames(services[i := s])
    ensures s in services[i := s]
    ensures forall x :: x in services[i := s] && x.name != s.name <==> x in services && x.name != s.name
  {
    var r := services[i := s];
    assert r[i] == s;
    forall x | x in services && x.name != s.name ensures x in r {
      var j :| 0 <= j < |services| && services[j] == x;
      assert r[j] == x;
    }
    forall x | x in r && x.name != s.name ensures x in services {
      var j :| 0 <= j < |r| && r[j] == x;
      assert services[j] == x;
    }
  }

  /** The account-name update of the helper module: the field's text is
      rewritten, and the call gives up (None, nothing written) when the
      rewrite leaves it as it was. A document without the field raises
      KeyError. */
  function Retarget(s: LinkedService, oldName: string, newName: string): (r: Result<Option<LinkedService>>)
    ensures r.Err? <==> AccountField(s.ltype) !in s.typeProperties
    ensures r.Err? ==> r.error == KeyError
    ensures r.Ok? ==>
      (r.value.Some? <==> HasMatch(s.typeProperties[AccountField(s.ltype)], oldName) && newName != oldName)
    ensures r.Ok? && r.value.Some? ==>
      var f := AccountField(s.ltype);
      var u := r.value.value;
      && u.name == s.name && u.ltype == s.ltype && u.parameters == s.parameters
      && u.typeProperties.Keys == s.typeProperties.Keys
      && u.typeProperties[f] == Rewrite(s.typeProperties[f], oldName, newName)
      && (forall k :: k in s.typeProperties && k != f ==> u.typeProperties[k] == s.typeProperties[k])
  {
    var f := AccountField(s.ltype);
    if f !in s.typeProperties then Err(KeyError)
    else
      var current := s.typeProperties[f];
      var rewritten := Rewrite(current, oldName, newName);
      RewriteUnchangedIff(current, oldName, newName);
      if rewritten == current then Ok(None)
      else Ok(Some(s.(typeProperties := s.typeProperties[f := rewritten])))
  }

  /** The same update in the package copy: the first connector is handled
      as above, but for any other type the give-up test compares the new
      name with the whole identifier, and the identifier is then replaced
      by the new name outright, the rewritten text being thrown away. */
  function RetargetAsWritten(s: LinkedService, oldName: string, newName: string): (r: Result<Option<LinkedService>>)
    ensures r.Err? <==> AccountField(s.ltype) !in s.typeProperties
    ensures s.ltype == Some(SnowflakeV1) ==> r == Retarget(s, oldName, newName)
    ensures r.Ok? && r.value.Some? ==> r.value.value.name == s.name && r.value.value.ltype == s.ltype
    ensures s.ltype != Some(SnowflakeV1) && r.Ok? ==>
      (r.value.None? <==> s.typeProperties["accountIdentifier"] == newName)
    ensures s.ltype != Some(SnowflakeV1) && r.Ok? && r.value.Some? ==>
      && "accountIdentifier" in r.value.value.typeProperties
      && r.value.value.typeProperties["accountIdentifier"] == newName
  {
    if s.ltype == Some(SnowflakeV1) then Retarget(s, oldName, newName)
    else if "accountIdentifier" !in s.typeProperties then Err(KeyError)
    else
      var current := s.typeProperties["accountIdentifier"];
      if newName == current then Ok(None)
      else Ok(Some(s.(typeProperties := s.typeProperties["accountIdentifier" := newName])))
  }

  /** Where the old name does not occur, the package copy still writes the
      new name over a second-connector identifier, while the helper copy
      writes nothing. */
  lemma AsWrittenWritesWithoutMatch(s: LinkedService, oldName: string, newName: string)
    requires s.ltype != Some(SnowflakeV1) && "accountIdentifier" in s.typeProperties
    requires !HasMatch(s.typeProperties["accountIdentifier"], oldName)
    requires s.typeProperties["accountIdentifier"] != newName
    ensures Retarget(s, oldName, newName) == Ok(None)
    ensures RetargetAsWritten(s, oldName, newName)
      == Ok(Some(s.(typeProperties := s.typeProperties["accountIdentifier" := newName])))
  {
  }

  /** Where it does occur, the package copy replaces the whole identifier
      by the bare account name: "sf://ab.east" becomes "cd", not
      "sf://cd.east". */
  lemma AsWrittenDiscardsRewrite(s: LinkedService)
    requires s.ltype == Some(SnowflakeV2)
    requires s.typeProperties == map["accountIdentifier" := "sf://ab.east"]
    ensures RetargetAsWritten(s, "ab", "cd") == Ok(Some(s.(typeProperties := map["accountIdentifier" := "cd"])))
    ensures Retarget(s, "ab", "cd") == Ok(Some(s.(typeProperties := map["accountIdentifier" := "sf://cd.east"])))
  {
    RewriteExample();
    assert s.typeProperties["accountIdentifier" := "cd"] == map["accountIdentifier" := "cd"];
    assert s.typeProperties["accountIdentifier" := "sf://cd.east"] == map["accountIdentifier" := "sf://cd.east"];
  }

  /** Updating with the new name equal to the old one never writes. */
  lemma SameNameNeverWrites(s: LinkedService, name: string)
    ensures Retarget(s, name, name).Ok? ==> Retarget(s, name, name) == Ok(None)
  {
  }

  /** What one update call leaves of the service it was called on: the
      rewritten document when the call writes it, the service as it was
      otherwise. */
  function Updated(s: LinkedService, oldName: string, newName: string, dryRun: bool, refused: set<string>)
    : (u: LinkedService)
    ensures u.name == s.name && u.ltype == s.ltype
    ensures u != s ==>
      && !dryRun && s.name !in refused && AccountField(s.ltype) in s.typeProperties
      && HasMatch(s.typeProperties[AccountField(s.ltype)], oldName) && newName != oldName
  {
    match Retarget(s, oldName, newName)
    case Ok(Some(v)) => if dryRun || s.name in refused then s else v
    case _ => s
  }

  /** The body of a connection test: the service as read, with its
      parameters replaced only by a truthy (present and non-empty)
      parameter mapping. */
  datatype TestRequest = TestRequest(linkedService: LinkedService)

  predicate Truthy(parameters: Option<map<string, string>>) {
    parameters.Some? && parameters.value != map[]
  }

  function TestBody(s: LinkedService, parameters: Option<map<string, string>>): (r: TestRequest)
    ensures r.linkedService.name == s.name && r.linkedService.ltype == s.ltype
    ensures r.linkedService.typeProperties == s.typeProperties
    ensures r.linkedService.parameters == if Truthy(parameters) then parameters else s.parameters
  {
    if Truthy(parameters) then TestRequest(s.(parameters := parameters)) else TestRequest(s)
  }

  /** Without parameters the service is tested exactly as stored. */
  lemma TestAsStored(s: LinkedService)
    ensures TestBody(s, None) == TestRequest(s)
    ensures TestBody(s, Some(map[])) == TestRequest(s)
  {
  }

  /** A factory's linked services as the management API holds them, in
      listing order. Writes of the services named in `refusedWrites` are
      rejected by the service. */
  class FactoryServices {
    var services: seq<LinkedService>
    const refusedWrites: set<string>

    ghost predicate Valid()
      reads this
    {
      UniqueNames(services)
    }

    constructor(services: seq<LinkedService>, refusedWrites: set<string>)
      requires UniqueNames(services)
      ensures Valid()
      ensures this.services == services && this.refusedWrites == refusedWrites
    {
      this.services := services;
      this.refusedWrites := refusedWrites;
    }

    /** Reading a service by name; an unknown name is an HTTP error. */
    method Get(name: string) returns (r: Result<LinkedService>)
      ensures IndexOf(services, name).None? ==> r == Err(ServiceError)
      ensures IndexOf(services, name).Some? ==> r == Ok(services[IndexOf(services, name).value])
    {
      var i := IndexOf(services, name);
      if i.None? {
        return Err(ServiceError);
      }
      r := Ok(services[i.value]);
    }

    /** `create_or_update`. */
    method Write(s: LinkedService) returns (r: Result<LinkedService>)
      requires Valid()
      modifies this
      ensures Valid()
      ensures s.name in refusedWrites ==> r == Err(ServiceError) && services == old(services)
      ensures s.name !in refusedWrites ==> r == Ok(s) && services == Stored(old(services), s)
    {
      if s.name in refusedWrites {
        return Err(ServiceError);
      }
      services := Stored(services, s);
      r := Ok(s);
    }
  }

  /** `ADFLinkedServices`: the client of one factory. */
  class ADFLinkedServices {
    const store: FactoryServices

    constructor(store: FactoryServices)
      ensures this.store == store
    {
      this.store := store;
    }

    /** `list_linked_services`: the listing, keeping in order the services
        the filter selects. */
    method ListLinkedServices(filter: TypeFilter) returns (r: seq<LinkedService>)
      ensures r == Filter(store.services, Admits(filter))
    {
      var listing := store.services;
      r := [];
      var i := 0;
      while i < |listing|
        invariant 0 <= i <= |listing|
        invariant r == Filter(listing[..i], Admits(filter))
      {
        r := SelectNext(filter, listing, i, r);
        i := i + 1;
      }
      assert listing[..i] == listing;
    }

    /** The body of the listing loop: service `i` is appended when the
        filter keeps it. */
    static method SelectNext(filter: TypeFilter, listing: seq<LinkedService>, i: nat, r: seq<LinkedService>)
      returns (r': seq<LinkedService>)
      requires i < |listing| && r == Filter(listing[..i], Admits(filter))
      ensures r' == Filter(listing[..i + 1], Admits(filter))
    {
      var keep := Keeps(filter, listing[i]);
      FilterPrefixStep(listing, i, Admits(filter));
      r' := r;
      if keep {
        r' := r + [listing[i]];
      }
    }

    /** The test of the listing loop for one service: an unselective
        filter keeps everything, a type keeps the services of that type, a
        list keeps the services whose type it holds. */
    static method Keeps(filter: TypeFilter, service: LinkedService) returns (keep: bool)
      ensures keep == Admits(filter)(service)
    {
      keep := true;
      if Selective(filter) {
        if filter.OneType? {
          keep := service.ltype == Some(filter.t);
        } else if filter.AnyOf? {
          keep := service.ltype.Some? && service.ltype.value in filter.ts;
        }
      }
    }

    /** `get_linked_service_details`. */
    method GetLinkedServiceDetails(name: string) returns (r: Result<LinkedService>)
      ensures r.Err? <==> IndexOf(store.services, name).None?
      ensures r.Ok? ==> r.value in store.services && r.value.name == name
    {
      r := store.Get(name);
    }

    /** What the update does once the new document is known: give up,
        report a dry run, or write. */
    method Commit(name: string, u: Result<Option<LinkedService>>, dryRun: bool)
      returns (r: Result<Option<LinkedService>>)
      requires store.Valid()
      requires u.Ok? && u.value.Some? ==> u.value.value.name == name
      modifies store
      ensures store.Valid()
      ensures u.Err? ==> r == u && store.services == old(store.services)
      ensures u == Ok(None) || (u.Ok? && dryRun) ==> r == Ok(None) && store.services == old(store.services)
      ensures u.Ok? && u.value.Some? && !dryRun ==>
        && (name in store.refusedWrites ==> r == Err(ServiceError) && store.services == old(store.services))
        && (name !in store.refusedWrites ==> r == u && store.services == Stored(old(store.services), u.value.value))
    {
      if u.Err? || u.value.None? || dryRun {
        r := if u.Err? then u else Ok(None);
        return;
      }
      var w := store.Write(u.value.value);
      if w.Err? {
        return Err(w.error);
      }
      r := Ok(Some(w.value));
    }

    /** `update_linked_service_sf_account` of the helper module. The
        service is read, its account field rewritten, and the result
        written back unless the rewrite changed nothing or this is a dry
        run. */
    method UpdateLinkedServiceSfAccount(name: string, oldName: string, newName: string, dryRun: bool)
      returns (r: Result<Option<LinkedService>>)
      requires store.Valid()
      modifies store
      ensures store.Valid()
      ensures IndexOf(old(store.services), name).None? ==>
        r == Err(ServiceError) && store.services == old(store.services)
      ensures IndexOf(old(store.services), name).Some? ==>
        var s := old(store.services)[IndexOf(old(store.services), name).value];
        var u := Retarget(s, oldName, newName);
        && (u.Err? ==> r == Err(KeyError))
        && (u.Ok? && (u.value.None? || dryRun) ==> r == Ok(None))
        && (u.Ok? && u.value.Some? && !dryRun && name !in store.refusedWrites ==> r == u)
        && (u.Ok? && u.value.Some? && !dryRun && name in store.refusedWrites ==> r == Err(ServiceError))
      ensures store.services ==
        if r.Ok? && r.value.Some? then Stored(old(store.services), r.value.value) else old(store.services)
      ensures IndexOf(old(store.services), name).Some? ==>
        var j := IndexOf(old(store.services), name).value;
        store.services == old(store.services)[j := Updated(old(store.services)[j], oldName, newName, dryRun, store.refusedWrites)]
      ensures dryRun ==> store.services == old(store.services)
    {
      var s := store.Get(name);
      if s.Err? {
        return Err(ServiceError);
      }
      ghost var before := store.services;
      ghost var j := IndexOf(before, name).value;
      assert before[j := before[j]] == before;
      var u := Retarget(s.value, oldName, newName);
      r := Commit(name, u, dryRun);
    }

    /** The same operation in the package copy, whose second-connector
        branch writes the bare new name (see RetargetAsWritten). */
    method UpdateLinkedServiceSfAccountAsWritten(name: string, oldName: string, newName: string, dryRun: bool)
      returns (r: Result<Option<LinkedService>>)
      requires store.Valid()
      modifies store
      ensures store.Valid()
      ensures IndexOf(old(store.services), name).None? ==>
        r == Err(ServiceError) && store.services == old(store.services)
      ensures IndexOf(old(store.services), name).Some? && !dryRun && name !in store.refusedWrites ==>
        var s := old(store.services)[IndexOf(old(store.services), name).value];
        r == RetargetAsWritten(s, oldName, newName)
      ensures store.services ==
        if r.Ok? && r.value.Some? then Stored(old(store.services), r.value.value) else old(store.services)
      ensures dryRun ==> store.services == old(store.services)
    {
      var s := store.Get(name);
      if s.Err? {
        return Err(ServiceError);
      }
      var u := RetargetAsWritten(s.value, oldName, newName);
      r := Commit(name, u, dryRun);
    }

    /** `test_linked_service_connection`, up to the request it sends: the
        service's answer is outside the model. */
    method TestLinkedServiceConnection(name: string, parameters: Option<map<string, string>>)
      returns (r: Result<TestRequest>)
      ensures r.Err? <==> IndexOf(store.services, name).None?
      ensures r.Ok? ==>
        var s := store.services[IndexOf(store.services, name).value];
        && r.value.linkedService.name == name
        && r.value.linkedService.typeProperties == s.typeProperties
        && r.value.linkedService.parameters == (if Truthy(parameters) then parameters else s.parameters)
    {
      var s := store.Get(name);
      if s.Err? {
        return Err(s.error);
      }
      r := Ok(TestBody(s.value, parameters));
    }
  }
}
