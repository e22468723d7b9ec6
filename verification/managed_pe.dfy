/** Managed private endpoints of a data factory's managed virtual network.
    An endpoint carries the list of FQDNs it resolves, the group id and the
    private link resource it points at. Updating the FQDN list reads the
    existing endpoint and writes it back with the new list and the two link
    properties copied from what was read. The endpoint service is a map
    from endpoint address to endpoint, with the addresses whose writes it
    refuses. */
module ManagedEndpoints {
  import opened Common
  import BuildConfig

  /** Where an endpoint lives: factory, managed virtual network, name. */
  datatype EndpointAddress = EndpointAddress(factory: BuildConfig.AdfRef, vnet: string, name: string)

  datatype Endpoint = Endpoint(fqdns: seq<string>, groupId: string, privateLinkResourceId: string)

  /** The managed virtual network every call uses unless told otherwise. */
  const DefaultVnet := "default"

  /** The scalar properties of an endpoint as `as_dict()` names them: the
      SDK's attribute names, in snake case. */
  function AsDict(e: Endpoint): (d: map<string, string>)
    ensures d.Keys == {"group_id", "private_link_resource_id"}
    ensures d["group_id"] == e.groupId && d["private_link_resource_id"] == e.privateLinkResourceId
  {
    map["group_id" := e.groupId, "private_link_resource_id" := e.privateLinkResourceId]
  }

  /** `d[key]`: a missing key raises KeyError. */
  function Property(d: map<string, string>, key: string): (r: Result<string>)
    ensures r.Ok? <==> key in d
    ensures r.Ok? ==> r.value == d[key]
    ensures r.Err? ==> r.error == KeyError
  {
    if key in d then Ok(d[key]) else Err(KeyError)
  }

  /** The endpoint `create_or_update` stores: the given FQDN list, and the
      group id and private link resource of the endpoint it replaces. */
  function Written(existing: Endpoint, fqdns: seq<string>): Endpoint {
    Endpoint(fqdns, existing.groupId, existing.privateLinkResourceId)
  }

  /** An update changes the FQDN list only: the result holds exactly the
      given list and points at the same resource, and writing the list the
      endpoint already has gives the endpoint back. */
  lemma WrittenKeepsLink(existing: Endpoint, fqdns: seq<string>)
    ensures Written(existing, fqdns).fqdns == fqdns
    ensures Written(existing, fqdns).groupId == existing.groupId
    ensures Written(existing, fqdns).privateLinkResourceId == existing.privateLinkResourceId
    ensures Written(existing, existing.fqdns) == existing
  {
  }

  /** The data factory service's managed private endpoints. */
  class EndpointService {
    var endpoints: map<EndpointAddress, Endpoint>
    const refusedWrites: set<EndpointAddress>

    constructor(endpoints: map<EndpointAddress, Endpoint>, refusedWrites: set<EndpointAddress>)
      ensures this.endpoints == endpoints && this.refusedWrites == refusedWrites
    {
      this.endpoints := endpoints;
      this.refusedWrites := refusedWrites;
    }
  }

  /** `ADFManagedPrivateEndpoint`: the endpoints of one factory. */
  class ADFManagedPrivateEndpoint {
    const service: EndpointService
    const factory: BuildConfig.AdfRef

    constructor(service: EndpointService, factory: BuildConfig.AdfRef)
      ensures this.service == service && this.factory == factory
    {
      this.service := service;
      this.factory := factory;
    }

    function Address(name: string, vnet: string): EndpointAddress {
      EndpointAddress(factory, vnet, name)
    }

    /** `get_managed_private_endpoint`: an endpoint the service does not
        have raises. */
    method GetManagedPrivateEndpoint(name: string, vnet: string := DefaultVnet) returns (r: Result<Endpoint>)
      ensures r.Ok? <==> Address(name, vnet) in service.endpoints
      ensures r.Ok? ==> r.value == service.endpoints[Address(name, vnet)]
      ensures r.Err? ==> r.error == ServiceError
    {
      var addr := Address(name, vnet);
      if addr !in service.endpoints {
        return Err(ServiceError);
      }
      r := Ok(service.endpoints[addr]);
    }

    /** `update_managed_private_endpoint_fqdn`: the existing endpoint is read
        first (a missing one raises and nothing is written), its link
        properties are taken by their snake-case names, and the endpoint is
        written back with exactly the given FQDN list. */
    method UpdateManagedPrivateEndpointFqdn(name: string, fqdns: seq<string>, vnet: string := DefaultVnet)
      returns (r: Result<Endpoint>)
      modifies service
      ensures var addr := Address(name, vnet);
        r.Ok? <==> addr in old(service.endpoints) && addr !in service.refusedWrites
      ensures r.Err? ==> r.error == ServiceError && service.endpoints == old(service.endpoints)
      ensures r.Ok? ==>
        var addr := Address(name, vnet);
        && r.value == Written(old(service.endpoints)[addr], fqdns)
        && service.endpoints == old(service.endpoints)[addr := r.value]
    {
      var existing :- GetManagedPrivateEndpoint(name, vnet);
      var props := AsDict(existing);
      var groupId := Property(props, "group_id");
      var linkId := Property(props, "private_link_resource_id");
      var addr := Address(name, vnet);
      if addr in service.refusedWrites {
        return Err(ServiceError);
      }
      var endpoint := Endpoint(fqdns, groupId.value, linkId.value);
      service.endpoints := service.endpoints[addr := endpoint];
      r := Ok(endpoint);
    }

    /** The copy of the update in the helper module, which takes the link
        properties by their camel-case names. `as_dict()` has no such keys,
        so every update of an existing endpoint raises KeyError before the
        write, and nothing is ever written. */
    method UpdateManagedPrivateEndpointFqdnAsWritten(name: string, fqdns: seq<string>, vnet: string := DefaultVnet)
      returns (r: Result<Endpoint>)
      ensures r.Err?
      ensures Address(name, vnet) in service.endpoints ==> r.error == KeyError
    {
      var existing :- GetManagedPrivateEndpoint(name, vnet);
      var props := AsDict(existing);
      var groupId := Property(props, "groupId");
      if groupId.Err? {
        return Err(groupId.error);
      }
      // the link id read and the write that follow are never reached
      assert false;
    }
  }

  /** The endpoints after an update issued outside a dry run, or the error
      it raises. */
  function AfterUpdate(endpoints: map<EndpointAddress, Endpoint>, addr: EndpointAddress, fqdns: seq<string>,
                       refused: set<EndpointAddress>): (r: Result<map<EndpointAddress, Endpoint>>)
    ensures r.Ok? <==> addr in endpoints && addr !in refused
    ensures r.Ok? ==> r.value.Keys == endpoints.Keys && r.value[addr].fqdns == fqdns
    ensures r.Ok? ==> forall a :: a in endpoints && a != addr ==> r.value[a] == endpoints[a]
  {
    if addr in endpoints && addr !in refused then Ok(endpoints[addr := Written(endpoints[addr], fqdns)])
    else Err(ServiceError)
  }
}
