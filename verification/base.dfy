/** The common base of every resource client: the resource type picks the
    management client to build, and every client of one run can share one
    token cache. */
module ResourceBase {
  import opened Common
  import opened Auth

  /** The client a resource object holds. Key vaults and storage accounts
      are reached through a data-plane URL built from the resource name. */
  datatype Client =
    | DataFactoryClient
    | BatchClient
    | SecretClient(vaultUrl: string)
    | LockClient
    | BlobServiceClient(accountUrl: string)

  /** The accepted resource types, after lower-casing. */
  const ResourceTypes: set<string> := {"adf", "batch", "keyvault", "locks", "storage"}

  function VaultUrl(name: string): string { "https://" + name + ".vault.azure.net" }
  function BlobUrl(name: string): string { "https://" + name + ".blob.core.windows.net" }

  /** The client chosen for a resource type; any other type is a ValueError. */
  function Dispatch(resourceType: string, name: string): (r: Result<Client>)
    ensures r.Ok? <==> Lower(resourceType) in ResourceTypes
    ensures r.Err? ==> r.error == ValueError
    ensures Lower(resourceType) == "keyvault" ==> r == Ok(SecretClient(VaultUrl(name)))
    ensures Lower(resourceType) == "storage" ==> r == Ok(BlobServiceClient(BlobUrl(name)))
  {
    var t := Lower(resourceType);
    if t == "adf" then Ok(DataFactoryClient)
    else if t == "batch" then Ok(BatchClient)
    else if t == "keyvault" then Ok(SecretClient(VaultUrl(name)))
    else if t == "locks" then Ok(LockClient)
    else if t == "storage" then Ok(BlobServiceClient(BlobUrl(name)))
    else Err(ValueError)
  }

  /** The older helper-module base accepts only factories, batch accounts
      and key vaults (its key-vault branch builds further vault clients on
      the same URL). */
  function LegacyDispatch(resourceType: string, name: string): (r: Result<Client>)
    ensures r.Ok? <==> Lower(resourceType) in {"adf", "batch", "keyvault"}
  {
    var t := Lower(resourceType);
    if t == "adf" then Ok(DataFactoryClient)
    else if t == "batch" then Ok(BatchClient)
    else if t == "keyvault" then Ok(SecretClient(VaultUrl(name)))
    else Err(ValueError)
  }

  /** A call of the older base's `__init__`: `resource_type` is a required
      argument without a default, so a call that leaves it out raises
      TypeError while its arguments are bound, before the body runs; a call
      with a type builds the client LegacyDispatch picks. */
  function LegacyInit(resourceType: Option<string>, name: string): (r: Result<Client>)
    ensures resourceType.None? ==> r == Err(TypeError)
    ensures resourceType.Some? ==> (r.Ok? <==> Lower(resourceType.value) in {"adf", "batch", "keyvault"})
    ensures r.Err? ==> r.error == if resourceType.None? then TypeError else ValueError
  {
    match resourceType
    case None => Err(TypeError)
    case Some(t) => LegacyDispatch(t, name)
  }

  /** Whatever the older base accepts, the newer one accepts with the same
      client; only the newer one knows locks and storage. */
  lemma LegacyIsNarrower(resourceType: string, name: string)
    ensures LegacyDispatch(resourceType, name).Ok? ==> Dispatch(resourceType, name) == LegacyDispatch(resourceType, name)
    ensures Lower(resourceType) in {"locks", "storage"} ==>
      LegacyDispatch(resourceType, name).Err? && Dispatch(resourceType, name).Ok?
  {
  }

  /** Lower-casing makes the type test case-insensitive. */
  lemma DispatchIgnoresCase(resourceType: string, name: string)
    ensures Dispatch(Lower(resourceType), name) == Dispatch(resourceType, name)
  {
    LowerIdempotent(resourceType);
  }

  lemma LowerIdempotent(s: string)
    ensures Lower(Lower(s)) == Lower(s)
  {
    assert forall i :: 0 <= i < |s| ==> LowerChar(LowerChar(s[i])) == LowerChar(s[i]);
  }

  class AzureResourceBase {
    const resourceGroupName: string
    const resourceName: string
    const resourceType: string
    const subscriptionId: string
    const auth: AzureAuthentication
    const client: Client

    constructor(resourceGroupName: string, resourceName: string, resourceType: string,
                subscriptionId: string, auth: AzureAuthentication, client: Client)
      ensures this.resourceGroupName == resourceGroupName && this.resourceName == resourceName
      ensures this.resourceType == resourceType && this.subscriptionId == subscriptionId
      ensures this.auth == auth && this.client == client
    {
      this.resourceGroupName := resourceGroupName;
      this.resourceName := resourceName;
      this.resourceType := resourceType;
      this.subscriptionId := subscriptionId;
      this.auth := auth;
      this.client := client;
    }

    /** `_get_token`: the shared cache answers. */
    method GetToken(now: int, response: TokenResponse) returns (t: string)
      modifies auth
      ensures (auth.Cache(), t) == Step(old(auth.Cache()), now, response)
      ensures auth.credentialCalls
        == old(auth.credentialCalls) + (if NeedsRefresh(old(auth.token), old(auth.tokenExpiry), now) then 1 else 0)
    {
      t := auth.GetToken(now, response);
    }
  }

  /** `AzureResourceBase.__init__`: the type is lower-cased, a supplied
      token cache is shared and otherwise a new one is made (with the
      configured sign-in method), a missing subscription id is the CLI's
      current one, and an unknown type raises ValueError. */
  method NewResource(
    resourceGroupName: string, resourceName: string, resourceType: string,
    subscriptionId: Option<string>, auth: Option<AzureAuthentication>,
    configuredMethod: string, currentSubscription: string)
    returns (r: Result<AzureResourceBase>)
    ensures r.Ok? <==> Dispatch(resourceType, resourceName).Ok?
    ensures r.Err? ==> r.error == ValueError
    ensures r.Ok? ==>
      && fresh(r.value)
      && r.value.resourceType == Lower(resourceType)
      && r.value.client == Dispatch(resourceType, resourceName).value
      && r.value.subscriptionId == subscriptionId.GetOr(currentSubscription)
      && (auth.Some? ==> r.value.auth == auth.value)
      && (auth.None? ==> fresh(r.value.auth))
  {
    var a: AzureAuthentication;
    if auth.Some? {
      a := auth.value;
    } else {
      a := new AzureAuthentication(configuredMethod);
    }
    var client := Dispatch(resourceType, resourceName);
    if client.Err? {
      return Err(ValueError);
    }
    var b := new AzureResourceBase(resourceGroupName, resourceName, Lower(resourceType),
                                   subscriptionId.GetOr(currentSubscription), a, client.value);
    r := Ok(b);
  }
}
