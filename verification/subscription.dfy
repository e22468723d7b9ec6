/** Subscription-level lookups of the subscription and resource manager:
    finding a subscription id by display name, listing the resources of the
    subscription with an optional, validated type filter, and switching the
    Azure CLI's active subscription. The subscription list, the resource
    list and the CLI's return code are inputs of the model. */
module Subscription {
  import opened Common

  /** A subscription as the subscription client lists it. */
  datatype SubscriptionInfo = SubscriptionInfo(subscriptionId: string, displayName: string)

  /** A resource as `as_dict()` reports it; only its type matters here. */
  datatype Resource = Resource(id: string, resourceType: string)

  /** The first subscription, in listing order, whose display name equals
      the target exactly (case included). */
  function FirstNamed(subs: seq<SubscriptionInfo>, target: string): (r: Option<nat>)
    ensures r.None? <==> forall i :: 0 <= i < |subs| ==> subs[i].displayName != target
    ensures r.Some? ==> r.value < |subs| && subs[r.value].displayName == target
    ensures r.Some? ==> forall i :: 0 <= i < r.value ==> subs[i].displayName != target
  {
    if subs == [] then None
    else if subs[0].displayName == target then Some(0)
    else match FirstNamed(subs[1..], target)
      case None => None
      case Some(k) => Some(k + 1)
  }

  /** `get_sub_id_by_name`: the id of the first subscription called exactly
      `target`; when there is none, RuntimeError. */
  function GetSubIdByName(subs: seq<SubscriptionInfo>, target: string): (r: Result<string>)
    ensures r.Err? <==> forall i :: 0 <= i < |subs| ==> subs[i].displayName != target
    ensures r.Err? ==> r.error == RuntimeError
    ensures r.Ok? ==> exists i :: (&& 0 <= i < |subs|
                                   && subs[i].displayName == target
                                   && subs[i].subscriptionId == r.value
                                   && forall j :: 0 <= j < i ==> subs[j].displayName != target)
  {
    match FirstNamed(subs, target)
    case None => Err(RuntimeError)
    case Some(k) => Ok(subs[k].subscriptionId)
  }

  /** The lookup is decided by the first match: subscriptions listed after it,
      even ones with the same display name, do not change the answer. */
  lemma {:induction false} LaterSubscriptionsIgnored(subs: seq<SubscriptionInfo>, more: seq<SubscriptionInfo>, target: string)
    requires GetSubIdByName(subs, target).Ok?
    ensures GetSubIdByName(subs + more, target) == GetSubIdByName(subs, target)
  {
    if subs[0].displayName != target {
      assert (subs + more)[1..] == subs[1..] + more;
      LaterSubscriptionsIgnored(subs[1..], more, target);
    }
  }

  /** The resource types the listing accepts as a filter. */
  const AllowedResourceTypes: set<string> :=
    {"Microsoft.KeyVault/vaults", "Microsoft.DataFactory/factories", "Microsoft.Batch/batchAccounts"}

  /** The type argument as Python tests it: None and the empty string are
      both false, so neither filters. */
  predicate Given(resourceType: Option<string>) {
    resourceType.Some? && resourceType.value != ""
  }

  /** The validation and filter of `list_resource_in_sub`: a given type
      outside the allowed set raises ValueError; an allowed type gives the
      OData filter on it; no type gives no filter. */
  function ResourceFilter(resourceType: Option<string>): (r: Result<Option<string>>)
    ensures r.Err? <==> Given(resourceType) && resourceType.value !in AllowedResourceTypes
    ensures r.Err? ==> r.error == ValueError
    ensures r == Ok(None) <==> !Given(resourceType)
    ensures r.Ok? && r.value.Some? ==>
      resourceType.value in AllowedResourceTypes
      && r.value.value == "resourceType eq '" + resourceType.value + "'"
  {
    if !Given(resourceType) then Ok(None)
    else if resourceType.value !in AllowedResourceTypes then Err(ValueError)
    else Ok(Some("resourceType eq '" + resourceType.value + "'"))
  }

  /** The service's test for the filter `resourceType eq '<t>'`. */
  function OfType(t: string): Resource -> bool {
    (x: Resource) => x.resourceType == t
  }

  /** What the service returns for a listing: with the type filter, the
      resources of that type, in order; without one, all of them. */
  function Listed(resources: seq<Resource>, resourceType: Option<string>): (r: Result<seq<Resource>>)
  {
    var filter :- ResourceFilter(resourceType);
    if filter.Some? then Ok(Filter(resources, OfType(resourceType.value)))
    else Ok(resources)
  }

  /** `list_resource_in_sub`: an invalid type raises before anything is
      listed; a valid one lists exactly the resources of that type; no type
      lists everything, and listing what it returned again gives it back. */
  lemma ListedCases(resources: seq<Resource>, resourceType: Option<string>)
    ensures Listed(resources, resourceType).Err? <==> Given(resourceType) && resourceType.value !in AllowedResourceTypes
    ensures !Given(resourceType) ==> Listed(resources, resourceType) == Ok(resources)
    ensures Listed(resources, resourceType).Ok? && Given(resourceType) ==>
      forall x :: x in Listed(resources, resourceType).value <==> x in resources && x.resourceType == resourceType.value
    ensures Listed(resources, resourceType).Ok? ==>
      Listed(Listed(resources, resourceType).value, resourceType) == Listed(resources, resourceType)
  {
    if Given(resourceType) {
      FilterMembers(resources, OfType(resourceType.value));
      FilteredListingStable(resources, resourceType.value);
    }
  }

  /** Listing what a filtered listing returned, with the same filter, gives
      it back unchanged. */
  lemma {:induction false} FilteredListingStable(resources: seq<Resource>, t: string)
    ensures Filter(Filter(resources, OfType(t)), OfType(t)) == Filter(resources, OfType(t))
  {
    if resources != [] {
      FilteredListingStable(resources[1..], t);
      var rest := Filter(resources[1..], OfType(t));
      if OfType(t)(resources[0]) {
        assert Filter(resources, OfType(t)) == [resources[0]] + rest;
        assert ([resources[0]] + rest)[1..] == rest;
      } else {
        assert Filter(resources, OfType(t)) == [] + rest == rest;
      }
    }
  }

  /** The CLI command `switch_subscription` runs. */
  function SwitchCommand(subscriptionNameOrId: string): string {
    "az account set --subscription \"" + subscriptionNameOrId + "\""
  }

  /** A finished CLI process: return code and captured output. */
  datatype CompletedProcess = CompletedProcess(args: string, returncode: int, stdout: string, stderr: string)

  /** `switch_subscription`, given the outcome of running the command: a
      non-zero return code raises RuntimeError; otherwise the completed
      process of that command is returned. */
  function SwitchSubscription(subscriptionNameOrId: string, returncode: int, stdout: string, stderr: string)
    : (r: Result<CompletedProcess>)
    ensures r.Err? <==> returncode != 0
    ensures r.Err? ==> r.error == RuntimeError
    ensures r.Ok? ==> r.value.returncode == 0 && r.value.args == SwitchCommand(subscriptionNameOrId)
                      && r.value.stdout == stdout && r.value.stderr == stderr
  {
    if returncode != 0 then Err(RuntimeError)
    else Ok(CompletedProcess(SwitchCommand(subscriptionNameOrId), returncode, stdout, stderr))
  }
}
