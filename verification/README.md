# A Dafny model of the Azure DR automation scripts

This project models the decision logic of a set of disaster-recovery scripts. The scripts fail an
Azure data platform over from its primary region to a DR region and back again. The cloud control
plane is represented by in-memory stores, each a Dafny class:

- data factory triggers;
- resource locks;
- Batch pools;
- Key Vault secrets;
- storage containers and blobs;
- linked services;
- managed private endpoints;
- integration runtimes;
- pipeline runs.

Each store also holds a set of the calls the service refuses. A refusal stands for the exceptions
an SDK call can raise, so every per-item error-continue loop has a deterministic outcome.

Each part of the system is modelled in its own form:

- The helper classes (`azure_tools/*`, `AzHelper.py`) are classes. Their methods update the stores
  and state the new state in their contracts.
- The driver scripts are methods over those classes.
- The pure parts are functions with lemmas about them. These are the Snowflake FQDN rewrite, the
  configuration generator `build.py` and the argument and section normalisation of the drivers.

Main properties proved:

- The FQDN rewrite replaces the `://`-preceded, `.`-followed occurrences of the old account name.
  It leaves the text unchanged exactly when there is no such occurrence or the new name equals the
  old one, and each replacement changes the length by the difference of the two names.
- The generated configuration brings the DR side up and the primary side down in failover. Failback
  swaps the two sides, and the key-vault and storage sync always copy toward DR.
- Trigger start/stop, pool scaling, container creation, secret sync and the private-endpoint move
  are idempotent.
- Against a lock store that refuses nothing, the trigger driver's lock guard leaves the locks as
  they were before the run. The one path where they are lost is listed under "## Findings".
- The token cache fetches a new token exactly when the cached one is missing or expired.
- Every driver loop records one result per item, and its successful and failed counts add up to the
  total.

Where the code and its documentation disagree, the model follows the code. For example, the
package's `update_linked_service_sf_account` overwrites a SnowflakeV2 identifier wholesale. Each
such disagreement is listed under "## Findings".

## Model

| member | source | states |
|---|---|---|
| Common.SectionAsList | DR_sync_kv.py:21-24 | a missing section is a KeyError; a single mapping becomes a one-element list; a list is taken as it is |
| Common.DryRunArgument | DR_scale_batch.py:80-90 | an option other than "True" or "False" is rejected; the run changes nothing unless the option is exactly "False", and it is "True" when left out |
| Common.FilterMembers | azure_tools/subscription_resource.py:175-179 | a selection keeps exactly the elements that pass the test |
| Common.Lower | azure_tools/base.py:33 | lower-casing keeps the length and maps each ASCII capital to its small letter, position by position |
| Common.Summarize | DR_Automation/DR_sync_storage.py:132-145 | every entry of the results goes to exactly one of the two lists: to the successful list exactly when its status is success; neither list repeats a name; the two lengths add up to the number of entries |
| Auth.Step | azure_tools/auth.py:96-114 | with no token, no expiry or an expiry that has been reached, the credential's token is taken and kept with an expiry five minutes before the credential's; otherwise the cached token is returned and the cache is unchanged |
| Auth.CachedUntilMargin | azure_tools/auth.py:96-114 | after a fetch, every call before the early expiry is served from the cache whatever the credential would answer; the first call at or after it fetches again |
| Auth.StepIdempotent | azure_tools/auth.py:96-114 | two calls at the same moment fetch at most once |
| Auth.FirstCallFetches | azure_tools/auth.py:27-29 | a new cache always fetches on its first call |
| Auth.AzureAuthentication.constructor | azure_tools/auth.py:15-72 | the cache starts empty; device-code and interactive sign-in probe the subscription list once and the default credential does not; the object ends authenticated |
| Auth.AzureAuthentication.GetToken | azure_tools/auth.py:91-114 | the cache and the returned token follow Step, and the credential is called exactly when a refresh is needed |
| ResourceBase.Dispatch | azure_tools/base.py:33-73 | the lower-cased type picks the client; the five known types are accepted and any other raises ValueError; key vault and storage clients are built on the URLs of the resource name |
| ResourceBase.LegacyDispatch | AzHelper.py:46-81 | the older base accepts exactly factories, batch accounts and key vaults, case-insensitively |
| ResourceBase.LegacyInit | AzHelper.py:28-34 | a call of the older base's constructor that leaves out `resource_type` raises TypeError before anything else happens; with a type it succeeds exactly for factories, batch accounts and key vaults, and otherwise raises ValueError |
| ResourceBase.LegacyIsNarrower | AzHelper.py:53-81 | whatever the older base accepts, the newer one accepts with the same client; locks and storage are accepted only by the newer one |
| ResourceBase.DispatchIgnoresCase | azure_tools/base.py:33 | the type test does not depend on letter case |
| ResourceBase.AzureResourceBase.constructor | azure_tools/base.py:31-42 | the resource keeps the names, type, subscription, shared cache and client it is given |
| ResourceBase.AzureResourceBase.GetToken | azure_tools/base.py:77-82 | the token comes from the shared cache, with the cache's refresh rule and credential count |
| ResourceBase.NewResource | azure_tools/base.py:13-73 | an unknown type raises ValueError; otherwise the type is stored lower-cased, the client matches the type, a missing subscription id is the CLI's current one, and a supplied cache is shared while a missing one is created |
| Fqdn.RewriteFromLength | AzHelper.py:228-232 | every replacement changes the length of the text by the difference of the two names, and nothing else changes it |
| Fqdn.NoMatchesFrom | AzHelper.py:228-232 | the substitution makes no replacement exactly when no position has the old name between "://" and "." |
| Fqdn.UnchangedWithoutMatch | AzHelper.py:228-236 | with no guarded occurrence of the old name the text comes back unchanged |
| Fqdn.UnchangedWhenSameName | AzHelper.py:228-236 | replacing a name by itself leaves the text unchanged |
| Fqdn.ChangedBySameLengthName | AzHelper.py:228-236 | a different new name of the same length always changes a text that has a guarded occurrence |
| Fqdn.RewriteUnchangedIff | AzHelper.py:228-236 | the abort test fires exactly when the old name occurs nowhere between "://" and ".", or the new name equals the old one |
| Fqdn.NotAfterScheme | AzHelper.py:229 | a position not preceded by "://" is never replaced |
| Fqdn.RewriteExample | AzHelper.py:228-232 | in "sf://ab.east" the account "ab" is replaced by "cd" to give "sf://cd.east" |
| Fqdn.RewriteGuards | AzHelper.py:229 | the old name without the scheme before it, or without the dot after it, is left alone |
| Subscription.FirstNamed | azure_tools/subscription_resource.py:88-92 | finds the first subscription whose display name equals the target exactly, and finds none exactly when no name matches |
| Subscription.GetSubIdByName | azure_tools/subscription_resource.py:78-97 | RuntimeError exactly when no display name matches; otherwise the id of the first match |
| Subscription.LaterSubscriptionsIgnored | azure_tools/subscription_resource.py:88-92 | subscriptions listed after the first match, even ones with the same name, do not change the answer |
| Subscription.ResourceFilter | azure_tools/subscription_resource.py:161-176 | a given type outside the three allowed ones raises ValueError; an allowed type gives the OData filter on that type; a missing or empty type gives no filter |
| Subscription.ListedCases | azure_tools/subscription_resource.py:161-179 | a disallowed type fails before listing; no type lists everything; an allowed type lists exactly the resources of that type; listing what a listing returned again, with the same type, gives it back |
| Subscription.SwitchSubscription | azure_tools/subscription_resource.py:57-76 | a non-zero return code of the CLI raises RuntimeError; otherwise the completed `az account set` process is returned with its output |
| ConnectivityTest.EntryFor | DR_Automation/DR_run_connectivity_test.py:62-94 | the entry is a success exactly when the run-and-fetch succeeded; it keeps the activity result or the error, and the runner's run id |
| ConnectivityTest.EntryForAsWritten | DR_Automation/DR_run_connectivity_test.py:62-94 | as the script is written, a success survives only when the activity result is a JSON object |
| ConnectivityTest.PassingTestRecordedAsFailed | DR_Automation/DR_run_connectivity_test.py:82 | a passing test whose activity result is a JSON array is recorded as failed with AttributeError |
| ConnectivityTest.TestFactory | DR_Automation/DR_run_connectivity_test.py:56-94 | a factory's entry is a success exactly when the test pipeline exists, finishes and yields the activity's result; a missing pipeline is a failure without a run id; otherwise the entry records the run-and-fetch outcome of a run that was started |
| ConnectivityTest.TestFactoryAsWritten | DR_Automation/DR_run_connectivity_test.py:56-94 | as written, a factory's entry is a success exactly when the test passes and its activity result is a JSON object |
| ConnectivityTest.CollectSnoc | DR_Automation/DR_run_connectivity_test.py:73 | storing one more entry updates the results under its key |
| ConnectivityTest.CollectLast | DR_Automation/DR_run_connectivity_test.py:49-94 | the results hold one key per factory, and each key holds the entry of the last factory stored under it |
| ConnectivityTest.Keys | DR_Automation/DR_run_connectivity_test.py:73 | each factory's key is its resource group and factory name joined by "/" |
| ConnectivityTest.TestAll | DR_Automation/DR_run_connectivity_test.py:49-94 | with the corrected entry of a test (EntryFor): every factory is tested, in order; entry i is a success exactly when the test passes in factory i; the results are the entries stored under their keys |
| ConnectivityTest.RunConnectivityTests | DR_Automation/DR_run_connectivity_test.py:30-117 | with the corrected entry of a test (EntryFor): a missing FQDN section is a KeyError; otherwise every factory is tested, the results are stored by key, and the key lists hold exactly the successful and the failed keys |
| Batch.RescaledSettings | AzHelper.py:549-554 | with the settings stored under the key the code means: after rescaling, the pool reads as having the target count; its name, VM size and other settings are kept; any autoscale formula and the other fixed-scale settings are dropped; a second rescale overrides the first |
| Batch.PoolsAfterScale | AzHelper.py:523-575 | with the count read correctly: a negative target raises ValueError before anything is read; a missing pool and a refused update raise; otherwise only the named pool changes, it ends at the target, and a pool already at the target is left as it is |
| Batch.ScaleIdempotent | AzHelper.py:545-547 | with the count read correctly, scaling a second time to the same target changes nothing |
| Batch.BatchService.constructor | AzHelper.py:505-521 | the service holds the given pools and refused updates |
| Batch.AzureBatchPool.constructor | AzHelper.py:497-503 | the client addresses the given pool of the given service |
| Batch.AzureBatchPool.GetPoolConfig | AzHelper.py:505-521 | returns the stored configuration; a pool the service does not have raises |
| Batch.AzureBatchPool.ScalePoolNodes | AzHelper.py:523-575 | with the count read correctly: the same error cases as PoolsAfterScale; a success returns a configuration at the target; a dry run or a failure changes nothing; a real run leaves the service as PoolsAfterScale says |
| Batch.UpTarget | DR_scale_batch.py:68 | for the count read correctly, the partner pool gets the count the other pool had, or one node when it had none, so it never gets zero nodes |
| Batch.SwapMovesCapacity | DR_scale_batch.py:56-70 | with the count read correctly and two distinct pools that exist and accept updates, the pool being left ends with no nodes, its partner gets that pool's old count (or one node), and every other pool is unchanged |
| Batch.FailedScaleUpKeepsScaleDown | DR_scale_batch.py:63-74 | with the count read correctly, a failed scale-up does not undo the scale-down before it: the pool being left still ends with no nodes |
| Batch.SecondRunLeavesOneNode | DR_scale_batch.py:56-70 | with the count read correctly, running the same configuration twice leaves the partner pool with a single node rather than the original count |
| Batch.SwapFrame | DR_scale_batch.py:41-74 | one configuration creates and removes no pool and touches only the two pools it names |
| Batch.SwapAllFrame | DR_scale_batch.py:41-74 | the whole run creates and removes no pool and leaves every pool that no configuration names as it was |
| Batch.ScalePair | DR_scale_batch.py:42-74 | with the count read correctly: a dry run changes nothing and completes exactly when both pools exist and the scale-up target is not negative; otherwise the pools end as Swap says, and the handling completes exactly when every step goes through |
| Batch.ScaleBatchPools | DR_scale_batch.py:30-74 | with the count read correctly: a missing section is a KeyError; otherwise there is one outcome per configuration; a dry run changes nothing; otherwise the pools end as SwapAll says |
| Batch.Run | DR_scale_batch.py:76-91 | with the count read correctly: a `--dry-run` value other than "True" or "False" is refused with ValueError before anything happens; otherwise the run fails with KeyError exactly when the section is missing, and there is one flag per configuration; the pools change only with "False", and then exactly as SwapAll describes |
| Batch.ReadsZero | AzHelper.py:540 | the code's read of an `as_dict()` pool document finds no `scaleSettings` key and gives 0 for every pool, which differs from the pool's real count whenever that count is not 0 |
| Batch.PoolsAfterScaleAsWritten | AzHelper.py:523-575 | as written, a negative target raises ValueError and a missing pool raises; a target of 0 always returns before any update, so it never changes or scales down a pool and is never refused; any other target is refused or, when the service applies the added key, sets the pool to the target; only the named pool can change |
| Batch.AzureBatchPool.ScalePoolNodesAsWritten | AzHelper.py:523-575 | the error cases of PoolsAfterScaleAsWritten; a target of 0 returns the pool's `as_dict()` document untouched; a dry run with another target returns the document with the `scaleSettings` key added; a dry run or a failure changes nothing; a real run leaves the service as PoolsAfterScaleAsWritten says |
| Batch.LeftPoolNeverScaledDown | DR_scale_batch.py:56-70 | as written, one configuration never changes the pool being left; only the partner can change, and it is rescaled to exactly one node when it exists, accepts updates and the service applies the added key; otherwise nothing changes |
| Batch.SwapAsWrittenDiffers | DR_scale_batch.py:56-70 | for a pool with nodes and a partner that both accept updates, the intended swap empties the pool and gives its count to the partner, while as written the pool keeps its count and the partner gets one node (or keeps its own count) |
| Batch.LeftPoolsNeverScaledDown | DR_scale_batch.py:41-74 | as written, the whole run creates and removes no pool and leaves every pool that is no configuration's partner as it was; when the service applies the original settings, nothing changes at all |
| Batch.ScalePairAsWritten | DR_scale_batch.py:42-74 | as written, a dry run changes nothing; otherwise the pools end as SwapAsWritten says; the handling completes exactly when both pools exist and, outside a dry run, the partner accepts its update |
| Batch.ScaleBatchPoolsAsWritten | DR_scale_batch.py:30-74 | as written, a missing section is a KeyError; otherwise there is one outcome per configuration; a dry run changes nothing; otherwise the pools end as SwapAllAsWritten says |
| Batch.RunAsWritten | DR_scale_batch.py:76-91 | as written, a bad `--dry-run` value is refused with ValueError; a missing section is a KeyError; there is one flag per configuration; the pools change only with "False", and then as SwapAllAsWritten says |
| IntegrationRuntime.RuntimeType | azure_tools/adf/integration_runtime.py:76-94 | the runtime's type is returned; a report without a type raises ValueError |
| IntegrationRuntime.Guard | azure_tools/adf/integration_runtime.py:101-114 | a report without a type fails; a runtime that is not "Managed" and one already enabled get no request; a request is due exactly for a managed runtime without interactive authoring |
| IntegrationRuntime.RuntimeService.constructor | azure_tools/adf/integration_runtime.py:32-54 | the service starts with the given runtimes, nothing activating and no request |
| IntegrationRuntime.RuntimeService.RequestEnable | azure_tools/adf/integration_runtime.py:116-128 | a missing or refusing runtime raises and nothing changes; an accepted request is recorded and the runtime starts activating; no runtime's type changes, no other runtime changes, and no enabled runtime is disabled |
| IntegrationRuntime.RuntimeService.Wait | azure_tools/adf/integration_runtime.py:131-133 | a wait moves every pending activation on by one, and a runtime whose last wait has passed reports interactive authoring enabled; runtimes not activating, types and requests are unchanged |
| IntegrationRuntime.ADFIntegrationRuntime.constructor | azure_tools/adf/integration_runtime.py:18-30 | the client addresses the given factory of the given service |
| IntegrationRuntime.ADFIntegrationRuntime.GetIr | azure_tools/adf/integration_runtime.py:32-54 | returns the status report of the runtime; a runtime the service does not have raises |
| IntegrationRuntime.ADFIntegrationRuntime.GetIrStatus | azure_tools/adf/integration_runtime.py:56-74 | true exactly when the report's interactive status is "Enabled"; a missing runtime raises |
| IntegrationRuntime.ADFIntegrationRuntime.GetIrType | azure_tools/adf/integration_runtime.py:76-94 | a missing runtime raises; otherwise the result is RuntimeType of its report |
| IntegrationRuntime.ADFIntegrationRuntime.EnableInteractiveAuthoring | azure_tools/adf/integration_runtime.py:96-134 | a missing runtime raises; the guards decide on the report read first; when they stop the call, no request is sent and nothing changes; otherwise exactly one request with the given minutes is sent and, unless it is refused, the call returns only once the runtime reports interactive authoring enabled |
| ManagedEndpoints.AsDict | azure_tools/adf/managed_pe.py:44 | the endpoint's link properties are reported under their snake-case names, and only those |
| ManagedEndpoints.Property | azure_tools/adf/managed_pe.py:69-72 | looking up a property that is present gives its value; a missing key raises KeyError |
| ManagedEndpoints.WrittenKeepsLink | azure_tools/adf/managed_pe.py:61-75 | the endpoint written holds exactly the given FQDN list and the group id and private link resource of the endpoint it replaces; writing the list it already has gives it back unchanged |
| ManagedEndpoints.EndpointService.constructor | azure_tools/adf/managed_pe.py:38-43 | the service holds the given endpoints and refused writes |
| ManagedEndpoints.ADFManagedPrivateEndpoint.constructor | azure_tools/adf/managed_pe.py:23-29 | the client addresses the given factory of the given service |
| ManagedEndpoints.ADFManagedPrivateEndpoint.GetManagedPrivateEndpoint | azure_tools/adf/managed_pe.py:31-47 | returns the stored endpoint; one the service does not have raises |
| ManagedEndpoints.ADFManagedPrivateEndpoint.UpdateManagedPrivateEndpointFqdn | azure_tools/adf/managed_pe.py:49-82 | a missing endpoint or a refused write raises and nothing changes; otherwise exactly that endpoint is replaced by one with the new FQDN list and the same link |
| ManagedEndpoints.ADFManagedPrivateEndpoint.UpdateManagedPrivateEndpointFqdnAsWritten | AzHelper.py:341-373 | as the helper module is written, the update always fails, with KeyError whenever the endpoint exists, and never writes |
| ManagedEndpoints.AfterUpdate | azure_tools/adf/managed_pe.py:49-82 | an update succeeds exactly when the endpoint exists and the write is accepted; the set of endpoints is unchanged, the updated one has the new list, and every other endpoint is unchanged |
| Pipelines.Subscript | azure_tools/adf/pipelines.py:175 | indexing an object by a key it has gives the value; a missing key raises KeyError; indexing anything but an object with a string raises TypeError |
| Pipelines.GetField | DR_Automation/DR_run_connectivity_test.py:82 | `get` with a default works only on an object, giving the field or the default; on anything else it raises AttributeError |
| Pipelines.FirstTerminal | azure_tools/adf/pipelines.py:163-171 | the polling loop stops at a terminal status, and no status before it is terminal |
| Pipelines.NotYetTerminal | azure_tools/adf/pipelines.py:163-171 | a read before the first terminal status is followed by a wait and another read, which reports the next status |
| Pipelines.FirstNamed | azure_tools/adf/pipelines.py:131-137 | finds the first activity run with the given name, and finds none exactly when no run has that name |
| Pipelines.ResultSetsOf | azure_tools/adf/pipelines.py:175 | the list of all activities and a missing activity cannot be indexed by a string (TypeError); a run without output raises KeyError; otherwise the output's "resultSets" is looked up |
| Pipelines.RunResultCases | azure_tools/adf/pipelines.py:143-181 | a run ending "Failed" or "Cancelled" raises; without an activity name even a successful run raises TypeError; with a name, a success returns the result sets of an activity of that name, and a missing activity raises TypeError |
| Pipelines.PipelineService.constructor | azure_tools/adf/pipelines.py:52-57 | the service starts with the given pipelines, no runs and a stopped clock |
| Pipelines.PipelineService.CreateRun | azure_tools/adf/pipelines.py:52-59 | a pipeline the service does not have raises and nothing changes; otherwise exactly one run is added, under a new non-empty id, starting now |
| Pipelines.PipelineService.Wait | azure_tools/adf/pipelines.py:171 | a wait advances the clock by one and changes no run |
| Pipelines.ADFPipeline.constructor | azure_tools/adf/pipelines.py:23-32 | a new runner has no run id |
| Pipelines.ADFPipeline.CreateRun | azure_tools/adf/pipelines.py:34-64 | missing parameters are sent as an empty mapping; on success the new run's id is remembered and the run is recorded; a failure keeps the old id and changes no run |
| Pipelines.ADFPipeline.CheckStatus | azure_tools/adf/pipelines.py:66-86 | with no run id or an empty one it raises ValueError; an unknown run raises; otherwise it reports the run's status after the waits since it started |
| Pipelines.ADFPipeline.FetchActivity | azure_tools/adf/pipelines.py:88-141 | with no run id it raises ValueError; with no name it returns every activity run; otherwise it returns the first run of that name, or nothing |
| Pipelines.ADFPipeline.AwaitTerminal | azure_tools/adf/pipelines.py:163-171 | polling stops at the first terminal status the pipeline reports, and changes no run |
| Pipelines.ADFPipeline.PollAgain | azure_tools/adf/pipelines.py:164-171 | one turn of the polling loop waits once and then reads the next status |
| Pipelines.ADFPipeline.RunAndFetch | azure_tools/adf/pipelines.py:143-181 | a missing pipeline raises without a run; otherwise a new run is recorded with the given parameters and the result is RunResult of the pipeline's behaviour |
| LinkedServices.UnfilteredListsAll | AzHelper.py:150-161 | with no filter, an empty type name or an empty list, the listing is the factory's listing as it is |
| LinkedServices.OneTypeAsList | AzHelper.py:150-159 | a non-empty type name filters exactly as the one-element list holding it; the empty name filters nothing; a one-element list keeps exactly the services of that type |
| LinkedServices.IndexOf | AzHelper.py:169-189 | finds the position of the service with the given name, the first one when several share it, and finds none exactly when no service has that name |
| LinkedServices.UniqueIndex | AzHelper.py:169-189 | with unique names, looking a service up by its own name finds its position |
| LinkedServices.Stored | AzHelper.py:261-266 | after `create_or_update` the names stay unique, the written service is present, and every service with another name is kept and no other is added |
| LinkedServices.ReplacedAt | AzHelper.py:261-266 | replacing the service of the same name where it stands keeps names unique and keeps every other service |
| LinkedServices.Retarget | AzHelper.py:222-252 | a document without its account field raises KeyError; the update writes exactly when the old name has a guarded occurrence and the new name differs; the written document changes only the account field, to the rewritten text |
| LinkedServices.RetargetAsWritten | azure_tools/adf/linked_services.py:115-153 | as the package copy is written: the first connector behaves as Retarget; for any other type the call gives up only when the whole identifier equals the new name, and otherwise writes the bare new name as the identifier |
| LinkedServices.AsWrittenWritesWithoutMatch | azure_tools/adf/linked_services.py:140-153 | where the old name does not occur, the package copy still overwrites a second-connector identifier with the new name, while the corrected update writes nothing |
| LinkedServices.AsWrittenDiscardsRewrite | azure_tools/adf/linked_services.py:140-153 | where the old name does occur, the package copy turns "sf://ab.east" into "cd" where the corrected update gives "sf://cd.east" |
| LinkedServices.SameNameNeverWrites | AzHelper.py:233-236 | an update whose new name equals the old one never writes |
| LinkedServices.Updated | AzHelper.py:206-273 | an update call keeps a service's name and type, and changes the service only outside a dry run, when the write is accepted, the account field is present, the old name has a guarded occurrence and the new name differs |
| LinkedServices.TestBody | AzHelper.py:280-288 | the request carries the service as read, with its parameters replaced only by a present, non-empty parameter mapping |
| LinkedServices.TestAsStored | AzHelper.py:284-285 | without parameters, or with an empty mapping, the service is tested exactly as stored |
| LinkedServices.FactoryServices.constructor | AzHelper.py:139-142 | the store holds the given services, with unique names, and the given refused writes |
| LinkedServices.FactoryServices.Get | AzHelper.py:169-189 | a name the factory does not have is an HTTP error; otherwise the service of that name is returned |
| LinkedServices.FactoryServices.Write | AzHelper.py:261-266 | a refused write raises and changes nothing; otherwise the store becomes Stored of the old store and the service |
| LinkedServices.ADFLinkedServices.constructor | AzHelper.py:131 | the client works on the given factory's services |
| LinkedServices.ADFLinkedServices.ListLinkedServices | AzHelper.py:133-167 | the listing keeps, in order, exactly the services the filter selects |
| LinkedServices.ADFLinkedServices.SelectNext | AzHelper.py:146-161 | one turn of the listing loop appends the service exactly when the filter keeps it |
| LinkedServices.ADFLinkedServices.Keeps | AzHelper.py:150-161 | the loop's test for one service agrees with the filter's selection: an empty filter keeps everything, a type name keeps its type, a list keeps the types it holds |
| LinkedServices.ADFLinkedServices.GetLinkedServiceDetails | AzHelper.py:169-189 | fails exactly when no service has the name; otherwise returns a stored service of that name |
| LinkedServices.ADFLinkedServices.Commit | AzHelper.py:233-269 | an error or a give-up is passed back and nothing is written; a dry run writes nothing; otherwise the document is written, and a refused write raises |
| LinkedServices.ADFLinkedServices.UpdateLinkedServiceSfAccount | AzHelper.py:206-273 | an unknown name raises; a missing account field raises KeyError; without a guarded occurrence, with the same name, or in a dry run nothing is written; otherwise exactly that service is replaced where it stands by its Retarget, and a refused write raises |
| LinkedServices.ADFLinkedServices.UpdateLinkedServiceSfAccountAsWritten | azure_tools/adf/linked_services.py:95-174 | as the package copy is written, the result is RetargetAsWritten of the stored service, written back unless it gave up or this is a dry run |
| LinkedServices.ADFLinkedServices.TestLinkedServiceConnection | AzHelper.py:275-288 | an unknown name raises; otherwise the request carries the stored service, with its parameters replaced only by a present, non-empty mapping |
| Locks.NamesOf | azure_tools/locks.py:73-77 | the names of the snapshot locks, one per lock, in order |
| Locks.WithoutTwice | azure_tools/locks.py:73-77 | deleting names in two rounds is the same as deleting them all at once, which is what deleting one lock at a time amounts to |
| Locks.UpsertNew | azure_tools/locks.py:98-103 | creating a lock whose name is not taken appends it |
| Locks.UpsertAllNew | azure_tools/locks.py:98-103 | creating locks with distinct names, none of them taken, appends them in order |
| Locks.WithoutAll | azure_tools/locks.py:73-77 | deleting every lock by name leaves the group with no locks |
| Locks.ReleaseRecreateRestores | azure_tools/locks.py:61-108 | releasing every lock and then recreating them all from the snapshot leaves the group with the same locks, in the same order, as before |
| Locks.Handled | azure_tools/locks.py:73-77 | the calls made before the first one the service refuses: none of those is refused, and the next one is |
| Locks.LockStore.constructor | azure_tools/locks.py:41-46 | the store holds the given locks and refused calls |
| Locks.LockStore.Delete | azure_tools/locks.py:74-76 | a refused delete changes nothing; otherwise exactly the lock of that name is removed |
| Locks.LockStore.Put | azure_tools/locks.py:99-103 | a refused create changes nothing; otherwise the lock is created or replaced by name |
| Locks.LockStore.PutEach | azure_tools/locks.py:98-104 | the locks are created in turn up to the first refused one, and the store ends as if exactly those had been created |
| Locks.AzureResourceLock.constructor | azure_tools/locks.py:29-31 | the snapshot is the group's locks when the manager is made, and nothing is released yet |
| Locks.AzureResourceLock.ReleaseLocks | azure_tools/locks.py:61-82 | the locks are deleted by name in snapshot order; the call succeeds exactly when no delete is refused, and otherwise the locks before the refused one stay deleted; the released flag is set only by a success with a non-empty snapshot |
| Locks.AzureResourceLock.RecreateLocks | azure_tools/locks.py:84-108 | with an empty snapshot or no release nothing happens; otherwise the snapshot locks are created again in order, with their level and notes, up to the first refused one |
| Locks.AzureResourceLock.CreateLock | azure_tools/locks.py:110-147 | a level other than "CanNotDelete" or "ReadOnly" raises ValueError before anything is read; an existing name is left alone; otherwise the lock is created unless refused; the snapshot is refreshed from the group |
| Storage.EntryOf | azure_tools/storage.py:67-74 | a blob's entry keeps its name, size and modification time, and has a content type only when the blob has content settings |
| Storage.BlobIndex | azure_tools/storage.py:141-148 | finds the position of a blob with the given name, and finds none only when no blob has that name |
| Storage.PutBlob | azure_tools/storage.py:154-156 | an upload keeps blob names unique, stores the uploaded blob, adds exactly its name, and keeps every blob with another name |
| Storage.PutAll | azure_tools/storage.py:191-203 | a sequence of uploads keeps blob names unique |
| Storage.PutAllNames | azure_tools/storage.py:191-203 | after the uploads the container holds its old names and the uploaded names, and no others |
| Storage.EveryUploadArrives | azure_tools/storage.py:191-203 | every uploaded blob, the names being distinct, stands in the container as uploaded |
| Storage.WithContainer | azure_tools/storage.py:80-99 | the container exists afterwards; an existing one is left as it is; a missing one is created empty with the given access level; no other container changes |
| Storage.CreateIdempotent | azure_tools/storage.py:88-96 | a second create changes nothing, whatever access level it asks for |
| Storage.StorageAccount.constructor | azure_tools/storage.py:115-116 | the account holds the given containers, with unique blob names, and the given refusals |
| Storage.StorageAccount.ListBlobs | azure_tools/storage.py:53-78 | a missing container raises; otherwise there is one entry per blob, in listing order, each EntryOf its blob |
| Storage.StorageAccount.CreateContainerIfNotExists | azure_tools/storage.py:80-99 | raises exactly when the container is missing and its creation is refused, and then changes nothing; otherwise the containers become WithContainer |
| Storage.StorageAccount.Upload | azure_tools/storage.py:154-156 | an upload goes through exactly when its name is not refused and either overwriting is on or the name is new, and it then stores the blob by PutBlob |
| Storage.AzureStorageCopy.constructor | azure_tools/storage.py:103-116 | the copier works between the given source and target accounts |
| Storage.AzureStorageCopy.CopyBlob | azure_tools/storage.py:118-164 | the target name defaults to the source name; the target container is made to exist first; the copy succeeds exactly when the source blob, as it was before the call, exists and the upload is accepted, and then the target holds that blob under the target name; a failed upload leaves the created container; the source and target may be one account |
| Storage.AzureStorageCopy.CopyContainer | azure_tools/storage.py:166-212 | the target container defaults to the source name; a missing source container or a refused creation raises; otherwise exactly the blobs of the source container as it was before the call whose upload is accepted are copied, in listing order, failed ones being skipped, and the count is the number copied; the source and target may be one account, even one container |
| Storage.AzureStorageCopy.CopyOne | azure_tools/storage.py:192-203 | one turn of the copy loop copies the blob exactly when its upload is accepted, and the count grows by one exactly then |
| Storage.CopyStep | azure_tools/storage.py:191-203 | the copies already made do not change whether the next blob's name is in the target, and one more blob adds at most one upload |
| Storage.NotYetCopied | azure_tools/storage.py:191-203 | with unique source names, a blob has not been copied before its own turn |
| Storage.WholeContainerArrives | azure_tools/storage.py:166-212 | with overwriting on and no upload refused, every source blob arrives unchanged in the target and every one is counted |
| Storage.SourceBlobAfterCreate | azure_tools/storage.py:150-156 | making the target container exist changes no blob a copy looks up, even when the source and target are one account |
| Storage.PutPresent | azure_tools/storage.py:154-156 | uploading a blob a container already holds, unchanged, leaves the container as it is |
| Storage.PutAllPresent | azure_tools/storage.py:191-203 | a copy of a container onto itself leaves the container as it is |
| Triggers.EntriesOf | azure_tools/adf/triggers.py:61-67 | the listing has one item per trigger, in the factory's order, each with that trigger's properties |
| Triggers.NamesOfListed | azure_tools/adf/triggers.py:143-147 | the names of the listed triggers, one per item, in order |
| Triggers.ListedNames | azure_tools/adf/triggers.py:67-85 | the names a filtered listing keeps are exactly the factory's names whose trigger passes the filter |
| Triggers.ListTriggers | azure_tools/adf/triggers.py:38-89 | a given type outside the two valid ones raises ValueError before anything is listed; otherwise exactly the listed triggers of a valid type are kept, and of the given type only when one is given |
| Triggers.ListingByTypeNarrowsDefault | azure_tools/adf/triggers.py:70-85 | listing one valid type gives the default listing narrowed to that type, in the same order |
| Triggers.EmptyTypeIsDefault | azure_tools/adf/triggers.py:55 | an empty type argument lists as no type does |
| Triggers.Managed | azure_tools/adf/triggers.py:105-124 | after a successful manage the trigger keeps its type and start time and no longer calls for the action; its state changes only when the action applies, and then to the target state |
| Triggers.RunWithoutRefusals | azure_tools/adf/triggers.py:130-151 | a run over names that all exist, against a service that refuses nothing, goes through |
| Triggers.CompleteRunAppliesAll | azure_tools/adf/triggers.py:143-147 | a run that goes through has managed every listed name |
| Triggers.ApplyAllAt | azure_tools/adf/triggers.py:143-147 | managing a list of names changes exactly the named triggers, each as one manage call would, however often a name repeats |
| Triggers.ManagedIdempotent | azure_tools/adf/triggers.py:105-124 | managing a trigger a second time with the same action changes nothing |
| Triggers.QuietRun | azure_tools/adf/triggers.py:121-124 | a run in which no listed trigger needs a change makes no call that can fail and changes nothing |
| Triggers.ManageAllIdempotent | azure_tools/adf/triggers.py:130-151 | once a run has gone through, a second run with the same action changes nothing and cannot fail, whatever the service would refuse |
| Triggers.RunKeepsNames | azure_tools/adf/triggers.py:100-102 | a run that goes through has found every name it manages |
| Triggers.CompleteRunReachesTarget | azure_tools/adf/triggers.py:130-151 | after a complete stop no listed trigger is "Started"; after a complete start no listed trigger is "Stopped" |
| Triggers.ResetTwiceSame | azure_tools/adf/triggers.py:153-229 | resetting twice to the same start time ends where resetting once does, in the same listing position |
| Triggers.MovedLastKeepsNames | azure_tools/adf/triggers.py:203-216 | deleting a trigger and creating it again keeps the factory's set of names and keeps them unique |
| Triggers.Restamped | azure_tools/adf/triggers.py:198-216 | writing a trigger twice keeps only the last write, and writing then deleting it is deleting it |
| Triggers.Factory.constructor | azure_tools/adf/triggers.py:61-67 | the factory holds the given triggers in the given order, with unique names, and the given refusals |
| Triggers.Factory.SetState | azure_tools/adf/triggers.py:107-119 | a start the factory refuses to start, or a stop it refuses to stop, changes nothing; otherwise only the trigger's state changes, to the state asked for, and the order is kept |
| Triggers.Factory.Delete | azure_tools/adf/triggers.py:205-207 | a refused delete changes nothing; otherwise exactly that trigger is removed from the store and from the order |
| Triggers.Factory.Create | azure_tools/adf/triggers.py:214-216 | a refused create changes nothing; otherwise the trigger is stored, in its place when it exists and listed last when it is new |
| Triggers.ADFTrigger.constructor | azure_tools/adf/triggers.py:8-30 | the client works on the given factory |
| Triggers.ADFTrigger.ManageTrigger | azure_tools/adf/triggers.py:91-128 | a missing trigger raises; a stop is issued only to a "Started" trigger and a start only to a "Stopped" one; the call fails exactly when the trigger is missing or the needed call is refused; on success the trigger is Managed and nothing else changes |
| Triggers.ADFTrigger.ManageAllTriggers | azure_tools/adf/triggers.py:130-151 | the triggers of the default listing are managed in listing order until the first failure; the triggers end as Run says and the call succeeds exactly when Run goes through |
| Triggers.ADFTrigger.ResetTumbling | azure_tools/adf/triggers.py:153-229 | a bad start time raises ValueError before the trigger is read; a missing trigger raises; another type raises ValueError; a refused stop, delete or create raises and leaves what the earlier steps did, a refused create losing the trigger; otherwise the trigger gets the new start time and moves to the end of the listing, stopped if it was stopped; a running one is started again, and when that start is refused the call raises and the trigger stays stopped with the new start time |
| Triggers.ADFTrigger.Recreate | azure_tools/adf/triggers.py:194-221 | the steps after the checks: stop if running, delete, create with the new start time, start again if it was running, with the same outcome per refusal as ResetTumbling |
| Triggers.ADFTrigger.Replace | azure_tools/adf/triggers.py:203-221 | on a trigger already stopped: a refused delete changes nothing; a refused create leaves the trigger deleted; otherwise the trigger is recreated with the new start time and listed last, started again if it was running, or left stopped with the call raising when that start is refused |
| Triggers.ADFTrigger.Restore | azure_tools/adf/triggers.py:209-221 | a trigger just deleted is created stopped with the new start time and listed last, and started again if it was running; a refused create changes nothing; a refused start raises and leaves the trigger created but stopped |
| Triggers.FilterNarrows | azure_tools/adf/triggers.py:70-85 | keeping one valid type is keeping the two valid types and then that type |
| TriggerDriver.StepReachesTarget | DR_Automation/DR_start_stop_adf_trigger.py:86-114 | after the step a started or stopped trigger of a listed type is in the state the action asks for, a tumbling-window trigger after a start carries the new start time, a trigger of another type is left alone, and no trigger changes type |
| TriggerDriver.ResetAllTumbling | DR_Automation/DR_start_stop_adf_trigger.py:90-102 | against a factory that refuses nothing, exactly the tumbling-window triggers are recreated with the new start time and every other trigger is unchanged; a refused reset is reported and the loop goes on |
| TriggerDriver.ResetAllDone | DR_Automation/DR_start_stop_adf_trigger.py:92-100 | once the whole tumbling listing is done, the factory keeps its names, every tumbling-window trigger is recreated with the new start time and nothing else changed |
| TriggerDriver.ResetStep | DR_Automation/DR_start_stop_adf_trigger.py:95-100 | one reset of the loop extends the set of reset triggers by the next name and changes nothing else |
| TriggerDriver.StartStop | DR_Automation/DR_start_stop_adf_trigger.py:85-102 | an error is a service error; against a factory that refuses nothing the step succeeds, keeps the factory's names and leaves each trigger as StepReachesTarget describes |
| TriggerDriver.Recover | DR_Automation/DR_start_stop_adf_trigger.py:121-127 | in the error handler, locks that were found and released are created again in order up to the first refusal, a refusal escaping as a service error; otherwise nothing is touched; the configuration ends as failed |
| TriggerDriver.PutBackRestores | DR_Automation/DR_start_stop_adf_trigger.py:55-61 | releasing every lock of a snapshot with unique names and creating them all again gives the snapshot back |
| TriggerDriver.ReleasedByCooperative | DR_Automation/DR_start_stop_adf_trigger.py:55-61 | against a store with unique lock names that refuses nothing, the release leaves the group without locks and the snapshot remembered, with the flag set exactly when there was a lock |
| TriggerDriver.PutBack | DR_Automation/DR_start_stop_adf_trigger.py:116-126 | putting the locks back keeps the outcome or ends as failed; an error escapes only from a store that refuses a create; against a cooperative store the group ends with exactly its snapshot |
| TriggerDriver.StepAndPutBack | DR_Automation/DR_start_stop_adf_trigger.py:85-126 | the start or stop followed by putting the locks back: against a cooperative store the locks end as they were and, when the factory refuses nothing, the triggers end as StepReachesTarget describes |
| TriggerDriver.ProcessConfig | DR_Automation/DR_start_stop_adf_trigger.py:47-127 | a dry run changes no lock and no trigger; outside one, against a cooperative store, every path ends with the group's locks as they were, including a factory without triggers; with a factory that refuses nothing and has triggers, the configuration completes with every trigger as StepReachesTarget describes; an error escapes only from a store that refuses a create |
| TriggerDriver.HandleFactory | DR_Automation/DR_start_stop_adf_trigger.py:63-127 | the handling after the release: no change in a dry run; the locks put back on every path against a cooperative store; the trigger step completed when the factory refuses nothing and has triggers |
| TriggerDriver.ProcessConfigAsWritten | DR_Automation/DR_start_stop_adf_trigger.py:47-127 | as ProcessConfig except that, outside a dry run against a cooperative store, a factory without triggers leaves its resource group with no locks at all |
| TriggerDriver.HandleFactoryAsWritten | DR_Automation/DR_start_stop_adf_trigger.py:63-83 | after the release, a factory without triggers is skipped with the locks still released; on every other path the locks are put back |
| TriggerDriver.LocksLostWithoutTriggers | DR_Automation/DR_start_stop_adf_trigger.py:55-75 | a resource group with one lock and a factory without triggers: before the run the group has the lock, after the run as written it has none |
| TriggerDriver.ManageAdfTriggers | DR_Automation/DR_start_stop_adf_trigger.py:8-127 | with the corrected handling of a configuration (ProcessConfig): a missing trigger section raises KeyError; otherwise there is one outcome per configuration; a dry run changes no lock and no trigger; against cooperative stores every resource group ends with the locks it had |
| TriggerDriver.HandleEntry | DR_Automation/DR_start_stop_adf_trigger.py:46-67 | with the corrected handling of a configuration (ProcessConfig): one configuration: its factory and its group's store are looked up by name, and it is handled; in a dry run it succeeds and no lock or trigger anywhere changes; when every store is cooperative it succeeds and every store keeps its locks and stays cooperative |
| TriggerDriver.ResetNext | DR_Automation/DR_start_stop_adf_trigger.py:95-100 | one reset of the loop, whatever its outcome, moves the loop on by one tumbling-window trigger when the factory refuses nothing |
| StorageSync.StgSyncConfig | DR_Automation/DR_sync_storage.py:14-47 | the section is accepted exactly when it is present, is one mapping, and has a "from" and a "to" side that each name an account; every refusal is a ValueError; an accepted section is returned as it is |
| StorageSync.ListSectionRefused | DR_Automation/DR_sync_storage.py:34-37 | a section holding a list of per-domain entries is always refused with ValueError |
| StorageSync.Expected | DR_Automation/DR_sync_storage.py:97-125 | a container ends copied exactly when the client was set up and its copy succeeds, and ends with the initialisation failure exactly when the client was not set up |
| StorageSync.OutcomeIndependentOfOrder | DR_Automation/DR_sync_storage.py:90-116 | a target that has only gained containers it may create decides a copy as the original target does, so earlier copies in the loop do not change a later container's result |
| StorageSync.ContainersOf | DR_Automation/DR_sync_storage.py:83-86 | the snapshot has one entry per reachable account |
| StorageSync.RunStorageSync | DR_Automation/DR_sync_storage.py:50-151 | a configuration error propagates as ValueError and changes nothing; otherwise every container named, or the two default ones, gets one result: the initialisation failure for all when the copy client cannot be set up, a copy failure for all when either account does not exist, and otherwise copied exactly when the source has it and the target has it or may create it; the target gains exactly the copied containers, no other account changes, the source and target may be one account, and the summary splits the names into successful and failed |
| StorageSync.SyncAccounts | DR_Automation/DR_sync_storage.py:80-125 | the part inside the outer handler leaves results and accounts as Synced describes, for any source and target names, equal or not: every entry the initialisation failure when the client is not set up, a copy failure when an account is missing, else the outcome of each copy |
| StorageSync.MarkAllFailed | DR_Automation/DR_sync_storage.py:118-125 | every container named gets the given failed entry (the initialisation failure, or the copy failure for an account that does not exist) and no other entry exists |
| StorageSync.CopyContainers | DR_Automation/DR_sync_storage.py:90-116 | every container named gets exactly one entry, each the outcome its copy has on the original accounts, and the target gains exactly the containers whose copy succeeds; the source and target may be one account |
| StorageSync.CopyNext | DR_Automation/DR_sync_storage.py:93-116 | one container more is copied and recorded, keeping the loop's description of the target and the entries |
| StorageSync.CopiedStep | DR_Automation/DR_sync_storage.py:93-116 | the copy of the next container succeeds exactly as it would on the original target, and the loop's description extends by one container |
| StorageSync.SelfCopyLeavesAccount | DR_Automation/DR_sync_storage.py:93-116 | copying a container of an account onto itself, under its own name, leaves the account as it was |
| KeyVaultSync.KeyVault.constructor | AzHelper.py:578 | the client works on the given secrets, refusals and reachability, with no write recorded yet |
| KeyVaultSync.KeyVault.ListSecrets | AzHelper.py:597-616 | an unreachable vault raises; otherwise every secret name is listed exactly once and nothing else |
| KeyVaultSync.KeyVault.GetSecret | AzHelper.py:579-594 | the value is returned exactly when the secret exists, is readable and the vault is reachable, and it is the stored value; otherwise it raises |
| KeyVaultSync.KeyVault.SetSecret | AzHelper.py:618-631 | the call is recorded; it succeeds exactly when the vault is reachable and accepts the write, and then the secret holds the value; a refused write changes no secret |
| KeyVaultSync.SyncedMeaning | DR_sync_kv.py:64-91 | outside a dry run every readable source secret that the target accepts ends with the source's value; a target secret whose write does not land keeps its value; a secret is in the result exactly when the target had it or a write of it landed |
| KeyVaultSync.DryRunChangesNothing | DR_sync_kv.py:82-84 | a dry run writes no secret and leaves the target as it is |
| KeyVaultSync.SelfSync | DR_sync_kv.py:70-77 | syncing a vault with itself writes nothing and changes nothing |
| KeyVaultSync.SyncIdempotent | DR_sync_kv.py:40-95 | a second sync right after the first leaves the target as the first left it |
| KeyVaultSync.SecondRunCalls | DR_sync_kv.py:72-87 | a second run calls `set_secret` for a secret again only when the target could not read it back, refused its write, or was unreachable |
| KeyVaultSync.SyncStep | DR_sync_kv.py:64-91 | whether a secret is written is decided against the original target, whatever other secrets were handled before it |
| KeyVaultSync.SyncSecret | DR_sync_kv.py:64-91 | a secret is written with the source's value exactly when the source value can be read, the target does not already hold it, the run is not a dry run and the target accepts the write; `set_secret` is called exactly when it is attempted |
| KeyVaultSync.SyncPair | DR_sync_kv.py:41-95 | the pair fails exactly when the source cannot be reached and has nothing to do exactly when the source is empty; the source never changes; the target ends as the sync describes; `set_secret` is called for exactly the secrets that need a copy, and a dry run calls it for none |
| KeyVaultSync.SyncSecrets | DR_sync_kv.py:64-91 | after the loop over a listing of every source secret, the target ends as the sync describes and the calls made are those of SyncPair |
| KeyVaultSync.SyncNext | DR_sync_kv.py:64-91 | one listed secret more is handled, keeping the loop's description of the target and the calls |
| KeyVaultSync.SecretsStep | DR_sync_kv.py:64-91 | with unique listed names, the next secret is decided as against the original target and the target moves on by exactly that secret |
| KeyVaultSync.CallsStep | DR_sync_kv.py:82-87 | the calls made so far are extended by the next secret exactly when it needs a copy |
| KeyVaultSync.DryRunSyncAll | DR_sync_kv.py:29-95 | a dry run over any number of entries changes no vault |
| KeyVaultSync.SyncConfig | DR_sync_kv.py:40-95 | one entry moves every vault on as one pair sync does and no other vault changes; it fails exactly when the source is unreachable; a dry run records no write |
| KeyVaultSync.SyncKeyVaults | DR_sync_kv.py:7-95 | a missing section raises KeyError and changes nothing; otherwise every entry is handled in order, each outcome is a failure exactly when its source vault is unreachable, the vaults end as the entries applied in turn, and a dry run records no write |
| KeyVaultSync.SyncEach | DR_sync_kv.py:40-95 | the loop over the entries: the vaults move on by every entry in turn, with one outcome per entry |
| KeyVaultSync.SyncNextConfig | DR_sync_kv.py:40-95 | one entry more is handled, keeping the loop's description |
| KeyVaultSync.EachStep | DR_sync_kv.py:40-95 | the outcome of the next entry extends the loop's description by one |
| KeyVaultSync.SyncAllKeepsReach | DR_sync_kv.py:40-95 | the entries change no vault's reachability and add or remove no vault |
| KeyVaultSync.Run | DR_sync_kv.py:97-112 | a `--dry-run` value other than "True" or "False" is refused before anything happens; otherwise the run fails with KeyError exactly when the section is missing, changing nothing; left out or "True", no vault is written and no write is recorded; with "False" the vaults end as SyncAll describes and each entry is Failed exactly when its source vault cannot be reached |
| SnowflakeFqdnDrivers.UpdatedAll | DR_update_sf_ls_fqdn.py:57-76 | one pass over a factory keeps every position: a selected service ends as one update attempt leaves it, any other service is unchanged |
| SnowflakeFqdnDrivers.Names | DR_update_sf_ls_fqdn.py:64-65 | the names of the listed services, one per service, in order |
| SnowflakeFqdnDrivers.SameShapeSameSelection | DR_update_sf_ls_fqdn.py:57 | factories whose services have the same names and types in the same order yield the same listing |
| SnowflakeFqdnDrivers.UpdatedAllSameShape | DR_update_sf_ls_fqdn.py:64-76 | a pass changes no service's name or type |
| SnowflakeFqdnDrivers.QuietPasses | DR_update_sf_ls_fqdn.py:64-76 | a dry run, or an old account name equal to the new one, changes nothing |
| SnowflakeFqdnDrivers.UnchangedSelected | DR_update_sf_ls_fqdn.py:57 | a service the type filter does not select is left alone |
| SnowflakeFqdnDrivers.UpdateFactory | DR_update_sf_ls_fqdn.py:50-76 | every selected service is attempted once, in listing order, a failed update being logged and skipped; the factory ends after one pass and the names attempted are exactly the listing's |
| SnowflakeFqdnDrivers.UpdateListed | DR_update_sf_ls_fqdn.py:64-76 | the loop over the listed services: every listed service ends updated, every other one untouched, and the names attempted are the listed names in order |
| SnowflakeFqdnDrivers.UpdateOne | DR_update_sf_ls_fqdn.py:65-76 | one attempt moves the loop on by one service, whatever its outcome |
| SnowflakeFqdnDrivers.StartProgress | DR_update_sf_ls_fqdn.py:57 | the listing of a factory with unique names has no repeats, and before the loop nothing is handled |
| SnowflakeFqdnDrivers.ProgressDone | DR_update_sf_ls_fqdn.py:64-76 | once the whole listing is handled the factory is exactly one pass further |
| SnowflakeFqdnDrivers.FactoryStep | DR_update_sf_ls_fqdn.py:65-74 | the next listed service is found by name at its original position, still untouched |
| SnowflakeFqdnDrivers.StepProgress | DR_update_sf_ls_fqdn.py:65-76 | updating that service in place extends the handled part of the listing by one |
| SnowflakeFqdnDrivers.ConfigsOrEmpty | Update_SF_LinkedService_FQDN.py:23-25 | a missing section is no factories; a present one reads as the strict reading does |
| SnowflakeFqdnDrivers.Services | DR_update_sf_ls_fqdn.py:43-54 | one entry per factory the configuration can name |
| SnowflakeFqdnDrivers.UpdateSnowflakeFqdns | DR_update_sf_ls_fqdn.py:43-76 | the run fails exactly when a configured factory cannot be reached, and then with a service error; on success there is one list of attempted names per factory, each that factory's listing; no service changes name or type; a dry run changes nothing; a single factory ends exactly one pass further |
| SnowflakeFqdnDrivers.HandleConfig | DR_update_sf_ls_fqdn.py:43-76 | one configured factory more: its listing is recorded, and only the factories sharing its store move, by one pass |
| SnowflakeFqdnDrivers.Selections | DR_update_sf_ls_fqdn.py:57 | one listing per configured factory, in order |
| SnowflakeFqdnDrivers.SelectionsStep | DR_update_sf_ls_fqdn.py:57 | the listings grow by the next factory's listing |
| SnowflakeFqdnDrivers.Refusals | DR_update_sf_ls_fqdn.py:68-76 | the write refusals of every factory, one entry each |
| SnowflakeFqdnDrivers.ProgressStep | DR_update_sf_ls_fqdn.py:43-76 | after one more factory the run still keeps every name and type, still has unique names per factory, and a one-factory run has made its one pass |
| SnowflakeFqdnDrivers.HandleFactory | DR_update_sf_ls_fqdn.py:50-76 | the client made for a factory attempts exactly its listing and leaves it one pass further |
| SnowflakeFqdnDrivers.SameShapeTrans | DR_update_sf_ls_fqdn.py:64-76 | keeping names and types over two runs keeps them over both |
| SnowflakeFqdnDrivers.UpdateSnowflakeFqdnsStrict | DR_update_sf_ls_fqdn.py:7-76 | a missing section raises KeyError before anything changes; the run succeeds exactly when every configured factory exists; both Snowflake connectors are handled; a dry run changes nothing |
| SnowflakeFqdnDrivers.UpdateSnowflakeFqdnsLenient | Update_SF_LinkedService_FQDN.py:6-62 | a missing section is an empty run that succeeds; the run succeeds exactly when every configured factory exists; only the first Snowflake connector is handled; a dry run changes nothing |
| SnowflakeFqdnDrivers.FirstConnectorOnly | Update_SF_LinkedService_FQDN.py:43 | the older script leaves every service that is not of the first connector alone, while the automation copy also updates the second connector |
| AccountNameScript.AccountNameUpdate | dr-scripts/AdfLinkedServiceFQDN.py:87-125 | a service without a type, or without its connector's account field, raises KeyError; otherwise only that field changes, to the account name rewritten from the old to the new name, whether or not the rewrite changes it |
| AccountNameScript.AgreesWithHelper | dr-scripts/AdfLinkedServiceFQDN.py:105-123 | on the same document, in REST form, the script fails exactly where the helper module's rewrite does, writes the same document where the helper writes one, and writes the service unchanged where the helper gives up because nothing would change |
| AccountNameScript.Renamed | dr-scripts/AdfLinkedServiceFQDN.py:87-125 | the document deployed for a service keeps its name and type |
| AccountNameScript.ScriptPass | dr-scripts/AdfLinkedServiceFQDN.py:209-244 | after a complete run over a factory every Snowflake service of either connector holds its rewritten document, every other service is as it was, and a dry run changes nothing |
| AccountNameScript.ScriptPassChanges | dr-scripts/AdfLinkedServiceFQDN.py:209-244 | a complete run keeps every name, and changes a service only outside a dry run, only for a Snowflake service, only when the old name occurs in its account field and differs from the new one |
| AccountNameScript.GetSnowflakeLinkedServices | dr-scripts/AdfLinkedServiceFQDN.py:44-85 | reading services in REST form: a listed service without a type raises KeyError; otherwise the result is exactly the services of either Snowflake connector, in listing order |
| AccountNameScript.KeptStep | dr-scripts/AdfLinkedServiceFQDN.py:72-80 | reading one more service keeps it exactly when it is of a Snowflake connector |
| AccountNameScript.Deploy | dr-scripts/AdfLinkedServiceFQDN.py:127-173 | a dry run writes nothing and succeeds; otherwise the write succeeds exactly when the service accepts it, and then the document replaces the service of that name; a refused write raises and changes nothing |
| AccountNameScript.ProcessFactory | dr-scripts/AdfLinkedServiceFQDN.py:203-221 | on services read in REST form: the factory's run fails exactly when some service has no type, or some Snowflake service lacks its account field or, outside a dry run, has its write refused; a run that succeeds leaves the factory as ScriptPass says; a dry run changes nothing |
| AccountNameScript.DeployListed | dr-scripts/AdfLinkedServiceFQDN.py:209-221 | the loop over the listed Snowflake services fails exactly when one of them cannot be handled, and otherwise leaves the factory as ScriptPass says; a dry run changes nothing |
| AccountNameScript.DeployNext | dr-scripts/AdfLinkedServiceFQDN.py:209-221 | one turn of that loop either extends the handled part of the listing by one service or fails because that service cannot be handled |
| AccountNameScript.BlockedFails | dr-scripts/AdfLinkedServiceFQDN.py:209-221 | a Snowflake service that lacks its account field or, outside a dry run, has its write refused makes the run fail |
| AccountNameScript.DeployOne | dr-scripts/AdfLinkedServiceFQDN.py:209-221 | on a service read in REST form: it fails exactly when it lacks its account field or its write is refused; otherwise the handled part of the listing grows by that service; a failure or a dry run changes nothing |
| AccountNameScript.StartDeployed | dr-scripts/AdfLinkedServiceFQDN.py:203-206 | the listing of a factory with unique names has no repeats, and before the loop nothing is deployed |
| AccountNameScript.DeployStep | dr-scripts/AdfLinkedServiceFQDN.py:209-221 | the next service is found by name at its original position, still untouched |
| AccountNameScript.DeployStepDone | dr-scripts/AdfLinkedServiceFQDN.py:209-221 | writing its document there extends the handled part of the listing by one |
| AccountNameScript.DeployedDone | dr-scripts/AdfLinkedServiceFQDN.py:209-221 | once the whole listing is handled without a failure, the run did not fail and the factory is as ScriptPass says |
| AccountNameScript.CliDryRun | dr-scripts/AdfLinkedServiceFQDN.py:177-178 | from the command line the run is always a dry run, whether or not the switch is given |
| AccountNameScript.RunScript | dr-scripts/AdfLinkedServiceFQDN.py:175-246 | on services read in REST form: no factory changes, since the run is always a dry run; a missing section only prints a message; the run succeeds exactly when every configured factory exists and none of its services lacks a type or, among the Snowflake ones, its account field |
| AccountNameScript.SnakeCase | dr-scripts/AdfLinkedServiceFQDN.py:39 | the SDK attribute name of a REST key has no capital letter and is at least as long as the key |
| AccountNameScript.SnakeCaseAccountKeys | dr-scripts/AdfLinkedServiceFQDN.py:107-117 | the two account keys the script reads, `connectionString` and `accountIdentifier`, are `connection_string` and `account_identifier` in an `as_dict()` document |
| AccountNameScript.AsDict | dr-scripts/AdfLinkedServiceFQDN.py:39 | the document `as_dict()` gives keeps the name and `properties.type` (present exactly when the service has a type) and has no `typeProperties` entry |
| AccountNameScript.KeepsAsWritten | dr-scripts/AdfLinkedServiceFQDN.py:79-80 | a document without `properties.type` raises KeyError; otherwise it is kept exactly when the type is one of the two Snowflake connectors |
| AccountNameScript.KeepsAsDict | dr-scripts/AdfLinkedServiceFQDN.py:79-80 | on the document `as_dict()` gives, the filter keeps exactly the services of the two Snowflake connectors |
| AccountNameScript.AccountNameUpdateAsWritten | dr-scripts/AdfLinkedServiceFQDN.py:87-125 | a document without `properties.typeProperties` raises KeyError; a rewrite that goes through changes only the connector's account field under `typeProperties`, to the rewritten account name |
| AccountNameScript.AsDictUpdateFails | dr-scripts/AdfLinkedServiceFQDN.py:105-123 | on the document `as_dict()` gives, the rewrite raises KeyError for every service, of either connector |
| AccountNameScript.GetSnowflakeLinkedServicesAsWritten | dr-scripts/AdfLinkedServiceFQDN.py:44-85 | a listed service without a type raises KeyError; otherwise the result is the `as_dict()` document of each service of either Snowflake connector, in listing order |
| AccountNameScript.ProcessFactoryAsWritten | dr-scripts/AdfLinkedServiceFQDN.py:203-221 | nothing is written, in a dry run or not; the factory's run fails with KeyError exactly when it holds a Snowflake service or an untyped one |
| AccountNameScript.RunScriptAsWritten | dr-scripts/AdfLinkedServiceFQDN.py:175-246 | no factory changes; a missing section only prints a message; the run succeeds exactly when every configured factory exists and holds no Snowflake service and no untyped one, and otherwise fails with KeyError or, for an unknown factory, the service error |
| EndpointSync.ConfigsAndMode | DR_sync_adf_private_endpoint.py:7-36 | a missing FQDN section raises KeyError; otherwise the factories are the section as a list, and the mode is the configured one or "failover" when none is given |
| EndpointSync.WithoutDomain | DR_sync_adf_private_endpoint.py:87 | the list without the domain: the domain is absent and every other FQDN is kept |
| EndpointSync.SyncedMovesDomain | DR_sync_adf_private_endpoint.py:81-117 | for a factory whose two endpoints exist and accept writes, after the move the domain is gone from the side it leaves, whose other FQDNs stay in order; it is on the side it joins, appended once when missing and with the list untouched when present; both endpoints keep their link properties; no other endpoint changes |
| EndpointSync.FilterAllKept | DR_sync_adf_private_endpoint.py:87 | a list without the domain is left as it is |
| EndpointSync.SyncedIdempotent | DR_sync_adf_private_endpoint.py:81-117 | a second run over a factory whose endpoints accept writes changes nothing |
| EndpointSync.NothingToDo | DR_sync_adf_private_endpoint.py:81-117 | endpoints already as the mode wants them get no update and do not change, and a mode other than failover or failback touches nothing |
| EndpointSync.Apply | DR_sync_adf_private_endpoint.py:84-97 | with the package's update: a dry run issues no update and changes nothing; otherwise exactly one update request is issued and the endpoints end as that update leaves them, or unchanged when it fails |
| EndpointSync.SyncFactory | DR_sync_adf_private_endpoint.py:59-117 | with the package's update: a dry run issues no update and changes nothing; otherwise the endpoints end as the move describes, with as many update requests as the lists read at the start call for, and none for an unknown mode |
| EndpointSync.ManagePrivateEndpoints | DR_sync_adf_private_endpoint.py:38-121 | with the package's update: a missing section raises KeyError and changes nothing; otherwise there is one update count per factory, all zero in a dry run; a dry run changes nothing; otherwise the endpoints end as the move applied to each factory in turn |
| EndpointSync.Run | DR_sync_adf_private_endpoint.py:123-138 | with the package's update: a `--dry-run` value other than "True" or "False" is refused with ValueError; otherwise the run fails exactly when the section is missing; only "False" changes endpoints, and then as ManagePrivateEndpoints describes |
| EndpointSync.MoveNeededChanges | DR_sync_adf_private_endpoint.py:81-117 | with the package's update, a factory that needs an update and whose two endpoints exist and accept writes ends with different endpoints |
| EndpointSync.ApplyAsWritten | DR_sync_adf_private_endpoint.py:84-97 | with the helper's update, once the client is built: a dry run succeeds; otherwise the update raises, with KeyError when the endpoint exists, and nothing is written |
| EndpointSync.ConstructAsWritten | DR_sync_adf_private_endpoint.py:59-62 | the driver's construction of the helper module's endpoint class, which has no constructor of its own (AzHelper.py:319), always raises TypeError because no resource type is passed; the type "adf" that the package's class supplies is accepted |
| EndpointSync.SyncFactoryWithHelperUpdate | DR_sync_adf_private_endpoint.py:64-117 | the body after the construction, with the helper's update: it would complete exactly in a dry run or when the factory needs no update, and it writes nothing |
| EndpointSync.SyncFactoryAsWritten | DR_sync_adf_private_endpoint.py:56-62 | as the driver is written, the handling of every factory ends in the handler at the construction, in every mode and in a dry run too, and nothing is read or written |
| EndpointSync.ManagePrivateEndpointsAsWritten | DR_sync_adf_private_endpoint.py:38-121 | as the driver is written: a missing section raises KeyError; otherwise there is one flag per factory and every flag is false, whatever the mode and the dry-run flag; no endpoint changes |
| EndpointSync.RunAsWritten | DR_sync_adf_private_endpoint.py:123-138 | as the driver is written: a bad `--dry-run` value is refused with ValueError; otherwise the run fails exactly when the section is missing; every factory's handling fails and no endpoint changes, whatever the option |
| BuildConfig.Lookup | build.py:5-114 | a table lookup succeeds exactly when the domain has an entry in that table and the tag is "qa", "prod" or "DR", and then gives that entry's name; otherwise KeyError |
| BuildConfig.Each | build.py:152-157 | a list comprehension over domains succeeds exactly when every domain's entry does, and then holds those entries in domain order |
| BuildConfig.SectionEntries | build.py:150-326 | a section is present exactly when its flag is on; it is a list exactly in "All" mode; it holds one entry per listed domain, each the entry built for that domain |
| BuildConfig.GenerateJsonParts | build.py:116-328 | a generated document has the config block with the inputs as given and each section as built from the tables with the lower-cased environment |
| BuildConfig.GeneratedParts | build.py:136-328 | the same, for the document built from a given lower-cased environment |
| BuildConfig.TriggerEntryNames | build.py:204-216 | a trigger entry exists exactly for a factory domain and two known tags, and starts the factory of the first and stops that of the second |
| BuildConfig.ScaleEntryNames | build.py:185-199 | a scale entry exists exactly for a domain with a batch account and two known tags, and scales up the pool of the first and down that of the second |
| BuildConfig.KvEntryNames | build.py:220-232 | a key-vault entry exists exactly for a domain with a vault and a known tag, and copies from that tag's vault to the DR vault |
| BuildConfig.StgEntryNames | build.py:234-246 | a storage-sync entry exists exactly for a domain with a storage account and a known tag, and copies from that tag's account to the DR account |
| BuildConfig.StorageEntryNames | build.py:151-158 | a storage entry exists exactly for a domain with a storage account and a known tag, and names that tag's group and account |
| BuildConfig.FqdnEntryNames | build.py:160-179 | an FQDN entry exists exactly for a factory domain and a known tag, and names that tag's group and factory |
| BuildConfig.TriggersFollowMode | build.py:201-216 | with Azure down, the trigger section has one entry per factory domain listed, starting the DR factory and stopping the environment's in failover, and the reverse in any other mode |
| BuildConfig.TriggerListNames | build.py:204-216 | a list of trigger entries built for the domains names, at each position, that domain's two factories |
| BuildConfig.PoolsFollowMode | build.py:181-199 | with Azure down, the scale section has one entry per domain listed, scaling up the DR pool and down the environment's in failover, and the reverse in any other mode |
| BuildConfig.ScaleListNames | build.py:185-199 | a list of scale entries built for the domains names, at each position, that domain's two pools |
| BuildConfig.SyncRunsTowardDR | build.py:218-246 | with Azure down, the key-vault and storage-sync sections have one entry per domain listed, always copying from the environment's side to the DR side, whatever the mode |
| BuildConfig.SyncListNames | build.py:218-246 | lists of sync entries built for the domains copy, at each position, from that domain's environment side to its DR side |
| BuildConfig.FqdnTargetsFactory | build.py:160-179 | with Snowflake down, the FQDN section has one entry per factory domain listed, naming the DR factory in a failover with Azure down and the environment's factory otherwise |
| BuildConfig.FqdnListNames | build.py:160-179 | a list of FQDN entries built for the domains names, at each position, that domain's factory for the tag |
| BuildConfig.SectionsFollowFlags | build.py:136-326 | the config block records the inputs; the storage section is present exactly when storage is down, the FQDN section exactly when Snowflake is down, the four Azure sections exactly when Azure is down; in "All" mode they are lists, with six storage-sync entries and seven trigger entries |
| BuildConfig.SectionOk | build.py:150-326 | a section is built whenever the entry of every domain it may list is |
| BuildConfig.SectionsBuild | build.py:147-326 | for "All" or one of the six ordered domains and a known tag, every section builds |
| BuildConfig.CommandLineInputsSucceed | build.py:330-361 | every combination the command line accepts generates a document; the single domain Retail raises ValueError; a customer document is returned as given |
| BuildConfig.SidesDiffer | build.py:181-246 | from qa or prod, the factory and pool brought up differ from those brought down, and each sync copies between two different vaults and accounts |
| BuildConfig.SalesQaFailover | build.py:249-303 | Sales in qa failing over with only Azure down: the DR factory is started and the qa one stopped, the DR pool scaled up and the qa one down, and no storage or Snowflake section is written |

## Left out

- Console output, logging, `argparse` and reading JSON files are not modelled. The drivers take the parsed configuration section as an `Option` value, and an `argparse` choice rejection is modelled as `ValueError`.
- The Azure SDK and REST calls are not modelled. They become the state of the store classes, and a call the service rejects becomes membership of the store's refusal set.
- The subscription client, the resource listing and the CLI process (`subprocess.run`) are inputs. `get_subscription_id`, `get_resource_details` and `run_cmd` only pass through to them.
- The dictionaries the scripts mutate in place (`properties`, `typeProperties`, `scaleSettings`) are modelled as values that the update returns.
- Common.Summarize: the order of the successful and failed lists (dictionary insertion order) is not captured. Only their membership and their lengths are stated.
- Time is an integer parameter. The token cache's five-minute margin is 300 seconds, standing for `timedelta(minutes=5)`. Parsing an ISO start time is an `Option`: an unparsable string gives `None`.
- The activity-run query window (`last_updated_after`/`last_updated_before`) is not modelled. The activity runs of a pipeline run are given with it. As written, azure_tools/adf/pipelines.py:110 reads `runStart` from a snake-case `as_dict()` document, so the lower bound of the window is always `None`; this is not modelled either.
- Pipeline run ids are abstract fresh strings that the service hands out.
- The polling loops in `run_and_fetch` and `enable_interactive_authoring` sleep and may poll forever. In the model, a pipeline run follows a finite script of statuses, and an integration runtime activates after a finite number of polls. A run that never reaches a terminal status is not modelled.
- Pipelines.RunResultCases: `run_and_fetch` called without an activity name gets the list of all activities and then indexes it like a dictionary, which raises `TypeError` after a successful run. The model states this as that error.
- Managed private endpoints: the fields the service computes for an endpoint (provisioning state, connection state) are not modelled.
- The `ThreadPoolExecutor` import in `DR_Automation/DR_run_connectivity_test.py` is unused, and the factories are tested one after another.
- The resource-type filter of the subscription listing is modelled as equality on the resource type. This is the service's reading of `resourceType eq '<type>'`.
- `get_linked_service_sdk` (AzHelper.py:191) only returns the SDK object and is not modelled.
- `list_containers` (azure_tools/storage.py:31) is used by no modelled operation and is not modelled.
- The credential classes (`DefaultAzureCredential`, `ClientSecretCredential`) are not modelled. A credential is a source of tokens with expiry times.
- `azure_tools/keyvault.py` only passes through to the secret client. The Key Vault store is modelled directly.
- `copy_container` returns `None`. The model's `CopyContainer` also returns the copied count, which the source only logs.
- The subscription id default differs between the two copies: AzHelper.py:47 uses `subscription_id or ...` while azure_tools/base.py:39 tests `is None`. The model follows azure_tools/base.py, so an empty string is kept as given.
- The `adfHelper` module imported by `Update_SF_LinkedService_FQDN.py` is not part of this model. The package's `ADFLinkedServices` stands in for it.
- `AzHelper.py` defines no `ADFTrigger`, `AzureResourceLock` or `ADFPipeline`, although the driver scripts import them from it. The classes of `azure_tools/adf/triggers.py`, `azure_tools/locks.py` and `azure_tools/adf/pipelines.py` are used instead.
- Fqdn.Rewrite: an empty old account name matches nowhere. Python's regular expression would match the empty string at every position that lies between `://` and `.`.
- StorageSync.RunStorageSync: blob contents are abstract values. A configuration side without a `resourceGroup` key raises `KeyError` in the source, and this is not modelled.
- KeyVaultSync.SyncKeyVaults requires every vault named in the configuration to be in the vault map, and the map to send different names to different vaults. KeyVaultSync.Run has the same requirement.
- SnowflakeFqdnDrivers.UpdateSnowflakeFqdns: the exact resulting linked services are stated for a run over a single factory. Over several factories the contract states that names and types are kept and that a dry run changes nothing.
- TriggerDriver.ManageAdfTriggers: the trigger states are stated per configuration (TriggerDriver.ProcessConfig), not across the whole run. Lock preservation is stated for lock stores that refuse no call.
- TriggerDriver.StartStop: the resulting trigger states are stated for a factory that refuses no call. TriggerDriver.ResetAllTumbling has the same restriction.
- The verify-state loop of `DR_Automation/DR_start_stop_adf_trigger.py` (lines 104-114) only prints trigger states and is not modelled.
- Common.Lower and ResourceBase.Dispatch: lower-casing maps only the ASCII capitals A to Z. Python's `str.lower()` also lowers other Unicode capitals, so a resource type written with such letters is not modelled.
- Fqdn.Rewrite: the new account name is inserted literally. `re.sub` (AzHelper.py:230-232 and the other copies) reads backslash escapes and group references in its replacement, and a new name containing them is not modelled.
- TriggerDriver.ManageAdfTriggers: every configuration entry is taken to hold the action's side. In DR_Automation/DR_start_stop_adf_trigger.py:121-126, an entry without it makes the handler read `adf_config` from the previous entry, or raise `UnboundLocalError` on the first one, and recreate the previous entry's locks again. This is not modelled.
- EndpointSync.ManagePrivateEndpoints: every configuration entry is taken to hold `adf` and `resourceGroup`. An entry without `adf` makes the handler at DR_sync_adf_private_endpoint.py:119-121 raise `KeyError` itself, ending the run. This is not modelled. EndpointSync.ManagePrivateEndpointsAsWritten has the same limit.
- EndpointSync.SyncedMovesDomain: states the move that the package's class and update (azure_tools/adf/managed_pe.py) make. The driver as written builds the helper module's class without a resource type, which raises TypeError for every factory (EndpointSync.ConstructAsWritten, EndpointSync.RunAsWritten); behind that, the helper's update always raises too (EndpointSync.SyncFactoryWithHelperUpdate). See Findings.
- EndpointSync.Apply: runs the package's update; the helper's update is EndpointSync.ApplyAsWritten, which the driver as written never reaches.
- EndpointSync.SyncFactory: runs the package's class and update; as written, the driver's handling of a factory is EndpointSync.SyncFactoryAsWritten, which fails at the construction.
- EndpointSync.ManagePrivateEndpoints: runs the package's class and update; as written, the driver's loop is EndpointSync.ManagePrivateEndpointsAsWritten, under which every factory fails.
- EndpointSync.Run: runs the package's class and update; as written, `main` is EndpointSync.RunAsWritten, under which every factory fails and no endpoint changes.
- AccountNameScript.AgreesWithHelper: compares the script and the helper on the same document in REST form. The script as written reads `as_dict()` documents, on which its rewrite always raises (AccountNameScript.AsDictUpdateFails; see Findings).
- AccountNameScript.GetSnowflakeLinkedServices: returns services in REST form, as the script's key paths assume; as written, the listing is AccountNameScript.GetSnowflakeLinkedServicesAsWritten.
- AccountNameScript.ProcessFactory: works on services in REST form; as written, a factory with a Snowflake service fails with KeyError (AccountNameScript.ProcessFactoryAsWritten).
- AccountNameScript.DeployOne: works on a service in REST form; as written, the rewrite before it raises KeyError (AccountNameScript.AsDictUpdateFails).
- AccountNameScript.RunScript: works on services in REST form; as written, the run is AccountNameScript.RunScriptAsWritten, which fails on the first Snowflake service.
- AccountNameScript.AsDict: only `properties.type` and the account field of the `as_dict()` document are modelled. The connector's other attributes are never read by the script.
- Batch.PoolsAfterScale: reads the pool's real node count. As written, AzHelper.py:540 looks the count up under a camel-case key that the `as_dict()` document does not have, so it reads 0 (Batch.ReadsZero); the update as written is Batch.PoolsAfterScaleAsWritten (see Findings).
- Batch.AzureBatchPool.ScalePoolNodes: reads the real node count; as written, the method is Batch.AzureBatchPool.ScalePoolNodesAsWritten, which never scales a pool down to 0.
- Batch.RescaledSettings: the settings the intended update leaves. As written, the new settings go under an added `scaleSettings` key beside the document's own `scale_settings` (Batch.AzureBatchPool.ScalePoolNodesAsWritten). Which of the two the service applies is not determined by the code; the as-written members take it as the input `appliesAddedKey`.
- Batch.ScaleIdempotent: holds for the real count. As written, a second call to a non-zero target reads 0 again and sends the update again (Batch.PoolsAfterScaleAsWritten).
- Batch.UpTarget: the target for the count read correctly. As written, DR_scale_batch.py:58 reads 0, so the partner's target is always 1 (Batch.LeftPoolNeverScaledDown).
- Batch.Swap: the configuration with the count read correctly; as written, it is Batch.SwapAsWritten.
- Batch.SwapMovesCapacity: capacity moves only with the count read correctly. As written, the pool being left keeps its nodes and the partner gets one (Batch.LeftPoolNeverScaledDown, Batch.SwapAsWrittenDiffers).
- Batch.FailedScaleUpKeepsScaleDown: with the count read correctly. As written, there is no scale-down to keep (Batch.LeftPoolNeverScaledDown).
- Batch.SecondRunLeavesOneNode: with the count read correctly. As written, every run gives the partner one node (Batch.LeftPoolNeverScaledDown).
- Batch.ScalePair: with the count read correctly; as written, the handling is Batch.ScalePairAsWritten.
- Batch.ScaleBatchPools: with the count read correctly; as written, the loop is Batch.ScaleBatchPoolsAsWritten.
- Batch.Run: with the count read correctly; as written, `main` is Batch.RunAsWritten, under which no pool is scaled down (Batch.LeftPoolsNeverScaledDown).
- ConnectivityTest.TestAll: uses the corrected entry (ConnectivityTest.EntryFor, ConnectivityTest.TestFactory). As written, a passing test whose result sets are a JSON array is recorded as failed (ConnectivityTest.TestFactoryAsWritten, ConnectivityTest.PassingTestRecordedAsFailed; see Findings).
- ConnectivityTest.RunConnectivityTests: uses the corrected entry. As written, the same factories are moved to the failed list (ConnectivityTest.EntryForAsWritten, ConnectivityTest.PassingTestRecordedAsFailed).
- TriggerDriver.ManageAdfTriggers: uses the corrected handling of a configuration (TriggerDriver.ProcessConfig). As written, the locks of a group whose factory has no triggers are not recreated (TriggerDriver.ProcessConfigAsWritten, TriggerDriver.LocksLostWithoutTriggers; see Findings).
- TriggerDriver.HandleEntry: uses the corrected handling of a configuration. As written, that handling is TriggerDriver.ProcessConfigAsWritten, which loses the locks when the factory has no triggers (TriggerDriver.LocksLostWithoutTriggers).

## Findings

| source | as written | input that shows it | evidently intended | confidence | as-written member | corrected member |
|---|---|---|---|---|---|---|
| azure_tools/adf/linked_services.py:140-153 | for a service that is not "Snowflake", the abort test compares `new_fqdn` with the whole `accountIdentifier`, and the write stores `new_fqdn` wholesale, so the computed substitution is discarded | a SnowflakeV2 service with `accountIdentifier` "sf://ab.east", old "ab", new "cd": the identifier becomes "cd"; with an identifier that does not contain "ab" it is still overwritten | the identifier becomes "sf://cd.east", and an identifier without a match is left alone and not written, as in the Snowflake branch and in AzHelper.py:240-252 | high (not executed) | LinkedServices.RetargetAsWritten, LinkedServices.AsWrittenDiscardsRewrite, LinkedServices.AsWrittenWritesWithoutMatch | LinkedServices.Retarget |
| DR_Automation/DR_start_stop_adf_trigger.py:73-75 | when a factory has no triggers, the loop body ends with `continue` after the locks were released at line 61, so the lock recreation at lines 116-120 is skipped | a resource group with one lock and a factory with no triggers, outside a dry run: the lock is gone after the run | the released locks are recreated on every path, as they are on success and in the exception handler | high (not executed) | TriggerDriver.ProcessConfigAsWritten, TriggerDriver.HandleFactoryAsWritten, TriggerDriver.LocksLostWithoutTriggers | TriggerDriver.ProcessConfig, TriggerDriver.HandleFactory |
| DR_sync_adf_private_endpoint.py:59-62 | the driver builds the helper module's `ADFManagedPrivateEndpoint` (imported at line 5) with only `resource_group_name` and `resource_name`; that class has no constructor of its own (AzHelper.py:319), and the base's constructor (AzHelper.py:28-34) requires `resource_type` | any run with one factory, even `--dry-run True`: `TypeError` at the construction, caught by the handler at lines 119-121, and nothing is read or written | the client is built with the type "adf", as the package's class (azure_tools/adf/managed_pe.py) does itself | high (not executed) | ResourceBase.LegacyInit, EndpointSync.ConstructAsWritten, EndpointSync.SyncFactoryAsWritten, EndpointSync.ManagePrivateEndpointsAsWritten, EndpointSync.RunAsWritten | ManagedEndpoints.ADFManagedPrivateEndpoint.constructor, EndpointSync.SyncFactory, EndpointSync.ManagePrivateEndpoints, EndpointSync.Run |
| AzHelper.py:364-365 | a second defect, behind the first: the helper's update reads `groupId` and `privateLinkResourceId` from `as_dict()`, whose keys are snake_case (`group_id`, `private_link_resource_id`), so even with the client built it never writes | with the construction fixed, a failover outside a dry run with the domain on the east endpoint of an existing factory: `KeyError` before the write, caught by the handler, and no endpoint changes | the link properties are read under their snake_case names, as in azure_tools/adf/managed_pe.py | medium (not executed) | ManagedEndpoints.ADFManagedPrivateEndpoint.UpdateManagedPrivateEndpointFqdnAsWritten, EndpointSync.ApplyAsWritten, EndpointSync.SyncFactoryWithHelperUpdate | ManagedEndpoints.ADFManagedPrivateEndpoint.UpdateManagedPrivateEndpointFqdn, EndpointSync.SyncedMovesDomain, EndpointSync.MoveNeededChanges |
| DR_Automation/DR_run_connectivity_test.py:82 | after a success entry is stored, `activity_result.get('status', ...)` is called on the activity's result sets; when they are a JSON array this raises `AttributeError`, and the handler overwrites the entry with an error | a pipeline run that succeeds with result sets `[]`: the factory is reported as failed | a successful run is recorded as a success whatever the shape of its result sets | medium (not executed) | ConnectivityTest.EntryForAsWritten, ConnectivityTest.TestFactoryAsWritten, ConnectivityTest.PassingTestRecordedAsFailed | ConnectivityTest.EntryFor, ConnectivityTest.TestFactory |
| dr-scripts/AdfLinkedServiceFQDN.py:39 | services are read with `as_dict()`, which puts the connector's attributes directly under `properties` in snake case (`connection_string`, `account_identifier`), while lines 107 and 117 read them under `properties.typeProperties` | any factory with a Snowflake service, even in a dry run: `KeyError` at line 107 or 117, which `main` does not catch, so the run ends | the services are read in REST form (or the snake-case keys are used), so that each Snowflake service is rewritten as ScriptPass describes | high (not executed) | AccountNameScript.AsDictUpdateFails, AccountNameScript.ProcessFactoryAsWritten, AccountNameScript.RunScriptAsWritten | AccountNameScript.ProcessFactory, AccountNameScript.RunScript, AccountNameScript.ScriptPassChanges |
| AzHelper.py:540 | the node count is read as `scaleSettings.fixedScale.targetDedicatedNodes` from the `as_dict()` document, whose keys are snake case (`scale_settings`, `fixed_scale`, `target_dedicated_nodes`), so every pool reads 0; DR_scale_batch.py:58 makes the same read | "False" with a pool being left that has 4 nodes and a partner with 0: the scale-down to 0 returns at AzHelper.py:545-547 with no update, the partner's target is 1, and the first pool keeps its 4 nodes | the count is read under the snake-case keys, so the first pool ends with 0 nodes and its partner with 4 | high (not executed) | Batch.ReadsZero, Batch.PoolsAfterScaleAsWritten, Batch.LeftPoolNeverScaledDown, Batch.SwapAsWrittenDiffers, Batch.RunAsWritten | Batch.PoolsAfterScale, Batch.SwapMovesCapacity, Batch.Run |
