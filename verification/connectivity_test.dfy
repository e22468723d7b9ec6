/** The connectivity check of a DR run: the Snowflake connectivity-test
    pipeline is run in every factory of the FQDN section, one result is kept
    per "resourceGroup/adf" key, and the results are summarised as
    successful and failed factories. */
module ConnectivityTest {
  import opened Common
  import opened Pipelines
  import BuildConfig

  const PipelineName := "PPL_Snowflake_connectivitytest"
  const ActivityName := "Snowflake connectivity test"

  /** `f"{resource_group}/{factory_name}"`. */
  function Key(c: BuildConfig.AdfRef): string {
    c.resourceGroup + "/" + c.adf
  }

  /** A result entry: on success the run id and the activity result, on
      error the exception and the run id if a run was created. */
  datatype Entry =
    | Success(runId: Option<string>, activityResult: Json)
    | Failure(error: Error, runId: Option<string>)

  /** The entry for a factory, from the outcome of `run_and_fetch` and the
      runner's run id afterwards. */
  function EntryFor(outcome: Result<Json>, runId: Option<string>): (e: Entry)
    ensures e.Success? <==> outcome.Ok?
    ensures e.runId == runId
    ensures e.Success? ==> e.activityResult == outcome.value
    ensures e.Failure? ==> e.error == outcome.error
  {
    match outcome
    case Ok(v) => Success(runId, v)
    case Err(err) => Failure(err, runId)
  }

  /** The entry as the script ends up with it: after the success entry is
      stored, the activity result's `get('status', 'Unknown')` is printed,
      and a result that is not a JSON object has no `get`; the exception is
      caught by the same handler, which overwrites the entry with an error. */
  function EntryForAsWritten(outcome: Result<Json>, runId: Option<string>): (e: Entry)
    ensures e.Success? <==> outcome.Ok? && outcome.value.JObject?
    ensures e.runId == runId
  {
    match outcome
    case Ok(v) =>
      var shown := GetField(v, "status", JString("Unknown"));
      if shown.Err? then Failure(shown.error, runId) else Success(runId, v)
    case Err(err) => Failure(err, runId)
  }

  /** A connectivity test whose activity reports its result sets as a JSON
      array, as a script activity does: it passes, and the script records it
      as failed with an AttributeError. */
  lemma PassingTestRecordedAsFailed(rows: seq<Json>, runId: Option<string>)
    ensures EntryFor(Ok(JArray(rows)), runId) == Success(runId, JArray(rows))
    ensures EntryForAsWritten(Ok(JArray(rows)), runId) == Failure(AttributeError, runId)
  {
  }

  /** Whether the test passes in a factory: the pipeline exists and its run
      yields the activity's result sets. */
  predicate Passes(pipelines: map<PipelineAddress, Behaviour>, c: BuildConfig.AdfRef) {
    var p := PipelineAddress(c, PipelineName);
    p in pipelines && Finishes(pipelines[p]) && RunResult(pipelines[p], Some(ActivityName)).Ok?
  }

  /** The body of the loop for one factory: a fresh runner runs the
      pipeline, and the entry records the outcome. */
  method TestFactory(service: PipelineService, c: BuildConfig.AdfRef, parameters: Option<map<string, string>>)
    returns (e: Entry)
    requires service.Valid()
    modifies service
    ensures service.Valid()
    ensures e.Success? <==> Passes(service.pipelines, c)
    ensures var p := PipelineAddress(c, PipelineName);
      && (p !in service.pipelines ==> e == Failure(ServiceError, None))
      && (p in service.pipelines ==> e == EntryFor(RunResult(service.pipelines[p], Some(ActivityName)), e.runId)
                                     && e.runId.Some? && e.runId.value in service.runs)
  {
    var runner := new ADFPipeline(service, c);
    var outcome := runner.RunAndFetch(PipelineName, Some(ActivityName), parameters);
    e := EntryFor(outcome, runner.runId);
  }

  /** The same, with the entry as the script ends up with it. */
  method TestFactoryAsWritten(service: PipelineService, c: BuildConfig.AdfRef, parameters: Option<map<string, string>>)
    returns (e: Entry)
    requires service.Valid()
    modifies service
    ensures service.Valid()
    ensures e.Success? <==> Passes(service.pipelines, c) && RunResult(service.pipelines[PipelineAddress(c, PipelineName)],
                                                            Some(ActivityName)).value.JObject?
  {
    var runner := new ADFPipeline(service, c);
    var outcome := runner.RunAndFetch(PipelineName, Some(ActivityName), parameters);
    e := EntryForAsWritten(outcome, runner.runId);
  }

  /** The results dictionary after entries are stored under their keys in
      order: a later entry under the same key replaces the earlier one. */
  function Collect(keys: seq<string>, entries: seq<Entry>): map<string, Entry>
    requires |keys| == |entries|
  {
    if keys == [] then map[]
    else Collect(keys[..|keys| - 1], entries[..|entries| - 1])[keys[|keys| - 1] := entries[|entries| - 1]]
  }

  /** Storing one more entry is an update of the dictionary so far. */
  lemma CollectSnoc(keys: seq<string>, entries: seq<Entry>, k: string, e: Entry)
    requires |keys| == |entries|
    ensures Collect(keys + [k], entries + [e]) == Collect(keys, entries)[k := e]
  {
    assert (keys + [k])[..|keys|] == keys;
    assert (entries + [e])[..|entries|] == entries;
  }

  /** One key per factory, and each key holds the entry of the last factory
      stored under it. */
  lemma CollectLast(keys: seq<string>, entries: seq<Entry>)
    requires |keys| == |entries|
    ensures Collect(keys, entries).Keys == set k | k in keys
    ensures forall i :: 0 <= i < |keys| && (forall j :: i < j < |keys| ==> keys[j] != keys[i]) ==>
      Collect(keys, entries)[keys[i]] == entries[i]
  {
    CollectKeys(keys, entries);
    forall i | 0 <= i < |keys| && (forall j :: i < j < |keys| ==> keys[j] != keys[i])
      ensures Collect(keys, entries)[keys[i]] == entries[i]
    {
      CollectLastAt(keys, entries, i);
    }
  }

  lemma {:induction false} CollectKeys(keys: seq<string>, entries: seq<Entry>)
    requires |keys| == |entries|
    ensures Collect(keys, entries).Keys == set k | k in keys
  {
    if keys != [] {
      var n := |keys| - 1;
      CollectKeys(keys[..n], entries[..n]);
      assert keys == keys[..n] + [keys[n]];
    }
  }

  lemma {:induction false} CollectLastAt(keys: seq<string>, entries: seq<Entry>, i: nat)
    requires |keys| == |entries| && i < |keys|
    requires forall j :: i < j < |keys| ==> keys[j] != keys[i]
    ensures keys[i] in Collect(keys, entries) && Collect(keys, entries)[keys[i]] == entries[i]
  {
    var n := |keys| - 1;
    if i < n {
      var ks, es := keys[..n], entries[..n];
      assert ks[i] == keys[i] && es[i] == entries[i];
      assert forall j :: i < j < n ==> ks[j] == keys[j];
      CollectLastAt(ks, es, i);
    }
  }

  function Keys(configs: seq<BuildConfig.AdfRef>): (ks: seq<string>)
    ensures |ks| == |configs| && forall i :: 0 <= i < |configs| ==> ks[i] == Key(configs[i])
  {
    seq(|configs|, i requires 0 <= i < |configs| => Key(configs[i]))
  }

  /** `run_connectivity_tests`: the FQDN section is read (a missing one
      raises KeyError), every factory is tested in turn, each entry is
      stored under its key, and the keys are split into successful and
      failed ones. */
  method RunConnectivityTests(section: Option<OneOrMany<BuildConfig.AdfRef>>, service: PipelineService,
                              parameters: Option<map<string, string>>)
    returns (r: Result<map<string, Entry>>, entries: seq<Entry>, successful: seq<string>, failed: seq<string>)
    requires service.Valid()
    modifies service
    ensures service.Valid()
    ensures r.Err? <==> section.None?
    ensures r.Err? ==> r.error == KeyError
    ensures r.Ok? ==>
      var configs := SectionAsList(section).value;
      && |entries| == |configs|
      && (forall i :: 0 <= i < |configs| ==> (entries[i].Success? <==> Passes(service.pipelines, configs[i])))
      && r.value == Collect(Keys(configs), entries)
      && |successful| + |failed| == |r.value|
      && (forall k :: k in successful <==> k in r.value && r.value[k].Success?)
      && (forall k :: k in failed <==> k in r.value && r.value[k].Failure?)
  {
    entries, successful, failed := [], [], [];
    var configs :- SectionAsList(section);
    var results;
    entries, results := TestAll(configs, service, parameters);
    successful, failed := Summarize(results, (e: Entry) => e.Success?);
    r := Ok(results);
  }

  /** The entries so far are those of the first factories, each a success
      exactly when the test passes there. */
  predicate Recorded(pipelines: map<PipelineAddress, Behaviour>, configs: seq<BuildConfig.AdfRef>, entries: seq<Entry>) {
    && |entries| <= |configs|
    && forall k :: 0 <= k < |entries| ==> (entries[k].Success? <==> Passes(pipelines, configs[k]))
  }

  lemma RecordedStep(pipelines: map<PipelineAddress, Behaviour>, configs: seq<BuildConfig.AdfRef>,
                     entries: seq<Entry>, e: Entry)
    requires Recorded(pipelines, configs, entries) && |entries| < |configs|
    requires e.Success? <==> Passes(pipelines, configs[|entries|])
    ensures Recorded(pipelines, configs, entries + [e])
  {
  }

  /** The loop of `run_connectivity_tests`: every factory is tested in turn
      and its entry stored under its key. */
  method TestAll(configs: seq<BuildConfig.AdfRef>, service: PipelineService, parameters: Option<map<string, string>>)
    returns (entries: seq<Entry>, results: map<string, Entry>)
    requires service.Valid()
    modifies service
    ensures service.Valid()
    ensures |entries| == |configs|
    ensures forall i :: 0 <= i < |configs| ==> (entries[i].Success? <==> Passes(service.pipelines, configs[i]))
    ensures results == Collect(Keys(configs), entries)
  {
    entries, results := [], map[];
    var i := 0;
    while i < |configs|
      invariant 0 <= i <= |configs| && |entries| == i
      invariant service.Valid()
      invariant Recorded(service.pipelines, configs, entries)
      invariant results == Collect(Keys(configs[..i]), entries)
    {
      var e := TestFactory(service, configs[i], parameters);
      assert Keys(configs[..i + 1]) == Keys(configs[..i]) + [Key(configs[i])];
      CollectSnoc(Keys(configs[..i]), entries, Key(configs[i]), e);
      RecordedStep(service.pipelines, configs, entries, e);
      entries := entries + [e];
      results := results[Key(configs[i]) := e];
      i := i + 1;
    }
    assert configs[..i] == configs;
  }
}
