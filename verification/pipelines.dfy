/** Pipeline runs of a data factory. A run is created under a fresh run
    id, its status is read until it is terminal, and the outcome of one of
    its activities is then fetched. Each pipeline's behaviour when run is
    part of the service: the statuses successive reads report (one read per
    wait, the last status repeating) and the activity runs it records. */
module Pipelines {
  import opened Common
  import BuildConfig

  /** A parsed JSON value, as activity outputs hold them. */
  datatype Json =
    | JNull
    | JBool(b: bool)
    | JNumber(n: int)
    | JString(s: string)
    | JArray(items: seq<Json>)
    | JObject(fields: map<string, Json>)

  /** `value[key]`: a key missing from an object raises KeyError; indexing
      anything but an object with a string raises TypeError. */
  function Subscript(v: Json, key: string): (r: Result<Json>)
    ensures r.Ok? <==> v.JObject? && key in v.fields
    ensures r.Ok? ==> r.value == v.fields[key]
    ensures r.Err? ==> r.error == if v.JObject? then KeyError else TypeError
  {
    if !v.JObject? then Err(TypeError)
    else if key in v.fields then Ok(v.fields[key])
    else Err(KeyError)
  }

  /** `value.get(key, default)`: only an object has `get`. */
  function GetField(v: Json, key: string, default: Json): (r: Result<Json>)
    ensures r.Ok? <==> v.JObject?
    ensures r.Err? ==> r.error == AttributeError
    ensures r.Ok? ==> r.value == if key in v.fields then v.fields[key] else default
  {
    if !v.JObject? then Err(AttributeError)
    else if key in v.fields then Ok(v.fields[key])
    else Ok(default)
  }

  /** An activity run as `as_dict()` gives it; attributes the service left
      unset are missing. */
  datatype Activity = Activity(activityName: Option<string>, status: Option<string>, output: Option<Json>)

  const TerminalStatuses: set<string> := {"Succeeded", "Failed", "Cancelled"}

  predicate Terminal(status: Option<string>) {
    status.Some? && status.value in TerminalStatuses
  }

  /** What a run of a pipeline does: the statuses reported by successive
      reads, and the activity runs it records. */
  datatype Behaviour = Behaviour(statuses: seq<Option<string>>, activities: seq<Activity>)

  /** A run of the pipeline eventually reports a terminal status. */
  predicate Finishes(b: Behaviour) {
    |b.statuses| > 0 && Terminal(b.statuses[|b.statuses| - 1])
  }

  /** The status a read reports after `elapsed` waits. */
  function StatusAt(b: Behaviour, elapsed: nat): Option<string>
    requires |b.statuses| > 0
  {
    b.statuses[if elapsed < |b.statuses| then elapsed else |b.statuses| - 1]
  }

  /** The index of the first terminal status: where polling stops. */
  function {:induction false} FirstTerminal(s: seq<Option<string>>): (i: nat)
    requires |s| > 0 && Terminal(s[|s| - 1])
    ensures i < |s| && Terminal(s[i])
    ensures forall j :: 0 <= j < i ==> !Terminal(s[j])
  {
    if Terminal(s[0]) then 0 else 1 + FirstTerminal(s[1..])
  }

  /** A read before the first terminal status is followed by another
      read, which reports the next status. */
  lemma NotYetTerminal(b: Behaviour, k: nat)
    requires Finishes(b) && k <= FirstTerminal(b.statuses) && !Terminal(b.statuses[k])
    ensures k + 1 <= FirstTerminal(b.statuses) && StatusAt(b, k + 1) == b.statuses[k + 1]
  {
  }

  /** The status the polling loop stops at. */
  function FinalStatus(b: Behaviour): Option<string>
    requires Finishes(b)
  {
    b.statuses[FirstTerminal(b.statuses)]
  }

  /** The first activity run whose name is `name`, as `fetch_activity`'s
      loop finds it; None when there is none. */
  function {:induction false} FirstNamed(activities: seq<Activity>, name: string): (r: Option<Activity>)
    ensures r.None? <==> forall a :: a in activities ==> a.activityName != Some(name)
    ensures r.Some? ==> exists i :: 0 <= i < |activities| && activities[i] == r.value
                          && r.value.activityName == Some(name)
                          && forall j :: 0 <= j < i ==> activities[j].activityName != Some(name)
  {
    if activities == [] then None
    else if activities[0].activityName == Some(name) then Some(activities[0])
    else
      var rest := FirstNamed(activities[1..], name);
      assert forall a :: a in activities ==> a == activities[0] || a in activities[1..];
      if rest.Some? then
        var i :| 0 <= i < |activities[1..]| && activities[1..][i] == rest.value
                 && rest.value.activityName == Some(name)
                 && forall j :: 0 <= j < i ==> activities[1..][j].activityName != Some(name);
        assert activities[i + 1] == rest.value;
        assert forall j :: 1 <= j < i + 1 ==> activities[j] == activities[1..][j - 1];
        rest
      else rest
  }

  /** What `fetch_activity` returns: every activity run when no name is
      given, otherwise the first run of that name or None. */
  datatype Fetched = AllActivities(activities: seq<Activity>) | Found(activity: Option<Activity>)

  function Fetch(activities: seq<Activity>, name: Option<string>): Fetched {
    if name.None? then AllActivities(activities) else Found(FirstNamed(activities, name.value))
  }

  /** `fetched["output"]["resultSets"]` on what `fetch_activity` returned:
      a list of activities and a missing activity cannot be indexed by a
      string, a run without output raises KeyError, and the output must be
      an object holding "resultSets". */
  function ResultSetsOf(f: Fetched): (r: Result<Json>)
    ensures f.AllActivities? || f.activity.None? ==> r == Err(TypeError)
    ensures f.Found? && f.activity.Some? && f.activity.value.output.None? ==> r == Err(KeyError)
    ensures f.Found? && f.activity.Some? && f.activity.value.output.Some? ==>
      r == Subscript(f.activity.value.output.value, "resultSets")
  {
    match f
    case AllActivities(_) => Err(TypeError)
    case Found(None) => Err(TypeError)
    case Found(Some(a)) =>
      if a.output.None? then Err(KeyError) else Subscript(a.output.value, "resultSets")
  }

  /** The result of `run_and_fetch` for a run of a pipeline that behaves as
      `b`: the result sets of the named activity after a success, and an
      exception for any other terminal status. */
  function RunResult(b: Behaviour, name: Option<string>): Result<Json>
    requires Finishes(b)
  {
    if FinalStatus(b) == Some("Succeeded") then ResultSetsOf(Fetch(b.activities, name))
    else Err(PipelineFailed)
  }

  /** The outcomes of `run_and_fetch`: a run ending "Failed" or "Cancelled"
      raises; without an activity name even a successful run raises, because
      the list of all activities is indexed with "output"; with a name, a
      successful run returns the result sets of the first activity of that
      name, or raises when there is none. */
  lemma RunResultCases(b: Behaviour, name: Option<string>)
    requires Finishes(b)
    ensures FinalStatus(b) != Some("Succeeded") ==> RunResult(b, name) == Err(PipelineFailed)
    ensures FinalStatus(b) == Some("Succeeded") && name.None? ==> RunResult(b, name) == Err(TypeError)
    ensures FinalStatus(b) == Some("Succeeded") && name.Some? ==>
      && (RunResult(b, name).Ok? ==>
            exists a :: (&& a in b.activities && a.activityName == name && a.output.Some?
                         && a.output.value.JObject? && "resultSets" in a.output.value.fields
                         && RunResult(b, name).value == a.output.value.fields["resultSets"]))
      && ((forall a :: a in b.activities ==> a.activityName != name) ==> RunResult(b, name) == Err(TypeError))
  {
    if FinalStatus(b) == Some("Succeeded") && name.Some? {
      var found := FirstNamed(b.activities, name.value);
      if found.Some? {
        var i :| 0 <= i < |b.activities| && b.activities[i] == found.value && found.value.activityName == name
                 && forall j :: 0 <= j < i ==> b.activities[j].activityName != name;
        assert found.value in b.activities;
      }
    }
  }

  datatype PipelineAddress = PipelineAddress(factory: BuildConfig.AdfRef, name: string)

  datatype RunRecord = RunRecord(pipeline: PipelineAddress, parameters: map<string, string>, started: nat)

  /** The data factory service's pipelines and their runs. Run ids come
      from `runIdOf`, one per run created, never empty and never repeated. */
  class PipelineService {
    const pipelines: map<PipelineAddress, Behaviour>
    const runIdOf: nat -> string
    var runs: map<string, RunRecord>
    var issued: nat
    var clock: nat

    ghost predicate Valid()
      reads this
    {
      && (forall p :: p in pipelines ==> Finishes(pipelines[p]))
      && (forall i: nat, j: nat :: runIdOf(i) == runIdOf(j) ==> i == j)
      && (forall i: nat :: runIdOf(i) != "")
      && runs.Keys == (set k: nat | k < issued :: runIdOf(k))
      && forall id :: id in runs ==> runs[id].pipeline in pipelines && runs[id].started <= clock
    }

    constructor(pipelines: map<PipelineAddress, Behaviour>, runIdOf: nat -> string)
      requires forall p :: p in pipelines ==> Finishes(pipelines[p])
      requires forall i: nat, j: nat :: runIdOf(i) == runIdOf(j) ==> i == j
      requires forall i: nat :: runIdOf(i) != ""
      ensures Valid() && this.pipelines == pipelines && this.runIdOf == runIdOf
      ensures runs == map[] && issued == 0 && clock == 0
    {
      this.pipelines := pipelines;
      this.runIdOf := runIdOf;
      runs := map[];
      issued := 0;
      clock := 0;
    }


    /** `pipelines.create_run`: a pipeline the service does not have raises;
        otherwise a run starts now under the next run id. */
    method CreateRun(p: PipelineAddress, parameters: map<string, string>) returns (r: Result<string>)
      requires Valid()
      modifies this
      ensures Valid() && clock == old(clock)
      ensures r.Ok? <==> p in pipelines
      ensures r.Err? ==> r.error == ServiceError && runs == old(runs) && issued == old(issued)
      ensures r.Ok? ==> r.value != "" && r.value !in old(runs)
                        && runs == old(runs)[r.value := RunRecord(p, parameters, clock)]
    {
      if p !in pipelines {
        return Err(ServiceError);
      }
      var id := runIdOf(issued);
      assert id !in runs;
      runs := runs[id := RunRecord(p, parameters, clock)];
      issued := issued + 1;
      assert runs.Keys == (set k: nat | k < issued :: runIdOf(k));
      r := Ok(id);
    }

    /** `time.sleep`: every run moves on by one status. */
    method Wait()
      requires Valid()
      modifies this
      ensures Valid() && runs == old(runs) && issued == old(issued) && clock == old(clock) + 1
    {
      clock := clock + 1;
    }
  }

  /** `ADFPipeline`: the pipelines of one factory and the run it last
      created. */
  class ADFPipeline {
    const service: PipelineService
    const factory: BuildConfig.AdfRef
    var runId: Option<string>

    constructor(service: PipelineService, factory: BuildConfig.AdfRef)
      ensures this.service == service && this.factory == factory && runId.None?
    {
      this.service := service;
      this.factory := factory;
      runId := None;
    }

    /** `not self.run_id`: no run id, or an empty one. */
    predicate NoRun()
      reads this
    {
      runId.None? || runId.value == ""
    }

    /** `create_run`: missing parameters are sent as an empty mapping, and
        the new run's id is remembered; a failed call keeps the old one. */
    method CreateRun(pipelineName: string, parameters: Option<map<string, string>>) returns (r: Result<string>)
      requires service.Valid()
      modifies this, service
      ensures service.Valid() && service.clock == old(service.clock)
      ensures var p := PipelineAddress(factory, pipelineName);
        r.Ok? <==> p in service.pipelines
      ensures r.Err? ==> r.error == ServiceError && runId == old(runId) && service.runs == old(service.runs)
      ensures r.Ok? ==>
        && runId == Some(r.value) && !NoRun() && r.value !in old(service.runs)
        && service.runs == old(service.runs)[r.value := RunRecord(PipelineAddress(factory, pipelineName),
                                                                   parameters.GetOr(map[]), service.clock)]
    {
      var created := service.CreateRun(PipelineAddress(factory, pipelineName), parameters.GetOr(map[]));
      if created.Err? {
        return created;
      }
      runId := Some(created.value);
      r := created;
    }

    /** `check_status`: raises ValueError when there is no run, and
        otherwise reports the run's current status. */
    method CheckStatus() returns (r: Result<Option<string>>)
      requires service.Valid()
      ensures NoRun() ==> r == Err(ValueError)
      ensures !NoRun() && runId.value !in service.runs ==> r == Err(ServiceError)
      ensures !NoRun() && runId.value in service.runs ==>
        var run := service.runs[runId.value];
        r == Ok(StatusAt(service.pipelines[run.pipeline], service.clock - run.started))
    {
      if NoRun() {
        return Err(ValueError);
      }
      var id := runId.value;
      if id !in service.runs {
        return Err(ServiceError);
      }
      var run := service.runs[id];
      var b := service.pipelines[run.pipeline];
      r := Ok(StatusAt(b, service.clock - run.started));
    }

    /** `fetch_activity`: raises ValueError when there is no run, and
        otherwise looks the activity up among the run's activity runs. A
        status other than "Succeeded" only prints a warning. */
    method FetchActivity(name: Option<string>) returns (r: Result<Fetched>)
      requires service.Valid()
      ensures NoRun() ==> r == Err(ValueError)
      ensures !NoRun() && runId.value !in service.runs ==> r == Err(ServiceError)
      ensures !NoRun() && runId.value in service.runs ==>
        r == Ok(Fetch(service.pipelines[service.runs[runId.value].pipeline].activities, name))
    {
      var status :- CheckStatus();
      var run := service.runs[runId.value];
      var activities := service.pipelines[run.pipeline].activities;
      if name.None? {
        return Ok(AllActivities(activities));
      }
      var i := 0;
      while i < |activities|
        invariant 0 <= i <= |activities|
        invariant FirstNamed(activities[i..], name.value) == FirstNamed(activities, name.value)
      {
        if activities[i].activityName == name {
          return Ok(Found(Some(activities[i])));
        }
        assert activities[i..][1..] == activities[i + 1..];
        i := i + 1;
      }
      r := Ok(Found(None));
    }

    /** The polling loop of `run_and_fetch`: the run's status is read, with
        a wait between reads, until it is terminal; the status it stops at
        is the first terminal one the pipeline reports. */
    method AwaitTerminal(ghost p: PipelineAddress) returns (status: Option<string>)
      requires service.Valid() && !NoRun() && runId.value in service.runs
      requires service.runs[runId.value].pipeline == p && service.runs[runId.value].started == service.clock
      modifies service
      ensures service.Valid() && service.runs == old(service.runs)
      ensures status == FinalStatus(service.pipelines[p])
    {
      ghost var b := service.pipelines[p];
      ghost var started := service.clock;
      ghost var k: nat := 0;
      var read := CheckStatus();
      while !Terminal(read.value)
        invariant service.Valid() && service.runs == old(service.runs)
        invariant service.clock == started + k && k <= FirstTerminal(b.statuses)
        invariant read == Ok(b.statuses[k])
        decreases FirstTerminal(b.statuses) - k
      {
        read := PollAgain(b, k);
        k := k + 1;
      }
      status := read.value;
    }

    /** One turn of the polling loop: a wait, then a read, which reports
        the next status of the run. */
    method PollAgain(ghost b: Behaviour, ghost k: nat) returns (read: Result<Option<string>>)
      requires service.Valid() && !NoRun() && runId.value in service.runs
      requires b == service.pipelines[service.runs[runId.value].pipeline]
      requires service.clock == service.runs[runId.value].started + k
      requires Finishes(b) && k <= FirstTerminal(b.statuses) && !Terminal(b.statuses[k])
      modifies service
      ensures service.Valid() && service.runs == old(service.runs) && service.clock == old(service.clock) + 1
      ensures k + 1 <= FirstTerminal(b.statuses) && read == Ok(b.statuses[k + 1])
    {
      NotYetTerminal(b, k);
      ghost var run := service.runs[runId.value];
      service.Wait();
      read := CheckStatus();
      assert service.runs[runId.value] == run && service.clock - run.started == k + 1;
    }

    /** `run_and_fetch`: a run is created, its status read with a wait
        between reads until it is terminal, and the result is what
        `RunResult` says for the pipeline's behaviour. */
    method RunAndFetch(pipelineName: string, activityName: Option<string>, parameters: Option<map<string, string>>)
      returns (r: Result<Json>)
      requires service.Valid()
      modifies this, service
      ensures service.Valid()
      ensures var p := PipelineAddress(factory, pipelineName);
        && (p !in service.pipelines ==>
              r == Err(ServiceError) && runId == old(runId) && service.runs == old(service.runs))
        && (p in service.pipelines ==>
              && runId.Some? && runId.value !in old(service.runs)
              && service.runs == old(service.runs)[runId.value := RunRecord(p, parameters.GetOr(map[]), old(service.clock))]
              && r == RunResult(service.pipelines[p], activityName))
    {
      var p := PipelineAddress(factory, pipelineName);
      var created :- CreateRun(pipelineName, parameters);
      var status := AwaitTerminal(p);
      if status == Some("Succeeded") {
        var fetched := FetchActivity(activityName);
        r := ResultSetsOf(fetched.value);
      } else {
        r := Err(PipelineFailed);
      }
    }
  }
}
