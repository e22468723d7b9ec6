/** Triggers of one data factory. The factory keeps each trigger's type,
    runtime state and start time under its name, and lists the triggers in
    a fixed order; a trigger that is deleted and created again goes to the
    end of that order. Start and stop requests are waited on, so the state
    read afterwards is the state asked for. */
module Triggers {
  import opened Common

  const TumblingWindow: string := "TumblingWindowTrigger"
  const ValidTriggerTypes: set<string> := {"TumblingWindowTrigger", "ScheduleTrigger"}

  /** One trigger as the factory keeps it; start times are whole seconds. */
  datatype TriggerProps = TriggerProps(ttype: string, state: string, startTime: Option<int>)

  /** One item of a trigger listing. */
  datatype ListedTrigger = ListedTrigger(name: string, props: TriggerProps)

  /** A type argument counts only when it is given and not empty. */
  predicate Truthy(s: Option<string>) {
    s.Some? && s.value != ""
  }

  /** The factory's listing, in its order. */
  function EntriesOf(order: seq<string>, props: map<string, TriggerProps>): (r: seq<ListedTrigger>)
    requires forall n :: n in order ==> n in props
    ensures |r| == |order|
    ensures forall i :: 0 <= i < |r| ==> r[i] == ListedTrigger(order[i], props[order[i]])
  {
    if order == [] then [] else [ListedTrigger(order[0], props[order[0]])] + EntriesOf(order[1..], props)
  }

  function NamesOfListed(s: seq<ListedTrigger>): (r: seq<string>)
    ensures |r| == |s| && forall i :: 0 <= i < |s| ==> r[i] == s[i].name
  {
    if s == [] then [] else [s[0].name] + NamesOfListed(s[1..])
  }

  /** The names a listing keeps are the factory's names whose trigger
      passes the filter. */
  lemma ListedNames(order: seq<string>, props: map<string, TriggerProps>, p: ListedTrigger -> bool)
    requires forall n :: n in order ==> n in props
    ensures forall n :: n in NamesOfListed(Filter(EntriesOf(order, props), p)) <==>
      n in order && p(ListedTrigger(n, props[n]))
  {
    var es := EntriesOf(order, props);
    var f := Filter(es, p);
    var ns := NamesOfListed(f);
    FilterMembers(es, p);
    forall n ensures n in ns <==> n in order && p(ListedTrigger(n, props[n])) {
      if n in ns {
        var i :| 0 <= i < |ns| && ns[i] == n;
        assert f[i] in f;
        var j :| 0 <= j < |es| && es[j] == f[i];
      }
      if n in order && p(ListedTrigger(n, props[n])) {
        var j :| 0 <= j < |order| && order[j] == n;
        assert es[j] in es;
        assert es[j] in f;
        var i :| 0 <= i < |f| && f[i] == es[j];
        assert ns[i] == n;
      }
    }
  }

  function Kept(triggerType: Option<string>): ListedTrigger -> bool {
    (t: ListedTrigger) => if Truthy(triggerType) then t.props.ttype == triggerType.value else t.props.ttype in ValidTriggerTypes
  }

  /** `list_triggers` on a listing: a given type outside the two valid
      ones raises ValueError before anything is listed; with a type only
      that type is kept, without one only the two valid types are kept,
      and the listing order is preserved. */
  function ListTriggers(listing: seq<ListedTrigger>, triggerType: Option<string>): (r: Result<seq<ListedTrigger>>)
    ensures r.Err? <==> Truthy(triggerType) && triggerType.value !in ValidTriggerTypes
    ensures r.Err? ==> r.error == ValueError
    ensures r.Ok? ==> forall t :: t in r.value <==>
      && t in listing
      && t.props.ttype in ValidTriggerTypes
      && (Truthy(triggerType) ==> t.props.ttype == triggerType.value)
  {
    if Truthy(triggerType) && triggerType.value !in ValidTriggerTypes then Err(ValueError)
    else
      var keep := Kept(if Truthy(triggerType) then triggerType else None);
      FilterMembers(listing, keep);
      Ok(Filter(listing, keep))
  }

  function OfType(ttype: string): ListedTrigger -> bool {
    (t: ListedTrigger) => t.props.ttype == ttype
  }

  /** Listing one valid type is the default listing narrowed to that type,
      in the same order. */
  lemma ListingByTypeNarrowsDefault(listing: seq<ListedTrigger>, ttype: string)
    requires ttype in ValidTriggerTypes
    ensures ListTriggers(listing, Some(ttype)).Ok?
    ensures ListTriggers(listing, Some(ttype)).value == Filter(ListTriggers(listing, None).value, OfType(ttype))
  {
    FilterNarrows(listing, ttype);
  }

  lemma {:induction false} FilterNarrows(listing: seq<ListedTrigger>, ttype: string)
    requires ttype in ValidTriggerTypes
    ensures Filter(listing, Kept(Some(ttype))) == Filter(Filter(listing, Kept(None)), OfType(ttype))
  {
    if listing != [] {
      var h := listing[0];
      FilterNarrows(listing[1..], ttype);
      var rest := Filter(listing[1..], Kept(None));
      if Kept(None)(h) {
        assert Filter(listing, Kept(None)) == [h] + rest;
        assert ([h] + rest)[0] == h && ([h] + rest)[1..] == rest;
      } else {
        assert Filter(listing, Kept(None)) == [] + rest == rest;
      }
    }
  }

  /** An empty type is no type. */
  lemma EmptyTypeIsDefault(listing: seq<ListedTrigger>)
    ensures ListTriggers(listing, Some("")) == ListTriggers(listing, None)
  {
  }

  /** The state test of `manage_trigger`: only a started trigger is
      stopped and only a stopped one is started. */
  predicate Fires(state: string, action: string) {
    (action == "stop" && state == "Started") || (action == "start" && state == "Stopped")
  }

  function Target(action: string): string {
    if action == "stop" then "Stopped" else "Started"
  }

  /** One trigger after a successful `manage_trigger`. */
  function Managed(p: TriggerProps, action: string): (r: TriggerProps)
    ensures r.ttype == p.ttype && r.startTime == p.startTime
    ensures !Fires(r.state, action)
    ensures r.state != p.state ==> Fires(p.state, action) && r.state == Target(action)
  {
    if Fires(p.state, action) then p.(state := Target(action)) else p
  }

  /** The triggers after managing every name of `ns` in turn. */
  function ApplyAll(m: map<string, TriggerProps>, ns: seq<string>, action: string): map<string, TriggerProps>
    decreases |ns|
  {
    if ns == [] then m
    else ApplyAll(if ns[0] in m then m[ns[0] := Managed(m[ns[0]], action)] else m, ns[1..], action)
  }

  /** `manage_all_triggers` over the names `ns`: the triggers afterwards,
      and whether every call went through. A missing trigger, or a start or
      stop the service refuses, ends the run with the earlier triggers
      already handled. */
  function Run(m: map<string, TriggerProps>, ns: seq<string>, action: string, refused: set<string>)
    : (map<string, TriggerProps>, bool)
    decreases |ns|
  {
    if ns == [] then (m, true)
    else if ns[0] !in m then (m, false)
    else if Fires(m[ns[0]].state, action) && ns[0] in refused then (m, false)
    else Run(m[ns[0] := Managed(m[ns[0]], action)], ns[1..], action, refused)
  }

  /** One step of a run, seen from position `i`. */
  lemma RunStep(m: map<string, TriggerProps>, ns: seq<string>, i: nat, action: string, refused: set<string>)
    requires i < |ns|
    ensures Run(m, ns[i..], action, refused) ==
      if ns[i] !in m then (m, false)
      else if Fires(m[ns[i]].state, action) && ns[i] in refused then (m, false)
      else Run(m[ns[i] := Managed(m[ns[i]], action)], ns[i + 1..], action, refused)
  {
    assert ns[i..][0] == ns[i] && ns[i..][1..] == ns[i + 1..];
  }

  /** A run over names that all exist, against a service that refuses
      nothing, goes through. */
  lemma {:induction false} RunWithoutRefusals(m: map<string, TriggerProps>, ns: seq<string>, action: string)
    requires forall n :: n in ns ==> n in m
    ensures Run(m, ns, action, {}).1
    decreases |ns|
  {
    if ns != [] {
      var m' := m[ns[0] := Managed(m[ns[0]], action)];
      forall n | n in ns[1..] ensures n in m' {
        assert n in ns;
      }
      RunWithoutRefusals(m', ns[1..], action);
    }
  }

  /** A run that goes through has managed every name. */
  lemma {:induction false} CompleteRunAppliesAll(m: map<string, TriggerProps>, ns: seq<string>, action: string, refused: set<string>)
    requires Run(m, ns, action, refused).1
    ensures Run(m, ns, action, refused).0 == ApplyAll(m, ns, action)
    decreases |ns|
  {
    if ns != [] {
      CompleteRunAppliesAll(m[ns[0] := Managed(m[ns[0]], action)], ns[1..], action, refused);
    }
  }

  /** Managing a list of names touches exactly the named triggers, each as
      one `manage_trigger` would, however often a name repeats. */
  lemma {:induction false} ApplyAllAt(m: map<string, TriggerProps>, ns: seq<string>, action: string)
    ensures ApplyAll(m, ns, action).Keys == m.Keys
    ensures forall k :: k in m ==>
      ApplyAll(m, ns, action)[k] == if k in ns then Managed(m[k], action) else m[k]
    decreases |ns|
  {
    if ns != [] {
      var m' := if ns[0] in m then m[ns[0] := Managed(m[ns[0]], action)] else m;
      ApplyAllAt(m', ns[1..], action);
      forall k | k in m
        ensures ApplyAll(m, ns, action)[k] == if k in ns then Managed(m[k], action) else m[k]
      {
        if k == ns[0] {
          ManagedIdempotent(m[k], action);
        } else {
          assert k in ns <==> k in ns[1..];
        }
      }
    }
  }

  lemma ManagedIdempotent(p: TriggerProps, action: string)
    ensures Managed(Managed(p, action), action) == Managed(p, action)
  {
  }

  /** A run in which no listed trigger needs a change makes no call that
      can fail and changes nothing. */
  lemma {:induction false} QuietRun(m: map<string, TriggerProps>, ns: seq<string>, action: string, refused: set<string>)
    requires forall n :: n in ns ==> n in m && !Fires(m[n].state, action)
    ensures Run(m, ns, action, refused) == (m, true)
    decreases |ns|
  {
    if ns != [] {
      assert m[ns[0] := Managed(m[ns[0]], action)] == m;
      QuietRun(m, ns[1..], action, refused);
    }
  }

  /** Managing all triggers a second time, once a run has gone through,
      changes nothing and cannot fail, whatever the service would refuse. */
  lemma ManageAllIdempotent(m: map<string, TriggerProps>, ns: seq<string>, action: string, refused: set<string>, again: set<string>)
    requires Run(m, ns, action, refused).1
    ensures Run(Run(m, ns, action, refused).0, ns, action, again) == (Run(m, ns, action, refused).0, true)
  {
    CompleteRunAppliesAll(m, ns, action, refused);
    RunKeepsNames(m, ns, action, refused);
    ApplyAllAt(m, ns, action);
    QuietRun(ApplyAll(m, ns, action), ns, action, again);
  }

  /** A run that goes through has found every name. */
  lemma {:induction false} RunKeepsNames(m: map<string, TriggerProps>, ns: seq<string>, action: string, refused: set<string>)
    requires Run(m, ns, action, refused).1
    ensures forall n :: n in ns ==> n in m
    decreases |ns|
  {
    if ns != [] {
      assert ns[0] in m;
      RunKeepsNames(m[ns[0] := Managed(m[ns[0]], action)], ns[1..], action, refused);
      forall n | n in ns ensures n in m {
        if n != ns[0] {
          assert n in ns[1..];
        }
      }
    }
  }

  /** After a complete stop no listed trigger is running; after a complete
      start no listed trigger is stopped. */
  lemma CompleteRunReachesTarget(m: map<string, TriggerProps>, ns: seq<string>, action: string, refused: set<string>)
    requires Run(m, ns, action, refused).1
    ensures forall n :: n in ns ==> n in Run(m, ns, action, refused).0
    ensures action == "stop" ==> forall n :: n in ns ==> Run(m, ns, action, refused).0[n].state != "Started"
    ensures action == "start" ==> forall n :: n in ns ==> Run(m, ns, action, refused).0[n].state != "Stopped"
  {
    CompleteRunAppliesAll(m, ns, action, refused);
    RunKeepsNames(m, ns, action, refused);
    ApplyAllAt(m, ns, action);
  }

  function NotNamed(name: string): string -> bool {
    (n: string) => n != name
  }

  /** The listing order after deleting `name` and creating it again. */
  function MovedLast(order: seq<string>, name: string): seq<string> {
    Filter(order, NotNamed(name)) + [name]
  }

  /** The trigger as the create of a reset leaves it: same type, the new
      start time, and stopped, as a newly created trigger is. */
  function Created(p: TriggerProps, start: int): TriggerProps {
    p.(state := "Stopped", startTime := Some(start))
  }

  /** The trigger a successful reset leaves: same type, the new start
      time, running again if it was running and otherwise stopped, as a
      newly created trigger is. */
  function Recreated(p: TriggerProps, start: int): TriggerProps {
    p.(state := if p.state == "Started" then "Started" else "Stopped", startTime := Some(start))
  }

  /** Resetting twice to the same start time ends where resetting once
      does, in the same listing position. */
  lemma ResetTwiceSame(order: seq<string>, name: string, p: TriggerProps, start: int)
    ensures MovedLast(MovedLast(order, name), name) == MovedLast(order, name)
    ensures Recreated(Recreated(p, start), start) == Recreated(p, start)
  {
    FilterSnoc(Filter(order, NotNamed(name)), name, NotNamed(name));
    FilterTwice(order, NotNamed(name));
  }

  lemma {:induction false} FilterTwice<T(!new)>(s: seq<T>, p: T -> bool)
    ensures Filter(Filter(s, p), p) == Filter(s, p)
  {
    if s != [] {
      FilterTwice(s[1..], p);
      var rest := Filter(s[1..], p);
      if p(s[0]) {
        assert Filter(s, p) == [s[0]] + rest;
        assert ([s[0]] + rest)[0] == s[0] && ([s[0]] + rest)[1..] == rest;
      } else {
        assert Filter(s, p) == [] + rest == rest;
      }
    }
  }

  /** Moving a trigger to the end keeps the factory's set of names and
      keeps them unique. */
  lemma MovedLastKeepsNames(order: seq<string>, name: string)
    requires Distinct(order)
    ensures forall n :: n in MovedLast(order, name) <==> n in order || n == name
    ensures Distinct(MovedLast(order, name))
  {
    var f := Filter(order, NotNamed(name));
    FilterDistinct(order, NotNamed(name));
    FilterMembers(order, NotNamed(name));
    forall i, j | 0 <= i < j < |f + [name]| ensures (f + [name])[i] != (f + [name])[j] {
      if j == |f| {
        assert f[i] in f;
      }
    }
  }

  /** Writing a trigger's properties twice, or writing them and then
      deleting the trigger, leaves only the last step's effect. */
  lemma Restamped(m: map<string, TriggerProps>, k: string, a: TriggerProps, b: TriggerProps)
    requires k in m
    ensures m[k := m[k]] == m
    ensures m[k := a] - {k} == m - {k}
    ensures m[k := a][k := b] == m[k := b]
  {
  }

  lemma ReplaceAfterRemove(m: map<string, TriggerProps>, k: string, v: TriggerProps)
    ensures (m - {k})[k := v] == m[k := v]
  {
  }

  /** The factory's trigger store. The service's refusals are fixed per
      trigger name: a start, a stop, a delete or a create of a name in the
      matching set fails. */
  class Factory {
    var order: seq<string>
    var props: map<string, TriggerProps>
    const refusedStarts: set<string>
    const refusedStops: set<string>
    const refusedDeletes: set<string>
    const refusedCreates: set<string>

    ghost predicate Valid()
      reads this
    {
      Distinct(order) && forall n :: n in props <==> n in order
    }

    constructor(order: seq<string>, props: map<string, TriggerProps>,
                refusedStarts: set<string>, refusedStops: set<string>,
                refusedDeletes: set<string>, refusedCreates: set<string>)
      requires Distinct(order) && forall n :: n in props <==> n in order
      ensures Valid() && this.order == order && this.props == props
      ensures this.refusedStarts == refusedStarts && this.refusedStops == refusedStops
      ensures this.refusedDeletes == refusedDeletes && this.refusedCreates == refusedCreates
    {
      this.order := order;
      this.props := props;
      this.refusedStarts := refusedStarts;
      this.refusedStops := refusedStops;
      this.refusedDeletes := refusedDeletes;
      this.refusedCreates := refusedCreates;
    }

    /** Some start, stop, delete or create is refused. */
    predicate Refuses()
      reads this
    {
      refusedStarts != {} || refusedStops != {} || refusedDeletes != {} || refusedCreates != {}
    }

    /** The names whose start ("start") or stop (any other action) the
        service refuses. */
    function RefusedFor(action: string): set<string> {
      if action == "start" then refusedStarts else refusedStops
    }

    function Listing(): seq<ListedTrigger>
      reads this
      requires Valid()
    {
      EntriesOf(order, props)
    }

    /** `begin_start` (to "Started") or `begin_stop` (to "Stopped"), waited on. */
    method SetState(name: string, state: string) returns (ok: bool)
      requires Valid() && name in props
      modifies this
      ensures Valid() && order == old(order)
      ensures ok <==> name !in (if state == "Started" then refusedStarts else refusedStops)
      ensures props == if ok then old(props)[name := old(props)[name].(state := state)] else old(props)
    {
      ok := name !in (if state == "Started" then refusedStarts else refusedStops);
      if ok {
        props := props[name := props[name].(state := state)];
      }
    }

    /** `triggers.delete`; deleting a missing trigger succeeds. */
    method Delete(name: string) returns (ok: bool)
      requires Valid()
      modifies this
      ensures Valid()
      ensures ok <==> name !in refusedDeletes
      ensures ok ==> props == old(props) - {name} && order == Filter(old(order), NotNamed(name))
      ensures !ok ==> props == old(props) && order == old(order)
    {
      ok := name !in refusedDeletes;
      if ok {
        FilterDistinct(order, NotNamed(name));
        FilterMembers(order, NotNamed(name));
        props := props - {name};
        order := Filter(order, NotNamed(name));
      }
    }

    /** `triggers.create_or_update`: an existing trigger is replaced where
      it stands, a new one is listed last. */
    method Create(name: string, p: TriggerProps) returns (ok: bool)
      requires Valid()
      modifies this
      ensures Valid()
      ensures ok <==> name !in refusedCreates
      ensures ok ==> props == old(props)[name := p] && order == (if name in old(props) then old(order) else old(order) + [name])
      ensures !ok ==> props == old(props) && order == old(order)
    {
      ok := name !in refusedCreates;
      if ok {
        if name !in props {
          forall i, j | 0 <= i < j < |order + [name]| ensures (order + [name])[i] != (order + [name])[j] {
            if j == |order| {
              assert order[i] in order;
            }
          }
          order := order + [name];
        }
        props := props[name := p];
      }
    }
  }

  /** `ADFTrigger`: the trigger operations of one factory. */
  class ADFTrigger {
    const factory: Factory

    constructor(factory: Factory)
      ensures this.factory == factory
    {
      this.factory := factory;
    }

    /** `manage_trigger`: the trigger is read first (a missing one raises);
        a start or stop is issued only when the state calls for it. */
    method ManageTrigger(name: string, action: string) returns (r: Result<()>)
      requires factory.Valid()
      modifies factory
      ensures factory.Valid() && factory.order == old(factory.order)
      ensures r.Err? ==> r.error == ServiceError && factory.props == old(factory.props)
      ensures r.Ok? <==>
        name in old(factory.props) && !(Fires(old(factory.props)[name].state, action) && name in factory.RefusedFor(action))
      ensures r.Ok? ==> factory.props == old(factory.props)[name := Managed(old(factory.props)[name], action)]
    {
      if name !in factory.props {
        return Err(ServiceError);
      }
      var state := factory.props[name].state;
      if action == "stop" && state == "Started" {
        var ok := factory.SetState(name, "Stopped");
        if !ok {
          return Err(ServiceError);
        }
      } else if action == "start" && state == "Stopped" {
        var ok := factory.SetState(name, "Started");
        if !ok {
          return Err(ServiceError);
        }
      } else {
        assert old(factory.props)[name := Managed(old(factory.props)[name], action)] == old(factory.props);
      }
      r := Ok(());
    }

    /** `manage_all_triggers`: manages every trigger of the default
        listing in its order; the first failure raises. */
    method ManageAllTriggers(action: string) returns (r: Result<()>)
      requires factory.Valid()
      modifies factory
      ensures factory.Valid() && factory.order == old(factory.order)
      ensures r.Err? ==> r.error == ServiceError
      ensures (factory.props, r.Ok?) == Run(old(factory.props),
        NamesOfListed(ListTriggers(old(factory.Listing()), None).value), action, factory.RefusedFor(action))
    {
      var listed := ListTriggers(factory.Listing(), None);
      var ns := NamesOfListed(listed.value);
      var i := 0;
      while i < |ns|
        invariant 0 <= i <= |ns|
        invariant factory.Valid() && factory.order == old(factory.order)
        invariant Run(old(factory.props), ns, action, factory.RefusedFor(action))
          == Run(factory.props, ns[i..], action, factory.RefusedFor(action))
      {
        ghost var before := factory.props;
        RunStep(before, ns, i, action, factory.RefusedFor(action));
        var res := ManageTrigger(ns[i], action);
        if res.Err? {
          assert factory.props == before;
          return Err(ServiceError);
        }
        assert factory.props == before[ns[i] := Managed(before[ns[i]], action)];
        i := i + 1;
      }
      assert ns[i..] == [];
      r := Ok(());
    }

    /** `reset_tumbling_with_start_time`. A start time that does not parse
        (`None`) raises ValueError before the trigger is read, and so does a
        trigger of another type after it. A running trigger is stopped;
        the trigger is deleted, created again (stopped) with the new start
        time, and started again if it was running. A refused step raises and
        leaves what the earlier steps did: a refused create loses the
        trigger, and a refused restart leaves it recreated but stopped. */
    method ResetTumbling(name: string, start: Option<int>) returns (r: Result<()>)
      requires factory.Valid()
      modifies factory
      ensures factory.Valid()
      ensures start.None? ==> r == Err(ValueError) && factory.props == old(factory.props) && factory.order == old(factory.order)
      ensures start.Some? && name !in old(factory.props) ==>
        r == Err(ServiceError) && factory.props == old(factory.props) && factory.order == old(factory.order)
      ensures start.Some? && name in old(factory.props) && old(factory.props)[name].ttype != TumblingWindow ==>
        r == Err(ValueError) && factory.props == old(factory.props) && factory.order == old(factory.order)
      ensures start.Some? && name in old(factory.props) && old(factory.props)[name].ttype == TumblingWindow ==>
        var p := old(factory.props)[name];
        p.state == "Started" && name in factory.refusedStops ==>
          r.Err? && factory.props == old(factory.props) && factory.order == old(factory.order)
      ensures start.Some? && name in old(factory.props) && old(factory.props)[name].ttype == TumblingWindow ==>
        var p := old(factory.props)[name];
        !(p.state == "Started" && name in factory.refusedStops) && name in factory.refusedDeletes ==>
          && r.Err?
          && factory.props == old(factory.props)[name := if p.state == "Started" then p.(state := "Stopped") else p]
          && factory.order == old(factory.order)
      ensures start.Some? && name in old(factory.props) && old(factory.props)[name].ttype == TumblingWindow ==>
        var p := old(factory.props)[name];
        !(p.state == "Started" && name in factory.refusedStops) && name !in factory.refusedDeletes && name in factory.refusedCreates ==>
          r.Err? && factory.props == old(factory.props) - {name} && factory.order == Filter(old(factory.order), NotNamed(name))
      ensures start.Some? && name in old(factory.props) && old(factory.props)[name].ttype == TumblingWindow ==>
        var p := old(factory.props)[name];
        !(p.state == "Started" && name in factory.refusedStops) && name !in factory.refusedDeletes && name !in factory.refusedCreates ==>
          && (r.Ok? <==> !(p.state == "Started" && name in factory.refusedStarts))
          && factory.props == old(factory.props)[name := if r.Ok? then Recreated(p, start.value) else Created(p, start.value)]
          && factory.order == MovedLast(old(factory.order), name)
    {
      if start.None? {
        return Err(ValueError);
      }
      if name !in factory.props {
        return Err(ServiceError);
      }
      var p := factory.props[name];
      if p.ttype != TumblingWindow {
        return Err(ValueError);
      }
      r := Recreate(name, start.value);
    }

    /** The part of `reset_tumbling_with_start_time` after the checks:
        stop if running, delete, create with the new start time, start
        again if it was running. */
    method Recreate(name: string, start: int) returns (r: Result<()>)
      requires factory.Valid()
      requires name in factory.props && factory.props[name].ttype == TumblingWindow
      modifies factory
      ensures factory.Valid()
      ensures
        var p := old(factory.props)[name];
        p.state == "Started" && name in factory.refusedStops ==>
          r.Err? && factory.props == old(factory.props) && factory.order == old(factory.order)
      ensures
        var p := old(factory.props)[name];
        !(p.state == "Started" && name in factory.refusedStops) && name in factory.refusedDeletes ==>
          && r.Err?
          && factory.props == old(factory.props)[name := if p.state == "Started" then p.(state := "Stopped") else p]
          && factory.order == old(factory.order)
      ensures
        var p := old(factory.props)[name];
        !(p.state == "Started" && name in factory.refusedStops) && name !in factory.refusedDeletes && name in factory.refusedCreates ==>
          r.Err? && factory.props == old(factory.props) - {name} && factory.order == Filter(old(factory.order), NotNamed(name))
      ensures
        var p := old(factory.props)[name];
        !(p.state == "Started" && name in factory.refusedStops) && name !in factory.refusedDeletes && name !in factory.refusedCreates ==>
          && (r.Ok? <==> !(p.state == "Started" && name in factory.refusedStarts))
          && factory.props == old(factory.props)[name := if r.Ok? then Recreated(p, start) else Created(p, start)]
          && factory.order == MovedLast(old(factory.order), name)
    {
      var p := factory.props[name];
      var running := p.state == "Started";
      ghost var props0 := factory.props;
      ghost var stopped := if running then p.(state := "Stopped") else p;
      if running {
        r := ManageTrigger(name, "stop");
        if r.Err? {
          return;
        }
      }
      Restamped(props0, name, stopped, Recreated(p, start));
      Restamped(props0, name, stopped, Created(p, start));
      r := Replace(name, p, start, running);
    }

    /** The delete, the create with the new start time (stopped), and the
        start of a trigger that was running, on a trigger already stopped. */
    method Replace(name: string, p: TriggerProps, start: int, running: bool) returns (r: Result<()>)
      requires factory.Valid()
      requires running <==> p.state == "Started"
      requires name in factory.props && factory.props[name] == if running then p.(state := "Stopped") else p
      modifies factory
      ensures factory.Valid()
      ensures name in factory.refusedDeletes ==>
        r.Err? && factory.props == old(factory.props) && factory.order == old(factory.order)
      ensures name !in factory.refusedDeletes && name in factory.refusedCreates ==>
        r.Err? && factory.props == old(factory.props) - {name} && factory.order == Filter(old(factory.order), NotNamed(name))
      ensures name !in factory.refusedDeletes && name !in factory.refusedCreates ==>
        && (r.Ok? <==> !(running && name in factory.refusedStarts))
        && factory.props == old(factory.props)[name := if r.Ok? then Recreated(p, start) else Created(p, start)]
        && factory.order == MovedLast(old(factory.order), name)
    {
      ghost var props0, order0 := factory.props, factory.order;
      var ok := factory.Delete(name);
      if !ok {
        return Err(ServiceError);
      }
      r := Restore(name, p, start, running);
      if name !in factory.refusedCreates {
        ReplaceAfterRemove(props0, name, Recreated(p, start));
        ReplaceAfterRemove(props0, name, Created(p, start));
      }
    }

    /** The create with the new start time (stopped) of a trigger just
        deleted, and the start of one that was running; a refused start
        raises and leaves the trigger created but stopped. */
    method Restore(name: string, p: TriggerProps, start: int, running: bool) returns (r: Result<()>)
      requires factory.Valid()
      requires running <==> p.state == "Started"
      requires name !in factory.props
      modifies factory
      ensures factory.Valid()
      ensures name in factory.refusedCreates ==>
        r.Err? && factory.props == old(factory.props) && factory.order == old(factory.order)
      ensures name !in factory.refusedCreates ==>
        && (r.Ok? <==> !(running && name in factory.refusedStarts))
        && factory.props == old(factory.props)[name := if r.Ok? then Recreated(p, start) else Created(p, start)]
        && factory.order == old(factory.order) + [name]
    {
      var created := Created(p, start);
      var ok := factory.Create(name, created);
      if !ok {
        return Err(ServiceError);
      }
      if running {
        r := ManageTrigger(name, "start");
        if r.Err? {
          return;
        }
      }
      assert factory.props == old(factory.props)[name := Recreated(p, start)];
      r := Ok(());
    }
  }
}
