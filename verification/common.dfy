/** Shared vocabulary of the model: optional values, the exceptions the
    scripts raise or let through, configuration sections that hold one
    mapping or a list of them, and the small collection helpers the
    scripts use over and over. */
module Common {

  datatype Option<T> = None | Some(value: T) {
    function GetOr(default: T): T {
      if Some? then value else default
    }
  }

  /** The exception classes the code raises or lets through. ServiceError
      stands for any error an Azure SDK call or REST call raises. */
  datatype Error =
    | ValueError
    | KeyError
    | TypeError
    | AttributeError
    | RuntimeError
    | ServiceError
    | PipelineFailed

  /** Normal return or raised exception. */
  datatype Result<T> = Ok(value: T) | Err(error: Error) {
    predicate IsFailure() { Err? }
    function PropagateFailure<U>(): Result<U> requires Err? { Err(error) }
    function Extract(): T requires Ok? { value }
    function GetOr(default: T): T { if Ok? then value else default }
  }

  /** A configuration section holds either a single mapping or a list of
      mappings ("All" mode writes lists, a single domain writes one). */
  datatype OneOrMany<T> = One(item: T) | Many(items: seq<T>)

  /** The drivers' `get_*_configs`: `data.get(key)` is tested for being a
      list, and otherwise `[data[key]]` is taken, so a missing section raises
      KeyError, a single mapping becomes a one-element list and a list is
      used as it is. */
  function SectionAsList<T>(section: Option<OneOrMany<T>>): (r: Result<seq<T>>)
    ensures r.Err? <==> section.None?
    ensures r.Err? ==> r.error == KeyError
    ensures section.Some? && section.value.One? ==> r == Ok([section.value.item])
    ensures section.Some? && section.value.Many? ==> r == Ok(section.value.items)
  {
    match section
    case None => Err(KeyError)
    case Some(One(x)) => Ok([x])
    case Some(Many(xs)) => Ok(xs)
  }

  /** The `--dry-run` option of the driver scripts: a string that argparse
      restricts to "True" or "False" and that is "True" when not given; only
      an explicit "False" makes the run change anything. */
  function DryRunArgument(arg: Option<string>): (dryRun: Result<bool>)
    ensures dryRun.Err? <==> arg.Some? && arg.value != "True" && arg.value != "False"
    ensures dryRun.Err? ==> dryRun.error == ValueError
    ensures dryRun == Ok(false) <==> arg == Some("False")
  {
    match arg
    case None => Ok(true)
    case Some(s) => if s == "True" then Ok(true) else if s == "False" then Ok(false) else Err(ValueError)
  }

  predicate Distinct<T(==)>(s: seq<T>) {
    forall i, j :: 0 <= i < j < |s| ==> s[i] != s[j]
  }

  /** Order-preserving selection of the elements that satisfy `p`. */
  function Filter<T(!new)>(s: seq<T>, p: T -> bool): (r: seq<T>)
    ensures |r| <= |s|
  {
    if s == [] then [] else (if p(s[0]) then [s[0]] else []) + Filter(s[1..], p)
  }

  /** Selecting keeps exactly the elements that pass the test. */
  lemma {:induction false} FilterMembers<T(!new)>(s: seq<T>, p: T -> bool)
    ensures forall x :: x in Filter(s, p) <==> x in s && p(x)
  {
    if s != [] {
      FilterMembers(s[1..], p);
      assert s == [s[0]] + s[1..];
    }
  }

  /** Selecting from a list grown by one element: what a loop that appends
      the matching elements one at a time builds. */
  lemma {:induction false} FilterSnoc<T(!new)>(s: seq<T>, x: T, p: T -> bool)
    ensures Filter(s + [x], p) == Filter(s, p) + (if p(x) then [x] else [])
  {
    var tail := if p(x) then [x] else [];
    if s == [] {
      assert s + [x] == [x];
      assert Filter([x], p) == tail + Filter([], p);
    } else {
      var t, head := s + [x], if p(s[0]) then [s[0]] else [];
      assert t[0] == s[0] && t[1..] == s[1..] + [x];
      assert Filter(t, p) == head + Filter(t[1..], p);
      assert Filter(t[1..], p) == Filter(s[1..], p) + tail by { FilterSnoc(s[1..], x, p); }
      assert head + (Filter(s[1..], p) + tail) == (head + Filter(s[1..], p)) + tail;
    }
  }

  /** The same, for a loop that selects from the first `i` elements of a
      list. */
  lemma FilterPrefixStep<T(!new)>(s: seq<T>, i: nat, p: T -> bool)
    requires i < |s|
    ensures Filter(s[..i + 1], p) == Filter(s[..i], p) + (if p(s[i]) then [s[i]] else [])
  {
    assert s[..i + 1] == s[..i] + [s[i]];
    FilterSnoc(s[..i], s[i], p);
  }

  /** Two tests that agree on every element select the same elements. */
  lemma {:induction false} FilterPointwise<T(!new)>(s: seq<T>, p: T -> bool, q: T -> bool)
    requires forall x :: x in s ==> p(x) == q(x)
    ensures Filter(s, p) == Filter(s, q)
  {
    if s != [] {
      assert s[0] in s;
      assert forall x :: x in s[1..] ==> x in s;
      FilterPointwise(s[1..], p, q);
    }
  }

  /** A list without repetitions, seen from its head. */
  lemma DistinctCons<T>(x: T, t: seq<T>)
    ensures Distinct([x] + t) <==> x !in t && Distinct(t)
  {
    var s := [x] + t;
    if x !in t && Distinct(t) {
      forall i, j | 0 <= i < j < |s| ensures s[i] != s[j] {
        assert s[j] == t[j - 1];
        if i > 0 { assert s[i] == t[i - 1]; }
      }
    }
    if Distinct(s) {
      forall i, j | 0 <= i < j < |t| ensures t[i] != t[j] {
        assert t[i] == s[i + 1] && t[j] == s[j + 1];
      }
      forall k | 0 <= k < |t| ensures t[k] != x {
        assert s[0] == x && t[k] == s[k + 1] && s[0] != s[k + 1];
      }
    }
  }

  /** Selecting from a list without repetitions gives a list without
      repetitions. */
  lemma {:induction false} FilterDistinct<T(!new)>(s: seq<T>, p: T -> bool)
    requires Distinct(s)
    ensures Distinct(Filter(s, p))
  {
    if s != [] {
      assert s == [s[0]] + s[1..];
      DistinctCons(s[0], s[1..]);
      FilterDistinct(s[1..], p);
      var rest := Filter(s[1..], p);
      if p(s[0]) {
        FilterMembers(s[1..], p);
        DistinctCons(s[0], rest);
      } else {
        assert [] + rest == rest;
      }
    }
  }

  function LowerChar(c: char): char {
    if 'A' <= c <= 'Z' then (c as int + 32) as char else c
  }

  /** `str.lower()` on ASCII text. */
  function Lower(s: string): (r: string)
    ensures |r| == |s|
    ensures forall i :: 0 <= i < |s| ==> r[i] == LowerChar(s[i])
  {
    seq(|s|, i requires 0 <= i < |s| => LowerChar(s[i]))
  }

  /** The summary loop of the drivers: every entry of the results dictionary
      goes to exactly one of the two name lists, by its status. */
  method Summarize<K(==), V>(results: map<K, V>, succeeded: V -> bool)
    returns (successful: seq<K>, failed: seq<K>)
    ensures |successful| + |failed| == |results|
    ensures forall k :: k in successful <==> k in results && succeeded(results[k])
    ensures forall k :: k in failed <==> k in results && !succeeded(results[k])
    ensures Distinct(successful) && Distinct(failed)
  {
    successful, failed := [], [];
    var remaining := results.Keys;
    while remaining != {}
      invariant remaining <= results.Keys
      invariant forall k :: k in successful <==> k in results && k !in remaining && succeeded(results[k])
      invariant forall k :: k in failed <==> k in results && k !in remaining && !succeeded(results[k])
      invariant Distinct(successful) && Distinct(failed)
      invariant |successful| + |failed| + |remaining| == |results|
      decreases remaining
    {
      var k :| k in remaining;
      if succeeded(results[k]) {
        successful := successful + [k];
      } else {
        failed := failed + [k];
      }
      remaining := remaining - {k};
    }
  }
}
