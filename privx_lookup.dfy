/** The lookup plugin `privx_lookup`: it validates the connection settings, then calls
    the API function named by each term and collects the `data` of each call that
    returns. The API object is a map from attribute names to what they are. */
module PrivxLookup {
  import opened Py
  import PrivxUtils

  /** `REQUIRED_CONFIG_KEYS` */
  const RequiredConfigKeys: seq<string> := [
    "hostname", "hostport", "ca_cert",
    "oauth_client_id", "oauth_client_secret",
    "api_client_id", "api_client_secret"
  ]

  /** A value `key in config` accepts without raising: a dict, a string or a list. */
  predicate IsContainer(v: Value) {
    v.Dict? || v.Str? || v.List?
  }

  /** `[key for key in keys if key not in config]` */
  function MissingKeys(keys: seq<string>, config: Value): (r: seq<string>)
    requires IsContainer(config)
    ensures forall k :: k in r <==> k in keys && Contains(config, k) == Some(false)
    ensures IsSubsequence(r, keys)
    ensures |r| <= |keys|
  {
    if keys == [] then []
    else if Contains(config, keys[0]) == Some(false) then [keys[0]] + MissingKeys(keys[1..], config)
    else MissingKeys(keys[1..], config)
  }

  /** `validate_config`: None when the membership test raises (a config that is None, a
      number or a boolean). */
  function ValidateConfig(config: Value): (r: Option<bool>)
    ensures r.None? <==> !IsContainer(config)
    ensures r == Some(true) <==> IsContainer(config) && forall k :: k in RequiredConfigKeys ==> Contains(config, k) == Some(true)
  {
    if !IsContainer(config) then None
    else
      var missing := MissingKeys(RequiredConfigKeys, config);
      assert missing != [] ==> missing[0] in missing;
      Some(missing == [])
  }

  /** For a dict, validation succeeds iff all seven keys are present; keys beyond them do
      not matter. */
  lemma ValidateDict(fields: Record, extra: Record)
    ensures ValidateConfig(Dict(fields)) == Some(true) <==> forall k :: k in RequiredConfigKeys ==> k in fields
    ensures ValidateConfig(Dict(fields)) == Some(true) ==> ValidateConfig(Dict(fields + extra)) == Some(true)
    ensures ValidateConfig(Dict(fields)) == Some(true) ==> ValidateConfig(Dict(extra + fields)) == Some(true)
  {
  }

  /** The keys the lookup requires are the settings of the common config spec. */
  lemma RequiredKeysAreCommonConfig()
    ensures (set k | k in RequiredConfigKeys) == PrivxUtils.CommonConfigSpec().Keys
  {
  }

  /** What one call of an API function does. */
  datatype CallResult = Returned(data: Value) | Raised

  /** An attribute of the API object: something that is not callable, or a function, with
      whether its signature has parameters and what calling it with the filter and without
      any argument gives. */
  datatype Member =
    | NotCallable
    | Function(takesParams: bool, withFilter: CallResult, withoutArgument: CallResult)

  type Api = map<string, Member>

  /** A call made on an API function: its name and the argument, if one was passed. */
  datatype Invocation = Invocation(name: string, argument: Option<Value>)

  /** What one term appends to the results list and which calls it makes. */
  datatype Contribution = Contribution(results: seq<Value>, calls: seq<Invocation>)

  /** What the loop has gathered: the results list, the calls made, and whether a term
      raised out of the loop (the calls made before it stand). */
  datatype Gathered = Gathered(results: seq<Value>, calls: seq<Invocation>, crashed: bool)

  /** `func(filter_arg)` only when the signature has parameters and a filter is given. */
  predicate PassesFilter(f: Member, filter: Value)
    requires f.Function?
  {
    f.takesParams && filter != Null
  }

  /** One term. None when `getattr` raises on a name that is not a string; otherwise the
      entries it appends (none for an unknown name, something not callable, or a call that
      raises) and the calls it makes. */
  function TermStep(api: Api, term: Value, filter: Value): Option<Contribution> {
    if !term.Str? then None
    else if term.s !in api || api[term.s].NotCallable? then Some(Contribution([], []))
    else
      var f := api[term.s];
      var res := if PassesFilter(f, filter) then f.withFilter else f.withoutArgument;
      var call := Invocation(term.s, if PassesFilter(f, filter) then Some(filter) else None);
      match res
      case Returned(d) => Some(Contribution([d], [call]))
      case Raised => Some(Contribution([], [call]))
  }

  /** The loop `for term in terms`, term by term; once a term raises, the rest are not
      visited. */
  function Collect(api: Api, terms: seq<Value>, filter: Value): Gathered {
    if terms == [] then Gathered([], [], false)
    else
      var g := Collect(api, terms[..|terms| - 1], filter);
      if g.crashed then g
      else match TermStep(api, terms[|terms| - 1], filter)
        case None => g.(crashed := true)
        case Some(s) => Gathered(g.results + s.results, g.calls + s.calls, false)
  }

  /** `if not isinstance(terms, list): terms = [terms]` */
  function Terms(terms: Value): seq<Value> {
    if terms.List? then terms.items else [terms]
  }

  datatype Outcome = Results(values: seq<Value>) | InvalidConfiguration | Crash

  /** Whether `initialize_privx_api` returns an API object. Its arguments are read with
      `config.get`, which raises on anything but a dict, and the handler leaves `privx` as
      None; for a dict, `constructed` is whether building the object succeeded. */
  predicate HasApiObject(config: Value, constructed: bool) {
    config.Dict? && constructed
  }

  /** `run`. `apiAvailable` is whether constructing the API object from a dict config
      succeeded. */
  function RunSpec(terms: Value, config: Value, filter: Value, apiAvailable: bool, api: Api): Outcome {
    match ValidateConfig(config)
    case None => Crash
    case Some(ok) =>
      if !ok then InvalidConfiguration
      else if !HasApiObject(config, apiAvailable) then Results([])
      else
        var g := Collect(api, Terms(terms), filter);
        if g.crashed then Crash else Results(g.results)
  }

  /** The calls `run` makes on API functions, including those made before a term raised. */
  function RunCalls(terms: Value, config: Value, filter: Value, apiAvailable: bool, api: Api): seq<Invocation> {
    if ValidateConfig(config) != Some(true) || !HasApiObject(config, apiAvailable) then []
    else Collect(api, Terms(terms), filter).calls
  }

  /** `LookupModule.run`, with the API object given. */
  method Run(terms: Value, config: Value, filter: Value, apiAvailable: bool, api: Api)
    returns (outcome: Outcome, calls: seq<Invocation>)
    ensures outcome == RunSpec(terms, config, filter, apiAvailable, api)
    ensures calls == RunCalls(terms, config, filter, apiAvailable, api)
  {
    calls := [];
    var valid := ValidateConfig(config);
    if valid.None? {
      return Crash, calls;
    }
    if !valid.value {
      return InvalidConfiguration, calls;
    }
    var ts := if terms.List? then terms.items else [terms];
    if !(config.Dict? && apiAvailable) {
      return Results([]), calls;
    }
    var results: seq<Value> := [];
    var i := 0;
    while i < |ts|
      invariant 0 <= i <= |ts|
      invariant Collect(api, ts[..i], filter) == Gathered(results, calls, false)
    {
      var term := ts[i];
      CollectNext(api, ts, i, filter);
      if !term.Str? {
        CollectCrashPersists(api, ts, i + 1, filter);
        return Crash, calls;
      }
      var added: seq<Value> := [];
      var made: seq<Invocation> := [];
      if term.s in api && api[term.s].Function? {
        var f := api[term.s];
        var res;
        if f.takesParams && filter != Null {
          res := f.withFilter;
          made := [Invocation(term.s, Some(filter))];
        } else {
          res := f.withoutArgument;
          made := [Invocation(term.s, None)];
        }
        if res.Returned? {
          added := [res.data];
        }
      }
      results, calls := results + added, calls + made;
      i := i + 1;
    }
    assert ts[..i] == ts;
    outcome := Results(results);
  }

  /** A slicing helper for the loop in `Run`: the recursive case of `Collect`, unfolded at
      the prefix `ts[..i + 1]`. It states no behaviour of its own. */
  lemma CollectNext(api: Api, ts: seq<Value>, i: int, filter: Value)
    requires 0 <= i < |ts|
    ensures Collect(api, ts[..i + 1], filter) ==
      var g := Collect(api, ts[..i], filter);
      if g.crashed then g
      else match TermStep(api, ts[i], filter)
        case None => g.(crashed := true)
        case Some(s) => Gathered(g.results + s.results, g.calls + s.calls, false)
  {
    assert ts[..i + 1][..i] == ts[..i];
    assert ts[..i + 1][i] == ts[i];
  }

  /** Once a term raises, the later terms change nothing: the run raises with the results
      and calls gathered up to that term. */
  lemma {:induction false} CollectCrashPersists(api: Api, terms: seq<Value>, i: int, filter: Value)
    requires 0 <= i <= |terms| && Collect(api, terms[..i], filter).crashed
    ensures Collect(api, terms, filter) == Collect(api, terms[..i], filter)
    decreases |terms|
  {
    if i < |terms| {
      var init := terms[..|terms| - 1];
      assert init[..i] == terms[..i];
      CollectCrashPersists(api, init, i, filter);
    } else {
      assert terms[..i] == terms;
    }
  }

  /** The loop crashes iff some term is not a string. */
  lemma {:induction false} CollectCrashes(api: Api, terms: seq<Value>, filter: Value)
    ensures Collect(api, terms, filter).crashed <==> exists i :: 0 <= i < |terms| && !terms[i].Str?
  {
    if terms != [] {
      var init := terms[..|terms| - 1];
      CollectCrashes(api, init, filter);
      if Collect(api, init, filter).crashed {
        var i :| 0 <= i < |init| && !init[i].Str?;
        assert !terms[i].Str?;
      } else if TermStep(api, terms[|terms| - 1], filter).Some? {
        forall i | 0 <= i < |terms| ensures terms[i].Str? {
          if i < |init| {
            assert terms[i] == init[i];
          }
        }
      }
    }
  }

  /** Each term adds at most one result and makes at most one call. */
  lemma {:induction false} AtMostOnePerTerm(api: Api, terms: seq<Value>, filter: Value)
    ensures |Collect(api, terms, filter).results| <= |terms|
    ensures |Collect(api, terms, filter).calls| <= |terms|
  {
    if terms != [] {
      AtMostOnePerTerm(api, terms[..|terms| - 1], filter);
    }
  }

  /** Results and calls keep term order: after terms that do not raise, the next terms'
      contributions, up to any term that raises, are appended. */
  lemma {:induction false} CollectAppend(api: Api, a: seq<Value>, b: seq<Value>, filter: Value)
    requires !Collect(api, a, filter).crashed
    ensures Collect(api, a + b, filter) == Gathered(
      Collect(api, a, filter).results + Collect(api, b, filter).results,
      Collect(api, a, filter).calls + Collect(api, b, filter).calls,
      Collect(api, b, filter).crashed)
    decreases |b|
  {
    var ga := Collect(api, a, filter);
    if b == [] {
      assert a + b == a;
      assert ga.results + [] == ga.results && ga.calls + [] == ga.calls;
    } else {
      var binit := b[..|b| - 1];
      assert (a + b)[..|a + b| - 1] == a + binit;
      assert (a + b)[|a + b| - 1] == b[|b| - 1];
      CollectAppend(api, a, binit, filter);
      var gb := Collect(api, binit, filter);
      if !gb.crashed && TermStep(api, b[|b| - 1], filter).Some? {
        var s := TermStep(api, b[|b| - 1], filter).value;
        assert ga.results + gb.results + s.results == ga.results + (gb.results + s.results);
        assert ga.calls + gb.calls + s.calls == ga.calls + (gb.calls + s.calls);
      }
    }
  }

  /** A term that is not a string ends the run, and the calls already made for the terms
      before it are kept. */
  lemma CrashKeepsEarlierCalls(api: Api, a: seq<Value>, t: Value, b: seq<Value>, filter: Value)
    requires forall i :: 0 <= i < |a| ==> a[i].Str?
    requires !t.Str?
    ensures Collect(api, a + [t] + b, filter) == Collect(api, a, filter).(crashed := true)
  {
    CollectCrashes(api, a, filter);
    var ts := a + [t] + b;
    assert ts[..|a| + 1] == a + [t];
    assert (a + [t])[..|a|] == a;
    assert Collect(api, ts[..|a| + 1], filter) == Collect(api, a, filter).(crashed := true);
    CollectCrashPersists(api, ts, |a| + 1, filter);
  }

  /** A term whose name is unknown or not callable, or whose call raises, contributes no
      result. */
  predicate Silent(api: Api, term: Value, filter: Value) {
    term.Str? && (term.s !in api || api[term.s].NotCallable?
      || (if PassesFilter(api[term.s], filter) then api[term.s].withFilter else api[term.s].withoutArgument).Raised?)
  }

  /** Silent terms can be dropped without changing the results. */
  lemma {:induction false} SilentTermsContributeNothing(api: Api, a: seq<Value>, b: seq<Value>, filter: Value)
    requires !Collect(api, a, filter).crashed
    requires forall i :: 0 <= i < |b| ==> Silent(api, b[i], filter)
    ensures !Collect(api, a + b, filter).crashed
    ensures Collect(api, a + b, filter).results == Collect(api, a, filter).results
    decreases |b|
  {
    if b == [] {
      assert a + b == a;
    } else {
      var binit := b[..|b| - 1];
      assert (a + b)[..|a + b| - 1] == a + binit;
      assert (a + b)[|a + b| - 1] == b[|b| - 1];
      SilentTermsContributeNothing(api, a, binit, filter);
    }
  }

  /** The filter is passed exactly when the function has parameters and a filter is given;
      a call's result is appended iff the call returns. */
  lemma FilterPassing(api: Api, name: string, filter: Value)
    requires name in api && api[name].Function?
    ensures var f := api[name];
      var s := TermStep(api, Str(name), filter).value;
      && |s.calls| == 1
      && (s.calls[0].argument == Some(filter) <==> f.takesParams && filter != Null)
      && (s.calls[0].argument.None? <==> !f.takesParams || filter == Null)
      && (s.results != [] <==> (if PassesFilter(f, filter) then f.withFilter else f.withoutArgument).Returned?)
  {
  }

  /** An invalid configuration is rejected before the API is set up or used; a config the
      membership test cannot read raises; a config that is not a dict, or an API object that
      could not be built, gives no results and no calls. */
  lemma ConfigCheckedFirst(terms: Value, config: Value, filter: Value, apiAvailable: bool, api: Api)
    ensures ValidateConfig(config) == Some(false) ==>
      RunSpec(terms, config, filter, apiAvailable, api) == InvalidConfiguration
      && RunCalls(terms, config, filter, apiAvailable, api) == []
    ensures !IsContainer(config) ==> RunSpec(terms, config, filter, apiAvailable, api) == Crash
    ensures ValidateConfig(config) == Some(true) && (!config.Dict? || !apiAvailable) ==>
      RunSpec(terms, config, filter, apiAvailable, api) == Results([])
      && RunCalls(terms, config, filter, apiAvailable, api) == []
  {
  }

  /** A single term that is not a list is looked up as a one-element list. */
  lemma NonListTermWrapped(term: Value, config: Value, filter: Value, api: Api)
    requires !term.List? && config.Dict? && ValidateConfig(config) == Some(true)
    ensures RunSpec(term, config, filter, true, api)
      == match TermStep(api, term, filter) case None => Crash case Some(s) => Results(s.results)
    ensures RunCalls(term, config, filter, true, api)
      == match TermStep(api, term, filter) case None => [] case Some(s) => s.calls
  {
    var ts := Terms(term);
    assert ts[..|ts| - 1] == [] && ts[|ts| - 1] == term;
    assert Collect(api, ts[..|ts| - 1], filter) == Gathered([], [], false);
    if TermStep(api, term, filter).Some? {
      var s := TermStep(api, term, filter).value;
      assert [] + s.results == s.results && [] + s.calls == s.calls;
    }
  }
}
