/** The action plugin `add_host`: it fetches roles and access groups, rewrites `host_data`
    in place, searches for the host by common name, and then updates, leaves alone or creates
    it, filling the result dict. An exception anywhere in `add_host` reaches the handler in
    `run`, which reports it as an initialisation failure. */
module ActionAddHost {
  import opened Py
  import opened References
  import opened HostReconcile

  /** `get_valid_roles` / `get_valid_access_groups` of the action: a failed fetch gives
      empty tables; a fetched collection whose tables cannot be built returns `{}`, which
      the caller fails to unpack into two names (None). */
  function FetchCatalog(response: Listing): (r: Option<Catalog>)
    ensures !response.ok ==> r == Some(EmptyCatalog)
    ensures response.ok ==> r == Index(response.items)
    ensures r.Some? ==> Coherent(r.value)
  {
    if response.ok then
      if Index(response.items).Some? then IndexCoherent(response.items); Index(response.items)
      else None
    else Some(EmptyCatalog)
  }

  /** What one run of `add_host` leaves behind: the final `host_data`, the final result, the
      calls made, and whether it ended in an exception. */
  datatype Effect = Effect(fields: Record, result: ResultRecord, calls: seq<Call>, crashed: bool)

  /** The pair `update_host` returns, with the calls it made. */
  datatype Reply = Reply(msg: Msg, changed: bool, calls: seq<Call>)

  /** `update_host`: send the merged host only when it differs from the existing one. */
  function UpdateReply(hostId: Value, existing: Record, desired: Record, override: bool, response: Response): Reply {
    var updated := Overlay(existing, desired, override);
    if updated != existing then
      if response.ok then Reply(HostUpdated, true, [ApiUpdateHost(hostId, updated)])
      else Reply(HostUpdateFailed(response.data), false, [ApiUpdateHost(hostId, updated)])
    else Reply(NoUpdateNecessary, false, [])
  }

  /** `add_host`, existing-host branch: report the update, then fetch the details; a reply without change is
      reported as a failure, whether the update failed or was not needed. */
  function UpdatePath(hostId: Value, existing: Record, h: Record, r: ResultRecord, remote: Remote, override: bool): Effect {
    var reply := UpdateReply(hostId, existing, h, override, remote.update);
    if reply.changed then
      var calls := reply.calls + [ApiGetHost(hostId)];
      if remote.details.ok then
        Effect(h, r.(msg := Then(reply.msg, DetailsRetrieved), changed := true, hostDetails := Some(remote.details.data)), calls, false)
      else
        Effect(h, r.(msg := Then(reply.msg, UpdatedDetailsNotRetrieved(remote.details.data)), changed := true), calls, false)
    else Effect(h, r.(failed := true, msg := reply.msg), reply.calls, false)
  }

  /** `add_host`, new-host branch: create, read the new id (a missing key raises, a falsy one is an error),
      then fetch the details. */
  function CreatePath(h: Record, r: ResultRecord, remote: Remote): Effect {
    var calls := [ApiCreateHost(h)];
    var data := remote.create.data;
    if !remote.create.ok then
      Effect(h, r.(failed := true, msg := HostCreationFailed(Get(data, "error", Str("Unknown error")))), calls, false)
    else if "id" !in data then Effect(h, r, calls, true)
    else if !Truthy(data["id"]) then Effect(h, r.(failed := true, msg := CreatedWithoutId), calls, false)
    else if remote.details.ok then
      Effect(h, r.(hostDetails := Some(remote.details.data), msg := HostCreated), calls + [ApiGetHost(data["id"])], false)
    else
      Effect(h, r.(failed := true, msg := CreatedDetailsNotRetrieved(remote.details.data), changed := true),
        calls + [ApiGetHost(data["id"])], false)
  }

  /** `add_host` after preparation: search by common name and choose update, nothing, or create. */
  function Reconcile(h: Record, r: ResultRecord, remote: Remote, override: bool): Effect {
    if "common_name" !in h then Effect(h, r, [], true)
    else
      var cn := h["common_name"];
      var search := [ApiSearchHosts(cn)];
      if !remote.search.ok then Effect(h, r, search, false)
      else if remote.search.count > 0 then
        var matches := FilterExactMatches(remote.search.items, cn);
        if matches == [] then Effect(h, r, search, false)
        else if "id" !in matches[0] then Effect(h, r, search, true)
        else
          var e := UpdatePath(matches[0]["id"], matches[0], h, r, remote, override);
          e.(calls := search + e.calls)
      else
        var e := CreatePath(h, r, remote);
        e.(calls := search + e.calls)
  }

  const Fetches := [ApiGetRoles, ApiGetAccessGroups]

  /** `add_host` as a whole, from the `host_data` and result it is given. */
  function AddHostSpec(h: Record, r: ResultRecord, remote: Remote, override: bool): Effect {
    match FetchCatalog(remote.roles)
    case None => Effect(h, r, [ApiGetRoles], true)
    case Some(roles) =>
      match FetchCatalog(remote.accessGroups)
      case None => Effect(h, r, Fetches, true)
      case Some(groups) =>
        var p := Prepare(h, roles, groups);
        match p.stop
        case PrepCrashed => Effect(p.fields, r, Fetches, true)
        case RoleUnresolved(x) => Effect(p.fields, r.(failed := true, msg := RoleNotFound(x)), Fetches, false)
        case GroupUnresolved(x) => Effect(p.fields, r.(failed := true, msg := AccessGroupNotFound(x)), Fetches, false)
        case Ready =>
          var e := Reconcile(p.fields, r, remote, override);
          e.(calls := Fetches + e.calls)
  }

  /** `update_host`, with the merge loop. */
  method UpdateHost(hostId: Value, existing: Record, desired: Record, override: bool, response: Response)
    returns (msg: Msg, changed: bool, calls: seq<Call>)
    ensures Reply(msg, changed, calls) == UpdateReply(hostId, existing, desired, override, response)
    ensures changed <==> calls != [] && response.ok
    ensures calls == [] <==> Overlay(existing, desired, override) == existing
  {
    var updated := MergeHost(existing, desired, override);
    if updated != existing {
      calls := [ApiUpdateHost(hostId, updated)];
      if response.ok {
        return HostUpdated, true, calls;
      } else {
        return HostUpdateFailed(response.data), false, calls;
      }
    } else {
      return NoUpdateNecessary, false, [];
    }
  }

  /** `add_host`, existing-host branch, filling `result` in place. */
  method UpdateExisting(hostId: Value, existing: Record, h: Record, result: TaskResult, remote: Remote, override: bool)
    returns (calls: seq<Call>)
    modifies result
    ensures Effect(h, result.Record(), calls, false) == UpdatePath(hostId, existing, h, old(result.Record()), remote, override)
  {
    var msg, changed;
    msg, changed, calls := UpdateHost(hostId, existing, h, override, remote.update);
    if changed {
      result.msg, result.changed := msg, true;
      calls := calls + [ApiGetHost(hostId)];
      if remote.details.ok {
        result.hostDetails := Some(remote.details.data);
        result.msg := Then(result.msg, DetailsRetrieved);
      } else {
        result.msg := Then(result.msg, UpdatedDetailsNotRetrieved(remote.details.data));
      }
    } else {
      result.failed, result.msg := true, msg;
    }
  }

  /** `add_host`, new-host branch, filling `result` in place. */
  method CreateHost(h: Record, result: TaskResult, remote: Remote) returns (calls: seq<Call>, crashed: bool)
    modifies result
    ensures Effect(h, result.Record(), calls, crashed) == CreatePath(h, old(result.Record()), remote)
  {
    calls := [ApiCreateHost(h)];
    crashed := false;
    var data := remote.create.data;
    if remote.create.ok {
      if "id" !in data {
        return calls, true;
      }
      var hostId := data["id"];
      if Truthy(hostId) {
        calls := calls + [ApiGetHost(hostId)];
        if remote.details.ok {
          result.hostDetails, result.msg := Some(remote.details.data), HostCreated;
        } else {
          result.failed, result.msg := true, CreatedDetailsNotRetrieved(remote.details.data);
          result.changed := true;
        }
      } else {
        result.failed, result.msg := true, CreatedWithoutId;
      }
    } else {
      result.failed, result.msg := true, HostCreationFailed(Get(data, "error", Str("Unknown error")));
    }
  }

  /** `add_host` after preparation, filling `result` in place. */
  method ReconcileHost(h: Record, result: TaskResult, remote: Remote, override: bool) returns (calls: seq<Call>, crashed: bool)
    modifies result
    ensures Effect(h, result.Record(), calls, crashed) == Reconcile(h, old(result.Record()), remote, override)
  {
    if "common_name" !in h {
      return [], true;
    }
    var cn := h["common_name"];
    calls := [ApiSearchHosts(cn)];
    crashed := false;
    if !remote.search.ok {
      return;
    }
    if remote.search.count > 0 {
      var matches := FilterExactMatches(remote.search.items, cn);
      if matches == [] {
        return;
      }
      if "id" !in matches[0] {
        return calls, true;
      }
      var more := UpdateExisting(matches[0]["id"], matches[0], h, result, remote, override);
      calls := calls + more;
    } else {
      var more;
      more, crashed := CreateHost(h, result, remote);
      calls := calls + more;
    }
  }

  /** `add_host`: rewrites `host_data` and fills `result` in place; `crashed` is an
      exception escaping to `run`. */
  method AddHost(hostData: HostData, result: TaskResult, remote: Remote, override: bool)
    returns (calls: seq<Call>, crashed: bool)
    modifies hostData, result
    ensures Effect(hostData.fields, result.Record(), calls, crashed)
      == AddHostSpec(old(hostData.fields), old(result.Record()), remote, override)
  {
    calls := [ApiGetRoles];
    var roles := FetchCatalog(remote.roles);
    if roles.None? {
      return calls, true;
    }
    calls := calls + [ApiGetAccessGroups];
    var groups := FetchCatalog(remote.accessGroups);
    if groups.None? {
      return calls, true;
    }
    var stop := PrepareHost(hostData, roles.value, groups.value);
    match stop {
      case PrepCrashed =>
        return calls, true;
      case RoleUnresolved(x) =>
        result.failed, result.msg := true, RoleNotFound(x);
        return calls, false;
      case GroupUnresolved(x) =>
        result.failed, result.msg := true, AccessGroupNotFound(x);
        return calls, false;
      case Ready =>
    }
    var more;
    more, crashed := ReconcileHost(hostData.fields, result, remote, override);
    calls := calls + more;
  }

  /** `run`: the result dict after initialising the API, authenticating, and calling
      `add_host` when `host_data` is truthy. */
  function RunSpec(hostData: Record, override: bool, initialized: bool, authenticated: bool, remote: Remote): ResultRecord {
    if !initialized then ResultRecord(false, true, InitializationFailed, None)
    else if !authenticated then ResultRecord(false, true, AuthenticationFailed, None)
    else
      var r := ResultRecord(false, false, Authenticated, None);
      if hostData == map[] then r
      else
        var e := AddHostSpec(hostData, r, remote, override);
        if e.crashed then e.result.(failed := true, msg := InitializationFailed) else e.result
  }

  /** The calls `run` makes on the API object after authenticating. */
  function RunCalls(hostData: Record, override: bool, initialized: bool, authenticated: bool, remote: Remote): seq<Call> {
    if !initialized || !authenticated || hostData == map[] then []
    else AddHostSpec(hostData, ResultRecord(false, false, Authenticated, None), remote, override).calls
  }

  /** `run`, with the API's construction and authentication given as their outcomes. */
  method Run(hostData: Record, override: bool, initialized: bool, authenticated: bool, remote: Remote)
    returns (r: ResultRecord, calls: seq<Call>)
    ensures r == RunSpec(hostData, override, initialized, authenticated, remote)
    ensures calls == RunCalls(hostData, override, initialized, authenticated, remote)
  {
    var result := new TaskResult(NoMsg);
    calls := [];
    if !initialized {
      result.failed, result.msg := true, InitializationFailed;
      return result.Record(), calls;
    }
    result.msg := Authenticated;
    if !authenticated {
      result.failed, result.msg := true, AuthenticationFailed;
      return result.Record(), calls;
    }
    if hostData != map[] {
      var data := new HostData(hostData);
      var crashed;
      calls, crashed := AddHost(data, result, remote, override);
      if crashed {
        result.failed, result.msg := true, InitializationFailed;
      }
    }
    r := result.Record();
  }

  // ---------------------------------------------------------------------------------
  // Properties

  /** The merge changes the host iff some desired key other than a guarded `external_id`
      is missing from, or differs in, the existing host. */
  lemma UpdateNeeded(existing: Record, desired: Record, override: bool)
    ensures Overlay(existing, desired, override) != existing <==>
      exists k :: k in desired && (override || k != "external_id") && (k !in existing || existing[k] != desired[k])
  {
    var o := Overlay(existing, desired, override);
    if o != existing {
      if o.Keys == existing.Keys {
        var k :| k in o && o[k] != existing[k];
        assert k in desired;
      } else {
        var k :| k in o && k !in existing;
        assert k in desired;
      }
    }
  }

  /** A merge that changes nothing makes no update call and is reported as a failure with
      the "No update necessary" message; so is an update the service rejects. */
  lemma NoOpReportedAsFailure(hostId: Value, existing: Record, h: Record, r: ResultRecord, remote: Remote, override: bool)
    ensures var e := UpdatePath(hostId, existing, h, r, remote, override);
      && (Overlay(existing, h, override) == existing ==>
        e.calls == [] && e.result == r.(failed := true, msg := NoUpdateNecessary))
      && (Overlay(existing, h, override) != existing && !remote.update.ok ==>
        e.calls == [ApiUpdateHost(hostId, Overlay(existing, h, override))]
        && e.result == r.(failed := true, msg := HostUpdateFailed(remote.update.data)))
  {
  }

  /** A successful update marks the result changed and fetches the details, whose success
      alone decides `host_details`. */
  lemma UpdateSucceeded(hostId: Value, existing: Record, h: Record, r: ResultRecord, remote: Remote, override: bool)
    requires Overlay(existing, h, override) != existing && remote.update.ok
    ensures var e := UpdatePath(hostId, existing, h, r, remote, override);
      && e.calls == [ApiUpdateHost(hostId, Overlay(existing, h, override)), ApiGetHost(hostId)]
      && e.result.changed && e.result.failed == r.failed
      && (remote.details.ok ==>
            e.result.hostDetails == Some(remote.details.data) && e.result.msg == Then(HostUpdated, DetailsRetrieved))
      && (!remote.details.ok ==>
            && e.result.hostDetails == r.hostDetails
            && e.result.msg == Then(HostUpdated, UpdatedDetailsNotRetrieved(remote.details.data)))
  {
  }

  /** The merge sent by an update keeps the existing `external_id` unless overriding. */
  lemma UpdateGuardsExternalId(hostId: Value, existing: Record, h: Record, r: ResultRecord, remote: Remote, override: bool)
    requires !override
    ensures forall c :: c in UpdatePath(hostId, existing, h, r, remote, override).calls && c.ApiUpdateHost? ==>
      Get(c.data, "external_id", Null) == Get(existing, "external_id", Null)
  {
    OverlayFields(existing, h, override);
  }

  /** If the roles or the access group cannot be resolved, the run stops with `failed` and
      the identifier in the message, having made no search, update or create call. */
  lemma UnresolvedStopsBeforeSearch(h: Record, r: ResultRecord, remote: Remote, override: bool)
    requires FetchCatalog(remote.roles).Some? && FetchCatalog(remote.accessGroups).Some?
    requires var p := Prepare(h, FetchCatalog(remote.roles).value, FetchCatalog(remote.accessGroups).value);
      p.stop.RoleUnresolved? || p.stop.GroupUnresolved?
    ensures var p := Prepare(h, FetchCatalog(remote.roles).value, FetchCatalog(remote.accessGroups).value);
      var e := AddHostSpec(h, r, remote, override);
      && e.result.failed && !e.crashed && e.calls == Fetches && e.fields == p.fields
      && (p.stop.RoleUnresolved? ==> e.result.msg == RoleNotFound(p.stop.ident))
      && (p.stop.GroupUnresolved? ==> e.result.msg == AccessGroupNotFound(p.stop.ident))
  {
  }

  /** An unresolvable role stops the run before the access group is looked at. */
  lemma RoleFailureFirst(h: Record, roles: Catalog, groups: Catalog)
    requires PrincipalItems(h).Some? && Walk(PrincipalItems(h).value, roles).stop.RoleUnknown?
    ensures Prepare(h, roles, groups).stop == RoleUnresolved(Walk(PrincipalItems(h).value, roles).stop.ident)
    ensures "access_group" in h ==> "access_group" in Prepare(h, roles, groups).fields
  {
  }

  /** An unknown role is reported by `role.get('name', role.get('id', 'Unknown'))`. */
  lemma UnknownRoleMessage(role: Value, roles: Catalog)
    requires role.Dict? && "name" !in role.fields && "id" !in role.fields
    ensures StepRole(role, roles) == Unknown(Str("Unknown"))
  {
  }

  /** A search that fails, or finds hosts none of which is an exact match, does nothing:
      no update or create and the result unchanged. */
  lemma NoExactMatchDoesNothing(h: Record, r: ResultRecord, remote: Remote, override: bool)
    requires "common_name" in h
    requires !remote.search.ok
      || (remote.search.count > 0 && forall i :: 0 <= i < |remote.search.items| ==>
            !HasCommonName(remote.search.items[i], h["common_name"]))
    ensures Reconcile(h, r, remote, override) == Effect(h, r, [ApiSearchHosts(h["common_name"])], false)
  {
  }

  /** An existing exact match is what gets updated: the first one, by its `id`. */
  lemma FirstExactMatchUpdated(h: Record, r: ResultRecord, remote: Remote, override: bool)
    requires "common_name" in h && remote.search.ok && remote.search.count > 0
    requires var e := Reconcile(h, r, remote, override); exists c :: c in e.calls && c.ApiUpdateHost?
    ensures exists i :: (FirstMatch(remote.search.items, h["common_name"], i)
      && "id" in remote.search.items[i]
      && ApiUpdateHost(remote.search.items[i]["id"], Overlay(remote.search.items[i], h, override))
        in Reconcile(h, r, remote, override).calls)
  {
    var matches := FilterExactMatches(remote.search.items, h["common_name"]);
    var i :| FirstMatch(remote.search.items, h["common_name"], i) && matches[0] == remote.search.items[i];
  }

  /** A create and a detail fetch that both succeed report the host but leave `changed`
      false; a failed detail fetch sets `failed` and `changed` together. */
  lemma CreateOutcomes(h: Record, r: ResultRecord, remote: Remote)
    requires remote.create.ok && "id" in remote.create.data && Truthy(remote.create.data["id"])
    ensures var e := CreatePath(h, r, remote);
      && e.calls == [ApiCreateHost(h), ApiGetHost(remote.create.data["id"])] && !e.crashed
      && (remote.details.ok ==> e.result == r.(hostDetails := Some(remote.details.data), msg := HostCreated))
      && (!remote.details.ok ==> e.result.failed && e.result.changed && e.result.hostDetails == r.hostDetails)
  {
  }

  /** A successful create without an `id` key raises (reported by `run`); a falsy id is
      reported as a create without id; a rejected create reports the service's `error`. */
  lemma CreateErrors(h: Record, r: ResultRecord, remote: Remote)
    ensures var e := CreatePath(h, r, remote);
      && (remote.create.ok && "id" !in remote.create.data ==> e.crashed && e.result == r)
      && (remote.create.ok && "id" in remote.create.data && !Truthy(remote.create.data["id"]) ==>
            e.result == r.(failed := true, msg := CreatedWithoutId) && e.calls == [ApiCreateHost(h)])
      && (!remote.create.ok ==>
            (e.result.failed && e.calls == [ApiCreateHost(h)]
            && e.result.msg == HostCreationFailed(Get(remote.create.data, "error", Str("Unknown error")))))
  {
  }

  /** Any exception escaping `add_host` becomes a failed initialisation in `run`; authentication
      failures and empty host data make no call at all. */
  lemma RunOutcomes(hostData: Record, override: bool, initialized: bool, authenticated: bool, remote: Remote)
    ensures !initialized ==> RunSpec(hostData, override, initialized, authenticated, remote) == ResultRecord(false, true, InitializationFailed, None)
    ensures initialized && !authenticated ==> RunSpec(hostData, override, initialized, authenticated, remote) == ResultRecord(false, true, AuthenticationFailed, None)
    ensures initialized && authenticated && hostData == map[] ==>
      RunSpec(hostData, override, initialized, authenticated, remote) == ResultRecord(false, false, Authenticated, None)
    ensures !initialized || !authenticated || hostData == map[] ==>
      RunCalls(hostData, override, initialized, authenticated, remote) == []
    ensures (initialized && authenticated && hostData != map[]
      && AddHostSpec(hostData, ResultRecord(false, false, Authenticated, None), remote, override).crashed) ==>
      RunSpec(hostData, override, initialized, authenticated, remote).failed
      && RunSpec(hostData, override, initialized, authenticated, remote).msg == InitializationFailed
  {
  }
}
