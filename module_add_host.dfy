/** The module `add_host`: the same reconciliation as the action plugin, but every outcome
    ends the process through `exit_json` or `fail_json`, `external_id` is never copied into
    an update, and an exception is not caught (the run ends with a traceback). */
module ModuleAddHost {
  import opened Py
  import opened References
  import opened HostReconcile

  /** `get_valid_roles` / `get_valid_access_groups` of the module. Both the warning of a
      failed fetch and the error report of a failed comprehension go through `_display`,
      which the module never defines, so only a successful, well-formed fetch returns. */
  function FetchCatalog(response: Listing): (r: Option<Catalog>)
    ensures r.Some? <==> response.ok && Index(response.items).Some?
    ensures r.Some? ==> r == Index(response.items) && Coherent(r.value)
  {
    if response.ok && Index(response.items).Some? then
      IndexCoherent(response.items);
      Index(response.items)
    else None
  }

  /** How the process ends. */
  datatype Ending = ExitJson(result: ResultRecord) | FailJson(result: ResultRecord) | Traceback

  /** What `add_host` leaves behind: the final `host_data`, the result dict, the calls made,
      and the ending when the process ended inside it. */
  datatype Effect = Effect(fields: Record, result: ResultRecord, calls: seq<Call>, ending: Option<Ending>)

  /** An ending reached inside `update_host`, with the calls made there and the result
      dict as it was left. */
  datatype Terminal = Terminal(ending: Ending, calls: seq<Call>, result: ResultRecord)

  /** `update_host` of the module: the merge never takes `external_id`, and every branch
      exits. */
  function UpdateEnding(hostId: Value, existing: Record, desired: Record, r: ResultRecord, response: Response): Terminal {
    var updated := Overlay(existing, desired, false);
    if updated != existing then
      if response.ok then
        var r1 := r.(msg := HostUpdated, changed := true);
        Terminal(ExitJson(r1), [ApiUpdateHost(hostId, updated)], r1)
      else Terminal(FailJson(ResultRecord(false, true, HostUpdateFailed(response.data), None)), [ApiUpdateHost(hostId, updated)], r)
    else Terminal(ExitJson(ResultRecord(false, false, NoUpdateNecessary, None)), [], r)
  }

  /** `add_host`, new-host branch: create; a response without an `id` key is an error; any `id` is fetched. */
  function CreatePath(h: Record, r: ResultRecord, remote: Remote): Effect {
    var calls := [ApiCreateHost(h)];
    var data := remote.create.data;
    if !remote.create.ok then
      Effect(h, r.(failed := true, msg := HostCreationFailed(Get(data, "error", Str("Unknown error")))), calls, None)
    else if "id" !in data then Effect(h, r.(failed := true, msg := CreatedWithoutId), calls, None)
    else if remote.details.ok then
      Effect(h, r.(hostDetails := Some(remote.details.data), msg := HostCreated), calls + [ApiGetHost(data["id"])], None)
    else
      Effect(h, r.(failed := true, msg := CreatedDetailsNotRetrieved(remote.details.data), changed := true),
        calls + [ApiGetHost(data["id"])], None)
  }

  /** `add_host` after preparation: search by common name and choose update, nothing, or create. */
  function Reconcile(h: Record, r: ResultRecord, remote: Remote): Effect {
    if "common_name" !in h then Effect(h, r, [], Some(Traceback))
    else
      var cn := h["common_name"];
      var search := [ApiSearchHosts(cn)];
      if !remote.search.ok then Effect(h, r, search, None)
      else if remote.search.count > 0 then
        var matches := FilterExactMatches(remote.search.items, cn);
        if matches == [] then Effect(h, r, search, None)
        else if "id" !in matches[0] then Effect(h, r, search, Some(Traceback))
        else
          var t := UpdateEnding(matches[0]["id"], matches[0], h, r, remote.update);
          Effect(h, t.result, search + t.calls, Some(t.ending))
      else
        var e := CreatePath(h, r, remote);
        e.(calls := search + e.calls)
  }

  const Fetches := [ApiGetRoles, ApiGetAccessGroups]

  /** `add_host` as a whole. */
  function AddHostSpec(h: Record, r: ResultRecord, remote: Remote): Effect {
    match FetchCatalog(remote.roles)
    case None => Effect(h, r, [ApiGetRoles], Some(Traceback))
    case Some(roles) =>
      match FetchCatalog(remote.accessGroups)
      case None => Effect(h, r, Fetches, Some(Traceback))
      case Some(groups) =>
        var p := Prepare(h, roles, groups);
        match p.stop
        case PrepCrashed => Effect(p.fields, r, Fetches, Some(Traceback))
        case RoleUnresolved(x) => Effect(p.fields, r.(failed := true, msg := RoleNotFound(x)), Fetches, None)
        case GroupUnresolved(x) => Effect(p.fields, r.(failed := true, msg := AccessGroupNotFound(x)), Fetches, None)
        case Ready =>
          var e := Reconcile(p.fields, r, remote);
          e.(calls := Fetches + e.calls)
  }

  /** `main` after the API is set up: how the process ends. */
  function MainSpec(hostData: Record, remote: Remote): Ending {
    if hostData == map[] then FailJson(ResultRecord(false, true, NoHostData, None))
    else
      var e := AddHostSpec(hostData, ResultRecord(false, false, NoMsg, None), remote);
      if e.ending.Some? then e.ending.value
      else if e.result.failed then FailJson(e.result)
      else ExitJson(e.result)
  }

  /** The calls `main` makes on the API object. */
  function MainCalls(hostData: Record, remote: Remote): seq<Call> {
    if hostData == map[] then [] else AddHostSpec(hostData, ResultRecord(false, false, NoMsg, None), remote).calls
  }

  /** `update_host`, with the merge loop; it writes `result` before the successful exit. */
  method UpdateHost(hostId: Value, existing: Record, desired: Record, result: TaskResult, response: Response)
    returns (ending: Ending, calls: seq<Call>)
    modifies result
    ensures Terminal(ending, calls, result.Record()) == UpdateEnding(hostId, existing, desired, old(result.Record()), response)
  {
    var updated := MergeHost(existing, desired, false);
    if updated != existing {
      calls := [ApiUpdateHost(hostId, updated)];
      if response.ok {
        result.msg, result.changed := HostUpdated, true;
        ending := ExitJson(result.Record());
      } else {
        ending := FailJson(ResultRecord(false, true, HostUpdateFailed(response.data), None));
      }
    } else {
      ending, calls := ExitJson(ResultRecord(false, false, NoUpdateNecessary, None)), [];
    }
  }

  /** `add_host`, new-host branch, filling `result` in place. */
  method CreateHost(h: Record, result: TaskResult, remote: Remote) returns (calls: seq<Call>)
    modifies result
    ensures Effect(h, result.Record(), calls, None) == CreatePath(h, old(result.Record()), remote)
  {
    calls := [ApiCreateHost(h)];
    var data := remote.create.data;
    if remote.create.ok {
      if "id" in data {
        var hostId := data["id"];
        calls := calls + [ApiGetHost(hostId)];
        if remote.details.ok {
          result.hostDetails, result.msg := Some(remote.details.data), HostCreated;
        } else {
          result.failed, result.msg := true, CreatedDetailsNotRetrieved(remote.details.data);
          result.changed := true;
        }
      } else {
        result.failed, result.msg := true, CreatedWithoutId;
      }
    } else {
      result.failed, result.msg := true, HostCreationFailed(Get(data, "error", Str("Unknown error")));
    }
  }

  /** `add_host` after preparation, filling `result` in place. */
  method ReconcileHost(h: Record, result: TaskResult, remote: Remote) returns (calls: seq<Call>, ending: Option<Ending>)
    modifies result
    ensures Effect(h, result.Record(), calls, ending) == Reconcile(h, old(result.Record()), remote)
  {
    if "common_name" !in h {
      return [], Some(Traceback);
    }
    var cn := h["common_name"];
    calls := [ApiSearchHosts(cn)];
    ending := None;
    if !remote.search.ok {
      return;
    }
    if remote.search.count > 0 {
      var matches := FilterExactMatches(remote.search.items, cn);
      if matches == [] {
        return;
      }
      if "id" !in matches[0] {
        return calls, Some(Traceback);
      }
      var end, more := UpdateHost(matches[0]["id"], matches[0], h, result, remote.update);
      calls, ending := calls + more, Some(end);
    } else {
      var more := CreateHost(h, result, remote);
      calls := calls + more;
    }
  }

  /** `add_host`: rewrites `host_data` and fills `result` in place, unless the process ends
      first. */
  method AddHost(hostData: HostData, result: TaskResult, remote: Remote) returns (calls: seq<Call>, ending: Option<Ending>)
    modifies hostData, result
    ensures Effect(hostData.fields, result.Record(), calls, ending) == AddHostSpec(old(hostData.fields), old(result.Record()), remote)
  {
    calls := [ApiGetRoles];
    var roles := FetchCatalog(remote.roles);
    if roles.None? {
      return calls, Some(Traceback);
    }
    calls := calls + [ApiGetAccessGroups];
    var groups := FetchCatalog(remote.accessGroups);
    if groups.None? {
      return calls, Some(Traceback);
    }
    var stop := PrepareHost(hostData, roles.value, groups.value);
    match stop {
      case PrepCrashed =>
        return calls, Some(Traceback);
      case RoleUnresolved(x) =>
        result.failed, result.msg := true, RoleNotFound(x);
        return calls, None;
      case GroupUnresolved(x) =>
        result.failed, result.msg := true, AccessGroupNotFound(x);
        return calls, None;
      case Ready =>
    }
    var more;
    more, ending := ReconcileHost(hostData.fields, result, remote);
    calls := calls + more;
  }

  /** `main`, from `module.params['host_data']` on, with the API already set up. */
  method RunMain(hostData: Record, remote: Remote) returns (ending: Ending, calls: seq<Call>)
    ensures ending == MainSpec(hostData, remote)
    ensures calls == MainCalls(hostData, remote)
  {
    if hostData == map[] {
      return FailJson(ResultRecord(false, true, NoHostData, None)), [];
    }
    var result := new TaskResult(NoMsg);
    var data := new HostData(hostData);
    var end;
    calls, end := AddHost(data, result, remote);
    if end.Some? {
      ending := end.value;
    } else if result.failed {
      ending := FailJson(result.Record());
    } else {
      ending := ExitJson(result.Record());
    }
  }

  // ---------------------------------------------------------------------------------
  // Properties

  /** `update_host` always ends the process: exit with `changed` after a successful update,
      fail after a rejected one, exit with "No update necessary" when nothing changed. */
  lemma UpdateAlwaysEnds(hostId: Value, existing: Record, desired: Record, r: ResultRecord, response: Response)
    ensures var t := UpdateEnding(hostId, existing, desired, r, response);
      var updated := Overlay(existing, desired, false);
      && (updated != existing && response.ok ==>
            t.ending.ExitJson? && t.ending.result.changed && t.ending.result.msg == HostUpdated)
      && (updated != existing && !response.ok ==>
            t.ending == FailJson(ResultRecord(false, true, HostUpdateFailed(response.data), None)))
      && (updated == existing <==> t.ending == ExitJson(ResultRecord(false, false, NoUpdateNecessary, None)))
      && (updated == existing <==> t.calls == [])
  {
  }

  /** The update sent never carries a desired `external_id`: the existing one, or none, is
      kept. */
  lemma ExternalIdNeverCopied(hostId: Value, existing: Record, desired: Record, r: ResultRecord, response: Response)
    ensures forall c :: c in UpdateEnding(hostId, existing, desired, r, response).calls ==>
      c.ApiUpdateHost? && Get(c.data, "external_id", Null) == Get(existing, "external_id", Null)
      && ("external_id" in c.data <==> "external_id" in existing)
  {
    OverlayFields(existing, desired, false);
  }

  /** Once an update call is made the process has ended inside `update_host`, so the
      details of an updated host are never fetched and a run never reports them. */
  lemma NoDetailsAfterUpdate(hostData: Record, remote: Remote)
    ensures var e := AddHostSpec(hostData, ResultRecord(false, false, NoMsg, None), remote);
      (exists c :: c in e.calls && c.ApiUpdateHost?) ==> e.ending.Some?
    ensures var ending := MainSpec(hostData, remote);
      !ending.Traceback? ==> !ending.result.msg.Then? && !ending.result.msg.DetailsRetrieved?
  {
  }

  /** A successful create without an `id` key fails with "Host created but no ID returned";
      a rejected create reports the service's `error`, or "Unknown error". */
  lemma CreateErrors(h: Record, r: ResultRecord, remote: Remote)
    ensures var e := CreatePath(h, r, remote);
      && (remote.create.ok && "id" !in remote.create.data <==> e.result.msg == CreatedWithoutId)
      && (!remote.create.ok ==>
            (e.result.failed && e.calls == [ApiCreateHost(h)]
            && e.result.msg == HostCreationFailed(Get(remote.create.data, "error", Str("Unknown error")))))
      && (!remote.create.ok && "error" !in remote.create.data ==> e.result.msg == HostCreationFailed(Str("Unknown error")))
  {
  }

  /** A create whose details are fetched leaves `changed` false; a failed detail fetch sets
      `failed` and `changed`. Any `id`, even a falsy one, is fetched. */
  lemma CreateOutcomes(h: Record, r: ResultRecord, remote: Remote)
    requires remote.create.ok && "id" in remote.create.data
    ensures var e := CreatePath(h, r, remote);
      && e.calls == [ApiCreateHost(h), ApiGetHost(remote.create.data["id"])] && e.ending.None?
      && (remote.details.ok ==> e.result == r.(hostDetails := Some(remote.details.data), msg := HostCreated))
      && (!remote.details.ok ==> e.result.failed && e.result.changed && e.result.hostDetails == r.hostDetails)
  {
  }

  /** When `add_host` returns, `main` fails iff the result says so, and passes the result
      on unchanged; empty host data fails with "No host data provided". */
  lemma MainExitDecision(hostData: Record, remote: Remote)
    ensures hostData == map[] ==> MainSpec(hostData, remote) == FailJson(ResultRecord(false, true, NoHostData, None))
    ensures var e := AddHostSpec(hostData, ResultRecord(false, false, NoMsg, None), remote);
      hostData != map[] && e.ending.None? ==>
        (MainSpec(hostData, remote).FailJson? <==> e.result.failed) && MainSpec(hostData, remote).result == e.result
  {
  }

  /** An unresolvable role or access group fails the run before any search, with the
      identifier in the message. */
  lemma UnresolvedFailsBeforeSearch(hostData: Record, remote: Remote)
    requires hostData != map[] && FetchCatalog(remote.roles).Some? && FetchCatalog(remote.accessGroups).Some?
    requires var p := Prepare(hostData, FetchCatalog(remote.roles).value, FetchCatalog(remote.accessGroups).value);
      p.stop.RoleUnresolved? || p.stop.GroupUnresolved?
    ensures var p := Prepare(hostData, FetchCatalog(remote.roles).value, FetchCatalog(remote.accessGroups).value);
      && MainCalls(hostData, remote) == Fetches
      && MainSpec(hostData, remote).FailJson?
      && (p.stop.RoleUnresolved? ==> MainSpec(hostData, remote).result.msg == RoleNotFound(p.stop.ident))
      && (p.stop.GroupUnresolved? ==> MainSpec(hostData, remote).result.msg == AccessGroupNotFound(p.stop.ident))
  {
  }

  /** A failed role or access-group fetch never yields a table: the run ends with a
      traceback before any reconciliation. */
  lemma FailedFetchRaises(hostData: Record, remote: Remote)
    requires hostData != map[] && (!remote.roles.ok || !remote.accessGroups.ok)
    ensures MainSpec(hostData, remote) == Traceback
    ensures forall c :: c in MainCalls(hostData, remote) ==> c == ApiGetRoles || c == ApiGetAccessGroups
  {
  }

  /** A search that fails, or finds hosts none of which is an exact match, does nothing:
      the process exits with the untouched result. */
  lemma NoExactMatchExits(h: Record, r: ResultRecord, remote: Remote)
    requires "common_name" in h
    requires !remote.search.ok
      || (remote.search.count > 0 && forall i :: 0 <= i < |remote.search.items| ==>
            !HasCommonName(remote.search.items[i], h["common_name"]))
    ensures Reconcile(h, r, remote) == Effect(h, r, [ApiSearchHosts(h["common_name"])], None)
  {
  }
}
