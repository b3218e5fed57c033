/** The parts of host reconciliation that the action plugin and the module share word for
    word: the remote answers, the result record, the exact-match filter, the in-place
    resolution of every principal's roles and of the access group, and the merge of the
    desired data over the existing host. */
module HostReconcile {
  import opened Py
  import opened References

  /** `api.search_hosts(...)`: the success flag, `data.get('count', 0)` and `data['items']`. */
  datatype SearchResponse = SearchResponse(ok: bool, count: int, items: seq<Record>)

  /** `api.update_host(...)` and `api.get_host(...)`: the success flag (`ok`, `_ok` or
      `status == HTTPStatus.OK`) and the payload. */
  datatype Response = Response(ok: bool, data: Value)

  /** `api.create_host(...)`: the success flag and the `_data` dict. */
  datatype CreateResponse = CreateResponse(ok: bool, data: Record)

  /** The answer the remote service gives to each call the procedure can make. */
  datatype Remote = Remote(
    roles: Listing, accessGroups: Listing, search: SearchResponse,
    update: Response, create: CreateResponse, details: Response)

  /** A call made on the API object, in the order made. */
  datatype Call =
    | ApiGetRoles
    | ApiGetAccessGroups
    | ApiSearchHosts(commonName: Value)
    | ApiUpdateHost(hostId: Value, data: Record)
    | ApiCreateHost(data: Record)
    | ApiGetHost(hostId: Value)

  /** The `msg` texts. Interpolated parts are kept as values. */
  datatype Msg =
    | NoMsg                                  // ''
    | Authenticated                          // 'Successfully authenticated.'
    | AuthenticationFailed                   // 'Authentication failed: <exception>'
    | InitializationFailed                   // 'Failed to initialize API: <exception>'
    | RoleNotFound(ident: Value)             // "Role identifier '<ident>' not found or invalid."
    | AccessGroupNotFound(ident: Value)      // "Access group '<ident>' not found or invalid."
    | HostUpdated                            // 'Host updated successfully.'
    | HostUpdateFailed(payload: Value)       // 'Host update failed: <payload>'
    | NoUpdateNecessary                      // 'No update necessary; no data has changed.'
    | DetailsRetrieved                       // ' Updated successfully and details retrieved.'
    | UpdatedDetailsNotRetrieved(payload: Value) // ' Failed to retrieve updated host details: <payload>'
    | Then(first: Msg, suffix: Msg)          // `msg += suffix`
    | HostCreated                            // 'Host created successfully and details retrieved.'
    | CreatedDetailsNotRetrieved(payload: Value) // 'Failed to retrieve host details: <payload>'
    | CreatedWithoutId                       // 'Host created but no ID returned in response.'
    | HostCreationFailed(error: Value)       // 'Host creation failed: <error>'
    | NoHostData                             // 'No host data provided'

  /** The result dict `{changed, failed, msg, host_details?}`. */
  datatype ResultRecord = ResultRecord(changed: bool, failed: bool, msg: Msg, hostDetails: Option<Value>)

  /** The `result` dict that `add_host` fills in place. */
  class TaskResult {
    var changed: bool
    var failed: bool
    var msg: Msg
    var hostDetails: Option<Value>

    constructor (msg: Msg)
      ensures Record() == ResultRecord(false, false, msg, None)
    {
      changed, failed, this.msg, hostDetails := false, false, msg, None;
    }

    function Record(): ResultRecord
      reads this
    {
      ResultRecord(changed, failed, msg, hostDetails)
    }
  }

  /** The `host_data` dict that `add_host` rewrites in place. */
  class HostData {
    var fields: Record

    constructor (fields: Record)
      ensures this.fields == fields
    {
      this.fields := fields;
    }
  }

  // ---------------------------------------------------------------------------------
  // filter_exact_matches

  /** `host.get('common_name') == common_name` */
  predicate HasCommonName(host: Record, commonName: Value) {
    Get(host, "common_name", Null) == commonName
  }

  predicate FirstMatch(hosts: seq<Record>, commonName: Value, i: int) {
    0 <= i < |hosts| && HasCommonName(hosts[i], commonName)
    && forall j :: 0 <= j < i ==> !HasCommonName(hosts[j], commonName)
  }

  /** `filter_exact_matches`: the hosts whose `common_name` equals the argument, in input
      order; its head, when there is one, is the first such host. */
  function FilterExactMatches(hosts: seq<Record>, commonName: Value): (r: seq<Record>)
    ensures forall h :: h in r <==> h in hosts && HasCommonName(h, commonName)
    ensures IsSubsequence(r, hosts)
    ensures r != [] ==> exists i :: FirstMatch(hosts, commonName, i) && r[0] == hosts[i]
    ensures r == [] ==> forall i :: 0 <= i < |hosts| ==> !HasCommonName(hosts[i], commonName)
  {
    if hosts == [] then []
    else
      var rest := FilterExactMatches(hosts[1..], commonName);
      if HasCommonName(hosts[0], commonName) then
        assert FirstMatch(hosts, commonName, 0);
        [hosts[0]] + rest
      else
        assert rest != [] ==> exists i :: FirstMatch(hosts, commonName, i) && rest[0] == hosts[i] by {
          if rest != [] {
            var i :| FirstMatch(hosts[1..], commonName, i) && rest[0] == hosts[1..][i];
            assert FirstMatch(hosts, commonName, i + 1);
          }
        }
        rest
  }

  /** Filtering distributes over concatenation, so the result keeps every match, in order,
      and nothing else. */
  lemma {:induction false} FilterAppend(a: seq<Record>, b: seq<Record>, commonName: Value)
    ensures FilterExactMatches(a + b, commonName) == FilterExactMatches(a, commonName) + FilterExactMatches(b, commonName)
  {
    if a != [] {
      assert (a + b)[1..] == a[1..] + b;
      FilterAppend(a[1..], b, commonName);
    } else {
      assert a + b == b;
    }
  }

  // ---------------------------------------------------------------------------------
  // Resolving the roles of every principal

  /** `{'id': role_id}` */
  function IdEntry(id: Value): Value {
    Dict(map["id" := id])
  }

  datatype RoleStep = Resolved(id: Value) | Unknown(ident: Value) | BadRole

  /** The message part of an unresolved role: `role.get('name', role.get('id', 'Unknown'))`;
      on a role that is not a dict the `.get` raises. */
  function NotResolved(role: Value): RoleStep {
    if role.Dict? then Unknown(Get(role.fields, "name", Get(role.fields, "id", Str("Unknown"))))
    else BadRole
  }

  /** One role of a principal, as the inline loop treats it: its name through the name map,
      else its id through the id set; a falsy `role_id` counts as not found. */
  function StepRole(role: Value, roles: Catalog): RoleStep {
    match ResolveRef(roles, Field(role, "name"), Field(role, "id"))
    case TypeError => BadRole
    case Found(id) => if Truthy(id) then Resolved(id) else NotResolved(role)
    case NotFound => NotResolved(role)
  }

  /** A role dict whose `name` is a known role name uses the mapped id, when it is truthy. */
  lemma StepRoleByName(role: Value, roles: Catalog)
    requires role.Dict? && "name" in role.fields && Hashable(role.fields["name"])
    requires role.fields["name"] in roles.names && Truthy(roles.names[role.fields["name"]])
    ensures StepRole(role, roles) == Resolved(roles.names[role.fields["name"]])
  {
  }

  /** Otherwise a role dict whose `id` is a fetched role id uses that id, when it is truthy. */
  lemma StepRoleById(role: Value, roles: Catalog)
    requires role.Dict? && NameMisses(roles, Field(role, "name"))
    requires "id" in role.fields && Hashable(role.fields["id"])
    requires role.fields["id"] in roles.ids && Truthy(role.fields["id"])
    ensures StepRole(role, roles) == Resolved(role.fields["id"])
  {
  }

  /** `if role_id:` on a dict role: a role matching neither table, or one whose chosen id is
      falsy, is reported as unresolved with its `name`, else its `id`, else 'Unknown'. */
  lemma StepRoleUnresolved(role: Value, roles: Catalog)
    requires role.Dict?
    requires var name, id := Field(role, "name"), Field(role, "id");
      || (name.Present? && Hashable(name.v) && name.v in roles.names && !Truthy(roles.names[name.v]))
      || (NameMisses(roles, name) && id.Present? && Hashable(id.v) && id.v in roles.ids && !Truthy(id.v))
      || (NameMisses(roles, name) && IdMisses(roles, id))
    ensures StepRole(role, roles) == Unknown(Get(role.fields, "name", Get(role.fields, "id", Str("Unknown"))))
  {
  }

  /** A role is resolved only to a truthy id from the role tables. */
  lemma StepRoleResolvedIsTruthy(role: Value, roles: Catalog)
    requires Coherent(roles) && StepRole(role, roles).Resolved?
    ensures Truthy(StepRole(role, roles).id) && StepRole(role, roles).id in roles.ids
  {
  }

  /** What `for role in principal['roles']` visits. A non-empty string or dict yields strings,
      on each of which the role test raises, so only the empty ones are iterable here. */
  function RoleItems(v: Value): Option<seq<Value>> {
    match v
    case List(xs) => Some(xs)
    case Str(s) => if s == "" then Some([]) else None
    case Dict(f) => if f == map[] then Some([]) else None
    case _ => None
  }

  datatype Stop = Finished | RoleUnknown(ident: Value) | Crashed

  /** The entries one principal's roles append to `new_roles`, and why the appending stopped. */
  datatype RolesRun = RolesRun(entries: seq<Value>, stop: Stop)

  function ResolveRoles(rs: seq<Value>, roles: Catalog): RolesRun {
    if rs == [] then RolesRun([], Finished)
    else
      var run := ResolveRoles(rs[..|rs| - 1], roles);
      if run.stop != Finished then run
      else match StepRole(rs[|rs| - 1], roles)
        case Resolved(id) => RolesRun(run.entries + [IdEntry(id)], Finished)
        case Unknown(x) => RolesRun(run.entries, RoleUnknown(x))
        case BadRole => RolesRun(run.entries, Crashed)
  }

  /** The state of the principal loop: the indices of the principals whose `roles` now
      refer to the one shared `new_roles` list, that list's contents, and why it stopped. */
  datatype WalkState = WalkState(aliased: set<int>, newRoles: seq<Value>, stop: Stop)

  /** One principal: `if 'roles' in principal`, then every role, then
      `principal['roles'] = new_roles`. */
  function VisitPrincipal(w: WalkState, i: int, p: Value, roles: Catalog): WalkState {
    match Contains(p, "roles")
    case None => w.(stop := Crashed)
    case Some(false) => w
    case Some(true) =>
      if !p.Dict? then w.(stop := Crashed)
      else match RoleItems(p.fields["roles"])
        case None => w.(stop := Crashed)
        case Some(rs) =>
          var run := ResolveRoles(rs, roles);
          if run.stop == Finished then WalkState(w.aliased + {i}, w.newRoles + run.entries, Finished)
          else WalkState(w.aliased, w.newRoles + run.entries, run.stop)
  }

  function Walk(ps: seq<Value>, roles: Catalog): WalkState {
    if ps == [] then WalkState({}, [], Finished)
    else
      var w := Walk(ps[..|ps| - 1], roles);
      if w.stop != Finished then w else VisitPrincipal(w, |ps| - 1, ps[|ps| - 1], roles)
  }

  /** The principals as Python sees them after the loop: every aliased principal's `roles`
      is the shared list with its final contents. */
  function Materialize(ps: seq<Value>, w: WalkState): (r: seq<Value>)
    ensures |r| == |ps|
  {
    seq(|ps|, i requires 0 <= i < |ps| =>
      if i in w.aliased && ps[i].Dict? then Dict(ps[i].fields["roles" := List(w.newRoles)]) else ps[i])
  }

  predicate HasRoles(p: Value) {
    p.Dict? && "roles" in p.fields
  }

  function RolesOf(p: Value): seq<Value> {
    if HasRoles(p) && RoleItems(p.fields["roles"]).Some? then RoleItems(p.fields["roles"]).value else []
  }

  /** Every role reference of every principal, in encounter order. */
  function AllRoleRefs(ps: seq<Value>): seq<Value> {
    if ps == [] then [] else AllRoleRefs(ps[..|ps| - 1]) + RolesOf(ps[|ps| - 1])
  }

  /** `entries` holds one `{'id': ...}` per reference, each reference resolved. */
  predicate ResolvedList(entries: seq<Value>, refs: seq<Value>, roles: Catalog) {
    |entries| == |refs|
    && forall k :: 0 <= k < |refs| ==>
      StepRole(refs[k], roles).Resolved? && entries[k] == IdEntry(StepRole(refs[k], roles).id)
  }

  lemma {:induction false} ResolveRolesStopPersists(rs: seq<Value>, j: int, roles: Catalog)
    requires 0 <= j <= |rs| && ResolveRoles(rs[..j], roles).stop != Finished
    ensures ResolveRoles(rs, roles) == ResolveRoles(rs[..j], roles)
    decreases |rs|
  {
    if j < |rs| {
      var init := rs[..|rs| - 1];
      assert init[..j] == rs[..j];
      ResolveRolesStopPersists(init, j, roles);
    } else {
      assert rs[..j] == rs;
    }
  }

  lemma {:induction false} WalkStopPersists(ps: seq<Value>, i: int, roles: Catalog)
    requires 0 <= i <= |ps| && Walk(ps[..i], roles).stop != Finished
    ensures Walk(ps, roles) == Walk(ps[..i], roles)
    decreases |ps|
  {
    if i < |ps| {
      var init := ps[..|ps| - 1];
      assert init[..i] == ps[..i];
      WalkStopPersists(init, i, roles);
    } else {
      assert ps[..i] == ps;
    }
  }

  /** A completed run over one principal's roles resolved every one of them. */
  lemma {:induction false} ResolveRolesFinished(rs: seq<Value>, roles: Catalog)
    requires ResolveRoles(rs, roles).stop == Finished
    ensures ResolvedList(ResolveRoles(rs, roles).entries, rs, roles)
  {
    if rs != [] {
      var init := rs[..|rs| - 1];
      ResolveRolesFinished(init, roles);
      assert forall k :: 0 <= k < |init| ==> rs[k] == init[k];
    }
  }

  /** Whatever the outcome, every entry appended is `{'id': x}` with `x` a fetched id. */
  lemma {:induction false} ResolveRolesIdsValid(rs: seq<Value>, roles: Catalog)
    requires Coherent(roles)
    ensures forall e :: e in ResolveRoles(rs, roles).entries ==> exists x :: x in roles.ids && e == IdEntry(x)
  {
    if rs != [] {
      ResolveRolesIdsValid(rs[..|rs| - 1], roles);
    }
  }

  /** Whatever the outcome, every entry of the shared list is `{'id': x}` with `x` a fetched id. */
  lemma {:induction false} WalkIdsValid(ps: seq<Value>, roles: Catalog)
    requires Coherent(roles)
    ensures forall e :: e in Walk(ps, roles).newRoles ==> exists x :: x in roles.ids && e == IdEntry(x)
  {
    if ps != [] {
      var init := ps[..|ps| - 1];
      WalkIdsValid(init, roles);
      var p := ps[|ps| - 1];
      if Walk(init, roles).stop == Finished && p.Dict? && "roles" in p.fields && RoleItems(p.fields["roles"]).Some? {
        ResolveRolesIdsValid(RoleItems(p.fields["roles"]).value, roles);
      }
    }
  }

  /** After a completed loop, the principals that share `new_roles` are exactly those that
      have `roles`. */
  lemma {:induction false} WalkAliased(ps: seq<Value>, roles: Catalog)
    requires Walk(ps, roles).stop == Finished
    ensures Walk(ps, roles).aliased == set i | 0 <= i < |ps| && HasRoles(ps[i])
  {
    if ps != [] {
      var init := ps[..|ps| - 1];
      WalkAliased(init, roles);
      assert forall i :: 0 <= i < |init| ==> ps[i] == init[i];
    }
  }

  /** A sequence of resolved references splits along a concatenation. */
  lemma ResolvedListAppend(e1: seq<Value>, r1: seq<Value>, e2: seq<Value>, r2: seq<Value>, roles: Catalog)
    requires ResolvedList(e1, r1, roles) && ResolvedList(e2, r2, roles)
    ensures ResolvedList(e1 + e2, r1 + r2, roles)
  {
    forall k | 0 <= k < |r1 + r2|
      ensures StepRole((r1 + r2)[k], roles).Resolved?
        && (e1 + e2)[k] == IdEntry(StepRole((r1 + r2)[k], roles).id)
    {
      if k < |r1| {
        assert (r1 + r2)[k] == r1[k] && (e1 + e2)[k] == e1[k];
      } else {
        assert (r1 + r2)[k] == r2[k - |r1|] && (e1 + e2)[k] == e2[k - |r1|];
      }
    }
  }

  /** After a completed loop, the shared list holds the resolved `{'id': ...}` of every role
      of every principal, in encounter order. */
  lemma {:induction false} WalkNewRoles(ps: seq<Value>, roles: Catalog)
    requires Walk(ps, roles).stop == Finished
    ensures ResolvedList(Walk(ps, roles).newRoles, AllRoleRefs(ps), roles)
  {
    if ps != [] {
      var init := ps[..|ps| - 1];
      var p := ps[|ps| - 1];
      var w0 := Walk(init, roles);
      WalkNewRoles(init, roles);
      if HasRoles(p) {
        var rs := RoleItems(p.fields["roles"]).value;
        ResolveRolesFinished(rs, roles);
        ResolvedListAppend(w0.newRoles, AllRoleRefs(init), ResolveRoles(rs, roles).entries, rs, roles);
      } else {
        assert AllRoleRefs(ps) == AllRoleRefs(init) + [];
        assert Walk(ps, roles).newRoles == w0.newRoles;
      }
    }
  }

  /** The aliasing of `new_roles`: after a completed loop, every principal that has `roles`
      refers to the one shared list, which holds the resolved `{'id': ...}` of every role of
      every principal, in encounter order; the other principals are untouched. */
  lemma SharedRoleList(ps: seq<Value>, roles: Catalog)
    requires Walk(ps, roles).stop == Finished
    ensures ResolvedList(Walk(ps, roles).newRoles, AllRoleRefs(ps), roles)
    ensures forall i :: 0 <= i < |ps| && HasRoles(ps[i]) ==>
      Materialize(ps, Walk(ps, roles))[i] == Dict(ps[i].fields["roles" := List(Walk(ps, roles).newRoles)])
    ensures forall i :: 0 <= i < |ps| && !HasRoles(ps[i]) ==> Materialize(ps, Walk(ps, roles))[i] == ps[i]
  {
    WalkAliased(ps, roles);
    WalkNewRoles(ps, roles);
  }

  // ---------------------------------------------------------------------------------
  // Resolving the access group and preparing host_data

  datatype GroupStep = NoGroup | GroupResolved(id: Value) | GroupUnknown(ident: Value) | GroupRaised

  /** `if 'access_group' in host_data`: the identifier as a group name first, then as a group
      id; a falsy `ag_id` counts as not found. */
  function ResolveGroup(h: Record, groups: Catalog): GroupStep {
    if "access_group" !in h then NoGroup
    else
      var ag := h["access_group"];
      match ResolveRef(groups, Present(ag), Present(ag))
      case TypeError => GroupRaised
      case Found(id) => if Truthy(id) then GroupResolved(id) else GroupUnknown(ag)
      case NotFound => GroupUnknown(ag)
  }

  /** The access group, as a group name first and then as a group id; a missing or falsy
      id is unresolved, an unhashable identifier raises, and no `access_group` is no step. */
  lemma ResolveGroupCases(h: Record, groups: Catalog)
    ensures "access_group" !in h ==> ResolveGroup(h, groups) == NoGroup
    ensures "access_group" in h && !Hashable(h["access_group"]) ==> ResolveGroup(h, groups) == GroupRaised
    ensures "access_group" in h && Hashable(h["access_group"]) ==> var ag := h["access_group"];
      && (ag in groups.names && Truthy(groups.names[ag]) ==>
            ResolveGroup(h, groups) == GroupResolved(groups.names[ag]))
      && (ag !in groups.names && ag in groups.ids && Truthy(ag) ==> ResolveGroup(h, groups) == GroupResolved(ag))
      && ((|| (ag in groups.names && !Truthy(groups.names[ag]))
           || (ag !in groups.names && ag in groups.ids && !Truthy(ag))
           || (ag !in groups.names && ag !in groups.ids)) ==> ResolveGroup(h, groups) == GroupUnknown(ag))
  {
  }

  /** What `for principal in host_data.get('principals', [])` visits. A string yields its
      characters, none of which contains 'roles'; a dict yields its keys, and one that
      contains 'roles' makes `principal['roles']` raise. */
  function PrincipalItems(h: Record): Option<seq<Value>> {
    if "principals" !in h then Some([])
    else match h["principals"]
      case List(xs) => Some(xs)
      case Str(s) => Some(seq(|s|, i requires 0 <= i < |s| => Str([s[i]])))
      case Dict(f) => if exists k | k in f :: IsSubstring("roles", k) then None else Some([])
      case _ => None
  }

  /** `host_data` after the principal loop: only a list of principals holds dicts that the
      loop can rewrite. */
  function WithRoles(h: Record, ps: seq<Value>, w: WalkState): Record {
    if "principals" in h && h["principals"].List? then h["principals" := List(Materialize(ps, w))] else h
  }

  datatype PrepStop = Ready | RoleUnresolved(ident: Value) | GroupUnresolved(ident: Value) | PrepCrashed

  datatype Prepared = Prepared(fields: Record, stop: PrepStop)

  /** Lines shared by both `add_host`s between the fetches and the search: roles first,
      then the access group, each stopping the procedure when it cannot resolve. */
  function Prepare(h: Record, roles: Catalog, groups: Catalog): Prepared {
    match PrincipalItems(h)
    case None => Prepared(h, PrepCrashed)
    case Some(ps) =>
      var w := Walk(ps, roles);
      var h1 := WithRoles(h, ps, w);
      match w.stop
      case Crashed => Prepared(h1, PrepCrashed)
      case RoleUnknown(x) => Prepared(h1, RoleUnresolved(x))
      case Finished =>
        match ResolveGroup(h1, groups)
        case NoGroup => Prepared(h1, Ready)
        case GroupRaised => Prepared(h1, PrepCrashed)
        case GroupUnknown(x) => Prepared(h1, GroupUnresolved(x))
        case GroupResolved(id) => Prepared(h1["access_group_id" := id] - {"access_group"}, Ready)
  }

  /** The nested loop over principals and their roles, appending to the one `new_roles`. */
  method ResolvePrincipalRoles(ps: seq<Value>, roles: Catalog) returns (w: WalkState)
    ensures w == Walk(ps, roles)
  {
    var aliased: set<int> := {};
    var newRoles: seq<Value> := [];
    var i := 0;
    while i < |ps|
      invariant 0 <= i <= |ps|
      invariant Walk(ps[..i], roles) == WalkState(aliased, newRoles, Finished)
    {
      assert ps[..i + 1][..i] == ps[..i];
      var principal := ps[i];
      var hasRoles := Contains(principal, "roles");
      if hasRoles.None? {
        w := WalkState(aliased, newRoles, Crashed);
        WalkStopPersists(ps, i + 1, roles);
        return;
      }
      if hasRoles.value {
        if !principal.Dict? {
          w := WalkState(aliased, newRoles, Crashed);
          WalkStopPersists(ps, i + 1, roles);
          return;
        }
        var items := RoleItems(principal.fields["roles"]);
        if items.None? {
          w := WalkState(aliased, newRoles, Crashed);
          WalkStopPersists(ps, i + 1, roles);
          return;
        }
        var rs := items.value;
        ghost var entries: seq<Value> := [];
        ghost var base := newRoles;
        var j := 0;
        while j < |rs|
          invariant 0 <= j <= |rs|
          invariant ResolveRoles(rs[..j], roles) == RolesRun(entries, Finished)
          invariant newRoles == base + entries
        {
          assert rs[..j + 1][..j] == rs[..j];
          var step := StepRole(rs[j], roles);
          match step {
            case Resolved(id) =>
              newRoles := newRoles + [IdEntry(id)];
              entries := entries + [IdEntry(id)];
            case Unknown(x) =>
              w := WalkState(aliased, newRoles, RoleUnknown(x));
              ResolveRolesStopPersists(rs, j + 1, roles);
              WalkStopPersists(ps, i + 1, roles);
              return;
            case BadRole =>
              w := WalkState(aliased, newRoles, Crashed);
              ResolveRolesStopPersists(rs, j + 1, roles);
              WalkStopPersists(ps, i + 1, roles);
              return;
          }
          j := j + 1;
        }
        assert rs[..j] == rs;
        aliased := aliased + {i};
      }
      i := i + 1;
    }
    assert ps[..i] == ps;
    w := WalkState(aliased, newRoles, Finished);
  }

  /** Rewrites `host_data` in place: the resolved role lists, then `access_group_id` for
      `access_group`. */
  method PrepareHost(hostData: HostData, roles: Catalog, groups: Catalog) returns (stop: PrepStop)
    modifies hostData
    ensures Prepared(hostData.fields, stop) == Prepare(old(hostData.fields), roles, groups)
  {
    var items := PrincipalItems(hostData.fields);
    if items.None? {
      return PrepCrashed;
    }
    var w := ResolvePrincipalRoles(items.value, roles);
    if "principals" in hostData.fields && hostData.fields["principals"].List? {
      hostData.fields := hostData.fields["principals" := List(Materialize(items.value, w))];
    }
    match w.stop {
      case Crashed => return PrepCrashed;
      case RoleUnknown(x) => return RoleUnresolved(x);
      case Finished =>
    }
    var group := ResolveGroup(hostData.fields, groups);
    match group {
      case NoGroup => stop := Ready;
      case GroupRaised => stop := PrepCrashed;
      case GroupUnknown(x) => stop := GroupUnresolved(x);
      case GroupResolved(id) =>
        hostData.fields := hostData.fields["access_group_id" := id];
        hostData.fields := hostData.fields - {"access_group"};
        stop := Ready;
    }
  }

  /** A resolvable access group is replaced by `access_group_id`: the symbolic key is gone
      and the id is present; the other keys are kept. */
  lemma GroupReplaced(h: Record, roles: Catalog, groups: Catalog)
    requires Prepare(h, roles, groups).stop == Ready && "access_group" in h
    ensures var p := Prepare(h, roles, groups);
      && "access_group" !in p.fields && "access_group_id" in p.fields
      && ResolveGroup(WithRoles(h, PrincipalItems(h).value, Walk(PrincipalItems(h).value, roles)), groups)
        == GroupResolved(p.fields["access_group_id"])
      && forall k :: k in h && k != "access_group" && k != "access_group_id" && k != "principals" ==>
        k in p.fields && p.fields[k] == h[k]
  {
  }

  // ---------------------------------------------------------------------------------
  // update_host: the merge

  /** Reference definition of the merge: the existing host overlaid with every desired key,
      `external_id` included only when overriding. */
  function Overlay(existing: Record, desired: Record, override: bool): Record {
    existing + (if override then desired else desired - {"external_id"})
  }

  /** `updated_host_data = existing_host_data.copy()`, then the loop over the desired items. */
  method MergeHost(existing: Record, desired: Record, override: bool) returns (updated: Record)
    ensures updated == Overlay(existing, desired, override)
  {
    updated := existing;
    var keys := desired.Keys;
    while keys != {}
      invariant keys <= desired.Keys
      invariant forall k :: k in updated <==> k in existing || (k in desired && k !in keys && (override || k != "external_id"))
      invariant forall k :: k in updated ==> updated[k] == Overlay(existing, desired, override)[k] || k in keys
      invariant forall k :: k in updated && k !in keys ==> updated[k] == Overlay(existing, desired, override)[k]
      invariant forall k :: k in existing && k in keys ==> updated[k] == existing[k]
      decreases keys
    {
      var key :| key in keys;
      if !(key == "external_id" && !override) {
        updated := updated[key := desired[key]];
      }
      keys := keys - {key};
    }
    assert updated.Keys == Overlay(existing, desired, override).Keys;
  }

  /** What the merge keeps and what it takes. */
  lemma OverlayFields(existing: Record, desired: Record, override: bool)
    ensures forall k :: k in Overlay(existing, desired, override) <==>
      k in existing || (k in desired && (override || k != "external_id"))
    ensures forall k :: k in desired && k != "external_id" ==> Overlay(existing, desired, override)[k] == desired[k]
    ensures forall k :: k in existing && k !in desired ==> Overlay(existing, desired, override)[k] == existing[k]
    ensures !override ==> Get(Overlay(existing, desired, override), "external_id", Null) == Get(existing, "external_id", Null)
    ensures !override ==> ("external_id" in Overlay(existing, desired, override) <==> "external_id" in existing)
    ensures override && "external_id" in desired ==>
      Overlay(existing, desired, override)["external_id"] == desired["external_id"]
  {
  }
}
