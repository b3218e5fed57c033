# community.privx — a Dafny model of the decision logic

This project models the decision logic of the `community.privx` Ansible collection. The collection registers hosts in a PrivX server and reads data from it. Every remote call is an input here: a success flag plus a payload. A method that makes calls also returns the calls it made, in order, as a trace.

The model covers:

- **privx_utils**: the argument spec every module accepts (`CommonConfigSpec`, `DefineArgumentSpec`), and `diff_dicts` (`DiffDicts`). `DiffDicts` is proved equal to a reference definition, `Diff`.
- **authorizer / role_store**: name-or-id lookup against a fetched listing.
  - The shared part is in module `References`: the name→id map (the last item with a name wins), the id set, and the choice "name first, then id" (`ResolveRef`).
  - In both files the warning path uses an undefined `_display`, so a failed fetch raises.
- **action plugin `add_host`**: `add_host` rewrites `host_data` in place, then searches, then updates, does nothing, or creates, filling the result dict. A spec function (`AddHostSpec`, `RunSpec`) mirrors each branch of the source. The class-based methods (`HostData`, `TaskResult`) are proved to reach exactly that state.
- **module `add_host`**: the same procedure, with these differences:
  - every outcome is a process ending (`ExitJson`, `FailJson`, `Traceback`);
  - the desired `external_id` is never copied into an update (updates carry the existing host's `external_id`; a create sends the desired data as it is);
  - `update_host` always ends the process;
  - the create path checks that an `id` key is present, not that it is truthy.
- **lookup plugin**: `validate_config`, and the term loop of `run` over an API object. The API object is a map from attribute names to a member: not callable, or a function that says whether it takes parameters and what each way of calling it gives.

Shared reconciliation pieces are in module `HostReconcile`:

- `FilterExactMatches`;
- the nested role loop (`ResolvePrincipalRoles` against `Walk`);
- access-group resolution (`Prepare` / `PrepareHost`);
- the override-guarded merge (`MergeHost` against `Overlay`).

Python values are the datatype `Py.Value`. Datatype equality stands for Python's deep `==`. Python's `in` (dict keys, substrings, list elements, otherwise a TypeError), truthiness and hashability are written out, because the source depends on their edge cases.

### Behaviours the proofs pin down

These are modelled as the code is written, not as the authors may have meant them.

- **One shared role list.** `new_roles` is created once, outside the principal loop. After a completed loop, every principal with `roles` refers to the same list. That list holds the resolved `{'id': …}` of every role of every principal, in encounter order (`HostReconcile.SharedRoleList`). When the loop stops early, the principals already visited still point at the partly filled list. `Materialize` computes that state.
- **No-op update reported as failure.** In the action plugin, an update that changes nothing is reported as `failed` with "No update necessary" (`ActionAddHost.NoOpReportedAsFailure`).
- **`changed` stays false after a successful create.** When a create and the detail fetch both succeed, `changed` stays false. When the detail fetch fails, both `failed` and `changed` are set (`ActionAddHost.CreateOutcomes`).
- **Search hits with no exact match do nothing.** A search that finds hosts, none of which is an exact match, does nothing (`ActionAddHost.NoExactMatchDoesNothing`).
- **Dead code in the module.** In the module, `update_host` never returns. So lines 199-211 of `plugins/modules/add_host.py` cannot run, and an updated host's details are never fetched (`ModuleAddHost.NoDetailsAfterUpdate`).
- **Exceptions in the action plugin.** An exception inside the action plugin's `add_host` is reported by `run` as "Failed to initialize API" (`ActionAddHost.RunOutcomes`). Such exceptions include:
  - a role listing whose items lack `name`, which makes `get_valid_roles` return `{}` and the caller fail to unpack it;
  - a created host without an `id` key.

## Model

| member | source | states |
|---|---|---|
| `PrivxUtils.CommonConfigSpec` | plugins/module_utils/privx_utils.py:19-28 | exactly the seven connection settings; all required; `hostport` is an int, the rest are strings |
| `PrivxUtils.DefineArgumentSpec` | plugins/module_utils/privx_utils.py:30-41 | keys are the module's keys plus `config`; the module's entries win a clash; without a module `config` the entry is the common one |
| `PrivxUtils.ConfigEntryOptions` | plugins/module_utils/privx_utils.py:20-41 | the `config` entry is a required dict whose options are exactly the seven required common settings |
| `PrivxUtils.DiffDicts` | plugins/module_utils/privx_utils.py:43-60 | the three in-place loops produce exactly the reference diff |
| `PrivxUtils.DiffKeys` | plugins/module_utils/privx_utils.py:49-59 | a key is in the diff iff it is on one side only, or on both with unequal values |
| `PrivxUtils.DiffEntries` | plugins/module_utils/privx_utils.py:49-60 | one-sided keys map to `{old, None}` / `{None, new}`; shared differing keys map to both values; keys stay within the union |
| `PrivxUtils.DiffSelfIsEmpty` | plugins/module_utils/privx_utils.py:57-59 | the diff of a map with itself is empty |
| `PrivxUtils.DiffSwap` | plugins/module_utils/privx_utils.py:49-59 | swapping the arguments gives the same keys, with old and new swapped |
| `PrivxUtils.PatchDiff` | plugins/module_utils/privx_utils.py:43-60 | applying the diff to the first map rebuilds the second, when the second has no None values |
| `References.NameMapLastWins` | module_utils/authorizer.py:9 | a name is mapped iff some item carries it, and it maps to the id of the last such item |
| `References.NameMapDomain` | module_utils/authorizer.py:9 | a name is a key of the name map iff some fetched item carries it |
| `References.NameMapLast` | plugins/module_utils/role_store.py:9 | a mapped name maps to the id of the last item carrying it |
| `References.IndexCoherent` | module_utils/authorizer.py:9-10 | every id in the name map is in the id set |
| `References.IndexContents` | plugins/module_utils/role_store.py:9-10 | the id set is exactly the items' ids; each name maps to its last item's id; building the tables requires every item to be a dict with a hashable name and id |
| `References.ResolveRef` | plugins/module_utils/role_store.py:24-29 | a hashable name in the name map gives the mapped id; otherwise a hashable id in the id set gives that id; neither gives not found, and only then; an unhashable or unreadable probe raises, and only then; a found id is in the id set |
| `Authorizer.GetAccessGroups` | module_utils/authorizer.py:4-17 | succeeds iff the listing is ok and its tables can be built, and then returns those tables; a failed listing raises |
| `Authorizer.AccessGroupByInput` | module_utils/authorizer.py:20-31 | a returned id comes from an ok listing and is in its id set |
| `Authorizer.NameWins` | module_utils/authorizer.py:24-25 | a known name gives the mapped id, even when the input is also an id |
| `Authorizer.IdFallback` | module_utils/authorizer.py:26-27 | an input that is not a name but is an id is returned unchanged |
| `Authorizer.NoMatch` | module_utils/authorizer.py:28-29 | neither a name nor an id: "No matching access group found" |
| `Authorizer.FailedListingRaises` | module_utils/authorizer.py:12-17 | a failed listing never yields an id |
| `Authorizer.ReturnedIdIsFetched` | module_utils/authorizer.py:9-10 | the result is a fetched item's id; for a name, it is the last item with that name |
| `RoleStore.GetRoles` | plugins/module_utils/role_store.py:4-17 | succeeds iff the listing is ok and its tables can be built, and then returns those tables; a failed listing raises |
| `RoleStore.RoleIdByInput` | plugins/module_utils/role_store.py:20-31 | a returned id comes from an ok listing and is in its id set |
| `RoleStore.NameWins` | plugins/module_utils/role_store.py:24-25 | a dict whose `name` is a known name resolves to the mapped id |
| `RoleStore.IdFallback` | plugins/module_utils/role_store.py:26-27 | otherwise, a dict whose `id` is a fetched id resolves to that id |
| `RoleStore.NoMatch` | plugins/module_utils/role_store.py:28-29 | a dict matching neither branch gives "No matching role found" |
| `RoleStore.NoKeysNoMatch` | plugins/module_utils/role_store.py:24-29 | a dict with neither key never matches |
| `RoleStore.FailedListingRaises` | plugins/module_utils/role_store.py:12-17 | a failed listing never yields an id |
| `RoleStore.ReturnedIdIsFetched` | plugins/module_utils/role_store.py:9-10 | the result is a fetched role's id; found by name, it is the last role with that name |
| `HostReconcile.TaskResult.constructor` | plugins/action/add_host.py:69-73 | a fresh result: not changed, not failed, the given message, no details |
| `HostReconcile.HostData.constructor` | plugins/action/add_host.py:90 | holds the given host data |
| `HostReconcile.FilterExactMatches` | plugins/action/add_host.py:103-104 | exactly the hosts whose `common_name` equals the argument, as a subsequence of the input; its head is the first match; empty iff nothing matches |
| `HostReconcile.FilterAppend` | plugins/modules/add_host.py:119-120 | filtering distributes over concatenation, so order and multiplicity are kept |
| `HostReconcile.StepRoleByName` | plugins/action/add_host.py:144-145 | a role dict whose hashable `name` is in the name map resolves to the mapped id, when that id is truthy |
| `HostReconcile.StepRoleById` | plugins/action/add_host.py:146-147 | a role dict whose name misses, and whose hashable `id` is a fetched id, resolves to that id, when it is truthy |
| `HostReconcile.StepRoleUnresolved` | plugins/action/add_host.py:143-153 | a role dict matching neither table, or whose chosen id is falsy, is unresolved, reported by its `name`, else its `id`, else 'Unknown' |
| `HostReconcile.StepRoleResolvedIsTruthy` | plugins/modules/add_host.py:156-163 | a resolved role id is truthy and a fetched role id |
| `HostReconcile.ResolveGroupCases` | plugins/action/add_host.py:158-168 | no `access_group`: nothing to do; an unhashable identifier raises; a known name gives its mapped id, otherwise a fetched id gives itself, each only when truthy; a falsy id or no match is unresolved |
| `HostReconcile.ResolvePrincipalRoles` | plugins/action/add_host.py:139-155 | the nested loop with its early returns computes exactly `Walk`: the aliased principals, the shared list and why it stopped |
| `HostReconcile.ResolveRolesStopPersists` | plugins/action/add_host.py:151-154 | once a role fails, the later roles change nothing |
| `HostReconcile.WalkStopPersists` | plugins/action/add_host.py:151-154 | once the principal loop stops, the later principals change nothing |
| `HostReconcile.ResolveRolesFinished` | plugins/action/add_host.py:142-150 | a completed run over one principal's roles resolved each role, in order |
| `HostReconcile.ResolveRolesIdsValid` | plugins/action/add_host.py:143-150 | on any outcome, every appended entry is `{'id': x}` with `x` a fetched role id |
| `HostReconcile.WalkIdsValid` | plugins/modules/add_host.py:152-168 | on any outcome, every entry of the shared list is `{'id': x}` with `x` a fetched role id |
| `HostReconcile.WalkAliased` | plugins/action/add_host.py:139-155 | after a completed loop, the principals sharing `new_roles` are exactly those with `roles` |
| `HostReconcile.ResolvedListAppend` | plugins/action/add_host.py:150 | appending resolved entries keeps them aligned with their role references |
| `HostReconcile.WalkNewRoles` | plugins/modules/add_host.py:152-168 | after a completed loop, the shared list holds the resolved id of every role of every principal, in encounter order |
| `HostReconcile.SharedRoleList` | plugins/action/add_host.py:139-155 | every principal with `roles` ends up holding the one shared list of all resolved ids; the other principals are untouched |
| `HostReconcile.PrepareHost` | plugins/action/add_host.py:139-172 | rewrites `host_data` in place exactly as `Prepare` says: role lists first, then `access_group` replaced by `access_group_id`, stopping on the first failure |
| `HostReconcile.GroupReplaced` | plugins/modules/add_host.py:171-185 | after a successful preparation, `access_group` is gone and `access_group_id` is the resolved id; the other keys are kept |
| `HostReconcile.MergeHost` | plugins/action/add_host.py:114-121 | the copy-and-overwrite loop produces exactly `Overlay`: the existing host with the desired keys laid over it, `external_id` only when overriding |
| `HostReconcile.OverlayFields` | plugins/action/add_host.py:117-121 | which keys the merge has and where each value comes from; without override, `external_id` keeps its existing value; with override, it takes the desired one |
| `ActionAddHost.FetchCatalog` | plugins/action/add_host.py:18-47 | a failed fetch gives empty tables; an ok fetch gives its tables, or raises when they cannot be built; tables are coherent |
| `ActionAddHost.UpdateHost` | plugins/action/add_host.py:106-131 | the merge loop, then an update call iff the merge changed the host; changed iff that call succeeded |
| `ActionAddHost.UpdateExisting` | plugins/action/add_host.py:183-198 | fills the result exactly as `UpdatePath` says |
| `ActionAddHost.CreateHost` | plugins/action/add_host.py:200-220 | fills the result exactly as `CreatePath` says |
| `ActionAddHost.ReconcileHost` | plugins/action/add_host.py:174-220 | fills the result exactly as `Reconcile` says |
| `ActionAddHost.AddHost` | plugins/action/add_host.py:133-221 | leaves `host_data`, the result, the call trace and the exception flag exactly as `AddHostSpec` says |
| `ActionAddHost.Run` | plugins/action/add_host.py:67-101 | the result dict and calls of `run`, equal to `RunSpec` / `RunCalls` |
| `ActionAddHost.UpdateNeeded` | plugins/action/add_host.py:117-124 | the merge changes the host iff some desired key, other than a guarded `external_id`, is missing or different |
| `ActionAddHost.NoOpReportedAsFailure` | plugins/action/add_host.py:124-131 | a no-op makes no call and fails with "No update necessary"; a rejected update fails with its payload |
| `ActionAddHost.UpdateSucceeded` | plugins/action/add_host.py:186-195 | a successful update sets `changed` and fetches details; a successful fetch sets `host_details` and reports the details as retrieved; a failed fetch leaves `host_details` as it was and reports its payload |
| `ActionAddHost.UpdateGuardsExternalId` | plugins/action/add_host.py:118-120 | without override, the update sent keeps the existing `external_id` |
| `ActionAddHost.UnresolvedStopsBeforeSearch` | plugins/action/add_host.py:151-172 | an unresolved role or access group sets `failed` and the identifier's message, and makes no search, update or create call |
| `ActionAddHost.RoleFailureFirst` | plugins/action/add_host.py:138-172 | an unresolved role stops the run before the access group is touched |
| `ActionAddHost.UnknownRoleMessage` | plugins/action/add_host.py:153 | a role with neither `name` nor `id` is reported as 'Unknown' |
| `ActionAddHost.NoExactMatchDoesNothing` | plugins/action/add_host.py:178-181 | a failed search, or hits without an exact match, make no further call and leave the result unchanged |
| `ActionAddHost.FirstExactMatchUpdated` | plugins/action/add_host.py:180-184 | the update goes to the first exact match, by its `id`, with the merged data |
| `ActionAddHost.CreateOutcomes` | plugins/action/add_host.py:202-214 | create and detail fetch both ok: details set, `changed` false; fetch fails: `failed` and `changed` |
| `ActionAddHost.CreateErrors` | plugins/action/add_host.py:203-220 | no `id` key raises; a falsy id is "no ID returned"; a rejected create reports `error` or "Unknown error" |
| `ActionAddHost.RunOutcomes` | plugins/action/add_host.py:78-99 | an initialisation or authentication failure is reported; empty host data leaves the result untouched; none of these makes a call; an exception in `add_host` becomes "Failed to initialize API" |
| `ModuleAddHost.FetchCatalog` | plugins/modules/add_host.py:18-47 | only an ok, well-formed fetch returns tables, and they are coherent; anything else reaches the undefined `_display` and raises |
| `ModuleAddHost.UpdateHost` | plugins/modules/add_host.py:122-144 | the merge loop without `external_id`, then the ending exactly as `UpdateEnding` says |
| `ModuleAddHost.CreateHost` | plugins/modules/add_host.py:213-234 | fills the result exactly as `CreatePath` says |
| `ModuleAddHost.ReconcileHost` | plugins/modules/add_host.py:187-235 | fills the result or ends the process exactly as `Reconcile` says |
| `ModuleAddHost.AddHost` | plugins/modules/add_host.py:146-235 | leaves `host_data`, the result, the calls and the ending exactly as `AddHostSpec` says |
| `ModuleAddHost.RunMain` | plugins/modules/add_host.py:106-117 | the process ending and calls, equal to `MainSpec` / `MainCalls` |
| `ModuleAddHost.UpdateAlwaysEnds` | plugins/modules/add_host.py:135-144 | success exits with `changed`; a rejected update fails; no change exits with "No update necessary" and makes no call |
| `ModuleAddHost.ExternalIdNeverCopied` | plugins/modules/add_host.py:128-132 | every update sent keeps the existing `external_id`, or has none |
| `ModuleAddHost.NoDetailsAfterUpdate` | plugins/modules/add_host.py:196-211 | once an update call is made the process has ended, so no ending reports updated details |
| `ModuleAddHost.CreateErrors` | plugins/modules/add_host.py:216-234 | "no ID returned" iff the create succeeded without an `id` key; a rejected create reports `error` or "Unknown error" |
| `ModuleAddHost.CreateOutcomes` | plugins/modules/add_host.py:217-228 | any `id` is fetched; both ok: details set, `changed` false; fetch fails: `failed` and `changed` |
| `ModuleAddHost.MainExitDecision` | plugins/modules/add_host.py:107-117 | empty host data fails with "No host data provided"; otherwise `fail_json` iff `failed`, carrying the result |
| `ModuleAddHost.UnresolvedFailsBeforeSearch` | plugins/modules/add_host.py:152-185 | an unresolved role or access group ends in `fail_json` with its message, after only the two fetches |
| `ModuleAddHost.FailedFetchRaises` | plugins/modules/add_host.py:18-47 | a failed role or access-group fetch ends in a traceback, with no call beyond the fetches |
| `ModuleAddHost.NoExactMatchExits` | plugins/modules/add_host.py:191-194 | a failed search, or hits without an exact match, leave the result untouched |
| `PrivxLookup.MissingKeys` | plugins/lookup/privx_lookup.py:51 | the missing keys are exactly the required keys the config lacks, in `REQUIRED_CONFIG_KEYS` order |
| `PrivxLookup.ValidateConfig` | plugins/lookup/privx_lookup.py:50-55 | true iff every required key is in the config; raises on a config that is not a container |
| `PrivxLookup.ValidateDict` | plugins/lookup/privx_lookup.py:14-18 | for a dict: valid iff all seven keys are present; extra keys do not matter |
| `PrivxLookup.RequiredKeysAreCommonConfig` | plugins/lookup/privx_lookup.py:14-18 | the required keys are exactly the settings of the common config spec |
| `PrivxLookup.Run` | plugins/lookup/privx_lookup.py:59-92 | the results and calls of `run`, equal to `RunSpec` / `RunCalls`; the calls made before a term raises are kept |
| `PrivxLookup.CollectCrashPersists` | plugins/lookup/privx_lookup.py:78 | a name `getattr` rejects ends the whole run, with the results and calls gathered before it |
| `PrivxLookup.CrashKeepsEarlierCalls` | plugins/lookup/privx_lookup.py:77-85 | after string terms, a non-string term raises, and the calls already made for the earlier terms stand |
| `PrivxLookup.CollectCrashes` | plugins/lookup/privx_lookup.py:77-78 | the loop raises iff some term is not a string |
| `PrivxLookup.AtMostOnePerTerm` | plugins/lookup/privx_lookup.py:76-92 | at most one result and one call per term |
| `PrivxLookup.CollectAppend` | plugins/lookup/privx_lookup.py:76-92 | after terms that do not raise, the results and calls of a concatenation are those of its parts, in term order, and it raises iff the second part does |
| `PrivxLookup.SilentTermsContributeNothing` | plugins/lookup/privx_lookup.py:86-90 | unknown names, non-callables and calls that raise add nothing |
| `PrivxLookup.FilterPassing` | plugins/lookup/privx_lookup.py:81-85 | the filter is passed iff the function takes parameters and a filter is given; the result is kept iff the call returns |
| `PrivxLookup.ConfigCheckedFirst` | plugins/lookup/privx_lookup.py:64-74 | an invalid config is rejected before the API is used; a config that cannot be read raises; a valid config that is not a dict, or an API object that was not built, gives no results and no calls |
| `PrivxLookup.NonListTermWrapped` | plugins/lookup/privx_lookup.py:68-69 | a single non-list term is looked up as one term, for its result and its call |

## Left out

- SDK client construction, `authenticate`, certificate loading (`get_certificate_content`, file I/O) and the HTTP status checks (`ok`, `_ok`, `status == HTTPStatus.OK`) are foreign calls. Each response is an input: a success flag plus a payload. For the action plugin, initialisation and authentication are boolean inputs. For the lookup plugin, the input is whether building the API object from a dict config succeeded; a config that is not a dict never gives one, because `config.get` raises and the handler leaves `privx` as None.
- The module's connection setup (`PrivXAnsibleModule`, `plugins/module_utils/privx_utils.py:62-116`) is not modelled. `ModuleAddHost.RunMain` starts with the API ready.
- The Ansible framework is not modelled. This covers `AnsibleModule` argument parsing, type checking and the defaulting of sub-options, and `ActionBase.run`.
  - `host_data` is taken as the dict that reaches `add_host`. When Ansible fills absent sub-options with None, `principals` and `access_group` present as None do go down the crash and "not found" paths of the model.
  - `exit_json` and `fail_json` are terminal outcomes that carry a result record (`changed`, `failed`, `msg`, `host_details`).
- `Display` and `_display` logging is left out. It is I/O. Only where the name is undefined, and so raises, does it affect the outcome.
- `getattr` / `inspect.signature` reflection in the lookup plugin is an abstract map. Each name maps to "not callable", or to a function with a has-parameters flag and the outcome of each way of calling it.
- Messages are constructors of `HostReconcile.Msg`. Interpolated values are kept as values, not formatted into text. Exception texts (`AuthenticationFailed`, `InitializationFailed`) are not kept.
- Python's `True == 1` and `hash(True) == hash(1)` are not modelled. `Bool` and `Int` values are distinct.
- The search response is typed: `count` is an integer that defaults to 0, and `items` is a list of dicts. A search payload without `items`, or with non-dict items, is not modelled. The create response's `_data` is a dict.
- A role or access-group listing's `data['items']` is a list of values (`References.Listing`). A listing without `items`, or whose `items` is not a list (where `""` or `{}` would give empty tables), is not modelled.
- `Py.Value` has no floats, and dict keys are strings only.
- The host data of the action plugin is typed as a dict. A non-dict `host_data` argument is not modelled.
- `ActionAddHost.Run` takes `override` as a boolean: the truthiness of the `override` argument.
- Concurrency and the remote service's own state are not modelled. Each call's answer is fixed per run.
