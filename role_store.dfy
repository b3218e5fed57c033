/** `PrivXRoleStore`: role lookup by a role dict's `name`, then its `id`, against a freshly
    fetched listing. */
module RoleStore {
  import opened Py
  import opened References

  datatype Error = Raised | NoMatchingRole(input: Value)

  /** `get_roles`. As for access groups, every path other than a readable successful listing
      reaches the undefined `_display` and raises NameError. */
  function GetRoles(response: Listing): (r: Result<Catalog, Error>)
    ensures r.Ok? ==> response.ok && Index(response.items) == Some(r.value) && Coherent(r.value)
    ensures !response.ok ==> r == Err(Raised)
    ensures r.Ok? <==> response.ok && Index(response.items).Some?
  {
    if !response.ok then Err(Raised)
    else match Index(response.items)
      case None => Err(Raised)
      case Some(c) => IndexCoherent(response.items); Ok(c)
  }

  /** `get_role_id_by_input`: `'name' in input and input['name'] in roles_mapping`, then
      `'id' in input and input['id'] in valid_role_ids`. */
  function RoleIdByInput(response: Listing, input: Value): (r: Result<Value, Error>)
    ensures r.Ok? ==> response.ok && Index(response.items).Some? && r.value in Index(response.items).value.ids
  {
    match GetRoles(response)
    case Err(e) => Err(e)
    case Ok(c) =>
      match ResolveRef(c, Field(input, "name"), Field(input, "id"))
      case Found(id) => Ok(id)
      case NotFound => Err(NoMatchingRole(input))
      case TypeError => Err(Raised)
  }

  /** A role dict whose `name` is a known role name resolves to the mapped id. */
  lemma NameWins(response: Listing, input: Value)
    requires response.ok && Index(response.items).Some?
    requires input.Dict? && "name" in input.fields && Hashable(input.fields["name"])
    requires input.fields["name"] in Index(response.items).value.names
    ensures RoleIdByInput(response, input) == Ok(Index(response.items).value.names[input.fields["name"]])
  {
  }

  /** Otherwise a role dict whose `id` is a fetched role id resolves to that id. */
  lemma IdFallback(response: Listing, input: Value)
    requires response.ok && Index(response.items).Some?
    requires input.Dict?
    requires "name" in input.fields ==>
      Hashable(input.fields["name"]) && input.fields["name"] !in Index(response.items).value.names
    requires "id" in input.fields && Hashable(input.fields["id"])
    requires input.fields["id"] in Index(response.items).value.ids
    ensures RoleIdByInput(response, input) == Ok(input.fields["id"])
  {
  }

  /** A role dict matching neither branch raises "No matching role found". */
  lemma NoMatch(response: Listing, input: Value)
    requires response.ok && Index(response.items).Some?
    requires input.Dict?
    requires "name" in input.fields ==>
      Hashable(input.fields["name"]) && input.fields["name"] !in Index(response.items).value.names
    requires "id" in input.fields ==>
      Hashable(input.fields["id"]) && input.fields["id"] !in Index(response.items).value.ids
    ensures RoleIdByInput(response, input) == Err(NoMatchingRole(input))
  {
  }

  /** In particular a role dict with neither key never matches. */
  lemma NoKeysNoMatch(response: Listing, f: Record)
    requires response.ok && Index(response.items).Some?
    requires "name" !in f && "id" !in f
    ensures RoleIdByInput(response, Dict(f)) == Err(NoMatchingRole(Dict(f)))
  {
  }

  /** A failed listing never yields an id. */
  lemma FailedListingRaises(response: Listing, input: Value)
    requires !response.ok
    ensures RoleIdByInput(response, input) == Err(Raised)
  {
  }

  /** A returned id is the id of a fetched role; found by name, it is the id of the LAST
      role carrying that name. */
  lemma ReturnedIdIsFetched(response: Listing, input: Value)
    requires RoleIdByInput(response, input).Ok?
    ensures exists i :: (0 <= i < |response.items| && WellFormedItem(response.items[i])
      && response.items[i].fields["id"] == RoleIdByInput(response, input).value)
    ensures input.Dict? && "name" in input.fields && input.fields["name"] in Index(response.items).value.names ==>
      exists i :: LastItemWithName(response.items, input.fields["name"], i)
        && response.items[i].fields["id"] == RoleIdByInput(response, input).value
  {
    IndexContents(response.items);
  }
}
