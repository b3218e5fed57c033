/** `PrivXAuthorizer`: access-group lookup by name or id against a freshly fetched listing. */
module Authorizer {
  import opened Py
  import opened References

  datatype Error = Raised | NoMatchingAccessGroup(input: Value)

  /** `get_access_groups`. A successful listing gives both tables. A failed listing, or one
      whose items the comprehensions cannot read, reaches a `_display` call, and `_display`
      is not defined in this file: the NameError propagates. */
  function GetAccessGroups(response: Listing): (r: Result<Catalog, Error>)
    ensures r.Ok? ==> response.ok && Index(response.items) == Some(r.value) && Coherent(r.value)
    ensures !response.ok ==> r == Err(Raised)
    ensures r.Ok? <==> response.ok && Index(response.items).Some?
  {
    if !response.ok then Err(Raised)
    else match Index(response.items)
      case None => Err(Raised)
      case Some(c) => IndexCoherent(response.items); Ok(c)
  }

  /** `get_access_group_by_input`: the input as a group name first, then as a group id. */
  function AccessGroupByInput(response: Listing, input: Value): (r: Result<Value, Error>)
    ensures r.Ok? ==> response.ok && Index(response.items).Some? && r.value in Index(response.items).value.ids
  {
    match GetAccessGroups(response)
    case Err(e) => Err(e)
    case Ok(c) =>
      match ResolveRef(c, Present(input), Present(input))
      case Found(id) => Ok(id)
      case NotFound => Err(NoMatchingAccessGroup(input))
      case TypeError => Err(Raised)
  }

  /** A known group name gives its mapped id, even when the input is also some group's id. */
  lemma NameWins(response: Listing, input: Value)
    requires response.ok && Index(response.items).Some?
    requires Hashable(input) && input in Index(response.items).value.names
    ensures AccessGroupByInput(response, input) == Ok(Index(response.items).value.names[input])
  {
  }

  /** An input that is not a group name but is a group id is returned unchanged. */
  lemma IdFallback(response: Listing, input: Value)
    requires response.ok && Index(response.items).Some?
    requires Hashable(input) && input !in Index(response.items).value.names
    requires input in Index(response.items).value.ids
    ensures AccessGroupByInput(response, input) == Ok(input)
  {
  }

  /** An input that is neither raises "No matching access group found". */
  lemma NoMatch(response: Listing, input: Value)
    requires response.ok && Index(response.items).Some?
    requires Hashable(input) && input !in Index(response.items).value.names
    requires input !in Index(response.items).value.ids
    ensures AccessGroupByInput(response, input) == Err(NoMatchingAccessGroup(input))
  {
  }

  /** A failed listing never yields an id. */
  lemma FailedListingRaises(response: Listing, input: Value)
    requires !response.ok
    ensures AccessGroupByInput(response, input) == Err(Raised)
  {
  }

  /** A returned id is the id of a fetched group; when the input is a group name it is the
      id of the LAST group carrying that name. */
  lemma ReturnedIdIsFetched(response: Listing, input: Value)
    requires AccessGroupByInput(response, input).Ok?
    ensures exists i :: (0 <= i < |response.items| && WellFormedItem(response.items[i])
      && response.items[i].fields["id"] == AccessGroupByInput(response, input).value)
    ensures input in Index(response.items).value.names ==>
      exists i :: LastItemWithName(response.items, input, i)
        && response.items[i].fields["id"] == AccessGroupByInput(response, input).value
  {
    IndexContents(response.items);
  }
}
