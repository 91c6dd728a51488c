/** src/features/document/ContributorAddForm.jsx: searching authors by a typed key
    and offering each result for addition to an existing document. */
module ContributorAddForm {
  import opened Js
  import opened Constants

  /** A search starts only once the trimmed key has this many UTF-16 code units. */
  const MinSearchLength := 3

  /** An existing contributor of the document, as listed by the server; `appUserId`
      is its `appUser.id`. */
  datatype ExistingContributor = ExistingContributor(appUserId: int, docRole: string)

  /** The state the component starts with. */
  const InitialSearchKey := ""
  const InitialRole := DocRoleList[0]

  /** `handleSearch`: the key passed to `handleSearchAuthor`, if the callback fires. */
  function HandleSearch(searchKey: string): (query: Option<string>)
    ensures query.Some? <==> Length(Trim(searchKey)) >= MinSearchLength
    ensures query.Some? ==> query.value == Trim(searchKey) && IsTrimmed(query.value)
  {
    var key := Trim(searchKey);
    if Length(key) >= MinSearchLength then Some(key) else None
  }

  /** Whether the Search button is disabled: always while a search is loading,
      and otherwise exactly when a click would not fire the search callback. */
  function SearchDisabled(searchKey: string, loading: bool): (disabled: bool)
    ensures loading ==> disabled
    ensures !loading ==> (disabled <==> HandleSearch(searchKey).None?)
  {
    Length(Trim(searchKey)) < MinSearchLength || loading
  }

  /** `existingContributors.some(c => c.appUser.id === id)`. */
  function IsAlreadyContributor(existing: seq<ExistingContributor>, id: int): (found: bool)
    ensures found <==> exists i :: 0 <= i < |existing| && existing[i].appUserId == id
  {
    if existing == [] then false
    else if existing[0].appUserId == id then true
    else
      assert forall i :: 0 < i < |existing| ==> existing[i] == existing[1..][i - 1];
      IsAlreadyContributor(existing[1..], id)
  }

  /** The Add button of one search result: whether it is disabled and its label. */
  function AddButton(isAdding: bool, existing: seq<ExistingContributor>, authorId: int): (b: (bool, string))
    ensures b.0 <==> isAdding || exists i :: 0 <= i < |existing| && existing[i].appUserId == authorId
    ensures b.1 == "Added" <==> exists i :: 0 <= i < |existing| && existing[i].appUserId == authorId
    ensures b.1 == "Added" || b.1 == "Add"
  {
    var already := IsAlreadyContributor(existing, authorId);
    (isAdding || already, if already then "Added" else "Add")
  }

  /** The role picker starts on the first role of the list, AUTHOR. */
  lemma InitialRoleIsAuthor()
    ensures InitialRole == DocRoleAuthor && InitialRole in DocRoleList
  {
  }
}
