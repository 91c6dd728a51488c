/** src/components/forms/DocForms.jsx: the document submission form. The picked
    contributors are kept in a list without repeated user ids; submitting builds a
    payload from the form and that list. */
module DocForms {
  import opened Js
  import opened JsNumber
  import opened Constants
  import opened DocumentUtils

  /** An entry of `addedContributors`. */
  datatype AddedContributor = AddedContributor(appUserId: int, docRole: string, name: string)

  /** An entry of the payload's `docContributorList`. */
  datatype ContributorRef = ContributorRef(appUserId: int, docRole: string)

  /** The text inputs of the form, as typed. */
  datatype Fields = Fields(departmentId: string, title: string, isbn: string, degreeType: string,
                           editionNumber: string, firstPage: string, lastPage: string,
                           proceedSubj: string, docAbstract: string)

  const EmptyFields := Fields("", "", "", "", "", "", "", "", "")

  /** The submitted object; an optional field left out of it is `None`. */
  datatype Payload = Payload(departmentId: Number, title: string, docAbstract: string,
                             docContributorList: seq<ContributorRef>,
                             isbn: Option<string>, degreeType: Option<string>,
                             editionNumber: Option<Number>, firstPage: Option<Number>,
                             lastPage: Option<Number>, proceedSubj: Option<string>)

  const SelectFirst := "Select a contributor first"
  const AlreadyAdded := "This contributor is already added"
  const Submitted := "Document submitted successfully"
  const SubmissionFailed := "Submission failed"

  predicate DistinctIds(list: seq<AddedContributor>) {
    forall i, j :: 0 <= i < j < |list| ==> list[i].appUserId != list[j].appUserId
  }

  /** `list.find(c => c.appUserId === id)`: the first entry with that id. */
  function FindById(list: seq<AddedContributor>, id: int): (found: Option<AddedContributor>)
    ensures found.Some? <==> exists i :: 0 <= i < |list| && list[i].appUserId == id
    ensures found.Some? ==> found.value in list && found.value.appUserId == id
    ensures found.Some? ==> exists i :: 0 <= i < |list| && list[i] == found.value && NoIdBefore(list, i, id)
  {
    if list == [] then None
    else if list[0].appUserId == id then
      assert list[0] == list[0] && NoIdBefore(list, 0, id);
      Some(list[0])
    else
      var rest := FindById(list[1..], id);
      assert forall i :: 0 < i < |list| ==> list[i] == list[1..][i - 1];
      if rest.Some? then
        var i :| 0 <= i < |list| - 1 && list[1..][i] == rest.value && NoIdBefore(list[1..], i, id);
        assert list[i + 1] == rest.value && NoIdBefore(list, i + 1, id);
        rest
      else rest
  }

  /** No entry before position `i` has the id. */
  predicate NoIdBefore(list: seq<AddedContributor>, i: nat, id: int)
    requires i <= |list|
  {
    forall j :: 0 <= j < i ==> list[j].appUserId != id
  }

  /** `list.filter(c => c.appUserId !== id)`. */
  function WithoutId(list: seq<AddedContributor>, id: int): (kept: seq<AddedContributor>)
    ensures forall c :: c in kept <==> c in list && c.appUserId != id
    ensures |kept| <= |list|
  {
    if list == [] then []
    else if list[0].appUserId == id then WithoutId(list[1..], id)
    else [list[0]] + WithoutId(list[1..], id)
  }

  /** `filter` works entry by entry: filtering a concatenation filters each part,
      and the survivors keep their order. */
  lemma {:induction false} WithoutIdConcat(a: seq<AddedContributor>, b: seq<AddedContributor>, id: int)
    ensures WithoutId(a + b, id) == WithoutId(a, id) + WithoutId(b, id)
  {
    if a == [] {
      assert a + b == b;
    } else {
      assert (a + b)[1..] == a[1..] + b;
      WithoutIdConcat(a[1..], b, id);
    }
  }

  /** A list with no entry of the id is left as it is. */
  lemma {:induction false} WithoutAbsentId(list: seq<AddedContributor>, id: int)
    requires forall i :: 0 <= i < |list| ==> list[i].appUserId != id
    ensures WithoutId(list, id) == list
  {
    if list != [] {
      assert forall i :: 0 <= i < |list| - 1 ==> list[1..][i] == list[i + 1];
      WithoutAbsentId(list[1..], id);
    }
  }

  /** Removing the one contributor that has an id leaves the others as they
      were, in their original order. */
  lemma RemovalKeepsOrder(before: seq<AddedContributor>, removed: AddedContributor, after: seq<AddedContributor>)
    requires forall i :: 0 <= i < |before| ==> before[i].appUserId != removed.appUserId
    requires forall i :: 0 <= i < |after| ==> after[i].appUserId != removed.appUserId
    ensures WithoutId(before + [removed] + after, removed.appUserId) == before + after
  {
    var id := removed.appUserId;
    assert WithoutId([removed], id) == [] by {
      assert [removed][1..] == [];
    }
    WithoutIdConcat(before, [removed], id);
    WithoutAbsentId(before, id);
    assert WithoutId(before + [removed], id) == before;
    WithoutIdConcat(before + [removed], after, id);
    WithoutAbsentId(after, id);
  }

  /** Removing entries keeps the ids pairwise distinct. */
  lemma {:induction false} WithoutIdKeepsDistinct(list: seq<AddedContributor>, id: int)
    requires DistinctIds(list)
    ensures DistinctIds(WithoutId(list, id))
  {
    if list != [] {
      assert DistinctIds(list[1..]) by {
        assert forall i :: 0 <= i < |list| - 1 ==> list[1..][i] == list[i + 1];
      }
      WithoutIdKeepsDistinct(list[1..], id);
      var rest := WithoutId(list[1..], id);
      if list[0].appUserId != id {
        forall c | c in rest ensures c.appUserId != list[0].appUserId {
          assert c in list[1..];
        }
      }
    }
  }

  /** `` `${firstName} ${lastName}` `` of the selected search result; a null name
      prints as "null". */
  function DisplayName(p: Person): (name: string)
    ensures var first := Interpolated(p.firstName);
      && |name| == |first| + 1 + |Interpolated(p.lastName)|
      && name[..|first|] == first && name[|first|] == ' ' && name[|first| + 1..] == Interpolated(p.lastName)
    ensures p.firstName.None? ==> name[..4] == "null"
    ensures p.lastName.None? ==> name[|name| - 4..] == "null"
  {
    Interpolated(p.firstName) + " " + Interpolated(p.lastName)
  }

  /** A value that may be null, as a template literal writes it. */
  function Interpolated(s: Option<string>): string {
    if s.Some? then s.value else "null"
  }

  /** The payload `handleSubmit` sends. */
  function BuildPayload(form: Fields, added: seq<AddedContributor>): (p: Payload)
    ensures p.departmentId == ToNumber(form.departmentId)
    ensures p.title == form.title && p.docAbstract == form.docAbstract
    ensures |p.docContributorList| == |added|
    ensures forall i :: 0 <= i < |added| ==>
              p.docContributorList[i] == ContributorRef(added[i].appUserId, added[i].docRole)
    // an optional field is sent exactly when it was filled in
    ensures p.isbn == OrNull(form.isbn) && p.degreeType == OrNull(form.degreeType)
    ensures p.proceedSubj == OrNull(form.proceedSubj)
    ensures p.editionNumber == NumberOrNull(form.editionNumber)
    ensures p.firstPage == NumberOrNull(form.firstPage) && p.lastPage == NumberOrNull(form.lastPage)
  {
    Payload(
      ToNumber(form.departmentId), form.title, form.docAbstract,
      Refs(added),
      OrNull(form.isbn), OrNull(form.degreeType),
      NumberOrNull(form.editionNumber), NumberOrNull(form.firstPage), NumberOrNull(form.lastPage),
      OrNull(form.proceedSubj))
  }

  /** `added.map(({appUserId, docRole}) => ({appUserId, docRole}))`. */
  function Refs(added: seq<AddedContributor>): (refs: seq<ContributorRef>)
    ensures |refs| == |added|
    ensures forall i :: 0 <= i < |added| ==> refs[i] == ContributorRef(added[i].appUserId, added[i].docRole)
  {
    if added == [] then [] else [ContributorRef(added[0].appUserId, added[0].docRole)] + Refs(added[1..])
  }

  /** No user is listed twice among the submitted contributors. */
  lemma PayloadContributorsDistinct(form: Fields, added: seq<AddedContributor>)
    requires DistinctIds(added)
    ensures var refs := BuildPayload(form, added).docContributorList;
      forall i, j :: 0 <= i < j < |refs| ==> refs[i].appUserId != refs[j].appUserId
  {
  }

  class DocForm {
    var searchKey: string
    /** The search results on show. */
    var contributors: seq<Person>
    var selectedContributor: Option<Person>
    var selectedRole: string
    var addedContributors: seq<AddedContributor>
    var form: Fields

    predicate Valid()
      reads this
    {
      DistinctIds(addedContributors)
    }

    constructor ()
      ensures Valid()
      ensures searchKey == "" && contributors == [] && selectedContributor == None
      ensures selectedRole == DocRoleAuthor && addedContributors == [] && form == EmptyFields
    {
      searchKey := "";
      contributors := [];
      selectedContributor := None;
      selectedRole := DocRoleAuthor;
      addedContributors := [];
      form := EmptyFields;
    }

    /** `handleAddContributor`: the alert shown, if any. */
    method HandleAddContributor() returns (alert: Option<string>)
      requires Valid()
      modifies this
      ensures Valid()
      ensures form == old(form) && selectedRole == old(selectedRole)
      ensures old(selectedContributor).None? ==>
                alert == Some(SelectFirst) && addedContributors == old(addedContributors)
                && selectedContributor == old(selectedContributor)
                && searchKey == old(searchKey) && contributors == old(contributors)
      ensures old(selectedContributor).Some? &&
              FindById(old(addedContributors), old(selectedContributor).value.id).Some? ==>
                alert == Some(AlreadyAdded) && addedContributors == old(addedContributors)
                && selectedContributor == old(selectedContributor)
                && searchKey == old(searchKey) && contributors == old(contributors)
      ensures old(selectedContributor).Some? &&
              FindById(old(addedContributors), old(selectedContributor).value.id).None? ==>
                var p := old(selectedContributor).value;
                && alert == None
                && addedContributors == old(addedContributors) + [AddedContributor(p.id, old(selectedRole), DisplayName(p))]
                && selectedContributor == None && searchKey == "" && contributors == []
    {
      if selectedContributor.None? {
        return Some(SelectFirst);
      }
      var picked := selectedContributor.value;
      var alreadyAdded := FindById(addedContributors, picked.id);
      if alreadyAdded.Some? {
        return Some(AlreadyAdded);
      }
      var newContributor := AddedContributor(picked.id, selectedRole, DisplayName(picked));
      addedContributors := addedContributors + [newContributor];
      selectedContributor := None;
      searchKey := "";
      contributors := [];
      return None;
    }

    /** `handleRemoveContributor(appUserId)`. */
    method HandleRemoveContributor(appUserId: int)
      requires Valid()
      modifies this`addedContributors
      ensures Valid()
      ensures addedContributors == WithoutId(old(addedContributors), appUserId)
    {
      WithoutIdKeepsDistinct(addedContributors, appUserId);
      addedContributors := WithoutId(addedContributors, appUserId);
    }

    /** `handleSubmit`, given whether the submission call succeeded: the payload
        sent and the alert shown. */
    method HandleSubmit(succeeded: bool) returns (payload: Payload, alert: string)
      requires Valid()
      modifies this`form, this`addedContributors, this`selectedContributor
      ensures Valid()
      ensures payload == BuildPayload(old(form), old(addedContributors))
      ensures succeeded ==>
                alert == Submitted && form == EmptyFields && addedContributors == [] && selectedContributor == None
      ensures !succeeded ==>
                alert == SubmissionFailed && form == old(form) && addedContributors == old(addedContributors)
                && selectedContributor == old(selectedContributor)
    {
      var submittedForm, submittedList := form, addedContributors;
      if succeeded {
        alert := Submitted;
        form := EmptyFields;
        addedContributors := [];
        selectedContributor := None;
      } else {
        alert := SubmissionFailed;
      }
      payload := BuildPayload(submittedForm, submittedList);
    }
  }
}
