/** src/features/document/utils.js: how a contributor or a search result is
    labelled. */
module DocumentUtils {
  import opened Js

  /** A person as the server lists them; a missing or null name is `None`. */
  datatype Person = Person(id: int, username: string, firstName: Option<string>, lastName: Option<string>)

  /** `` `${first || ''} ${last || ''}`.trim() ``: empty exactly when both names are
      missing or blank. */
  function NamePart(p: Person): (name: string)
    ensures IsTrimmed(name)
    ensures name == [] <==> IsBlank(OrEmpty(p.firstName)) && IsBlank(OrEmpty(p.lastName))
  {
    var first, last := OrEmpty(p.firstName), OrEmpty(p.lastName);
    var joined := first + " " + last;
    assert IsBlank(joined) <==> IsBlank(first) && IsBlank(last) by {
      assert forall i :: 0 <= i < |first| ==> joined[i] == first[i];
      assert forall i :: 0 <= i < |last| ==> joined[|first| + 1 + i] == last[i];
    }
    Trim(joined)
  }

  /** `formatContributorName(user)`. */
  function FormatContributorName(user: Option<Person>): (text: string)
    ensures user.None? ==> text == "Unknown User"
    ensures user.Some? && NamePart(user.value) == [] ==> text == user.value.username
    ensures user.Some? && NamePart(user.value) != [] ==>
              text == NamePart(user.value) + " (" + user.value.username + ")"
  {
    if user.None? then "Unknown User"
    else
      var name := NamePart(user.value);
      if name != [] then name + " (" + user.value.username + ")" else user.value.username
  }

  /** A person with only a last name is labelled by it, without the separating space. */
  lemma OnlyLastName(p: Person, last: string)
    requires p.firstName == None && p.lastName == Some(last)
    requires last != [] && IsTrimmed(last)
    ensures FormatContributorName(Some(p)) == last + " (" + p.username + ")"
  {
    var joined := "" + " " + last;
    assert joined == [' '] + last;
    assert TrimStart(joined) == TrimStart(last);
    assert TrimStart(last) == last;
    assert TrimEnd(last) == last;
  }
}
