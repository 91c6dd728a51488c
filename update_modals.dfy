/** What the six document update modals of src/features/document/update/ share:
    the rules they declare to react-hook-form and the effects of a submission. */
module UpdateModalRules {
  import opened Js
  import opened JsNumber

  const MaxTitleLength := 255
  const MaxAbstractLength := 5000
  const MaxProceedSubjLength := 255
  const IsbnLength := 17

  /** `/^(978|979)-\d{1,5}-\d{2,7}-\d{1,6}-\d$/`: five hyphen-separated groups of
      digits, the first 978 or 979. A string of that shape is made of digits and
      hyphens only. */
  function IsbnShape(s: string): (ok: bool)
    ensures ok ==> forall k :: 0 <= k < |s| ==> IsDigit(s[k]) || s[k] == '-'
  {
    var g := Split(s, '-');
    if && |g| == 5
       && (g[0] == "978" || g[0] == "979")
       && IsDigits(g[1]) && 1 <= |g[1]| <= 5
       && IsDigits(g[2]) && 2 <= |g[2]| <= 7
       && IsDigits(g[3]) && 1 <= |g[3]| <= 6
       && IsDigits(g[4]) && |g[4]| == 1
    then
      JoinSplit(s, '-');
      assert IsDigits(g[0]);
      assert forall i :: 0 <= i < |g| ==> IsDigits(g[i]);
      JoinDigitGroups(g, '-');
      true
    else false
  }

  /** The ISBN rules: pattern, minimum and maximum length, none of which applies
      to an empty input. The lengths count UTF-16 code units; an ISBN the rules
      accept has 13 digits and 4 hyphens. */
  function IsbnRule(s: string): (ok: bool)
    ensures ok && s != [] ==> DigitCount(s) == 13 && Occurrences(s, '-') == 4
  {
    if s == [] then true
    else if IsbnShape(s) && Length(s) == IsbnLength then
      JoinSplit(s, '-');
      JoinOccurrences(Split(s, '-'), '-');
      DigitsAndSeparators(s, '-');
      true
    else false
  }

  /** The title rules: required (a non-empty input) and at most 255 code units. */
  predicate TitleRule(t: string) {
    t != [] && Length(t) <= MaxTitleLength
  }

  predicate AbstractRule(a: string) {
    Length(a) <= MaxAbstractLength
  }

  predicate ProceedSubjRule(p: string) {
    Length(p) <= MaxProceedSubjLength
  }

  /** The edition rule of the book form as declared: undefined, null or a number
      `>= 0`. NaN, what an empty number input reads as, fails it. */
  function EditionRule(v: Option<Number>): (ok: bool)
    ensures v.Some? && v.value.NaN? ==> !ok
    ensures v.Some? && v.value.Int? ==> (ok <==> v.value.value >= 0)
    // -0 is not below zero, so only a numeral that is negative and not a zero fails
    ensures v.Some? && v.value.Float? ==> (ok <==> !v.value.negative)
    ensures v.None? ==> ok
  {
    v.None? || NonNegative(v.value)
  }

  /** The edition rule with NaN let through, so that the field can be left empty. */
  predicate EditionRuleAllowingBlank(v: Option<Number>) {
    v.None? || v.value.NaN? || NonNegative(v.value)
  }

  /** A value sent as `typed.trim() || null`: null exactly when only white space
      was typed, otherwise the trimmed text. */
  predicate TrimmedOrNull(sent: Option<string>, typed: string) {
    && (sent.None? <==> IsBlank(typed))
    && (sent.Some? ==> sent.value == Trim(typed) && sent.value != [] && IsTrimmed(sent.value))
  }

  /** A non-empty ISBN that passes the rules is sent exactly as typed. */
  lemma ValidIsbnSentAsTyped(s: string)
    requires s != [] && IsbnRule(s)
    ensures TrimOrNull(s) == Some(s)
  {
    assert IsTrimmed(s);
    TrimKeepsTrimmed(s);
  }

  /** `required` only refuses the empty input: a title of spaces passes the rules
      and is sent as the empty string. */
  lemma BlankTitlePasses(t: string)
    requires t != [] && Length(t) <= MaxTitleLength && IsBlank(t)
    ensures TitleRule(t) && Trim(t) == []
  {
  }

  /** What the user and the parent see of a submission. */
  datatype Effect = Alert(text: string) | OnUpdated | OnClose

  /** The effects of the `try`/`catch` around the update call: on success an
      alert, `onUpdated()` and then `onClose()`; on failure only an alert. */
  function Notified(succeeded: bool, updatedText: string, failedText: string): (effects: seq<Effect>)
    ensures OnUpdated in effects <==> succeeded
    ensures OnClose in effects <==> succeeded
    ensures succeeded ==> effects == [Alert(updatedText), OnUpdated, OnClose]
    ensures !succeeded ==> effects == [Alert(failedText)]
  {
    if succeeded then [Alert(updatedText), OnUpdated, OnClose] else [Alert(failedText)]
  }

  /** The statements after the awaited update call, in order. */
  method Notify(succeeded: bool, updatedText: string, failedText: string) returns (effects: seq<Effect>)
    ensures effects == Notified(succeeded, updatedText, failedText)
  {
    effects := [];
    if succeeded {
      effects := effects + [Alert(updatedText)];
      effects := effects + [OnUpdated];
      effects := effects + [OnClose];
    } else {
      effects := effects + [Alert(failedText)];
    }
  }
}

/** src/features/document/update/DissertationUpdateModal.jsx. */
module DissertationUpdateModal {
  import opened Js
  import opened UpdateModalRules

  datatype Values = Values(title: string, degreeType: string, isbn: string, docAbstract: string)
  datatype Payload = Payload(title: string, degreeType: Option<string>, isbn: Option<string>,
                             docAbstract: Option<string>)

  /** The declared rules: react-hook-form calls `onSubmit` only when they hold. */
  predicate Valid(v: Values) {
    TitleRule(v.title) && IsbnRule(v.isbn) && AbstractRule(v.docAbstract)
  }

  /** The `trimmed` object `onSubmit` sends. */
  function Trimmed(v: Values): (p: Payload)
    ensures p.title == Trim(v.title) && IsTrimmed(p.title)
    ensures p.degreeType.None? <==> v.degreeType == []
    ensures p.degreeType.Some? ==> p.degreeType.value == v.degreeType
    ensures TrimmedOrNull(p.isbn, v.isbn) && TrimmedOrNull(p.docAbstract, v.docAbstract)
  {
    Payload(Trim(v.title), OrNull(v.degreeType), TrimOrNull(v.isbn), TrimOrNull(v.docAbstract))
  }

  /** Submitting the form, given whether `updateDissertation` succeeds: the call
      made, if any, and the effects. */
  method Submit(documentId: int, v: Values, succeeded: bool) returns (call: Option<(int, Payload)>, effects: seq<Effect>)
    ensures call.Some? <==> Valid(v)
    ensures call.Some? ==> call.value == (documentId, Trimmed(v))
    ensures !Valid(v) ==> effects == []
    ensures Valid(v) ==>
              effects == Notified(succeeded, "Dissertation updated successfully!", "Failed to update dissertation.")
  {
    if !Valid(v) {
      return None, [];
    }
    call := Some((documentId, Trimmed(v)));
    effects := Notify(succeeded, "Dissertation updated successfully!", "Failed to update dissertation.");
  }
}

/** src/features/document/update/BookUpdateModal.jsx. The edition is read with
    `valueAsNumber`, so it reaches the rule and `onSubmit` as a number. */
module BookUpdateModal {
  import opened Js
  import opened JsNumber
  import opened UpdateModalRules

  /** The inputs as typed; the edition is the text of a number input. */
  datatype Values = Values(title: string, isbn: string, editionNumber: string, docAbstract: string)
  datatype Payload = Payload(title: string, isbn: Option<string>, editionNumber: Option<Number>,
                             docAbstract: Option<string>)

  /** `valueAsNumber`: an empty input reads NaN, any other `Number(text)`. */
  function Edition(text: string): (n: Number)
    ensures text == [] ==> n.NaN?
    ensures text != [] && IsDigits(text) ==> n == Int(DigitsValue(text))
  {
    if text == [] then NaN else ToNumber(text)
  }

  /** The rules as declared: an empty edition reads NaN and is refused, so the
      edition must be filled in with a number that is not negative. */
  function ValidAsWritten(v: Values): (ok: bool)
    ensures ok <==> && TitleRule(v.title) && IsbnRule(v.isbn) && AbstractRule(v.docAbstract)
                    && v.editionNumber != [] && NonNegative(ToNumber(v.editionNumber))
  {
    TitleRule(v.title) && IsbnRule(v.isbn) && EditionRule(Some(Edition(v.editionNumber)))
    && AbstractRule(v.docAbstract)
  }

  /** The rules with the optional edition allowed to stay empty. */
  predicate Valid(v: Values) {
    TitleRule(v.title) && IsbnRule(v.isbn) && EditionRuleAllowingBlank(Some(Edition(v.editionNumber)))
    && AbstractRule(v.docAbstract)
  }

  /** The `trimmed` object: the edition number is sent when truthy, so 0 and NaN
      become null. */
  function Trimmed(v: Values): (p: Payload)
    ensures p.title == Trim(v.title) && IsTrimmed(p.title)
    ensures TrimmedOrNull(p.isbn, v.isbn) && TrimmedOrNull(p.docAbstract, v.docAbstract)
    ensures p.editionNumber.None? <==> !Truthy(Edition(v.editionNumber))
    ensures p.editionNumber.Some? ==> p.editionNumber.value == Edition(v.editionNumber)
  {
    var edition := Edition(v.editionNumber);
    Payload(Trim(v.title), TrimOrNull(v.isbn), if Truthy(edition) then Some(edition) else None,
            TrimOrNull(v.docAbstract))
  }

  /** As declared, the form cannot be saved while the optional edition is empty. */
  lemma BlankEditionBlocksSaving(v: Values)
    requires v.editionNumber == []
    ensures !ValidAsWritten(v)
  {
  }

  /** With the edition allowed to stay empty, the rules differ from the declared
      ones on NaN alone, and an empty edition is sent as null. */
  lemma AllowingBlankEdition(v: Values)
    ensures ValidAsWritten(v) ==> Valid(v)
    ensures Valid(v) && !Edition(v.editionNumber).NaN? ==> ValidAsWritten(v)
    ensures v.editionNumber == [] ==> Trimmed(v).editionNumber.None?
  {
  }

  /** Edition 0 passes the rule and is sent as null. */
  lemma ZeroEditionSentAsNull(v: Values)
    requires v.editionNumber == "0"
    ensures EditionRule(Some(Edition(v.editionNumber)))
    ensures Trimmed(v).editionNumber.None?
  {
    assert IsDigits("0");
    assert DigitsValue("0") == 0;
  }

  /** An edition that underflows is a zero: "-1e-400" reads as -0 and passes
      `v >= 0`, and both it and "1e-400" are falsy, so neither is sent. */
  lemma UnderflowingEditionIsZero(v: Values)
    requires v.editionNumber == "1e-400" || v.editionNumber == "-1e-400"
    ensures EditionRule(Some(Edition(v.editionNumber)))
    ensures ValidAsWritten(v) <==> TitleRule(v.title) && IsbnRule(v.isbn) && AbstractRule(v.docAbstract)
    ensures Trimmed(v).editionNumber.None?
  {
    UnderflowReadsAsZero();
  }

  /** `onSubmit` behind the rules as declared, given whether `updateBook`
      succeeds: with the edition left empty nothing is sent. */
  method Submit(documentId: int, v: Values, succeeded: bool) returns (call: Option<(int, Payload)>, effects: seq<Effect>)
    ensures call.Some? <==> ValidAsWritten(v)
    ensures call.Some? ==> call.value == (documentId, Trimmed(v))
    ensures !ValidAsWritten(v) ==> effects == []
    ensures ValidAsWritten(v) ==> effects == Notified(succeeded, "Book updated successfully!", "Failed to update book.")
  {
    if !ValidAsWritten(v) {
      return None, [];
    }
    call := Some((documentId, Trimmed(v)));
    effects := Notify(succeeded, "Book updated successfully!", "Failed to update book.");
  }
}

/** src/features/document/update/ConfProceedUpdateModal.jsx. */
module ConfProceedUpdateModal {
  import opened Js
  import opened UpdateModalRules

  datatype Values = Values(title: string, isbn: string, proceedSubj: string, docAbstract: string)
  datatype Payload = Payload(title: string, isbn: Option<string>, proceedSubj: Option<string>,
                             docAbstract: Option<string>)

  predicate Valid(v: Values) {
    TitleRule(v.title) && IsbnRule(v.isbn) && ProceedSubjRule(v.proceedSubj) && AbstractRule(v.docAbstract)
  }

  function Trimmed(v: Values): (p: Payload)
    ensures p.title == Trim(v.title) && IsTrimmed(p.title)
    ensures TrimmedOrNull(p.isbn, v.isbn) && TrimmedOrNull(p.proceedSubj, v.proceedSubj)
    ensures TrimmedOrNull(p.docAbstract, v.docAbstract)
  {
    Payload(Trim(v.title), TrimOrNull(v.isbn), TrimOrNull(v.proceedSubj), TrimOrNull(v.docAbstract))
  }

  /** A subject that passes its rule is sent within the same bound. */
  lemma SubjectStaysWithinBound(v: Values)
    requires Valid(v)
    ensures Trimmed(v).proceedSubj.Some? ==> Length(Trimmed(v).proceedSubj.value) <= MaxProceedSubjLength
  {
    TrimShortens(v.proceedSubj);
  }

  /** `onSubmit` behind the rules, given whether `updateConfProceed` succeeds. */
  method Submit(documentId: int, v: Values, succeeded: bool) returns (call: Option<(int, Payload)>, effects: seq<Effect>)
    ensures call.Some? <==> Valid(v)
    ensures call.Some? ==> call.value == (documentId, Trimmed(v))
    ensures !Valid(v) ==> effects == []
    ensures Valid(v) ==>
              effects == Notified(succeeded, "Conference proceeding updated successfully!", "Failed to update proceeding.")
  {
    if !Valid(v) {
      return None, [];
    }
    call := Some((documentId, Trimmed(v)));
    effects := Notify(succeeded, "Conference proceeding updated successfully!", "Failed to update proceeding.");
  }
}

/** src/features/document/update/ReportUpdateModal.jsx. The edition is a number
    input read as text, with no declared rule. */
module ReportUpdateModal {
  import opened Js
  import opened JsNumber
  import opened UpdateModalRules

  datatype Values = Values(title: string, isbn: string, editionNumber: string, docAbstract: string)
  datatype Payload = Payload(title: string, isbn: Option<string>, editionNumber: Option<Number>,
                             docAbstract: Option<string>)

  predicate Valid(v: Values) {
    TitleRule(v.title) && IsbnRule(v.isbn) && AbstractRule(v.docAbstract)
  }

  /** The `trimmed` object: a non-empty edition is converted with `Number`. */
  function Trimmed(v: Values): (p: Payload)
    ensures p.title == Trim(v.title) && IsTrimmed(p.title)
    ensures TrimmedOrNull(p.isbn, v.isbn) && TrimmedOrNull(p.docAbstract, v.docAbstract)
    ensures p.editionNumber.None? <==> v.editionNumber == []
    ensures p.editionNumber.Some? ==> p.editionNumber.value == ToNumber(v.editionNumber)
  {
    Payload(Trim(v.title), TrimOrNull(v.isbn), NumberOrNull(v.editionNumber), TrimOrNull(v.docAbstract))
  }

  /** No rule covers the edition: whatever it holds, it does not stop the call. */
  lemma EditionUnchecked(v: Values, edition: string)
    requires Valid(v)
    ensures Valid(v.(editionNumber := edition))
  {
  }

  /** Unlike the book form, edition 0 typed here is sent as the number 0. */
  lemma ZeroEditionSent(v: Values)
    requires v.editionNumber == "0"
    ensures Trimmed(v).editionNumber == Some(Int(0))
  {
    assert IsDigits("0");
    assert DigitsValue("0") == 0;
  }

  /** `onSubmit` behind the rules, given whether `updateReport` succeeds. */
  method Submit(documentId: int, v: Values, succeeded: bool) returns (call: Option<(int, Payload)>, effects: seq<Effect>)
    ensures call.Some? <==> Valid(v)
    ensures call.Some? ==> call.value == (documentId, Trimmed(v))
    ensures !Valid(v) ==> effects == []
    ensures Valid(v) ==> effects == Notified(succeeded, "Report updated successfully!", "Failed to update report.")
  {
    if !Valid(v) {
      return None, [];
    }
    call := Some((documentId, Trimmed(v)));
    effects := Notify(succeeded, "Report updated successfully!", "Failed to update report.");
  }
}

/** src/features/document/update/ConfPaperUpdateModal.jsx. */
module ConfPaperUpdateModal {
  import opened Js
  import opened JsNumber
  import opened UpdateModalRules

  datatype Values = Values(title: string, firstPage: string, lastPage: string, docAbstract: string)
  datatype Payload = Payload(title: string, firstPage: Option<Number>, lastPage: Option<Number>,
                             docAbstract: Option<string>)

  /** Only the title and the abstract carry rules. */
  predicate Valid(v: Values) {
    TitleRule(v.title) && AbstractRule(v.docAbstract)
  }

  /** The `trimmed` object: each non-empty page is converted with `Number`. */
  function Trimmed(v: Values): (p: Payload)
    ensures p.title == Trim(v.title) && IsTrimmed(p.title)
    ensures TrimmedOrNull(p.docAbstract, v.docAbstract)
    ensures p.firstPage.None? <==> v.firstPage == []
    ensures p.firstPage.Some? ==> p.firstPage.value == ToNumber(v.firstPage)
    ensures p.lastPage.None? <==> v.lastPage == []
    ensures p.lastPage.Some? ==> p.lastPage.value == ToNumber(v.lastPage)
  {
    Payload(Trim(v.title), NumberOrNull(v.firstPage), NumberOrNull(v.lastPage), TrimOrNull(v.docAbstract))
  }

  /** Nothing orders the pages: a last page before the first is sent as typed. */
  lemma PagesNotOrdered(v: Values)
    requires TitleRule(v.title) && AbstractRule(v.docAbstract)
    requires v.firstPage == "9" && v.lastPage == "1"
    ensures Valid(v)
    ensures Trimmed(v).firstPage == Some(Int(9)) && Trimmed(v).lastPage == Some(Int(1))
  {
    assert IsDigits("9") && IsDigits("1");
    assert DigitsValue("9") == 9 && DigitsValue("1") == 1;
  }

  /** `onSubmit` behind the rules, given whether `updateConfPaper` succeeds. */
  method Submit(documentId: int, v: Values, succeeded: bool) returns (call: Option<(int, Payload)>, effects: seq<Effect>)
    ensures call.Some? <==> Valid(v)
    ensures call.Some? ==> call.value == (documentId, Trimmed(v))
    ensures !Valid(v) ==> effects == []
    ensures Valid(v) ==>
              effects == Notified(succeeded, "Conference paper updated successfully!", "Failed to update conference paper.")
  {
    if !Valid(v) {
      return None, [];
    }
    call := Some((documentId, Trimmed(v)));
    effects := Notify(succeeded, "Conference paper updated successfully!", "Failed to update conference paper.");
  }
}

/** src/features/document/update/BookChapterUpdateModal.jsx. */
module BookChapterUpdateModal {
  import opened Js
  import opened JsNumber
  import opened UpdateModalRules

  datatype Values = Values(title: string, firstPage: string, lastPage: string, docAbstract: string)
  datatype Payload = Payload(title: string, firstPage: Option<Number>, lastPage: Option<Number>,
                             docAbstract: Option<string>)

  /** Only the title and the abstract carry rules. */
  predicate Valid(v: Values) {
    TitleRule(v.title) && AbstractRule(v.docAbstract)
  }

  /** The `trimmed` object: each non-empty page is converted with `Number`. */
  function Trimmed(v: Values): (p: Payload)
    ensures p.title == Trim(v.title) && IsTrimmed(p.title)
    ensures TrimmedOrNull(p.docAbstract, v.docAbstract)
    ensures p.firstPage.None? <==> v.firstPage == []
    ensures p.firstPage.Some? ==> p.firstPage.value == ToNumber(v.firstPage)
    ensures p.lastPage.None? <==> v.lastPage == []
    ensures p.lastPage.Some? ==> p.lastPage.value == ToNumber(v.lastPage)
  {
    Payload(Trim(v.title), NumberOrNull(v.firstPage), NumberOrNull(v.lastPage), TrimOrNull(v.docAbstract))
  }

  /** The pages carry no rule: any text in them leaves the form savable. */
  lemma PagesUnchecked(v: Values, first: string, last: string)
    requires Valid(v)
    ensures Valid(v.(firstPage := first, lastPage := last))
  {
  }

  /** `onSubmit` behind the rules, given whether `updateBookChapter` succeeds. */
  method Submit(documentId: int, v: Values, succeeded: bool) returns (call: Option<(int, Payload)>, effects: seq<Effect>)
    ensures call.Some? <==> Valid(v)
    ensures call.Some? ==> call.value == (documentId, Trimmed(v))
    ensures !Valid(v) ==> effects == []
    ensures Valid(v) ==>
              effects == Notified(succeeded, "Book chapter updated successfully!", "Failed to update book chapter.")
  {
    if !Valid(v) {
      return None, [];
    }
    call := Some((documentId, Trimmed(v)));
    effects := Notify(succeeded, "Book chapter updated successfully!", "Failed to update book chapter.");
  }
}
