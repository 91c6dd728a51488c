/** src/pages/DocumentSubmissionPage.jsx: the document-type picker. It starts on
    the first type of the list and labels each type with `formatType`. */
module DocumentSubmissionPage {
  import opened Js
  import opened Constants

  /** The type picked when the page opens. */
  const InitialActiveType := DocTypeList[0]

  /** `word.charAt(0).toUpperCase() + word.slice(1)`. */
  function Capitalize(word: string): (w: string)
    ensures |w| == |word|
    ensures word != [] ==> w[0] == UpperAscii(word[0]) && w[1..] == word[1..]
    ensures word == [] ==> w == []
  {
    if word == [] then [] else [UpperAscii(word[0])] + word[1..]
  }

  /** `words.map(capitalize)`. */
  function CapitalizeAll(words: seq<string>): (r: seq<string>)
    ensures |r| == |words|
    ensures forall i :: 0 <= i < |words| ==> r[i] == Capitalize(words[i])
  {
    if words == [] then [] else [Capitalize(words[0])] + CapitalizeAll(words[1..])
  }

  /** `formatType(type)`: underscores become spaces, the text is split at spaces,
      every word is capitalized and the words are joined again with spaces. The
      label is the spaced text with the character at the start and every character
      after a space upper-cased. */
  function FormatType(t: string): (caption: string)
    ensures caption == UpperAfterSpaces(ReplaceAll(t, '_', ' '), true)
  {
    var spaced := ReplaceAll(t, '_', ' ');
    SplitCapitalizeJoin(spaced, true);
    Join(CapitalizeAll(Split(spaced, ' ')), ' ')
  }

  /** `replaceAll("_", " ")` on one character. */
  function Spaced(c: char): char {
    if c == '_' then ' ' else c
  }

  /** The same text described character by character: a character that starts the
      text (when `first`) or follows a space is upper-cased, every other is kept. */
  function UpperAfterSpaces(s: string, first: bool): (r: string)
    ensures |r| == |s|
  {
    seq(|s|, i requires 0 <= i < |s| =>
      if (i == 0 && first) || (i > 0 && s[i - 1] == ' ') then UpperAscii(s[i]) else s[i])
  }

  /** The pieces of a split with the first left as it is (unless `first`) and the
      others capitalized. */
  function CapitalizeFrom(parts: seq<string>, first: bool): seq<string>
    requires |parts| >= 1
  {
    if first then CapitalizeAll(parts) else [parts[0]] + CapitalizeAll(parts[1..])
  }

  /** Prefixing a character to the first piece prefixes it to the joined text. */
  lemma JoinConsFirst(c: char, p: string, ps: seq<string>, sep: char)
    ensures Join([[c] + p] + ps, sep) == [c] + Join([p] + ps, sep)
  {
    if |ps| > 0 {
      assert ([[c] + p] + ps)[1..] == ps;
      assert ([p] + ps)[1..] == ps;
    }
  }

  /** The first character of the described text, then the rest described on its own. */
  lemma UpperAfterSpacesCons(s: string, first: bool)
    requires s != []
    ensures UpperAfterSpaces(s, first)
            == [if first then UpperAscii(s[0]) else s[0]] + UpperAfterSpaces(s[1..], s[0] == ' ')
  {
    var r := UpperAfterSpaces(s, first);
    var t := UpperAfterSpaces(s[1..], s[0] == ' ');
    assert forall i :: 1 <= i < |s| ==> r[i] == t[i - 1];
  }

  /** A leading space is an empty first word: it stays a space and the next word
      is capitalized. */
  lemma SplitAtSpace(s: string, first: bool)
    requires s != [] && s[0] == ' '
    ensures Join(CapitalizeFrom(Split(s, ' '), first), ' ')
            == [' '] + Join(CapitalizeFrom(Split(s[1..], ' '), true), ' ')
  {
    var rest := Split(s[1..], ' ');
    assert Split(s, ' ') == [[]] + rest;
    var caps := CapitalizeFrom(Split(s, ' '), first);
    assert caps == [[]] + CapitalizeAll(rest);
    assert caps[1..] == CapitalizeAll(rest);
  }

  /** A leading letter starts the first word: it is capitalized only when that
      word is. */
  lemma SplitAtLetter(s: string, first: bool)
    requires s != [] && s[0] != ' '
    ensures Join(CapitalizeFrom(Split(s, ' '), first), ' ')
            == [if first then UpperAscii(s[0]) else s[0]] + Join(CapitalizeFrom(Split(s[1..], ' '), false), ' ')
  {
    var rest := Split(s[1..], ' ');
    var parts := [[s[0]] + rest[0]] + rest[1..];
    assert Split(s, ' ') == parts;
    var c := if first then UpperAscii(s[0]) else s[0];
    assert parts[1..] == rest[1..];
    assert CapitalizeFrom(parts, first) == [[c] + rest[0]] + CapitalizeAll(rest[1..]);
    JoinConsFirst(c, rest[0], CapitalizeAll(rest[1..]), ' ');
    assert CapitalizeFrom(rest, false) == [rest[0]] + CapitalizeAll(rest[1..]);
  }

  /** Split, capitalize and join is capitalization after every space. */
  lemma {:induction false} SplitCapitalizeJoin(s: string, first: bool)
    ensures Join(CapitalizeFrom(Split(s, ' '), first), ' ') == UpperAfterSpaces(s, first)
  {
    if s != [] {
      UpperAfterSpacesCons(s, first);
      SplitCapitalizeJoin(s[1..], s[0] == ' ');
      if s[0] == ' ' {
        SplitAtSpace(s, first);
      } else {
        SplitAtLetter(s, first);
      }
    }
  }

  /** Each character of the label: an underscore or a space becomes a space, and a
      character at the start or after an underscore or a space is upper-cased. */
  lemma FormatTypeCharacters(t: string)
    ensures |FormatType(t)| == |t|
    ensures forall i :: 0 <= i < |t| ==>
              FormatType(t)[i] == if i == 0 || Spaced(t[i - 1]) == ' ' then UpperAscii(Spaced(t[i])) else Spaced(t[i])
  {
    var r := ReplaceAll(t, '_', ' ');
    forall i | 0 <= i < |t|
      ensures FormatType(t)[i] == if i == 0 || Spaced(t[i - 1]) == ' ' then UpperAscii(Spaced(t[i])) else Spaced(t[i])
    {
      assert r[i] == Spaced(t[i]);
      if i > 0 {
        assert r[i - 1] == Spaced(t[i - 1]);
      }
    }
  }

  /** No label contains an underscore. */
  lemma NoUnderscoreInLabel(t: string)
    ensures '_' !in FormatType(t)
  {
    FormatTypeCharacters(t);
    forall i | 0 <= i < |t| ensures FormatType(t)[i] != '_' {
      assert FormatType(t)[i] == if i == 0 || Spaced(t[i - 1]) == ' ' then UpperAscii(Spaced(t[i])) else Spaced(t[i]);
      assert Spaced(t[i]) != '_';
      assert UpperAscii(Spaced(t[i])) != '_';
    }
  }

  /** A character that is not a lower-case letter appears in the label as
      `replaceAll` leaves it. */
  lemma LabelKeepsCharacter(t: string, i: int)
    requires 0 <= i < |t| && !('a' <= t[i] <= 'z')
    ensures |FormatType(t)| == |t| && FormatType(t)[i] == Spaced(t[i])
  {
    FormatTypeCharacters(t);
    var c := Spaced(t[i]);
    assert c == t[i] || c == ' ';
    assert UpperAscii(c) == c;
    assert FormatType(t)[i] == if i == 0 || Spaced(t[i - 1]) == ' ' then UpperAscii(c) else c;
  }

  /** A type with no lower-case letter keeps its case: the labels of the document
      types are the upper-case names with spaces, such as "BOOK CHAPTER". */
  lemma UpperCaseTypeLabel(t: string)
    requires forall i :: 0 <= i < |t| ==> !('a' <= t[i] <= 'z')
    ensures FormatType(t) == ReplaceAll(t, '_', ' ')
  {
    var f, r := FormatType(t), ReplaceAll(t, '_', ' ');
    FormatTypeCharacters(t);
    forall i | 0 <= i < |t| ensures f[i] == r[i] {
      LabelKeepsCharacter(t, i);
    }
  }

  /** The document types have no lower-case letters: each is labelled with its
      upper-case name, underscores turned into spaces. The page opens on the first,
      DISSERTATION. */
  lemma DocumentTypeLabels()
    ensures InitialActiveType == "DISSERTATION"
    ensures forall k :: 0 <= k < |DocTypeList| ==> FormatType(DocTypeList[k]) == ReplaceAll(DocTypeList[k], '_', ' ')
  {
    forall k | 0 <= k < |DocTypeList|
      ensures FormatType(DocTypeList[k]) == ReplaceAll(DocTypeList[k], '_', ' ')
    {
      var t := DocTypeList[k];
      assert forall i :: 0 <= i < |t| ==> 'A' <= t[i] <= 'Z' || t[i] == '_';
      UpperCaseTypeLabel(t);
    }
  }
}
