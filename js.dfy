/** The JavaScript string built-ins the client relies on, over Dafny strings:
    `trim`, `split` and `join` on a one-character separator, `replaceAll` of one
    character and the ASCII case of `toUpperCase`. `undefined`/`null` values are
    `None`. */
module Js {

  datatype Option<+T> = None | Some(value: T)

  /** The code points JavaScript counts as WhiteSpace or LineTerminator: what
      `String.prototype.trim` removes and what the regular expression `\s` matches. */
  predicate IsSpace(c: char) {
    || c == '\t' || c == '\n' || c == '\U{000B}' || c == '\U{000C}' || c == '\r' || c == ' '
    || c == '\U{00A0}' || c == '\U{1680}' || ('\U{2000}' <= c <= '\U{200A}')
    || c == '\U{2028}' || c == '\U{2029}' || c == '\U{202F}' || c == '\U{205F}'
    || c == '\U{3000}' || c == '\U{FEFF}'
  }

  /** Every character is white space (the empty string included). */
  predicate IsBlank(s: string) {
    forall i :: 0 <= i < |s| ==> IsSpace(s[i])
  }

  /** Neither the first nor the last character is white space. */
  predicate IsTrimmed(s: string) {
    s == [] || (!IsSpace(s[0]) && !IsSpace(s[|s| - 1]))
  }

  /** The number of white-space characters the string starts with. */
  function LeadingSpaces(s: string): (k: nat)
    ensures k <= |s|
  {
    if s != [] && IsSpace(s[0]) then 1 + LeadingSpaces(s[1..]) else 0
  }

  /** The number of white-space characters the string ends with. */
  function TrailingSpaces(s: string): (k: nat)
    ensures k <= |s|
  {
    if s != [] && IsSpace(s[|s| - 1]) then 1 + TrailingSpaces(s[..|s| - 1]) else 0
  }

  /** The leading count covers white space only, and stops before the first
      character that is not. */
  lemma {:induction false} LeadingSpacesAreSpaces(s: string)
    ensures forall i :: 0 <= i < LeadingSpaces(s) ==> IsSpace(s[i])
    ensures LeadingSpaces(s) == |s| || !IsSpace(s[LeadingSpaces(s)])
  {
    if s != [] && IsSpace(s[0]) {
      LeadingSpacesAreSpaces(s[1..]);
    }
  }

  /** The trailing count covers white space only, and stops after the last
      character that is not. */
  lemma {:induction false} TrailingSpacesAreSpaces(s: string)
    ensures forall i :: |s| - TrailingSpaces(s) <= i < |s| ==> IsSpace(s[i])
    ensures TrailingSpaces(s) == |s| || !IsSpace(s[|s| - TrailingSpaces(s) - 1])
  {
    if s != [] && IsSpace(s[|s| - 1]) {
      TrailingSpacesAreSpaces(s[..|s| - 1]);
    }
  }

  /** `String.prototype.trimStart`. */
  function TrimStart(s: string): string {
    s[LeadingSpaces(s)..]
  }

  /** `String.prototype.trimEnd`. */
  function TrimEnd(s: string): string {
    s[..|s| - TrailingSpaces(s)]
  }

  /** `String.prototype.trim`. The result is empty exactly when the input is blank,
      and otherwise neither starts nor ends with white space. */
  function Trim(s: string): (r: string)
    ensures |r| <= |s|
    ensures IsTrimmed(r)
    ensures r == [] <==> IsBlank(s)
  {
    var k := LeadingSpaces(s);
    var t := s[k..];
    LeadingSpacesAreSpaces(s);
    TrailingSpacesAreSpaces(t);
    TrimEnd(t)
  }

  /** A character beyond the Basic Multilingual Plane, which UTF-16 stores as a
      surrogate pair. */
  predicate IsAstral(c: char) {
    c >= '\U{10000}'
  }

  /** `s.length`, which counts UTF-16 code units: one per character of the Basic
      Multilingual Plane and two per character beyond it. It is the number of
      characters exactly when none lies beyond the plane. */
  function Length(s: string): (n: nat)
    ensures |s| <= n <= 2 * |s|
    ensures n == |s| <==> forall i :: 0 <= i < |s| ==> !IsAstral(s[i])
  {
    if s == [] then 0
    else
      assert forall i :: 0 < i < |s| ==> s[i] == s[1..][i - 1];
      (if IsAstral(s[0]) then 2 else 1) + Length(s[1..])
  }

  /** The length of a concatenation is the sum of the lengths. */
  lemma {:induction false} LengthConcat(a: string, b: string)
    ensures Length(a + b) == Length(a) + Length(b)
  {
    if a == [] {
      assert a + b == b;
    } else {
      assert (a + b)[1..] == a[1..] + b;
      LengthConcat(a[1..], b);
    }
  }

  /** A slice is never longer than the string it is cut from. */
  lemma LengthOfSlice(s: string, i: nat, j: nat)
    requires i <= j <= |s|
    ensures Length(s[i..j]) <= Length(s)
  {
    assert s == s[..i] + s[i..j] + s[j..];
    LengthConcat(s[..i] + s[i..j], s[j..]);
    LengthConcat(s[..i], s[i..j]);
  }

  /** Trimming never makes a string longer. */
  lemma TrimShortens(s: string)
    ensures Length(Trim(s)) <= Length(s)
  {
    var k := LeadingSpaces(s);
    var t := s[k..];
    var m := |t| - TrailingSpaces(t);
    assert Trim(s) == t[..m];
    assert s[k..|s|] == t;
    LengthOfSlice(s, k, |s|);
    assert t[0..m] == t[..m];
    LengthOfSlice(t, 0, m);
  }

  /** Trimming leaves a string that has no surrounding white space as it is. */
  lemma TrimKeepsTrimmed(s: string)
    requires IsTrimmed(s)
    ensures Trim(s) == s
  {
  }

  /** `s || ''` on a string that may be undefined or null. */
  function OrEmpty(s: Option<string>): string {
    if s.Some? then s.value else ""
  }

  /** `s || null` on a string: the empty string is falsy and becomes null. */
  function OrNull(s: string): (r: Option<string>)
    ensures r == None <==> s == []
    ensures r.Some? ==> r.value == s
  {
    if s == [] then None else Some(s)
  }

  /** `s.trim() || null`: the trimmed text, or null when only white space was typed. */
  function TrimOrNull(s: string): (r: Option<string>)
    ensures r == None <==> IsBlank(s)
    ensures r.Some? ==> r.value == Trim(s) && r.value != [] && IsTrimmed(r.value)
  {
    OrNull(Trim(s))
  }

  /** `s.replaceAll(from, to)` for one-character patterns. */
  function ReplaceAll(s: string, from: char, to: char): (r: string)
    ensures |r| == |s|
    ensures forall i :: 0 <= i < |s| ==> r[i] == if s[i] == from then to else s[i]
  {
    if s == [] then [] else [if s[0] == from then to else s[0]] + ReplaceAll(s[1..], from, to)
  }

  /** `s.split(sep)` for a one-character separator: the pieces between separators,
      in order, empty pieces included; never an empty list. */
  function Split(s: string, sep: char): (parts: seq<string>)
    ensures |parts| >= 1
    ensures forall i :: 0 <= i < |parts| ==> sep !in parts[i]
  {
    if s == [] then [[]]
    else
      var rest := Split(s[1..], sep);
      if s[0] == sep then [[]] + rest else [[s[0]] + rest[0]] + rest[1..]
  }

  /** `parts.join(sep)` for a one-character separator. */
  function Join(parts: seq<string>, sep: char): (s: string)
  {
    if |parts| == 0 then []
    else if |parts| == 1 then parts[0]
    else parts[0] + [sep] + Join(parts[1..], sep)
  }

  /** Splitting and joining again on the same separator gives back the string. */
  lemma {:induction false} JoinSplit(s: string, sep: char)
    ensures Join(Split(s, sep), sep) == s
  {
    if s != [] {
      var rest := Split(s[1..], sep);
      JoinSplit(s[1..], sep);
      if s[0] == sep {
        assert Split(s, sep) == [[]] + rest;
        assert ([[]] + rest)[1..] == rest;
      } else {
        var parts := [[s[0]] + rest[0]] + rest[1..];
        assert Split(s, sep) == parts;
        if |rest| > 1 {
          assert parts[1..] == rest[1..];
        }
      }
    }
  }

  /** `toUpperCase` on one character, for the ASCII letters. */
  function UpperAscii(c: char): (u: char)
    ensures 'a' <= c <= 'z' ==> 'A' <= u <= 'Z'
    ensures !('a' <= c <= 'z') ==> u == c
  {
    if 'a' <= c <= 'z' then (c as int - 'a' as int + 'A' as int) as char else c
  }

  predicate IsDigit(c: char) {
    '0' <= c <= '9'
  }

  predicate IsDigits(s: string) {
    forall i :: 0 <= i < |s| ==> IsDigit(s[i])
  }

  /** The number of occurrences of `c` in `s`. */
  function Occurrences(s: string, c: char): nat {
    if s == [] then 0 else (if s[0] == c then 1 else 0) + Occurrences(s[1..], c)
  }

  /** The number of decimal digits in `s`. */
  function DigitCount(s: string): nat {
    if s == [] then 0 else (if IsDigit(s[0]) then 1 else 0) + DigitCount(s[1..])
  }

  lemma {:induction false} OccurrencesConcat(a: string, b: string, c: char)
    ensures Occurrences(a + b, c) == Occurrences(a, c) + Occurrences(b, c)
  {
    if a != [] {
      assert (a + b)[1..] == a[1..] + b;
      OccurrencesConcat(a[1..], b, c);
    } else {
      assert a + b == b;
    }
  }

  lemma {:induction false} OccurrencesAbsent(s: string, c: char)
    requires c !in s
    ensures Occurrences(s, c) == 0
  {
    if s != [] {
      assert c !in s[1..];
      OccurrencesAbsent(s[1..], c);
    }
  }

  /** A string made only of digits and one other character splits its length
      between the digit count and the occurrences of that character. */
  lemma {:induction false} DigitsAndSeparators(s: string, sep: char)
    requires !IsDigit(sep)
    requires forall i :: 0 <= i < |s| ==> IsDigit(s[i]) || s[i] == sep
    ensures |s| == DigitCount(s) + Occurrences(s, sep)
  {
    if s != [] {
      DigitsAndSeparators(s[1..], sep);
    }
  }

  /** Joining pieces that do not contain the separator puts exactly one separator
      between consecutive pieces. */
  lemma {:induction false} JoinOccurrences(parts: seq<string>, sep: char)
    requires |parts| >= 1
    requires forall i :: 0 <= i < |parts| ==> sep !in parts[i]
    ensures Occurrences(Join(parts, sep), sep) == |parts| - 1
  {
    OccurrencesAbsent(parts[0], sep);
    if |parts| > 1 {
      JoinOccurrences(parts[1..], sep);
      OccurrencesConcat(parts[0], [sep], sep);
      OccurrencesConcat(parts[0] + [sep], Join(parts[1..], sep), sep);
    }
  }

  /** Joining runs of digits gives a string of digits and separators only. */
  lemma {:induction false} JoinDigitGroups(parts: seq<string>, sep: char)
    requires forall i :: 0 <= i < |parts| ==> IsDigits(parts[i])
    ensures forall k :: 0 <= k < |Join(parts, sep)| ==> IsDigit(Join(parts, sep)[k]) || Join(parts, sep)[k] == sep
  {
    if |parts| > 1 {
      JoinDigitGroups(parts[1..], sep);
      var rest := Join(parts[1..], sep);
      var s := Join(parts, sep);
      assert s == parts[0] + [sep] + rest;
      assert IsDigits(parts[0]);
      assert forall k :: 0 <= k < |rest| ==> IsDigit(rest[k]) || rest[k] == sep;
      forall k | 0 <= k < |s| ensures IsDigit(s[k]) || s[k] == sep {
        if k < |parts[0]| {
          assert s[k] == parts[0][k];
        } else if k > |parts[0]| {
          assert s[k] == rest[k - |parts[0]| - 1];
        }
      }
    }
  }
}
