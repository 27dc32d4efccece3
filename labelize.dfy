/**
 * Acronym-aware derivation of a human-readable label from an identifier
 * (`misc.Labelize`). The two regular-expression passes of the source are
 * written out as explicit left-to-right scans; case mapping is modelled for
 * ASCII letters only.
 */
module Labelize {

  // ---------------------------------------------------------------------
  // Character classes and case mapping
  // ---------------------------------------------------------------------

  predicate IsUpper(c: char) { 'A' <= c <= 'Z' }
  predicate IsLower(c: char) { 'a' <= c <= 'z' }
  predicate IsDigit(c: char) { '0' <= c <= '9' }

  /** The class `[_-]` of the delimiter pass. */
  predicate IsDelim(c: char) { c == '_' || c == '-' }

  /** Unicode White_Space, the set `strings.Fields` splits on. */
  predicate IsSpace(c: char)
  {
    ('\t' <= c <= '\r') || c == ' ' || c == '\U{85}' || c == '\U{A0}' ||
    c == '\U{1680}' || ('\U{2000}' <= c <= '\U{200A}') || c == '\U{2028}' || c == '\U{2029}' ||
    c == '\U{202F}' || c == '\U{205F}' || c == '\U{3000}'
  }

  function UpperChar(c: char): char { if IsLower(c) then (c as int - 32) as char else c }
  function LowerChar(c: char): char { if IsUpper(c) then (c as int + 32) as char else c }

  function ToUpper(s: string): (r: string)
    ensures |r| == |s| && forall i :: 0 <= i < |s| ==> r[i] == UpperChar(s[i])
  {
    seq(|s|, i requires 0 <= i < |s| => UpperChar(s[i]))
  }

  function ToLower(s: string): (r: string)
    ensures |r| == |s| && forall i :: 0 <= i < |s| ==> r[i] == LowerChar(s[i])
  {
    seq(|s|, i requires 0 <= i < |s| => LowerChar(s[i]))
  }

  /** Number of bytes of the UTF-8 encoding of `s` (Go's `len` on a string). */
  function Utf8Len(s: string): nat
  {
    if s == [] then 0
    else (if s[0] < '\U{80}' then 1 else if s[0] < '\U{800}' then 2 else if s[0] < '\U{10000}' then 3 else 4)
         + Utf8Len(s[1..])
  }

  /** `isAcronym`: longer than one byte and equal to its upper-case form. */
  predicate IsAcronym(w: string)
  {
    Utf8Len(w) > 1 && ToUpper(w) == w
  }

  /** The separator test of `strings.Title`: ASCII letters, digits and `_` are
      not separators, other ASCII characters are; beyond ASCII only spaces are. */
  predicate IsTitleSeparator(c: char)
  {
    if c < '\U{80}' then !(IsUpper(c) || IsLower(c) || IsDigit(c) || c == '_')
    else IsSpace(c)
  }

  /** `strings.Title`: upper-cases every character that follows a separator
      (the start of the string counts as following a space). */
  function Title(s: string): (r: string)
    ensures |r| == |s| && (|s| > 0 ==> r[0] == UpperChar(s[0]))
  {
    TitleAfter(' ', s)
  }

  function TitleAfter(prev: char, s: string): (r: string)
    ensures |r| == |s|
    ensures forall i {:trigger r[i]} :: 0 <= i < |s| ==>
      r[i] == if IsTitleSeparator(if i == 0 then prev else s[i - 1]) then UpperChar(s[i]) else s[i]
    decreases |s|
  {
    if s == [] then []
    else [if IsTitleSeparator(prev) then UpperChar(s[0]) else s[0]] + TitleAfter(s[0], s[1..])
  }

  // ---------------------------------------------------------------------
  // Pass 1: `([A-Z]+)([A-Z][a-z])|([a-z0-9])([A-Z])` -> `${1}${3} ${2}${4}`
  // ---------------------------------------------------------------------

  /** Length of the run of upper-case letters that starts at position i. */
  function UpperRun(s: string, i: nat): (n: nat)
    requires i <= |s|
    ensures i + n <= |s|
    ensures forall k :: i <= k < i + n ==> IsUpper(s[k])
    ensures i + n == |s| || !IsUpper(s[i + n])
    decreases |s| - i
  {
    if i < |s| && IsUpper(s[i]) then 1 + UpperRun(s, i + 1) else 0
  }

  /** The first alternative matches at i: a run of two or more capitals
      followed by a lower-case letter. Greedy `[A-Z]+` then backs off one
      capital, so the match ends just after that lower-case letter. */
  predicate AcronymBreakAt(s: string, i: nat)
    requires i <= |s|
  {
    var n := UpperRun(s, i);
    n >= 2 && i + n < |s| && IsLower(s[i + n])
  }

  /** The second alternative matches at i: a lower-case letter or digit
      followed by a capital. */
  predicate CamelBreakAt(s: string, i: nat)
    requires i <= |s|
  {
    i + 1 < |s| && (IsLower(s[i]) || IsDigit(s[i])) && IsUpper(s[i + 1])
  }

  /** `ReplaceAllString` of the camel-case pattern, scanning from position i:
      matches are leftmost-first and do not overlap; after a match the scan
      resumes just past it. */
  function CamelSplit(s: string, i: nat): string
    requires i <= |s|
    decreases |s| - i
  {
    if i == |s| then ""
    else if AcronymBreakAt(s, i) then
      var n := UpperRun(s, i);
      s[i..i + n - 1] + " " + s[i + n - 1..i + n + 1] + CamelSplit(s, i + n + 1)
    else if CamelBreakAt(s, i) then
      [s[i], ' ', s[i + 1]] + CamelSplit(s, i + 2)
    else
      [s[i]] + CamelSplit(s, i + 1)
  }

  // ---------------------------------------------------------------------
  // Pass 2: `[_-]+` -> " "
  // ---------------------------------------------------------------------

  /** Replaces every maximal run of delimiters by one space; `inRun` says
      whether the character before position i was a delimiter. */
  function ReplaceDelims(s: string, i: nat, inRun: bool): string
    requires i <= |s|
    decreases |s| - i
  {
    if i == |s| then ""
    else if IsDelim(s[i]) then (if inRun then "" else " ") + ReplaceDelims(s, i + 1, true)
    else [s[i]] + ReplaceDelims(s, i + 1, false)
  }

  // ---------------------------------------------------------------------
  // strings.Fields and strings.Join
  // ---------------------------------------------------------------------

  /** Number of leading characters of s that are not white space. */
  function WordLen(s: string): (n: nat)
    ensures n <= |s|
    ensures forall k :: 0 <= k < n ==> !IsSpace(s[k])
    ensures n == |s| || IsSpace(s[n])
  {
    if s == [] || IsSpace(s[0]) then 0 else 1 + WordLen(s[1..])
  }

  /** `strings.Fields`: the maximal runs of non-space characters, in order. */
  function Fields(s: string): seq<string>
  {
    if s == [] then []
    else if IsSpace(s[0]) then Fields(s[1..])
    else
      var n := WordLen(s);
      [s[..n]] + Fields(s[n..])
  }

  /** `strings.Join(words, " ")`. */
  function JoinWords(words: seq<string>): string
  {
    if words == [] then ""
    else if |words| == 1 then words[0]
    else words[0] + " " + JoinWords(words[1..])
  }

  // ---------------------------------------------------------------------
  // Labelize
  // ---------------------------------------------------------------------

  /** Case of one word: acronyms are upper-cased, every other word lower-cased. */
  function CaseWord(w: string): string
  {
    if IsAcronym(w) then ToUpper(w) else ToLower(w)
  }

  /** Every word cased by `CaseWord`. */
  function CaseWords(ws: seq<string>): (r: seq<string>)
    ensures |r| == |ws| && forall i :: 0 <= i < |ws| ==> r[i] == CaseWord(ws[i])
  {
    seq(|ws|, i requires 0 <= i < |ws| => CaseWord(ws[i]))
  }

  /** The words of the label before the first one is capitalised. */
  function Words(input: string): seq<string>
  {
    Fields(ReplaceDelims(CamelSplit(input, 0), 0, false))
  }

  /** The label `Labelize` returns for `input`. */
  function LabelOf(input: string): string
  {
    if input == "" then ""
    else
      var ws := Words(input);
      if ws == [] then ""
      else
        var cased := CaseWords(ws);
        JoinWords(if IsAcronym(cased[0]) then cased else cased[0 := Title(cased[0])])
  }

  /** `Labelize`: split, normalise the delimiters and spaces, fix the case of
      every word in place, capitalise the first word unless it is an acronym. */
  method Labelize(input: string) returns (r: string)
    ensures r == LabelOf(input)
  {
    if input == "" {
      return "";
    }
    var s := CamelSplit(input, 0);
    s := ReplaceDelims(s, 0, false);
    var words := Fields(s);
    if |words| == 0 {
      return "";
    }
    ghost var fields := words;
    var i := 0;
    while i < |words|
      invariant 0 <= i <= |words| == |fields|
      invariant forall j :: 0 <= j < i ==> words[j] == CaseWord(fields[j])
      invariant forall j :: i <= j < |words| ==> words[j] == fields[j]
    {
      if IsAcronym(words[i]) {
        words := words[i := ToUpper(words[i])];
      } else {
        words := words[i := ToLower(words[i])];
      }
      i := i + 1;
    }
    assert words == CaseWords(fields);
    if !IsAcronym(words[0]) {
      words := words[0 := Title(words[0])];
    }
    r := JoinWords(words);
  }
}
