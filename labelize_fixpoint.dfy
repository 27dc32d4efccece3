/**
 * Two global properties of `Labelize`: a label is its own label (applying
 * `Labelize` twice gives what applying it once gives), and an identifier
 * made of delimiters and white space only has the empty label.
 *
 * The first rests on one observation: neither alternative of the
 * camel-case pattern matches anywhere in a label. Acronym words contain no
 * lower-case letter and, because the camel-case pass always splits a digit
 * from a following capital, no digit followed by a capital; every other
 * word is lower-case except for the capitals `strings.Title` puts after
 * separators.
 */
module LabelizeFixpoint {
  import opened Labelize
  import opened LabelizeProps

  // ---------------------------------------------------------------------
  // Case mapping
  // ---------------------------------------------------------------------

  /** Upper-casing leaves no lower-case letter, so doing it again changes
      nothing, and it undoes a previous lower-casing. */
  lemma {:induction false} ToUpperIdempotent(s: string)
    ensures forall k :: 0 <= k < |s| ==> !IsLower(ToUpper(s)[k])
    ensures ToUpper(ToUpper(s)) == ToUpper(s)
    ensures ToUpper(ToLower(s)) == ToUpper(s)
  {
    var u := ToUpper(s);
    assert ToUpper(u) == u by {
      forall k | 0 <= k < |s| ensures ToUpper(u)[k] == u[k] {
      }
    }
    assert ToUpper(ToLower(s)) == u by {
      forall k | 0 <= k < |s| ensures ToUpper(ToLower(s))[k] == u[k] {
      }
    }
  }

  /** Lower-casing leaves no capital, so doing it again changes nothing,
      and it undoes a previous upper-casing. */
  lemma {:induction false} ToLowerIdempotent(s: string)
    ensures forall k :: 0 <= k < |s| ==> !IsUpper(ToLower(s)[k])
    ensures ToLower(ToLower(s)) == ToLower(s)
    ensures ToLower(ToUpper(s)) == ToLower(s)
  {
    var l := ToLower(s);
    assert ToLower(l) == l by {
      forall k | 0 <= k < |s| ensures ToLower(l)[k] == l[k] {
      }
    }
    assert ToLower(ToUpper(s)) == l by {
      forall k | 0 <= k < |s| ensures ToLower(ToUpper(s))[k] == l[k] {
      }
    }
  }

  /** `isAcronym` holds exactly for the words of more than one byte without
      a lower-case letter. */
  lemma {:induction false} IsAcronymIff(w: string)
    ensures IsAcronym(w) <==> Utf8Len(w) > 1 && forall k :: 0 <= k < |w| ==> !IsLower(w[k])
  {
    if forall k :: 0 <= k < |w| ==> !IsLower(w[k]) {
      assert ToUpper(w) == w by {
        forall k | 0 <= k < |w| ensures ToUpper(w)[k] == w[k] {
        }
      }
    }
    if IsAcronym(w) {
      forall k | 0 <= k < |w| ensures !IsLower(w[k]) {
        assert ToUpper(w)[k] == w[k];
      }
    }
  }

  /** Casing a word twice cases it once. */
  lemma {:induction false} CaseWordIdempotent(w: string)
    ensures CaseWord(CaseWord(w)) == CaseWord(w)
  {
    if !IsAcronym(w) {
      LowerNotAcronym(w);
      ToLowerIdempotent(w);
    }
  }

  /** Casing every word twice cases every word once. */
  lemma {:induction false} CaseWordsIdempotent(ws: seq<string>)
    ensures CaseWords(CaseWords(ws)) == CaseWords(ws)
  {
    var c := CaseWords(ws);
    forall i | 0 <= i < |ws| ensures CaseWords(c)[i] == c[i] {
      CaseWordIdempotent(ws[i]);
    }
  }

  /** Lower-casing a titled word without capitals gives the word back. */
  lemma {:induction false} LowerOfTitle(w: string)
    requires forall k :: 0 <= k < |w| ==> !IsUpper(w[k])
    ensures ToLower(Title(w)) == w
  {
    var t := TitleAfter(' ', w);
    assert Title(w) == t;
    forall k | 0 <= k < |w| ensures ToLower(t)[k] == w[k] {
      var sep := IsTitleSeparator(if k == 0 then ' ' else w[k - 1]);
      assert t[k] == if sep then UpperChar(w[k]) else w[k];
    }
  }

  // ---------------------------------------------------------------------
  // Where the camel-case pattern cannot match
  // ---------------------------------------------------------------------

  /** No digit is directly followed by a capital. */
  predicate DigitsApart(s: string)
  {
    forall k :: 0 <= k < |s| - 1 ==> IsDigit(s[k]) ==> !IsUpper(s[k + 1])
  }

  /** Neither alternative of the camel-case pattern matches anywhere: no
      lower-case letter or digit is followed by a capital, and no two
      capitals are followed by a lower-case letter. */
  predicate NoCamelMatch(s: string)
  {
    (forall k :: 0 <= k < |s| - 1 ==> (IsLower(s[k]) || IsDigit(s[k])) ==> !IsUpper(s[k + 1])) &&
    (forall k :: 0 <= k < |s| - 2 ==> IsUpper(s[k]) && IsUpper(s[k + 1]) ==> !IsLower(s[k + 2]))
  }

  /** Where the pattern matches nowhere, the camel-case pass copies its input. */
  lemma {:induction false} NoMatchCopies(s: string, i: nat)
    requires i <= |s| && NoCamelMatch(s)
    ensures CamelSplit(s, i) == s[i..]
    decreases |s| - i
  {
    if i < |s| {
      var n := UpperRun(s, i);
      if n >= 2 && i + n < |s| {
        assert IsUpper(s[i + n - 2]) && IsUpper(s[i + n - 1]);
      }
      assert !AcronymBreakAt(s, i);
      assert !CamelBreakAt(s, i);
      CopyStep(s, i);
      NoMatchCopies(s, i + 1);
      SuffixCons(s, i);
    }
  }

  lemma {:induction false} DigitsApartSlice(s: string, i: nat, j: nat)
    requires i <= j <= |s| && DigitsApart(s)
    ensures DigitsApart(s[i..j])
  {
    var t := s[i..j];
    forall k | 0 <= k < |t| - 1 ensures IsDigit(t[k]) ==> !IsUpper(t[k + 1]) {
      assert t[k] == s[i + k] && t[k + 1] == s[i + k + 1];
    }
  }

  lemma {:induction false} ConsDigitsApart(c: char, r: string)
    requires DigitsApart(r)
    requires IsDigit(c) && r != [] ==> !IsUpper(r[0])
    ensures DigitsApart([c] + r)
  {
    var t := [c] + r;
    forall k | 0 <= k < |t| - 1 ensures IsDigit(t[k]) ==> !IsUpper(t[k + 1]) {
      assert t[k + 1] == r[k];
      if k > 0 {
        assert t[k] == r[k - 1];
      }
    }
  }

  lemma {:induction false} NoDigitsAppend(a: string, r: string)
    requires forall k :: 0 <= k < |a| ==> !IsDigit(a[k])
    requires DigitsApart(r)
    ensures DigitsApart(a + r)
  {
    var t := a + r;
    forall k | 0 <= k < |t| - 1 ensures IsDigit(t[k]) ==> !IsUpper(t[k + 1]) {
      if k >= |a| {
        assert t[k] == r[k - |a|] && t[k + 1] == r[k + 1 - |a|];
      }
    }
  }

  /** The text an acronym break produces in front of the rest has no digit. */
  lemma {:induction false} AcronymPiecesNoDigits(s: string, i: nat, n: nat)
    requires 1 <= n && i + n + 1 <= |s|
    requires forall k :: i <= k < i + n ==> IsUpper(s[k])
    requires IsLower(s[i + n])
    ensures var a := s[i..i + n - 1] + " " + s[i + n - 1..i + n + 1];
      forall k :: 0 <= k < |a| ==> !IsDigit(a[k])
  {
    var a := s[i..i + n - 1] + " " + s[i + n - 1..i + n + 1];
    forall k | 0 <= k < |a| ensures !IsDigit(a[k]) {
      if k < n - 1 {
        assert a[k] == s[i + k];
      } else if k == n - 1 {
        assert a[k] == ' ';
      } else {
        assert a[k] == s[i + k - 1];
      }
    }
  }

  /** The output of the camel-case pass from position i starts with the
      character at i. */
  lemma {:induction false} CamelSplitHead(s: string, i: nat)
    requires i < |s|
    ensures CamelSplit(s, i) != [] && CamelSplit(s, i)[0] == s[i]
  {
    if AcronymBreakAt(s, i) {
      AcronymBreakStep(s, i);
    } else if CamelBreakAt(s, i) {
      CamelBreakStep(s, i);
    } else {
      CopyStep(s, i);
    }
  }

  lemma {:induction false} AcronymPiecesDigitsApart(s: string, i: nat, n: nat, r: string)
    requires 1 <= n && i + n + 1 <= |s|
    requires forall k :: i <= k < i + n ==> IsUpper(s[k])
    requires IsLower(s[i + n]) && DigitsApart(r)
    ensures DigitsApart(s[i..i + n - 1] + " " + s[i + n - 1..i + n + 1] + r)
  {
    AcronymPiecesNoDigits(s, i, n);
    NoDigitsAppend(s[i..i + n - 1] + " " + s[i + n - 1..i + n + 1], r);
  }

  lemma {:induction false} AcronymStepDigitsApart(s: string, i: nat, n: nat)
    requires i <= |s| && AcronymBreakAt(s, i) && n == UpperRun(s, i)
    requires DigitsApart(CamelSplit(s, i + n + 1))
    ensures DigitsApart(CamelSplit(s, i))
  {
    AcronymBreakStep(s, i);
    AcronymPiecesDigitsApart(s, i, n, CamelSplit(s, i + n + 1));
  }

  lemma {:induction false} CamelStepDigitsApart(s: string, i: nat)
    requires i <= |s| && !AcronymBreakAt(s, i) && CamelBreakAt(s, i)
    requires DigitsApart(CamelSplit(s, i + 2))
    ensures DigitsApart(CamelSplit(s, i))
  {
    var r := CamelSplit(s, i + 2);
    CamelBreakStep(s, i);
    ConsDigitsApart(s[i + 1], r);
    ConsDigitsApart(' ', [s[i + 1]] + r);
    ConsDigitsApart(s[i], [' '] + ([s[i + 1]] + r));
    assert [s[i], ' ', s[i + 1]] + r == [s[i]] + ([' '] + ([s[i + 1]] + r));
  }

  lemma {:induction false} CopyStepDigitsApart(s: string, i: nat)
    requires i < |s| && !AcronymBreakAt(s, i) && !CamelBreakAt(s, i)
    requires DigitsApart(CamelSplit(s, i + 1))
    ensures DigitsApart(CamelSplit(s, i))
  {
    CopyStep(s, i);
    if i + 1 < |s| {
      CamelSplitHead(s, i + 1);
    }
    ConsDigitsApart(s[i], CamelSplit(s, i + 1));
  }

  /** The camel-case pass splits every digit from a following capital. */
  lemma {:induction false} CamelSplitDigitsApart(s: string, i: nat)
    requires i <= |s|
    ensures DigitsApart(CamelSplit(s, i))
    decreases |s| - i
  {
    if i < |s| {
      if AcronymBreakAt(s, i) {
        var n := UpperRun(s, i);
        CamelSplitDigitsApart(s, i + n + 1);
        AcronymStepDigitsApart(s, i, n);
      } else if CamelBreakAt(s, i) {
        CamelSplitDigitsApart(s, i + 2);
        CamelStepDigitsApart(s, i);
      } else {
        CamelSplitDigitsApart(s, i + 1);
        CopyStepDigitsApart(s, i);
      }
    }
  }

  /** The delimiter pass without a pending run starts with a space for a
      delimiter and with the character itself otherwise. */
  lemma {:induction false} ReplaceDelimsHead(s: string, i: nat)
    requires i < |s|
    ensures ReplaceDelims(s, i, false) != []
    ensures ReplaceDelims(s, i, false)[0] == if IsDelim(s[i]) then ' ' else s[i]
  {
  }

  /** The delimiter pass keeps digits apart from capitals. */
  lemma {:induction false} ReplaceDelimsDigitsApart(s: string, i: nat, inRun: bool)
    requires i <= |s| && DigitsApart(s)
    ensures DigitsApart(ReplaceDelims(s, i, inRun))
    decreases |s| - i
  {
    if i < |s| {
      if IsDelim(s[i]) {
        var r := ReplaceDelims(s, i + 1, true);
        ReplaceDelimsDigitsApart(s, i + 1, true);
        if inRun {
          assert ReplaceDelims(s, i, inRun) == r;
        } else {
          ConsDigitsApart(' ', r);
        }
      } else {
        var r := ReplaceDelims(s, i + 1, false);
        ReplaceDelimsDigitsApart(s, i + 1, false);
        if i + 1 < |s| {
          ReplaceDelimsHead(s, i + 1);
        }
        ConsDigitsApart(s[i], r);
      }
    }
  }

  /** The words of a string keep its digits apart from capitals. */
  lemma {:induction false} FieldsDigitsApart(s: string)
    requires DigitsApart(s)
    ensures forall w | w in Fields(s) :: DigitsApart(w)
    decreases |s|
  {
    if s != [] {
      if IsSpace(s[0]) {
        DigitsApartSlice(s, 1, |s|);
        FieldsDigitsApart(s[1..]);
      } else {
        var n := WordLen(s);
        DigitsApartSlice(s, 0, n);
        DigitsApartSlice(s, n, |s|);
        FieldsDigitsApart(s[n..]);
      }
    }
  }

  /** Every word `Words` yields keeps digits apart from capitals. */
  lemma {:induction false} WordsDigitsApart(input: string)
    ensures forall w | w in Words(input) :: DigitsApart(w)
  {
    var c := CamelSplit(input, 0);
    CamelSplitDigitsApart(input, 0);
    ReplaceDelimsDigitsApart(c, 0, false);
    FieldsDigitsApart(ReplaceDelims(c, 0, false));
  }

  // ---------------------------------------------------------------------
  // The words of a label
  // ---------------------------------------------------------------------

  lemma {:induction false} AcronymNoMatch(w: string)
    requires IsAcronym(w) && DigitsApart(w)
    ensures NoCamelMatch(w)
  {
    IsAcronymIff(w);
  }

  lemma {:induction false} LowerNoMatch(w: string)
    ensures NoCamelMatch(ToLower(w))
  {
    ToLowerIdempotent(w);
  }

  /** Titling a word without capitals puts capitals only after separators,
      which are neither letters nor digits. */
  lemma {:induction false} TitleNoMatch(w: string)
    requires forall k :: 0 <= k < |w| ==> !IsUpper(w[k])
    ensures NoCamelMatch(Title(w))
  {
    var t := TitleAfter(' ', w);
    assert Title(w) == t;
    forall k | 0 <= k < |t| - 1 && IsUpper(t[k + 1])
      ensures t[k] == w[k] && !IsUpper(w[k]) && !IsLower(w[k]) && !IsDigit(w[k])
    {
      var sep := IsTitleSeparator(if k == 0 then ' ' else w[k - 1]);
      assert t[k] == if sep then UpperChar(w[k]) else w[k];
    }
  }

  /** Two words joined by a space match nowhere when neither does. */
  lemma {:induction false} SpaceJoinNoMatch(a: string, b: string)
    requires NoCamelMatch(a) && NoCamelMatch(b)
    ensures NoCamelMatch(a + " " + b)
  {
    var s := a + " " + b;
    assert s[|a|] == ' ';
    forall k | 0 <= k < |s| - 1 && (IsLower(s[k]) || IsDigit(s[k])) ensures !IsUpper(s[k + 1]) {
      if k < |a| - 1 {
        assert s[k] == a[k] && s[k + 1] == a[k + 1];
      } else if k > |a| {
        assert s[k] == b[k - |a| - 1] && s[k + 1] == b[k - |a|];
      }
    }
    forall k | 0 <= k < |s| - 2 && IsUpper(s[k]) && IsUpper(s[k + 1]) ensures !IsLower(s[k + 2]) {
      if k < |a| - 2 {
        assert s[k] == a[k] && s[k + 1] == a[k + 1] && s[k + 2] == a[k + 2];
      } else if k > |a| {
        assert s[k] == b[k - |a| - 1] && s[k + 1] == b[k - |a|] && s[k + 2] == b[k - |a| + 1];
      }
    }
  }

  lemma {:induction false} JoinNoMatch(ws: seq<string>)
    requires forall i :: 0 <= i < |ws| ==> NoCamelMatch(ws[i])
    ensures NoCamelMatch(JoinWords(ws))
    decreases |ws|
  {
    if |ws| > 1 {
      JoinNoMatch(ws[1..]);
      SpaceJoinNoMatch(ws[0], JoinWords(ws[1..]));
    }
  }

  /** The words of a label: every word cased, the first one titled unless
      it is an acronym. */
  function Finish(ws: seq<string>): (out: seq<string>)
    requires ws != []
    ensures |out| == |ws|
  {
    var cased := CaseWords(ws);
    if IsAcronym(cased[0]) then cased else cased[0 := Title(cased[0])]
  }

  lemma {:induction false} LabelOfFinish(input: string)
    requires input != "" && Words(input) != []
    ensures LabelOf(input) == JoinWords(Finish(Words(input)))
  {
  }

  /** Finishing finished words changes nothing. */
  lemma {:induction false} FinishIdempotent(ws: seq<string>)
    requires ws != []
    ensures Finish(Finish(ws)) == Finish(ws)
  {
    var c := CaseWords(ws);
    var f := Finish(ws);
    var cf := CaseWords(f);
    forall i | 0 < i < |ws| ensures cf[i] == f[i] {
      CaseWordIdempotent(ws[i]);
    }
    if IsAcronym(c[0]) {
      assert cf[0] == f[0];
      assert cf == f;
    } else {
      ToLowerIdempotent(ws[0]);
      var t := Title(c[0]);
      if IsAcronym(t) {
        assert cf[0] == t;
        assert cf == f;
      } else {
        LowerOfTitle(c[0]);
        assert cf[0] == c[0];
        assert cf[0 := Title(cf[0])] == f;
      }
    }
  }

  /** No finished word lets the camel-case pattern match. */
  lemma {:induction false} FinishNoMatch(ws: seq<string>)
    requires ws != [] && forall i :: 0 <= i < |ws| ==> DigitsApart(ws[i])
    ensures forall i :: 0 <= i < |ws| ==> NoCamelMatch(Finish(ws)[i])
  {
    var c := CaseWords(ws);
    var f := Finish(ws);
    forall i | 0 <= i < |ws| ensures NoCamelMatch(c[i]) {
      if IsAcronym(ws[i]) {
        AcronymNoMatch(ws[i]);
      } else {
        LowerNoMatch(ws[i]);
      }
    }
    if !IsAcronym(c[0]) {
      ToLowerIdempotent(ws[0]);
      TitleNoMatch(c[0]);
    }
  }

  /** Finished words are still words without delimiters. */
  lemma {:induction false} FinishWords(ws: seq<string>)
    requires ws != [] && forall i :: 0 <= i < |ws| ==> IsWord(ws[i]) && NoDelims(ws[i])
    ensures forall i :: 0 <= i < |ws| ==> IsWord(Finish(ws)[i]) && NoDelims(Finish(ws)[i])
  {
    var c := CaseWords(ws);
    forall i | 0 <= i < |ws| ensures IsWord(c[i]) && NoDelims(c[i]) {
      CaseWordIsWord(ws[i]);
    }
    TitleIsWord(c[0]);
  }

  /** Joined clean words are split back into themselves by `Words`. */
  lemma {:induction false} WordsOfCleanJoin(ws: seq<string>)
    requires forall i :: 0 <= i < |ws| ==> IsWord(ws[i]) && NoDelims(ws[i]) && NoCamelMatch(ws[i])
    ensures Words(JoinWords(ws)) == ws
  {
    var s := JoinWords(ws);
    JoinNoMatch(ws);
    NoMatchCopies(s, 0);
    JoinNoDelims(ws);
    ReplaceDelimsCopies(s, 0, false);
    assert s[0..] == s;
    FieldsOfJoin(ws);
  }

  // ---------------------------------------------------------------------
  // The two properties
  // ---------------------------------------------------------------------

  /** `Labelize` is idempotent: a label is its own label. */
  lemma {:induction false} LabelIdempotent(input: string)
    ensures LabelOf(LabelOf(input)) == LabelOf(input)
  {
    if input != "" && Words(input) != [] {
      var ws := Words(input);
      WordsAreClean(input);
      WordsDigitsApart(input);
      assert forall i :: 0 <= i < |ws| ==> ws[i] in ws;
      var f := Finish(ws);
      LabelOfFinish(input);
      FinishWords(ws);
      FinishNoMatch(ws);
      WordsOfCleanJoin(f);
      if JoinWords(f) != "" {
        LabelOfFinish(JoinWords(f));
        FinishIdempotent(ws);
      }
    }
  }

  /** Every character of the delimiter pass's output is white space when
      the input has only delimiters and white space. */
  lemma {:induction false} ReplaceDelimsOfSeparators(s: string, i: nat, inRun: bool)
    requires i <= |s| && forall k :: 0 <= k < |s| ==> IsDelim(s[k]) || IsSpace(s[k])
    ensures forall k :: 0 <= k < |ReplaceDelims(s, i, inRun)| ==> IsSpace(ReplaceDelims(s, i, inRun)[k])
    decreases |s| - i
  {
    if i < |s| {
      var r := ReplaceDelims(s, i + 1, IsDelim(s[i]));
      ReplaceDelimsOfSeparators(s, i + 1, IsDelim(s[i]));
      var p := if IsDelim(s[i]) then (if inRun then "" else " ") else [s[i]];
      assert ReplaceDelims(s, i, inRun) == p + r;
      forall k | 0 <= k < |p + r| ensures IsSpace((p + r)[k]) {
        if k >= |p| {
          assert (p + r)[k] == r[k - |p|];
        }
      }
    }
  }

  lemma {:induction false} FieldsOfSpaces(s: string)
    requires forall k :: 0 <= k < |s| ==> IsSpace(s[k])
    ensures Fields(s) == []
    decreases |s|
  {
    if s != [] {
      FieldsOfSpaces(s[1..]);
    }
  }

  lemma {:induction false} SeparatorNotAlphanumeric(c: char)
    requires IsDelim(c) || IsSpace(c)
    ensures !IsUpper(c) && !IsLower(c) && !IsDigit(c)
  {
  }

  lemma {:induction false} SeparatorsNoMatch(s: string)
    requires forall k :: 0 <= k < |s| ==> IsDelim(s[k]) || IsSpace(s[k])
    ensures NoCamelMatch(s)
  {
    forall k | 0 <= k < |s| ensures !IsUpper(s[k]) && !IsLower(s[k]) && !IsDigit(s[k]) {
      SeparatorNotAlphanumeric(s[k]);
    }
  }

  /** An identifier made of delimiters and white space only has the empty
      label. */
  lemma {:induction false} AllSeparatorsEmpty(s: string)
    requires forall k :: 0 <= k < |s| ==> IsDelim(s[k]) || IsSpace(s[k])
    ensures LabelOf(s) == ""
  {
    if s != "" {
      SeparatorsNoMatch(s);
      NoMatchCopies(s, 0);
      assert s[0..] == s;
      ReplaceDelimsOfSeparators(s, 0, false);
      FieldsOfSpaces(ReplaceDelims(s, 0, false));
    }
  }

  /** "___" has the empty label. */
  lemma {:induction false} LabelOfUnderscores()
    ensures LabelOf("___") == ""
  {
    AllSeparatorsEmpty("___");
  }
}
