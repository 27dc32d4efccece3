/**
 * Properties of `Labelize`: the shape of every label, the effect of each
 * scan, and the examples of the source's test table.
 */
module LabelizeProps {
  import opened Labelize

  // ---------------------------------------------------------------------
  // Shape predicates
  // ---------------------------------------------------------------------

  predicate NoDelims(s: string)
  {
    forall k :: 0 <= k < |s| ==> !IsDelim(s[k])
  }

  /** A word as `strings.Fields` returns it: non-empty, no white space. */
  predicate IsWord(w: string)
  {
    w != [] && forall k :: 0 <= k < |w| ==> !IsSpace(w[k])
  }

  /** Words joined by single spaces: the only white space is ' ', never at
      either end and never twice in a row. */
  predicate WellSpaced(s: string)
  {
    (|s| > 0 ==> !IsSpace(s[0]) && !IsSpace(s[|s| - 1])) &&
    forall k :: 0 <= k < |s| && IsSpace(s[k]) ==> s[k] == ' ' && k + 1 < |s| && !IsSpace(s[k + 1])
  }

  /** s with every ' ' removed. */
  function Unspaced(s: string): string
  {
    if s == [] then [] else (if s[0] == ' ' then [] else [s[0]]) + Unspaced(s[1..])
  }

  // ---------------------------------------------------------------------
  // The camel-case pass
  // ---------------------------------------------------------------------

  lemma {:induction false} UnspacedAppend(a: string, b: string)
    ensures Unspaced(a + b) == Unspaced(a) + Unspaced(b)
    decreases |a|
  {
    if a != [] {
      assert (a + b)[1..] == a[1..] + b;
      UnspacedAppend(a[1..], b);
    } else {
      assert a + b == b;
    }
  }

  /** A trailing space disappears once spaces are removed. */
  lemma {:induction false} UnspacedSpace(a: string)
    ensures Unspaced(a + " ") == Unspaced(a)
  {
    UnspacedAppend(a, " ");
    assert Unspaced(" ") == [];
    assert Unspaced(a) + [] == Unspaced(a);
  }

  /** A suffix of s cut in two at j. */
  lemma {:induction false} SuffixSplit(s: string, i: nat, j: nat)
    requires i <= j <= |s|
    ensures s[i..] == s[i..j] + s[j..]
  {
  }

  /** A suffix of s is its first character and the rest. */
  lemma {:induction false} SuffixCons(s: string, i: nat)
    requires i < |s|
    ensures s[i..] == [s[i]] + s[i + 1..]
  {
  }

  /** A slice of s is its first character and the rest. */
  lemma {:induction false} SliceCons(s: string, i: nat, j: nat)
    requires i < j <= |s|
    ensures s[i..j] == [s[i]] + s[i + 1..j]
  {
  }

  lemma {:induction false} AppendAssoc(a: string, b: string, c: string)
    ensures a + (b + c) == a + b + c
  {
  }

  /** Agreement up to spaces survives putting the same character in front. */
  lemma {:induction false} ConsUnspaced(c: char, r: string, t: string)
    requires Unspaced(r) == Unspaced(t)
    ensures Unspaced([c] + r) == Unspaced([c] + t)
  {
    UnspacedAppend([c], r);
    UnspacedAppend([c], t);
  }

  /** The string algebra behind one camel match. */
  lemma {:induction false} PairSpaceUnspaced(x: char, y: char, r: string, t: string)
    requires x != ' ' && y != ' '
    requires Unspaced(r) == Unspaced(t)
    ensures Unspaced([x, ' ', y] + r) == Unspaced([x] + ([y] + t))
  {
    UnspacedAppend([x, ' ', y], r);
    assert [x, ' ', y][1..] == [' ', y] && [' ', y][1..] == [y];
    assert Unspaced([y]) == [y] + Unspaced([]);
    assert Unspaced([x, ' ', y]) == [x] + Unspaced([' ', y]);
    UnspacedAppend([y], t);
    UnspacedAppend([x], [y] + t);
    assert Unspaced([x]) == [x] + Unspaced([]);
  }

  /** The acronym alternative matches at i. */
  lemma {:induction false} AcronymBreakStep(s: string, i: nat)
    requires i <= |s| && AcronymBreakAt(s, i)
    ensures var n := UpperRun(s, i);
      CamelSplit(s, i) == s[i..i + n - 1] + " " + s[i + n - 1..i + n + 1] + CamelSplit(s, i + n + 1)
  {
  }

  /** The camel alternative matches at i. */
  lemma {:induction false} CamelBreakStep(s: string, i: nat)
    requires i <= |s| && !AcronymBreakAt(s, i) && CamelBreakAt(s, i)
    ensures CamelSplit(s, i) == [s[i], ' ', s[i + 1]] + CamelSplit(s, i + 2)
  {
  }

  /** The string algebra behind one acronym match: the inserted space goes,
      and the parts agree once the tails agree. */
  lemma {:induction false} InsertedSpaceUnspaced(a: string, b: string, r: string, t: string)
    requires Unspaced(r) == Unspaced(t)
    ensures Unspaced(a + " " + b + r) == Unspaced(a + (b + t))
  {
    UnspacedAppend(a + " " + b, r);
    UnspacedAppend(a + " ", b);
    UnspacedSpace(a);
    UnspacedAppend(b, t);
    UnspacedAppend(a, b + t);
    var ua, ub, ut := Unspaced(a), Unspaced(b), Unspaced(t);
    assert ua + ub + ut == ua + (ub + ut);
  }

  /** The pieces of one acronym match, cut at i + n - 1 and i + n + 1,
      agree with the input from i once the tails agree. */
  lemma {:induction false} AcronymPiecesUnspaced(s: string, i: nat, n: nat, r: string)
    requires 1 <= n && i + n + 1 <= |s|
    requires Unspaced(r) == Unspaced(s[i + n + 1..])
    ensures Unspaced(s[i..i + n - 1] + " " + s[i + n - 1..i + n + 1] + r) == Unspaced(s[i..])
  {
    SuffixSplit(s, i + n - 1, i + n + 1);
    SuffixSplit(s, i, i + n - 1);
    InsertedSpaceUnspaced(s[i..i + n - 1], s[i + n - 1..i + n + 1], r, s[i + n + 1..]);
  }

  /** One match of the acronym alternative keeps the input up to spaces. */
  lemma {:induction false} AcronymBreakUnspaced(s: string, i: nat, n: nat)
    requires i <= |s| && AcronymBreakAt(s, i) && n == UpperRun(s, i)
    requires Unspaced(CamelSplit(s, i + n + 1)) == Unspaced(s[i + n + 1..])
    ensures Unspaced(CamelSplit(s, i)) == Unspaced(s[i..])
  {
    AcronymBreakStep(s, i);
    AcronymPiecesUnspaced(s, i, n, CamelSplit(s, i + n + 1));
  }

  /** One match of the camel alternative keeps the input up to spaces. */
  lemma {:induction false} CamelBreakUnspaced(s: string, i: nat)
    requires i <= |s| && !AcronymBreakAt(s, i) && CamelBreakAt(s, i)
    requires Unspaced(CamelSplit(s, i + 2)) == Unspaced(s[i + 2..])
    ensures Unspaced(CamelSplit(s, i)) == Unspaced(s[i..])
  {
    CamelBreakStep(s, i);
    SuffixCons(s, i);
    SuffixCons(s, i + 1);
    PairSpaceUnspaced(s[i], s[i + 1], CamelSplit(s, i + 2), s[i + 2..]);
  }

  /** Neither alternative matches at i: the character is copied. */
  lemma {:induction false} CopyStep(s: string, i: nat)
    requires i < |s| && !AcronymBreakAt(s, i) && !CamelBreakAt(s, i)
    ensures CamelSplit(s, i) == [s[i]] + CamelSplit(s, i + 1)
  {
  }

  /** A copied character keeps the input up to spaces. */
  lemma {:induction false} CopyUnspaced(s: string, i: nat)
    requires i < |s| && !AcronymBreakAt(s, i) && !CamelBreakAt(s, i)
    requires Unspaced(CamelSplit(s, i + 1)) == Unspaced(s[i + 1..])
    ensures Unspaced(CamelSplit(s, i)) == Unspaced(s[i..])
  {
    CopyStep(s, i);
    SuffixCons(s, i);
    ConsUnspaced(s[i], CamelSplit(s, i + 1), s[i + 1..]);
  }

  /** The camel-case pass only inserts spaces: with spaces removed, its
      output is its input. */
  lemma {:induction false} CamelSplitOnlyInsertsSpaces(s: string, i: nat)
    requires i <= |s|
    ensures Unspaced(CamelSplit(s, i)) == Unspaced(s[i..])
    decreases |s| - i
  {
    if i < |s| {
      if AcronymBreakAt(s, i) {
        var n := UpperRun(s, i);
        CamelSplitOnlyInsertsSpaces(s, i + n + 1);
        AcronymBreakUnspaced(s, i, n);
      } else if CamelBreakAt(s, i) {
        CamelSplitOnlyInsertsSpaces(s, i + 2);
        CamelBreakUnspaced(s, i);
      } else {
        CamelSplitOnlyInsertsSpaces(s, i + 1);
        CopyUnspaced(s, i);
      }
    }
  }

  /** Neither alternative of the camel-case pattern matches at any position
      from i up to j. */
  predicate NoBreakIn(s: string, i: nat, j: nat)
    requires i <= j <= |s|
    decreases j - i
  {
    i == j || (!AcronymBreakAt(s, i) && !CamelBreakAt(s, i) && NoBreakIn(s, i + 1, j))
  }

  /** A stretch of positions where neither alternative matches is copied. */
  lemma {:induction false} CamelSplitCopies(s: string, i: nat, j: nat)
    requires i <= j <= |s| && NoBreakIn(s, i, j)
    ensures CamelSplit(s, i) == s[i..j] + CamelSplit(s, j)
    decreases j - i
  {
    if i < j {
      CopyStep(s, i);
      CamelSplitCopies(s, i + 1, j);
      SliceCons(s, i, j);
      AppendAssoc([s[i]], s[i + 1..j], CamelSplit(s, j));
    }
  }

  lemma {:induction false} UpperRunIs(s: string, i: nat, n: nat)
    requires i + n <= |s|
    requires forall k :: i <= k < i + n ==> IsUpper(s[k])
    requires i + n == |s| || !IsUpper(s[i + n])
    ensures UpperRun(s, i) == n
    decreases n
  {
    if n > 0 {
      UpperRunIs(s, i + 1, n - 1);
    }
  }

  // ---------------------------------------------------------------------
  // The delimiter pass
  // ---------------------------------------------------------------------

  lemma {:induction false} ReplaceDelimsRemovesDelims(s: string, i: nat, inRun: bool)
    requires i <= |s|
    ensures NoDelims(ReplaceDelims(s, i, inRun))
    decreases |s| - i
  {
    if i < |s| {
      ReplaceDelimsRemovesDelims(s, i + 1, IsDelim(s[i]));
    }
  }

  lemma {:induction false} ReplaceDelimsCopies(s: string, i: nat, inRun: bool)
    requires i <= |s|
    requires forall k :: i <= k < |s| ==> !IsDelim(s[k])
    ensures ReplaceDelims(s, i, inRun) == s[i..]
    decreases |s| - i
  {
    if i < |s| {
      ReplaceDelimsCopies(s, i + 1, false);
      assert s[i..] == [s[i]] + s[i + 1..];
    }
  }

  /** A stretch without delimiters is copied. */
  lemma {:induction false} ReplaceDelimsCopiesUpTo(s: string, i: nat, j: nat, inRun: bool)
    requires i < j <= |s|
    requires forall k :: i <= k < j ==> !IsDelim(s[k])
    ensures ReplaceDelims(s, i, inRun) == s[i..j] + ReplaceDelims(s, j, false)
    decreases j - i
  {
    assert ReplaceDelims(s, i, inRun) == [s[i]] + ReplaceDelims(s, i + 1, false);
    SliceCons(s, i, j);
    if i + 1 < j {
      ReplaceDelimsCopiesUpTo(s, i + 1, j, false);
      AppendAssoc([s[i]], s[i + 1..j], ReplaceDelims(s, j, false));
    } else {
      assert s[i + 1..j] == [];
    }
  }

  /** A run of delimiters becomes one space, or nothing when it continues a run. */
  lemma {:induction false} ReplaceDelimsRun(s: string, i: nat, j: nat, inRun: bool)
    requires i < j <= |s|
    requires forall k :: i <= k < j ==> IsDelim(s[k])
    ensures ReplaceDelims(s, i, inRun) == (if inRun then "" else " ") + ReplaceDelims(s, j, true)
    decreases j - i
  {
    var rest := ReplaceDelims(s, i + 1, true);
    assert ReplaceDelims(s, i, inRun) == (if inRun then "" else " ") + rest;
    if i + 1 < j {
      ReplaceDelimsRun(s, i + 1, j, true);
      assert rest == "" + ReplaceDelims(s, j, true);
    }
  }

  /** `strings.Title` of a word with no separator before its last character
      upper-cases just the first character. */
  lemma {:induction false} TitleOfPlainWord(w: string)
    requires w != [] && forall k :: 0 <= k < |w| - 1 ==> !IsTitleSeparator(w[k])
    ensures Title(w) == [UpperChar(w[0])] + w[1..]
  {
    var t := TitleAfter(' ', w);
    assert Title(w) == t;
    forall k | 0 <= k < |w| ensures t[k] == ([UpperChar(w[0])] + w[1..])[k] {
      var sep := IsTitleSeparator(if k == 0 then ' ' else w[k - 1]);
      assert t[k] == if sep then UpperChar(w[k]) else w[k];
    }
  }

  // ---------------------------------------------------------------------
  // Fields and Join
  // ---------------------------------------------------------------------

  /** Every field is a word, made of characters of the input. */
  lemma {:induction false} FieldsAreWords(s: string)
    ensures forall w | w in Fields(s) :: IsWord(w) && forall k :: 0 <= k < |w| ==> w[k] in s
    decreases |s|
  {
    if s != [] {
      if IsSpace(s[0]) {
        FieldsAreWords(s[1..]);
      } else {
        var n := WordLen(s);
        FieldsAreWords(s[n..]);
        forall w | w in Fields(s)
          ensures IsWord(w) && forall k :: 0 <= k < |w| ==> w[k] in s
        {
          if w != s[..n] {
            assert w in Fields(s[n..]);
            forall k | 0 <= k < |w| ensures w[k] in s {
              assert w[k] in s[n..];
            }
          } else {
            forall k | 0 <= k < |w| ensures w[k] in s {
              assert w[k] == s[k];
            }
          }
        }
      }
    }
  }

  lemma {:induction false} WordLenOfWord(w: string, rest: string)
    requires IsWord(w) || w == []
    requires rest == [] || IsSpace(rest[0])
    ensures WordLen(w + rest) == |w|
    decreases |w|
  {
    if w != [] {
      assert (w + rest)[1..] == w[1..] + rest;
      WordLenOfWord(w[1..], rest);
    } else {
      assert w + rest == rest;
    }
  }

  lemma {:induction false} JoinNonEmpty(ws: seq<string>)
    requires ws != [] && forall i :: 0 <= i < |ws| ==> IsWord(ws[i])
    requires IsWord(ws[0]) && IsWord(ws[|ws| - 1])
    ensures JoinWords(ws) != [] && JoinWords(ws)[0] == ws[0][0]
    ensures JoinWords(ws)[|JoinWords(ws)| - 1] == ws[|ws| - 1][|ws[|ws| - 1]| - 1]
    decreases |ws|
  {
    if |ws| > 1 {
      var rest := JoinWords(ws[1..]);
      JoinNonEmpty(ws[1..]);
      assert ws[1..][|ws[1..]| - 1] == ws[|ws| - 1];
      assert JoinWords(ws) == ws[0] + " " + rest;
      assert (ws[0] + " " + rest)[|ws[0]| + 1 + |rest| - 1] == rest[|rest| - 1];
    }
  }

  /** Joining words with single spaces and splitting them again gives the words back. */
  lemma {:induction false} FieldsOfJoin(ws: seq<string>)
    requires forall i :: 0 <= i < |ws| ==> IsWord(ws[i])
    ensures Fields(JoinWords(ws)) == ws
    decreases |ws|
  {
    if |ws| == 1 {
      WordLenOfWord(ws[0], []);
      assert ws[0] + [] == ws[0];
      assert ws[0][|ws[0]|..] == [];
    } else if |ws| > 1 {
      var w, rest := ws[0], JoinWords(ws[1..]);
      FieldsOfJoin(ws[1..]);
      var s := w + " " + rest;
      assert s == w + (" " + rest);
      WordLenOfWord(w, " " + rest);
      assert s[..|w|] == w;
      assert s[|w|..] == " " + rest;
      assert (" " + rest)[1..] == rest;
    }
  }

  /** Joined words are well spaced. */
  lemma {:induction false} JoinWellSpaced(ws: seq<string>)
    requires forall i :: 0 <= i < |ws| ==> IsWord(ws[i])
    ensures WellSpaced(JoinWords(ws))
    decreases |ws|
  {
    if |ws| == 1 {
    } else if |ws| > 1 {
      var w, rest := ws[0], JoinWords(ws[1..]);
      JoinWellSpaced(ws[1..]);
      JoinNonEmpty(ws[1..]);
      var s := w + " " + rest;
      forall k | 0 <= k < |s| && IsSpace(s[k])
        ensures s[k] == ' ' && k + 1 < |s| && !IsSpace(s[k + 1])
      {
        if k > |w| {
          assert s[k] == rest[k - |w| - 1];
          assert k + 1 < |s| ==> s[k + 1] == rest[k - |w|];
        }
      }
    }
  }

  // ---------------------------------------------------------------------
  // Case mapping keeps words words
  // ---------------------------------------------------------------------

  lemma {:induction false} CaseWordIsWord(w: string)
    requires IsWord(w) && NoDelims(w)
    ensures IsWord(CaseWord(w)) && NoDelims(CaseWord(w))
  {
  }

  lemma {:induction false} TitleIsWord(w: string)
    requires IsWord(w) && NoDelims(w)
    ensures IsWord(Title(w)) && NoDelims(Title(w))
  {
    var t := TitleAfter(' ', w);
    assert Title(w) == t;
    forall k | 0 <= k < |t| ensures !IsSpace(t[k]) && !IsDelim(t[k]) {
      var sep := IsTitleSeparator(if k == 0 then ' ' else w[k - 1]);
      assert t[k] == if sep then UpperChar(w[k]) else w[k];
    }
  }

  // ---------------------------------------------------------------------
  // The shape of a label
  // ---------------------------------------------------------------------

  /** Every word that `Words` yields is a word without delimiters. */
  lemma {:induction false} WordsAreClean(input: string)
    ensures forall w | w in Words(input) :: IsWord(w) && NoDelims(w)
  {
    var s := ReplaceDelims(CamelSplit(input, 0), 0, false);
    ReplaceDelimsRemovesDelims(CamelSplit(input, 0), 0, false);
    FieldsAreWords(s);
    forall w | w in Words(input) ensures NoDelims(w) {
      forall k | 0 <= k < |w| ensures !IsDelim(w[k]) {
        assert w[k] in s;
      }
    }
  }

  /** A label has no '_' or '-', and its words are separated by single
      spaces, with no space at either end. */
  lemma {:induction false} LabelShape(input: string)
    ensures NoDelims(LabelOf(input)) && WellSpaced(LabelOf(input))
  {
    if input != "" && Words(input) != [] {
      var ws := Words(input);
      WordsAreClean(input);
      var cased := CaseWords(ws);
      forall i | 0 <= i < |cased| ensures IsWord(cased[i]) && NoDelims(cased[i]) {
        assert ws[i] in ws;
        CaseWordIsWord(ws[i]);
      }
      var final := if IsAcronym(cased[0]) then cased else cased[0 := Title(cased[0])];
      TitleIsWord(cased[0]);
      assert forall i :: 0 <= i < |final| ==> IsWord(final[i]) && NoDelims(final[i]);
      JoinWellSpaced(final);
      JoinNoDelims(final);
    }
  }

  lemma {:induction false} JoinNoDelims(ws: seq<string>)
    requires forall i :: 0 <= i < |ws| ==> NoDelims(ws[i])
    ensures NoDelims(JoinWords(ws))
    decreases |ws|
  {
    if |ws| > 1 {
      JoinNoDelims(ws[1..]);
    }
  }

  /** The label's words are the words of the input, acronyms upper-case,
      every other word lower-case except that the first is capitalised. */
  lemma {:induction false} LabelWords(input: string)
    requires input != "" && Words(input) != []
    ensures
      var ws := Words(input);
      var out := Fields(LabelOf(input));
      |out| == |ws| &&
      (forall i :: 0 < i < |ws| ==> out[i] == if IsAcronym(ws[i]) then ws[i] else ToLower(ws[i])) &&
      out[0] == if IsAcronym(ws[0]) then ws[0] else Title(ToLower(ws[0]))
  {
    var ws := Words(input);
    WordsAreClean(input);
    var cased := CaseWords(ws);
    forall i | 0 <= i < |cased| ensures IsWord(cased[i]) && NoDelims(cased[i]) {
      assert ws[i] in ws;
      CaseWordIsWord(ws[i]);
    }
    TitleIsWord(cased[0]);
    var final := if IsAcronym(cased[0]) then cased else cased[0 := Title(cased[0])];
    FieldsOfJoin(final);
    forall i | 0 <= i < |ws| && IsAcronym(ws[i]) ensures cased[i] == ws[i] && IsAcronym(cased[i]) {
    }
    if !IsAcronym(ws[0]) {
      LowerNotAcronym(ws[0]);
    }
  }

  /** Lower-casing does not make a word an acronym. */
  lemma {:induction false} LowerNotAcronym(w: string)
    requires !IsAcronym(w)
    ensures !IsAcronym(ToLower(w))
  {
    Utf8LenCaseMap(w);
  }

  lemma {:induction false} Utf8LenCaseMap(w: string)
    ensures Utf8Len(ToLower(w)) == Utf8Len(w) && Utf8Len(ToUpper(w)) == Utf8Len(w)
    decreases |w|
  {
    if w != [] {
      assert ToLower(w)[1..] == ToLower(w[1..]);
      assert ToUpper(w)[1..] == ToUpper(w[1..]);
      Utf8LenCaseMap(w[1..]);
    }
  }
}
