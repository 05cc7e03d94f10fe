/**
 * The parts of Go's standard library that the core relies on, over `string`
 * (a sequence of Unicode scalar values): strings.Fields, strings.Contains,
 * strings.Join, strings.Split with a one-character separator,
 * strings.EqualFold (folding ASCII letters only), Go's `<` on strings, and
 * the title-casing of one word.
 */
module GoStrings {

  /** The characters unicode.IsSpace accepts, the separators of strings.Fields. */
  const Spaces: set<char> := {
    ' ', '\t', '\n', '\U{000B}', '\U{000C}', '\r', '\U{0085}', '\U{00A0}', '\U{1680}',
    '\U{2000}', '\U{2001}', '\U{2002}', '\U{2003}', '\U{2004}', '\U{2005}', '\U{2006}',
    '\U{2007}', '\U{2008}', '\U{2009}', '\U{200A}',
    '\U{2028}', '\U{2029}', '\U{202F}', '\U{205F}', '\U{3000}'
  }

  /** unicode.IsSpace. */
  predicate IsSpace(c: char) {
    c in Spaces
  }

  /** A field as strings.Fields returns it: non-empty and free of white space. */
  predicate IsWord(w: string) {
    |w| > 0 && forall i :: 0 <= i < |w| ==> !IsSpace(w[i])
  }

  predicate AllSpace(s: string) {
    forall i :: 0 <= i < |s| ==> IsSpace(s[i])
  }

  /**
   * The end of the run that starts at `i` of characters whose white-space
   * class is `space`.
   */
  function SpanEnd(s: string, i: nat, space: bool): (j: nat)
    requires i <= |s|
    ensures i <= j <= |s|
    ensures forall k :: i <= k < j ==> IsSpace(s[k]) == space
    ensures j == |s| || IsSpace(s[j]) != space
    decreases |s| - i
  {
    if i == |s| || IsSpace(s[i]) != space then i else SpanEnd(s, i + 1, space)
  }

  /** A run ends exactly where the class first changes. */
  lemma {:induction false} SpanEndAt(s: string, i: nat, space: bool, j: nat)
    requires i <= j <= |s|
    requires forall k :: i <= k < j ==> IsSpace(s[k]) == space
    requires j == |s| || IsSpace(s[j]) != space
    ensures SpanEnd(s, i, space) == j
    decreases j - i
  {
    if i < j {
      SpanEndAt(s, i + 1, space, j);
    }
  }

  /** strings.Fields on the suffix of `s` from index `i`. */
  function FieldsFrom(s: string, i: nat): (fs: seq<string>)
    requires i <= |s|
    ensures forall k :: 0 <= k < |fs| ==> IsWord(fs[k])
    decreases |s| - i
  {
    var j := SpanEnd(s, i, true);
    if j == |s| then []
    else
      var k := SpanEnd(s, j, false);
      [s[j..k]] + FieldsFrom(s, k)
  }

  /** strings.Fields: the maximal runs of non-white-space characters of `s`, in order. */
  function Fields(s: string): (fs: seq<string>)
    ensures forall k :: 0 <= k < |fs| ==> IsWord(fs[k])
  {
    FieldsFrom(s, 0)
  }

  /** strings.Fields finds no field exactly when the string is all white space. */
  lemma FieldsEmptyIff(s: string)
    ensures Fields(s) == [] <==> AllSpace(s)
  {
    var j := SpanEnd(s, 0, true);
    if j < |s| {
      assert !IsSpace(s[j]);
    }
  }

  /** strings.Join. */
  function Join(parts: seq<string>, sep: string): (r: string)
    ensures parts != [] ==> HasPrefix(r, parts[0])
  {
    if parts == [] then []
    else if |parts| == 1 then parts[0]
    else parts[0] + sep + Join(parts[1..], sep)
  }

  /** A white-space character before a position is skipped. */
  lemma FieldsFromSkipsSpace(s: string, i: nat)
    requires i < |s| && IsSpace(s[i])
    ensures FieldsFrom(s, i) == FieldsFrom(s, i + 1)
  {
    assert SpanEnd(s, i, true) == SpanEnd(s, i + 1, true);
  }

  /** A word starting at `i` and ending at white space or at the end of `s` is the next field. */
  lemma FieldsFromWord(s: string, i: nat, w: string)
    requires IsWord(w) && i + |w| <= |s| && s[i..i + |w|] == w
    requires i + |w| == |s| || IsSpace(s[i + |w|])
    ensures FieldsFrom(s, i) == [w] + FieldsFrom(s, i + |w|)
  {
    assert s[i] == w[0];
    assert SpanEnd(s, i, true) == i;
    assert forall k :: i <= k < i + |w| ==> s[k] == w[k - i];
    SpanEndAt(s, i, false, i + |w|);
  }

  predicate AllWords(ws: seq<string>) {
    forall i :: 0 <= i < |ws| ==> IsWord(ws[i])
  }

  /** The suffix of `s` from `i` is the words `ws` joined with single spaces. */
  predicate JoinedAt(s: string, i: nat, ws: seq<string>) {
    i <= |s| && s[i..] == Join(ws, " ")
  }

  /** The word `w` starts at `i` and a space follows it. */
  predicate WordThenSpaceAt(s: string, i: nat, w: string) {
    IsWord(w) && i + |w| < |s| && s[i..i + |w|] == w && s[i + |w|] == ' '
  }

  /** Fields of a string whose suffix from `i` is a joined sequence of words. */
  lemma {:induction false} FieldsFromJoin(s: string, i: nat, ws: seq<string>)
    requires AllWords(ws) && JoinedAt(s, i, ws)
    ensures FieldsFrom(s, i) == ws
    decreases |ws|
  {
    if |ws| <= 1 {
      FieldsFromShortJoin(s, i, ws);
    } else {
      JoinConsSlices(s, i, ws);
      FieldsFromWordThenSpace(s, i, ws[0]);
      FieldsFromJoin(s, i + |ws[0]| + 1, ws[1..]);
      assert ws == [ws[0]] + ws[1..];
    }
  }

  lemma FieldsFromEnd(s: string)
    ensures FieldsFrom(s, |s|) == []
  {
    assert SpanEnd(s, |s|, true) == |s|;
  }

  lemma FieldsFromShortJoin(s: string, i: nat, ws: seq<string>)
    requires AllWords(ws) && |ws| <= 1 && JoinedAt(s, i, ws)
    ensures FieldsFrom(s, i) == ws
  {
    if ws == [] {
      assert i == |s|;
      FieldsFromEnd(s);
    } else {
      var w := ws[0];
      assert s[i..] == w;
      assert i + |w| == |s|;
      assert s[i..i + |w|] == w;
      FieldsFromWord(s, i, w);
      FieldsFromEnd(s);
    }
  }

  /** The pieces of a suffix that is the join of at least two words. */
  lemma JoinConsSlices(s: string, i: nat, ws: seq<string>)
    requires |ws| >= 2 && AllWords(ws) && JoinedAt(s, i, ws)
    ensures WordThenSpaceAt(s, i, ws[0])
    ensures JoinedAt(s, i + |ws[0]| + 1, ws[1..]) && AllWords(ws[1..])
  {
    var w := ws[0];
    var t := s[i..];
    assert t == w + " " + Join(ws[1..], " ");
    assert s[i..i + |w|] == t[..|w|];
    assert s[i + |w| + 1..] == t[|w| + 1..];
    AllWordsTail(ws);
  }

  lemma FieldsFromWordThenSpace(s: string, i: nat, w: string)
    requires WordThenSpaceAt(s, i, w)
    ensures FieldsFrom(s, i) == [w] + FieldsFrom(s, i + |w| + 1)
  {
    FieldsFromWord(s, i, w);
    FieldsFromSkipsSpace(s, i + |w|);
  }

  lemma AllWordsTail(ws: seq<string>)
    requires AllWords(ws) && ws != []
    ensures AllWords(ws[1..])
  {
    forall k | 0 <= k < |ws| - 1 ensures IsWord(ws[1..][k]) {
      assert ws[1..][k] == ws[k + 1];
    }
  }

  /**
   * Joining fields with single spaces and splitting the result with
   * strings.Fields gives the fields back: the frame "connect wg0" is read as
   * the request ["connect", "wg0"].
   */
  lemma FieldsOfJoin(ws: seq<string>)
    requires AllWords(ws)
    ensures Fields(Join(ws, " ")) == ws
  {
    FieldsFromJoin(Join(ws, " "), 0, ws);
  }

  /** strings.HasPrefix. */
  predicate HasPrefix(s: string, p: string) {
    |p| <= |s| && s[..|p|] == p
  }

  /** `sub` occurs in `s` starting at offset `k`. */
  predicate OccursAt(s: string, sub: string, k: int) {
    0 <= k && k + |sub| <= |s| && s[k..k + |sub|] == sub
  }

  /** strings.Contains: `sub` is a substring of `s`. */
  function Contains(s: string, sub: string): (b: bool)
    ensures b ==> |sub| <= |s|
    ensures HasPrefix(s, sub) ==> b
    decreases |s|
  {
    HasPrefix(s, sub) || (s != [] && Contains(s[1..], sub))
  }

  /** Every occurrence is found by Contains ... */
  lemma {:induction false} ContainsFromOccurrence(s: string, sub: string, k: int)
    requires OccursAt(s, sub, k)
    ensures Contains(s, sub)
    decreases k
  {
    if k == 0 {
      assert HasPrefix(s, sub);
    } else {
      assert s[1..][k - 1..k - 1 + |sub|] == s[k..k + |sub|];
      ContainsFromOccurrence(s[1..], sub, k - 1);
    }
  }

  /** ... and everything Contains finds is an occurrence. */
  lemma {:induction false} OccurrenceFromContains(s: string, sub: string) returns (k: int)
    requires Contains(s, sub)
    ensures OccursAt(s, sub, k)
    decreases |s|
  {
    if HasPrefix(s, sub) {
      k := 0;
    } else {
      var k' := OccurrenceFromContains(s[1..], sub);
      assert s[1..][k'..k' + |sub|] == s[1 + k'..1 + k' + |sub|];
      k := k' + 1;
    }
  }

  /** A string that contains `sub` still does when more is appended to it. */
  lemma ContainsExtended(s: string, more: string, sub: string)
    requires Contains(s, sub)
    ensures Contains(s + more, sub)
  {
    var k := OccurrenceFromContains(s, sub);
    assert (s + more)[k..k + |sub|] == s[k..k + |sub|];
    ContainsFromOccurrence(s + more, sub, k);
  }

  /** ASCII upper case letters to lower case; every other character unchanged. */
  function LowerAscii(c: char): char {
    if 'A' <= c <= 'Z' then (c as int + 32) as char else c
  }

  /** ASCII lower case letters to upper case; every other character unchanged. */
  function UpperAscii(c: char): char {
    if 'a' <= c <= 'z' then (c as int - 32) as char else c
  }

  function Lower(s: string): (r: string)
    ensures |r| == |s|
    ensures forall i :: 0 <= i < |s| ==> r[i] == LowerAscii(s[i])
  {
    seq(|s|, i requires 0 <= i < |s| => LowerAscii(s[i]))
  }

  /** strings.EqualFold, with case folding restricted to ASCII letters. */
  function EqualFold(a: string, b: string): (r: bool)
    ensures a == b ==> r
    ensures r ==> forall i :: 0 <= i < |a| && i < |b| ==> LowerAscii(a[i]) == LowerAscii(b[i])
  {
    Lower(a) == Lower(b)
  }

  /** Case-insensitive equality only holds between strings of the same length. */
  lemma EqualFoldSameLength(a: string, b: string)
    requires EqualFold(a, b)
    ensures |a| == |b|
  {
    assert |Lower(a)| == |Lower(b)|;
  }

  /** cases.Title applied to one word: first character in upper case, the rest in lower case. */
  function TitleWord(w: string): (t: string)
    ensures |t| == |w|
    ensures w != [] ==> t[0] == UpperAscii(w[0])
    ensures forall i :: 1 <= i < |w| ==> t[i] == LowerAscii(w[i])
  {
    if w == [] then [] else [UpperAscii(w[0])] + Lower(w[1..])
  }

  /** strings.Split(s, string(sep)): the pieces of `s` between occurrences of `sep`. */
  function Split(s: string, sep: char): (parts: seq<string>)
    ensures |parts| >= 1
    ensures forall i :: 0 <= i < |parts| ==> sep !in parts[i]
    decreases |s|
  {
    if s == [] then [[]]
    else
      var rest := Split(s[1..], sep);
      if s[0] == sep then [[]] + rest
      else [[s[0]] + rest[0]] + rest[1..]
  }

  /** Joining the pieces of a split with the separator gives back the string. */
  lemma {:induction false} JoinSplit(s: string, sep: char)
    ensures Join(Split(s, sep), [sep]) == s
    decreases |s|
  {
    if s != [] {
      var rest := Split(s[1..], sep);
      JoinSplit(s[1..], sep);
      if s[0] == sep {
        assert Split(s, sep)[1..] == rest;
      } else if |rest| == 1 {
        assert Join(rest, [sep]) == rest[0];
      } else {
        var parts := Split(s, sep);
        assert parts[1..] == rest[1..];
        assert Join(rest, [sep]) == rest[0] + [sep] + Join(rest[1..], [sep]);
      }
    }
  }

  lemma {:induction false} SplitAfterPiece(w: string, sep: char, tail: string)
    requires sep !in w
    ensures Split(w + tail, sep) == [w + Split(tail, sep)[0]] + Split(tail, sep)[1..]
    decreases |w|
  {
    if w != [] {
      assert (w + tail)[1..] == w[1..] + tail;
      SplitAfterPiece(w[1..], sep, tail);
      assert [w[0]] + (w[1..] + Split(tail, sep)[0]) == w + Split(tail, sep)[0];
    } else {
      assert w + tail == tail;
      var parts := Split(tail, sep);
      assert w + parts[0] == parts[0];
      assert parts == [parts[0]] + parts[1..];
    }
  }

  /** Splitting pieces joined with a separator they do not contain gives back the pieces. */
  lemma {:induction false} SplitJoin(parts: seq<string>, sep: char)
    requires |parts| >= 1
    requires forall i :: 0 <= i < |parts| ==> sep !in parts[i]
    ensures Split(Join(parts, [sep]), sep) == parts
  {
    if |parts| == 1 {
      SplitAfterPiece(parts[0], sep, []);
      assert parts[0] + [] == parts[0];
    } else {
      var tail := Join(parts[1..], [sep]);
      assert Join(parts, [sep]) == parts[0] + ([sep] + tail);
      SplitAfterPiece(parts[0], sep, [sep] + tail);
      assert ([sep] + tail)[1..] == tail;
      assert Split([sep] + tail, sep) == [[]] + Split(tail, sep);
      SplitJoin(parts[1..], sep);
      assert parts[0] + [] == parts[0];
      assert parts == [parts[0]] + parts[1..];
    }
  }

  /** Go's `<` on strings: lexicographic order of the UTF-8 bytes, which is the order of the code points. */
  function Less(a: string, b: string): (r: bool)
    ensures r ==> a != b
    ensures HasPrefix(b, a) ==> (r <==> a != b)
    decreases |a|
  {
    if a == [] then b != []
    else if b == [] then false
    else if a[0] != b[0] then a[0] < b[0]
    else Less(a[1..], b[1..])
  }
}
