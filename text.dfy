/** The JavaScript string operations the components use: `trim`, ASCII
    `toLowerCase`/`toUpperCase`, `includes`, `indexOf`, `split(" ")` followed by
    taking each part's first character, `slice(0, n)` and `replace("-", " ")`. */
module Text {
  import opened Wrappers

  // ---------------------------------------------------------------- trim

  /** The WhiteSpace and LineTerminator code points that `String.prototype.trim` removes. */
  predicate IsJsWhitespace(c: char) {
    c == '\t' || c == '\n' || c == '\U{B}' || c == '\U{C}' || c == '\r' || c == ' '
    || c == '\U{A0}' || c == '\U{1680}' || ('\U{2000}' <= c <= '\U{200A}')
    || c == '\U{2028}' || c == '\U{2029}' || c == '\U{202F}' || c == '\U{205F}'
    || c == '\U{3000}' || c == '\U{FEFF}'
  }

  predicate AllWhitespace(s: string) {
    forall i | 0 <= i < |s| :: IsJsWhitespace(s[i])
  }

  /** Leading whitespace removed: the result is a suffix of `s`, everything cut off
      is whitespace, and the result does not start with whitespace. */
  function TrimStart(s: string): (r: string)
    ensures |r| <= |s| && r == s[|s| - |r|..]
    ensures AllWhitespace(s[..|s| - |r|])
    ensures r == [] || !IsJsWhitespace(r[0])
  {
    if |s| > 0 && IsJsWhitespace(s[0]) then
      var r := TrimStart(s[1..]);
      assert s[1..][|s| - 1 - |r|..] == s[|s| - |r|..];
      WhitespaceCons(s, |s| - 1 - |r|);
      r
    else s
  }

  /** Trailing whitespace removed, symmetrically to `TrimStart`. */
  function TrimEnd(s: string): (r: string)
    ensures |r| <= |s| && r == s[..|r|]
    ensures AllWhitespace(s[|r|..])
    ensures r == [] || !IsJsWhitespace(r[|r| - 1])
  {
    if |s| > 0 && IsJsWhitespace(s[|s| - 1]) then
      var r := TrimEnd(s[..|s| - 1]);
      assert s[..|s| - 1][..|r|] == s[..|r|];
      WhitespaceSnoc(s, |r|);
      r
    else s
  }

  /** A whitespace character followed by a whitespace run is a whitespace run. */
  lemma WhitespaceCons(s: string, k: nat)
    requires 0 < |s| && k < |s| && IsJsWhitespace(s[0]) && AllWhitespace(s[1..][..k])
    ensures AllWhitespace(s[..k + 1])
  {
    var run := s[..k + 1];
    forall i | 0 < i < |run|
      ensures run[i] == s[1..][..k][i - 1]
    {
    }
  }

  /** A whitespace run followed by a whitespace character is a whitespace run. */
  lemma WhitespaceSnoc(s: string, k: nat)
    requires 0 < |s| && k < |s| && IsJsWhitespace(s[|s| - 1]) && AllWhitespace(s[..|s| - 1][k..])
    ensures AllWhitespace(s[k..])
  {
    var run := s[k..];
    forall i | 0 <= i < |run| - 1
      ensures run[i] == s[..|s| - 1][k..][i]
    {
    }
  }

  /** `s.trim()`. */
  function Trim(s: string): string {
    TrimEnd(TrimStart(s))
  }

  /** `s.trim()` is truthy (non-empty) exactly when `s` has a non-whitespace character. */
  lemma TrimNonEmptyIffContent(s: string)
    ensures Trim(s) != [] <==> exists i | 0 <= i < |s| :: !IsJsWhitespace(s[i])
  {
    var a := TrimStart(s);
    var b := TrimEnd(a);
    if b == [] {
      assert a == [];
      assert s[..|s| - |a|] == s;
    } else {
      assert !IsJsWhitespace(b[0]);
      assert b[0] == a[0] == s[|s| - |a|];
    }
  }

  // ---------------------------------------------------------------- case

  /** `toLowerCase` on one character, ASCII letters only. */
  function LowerChar(c: char): char {
    if 'A' <= c <= 'Z' then (c as int + 32) as char else c
  }

  /** `toUpperCase` on one character, ASCII letters only. */
  function UpperChar(c: char): char {
    if 'a' <= c <= 'z' then (c as int - 32) as char else c
  }

  function Lower(s: string): (r: string)
    ensures |r| == |s| && forall i | 0 <= i < |s| :: r[i] == LowerChar(s[i])
  {
    seq(|s|, i requires 0 <= i < |s| => LowerChar(s[i]))
  }

  function Upper(s: string): (r: string)
    ensures |r| == |s| && forall i | 0 <= i < |s| :: r[i] == UpperChar(s[i])
  {
    seq(|s|, i requires 0 <= i < |s| => UpperChar(s[i]))
  }

  // ---------------------------------------------------------------- search

  /** `needle` occurs in `hay` starting at index `i`. */
  predicate OccursAt(needle: string, hay: string, i: nat) {
    i + |needle| <= |hay| && hay[i..i + |needle|] == needle
  }

  lemma OccursAtShift(needle: string, hay: string, i: nat)
    requires |hay| > 0
    ensures OccursAt(needle, hay, i + 1) <==> OccursAt(needle, hay[1..], i)
  {
    if i + 1 + |needle| <= |hay| {
      assert hay[1..][i..i + |needle|] == hay[i + 1..i + 1 + |needle|];
    }
  }

  lemma OccursAtShiftAll(needle: string, hay: string)
    requires |hay| > 0
    ensures forall j: nat | j >= 1 :: OccursAt(needle, hay, j) <==> OccursAt(needle, hay[1..], j - 1)
  {
    forall j: nat | j >= 1 ensures OccursAt(needle, hay, j) <==> OccursAt(needle, hay[1..], j - 1) {
      OccursAtShift(needle, hay, j - 1);
    }
  }

  /** `hay.indexOf(needle)`, with -1 as `None`: the first index at which `needle` occurs. */
  function IndexOf(hay: string, needle: string): (r: Option<nat>)
    ensures r.Some? ==> OccursAt(needle, hay, r.value)
    ensures r.Some? ==> forall j: nat | j < r.value :: !OccursAt(needle, hay, j)
    ensures r.None? ==> forall j: nat :: !OccursAt(needle, hay, j)
    decreases |hay|
  {
    if |needle| > |hay| then None
    else if hay[..|needle|] == needle then Some(0)
    else
      assert hay[0..|needle|] == hay[..|needle|];
      OccursAtShiftAll(needle, hay);
      match IndexOf(hay[1..], needle)
      case None => None
      case Some(k) => Some(k + 1)
  }

  /** `hay.includes(needle)`. */
  predicate Includes(hay: string, needle: string) {
    IndexOf(hay, needle).Some?
  }

  /** `includes` holds exactly when the needle occurs somewhere; the empty needle occurs everywhere. */
  lemma IncludesIffOccurs(hay: string, needle: string)
    ensures Includes(hay, needle) <==> exists i: nat :: OccursAt(needle, hay, i)
    ensures needle == [] ==> Includes(hay, needle)
  {
    if needle == [] {
      assert OccursAt(needle, hay, 0);
    }
  }

  /** `a.toLowerCase().includes(b.toLowerCase())`, the case-insensitive match every filter uses. */
  predicate ContainsIgnoringCase(text: string, query: string) {
    Includes(Lower(text), Lower(query))
  }

  /** The empty query matches every text. */
  lemma EmptyQueryMatchesAll()
    ensures forall t: string :: ContainsIgnoringCase(t, "")
  {
    forall t: string ensures ContainsIgnoringCase(t, "") {
      IncludesIffOccurs(Lower(t), Lower(""));
    }
  }

  /** Lower-casing commutes with slicing. */
  lemma LowerSlice(s: string, i: nat, j: nat)
    requires i <= j <= |s|
    ensures Lower(s[i..j]) == Lower(s)[i..j]
  {
  }

  // ---------------------------------------------------------------- split / join

  /** `s.split(sep)` with a one-character separator: never empty, and an empty part
      stands for each pair of adjacent separators and for a separator at either end. */
  function Split(s: string, sep: char): (parts: seq<string>)
    ensures |parts| >= 1
  {
    if s == [] then [[]]
    else
      var rest := Split(s[1..], sep);
      if s[0] == sep then [[]] + rest else [[s[0]] + rest[0]] + rest[1..]
  }

  /** `parts.join(sep)`. */
  function Join(parts: seq<string>, sep: char): string
    requires |parts| >= 1
  {
    if |parts| == 1 then parts[0] else parts[0] + [sep] + Join(parts[1..], sep)
  }

  /** Split and join are inverse, and no part contains the separator. */
  lemma {:induction false} JoinSplit(s: string, sep: char)
    ensures Join(Split(s, sep), sep) == s
    ensures forall k | 0 <= k < |Split(s, sep)| :: sep !in Split(s, sep)[k]
  {
    if s != [] {
      JoinSplit(s[1..], sep);
      var rest := Split(s[1..], sep);
      if s[0] != sep {
        var parts := Split(s, sep);
        if |rest| == 1 {
          assert parts == [[s[0]] + rest[0]];
        } else {
          assert parts[1..] == rest[1..];
          assert Join(rest, sep) == rest[0] + [sep] + Join(rest[1..], sep);
        }
      } else {
        assert Split(s, sep)[1..] == rest;
      }
    }
  }

  /** `parts.map(n => n[0]).join("")`: an empty part's `n[0]` is `undefined`,
      which `join` writes as nothing. */
  function FirstChars(parts: seq<string>): string {
    if parts == [] then []
    else (if parts[0] == [] then [] else [parts[0][0]]) + FirstChars(parts[1..])
  }

  /** `s.split(" ").map(n => n[0]).join("")`. */
  function FirstLetters(s: string): string {
    FirstChars(Split(s, ' '))
  }

  /** Reference definition: the characters of `s` that are not a space and either
      open the string (when `atStart`) or follow a space, in order. */
  function WordStartsAfter(s: string, afterSpace: bool): string {
    if s == [] then []
    else (if s[0] != ' ' && afterSpace then [s[0]] else []) + WordStartsAfter(s[1..], s[0] == ' ')
  }

  function WordStarts(s: string): string {
    WordStartsAfter(s, true)
  }

  /** A character of `WordStarts(s)` is never a space, and there are no more of them than characters. */
  lemma {:induction false} WordStartsShape(s: string, afterSpace: bool)
    ensures |WordStartsAfter(s, afterSpace)| <= |s|
    ensures ' ' !in WordStartsAfter(s, afterSpace)
  {
    if s != [] {
      WordStartsShape(s[1..], s[0] == ' ');
    }
  }

  /** Word starts of a concatenation: the second half is read as following
      whatever the first half ends with. */
  lemma {:induction false} WordStartsAppend(a: string, b: string, afterSpace: bool)
    ensures WordStartsAfter(a + b, afterSpace)
         == WordStartsAfter(a, afterSpace) + WordStartsAfter(b, if a == [] then afterSpace else a[|a| - 1] == ' ')
  {
    if a != [] {
      var head := if a[0] != ' ' && afterSpace then [a[0]] else [];
      assert (a + b)[0] == a[0] && (a + b)[1..] == a[1..] + b;
      assert WordStartsAfter(a + b, afterSpace) == head + WordStartsAfter(a[1..] + b, a[0] == ' ');
      assert WordStartsAfter(a, afterSpace) == head + WordStartsAfter(a[1..], a[0] == ' ');
      WordStartsAppend(a[1..], b, a[0] == ' ');
      assert (if a[1..] == [] then a[0] == ' ' else a[1..][|a[1..]| - 1] == ' ') == (a[|a| - 1] == ' ');
    } else {
      assert a + b == b;
    }
  }

  /** Empty parts contribute nothing: a leading space and a doubled space change no word start. */
  lemma EmptyPartsIgnored(a: string, b: string)
    ensures WordStarts(" " + b) == WordStarts(b)
    ensures WordStarts(a + "  " + b) == WordStarts(a + " " + b)
  {
    assert (" " + b)[1..] == b;
    assert a + "  " + b == a + (" " + (" " + b));
    assert a + " " + b == a + (" " + b);
    WordStartsAppend(a, " " + (" " + b), true);
    WordStartsAppend(a, " " + b, true);
    assert (" " + (" " + b))[1..] == " " + b;
  }

  lemma {:induction false} FirstCharsSplit(s: string)
    ensures FirstChars(Split(s, ' ')) == WordStartsAfter(s, true)
    ensures FirstChars(Split(s, ' ')[1..]) == WordStartsAfter(s, false)
  {
    if s != [] {
      FirstCharsSplit(s[1..]);
      var rest := Split(s[1..], ' ');
      if s[0] == ' ' {
        assert Split(s, ' ') == [[]] + rest;
        assert Split(s, ' ')[1..] == rest;
      } else {
        var parts := Split(s, ' ');
        assert parts[0] == [s[0]] + rest[0] && parts[1..] == rest[1..];
        assert FirstChars(parts) == [s[0]] + FirstChars(parts[1..]);
      }
    }
  }

  /** The first-letter chain keeps exactly the word-start characters: the first
      character of each space-separated part, empty parts contributing nothing. */
  lemma FirstLettersAreWordStarts(s: string)
    ensures FirstLetters(s) == WordStarts(s)
    ensures |FirstLetters(s)| <= |s| && ' ' !in FirstLetters(s)
  {
    FirstCharsSplit(s);
    WordStartsShape(s, true);
  }

  // ---------------------------------------------------------------- slice / replace

  /** `s.slice(0, n)`. */
  function Take(s: string, n: nat): (r: string)
    ensures |r| == if |s| < n then |s| else n
    ensures r == s[..|r|]
  {
    if |s| <= n then s else s[..n]
  }

  /** `s.replace(from, to)` with a one-character pattern: only the first occurrence changes. */
  function ReplaceFirst(s: string, from: char, to: char): (r: string)
    ensures |r| == |s|
    ensures from !in s ==> r == s
    ensures from in s ==> exists i | 0 <= i < |s| ::
              s[i] == from && from !in s[..i] && r == s[..i] + [to] + s[i + 1..]
  {
    match IndexOf(s, [from])
    case None =>
      NotOccursBefore(s, from, |s|);
      s
    case Some(i) =>
      NotOccursBefore(s, from, i);
      assert s[i..i + 1] == [from];
      s[..i] + [to] + s[i + 1..]
  }

  lemma NotOccursBefore(s: string, c: char, n: nat)
    requires n <= |s|
    requires forall j: nat | j < n :: !OccursAt([c], s, j)
    ensures c !in s[..n]
  {
    if c in s[..n] {
      var j :| 0 <= j < n && s[j] == c;
      assert s[j..j + 1] == [c];
      assert OccursAt([c], s, j);
    }
  }
}
