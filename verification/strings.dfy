/** The string operations of Go's `strings` package and Python's `str` that the
    core relies on, over `seq<char>`: search, prefix tests, first/all
    replacement, splitting on a separator, joining, and decimal rendering. */
module Strings {
  import opened Common

  predicate IsDigit(c: char) { '0' <= c <= '9' }

  predicate AllDigits(s: string) { forall k :: 0 <= k < |s| ==> IsDigit(s[k]) }

  /** `t` occurs in `s` starting at index `i`. */
  predicate OccursAt(s: string, t: string, i: nat) {
    i + |t| <= |s| && s[i..i + |t|] == t
  }

  /** `strings.HasPrefix`, `str.startswith`. */
  predicate HasPrefix(s: string, p: string) {
    |p| <= |s| && s[..|p|] == p
  }

  /** The first occurrence of `t` in `s` at or after index `i`. */
  function IndexFrom(s: string, t: string, i: nat): (r: Option<nat>)
    ensures r.Some? ==> i <= r.value && OccursAt(s, t, r.value)
    ensures r.Some? ==> forall j :: i <= j < r.value ==> !OccursAt(s, t, j)
    ensures r.None? ==> forall j: nat :: i <= j ==> !OccursAt(s, t, j)
    decreases |s| - i
  {
    if i + |t| > |s| then None
    else if OccursAt(s, t, i) then Some(i)
    else IndexFrom(s, t, i + 1)
  }

  /** `strings.Index`: the first occurrence of `t` in `s`. */
  function IndexOf(s: string, t: string): Option<nat> {
    IndexFrom(s, t, 0)
  }

  /** `strings.Contains`, Python's `in`. */
  predicate Contains(s: string, t: string) {
    IndexOf(s, t).Some?
  }

  lemma ContainsIff(s: string, t: string)
    ensures Contains(s, t) <==> exists j :: OccursAt(s, t, j)
  {
    if Contains(s, t) {
      assert OccursAt(s, t, IndexOf(s, t).value);
    }
  }

  /** The last occurrence of `t` in `s` that starts at an index below `k`. */
  function LastIndexBelow(s: string, t: string, k: nat): (r: Option<nat>)
    ensures r.Some? ==> r.value < k && OccursAt(s, t, r.value)
    ensures r.Some? ==> forall j :: r.value < j < k ==> !OccursAt(s, t, j)
    ensures r.None? ==> forall j: nat :: j < k ==> !OccursAt(s, t, j)
  {
    if k == 0 then None
    else if OccursAt(s, t, k - 1) then Some(k - 1)
    else LastIndexBelow(s, t, k - 1)
  }

  /** `strings.LastIndex`. */
  function LastIndexOf(s: string, t: string): Option<nat> {
    LastIndexBelow(s, t, |s| + 1)
  }

  /** `strings.Replace(s, old, new, 1)`: only the first occurrence is replaced
      (with an empty `old`, `new` is inserted at the front, as Go does). */
  function ReplaceFirst(s: string, pat: string, repl: string): (r: string)
    ensures !Contains(s, pat) ==> r == s
  {
    match IndexOf(s, pat)
    case None => s
    case Some(k) => s[..k] + repl + s[k + |pat|..]
  }

  /** A string at the very start of another is the occurrence replaced. */
  lemma LeadingReplaced(t: string, rest: string, repl: string)
    ensures ReplaceFirst(t + rest, t, repl) == repl + rest
  {
    assert (t + rest)[..|t|] == t;
    assert IndexOf(t + rest, t) == Some(0);
    assert (t + rest)[|t|..] == rest;
  }

  /** `strings.ReplaceAll` for a non-empty `old`. */
  function ReplaceAll(s: string, pat: string, repl: string): string
    requires |pat| > 0
    decreases |s|
  {
    match IndexOf(s, pat)
    case None => s
    case Some(k) => s[..k] + repl + ReplaceAll(s[k + |pat|..], pat, repl)
  }

  /** `strings.Split(s, sep)` and Python's `s.split(sep)` for a non-empty
      separator: the pieces between successive leftmost occurrences. */
  function Split(s: string, sep: string): (r: seq<string>)
    requires |sep| > 0
    ensures |r| >= 1
    decreases |s|
  {
    match IndexOf(s, sep)
    case None => [s]
    case Some(k) => [s[..k]] + Split(s[k + |sep|..], sep)
  }

  /** `strings.Join`. */
  function Join(parts: seq<string>, sep: string): string {
    if parts == [] then ""
    else if |parts| == 1 then parts[0]
    else parts[0] + sep + Join(parts[1..], sep)
  }

  /** Splitting and re-joining gives the input back. */
  lemma {:induction false} SplitJoin(s: string, sep: string)
    requires |sep| > 0
    ensures Join(Split(s, sep), sep) == s
    decreases |s|
  {
    var r := IndexOf(s, sep);
    if r.Some? {
      var k := r.value;
      var rest := s[k + |sep|..];
      SplitJoin(rest, sep);
      SplitStep(s, sep, k);
    }
  }

  /** One step of `Split`, with the input reassembled from its parts. */
  lemma SplitStep(s: string, sep: string, k: nat)
    requires |sep| > 0 && IndexOf(s, sep) == Some(k)
    ensures Split(s, sep) == [s[..k]] + Split(s[k + |sep|..], sep)
    ensures Join(Split(s, sep), sep) == s[..k] + sep + Join(Split(s[k + |sep|..], sep), sep)
    ensures s == s[..k] + sep + s[k + |sep|..]
  {
    JoinCons(s[..k], Split(s[k + |sep|..], sep), sep);
    Reassembled(s, sep, k);
  }

  /** Joining a first part onto at least one more. */
  lemma JoinCons(first: string, rest: seq<string>, sep: string)
    requires |rest| >= 1
    ensures Join([first] + rest, sep) == first + sep + Join(rest, sep)
  {
    assert ([first] + rest)[1..] == rest;
  }

  /** A text is its part before an occurrence, the occurrence, and the rest. */
  lemma Reassembled(s: string, t: string, k: nat)
    requires OccursAt(s, t, k)
    ensures s == s[..k] + t + s[k + |t|..]
  {
    assert s[..k] + t == s[..k + |t|];
  }

  /** No piece of a split contains the separator. */
  lemma {:induction false} SplitPiecesFree(s: string, sep: string)
    requires |sep| > 0
    ensures forall k :: 0 <= k < |Split(s, sep)| ==> !Contains(Split(s, sep)[k], sep)
    decreases |s|
  {
    match IndexOf(s, sep)
    case None =>
    case Some(k) =>
      var rest := s[k + |sep|..];
      SplitPiecesFree(rest, sep);
      NoEarlierOccurrence(s, sep, k);
      assert Split(s, sep) == [s[..k]] + Split(rest, sep);
  }

  /** `r` is `s` cut before the first occurrence of `sep`, or all of `s`
      when `sep` does not occur. */
  predicate CutBefore(s: string, sep: string, r: string) {
    && (Contains(s, sep) ==>
         && |r| <= |s| && r == s[..|r|] && OccursAt(s, sep, |r|)
         && forall j :: 0 <= j < |r| ==> !OccursAt(s, sep, j))
    && (!Contains(s, sep) ==> r == s)
  }

  /** `strings.Split(s, sep)[0]` is the text before the first separator. */
  lemma SplitFirstCut(s: string, sep: string)
    requires |sep| > 0
    ensures CutBefore(s, sep, Split(s, sep)[0])
  {
    match IndexOf(s, sep)
    case None =>
    case Some(k) =>
      assert Split(s, sep)[0] == s[..k];
  }

  /** The second piece of a split is the text after the first separator,
      cut before the next one. */
  lemma SplitSecondCut(s: string, sep: string)
    requires |sep| > 0 && Contains(s, sep)
    ensures |Split(s, sep)| >= 2
    ensures CutBefore(s[IndexOf(s, sep).value + |sep|..], sep, Split(s, sep)[1])
  {
    var k := IndexOf(s, sep).value;
    SplitFirstCut(s[k + |sep|..], sep);
  }

  /** The text before the first occurrence of `sep` does not contain it. */
  lemma NoEarlierOccurrence(s: string, sep: string, k: nat)
    requires |sep| > 0 && IndexOf(s, sep) == Some(k)
    ensures !Contains(s[..k], sep)
  {
    if Contains(s[..k], sep) {
      var j := IndexOf(s[..k], sep).value;
      assert OccursAt(s[..k], sep, j);
      assert s[..k][j..j + |sep|] == s[j..j + |sep|];
      assert OccursAt(s, sep, j);
    }
  }

  /** The middle of three joined texts. */
  lemma MiddleSlice(pre: string, mid: string, post: string)
    ensures (pre + mid + post)[|pre|..|pre| + |mid|] == mid
  {
  }

  /** A text is not a prefix where one of its characters differs. */
  lemma NotPrefixAt(s: string, p: string, j: nat)
    requires j < |p| && (j < |s| ==> s[j] != p[j])
    ensures !HasPrefix(s, p)
  {
    if |p| <= |s| {
      assert s[..|p|][j] == s[j];
    }
  }

  /** `strings.TrimPrefix`. */
  function TrimPrefix(s: string, p: string): (r: string)
    ensures HasPrefix(s, p) ==> p + r == s
    ensures !HasPrefix(s, p) ==> r == s
  {
    if HasPrefix(s, p) then s[|p|..] else s
  }

  /** Trimming a prefix that was prepended gives the rest back. */
  lemma TrimmedPrepended(p: string, rest: string)
    ensures TrimPrefix(p + rest, p) == rest
  {
    assert (p + rest)[..|p|] == p;
    assert (p + rest)[|p|..] == rest;
  }

  /** `s` without the run of `c` it starts with. */
  function TrimLeft(s: string, c: char): (r: string)
    ensures |r| <= |s| && r == s[|s| - |r|..]
    ensures r == [] || r[0] != c
    ensures forall k :: 0 <= k < |s| - |r| ==> s[k] == c
  {
    if s != [] && s[0] == c then TrimLeft(s[1..], c) else s
  }

  /** `s` without the run of `c` it ends with. */
  function TrimRight(s: string, c: char): (r: string)
    ensures |r| <= |s| && r == s[..|r|]
    ensures r == [] || r[|r| - 1] != c
    ensures forall k :: |r| <= k < |s| ==> s[k] == c
  {
    if s != [] && s[|s| - 1] == c then TrimRight(s[..|s| - 1], c) else s
  }

  /** `strings.Trim(s, string(c))`: both runs removed. */
  function Trim(s: string, c: char): (r: string)
    ensures r == [] || (r[0] != c && r[|r| - 1] != c)
  {
    TrimRight(TrimLeft(s, c), c)
  }

  /** The text before the first newline: `strings.Split(s, "\n")[0]`. */
  function FirstLine(s: string): (r: string)
    ensures HasPrefix(s, r) && '\n' !in r
    ensures |r| < |s| ==> s[|r|] == '\n'
  {
    var r := Split(s, "\n")[0];
    var k := match IndexOf(s, "\n") case None => |s| case Some(k) => k;
    assert r == s[..k];
    assert forall j :: 0 <= j < k ==> !OccursAt(s, "\n", j);
    forall j | 0 <= j < |r|
      ensures r[j] != '\n'
    {
      assert !OccursAt(s, "\n", j);
      assert s[j..j + 1] == [s[j]];
      assert s[j..j + 1] != "\n";
      assert r[j] == s[j];
    }
    assert k < |s| ==> s[k..k + 1] == "\n";
    r
  }

  /** Splitting yields one piece exactly when the separator is absent, and
      that piece is the whole text. */
  lemma SplitSingle(s: string, sep: string)
    requires |sep| > 0
    ensures |Split(s, sep)| == 1 <==> !Contains(s, sep)
    ensures !Contains(s, sep) ==> Split(s, sep) == [s]
  {
  }

  /** The last piece of a split: `parts[len(parts)-1]`. */
  function LastPart(s: string, sep: string): (r: string)
    requires |sep| > 0
    ensures !Contains(r, sep)
  {
    var parts := Split(s, sep);
    SplitPiecesFree(s, sep);
    parts[|parts| - 1]
  }

  /** The text `fmt.Println` writes for its operands (without the final
      newline): the operands separated by single spaces. A colour operand
      contributes the empty string, its spaces remain. */
  function Println(operands: seq<string>): string {
    Join(operands, " ")
  }

  /** `fmt.Println` of two operands puts one space between them. */
  lemma PrintlnPair(a: string, b: string)
    ensures Println([a, b]) == a + " " + b
  {
    assert [a, b][1..] == [b];
    assert Join([b], " ") == b;
  }

  /** `n` copies of `c`. */
  function Repeat(c: char, n: nat): (r: string)
    ensures |r| == n && forall k :: 0 <= k < n ==> r[k] == c
  {
    if n == 0 then [] else Repeat(c, n - 1) + [c]
  }

  /** Go's `%<w>s`: right-justify in a field of `w` characters. */
  function PadLeft(s: string, w: nat): (r: string)
    ensures |r| == if |s| < w then w else |s|
    ensures r[|r| - |s|..] == s
    ensures forall k :: 0 <= k < |r| - |s| ==> r[k] == ' '
  {
    if |s| < w then Repeat(' ', w - |s|) + s else s
  }

  /** The width `%<w>s` gives `s`: `w`, or the length of a longer `s`. */
  function FieldWidth(s: string, w: nat): nat {
    if |s| < w then w else |s|
  }

  /** `t` holds `s` right-justified, after spaces, in the field of width
      `FieldWidth(s, w)` that starts at `at`. */
  predicate RightAligned(t: string, at: nat, s: string, w: nat) {
    && at + FieldWidth(s, w) <= |t|
    && t[at + FieldWidth(s, w) - |s|..at + FieldWidth(s, w)] == s
    && forall k :: at <= k < at + FieldWidth(s, w) - |s| ==> t[k] == ' '
  }

  /** A padded field between two texts. */
  lemma PaddedBetween(pre: string, s: string, w: nat, post: string)
    ensures var t := pre + PadLeft(s, w) + post;
      && |t| == |pre| + FieldWidth(s, w) + |post| && RightAligned(t, |pre|, s, w)
      && t[..|pre|] == pre && t[|pre| + FieldWidth(s, w)..] == post
  {
    var p := PadLeft(s, w);
    var t := pre + p + post;
    forall k | |pre| <= k < |pre| + |p| - |s|
      ensures t[k] == ' '
    {
      assert t[k] == p[k - |pre|];
    }
    assert t[|pre| + |p| - |s|..|pre| + |p|] == p[|p| - |s|..];
  }

  /** A field stays aligned when text is put in front. */
  lemma AlignedAfter(x: string, u: string, at: nat, s: string, w: nat)
    requires RightAligned(u, at, s, w)
    ensures RightAligned(x + u, |x| + at, s, w)
  {
    var f := FieldWidth(s, w);
    assert (x + u)[|x| + at + f - |s|..|x| + at + f] == u[at + f - |s|..at + f];
    forall k | |x| + at <= k < |x| + at + f - |s|
      ensures (x + u)[k] == ' '
    {
      assert (x + u)[k] == u[k - |x|];
    }
  }

  /** Python's `{s:<w}`: left-justify in a field of `w` characters. */
  function PadRight(s: string, w: nat): (r: string)
    ensures |r| == if |s| < w then w else |s|
    ensures r[..|s|] == s
    ensures forall k :: |s| <= k < |r| ==> r[k] == ' '
  {
    if |s| < w then s + Repeat(' ', w - |s|) else s
  }

  /** Joining the two halves of a list and the separator between them. */
  lemma {:induction false} JoinAt(parts: seq<string>, n: nat, sep: string)
    requires 0 < n < |parts|
    ensures Join(parts, sep) == Join(parts[..n], sep) + sep + Join(parts[n..], sep)
    decreases n
  {
    if n > 1 {
      JoinAt(parts[1..], n - 1, sep);
      assert parts[1..][..n - 1] == parts[..n][1..];
      assert parts[1..][n - 1..] == parts[n..];
    }
  }

  function DigitChar(d: nat): (c: char)
    requires d < 10
    ensures IsDigit(c)
  {
    ['0', '1', '2', '3', '4', '5', '6', '7', '8', '9'][d]
  }

  /** Go's `%d` / Python's `str()` of a non-negative integer. */
  function NatToString(n: nat): (r: string)
    ensures |r| >= 1 && AllDigits(r)
  {
    if n < 10 then [DigitChar(n)] else NatToString(n / 10) + [DigitChar(n % 10)]
  }

  /** `%d` of any integer. */
  function IntToString(i: int): string {
    if i < 0 then "-" + NatToString(-i) else NatToString(i)
  }

  /** The value of a string of decimal digits. */
  function DigitsValue(ds: string): nat
    requires AllDigits(ds)
  {
    if ds == [] then 0 else 10 * DigitsValue(ds[..|ds| - 1]) + (ds[|ds| - 1] as int - '0' as int)
  }

  /** Decimal rendering is undone by reading the digits back. */
  lemma {:induction false} NatToStringValue(n: nat)
    ensures DigitsValue(NatToString(n)) == n
  {
    var r := NatToString(n);
    if n >= 10 {
      NatToStringValue(n / 10);
      assert r[..|r| - 1] == NatToString(n / 10);
    }
  }
}
