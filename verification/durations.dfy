/** `createSortedDurations`: the `jobId=Ns` pairs of a disruption summary
    become their whole-second values, sorted ascending and joined by ", ". */
module Durations {
  import opened Common
  import opened Strings

  /** The value used for a duration that does not parse as a number. */
  const Unparsable := 99999

  predicate Sorted(xs: seq<int>) {
    forall a, b :: 0 <= a < b < |xs| ==> xs[a] <= xs[b]
  }

  /** Inserts `x` into a sorted list. */
  function Insert(x: int, xs: seq<int>): (r: seq<int>)
    requires Sorted(xs)
    ensures Sorted(r) && multiset(r) == multiset(xs) + multiset{x}
  {
    if xs == [] then [x]
    else if x <= xs[0] then [x] + xs
    else
      var rest := Insert(x, xs[1..]);
      InsertBehind(x, xs, rest);
      [xs[0]] + rest
  }

  /** The first element stays in front of the others with `x` inserted
      among them. */
  lemma InsertBehind(x: int, xs: seq<int>, rest: seq<int>)
    requires Sorted(xs) && |xs| > 0 && xs[0] < x
    requires Sorted(rest) && multiset(rest) == multiset(xs[1..]) + multiset{x}
    ensures Sorted([xs[0]] + rest) && multiset([xs[0]] + rest) == multiset(xs) + multiset{x}
  {
    assert xs == [xs[0]] + xs[1..];
    forall k | 0 <= k < |rest|
      ensures xs[0] <= rest[k]
    {
      assert rest[k] in multiset(rest);
      if rest[k] != x {
        assert rest[k] in multiset(xs[1..]);
        var j :| 0 <= j < |xs[1..]| && xs[1..][j] == rest[k];
        assert xs[j + 1] == rest[k];
      }
    }
  }

  /** `sort.Ints`, stated by its contract: the same values, ascending. */
  function SortInts(xs: seq<int>): (r: seq<int>)
    ensures Sorted(r) && multiset(r) == multiset(xs)
  {
    if xs == [] then []
    else
      assert xs == xs[..|xs| - 1] + [xs[|xs| - 1]];
      Insert(xs[|xs| - 1], SortInts(xs[..|xs| - 1]))
  }

  /** Decimal texts of a list of integers. */
  function Texts(xs: seq<int>): (r: seq<string>)
    ensures |r| == |xs| && forall k :: 0 <= k < |xs| ==> r[k] == IntToString(xs[k])
  {
    if xs == [] then [] else Texts(xs[..|xs| - 1]) + [IntToString(xs[|xs| - 1])]
  }

  /** The integers in decimal, separated by ", ". */
  function JoinInts(xs: seq<int>): string {
    Join(Texts(xs), ", ")
  }

  /** Appending to a joined list. */
  lemma {:induction false} JoinSnoc(parts: seq<string>, x: string, sep: string)
    ensures Join(parts + [x], sep) == Join(parts, sep) + (if parts == [] then "" else sep) + x
    decreases |parts|
  {
    if |parts| > 1 {
      assert (parts + [x])[1..] == parts[1..] + [x];
      JoinSnoc(parts[1..], x, sep);
    } else if |parts| == 1 {
      assert (parts + [x])[1..] == [x];
    }
  }

  /** The whole-second value of one `jobId=Ns` pair: the text after the first
      `=` (up to any second one) with every `s` removed, parsed and rounded
      by `round`; `Unparsable` when that fails. `None` when the pair has no
      `=`, where indexing the split pieces would panic. */
  function PairValue(pair: string, round: string -> Option<int>): (r: Option<int>)
    ensures r.None? <==> !Contains(pair, "=")
    ensures Contains(pair, "=") ==>
      && |Split(pair, "=")| >= 2
      && CutBefore(pair[IndexOf(pair, "=").value + 1..], "=", Split(pair, "=")[1])
      && var t := ReplaceAll(Split(pair, "=")[1], "s", "");
         && 's' !in t
         && (round(t).None? ==> r == Some(Unparsable))
         && (round(t).Some? ==> r == round(t))
  {
    var parts := Split(pair, "=");
    SplitSingle(pair, "=");
    PairPieces(pair);
    if |parts| < 2 then None
    else
      match round(ReplaceAll(parts[1], "s", ""))
      case None => Some(Unparsable)
      case Some(v) => Some(v)
  }

  /** The duration text of a pair: the second piece, without any 's'. */
  lemma PairPieces(pair: string)
    ensures Contains(pair, "=") ==>
      && |Split(pair, "=")| >= 2
      && CutBefore(pair[IndexOf(pair, "=").value + 1..], "=", Split(pair, "=")[1])
      && 's' !in ReplaceAll(Split(pair, "=")[1], "s", "")
  {
    if Contains(pair, "=") {
      SplitSecondCut(pair, "=");
      NoneLeft(Split(pair, "=")[1], 's');
    }
  }

  /** Removing every occurrence of a character leaves none of it. */
  lemma {:induction false} NoneLeft(s: string, c: char)
    ensures c !in ReplaceAll(s, [c], "")
    decreases |s|
  {
    match IndexOf(s, [c])
    case None =>
      forall j | 0 <= j < |s|
        ensures s[j] != c
      {
        assert !OccursAt(s, [c], j);
        assert s[j..j + 1] == [s[j]];
      }
    case Some(k) =>
      var rest := s[k + 1..];
      NoneLeft(rest, c);
      forall j | 0 <= j < k
        ensures s[j] != c
      {
        assert !OccursAt(s, [c], j);
        assert s[j..j + 1] == [s[j]];
      }
      assert ReplaceAll(s, [c], "") == s[..k] + ReplaceAll(rest, [c], "");
  }

  /** Every piece has an `=`. */
  predicate AllPaired(pairs: seq<string>) {
    forall k :: 0 <= k < |pairs| ==> Contains(pairs[k], "=")
  }

  /** The values of the pairs, in order; `None` if one of them panics. */
  function Values(pairs: seq<string>, round: string -> Option<int>): (r: Option<seq<int>>)
    ensures r.Some? <==> AllPaired(pairs)
    ensures r.Some? ==> |r.value| == |pairs|
    ensures r.Some? ==> forall k :: 0 <= k < |pairs| ==> Some(r.value[k]) == PairValue(pairs[k], round)
  {
    if pairs == [] then Some([])
    else
      var init := pairs[..|pairs| - 1];
      assert forall k :: 0 <= k < |init| ==> init[k] == pairs[k];
      match Values(init, round)
      case None => None
      case Some(vs) =>
        match PairValue(pairs[|pairs| - 1], round)
        case None => None
        case Some(v) => Some(vs + [v])
  }

  /** What `createSortedDurations(output)` returns: the values of the
      space-separated pairs, sorted; `None` exactly when some pair has no
      `=`, where the code panics. */
  function SortedDurations(output: string, round: string -> Option<int>): (r: Option<string>)
    ensures r.Some? <==> AllPaired(Split(output, " "))
  {
    var pairs := Split(output, " ");
    var vs := Values(pairs, round);
    if vs.Some? then Some(JoinInts(SortInts(vs.value))) else None
  }

  /** The result of `createSortedDurations` is determined by its contract:
      the pairs' values in ascending order, joined by ", ". */
  lemma SortedDurationsJoined(output: string, round: string -> Option<int>, vs: seq<int>, sorted: seq<int>)
    requires Values(Split(output, " "), round) == Some(vs)
    requires Sorted(sorted) && multiset(sorted) == multiset(vs)
    ensures SortedDurations(output, round) == Some(JoinInts(sorted))
  {
    SortedUnique(SortInts(vs), sorted);
  }

  /** Two ascending lists with the same values are equal. */
  lemma {:induction false} SortedUnique(a: seq<int>, b: seq<int>)
    requires Sorted(a) && Sorted(b) && multiset(a) == multiset(b)
    ensures a == b
    decreases |a|
  {
    assert |a| == |b| by {
      assert |a| == |multiset(a)| && |b| == |multiset(b)|;
    }
    if a != [] {
      assert a[0] == b[0] by {
        HeadIsLeast(a, b[0]);
        HeadIsLeast(b, a[0]);
      }
      assert a[1..] == b[1..] by {
        TailValues(a);
        TailValues(b);
        SortedUnique(a[1..], b[1..]);
      }
    }
  }

  /** The head of an ascending list is at most each of its values. */
  lemma HeadIsLeast(a: seq<int>, x: int)
    requires Sorted(a) && x in multiset(a)
    ensures a[0] <= x
  {
    var j :| 0 <= j < |a| && a[j] == x;
  }

  /** The tail of a list keeps all but its head, and its order. */
  lemma TailValues(a: seq<int>)
    requires Sorted(a) && a != []
    ensures Sorted(a[1..]) && multiset(a[1..]) == multiset(a) - multiset{a[0]}
  {
    assert a == [a[0]] + a[1..];
  }

  /** One more pair. */
  lemma ValuesSnoc(pairs: seq<string>, k: nat, round: string -> Option<int>)
    requires k < |pairs|
    ensures Values(pairs[..k + 1], round) ==
      match Values(pairs[..k], round)
      case None => None
      case Some(vs) => (match PairValue(pairs[k], round) case None => None case Some(v) => Some(vs + [v]))
  {
    assert pairs[..k + 1][..k] == pairs[..k];
  }

  /** `createSortedDurations`: collects the values pair by pair, sorts them
      and accumulates the text with a separator that becomes ", " after the
      first value. */
  method CreateSortedDurations(output: string, round: string -> Option<int>) returns (r: Option<string>)
    ensures r == SortedDurations(output, round)
  {
    var pairs := Split(output, " ");
    var list: seq<int> := [];
    var k := 0;
    while k < |pairs|
      invariant 0 <= k <= |pairs|
      invariant Values(pairs[..k], round) == Some(list)
    {
      ValuesSnoc(pairs, k, round);
      var v := PairValue(pairs[k], round);
      if v.None? {
        ValuesPrefix(pairs, k + 1, round);
        return None;
      }
      list := list + [v.value];
      k := k + 1;
    }
    assert pairs[..k] == pairs;
    list := SortInts(list);
    var text := Accumulate(list);
    r := Some(text);
  }

  /** The output accumulation loop of `createSortedDurations`. */
  method Accumulate(list: seq<int>) returns (text: string)
    ensures text == JoinInts(list)
  {
    text := "";
    var sep := "";
    var j := 0;
    while j < |list|
      invariant 0 <= j <= |list|
      invariant text == JoinInts(list[..j])
      invariant sep == if j == 0 then "" else ", "
    {
      assert list[..j + 1] == list[..j] + [list[j]];
      assert Texts(list[..j + 1]) == Texts(list[..j]) + [IntToString(list[j])];
      JoinSnoc(Texts(list[..j]), IntToString(list[j]), ", ");
      text := text + sep + IntToString(list[j]);
      sep := ", ";
      j := j + 1;
    }
    assert list[..j] == list;
  }

  /** A panic on a prefix of the pairs is a panic on all of them. */
  lemma ValuesPrefix(pairs: seq<string>, n: nat, round: string -> Option<int>)
    requires n <= |pairs| && Values(pairs[..n], round).None?
    ensures Values(pairs, round).None?
  {
    assert !AllPaired(pairs[..n]);
    var k :| 0 <= k < n && !Contains(pairs[..n][k], "=");
    assert pairs[k] == pairs[..n][k];
  }
}
