/** The regular expressions of the core, as data, and one matcher for all of
    them.

    Go's `regexp` (RE2) and Python's `re` both report the leftmost match and,
    among the matches that start there, the one a backtracking matcher finds
    first ("leftmost-first"). `MatchAt` is that backtracking matcher for the
    constructs the core's patterns use: literal text, a single character of a
    class, a greedy or lazy repetition of a class (`.*`, `\d+`, `[^<]+`,
    `.*?`), an alternation of literal words (`(failure|success)`), the
    anchors `^` and `$`, and capture-group boundaries. */
module Regex {
  import opened Common
  import opened Strings

  /** The character classes the patterns use. */
  datatype Class =
    | NotNewline   // `.`
    | Digit        // `\d`, `[0-9]` (ASCII digits)
    | DigitOrDot   // `[0-9\.]`
    | LowerOrDash  // `[a-z-]`
    | NotLess      // `[^<]`

  predicate InClass(c: Class, ch: char) {
    match c
    case NotNewline => ch != '\n'
    case Digit => IsDigit(ch)
    case DigitOrDot => IsDigit(ch) || ch == '.'
    case LowerOrDash => ('a' <= ch <= 'z') || ch == '-'
    case NotLess => ch != '<'
  }

  /** One element of a pattern. `Rep(c, min, greedy, capture)` is `c*` (min 0)
      or `c+` (min 1), greedy or lazy, optionally a capture group of its own;
      `Alt` tries its words in order; a `Mark` opens or closes a capture group
      that spans several elements. */
  datatype Elem =
    | Lit(text: string)
    | One(cls: Class)
    | Rep(cls: Class, min: nat, greedy: bool, capture: bool)
    | Alt(words: seq<string>, capture: bool)
    | Mark
    | Start
    | End

  /** A pattern: its elements in order. */
  datatype Pattern = Nil | Cons(head: Elem, tail: Pattern)

  /** Number of group-boundary positions an element records. */
  function MarksOf(e: Elem): nat {
    match e
    case Rep(_, _, _, cap) => if cap then 2 else 0
    case Alt(_, cap) => if cap then 2 else 0
    case Mark => 1
    case _ => 0
  }

  function MarkCount(p: Pattern): nat {
    if p.Nil? then 0 else MarksOf(p.head) + MarkCount(p.tail)
  }

  /** Group-boundary positions lie between `lo` and `hi`, in order. */
  predicate Ordered(ms: seq<nat>, lo: nat, hi: nat) {
    && (forall k :: 0 <= k < |ms| ==> lo <= ms[k] <= hi)
    && (forall a, b :: 0 <= a < b < |ms| ==> ms[a] <= ms[b])
  }

  /** Where a match attempt ended and the group boundaries it recorded. */
  datatype Step = Step(end: nat, marks: seq<nat>)

  predicate ValidStep(p: Pattern, s: string, i: nat, st: Step) {
    i <= st.end <= |s| && |st.marks| == MarkCount(p) && Ordered(st.marks, i, st.end)
  }

  /** Every character of every literal element of `p` occurs in `s`: a
      necessary condition for any match. */
  predicate LitCharsIn(p: Pattern, s: string) {
    p.Cons? ==> (p.head.Lit? ==> forall x :: x in p.head.text ==> x in s) && LitCharsIn(p.tail, s)
  }

  /** The end of the longest run of `c` characters starting at `i`. */
  function RunEnd(c: Class, s: string, i: nat): (j: nat)
    requires i <= |s|
    ensures i <= j <= |s|
    ensures forall k :: i <= k < j ==> InClass(c, s[k])
    ensures j < |s| ==> !InClass(c, s[j])
    decreases |s| - i
  {
    if i < |s| && InClass(c, s[i]) then RunEnd(c, s, i + 1) else i
  }

  /** Puts group boundaries `ms` in front of a step's. */
  function Record(ms: seq<nat>, r: Option<Step>): Option<Step> {
    match r
    case None => None
    case Some(st) => Some(Step(st.end, ms + st.marks))
  }

  /** The backtracking matcher: the first way, in backtracking order, that `p`
      matches `s` starting exactly at `i`. */
  function MatchAt(p: Pattern, s: string, i: nat): (r: Option<Step>)
    requires i <= |s|
    ensures r.Some? ==> ValidStep(p, s, i, r.value) && LitCharsIn(p, s)
    decreases p, 2, 0
  {
    if p.Nil? then Some(Step(i, []))
    else
      match p.head
      case Lit(t) =>
        if OccursAt(s, t, i) then
          OccursChars(s, t, i);
          Pass(p, s, i, MatchAt(p.tail, s, i + |t|))
        else None
      case One(c) =>
        if i < |s| && InClass(c, s[i]) then Pass(p, s, i, MatchAt(p.tail, s, i + 1)) else None
      case Rep(c, min, greedy, cap) =>
        var hi := RunEnd(c, s, i);
        if hi < i + min then None else TryRep(p, s, i, i + min, hi, 0)
      case Alt(words, cap) => TryAlt(p, s, i, 0)
      case Mark => Recorded(p, s, i, [i], MatchAt(p.tail, s, i))
      case Start => if i == 0 then Pass(p, s, i, MatchAt(p.tail, s, i)) else None
      case End => if i == |s| then Pass(p, s, i, MatchAt(p.tail, s, i)) else None
  }

  /** The characters of a literal found in `s` occur in `s`. */
  lemma OccursChars(s: string, t: string, i: nat)
    requires OccursAt(s, t, i)
    ensures forall x :: x in t ==> x in s
  {
    forall x | x in t
      ensures x in s
    {
      var k :| 0 <= k < |t| && t[k] == x;
      assert s[i + k] == x;
    }
  }

  /** Passes on the rest's step for an element that records nothing. */
  function Pass(p: Pattern, s: string, i: nat, r: Option<Step>): (r': Option<Step>)
    requires p.Cons? && MarksOf(p.head) == 0
    requires p.head.Lit? ==> forall x :: x in p.head.text ==> x in s
    requires r.Some? ==> LitCharsIn(p.tail, s)
    requires r.Some? ==> exists j :: i <= j <= |s| && ValidStep(p.tail, s, j, r.value)
    ensures r'.Some? ==> ValidStep(p, s, i, r'.value) && LitCharsIn(p, s)
    ensures r' == r
  {
    if r.Some? then r else r
  }

  /** Records the group boundaries `ms`, all between `i` and where the rest
      started, in front of the rest's step. */
  function Recorded(p: Pattern, s: string, i: nat, ms: seq<nat>, r: Option<Step>): (r': Option<Step>)
    requires p.Cons? && !p.head.Lit? && |ms| == MarksOf(p.head)
    requires r.Some? ==> LitCharsIn(p.tail, s)
    requires r.Some? ==>
      exists j :: i <= j <= |s| && ValidStep(p.tail, s, j, r.value) && Ordered(ms, i, j)
    ensures r'.Some? ==> ValidStep(p, s, i, r'.value) && LitCharsIn(p, s)
    ensures r' == Record(ms, r)
  {
    if r.Some? then Record(ms, r) else None
  }

  /** Tries the candidate ends of a repetition in backtracking order: longest
      first when greedy, shortest first when lazy. */
  function TryRep(p: Pattern, s: string, i: nat, lo: nat, hi: nat, n: nat): (r: Option<Step>)
    requires p.Cons? && p.head.Rep? && i <= lo <= hi <= |s|
    ensures r.Some? ==> ValidStep(p, s, i, r.value) && LitCharsIn(p, s)
    decreases p, 1, hi - lo + 1 - n
  {
    if n > hi - lo then None
    else
      var j := if p.head.greedy then hi - n else lo + n;
      var rest := MatchAt(p.tail, s, j);
      if rest.Some? then Recorded(p, s, i, if p.head.capture then [i, j] else [], rest)
      else TryRep(p, s, i, lo, hi, n + 1)
  }

  /** Tries the words of an alternation in order. */
  function TryAlt(p: Pattern, s: string, i: nat, k: nat): (r: Option<Step>)
    requires p.Cons? && p.head.Alt? && i <= |s|
    ensures r.Some? ==> ValidStep(p, s, i, r.value) && LitCharsIn(p, s)
    decreases p, 1, |p.head.words| - k
  {
    if k >= |p.head.words| then None
    else
      var w := p.head.words[k];
      var rest := if OccursAt(s, w, i) then MatchAt(p.tail, s, i + |w|) else None;
      if rest.Some? then Recorded(p, s, i, if p.head.capture then [i, i + |w|] else [], rest)
      else TryAlt(p, s, i, k + 1)
  }

  /** A match: where it starts and ends, and its group boundaries. */
  datatype Match = Match(start: nat, end: nat, marks: seq<nat>)

  /** The leftmost match starting at or after `i`. */
  function SearchFrom(p: Pattern, s: string, i: nat): (r: Option<Match>)
    requires i <= |s| + 1
    ensures r.Some? ==> i <= r.value.start <= |s|
    ensures r.Some? ==> MatchAt(p, s, r.value.start) == Some(Step(r.value.end, r.value.marks))
    ensures r.Some? ==> forall j :: i <= j < r.value.start ==> MatchAt(p, s, j).None?
    ensures r.None? ==> forall j :: i <= j <= |s| ==> MatchAt(p, s, j).None?
    decreases |s| + 1 - i
  {
    if i > |s| then None
    else
      match MatchAt(p, s, i)
      case Some(st) => Some(Match(i, st.end, st.marks))
      case None => SearchFrom(p, s, i + 1)
  }

  /** The leftmost match of `p` in `s`. */
  function Search(p: Pattern, s: string): Option<Match> {
    SearchFrom(p, s, 0)
  }

  /** `regexp.MatchString`. */
  predicate Matches(p: Pattern, s: string) {
    Search(p, s).Some?
  }

  /** The texts of the groups whose boundaries are `ms`, two per group. */
  function Groups(s: string, ms: seq<nat>): (g: seq<string>)
    requires Ordered(ms, 0, |s|)
    ensures |g| == |ms| / 2
    ensures forall k :: 0 <= k < |g| ==> g[k] == s[ms[2 * k]..ms[2 * k + 1]]
  {
    if |ms| < 2 then [] else [s[ms[0]..ms[1]]] + Groups(s, ms[2..])
  }

  /** `FindStringSubmatch`: empty when there is no match, otherwise the whole
      match followed by the text of every group. */
  function FindSubmatch(p: Pattern, s: string): (m: seq<string>)
    ensures Search(p, s).None? <==> m == []
    ensures m != [] ==> |m| == 1 + MarkCount(p) / 2
  {
    match Search(p, s)
    case None => []
    case Some(mt) =>
      var st := Step(mt.end, mt.marks);
      assert ValidStep(p, s, mt.start, st);
      [s[mt.start..mt.end]] + Groups(s, mt.marks)
  }

  /** Group `k` of a submatch list (the whole match is group 0), or "" when
      there is no such group, as for a group that did not take part. */
  function GroupOf(m: seq<string>, k: nat): string {
    if k < |m| then m[k] else ""
  }

  /** `ReplaceAllString(s, repl)` for a replacement without `$` references:
      every leftmost match, scanning on after each, is replaced. After an
      empty match the scan advances by one character and an empty match
      right after the previous one is not replaced, as in Go. */
  function ReplaceAllFrom(p: Pattern, s: string, repl: string, searchPos: nat, lastEnd: nat): string
    requires lastEnd <= searchPos && lastEnd <= |s|
    decreases |s| + 1 - searchPos
  {
    if searchPos > |s| then s[lastEnd..]
    else
      match SearchFrom(p, s, searchPos)
      case None => s[lastEnd..]
      case Some(m) =>
        assert ValidStep(p, s, m.start, Step(m.end, m.marks));
        s[lastEnd..m.start]
        + (if m.end > lastEnd || m.start == 0 then repl else "")
        + ReplaceAllFrom(p, s, repl, if m.end > searchPos then m.end else searchPos + 1, m.end)
  }

  function ReplaceAllString(p: Pattern, s: string, repl: string): string {
    ReplaceAllFrom(p, s, repl, 0, 0)
  }

  /** `x` is a character of some literal element of `p`. */
  predicate HasLitChar(p: Pattern, x: char) {
    p.Cons? && ((p.head.Lit? && x in p.head.text) || HasLitChar(p.tail, x))
  }

  lemma {:induction false} LitCharFound(p: Pattern, s: string, x: char)
    requires LitCharsIn(p, s) && HasLitChar(p, x)
    ensures x in s
  {
    if !(p.head.Lit? && x in p.head.text) {
      LitCharFound(p.tail, s, x);
    }
  }

  /** A pattern with a literal character the text lacks matches nowhere. */
  lemma MissingChar(p: Pattern, s: string, x: char)
    requires HasLitChar(p, x) && x !in s
    ensures Search(p, s).None? && FindSubmatch(p, s) == []
  {
    if Search(p, s).Some? {
      var mt := Search(p, s).value;
      LitCharFound(p, s, x);
    }
  }

  /** Matching a literal that is present moves past it. */
  lemma LitStep(p: Pattern, s: string, i: nat)
    requires p.Cons? && p.head.Lit? && OccursAt(s, p.head.text, i)
    ensures MatchAt(p, s, i) == MatchAt(p.tail, s, i + |p.head.text|)
  {
  }

  /** `RunEnd` stops exactly after a run of class characters that is not
      followed by another. */
  lemma {:induction false} RunEndAt(c: Class, s: string, i: nat, d: string)
    requires OccursAt(s, d, i) && forall k :: 0 <= k < |d| ==> InClass(c, d[k])
    requires i + |d| < |s| ==> !InClass(c, s[i + |d|])
    ensures RunEnd(c, s, i) == i + |d|
    decreases |d|
  {
    if |d| > 0 {
      assert s[i] == d[0];
      assert OccursAt(s, d[1..], i + 1) by {
        assert s[i + 1..i + 1 + |d[1..]|] == s[i..i + |d|][1..];
      }
      RunEndAt(c, s, i + 1, d[1..]);
    }
  }

  /** A greedy repetition takes the whole run first: when the rest of the
      pattern matches after the run, that is the match. */
  lemma GreedyRun(p: Pattern, s: string, i: nat, d: string)
    requires p.Cons? && p.head.Rep? && p.head.greedy && |d| >= p.head.min
    requires OccursAt(s, d, i) && forall k :: 0 <= k < |d| ==> InClass(p.head.cls, d[k])
    requires i + |d| < |s| ==> !InClass(p.head.cls, s[i + |d|])
    requires MatchAt(p.tail, s, i + |d|).Some?
    ensures MatchAt(p, s, i) == Record(if p.head.capture then [i, i + |d|] else [], MatchAt(p.tail, s, i + |d|))
  {
    RunEndAt(p.head.cls, s, i, d);
  }

  /** The concatenation of `segs[k..]`. */
  function ConcatFrom(segs: seq<string>, k: nat): string
    decreases |segs| - k
  {
    if k >= |segs| then "" else segs[k] + ConcatFrom(segs, k + 1)
  }

  /** Element `e` takes exactly the text `g` when `next` follows it. */
  predicate ElemFits(e: Elem, g: string, next: string) {
    match e
    case Lit(t) => g == t
    case One(c) => |g| == 1 && InClass(c, g[0])
    case Rep(c, min, greedy, cap) =>
      && greedy && |g| >= min
      && (forall k :: 0 <= k < |g| ==> InClass(c, g[k]))
      && (next != [] ==> !InClass(c, next[0]))
    case Mark => g == ""
    case _ => false
  }

  /** A greedy repetition takes exactly `g` although its class goes on into
      `next`: the literal after it occurs at no later position, so every
      longer try fails. */
  predicate BacksOff(p: Pattern, g: string, next: string) {
    && p.Cons? && p.head.Rep? && p.head.greedy && |g| >= p.head.min
    && (forall k :: 0 <= k < |g| ==> InClass(p.head.cls, g[k]))
    && p.tail.Cons? && p.tail.head.Lit?
    && forall j: nat :: |g| < j <= |g + next| ==> !OccursAt(g + next, p.tail.head.text, j)
  }

  /** The elements of `p` take the segments `segs[k..]` one by one, and
      `after` follows the last. */
  predicate Fits(p: Pattern, segs: seq<string>, k: nat, after: string)
    decreases p
  {
    if p.Nil? then k == |segs|
    else
      && k < |segs|
      && (ElemFits(p.head, segs[k], ConcatFrom(segs, k + 1) + after) || BacksOff(p, segs[k], ConcatFrom(segs, k + 1) + after))
      && Fits(p.tail, segs, k + 1, after)
  }

  /** The group boundaries of a fitting match that starts at `i`. */
  function FitMarks(p: Pattern, segs: seq<string>, k: nat, i: nat): seq<nat>
    decreases p
  {
    if p.Nil? || k >= |segs| then []
    else
      var j := i + |segs[k]|;
      HeadMarks(p.head, i, j) + FitMarks(p.tail, segs, k + 1, j)
  }

  /** The group boundaries an element that takes `i..j` records. */
  function HeadMarks(e: Elem, i: nat, j: nat): seq<nat> {
    if MarksOf(e) == 2 then [i, j] else if e.Mark? then [i] else []
  }

  /** `p` has no group boundary of its own: every group is a single
      repetition. */
  predicate MarkFree(p: Pattern) {
    p.Cons? ==> !p.head.Mark? && MarkFree(p.tail)
  }

  /** The texts of the capture groups of a fitting match, when every group is
      a single repetition. */
  function FitCaptures(p: Pattern, segs: seq<string>, k: nat): seq<string>
    decreases p
  {
    if p.Nil? || k >= |segs| then []
    else (if MarksOf(p.head) == 2 then [segs[k]] else []) + FitCaptures(p.tail, segs, k + 1)
  }

  /** Moving past one segment. */
  lemma SegmentStep(s: string, i: nat, segs: seq<string>, k: nat, after: string)
    requires i <= |s| && k < |segs| && s[i..] == ConcatFrom(segs, k) + after
    ensures OccursAt(s, segs[k], i)
    ensures s[i + |segs[k]|..] == ConcatFrom(segs, k + 1) + after
  {
    var g := segs[k];
    assert s[i..] == g + (ConcatFrom(segs, k + 1) + after);
    assert s[i..][..|g|] == g;
    assert s[i..i + |g|] == s[i..][..|g|];
    assert s[i + |g|..] == s[i..][|g|..];
  }

  /** The head of `p` is met by the text `g` at `i`, `next` follows, and the
      rest of `p` matches there with the step `Step(e, ms)`. */
  predicate RestMatched(p: Pattern, g: string, next: string, s: string, i: nat, e: nat, ms: seq<nat>) {
    && p.Cons?
    && OccursAt(s, g, i) && s[i + |g|..] == next
    && MatchAt(p.tail, s, i + |g|) == Some(Step(e, ms))
  }

  /** A literal head that fits is passed over. */
  lemma FitsLit(p: Pattern, g: string, next: string, s: string, i: nat, e: nat, ms: seq<nat>)
    requires RestMatched(p, g, next, s, i, e, ms) && p.head.Lit? && g == p.head.text
    ensures MatchAt(p, s, i) == Some(Step(e, HeadMarks(p.head, i, i + |g|) + ms))
  {
    LitStep(p, s, i);
    assert [] + ms == ms;
  }

  /** A single-character head that fits is passed over. */
  lemma FitsOne(p: Pattern, g: string, next: string, s: string, i: nat, e: nat, ms: seq<nat>)
    requires RestMatched(p, g, next, s, i, e, ms) && p.head.One?
    requires |g| == 1 && InClass(p.head.cls, g[0])
    ensures MatchAt(p, s, i) == Some(Step(e, HeadMarks(p.head, i, i + |g|) + ms))
  {
    assert s[i] == g[0];
    assert [] + ms == ms;
  }

  /** A greedy repetition head that fits takes its whole segment. */
  lemma FitsRep(p: Pattern, g: string, next: string, s: string, i: nat, e: nat, ms: seq<nat>)
    requires RestMatched(p, g, next, s, i, e, ms) && p.head.Rep? && ElemFits(p.head, g, next)
    ensures MatchAt(p, s, i) == Some(Step(e, HeadMarks(p.head, i, i + |g|) + ms))
  {
    var j := i + |g|;
    if j < |s| {
      assert s[j] == s[j..][0];
    }
    GreedyRun(p, s, i, g);
  }

  /** A group boundary takes no text and records where it is. */
  lemma FitsMark(p: Pattern, g: string, next: string, s: string, i: nat, e: nat, ms: seq<nat>)
    requires RestMatched(p, g, next, s, i, e, ms) && p.head.Mark? && g == ""
    ensures MatchAt(p, s, i) == Some(Step(e, HeadMarks(p.head, i, i + |g|) + ms))
  {
  }

  /** A greedy repetition that backs off to its segment, the literal after it
      occurring nowhere further on. */
  lemma FitsBack(p: Pattern, g: string, next: string, s: string, i: nat, e: nat, ms: seq<nat>)
    requires RestMatched(p, g, next, s, i, e, ms) && BacksOff(p, g, next)
    ensures MatchAt(p, s, i) == Some(Step(e, HeadMarks(p.head, i, i + |g|) + ms))
  {
    assert s[i..] == g + next by {
      assert s[i..] == s[i..i + |g|] + s[i + |g|..];
    }
    BackedOffRest(p, g, next, s, i);
    GreedyBackoff(p, s, i, i + |g|);
  }

  /** `q` matches at no position after `t`. */
  predicate FailsBeyond(q: Pattern, s: string, t: nat) {
    forall j :: t < j <= |s| ==> MatchAt(q, s, j) == None
  }

  /** Where a repetition backs off, the rest fails at every longer end and
      the run reaches the segment's end. */
  lemma BackedOffRest(p: Pattern, g: string, next: string, s: string, i: nat)
    requires BacksOff(p, g, next) && i <= |s| && s[i..] == g + next
    ensures i + |g| <= RunEnd(p.head.cls, s, i)
    ensures FailsBeyond(p.tail, s, i + |g|)
  {
    var t := i + |g|;
    var lit := p.tail.head.text;
    assert OccursAt(s, g, i) by {
      assert s[i..t] == s[i..][..|g|];
    }
    RunEndAtLeast(p.head.cls, s, i, g);
    forall j | t < j <= |s|
      ensures MatchAt(p.tail, s, j) == None
    {
      ShiftedOccurrence(s, i, lit, j);
    }
  }

  /** An occurrence in `s` at `j` is one in `s[i..]` at `j - i`. */
  lemma ShiftedOccurrence(s: string, i: nat, t: string, j: nat)
    requires i <= j <= |s|
    ensures OccursAt(s, t, j) <==> OccursAt(s[i..], t, j - i)
  {
    if j + |t| <= |s| {
      assert s[i..][j - i..j - i + |t|] == s[j..j + |t|];
    }
  }

  /** A run of class characters reaches at least past `d`. */
  lemma {:induction false} RunEndAtLeast(c: Class, s: string, i: nat, d: string)
    requires OccursAt(s, d, i) && forall k :: 0 <= k < |d| ==> InClass(c, d[k])
    ensures RunEnd(c, s, i) >= i + |d|
    decreases |d|
  {
    if |d| > 0 {
      assert s[i] == d[0];
      assert OccursAt(s, d[1..], i + 1) by {
        assert s[i + 1..i + 1 + |d[1..]|] == s[i..i + |d|][1..];
      }
      RunEndAtLeast(c, s, i + 1, d[1..]);
    }
  }

  /** A greedy repetition whose rest fails at every longer end takes the end
      `t`. */
  lemma GreedyBackoff(p: Pattern, s: string, i: nat, t: nat)
    requires p.Cons? && p.head.Rep? && p.head.greedy && i <= |s|
    requires i + p.head.min <= t <= RunEnd(p.head.cls, s, i)
    requires forall j :: t < j <= |s| ==> MatchAt(p.tail, s, j) == None
    requires MatchAt(p.tail, s, t).Some?
    ensures MatchAt(p, s, i) == Record(if p.head.capture then [i, t] else [], MatchAt(p.tail, s, t))
  {
    var hi := RunEnd(p.head.cls, s, i);
    BackoffFrom(p, s, i, i + p.head.min, hi, 0, t);
  }

  lemma {:induction false} BackoffFrom(p: Pattern, s: string, i: nat, lo: nat, hi: nat, n: nat, t: nat)
    requires p.Cons? && p.head.Rep? && p.head.greedy && i <= lo <= t <= hi <= |s| && n <= hi - t
    requires forall j :: t < j <= |s| ==> MatchAt(p.tail, s, j) == None
    requires MatchAt(p.tail, s, t).Some?
    ensures TryRep(p, s, i, lo, hi, n) == Record(if p.head.capture then [i, t] else [], MatchAt(p.tail, s, t))
    decreases hi - t - n
  {
    if n < hi - t {
      BackoffFrom(p, s, i, lo, hi, n + 1, t);
    }
  }

  /** A pattern whose elements fit the segments matches them, first try. */
  lemma {:induction false} FitsMatch(p: Pattern, segs: seq<string>, k: nat, after: string, s: string, i: nat)
    requires Fits(p, segs, k, after) && i <= |s| && s[i..] == ConcatFrom(segs, k) + after
    ensures MatchAt(p, s, i) == Some(Step(i + |ConcatFrom(segs, k)|, FitMarks(p, segs, k, i)))
    decreases p
  {
    if p.Cons? {
      SegmentStep(s, i, segs, k, after);
      FitsMatch(p.tail, segs, k + 1, after, s, i + |segs[k]|);
      var g := segs[k];
      var next := ConcatFrom(segs, k + 1) + after;
      var j := i + |g|;
      var e := j + |ConcatFrom(segs, k + 1)|;
      var ms := FitMarks(p.tail, segs, k + 1, j);
      assert RestMatched(p, g, next, s, i, e, ms);
      FitsHead(p, g, next, s, i, e, ms);
      FitStep(p, segs, k, i);
    }
  }

  /** A head element that fits its segment is passed over, whatever its kind. */
  lemma FitsHead(p: Pattern, g: string, next: string, s: string, i: nat, e: nat, ms: seq<nat>)
    requires RestMatched(p, g, next, s, i, e, ms) && (ElemFits(p.head, g, next) || BacksOff(p, g, next))
    ensures MatchAt(p, s, i) == Some(Step(e, HeadMarks(p.head, i, i + |g|) + ms))
  {
    if BacksOff(p, g, next) {
      FitsBack(p, g, next, s, i, e, ms);
    } else {
      match p.head
      case Lit(_) => FitsLit(p, g, next, s, i, e, ms);
      case One(_) => FitsOne(p, g, next, s, i, e, ms);
      case Rep(_, _, _, _) => FitsRep(p, g, next, s, i, e, ms);
      case Mark => FitsMark(p, g, next, s, i, e, ms);
    }
  }

  /** One segment and its element's boundaries in front of the rest's. */
  lemma FitStep(p: Pattern, segs: seq<string>, k: nat, i: nat)
    requires p.Cons? && k < |segs|
    ensures FitMarks(p, segs, k, i) == HeadMarks(p.head, i, i + |segs[k]|) + FitMarks(p.tail, segs, k + 1, i + |segs[k]|)
    ensures |ConcatFrom(segs, k)| == |segs[k]| + |ConcatFrom(segs, k + 1)|
  {
  }

  /** The groups that the boundaries of segments laid end to end mark are
      the segments of the repetitions. */
  lemma {:induction false} FitGroups(p: Pattern, segs: seq<string>, k: nat, s: string, i: nat, after: string)
    requires MarkFree(p) && i <= |s| && s[i..] == ConcatFrom(segs, k) + after
    requires Ordered(FitMarks(p, segs, k, i), 0, |s|)
    ensures Groups(s, FitMarks(p, segs, k, i)) == FitCaptures(p, segs, k)
    decreases p
  {
    if p.Cons? && k < |segs| {
      var g := segs[k];
      var j := i + |g|;
      SegmentStep(s, i, segs, k, after);
      FitStep(p, segs, k, i);
      GroupsFront(s, FitMarks(p, segs, k, i), HeadMarks(p.head, i, j), FitMarks(p.tail, segs, k + 1, j), g, i,
                  MarksOf(p.head) == 2);
      FitGroups(p.tail, segs, k + 1, s, j, after);
    }
  }

  /** A group that spans the segment `g` at `i`, when the first element
      captures, in front of the others. */
  lemma GroupsFront(s: string, all: seq<nat>, head: seq<nat>, ms: seq<nat>, g: string, i: nat, capture: bool)
    requires all == head + ms && Ordered(all, 0, |s|) && OccursAt(s, g, i)
    requires head == if capture then [i, i + |g|] else []
    ensures Ordered(ms, 0, |s|)
    ensures Groups(s, all) == (if capture then [g] else []) + Groups(s, ms)
  {
    if capture {
      assert all[2..] == ms;
      OrderedTail(all, 2, 0, |s|);
    } else {
      assert all == ms;
    }
  }

  /** The boundaries after the first `n` stay in order. */
  lemma OrderedTail(ms: seq<nat>, n: nat, lo: nat, hi: nat)
    requires Ordered(ms, lo, hi) && n <= |ms|
    ensures Ordered(ms[n..], lo, hi)
  {
    forall a, b | 0 <= a < b < |ms[n..]|
      ensures ms[n..][a] <= ms[n..][b]
    {
      assert ms[n..][a] == ms[n + a] && ms[n..][b] == ms[n + b];
    }
  }

  /** A fitting pattern's submatches, when the segments are the whole text
      and the pattern can start nowhere else. */
  lemma FitsSubmatch(p: Pattern, segs: seq<string>, s: string)
    requires Fits(p, segs, 0, "") && MarkFree(p) && s == ConcatFrom(segs, 0)
    ensures FindSubmatch(p, s) == [s] + FitCaptures(p, segs, 0)
  {
    FitsGroups(p, segs, s);
    FitGroups(p, segs, 0, s, 0, "");
  }

  /** A fitting pattern's submatches are the groups its boundaries mark. */
  lemma FitsGroups(p: Pattern, segs: seq<string>, s: string)
    requires Fits(p, segs, 0, "") && s == ConcatFrom(segs, 0)
    ensures Ordered(FitMarks(p, segs, 0, 0), 0, |s|)
    ensures FindSubmatch(p, s) == [s] + Groups(s, FitMarks(p, segs, 0, 0))
  {
    FitsMatch(p, segs, 0, "", s, 0);
    var ms := FitMarks(p, segs, 0, 0);
    assert Search(p, s) == Some(Match(0, |s|, ms));
  }

  /** A greedy repetition that must be followed by a literal starting outside
      its class never gives characters back. */
  predicate Rigid(p: Pattern) {
    p.Cons? && p.head.Rep? ==>
      p.tail.Cons? && p.tail.head.Lit? && |p.tail.head.text| > 0 && !InClass(p.head.cls, p.tail.head.text[0])
  }

  lemma {:induction false} RigidTail(p: Pattern, s: string, i: nat, lo: nat, hi: nat, n: nat)
    requires p.Cons? && p.head.Rep? && p.head.greedy && Rigid(p) && i <= lo <= hi <= |s| && 1 <= n
    requires forall k :: i <= k < hi ==> InClass(p.head.cls, s[k])
    ensures TryRep(p, s, i, lo, hi, n) == None
    decreases hi - lo + 1 - n
  {
    if n <= hi - lo {
      var j := hi - n;
      FirstCharDiffers(s, p.tail.head.text, j);
      RigidTail(p, s, i, lo, hi, n + 1);
    }
  }

  /** A rigid greedy repetition takes exactly its whole run. */
  lemma RigidRun(p: Pattern, s: string, i: nat)
    requires p.Cons? && p.head.Rep? && p.head.greedy && Rigid(p) && i <= |s|
    requires RunEnd(p.head.cls, s, i) >= i + p.head.min
    ensures var e := RunEnd(p.head.cls, s, i);
      MatchAt(p, s, i) == Record(if p.head.capture then [i, e] else [], MatchAt(p.tail, s, e))
  {
    var e := RunEnd(p.head.cls, s, i);
    if MatchAt(p.tail, s, e).None? {
      RigidTail(p, s, i, i + p.head.min, e, 1);
    }
  }

  /** The elements of `p` take the segments `segs[k..]` one by one until a
      literal that is not there, and no repetition on the way can give
      characters back. */
  predicate FitsUntilMiss(p: Pattern, segs: seq<string>, k: nat, after: string)
    decreases p
  {
    && p.Cons? && k < |segs|
    && (|| (p.head.Lit? && !HasPrefix(ConcatFrom(segs, k) + after, p.head.text))
        || (&& ElemFits(p.head, segs[k], ConcatFrom(segs, k + 1) + after)
            && Rigid(p)
            && FitsUntilMiss(p.tail, segs, k + 1, after)))
  }

  /** One element of such a pattern that fits its segment, once the rest is
      known not to match after it. */
  lemma MissHead(p: Pattern, segs: seq<string>, k: nat, after: string, s: string, i: nat)
    requires p.Cons? && k < |segs| && ElemFits(p.head, segs[k], ConcatFrom(segs, k + 1) + after) && Rigid(p)
    requires OccursAt(s, segs[k], i) && s[i + |segs[k]|..] == ConcatFrom(segs, k + 1) + after
    requires MatchAt(p.tail, s, i + |segs[k]|) == None
    ensures MatchAt(p, s, i) == None
  {
    var g := segs[k];
    var j := i + |g|;
    match p.head
    case Lit(_) =>
      LitStep(p, s, i);
    case One(_) =>
      assert s[i] == g[0];
    case Rep(c, min, greedy, cap) =>
      if j < |s| {
        assert s[j] == s[j..][0];
      }
      RunEndAt(c, s, i, g);
      RigidRun(p, s, i);
    case Mark =>
  }

  /** Such a pattern does not match there. */
  lemma {:induction false} MissNoMatch(p: Pattern, segs: seq<string>, k: nat, after: string, s: string, i: nat)
    requires FitsUntilMiss(p, segs, k, after) && i <= |s| && s[i..] == ConcatFrom(segs, k) + after
    ensures MatchAt(p, s, i) == None
    decreases p
  {
    var t := ConcatFrom(segs, k) + after;
    if p.head.Lit? && !HasPrefix(t, p.head.text) {
      if i + |p.head.text| <= |s| {
        assert s[i..][..|p.head.text|] == s[i..i + |p.head.text|];
      }
    } else {
      SegmentStep(s, i, segs, k, after);
      MissNoMatch(p.tail, segs, k + 1, after, s, i + |segs[k]|);
      MissHead(p, segs, k, after, s, i);
    }
  }

  /** A pattern that starts with a literal can only match where the
      literal's first character is. */
  lemma LeadingChar(p: Pattern, s: string, q: nat)
    requires p.Cons? && p.head.Lit? && |p.head.text| > 0
    requires forall j :: 0 <= j < |s| && j != q ==> s[j] != p.head.text[0]
    requires q <= |s| && MatchAt(p, s, q) == None
    ensures Search(p, s) == None && FindSubmatch(p, s) == []
  {
    forall j | 0 <= j <= |s| && j != q
      ensures MatchAt(p, s, j) == None
    {
      FirstCharDiffers(s, p.head.text, j);
    }
  }

  /** A text does not occur where its first character is absent. */
  lemma FirstCharDiffers(s: string, t: string, j: nat)
    requires |t| > 0 && (j < |s| ==> s[j] != t[0])
    ensures !OccursAt(s, t, j)
  {
    if j + |t| <= |s| {
      assert s[j..j + |t|][0] == s[j];
    }
  }

  /** One more segment at the end adds its text at the end. */
  lemma {:induction false} ConcatSnoc(segs: seq<string>, x: string, k: nat)
    requires k <= |segs|
    ensures ConcatFrom(segs + [x], k) == ConcatFrom(segs, k) + x
    decreases |segs| - k
  {
    if k < |segs| {
      ConcatSnoc(segs, x, k + 1);
      assert (segs + [x])[k] == segs[k];
      assert segs[k] + (ConcatFrom(segs, k + 1) + x) == (segs[k] + ConcatFrom(segs, k + 1)) + x;
    } else {
      assert (segs + [x])[k] == x;
      assert ConcatFrom(segs + [x], k + 1) == "";
    }
  }

  /** The segments before `n` concatenate left to right, one after the
      other. */
  lemma {:induction false} ConcatPrefix(segs: seq<string>, n: nat)
    requires 0 < n <= |segs|
    ensures ConcatFrom(segs[..n], 0) == ConcatFrom(segs[..n - 1], 0) + segs[n - 1]
  {
    assert segs[..n] == segs[..n - 1] + [segs[n - 1]];
    ConcatSnoc(segs[..n - 1], segs[n - 1], 0);
  }

  /** Seven segments concatenate left to right. */
  lemma ConcatSeven(segs: seq<string>)
    requires |segs| == 7
    ensures ConcatFrom(segs, 0) == segs[0] + segs[1] + segs[2] + segs[3] + segs[4] + segs[5] + segs[6]
  {
    assert segs[..7] == segs;
    assert ConcatFrom(segs[..1], 0) == segs[0] by {
      assert segs[..1] == [segs[0]];
    }
    ConcatPrefix(segs, 2); ConcatPrefix(segs, 3); ConcatPrefix(segs, 4);
    ConcatPrefix(segs, 5); ConcatPrefix(segs, 6); ConcatPrefix(segs, 7);
  }

  /** Nine segments concatenate left to right. */
  lemma ConcatNine(segs: seq<string>)
    requires |segs| == 9
    ensures ConcatFrom(segs, 0) == segs[0] + segs[1] + segs[2] + segs[3] + segs[4] + segs[5] + segs[6] + segs[7] + segs[8]
  {
    assert segs[..9] == segs;
    assert ConcatFrom(segs[..1], 0) == segs[0] by {
      assert segs[..1] == [segs[0]];
    }
    ConcatPrefix(segs, 2); ConcatPrefix(segs, 3);
    ConcatPrefix(segs, 4); ConcatPrefix(segs, 5); ConcatPrefix(segs, 6);
    ConcatPrefix(segs, 7); ConcatPrefix(segs, 8); ConcatPrefix(segs, 9);
  }

  /** Equal segment lists concatenate to equal texts. */
  lemma {:induction false} ConcatShift(a: seq<string>, i: nat, b: seq<string>, j: nat)
    requires i <= |a| && j <= |b| && a[i..] == b[j..]
    ensures ConcatFrom(a, i) == ConcatFrom(b, j)
    decreases |a| - i
  {
    if i < |a| {
      assert a[i] == a[i..][0] == b[j..][0] == b[j];
      assert a[i + 1..] == a[i..][1..] == b[j..][1..] == b[j + 1..];
      ConcatShift(a, i + 1, b, j + 1);
    }
  }

  /** A character that no segment holds is not in their concatenation. */
  lemma {:induction false} ConcatFree(segs: seq<string>, k: nat, x: char)
    requires forall m :: k <= m < |segs| ==> x !in segs[m]
    ensures x !in ConcatFrom(segs, k)
    decreases |segs| - k
  {
    if k < |segs| {
      ConcatFree(segs, k + 1, x);
    }
  }

  /** The concatenation holds `x` only at index `q` when the first segment
      holds it only there and no other segment holds it. */
  lemma OnlyAt(segs: seq<string>, x: char, q: nat)
    requires |segs| > 0 && q < |segs[0]| && segs[0][q] == x
    requires forall j :: 0 <= j < |segs[0]| && j != q ==> segs[0][j] != x
    requires forall m :: 1 <= m < |segs| ==> x !in segs[m]
    ensures var s := ConcatFrom(segs, 0); q < |s| && s[q] == x && forall j :: 0 <= j < |s| && j != q ==> s[j] != x
  {
    var s := ConcatFrom(segs, 0);
    ConcatFree(segs, 1, x);
    assert s == segs[0] + ConcatFrom(segs, 1);
    forall j | |segs[0]| <= j < |s|
      ensures s[j] != x
    {
      assert s[j] == ConcatFrom(segs, 1)[j - |segs[0]|];
    }
  }

  /** A literal whose `q`-th character occurs nowhere else in it, followed by
      text without that character, occurs only at the start. */
  lemma LitOnce(lit: string, rest: string, q: nat)
    requires q < |lit| && lit[q] !in rest
    requires forall j :: 0 <= j < |lit| && j != q ==> lit[j] != lit[q]
    ensures forall j: nat :: 0 < j <= |lit + rest| ==> !OccursAt(lit + rest, lit, j)
  {
  }

  /** The two groups four ordered boundaries mark. */
  lemma TwoGroups(s: string, ms: seq<nat>)
    requires |ms| == 4 && Ordered(ms, 0, |s|)
    ensures Groups(s, ms) == [s[ms[0]..ms[1]], s[ms[2]..ms[3]]]
  {
  }

  /** Where the second piece and the fifth to seventh pieces of nine sit in
      their concatenation. */
  lemma NineSlices(segs: seq<string>)
    requires |segs| == 9
    ensures var s := ConcatFrom(segs, 0);
      var a := |segs[0]|;
      var c := a + |segs[1]| + |segs[2]|;
      var d := c + |segs[3]| + |segs[4]| + |segs[5]| + |segs[6]|;
      d <= |s| && s[a..a + |segs[1]|] == segs[1] && s[c..d] == segs[3] + segs[4] + segs[5] + segs[6]
  {
    ConcatNine(segs);
    var s := ConcatFrom(segs, 0);
    var mid := segs[3] + segs[4] + segs[5] + segs[6];
    assert s == segs[0] + segs[1] + (segs[2] + mid + segs[7] + segs[8]);
    MiddleSlice(segs[0], segs[1], segs[2] + mid + segs[7] + segs[8]);
    assert s == (segs[0] + segs[1] + segs[2]) + mid + (segs[7] + segs[8]);
    MiddleSlice(segs[0] + segs[1] + segs[2], mid, segs[7] + segs[8]);
  }

  /** Twelve segments concatenate left to right. */
  lemma ConcatTwelve(segs: seq<string>)
    requires |segs| == 12
    ensures ConcatFrom(segs, 0) == segs[0] + segs[1] + segs[2] + segs[3] + segs[4] + segs[5] + segs[6]
      + segs[7] + segs[8] + segs[9] + segs[10] + segs[11]
  {
    assert segs[..12] == segs;
    assert ConcatFrom(segs[..1], 0) == segs[0] by {
      assert segs[..1] == [segs[0]];
    }
    ConcatPrefix(segs, 2); ConcatPrefix(segs, 3); ConcatPrefix(segs, 4);
    ConcatPrefix(segs, 5); ConcatPrefix(segs, 6); ConcatPrefix(segs, 7);
    ConcatPrefix(segs, 8); ConcatPrefix(segs, 9); ConcatPrefix(segs, 10);
    ConcatPrefix(segs, 11); ConcatPrefix(segs, 12);
  }

  /** Where the second to seventh pieces, and the eleventh, of twelve sit in
      their concatenation. */
  lemma TwelveSlices(segs: seq<string>)
    requires |segs| == 12
    ensures var s := ConcatFrom(segs, 0);
      var mid := segs[1] + (segs[2] + (segs[3] + (segs[4] + (segs[5] + segs[6]))));
      var a := |segs[0]|;
      var d := a + |mid| + |segs[7]| + |segs[8]| + |segs[9]|;
      d + |segs[10]| <= |s| && s[a..a + |mid|] == mid && s[d..d + |segs[10]|] == segs[10]
  {
    ConcatTwelve(segs);
    var s := ConcatFrom(segs, 0);
    var mid := segs[1] + (segs[2] + (segs[3] + (segs[4] + (segs[5] + segs[6]))));
    var pre := segs[0] + mid + segs[7] + segs[8] + segs[9];
    assert s == segs[0] + mid + (segs[7] + segs[8] + segs[9] + segs[10] + segs[11]);
    MiddleSlice(segs[0], mid, segs[7] + segs[8] + segs[9] + segs[10] + segs[11]);
    assert s == pre + segs[10] + segs[11];
    MiddleSlice(pre, segs[10], segs[11]);
  }

  /** A match whose boundaries are four known positions has their two
      groups as submatches. */
  lemma MarkedGroups(m: seq<string>, line: string, ms: seq<nat>, a: nat, b: nat, c: nat, d: nat)
    requires ms == [a, b, c, d] && Ordered(ms, 0, |line|)
    requires m == [line] + Groups(line, ms)
    ensures a <= b <= c <= d <= |line| && m == [line, line[a..b], line[c..d]]
  {
    TwoGroups(line, ms);
  }
}
