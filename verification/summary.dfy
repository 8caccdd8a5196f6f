/** The summary line that follows each failed test in an aggregated job's
    summary page: six phrase shapes, tried in a fixed order, each rendered in
    a short canonical form. */
module Summary {
  import opened Common
  import opened Strings
  import opened Regex
  import opened Durations

  /** `(\d+)` */
  const Num := Rep(Digit, 1, true, true)
  /** `\d+` */
  const Digits := Rep(Digit, 1, true, false)
  /** `.` */
  const AnyChar := One(NotNewline)
  /** `.*` */
  const AnyRun := Rep(NotNewline, 0, true, false)

  /** `Passed (\d+) times, failed (\d+) times, skipped (\d+) times: we
      require at least one pass to consider it a success` */
  const PlainPattern: Pattern :=
    Cons(Lit("Passed "), Cons(Num, Cons(Lit(" times, failed "), Cons(Num, Cons(Lit(" times, skipped "), Cons(Num,
    Cons(Lit(OnePassTail), Nil)))))))
  const OnePassTail := " times: we require at least one" + " pass to consider it a success"

  /** `Passed (\d+) times, failed (\d+) times, skipped (\d+) times: we
      require at least (\d+) attempts to have a chance at success` */
  const RequiredPattern: Pattern :=
    Cons(Lit("Passed "), Cons(Num, Cons(Lit(" times, failed "), Cons(Num, Cons(Lit(" times, skipped "), Cons(Num,
    Cons(Lit(" times: we require at least "), Cons(Num, Cons(Lit(AttemptsTail), Nil)))))))))
  const AttemptsTail := " attempts to have a chance" + " at success"

  /** `Failed: Passed (\d+) times, failed (\d+) times.  The historical pass
      rate is (\d+)%.  The required number of passes is (\d+).` (an unescaped
      `.` matches any character) */
  const HistoricalPattern: Pattern :=
    Cons(Lit("Failed: Passed "), Cons(Num, Cons(Lit(" times, failed "), Cons(Num, Cons(Lit(" times"), Cons(AnyChar,
    Cons(Lit(RateLead), Cons(Num, Cons(Lit("%"), Cons(AnyChar,
    Cons(Lit(RequiredLead), Cons(Num, Cons(AnyChar, Nil)))))))))))))
  const RateLead := "  The historical pass rate is "
  const RequiredLead := "  The required number" + " of passes is "

  /** `\((P[0-9]+=[0-9\.]+s).* failures=\[(.*)\]` */
  const DurationsPattern: Pattern :=
    Cons(Lit("("), Cons(Mark, Cons(Lit("P"), Cons(Digits, Cons(Lit("="), Cons(Rep(DigitOrDot, 1, true, false),
    Cons(Lit("s"), Cons(Mark, Cons(AnyRun, Cons(Lit(FailuresLead), Cons(Rep(NotNewline, 0, true, true),
    Cons(Lit("]"), Nil))))))))))))

  /** `Failed: Passed (\d+) times, failed (\d+) times.  \(.*requiredPasses=(\d+).*\)` */
  const OldDisruptionPattern: Pattern :=
    Cons(Lit("Failed: Passed "), Cons(Num, Cons(Lit(" times, failed "), Cons(Num, Cons(Lit(" times"), Cons(AnyChar,
    Cons(Lit("  ("), Cons(AnyRun, Cons(Lit(RequiredPassesLead), Cons(Num, Cons(AnyRun, Cons(Lit(")"), Nil))))))))))))

  /** `Failed: Mean disruption of ([a-z-]+) is (\d+\.\d+) seconds is more
      than the failureThreshold` */
  const MeanDisruptionPattern: Pattern :=
    Cons(Lit(MeanLead), Cons(Rep(LowerOrDash, 1, true, true), Cons(Lit(" is "),
    Cons(Mark, Cons(Digits, Cons(Lit("."), Cons(Digits, Cons(Mark,
    Cons(Lit(ThresholdTail), Nil)))))))))
  const ThresholdTail := " seconds is more than the" + " failureThreshold"

  /** Go's `int` on a 64-bit platform. */
  const MaxInt := 0x7fff_ffff_ffff_ffff

  /** `strconv.Atoi` with its error discarded, on the digit strings the
      patterns capture: values beyond `MaxInt` saturate, anything that is not
      a digit string gives 0. */
  function Atoi(ds: string): (n: int)
    ensures 0 <= n <= MaxInt
    ensures |ds| > 0 && AllDigits(ds) && DigitsValue(ds) <= MaxInt ==> n == DigitsValue(ds)
  {
    if |ds| > 0 && AllDigits(ds) then (if DigitsValue(ds) > MaxInt then MaxInt else DigitsValue(ds)) else 0
  }

  /** A decoded summary line. */
  datatype Shape =
    | OnePassRequired(passed: int, failed: int, skipped: int)
    | AttemptsRequired(passed: int, failed: int, skipped: int, required: int)
    | HistoricalRate(passed: int, failed: int, rate: int, required: int)
    | DurationList(percentile: string, durations: string)
    | OldDisruption(passed: int, failed: int, required: int)
    | MeanDisruption(deviation: string)
    | Unrecognised(text: string)

  /** Group `k` of a submatch list, read as a number. */
  function NumGroup(m: seq<string>, k: nat): int {
    Atoi(GroupOf(m, k))
  }

  /** The shape patterns in the order the decoder tries them. */
  const Chain := [PlainPattern, RequiredPattern, HistoricalPattern,
                  DurationsPattern, OldDisruptionPattern, MeanDisruptionPattern]

  /** The position in `Chain` of the pattern a shape comes from;
      `|Chain|` for a line no pattern matched. */
  function Kind(sh: Shape): nat {
    match sh
    case OnePassRequired(_, _, _) => 0
    case AttemptsRequired(_, _, _, _) => 1
    case HistoricalRate(_, _, _, _) => 2
    case DurationList(_, _) => 3
    case OldDisruption(_, _, _) => 4
    case MeanDisruption(_) => 5
    case Unrecognised(_) => 6
  }

  /** The shape built from the submatches `m` of pattern `k` of the chain:
      the numbers are its groups read with `Atoi`. */
  function Build(k: nat, m: seq<string>): (sh: Shape)
    requires k < |Chain|
    ensures Kind(sh) == k
  {
    if k == 0 then OnePassRequired(NumGroup(m, 1), NumGroup(m, 2), NumGroup(m, 3))
    else if k == 1 then AttemptsRequired(NumGroup(m, 1), NumGroup(m, 2), NumGroup(m, 3), NumGroup(m, 4))
    else if k == 2 then HistoricalRate(NumGroup(m, 1), NumGroup(m, 2), NumGroup(m, 3), NumGroup(m, 4))
    else if k == 3 then DurationList(GroupOf(m, 1), GroupOf(m, 2))
    else if k == 4 then OldDisruption(NumGroup(m, 1), NumGroup(m, 2), NumGroup(m, 3))
    else MeanDisruption(GroupOf(m, 2))
  }

  /** The rest of the `if ... else if` chain from pattern `k` on: the first
      pattern that matches decides, and a line none matches is kept. */
  function DecodeFrom(line: string, k: nat): (sh: Shape)
    requires k <= |Chain|
    ensures k <= Kind(sh) <= |Chain|
    ensures Kind(sh) < |Chain| ==> Matches(Chain[Kind(sh)], line)
    ensures forall j :: k <= j < Kind(sh) ==> !Matches(Chain[j], line)
    ensures sh.Unrecognised? ==> sh.text == line
    decreases |Chain| - k
  {
    if k == |Chain| then Unrecognised(line)
    else
      var m := FindSubmatch(Chain[k], line);
      if m != [] then Build(k, m) else DecodeFrom(line, k + 1)
  }

  /** Decoding a summary line: the shape comes from the first pattern, in
      the chain's order, that matches the line, and a line no pattern
      matches is kept as it is. */
  function Decode(line: string): (sh: Shape)
    ensures Kind(sh) < |Chain| ==> Matches(Chain[Kind(sh)], line)
    ensures forall j :: 0 <= j < Kind(sh) && j < |Chain| ==> !Matches(Chain[j], line)
    ensures sh.Unrecognised? <==> forall j :: 0 <= j < |Chain| ==> !Matches(Chain[j], line)
    ensures sh.Unrecognised? ==> sh.text == line
  {
    DecodeFrom(line, 0)
  }

  /** The canonical text of a decoded summary; `None` where sorting the
      duration list panics. */
  function Render(sh: Shape, round: string -> Option<int>): (r: Option<string>)
    ensures r.None? <==> sh.DurationList? && SortedDurations(sh.durations, round).None?
  {
    match sh
    case OnePassRequired(p, f, s) =>
      Some("pass=" + IntToString(p) + "/fail=" + IntToString(f) + "/skip=" + IntToString(s))
    case AttemptsRequired(p, f, s, req) =>
      Some("pass=" + IntToString(p) + "/fail=" + IntToString(f) + "/req=" + IntToString(req) + "/skip=" + IntToString(s))
    case HistoricalRate(p, f, rate, req) =>
      Some("pass=" + IntToString(p) + "/fail=" + IntToString(f) + "/req=" + IntToString(req)
           + "  historical=" + IntToString(rate) + "%")
    case DurationList(pNumber, output) =>
      (match SortedDurations(output, round)
       case None => None
       case Some(sorted) => Some("pass=0/fail=10/req=? disruption, " + pNumber + ", " + sorted))
    case OldDisruption(p, f, req) =>
      Some("pass=" + IntToString(p) + "/fail=" + IntToString(f) + "/req=" + IntToString(req) + " disruption")
    case MeanDisruption(dev) =>
      Some("pass=?/fail=?/req=? dev=" + dev + " disruption")
    case Unrecognised(text) =>
      Some(text + " (?disruption)")
  }

  /** The three count patterns capture single repetitions only. */
  lemma PatternsMarkFree()
    ensures MarkFree(PlainPattern) && MarkFree(RequiredPattern) && MarkFree(HistoricalPattern)
  {
    var q := PlainPattern.tail.tail.tail;
    assert MarkFree(q.tail.tail.tail);
    assert MarkFree(q);
    var r := RequiredPattern.tail.tail.tail;
    assert MarkFree(r.tail.tail.tail.tail.tail);
    assert MarkFree(r.tail.tail);
    assert MarkFree(r);
    var h := HistoricalPattern.tail.tail.tail;
    assert MarkFree(h.tail.tail.tail.tail.tail.tail.tail.tail.tail);
    assert MarkFree(h.tail.tail.tail.tail.tail.tail);
    assert MarkFree(h.tail.tail.tail);
    assert MarkFree(h);
  }

  /** The digits of a rendered number are in the `\d` class. */
  lemma DigitsInClass(d: string)
    requires AllDigits(d)
    ensures forall k :: 0 <= k < |d| ==> InClass(Digit, d[k])
    ensures 'P' !in d
  {
    assert forall k :: 0 <= k < |d| ==> d[k] != 'P';
  }

  /** The digits of a rendered number are none of the letters and signs the
      patterns look for. */
  lemma DigitsLack(d: string)
    requires AllDigits(d)
    ensures 'k' !in d && '%' !in d && '[' !in d && 'q' !in d && '\n' !in d
  {
    assert forall k :: 0 <= k < |d| ==> IsDigit(d[k]);
  }

  /** A rendered number reads back as itself. */
  lemma AtoiNatToString(n: nat)
    requires n <= MaxInt
    ensures Atoi(NatToString(n)) == n
  {
    NatToStringValue(n);
  }

  /** The pieces of the one-pass phrase, one per pattern element. */
  function OnePassSegments(p: nat, f: nat, s: nat): seq<string> {
    ["Passed ", NatToString(p), " times, failed ", NatToString(f), " times, skipped ", NatToString(s), OnePassTail]
  }

  /** The one-pass phrase as the aggregator writes it. */
  function OnePassLine(p: nat, f: nat, s: nat): string {
    "Passed " + NatToString(p) + " times, failed " + NatToString(f) + " times, skipped " + NatToString(s) + OnePassTail
  }

  lemma OnePassConcat(p: nat, f: nat, s: nat)
    ensures ConcatFrom(OnePassSegments(p, f, s), 0) == OnePassLine(p, f, s)
  {
    ConcatSeven(OnePassSegments(p, f, s));
  }

  lemma OnePassFits(p: nat, f: nat, s: nat)
    ensures Fits(PlainPattern, OnePassSegments(p, f, s), 0, "")
  {
    var segs := OnePassSegments(p, f, s);
    DigitsInClass(segs[1]); DigitsInClass(segs[3]); DigitsInClass(segs[5]);
    var q := PlainPattern;
    assert ConcatFrom(segs, 6) == OnePassTail;
    assert ConcatFrom(segs, 5) == segs[5] + OnePassTail;
    assert ConcatFrom(segs, 4) == segs[4] + ConcatFrom(segs, 5);
    assert ConcatFrom(segs, 3) == segs[3] + ConcatFrom(segs, 4);
    assert ConcatFrom(segs, 2) == segs[2] + ConcatFrom(segs, 3);
    assert ConcatFrom(segs, 1) == segs[1] + ConcatFrom(segs, 2);
    assert Fits(q.tail.tail.tail.tail.tail.tail, segs, 6, "");
    assert (ConcatFrom(segs, 6) + "")[0] == ' ';
    assert Fits(q.tail.tail.tail.tail.tail, segs, 5, "");
    assert Fits(q.tail.tail.tail.tail, segs, 4, "");
    assert (ConcatFrom(segs, 4) + "")[0] == ' ';
    assert Fits(q.tail.tail.tail, segs, 3, "");
    assert Fits(q.tail.tail, segs, 2, "");
    assert (ConcatFrom(segs, 2) + "")[0] == ' ';
    assert Fits(q.tail, segs, 1, "");
  }

  /** The one-pass pattern captures the three counts. */
  lemma OnePassCaptures(segs: seq<string>)
    requires |segs| == 7
    ensures FitCaptures(PlainPattern, segs, 0) == [segs[1], segs[3], segs[5]]
  {
    var q := PlainPattern;
    var q1 := q.tail;
    var q2 := q1.tail;
    var q3 := q2.tail;
    var q4 := q3.tail;
    var q5 := q4.tail;
    var q6 := q5.tail;
    assert FitCaptures(q6, segs, 6) == [];
    assert FitCaptures(q5, segs, 5) == [segs[5]];
    assert FitCaptures(q4, segs, 4) == [segs[5]];
    assert FitCaptures(q3, segs, 3) == [segs[3], segs[5]];
    assert FitCaptures(q2, segs, 2) == [segs[3], segs[5]];
    assert FitCaptures(q1, segs, 1) == [segs[1], segs[3], segs[5]];
    assert FitCaptures(q, segs, 0) == [segs[1], segs[3], segs[5]];
  }

  /** The first shape round-trips: its phrase decodes to its three counts and
      renders as `pass=P/fail=F/skip=S`. */
  lemma OnePassRoundTrip(p: nat, f: nat, s: nat, round: string -> Option<int>)
    requires p <= MaxInt && f <= MaxInt && s <= MaxInt
    ensures Decode(OnePassLine(p, f, s)) == OnePassRequired(p, f, s)
    ensures Render(Decode(OnePassLine(p, f, s)), round) ==
      Some("pass=" + NatToString(p) + "/fail=" + NatToString(f) + "/skip=" + NatToString(s))
  {
    OnePassDecodes(p, f, s);
  }

  /** The first shape's phrase decodes to its three numbers. */
  lemma OnePassDecodes(p: nat, f: nat, s: nat)
    requires p <= MaxInt && f <= MaxInt && s <= MaxInt
    ensures Decode(OnePassLine(p, f, s)) == OnePassRequired(p, f, s)
  {
    var segs := OnePassSegments(p, f, s);
    var line := OnePassLine(p, f, s);
    var q := PlainPattern;
    OnePassFits(p, f, s);
    OnePassConcat(p, f, s);
    PatternsMarkFree();
    FitsSubmatch(q, segs, line);
    OnePassCaptures(segs);
    var m := FindSubmatch(q, line);
    assert m == [line, NatToString(p), NatToString(f), NatToString(s)];
    AtoiNatToString(p); AtoiNatToString(f); AtoiNatToString(s);
    assert GroupOf(m, 1) == NatToString(p);
    assert GroupOf(m, 2) == NatToString(f);
    assert GroupOf(m, 3) == NatToString(s);
  }

  /** The pieces of the required-attempts phrase. */
  function AttemptsSegments(p: nat, f: nat, s: nat, req: nat): seq<string> {
    ["Passed ", NatToString(p), " times, failed ", NatToString(f), " times, skipped ", NatToString(s),
     AttemptsLead, NatToString(req), AttemptsTail]
  }
  const AttemptsLead := " times: we require at least "

  /** The required-attempts phrase as the aggregator writes it. */
  function AttemptsLine(p: nat, f: nat, s: nat, req: nat): string {
    "Passed " + NatToString(p) + " times, failed " + NatToString(f) + " times, skipped " + NatToString(s)
    + AttemptsLead + NatToString(req) + AttemptsTail
  }

  lemma AttemptsConcat(p: nat, f: nat, s: nat, req: nat)
    ensures ConcatFrom(AttemptsSegments(p, f, s, req), 0) == AttemptsLine(p, f, s, req)
  {
    ConcatNine(AttemptsSegments(p, f, s, req));
  }

  lemma AttemptsFits(p: nat, f: nat, s: nat, req: nat)
    ensures Fits(RequiredPattern, AttemptsSegments(p, f, s, req), 0, "")
  {
    var segs := AttemptsSegments(p, f, s, req);
    DigitsInClass(segs[1]); DigitsInClass(segs[3]); DigitsInClass(segs[5]); DigitsInClass(segs[7]);
    var q := RequiredPattern;
    assert ConcatFrom(segs, 8) == AttemptsTail;
    assert Fits(q.tail.tail.tail.tail.tail.tail.tail.tail, segs, 8, "");
    assert (ConcatFrom(segs, 8) + "")[0] == ' ';
    assert Fits(q.tail.tail.tail.tail.tail.tail.tail, segs, 7, "");
    assert Fits(q.tail.tail.tail.tail.tail.tail, segs, 6, "");
    assert ConcatFrom(segs, 6) == segs[6] + ConcatFrom(segs, 7);
    assert (ConcatFrom(segs, 6) + "")[0] == ' ';
    assert Fits(q.tail.tail.tail.tail.tail, segs, 5, "");
    assert Fits(q.tail.tail.tail.tail, segs, 4, "");
    assert ConcatFrom(segs, 4) == segs[4] + ConcatFrom(segs, 5);
    assert (ConcatFrom(segs, 4) + "")[0] == ' ';
    assert Fits(q.tail.tail.tail, segs, 3, "");
    assert Fits(q.tail.tail, segs, 2, "");
    assert ConcatFrom(segs, 2) == segs[2] + ConcatFrom(segs, 3);
    assert (ConcatFrom(segs, 2) + "")[0] == ' ';
    assert Fits(q.tail, segs, 1, "");
  }

  /** The one-pass pattern stops where the required-attempts phrase has a
      number instead of "one". */
  lemma AttemptsMissOnePass(p: nat, f: nat, s: nat, req: nat)
    ensures FitsUntilMiss(PlainPattern, AttemptsSegments(p, f, s, req), 0, "")
  {
    var segs := AttemptsSegments(p, f, s, req);
    DigitsInClass(segs[1]); DigitsInClass(segs[3]); DigitsInClass(segs[5]); DigitsInClass(segs[7]);
    var q := PlainPattern;
    var c6 := ConcatFrom(segs, 6);
    assert c6 == AttemptsLead + ConcatFrom(segs, 7);
    assert ConcatFrom(segs, 7) == segs[7] + ConcatFrom(segs, 8);
    assert c6[28] == segs[7][0];
    assert OnePassTail[28] == 'o';
    NotPrefixAt(c6 + "", OnePassTail, 28);
    assert FitsUntilMiss(q.tail.tail.tail.tail.tail.tail, segs, 6, "");
    assert (c6 + "")[0] == ' ';
    assert FitsUntilMiss(q.tail.tail.tail.tail.tail, segs, 5, "");
    assert FitsUntilMiss(q.tail.tail.tail.tail, segs, 4, "");
    assert ConcatFrom(segs, 4) == segs[4] + ConcatFrom(segs, 5);
    assert (ConcatFrom(segs, 4) + "")[0] == ' ';
    assert FitsUntilMiss(q.tail.tail.tail, segs, 3, "");
    assert FitsUntilMiss(q.tail.tail, segs, 2, "");
    assert ConcatFrom(segs, 2) == segs[2] + ConcatFrom(segs, 3);
    assert (ConcatFrom(segs, 2) + "")[0] == ' ';
    assert FitsUntilMiss(q.tail, segs, 1, "");
  }

  /** The required-attempts phrase holds a 'P' only at its start. */
  lemma AttemptsOnlyP(p: nat, f: nat, s: nat, req: nat)
    ensures var line := AttemptsLine(p, f, s, req);
      line[0] == 'P' && forall j :: 0 <= j < |line| && j != 0 ==> line[j] != 'P'
  {
    var segs := AttemptsSegments(p, f, s, req);
    AttemptsConcat(p, f, s, req);
    DigitsInClass(segs[1]); DigitsInClass(segs[3]); DigitsInClass(segs[5]); DigitsInClass(segs[7]);
    AttemptsFillersFree();
    OnlyAt(segs, 'P', 0);
  }

  /** The fixed words between the counts hold no 'P'. */
  lemma AttemptsFillersFree()
    ensures 'P' !in " times, failed " && 'P' !in " times, skipped "
    ensures 'P' !in AttemptsLead && 'P' !in AttemptsTail
  {
  }

  /** The one-pass pattern does not match the required-attempts phrase:
      its only 'P' starts "Passed", and the pattern fails there. */
  lemma AttemptsNotOnePass(p: nat, f: nat, s: nat, req: nat)
    ensures FindSubmatch(PlainPattern, AttemptsLine(p, f, s, req)) == []
  {
    var segs := AttemptsSegments(p, f, s, req);
    var line := AttemptsLine(p, f, s, req);
    AttemptsConcat(p, f, s, req);
    AttemptsOnlyP(p, f, s, req);
    AttemptsMissOnePass(p, f, s, req);
    MissNoMatch(PlainPattern, segs, 0, "", line, 0);
    LeadingChar(PlainPattern, line, 0);
  }

  /** The required-attempts pattern captures the four counts. */
  lemma AttemptsCaptures(segs: seq<string>)
    requires |segs| == 9
    ensures FitCaptures(RequiredPattern, segs, 0) == [segs[1], segs[3], segs[5], segs[7]]
  {
    var q := RequiredPattern;
    var q1 := q.tail;
    var q2 := q1.tail;
    var q4 := q2.tail.tail;
    assert FitCaptures(q4, segs, 4) == [segs[5], segs[7]] by {
      var q5 := q4.tail;
      var q6 := q5.tail;
      var q7 := q6.tail;
      assert FitCaptures(q7.tail, segs, 8) == [];
      assert FitCaptures(q7, segs, 7) == [segs[7]];
      assert FitCaptures(q6, segs, 6) == [segs[7]];
      assert FitCaptures(q5, segs, 5) == [segs[5], segs[7]];
    }
    assert FitCaptures(q2.tail, segs, 3) == [segs[3], segs[5], segs[7]];
    assert FitCaptures(q2, segs, 2) == [segs[3], segs[5], segs[7]];
    assert FitCaptures(q1, segs, 1) == [segs[1], segs[3], segs[5], segs[7]];
    assert FitCaptures(q, segs, 0) == [segs[1], segs[3], segs[5], segs[7]];
  }

  lemma AttemptsSubmatch(p: nat, f: nat, s: nat, req: nat)
    ensures FindSubmatch(RequiredPattern, AttemptsLine(p, f, s, req)) ==
      [AttemptsLine(p, f, s, req), NatToString(p), NatToString(f), NatToString(s), NatToString(req)]
  {
    var segs := AttemptsSegments(p, f, s, req);
    var line := AttemptsLine(p, f, s, req);
    AttemptsConcat(p, f, s, req);
    var q := RequiredPattern;
    AttemptsFits(p, f, s, req);
    PatternsMarkFree();
    FitsSubmatch(q, segs, line);
    AttemptsCaptures(segs);
  }

  /** The second shape round-trips, and is not taken for the first: its
      phrase decodes to its four counts and renders as
      `pass=P/fail=F/req=R/skip=S`. */
  lemma AttemptsRoundTrip(p: nat, f: nat, s: nat, req: nat, round: string -> Option<int>)
    requires p <= MaxInt && f <= MaxInt && s <= MaxInt && req <= MaxInt
    ensures !Matches(PlainPattern, AttemptsLine(p, f, s, req))
    ensures Decode(AttemptsLine(p, f, s, req)) == AttemptsRequired(p, f, s, req)
    ensures Render(Decode(AttemptsLine(p, f, s, req)), round) ==
      Some("pass=" + NatToString(p) + "/fail=" + NatToString(f) + "/req=" + NatToString(req)
           + "/skip=" + NatToString(s))
  {
    AttemptsDecodes(p, f, s, req);
  }

  /** The second shape's phrase is not taken for the first shape and
      decodes to its four numbers. */
  lemma AttemptsDecodes(p: nat, f: nat, s: nat, req: nat)
    requires p <= MaxInt && f <= MaxInt && s <= MaxInt && req <= MaxInt
    ensures !Matches(PlainPattern, AttemptsLine(p, f, s, req))
    ensures Decode(AttemptsLine(p, f, s, req)) == AttemptsRequired(p, f, s, req)
  {
    var line := AttemptsLine(p, f, s, req);
    AttemptsNotOnePass(p, f, s, req);
    AttemptsSubmatch(p, f, s, req);
    var m := FindSubmatch(RequiredPattern, line);
    AtoiNatToString(p); AtoiNatToString(f); AtoiNatToString(s); AtoiNatToString(req);
    assert GroupOf(m, 1) == NatToString(p);
    assert GroupOf(m, 2) == NatToString(f);
    assert GroupOf(m, 3) == NatToString(s);
    assert GroupOf(m, 4) == NatToString(req);
  }

  /** The pieces of the historical-rate phrase. */
  function HistoricalSegments(p: nat, f: nat, rate: nat, req: nat): seq<string> {
    ["Failed: Passed ", NatToString(p), " times, failed ", NatToString(f), " times", ".",
     RateLead, NatToString(rate), "%", ".", RequiredLead, NatToString(req), "."]
  }

  /** The historical-rate phrase as the aggregator writes it (with full
      stops where the pattern has unescaped dots): its pieces in order. */
  function HistoricalLine(p: nat, f: nat, rate: nat, req: nat): string {
    ConcatFrom(HistoricalSegments(p, f, rate, req), 0)
  }

  lemma HistoricalFits(p: nat, f: nat, rate: nat, req: nat)
    ensures Fits(HistoricalPattern, HistoricalSegments(p, f, rate, req), 0, "")
  {
    var segs := HistoricalSegments(p, f, rate, req);
    DigitsInClass(segs[1]); DigitsInClass(segs[3]); DigitsInClass(segs[7]); DigitsInClass(segs[11]);
    var q := HistoricalPattern;
    HistoricalTailFits(p, f, rate, req);
    assert ConcatFrom(segs, 8) == "%" + ConcatFrom(segs, 9);
    assert (ConcatFrom(segs, 8) + "")[0] == '%';
    assert Fits(q.tail.tail.tail.tail.tail.tail.tail, segs, 7, "");
    assert Fits(q.tail.tail.tail.tail.tail.tail, segs, 6, "");
    assert Fits(q.tail.tail.tail.tail.tail, segs, 5, "");
    assert Fits(q.tail.tail.tail.tail, segs, 4, "");
    assert ConcatFrom(segs, 4) == segs[4] + ConcatFrom(segs, 5);
    assert (ConcatFrom(segs, 4) + "")[0] == ' ';
    assert Fits(q.tail.tail.tail, segs, 3, "");
    assert Fits(q.tail.tail, segs, 2, "");
    assert ConcatFrom(segs, 2) == segs[2] + ConcatFrom(segs, 3);
    assert (ConcatFrom(segs, 2) + "")[0] == ' ';
    assert Fits(q.tail, segs, 1, "");
  }

  /** From the ninth element on: the percent sign, the required-passes
      lead, its count and the closing dot. */
  lemma HistoricalTailFits(p: nat, f: nat, rate: nat, req: nat)
    ensures Fits(HistoricalPattern.tail.tail.tail.tail.tail.tail.tail.tail, HistoricalSegments(p, f, rate, req), 8, "")
  {
    var segs := HistoricalSegments(p, f, rate, req);
    DigitsInClass(segs[11]);
    var q8 := HistoricalPattern.tail.tail.tail.tail.tail.tail.tail.tail;
    assert ConcatFrom(segs, 12) == ".";
    assert Fits(q8.tail.tail.tail.tail, segs, 12, "");
    assert (ConcatFrom(segs, 12) + "")[0] == '.';
    assert Fits(q8.tail.tail.tail, segs, 11, "");
    assert Fits(q8.tail.tail, segs, 10, "");
    assert Fits(q8.tail, segs, 9, "");
  }

  lemma HistoricalSubmatch(p: nat, f: nat, rate: nat, req: nat)
    ensures FindSubmatch(HistoricalPattern, HistoricalLine(p, f, rate, req)) ==
      [HistoricalLine(p, f, rate, req), NatToString(p), NatToString(f), NatToString(rate), NatToString(req)]
  {
    var segs := HistoricalSegments(p, f, rate, req);
    var line := HistoricalLine(p, f, rate, req);
    HistoricalFits(p, f, rate, req);
    PatternsMarkFree();
    FitsSubmatch(HistoricalPattern, segs, line);
    HistoricalCaptures(segs);
  }

  /** The historical-rate pattern captures its four counts. */
  lemma HistoricalCaptures(segs: seq<string>)
    requires |segs| == 13
    ensures FitCaptures(HistoricalPattern, segs, 0) == [segs[1], segs[3], segs[7], segs[11]]
  {
    var q := HistoricalPattern;
    HistoricalLastCaptures(segs);
    var q4 := q.tail.tail.tail.tail;
    assert FitCaptures(q4, segs, 4) == [segs[7], segs[11]] by {
      assert FitCaptures(q4.tail.tail.tail, segs, 7) == [segs[7], segs[11]];
      assert FitCaptures(q4.tail.tail, segs, 6) == [segs[7], segs[11]];
      assert FitCaptures(q4.tail, segs, 5) == [segs[7], segs[11]];
    }
    assert FitCaptures(q.tail.tail.tail, segs, 3) == [segs[3], segs[7], segs[11]];
    assert FitCaptures(q.tail.tail, segs, 2) == [segs[3], segs[7], segs[11]];
  }

  /** From the ninth element on, the historical-rate pattern captures the
      required passes. */
  lemma HistoricalLastCaptures(segs: seq<string>)
    requires |segs| == 13
    ensures FitCaptures(HistoricalPattern.tail.tail.tail.tail.tail.tail.tail.tail, segs, 8) == [segs[11]]
  {
    var q8 := HistoricalPattern.tail.tail.tail.tail.tail.tail.tail.tail;
    assert FitCaptures(q8.tail.tail.tail.tail, segs, 12) == [];
    assert FitCaptures(q8.tail.tail.tail, segs, 11) == [segs[11]];
    assert FitCaptures(q8.tail.tail, segs, 10) == [segs[11]];
    assert FitCaptures(q8.tail, segs, 9) == [segs[11]];
  }

  /** The historical-rate phrase holds a 'P' only where "Passed" starts. */
  lemma HistoricalOnlyP(p: nat, f: nat, rate: nat, req: nat)
    ensures var line := HistoricalLine(p, f, rate, req);
      8 < |line| && line[8] == 'P' && forall j :: 0 <= j < |line| && j != 8 ==> line[j] != 'P'
  {
    var segs := HistoricalSegments(p, f, rate, req);
    HistoricalPFree(p, f, rate, req);
    assert segs[0][8] == 'P';
    assert forall j :: 0 <= j < |segs[0]| && j != 8 ==> segs[0][j] != 'P';
    OnlyAt(segs, 'P', 8);
  }

  /** Only the first piece of the historical-rate phrase has a 'P'. */
  lemma HistoricalPFree(p: nat, f: nat, rate: nat, req: nat)
    ensures var segs := HistoricalSegments(p, f, rate, req);
      forall m :: 1 <= m < |segs| ==> 'P' !in segs[m]
  {
    var segs := HistoricalSegments(p, f, rate, req);
    DigitsInClass(segs[1]); DigitsInClass(segs[3]); DigitsInClass(segs[7]); DigitsInClass(segs[11]);
    HistoricalFillersFree();
  }

  /** The fixed words between the numbers hold no 'P'. */
  lemma HistoricalFillersFree()
    ensures 'P' !in " times, failed " && 'P' !in " times" && 'P' !in "." && 'P' !in "%"
    ensures 'P' !in RateLead && 'P' !in RequiredLead
  {
  }

  /** From its 'P' on, the historical-rate phrase is "Passed " followed by
      the same pieces. */
  lemma HistoricalFromP(p: nat, f: nat, rate: nat, req: nat)
    ensures var segs := HistoricalSegments(p, f, rate, req);
      var line := HistoricalLine(p, f, rate, req);
      8 <= |line| && line[8..] == ConcatFrom(["Passed "] + segs[1..], 0)
  {
    var segs := HistoricalSegments(p, f, rate, req);
    var segsB := ["Passed "] + segs[1..];
    assert segsB[1..] == segs[1..];
    ConcatShift(segsB, 1, segs, 1);
    assert ConcatFrom(segs, 0) == "Failed: " + ("Passed " + ConcatFrom(segs, 1));
  }

  /** Both "Passed ... skipped" patterns stop at the full stop after the
      failure count, where they expect ", skipped". */
  lemma HistoricalMissSkipped(p: nat, f: nat, rate: nat, req: nat)
    ensures var segsB := ["Passed "] + HistoricalSegments(p, f, rate, req)[1..];
      FitsUntilMiss(PlainPattern, segsB, 0, "") && FitsUntilMiss(RequiredPattern, segsB, 0, "")
  {
    var segsB := ["Passed "] + HistoricalSegments(p, f, rate, req)[1..];
    DigitsInClass(segsB[1]); DigitsInClass(segsB[3]);
    var c4 := ConcatFrom(segsB, 4);
    assert c4 == " times" + ConcatFrom(segsB, 5);
    assert ConcatFrom(segsB, 5) == "." + ConcatFrom(segsB, 6);
    assert c4[6] == '.';
    assert " times, skipped "[6] == ',';
    NotPrefixAt(c4 + "", " times, skipped ", 6);
    var q1 := PlainPattern;
    var q2 := RequiredPattern;
    assert FitsUntilMiss(q1.tail.tail.tail.tail, segsB, 4, "");
    assert FitsUntilMiss(q2.tail.tail.tail.tail, segsB, 4, "");
    assert (c4 + "")[0] == ' ';
    assert FitsUntilMiss(q1.tail.tail.tail, segsB, 3, "");
    assert FitsUntilMiss(q2.tail.tail.tail, segsB, 3, "");
    assert FitsUntilMiss(q1.tail.tail, segsB, 2, "");
    assert FitsUntilMiss(q2.tail.tail, segsB, 2, "");
    assert ConcatFrom(segsB, 2) == segsB[2] + ConcatFrom(segsB, 3);
    assert (ConcatFrom(segsB, 2) + "")[0] == ' ';
    assert FitsUntilMiss(q1.tail, segsB, 1, "");
    assert FitsUntilMiss(q2.tail, segsB, 1, "");
  }

  /** Neither earlier shape matches the historical-rate phrase. */
  lemma HistoricalNotEarlier(p: nat, f: nat, rate: nat, req: nat)
    ensures FindSubmatch(PlainPattern, HistoricalLine(p, f, rate, req)) == []
    ensures FindSubmatch(RequiredPattern, HistoricalLine(p, f, rate, req)) == []
  {
    var segsB := ["Passed "] + HistoricalSegments(p, f, rate, req)[1..];
    var line := HistoricalLine(p, f, rate, req);
    HistoricalOnlyP(p, f, rate, req);
    HistoricalFromP(p, f, rate, req);
    HistoricalMissSkipped(p, f, rate, req);
    MissNoMatch(PlainPattern, segsB, 0, "", line, 8);
    MissNoMatch(RequiredPattern, segsB, 0, "", line, 8);
    LeadingChar(PlainPattern, line, 8);
    LeadingChar(RequiredPattern, line, 8);
  }

  /** The third shape round-trips, and is taken for neither earlier one: its
      phrase decodes to its four numbers and renders as
      `pass=P/fail=F/req=R  historical=H%`. */
  lemma HistoricalRoundTrip(p: nat, f: nat, rate: nat, req: nat, round: string -> Option<int>)
    requires p <= MaxInt && f <= MaxInt && rate <= MaxInt && req <= MaxInt
    ensures !Matches(PlainPattern, HistoricalLine(p, f, rate, req))
    ensures !Matches(RequiredPattern, HistoricalLine(p, f, rate, req))
    ensures Decode(HistoricalLine(p, f, rate, req)) == HistoricalRate(p, f, rate, req)
    ensures Render(Decode(HistoricalLine(p, f, rate, req)), round) ==
      Some("pass=" + NatToString(p) + "/fail=" + NatToString(f) + "/req=" + NatToString(req)
           + "  historical=" + NatToString(rate) + "%")
  {
    HistoricalDecodes(p, f, rate, req);
  }

  /** The third shape's phrase is taken for neither earlier shape and
      decodes to its four numbers. */
  lemma HistoricalDecodes(p: nat, f: nat, rate: nat, req: nat)
    requires p <= MaxInt && f <= MaxInt && rate <= MaxInt && req <= MaxInt
    ensures !Matches(PlainPattern, HistoricalLine(p, f, rate, req))
    ensures !Matches(RequiredPattern, HistoricalLine(p, f, rate, req))
    ensures Decode(HistoricalLine(p, f, rate, req)) == HistoricalRate(p, f, rate, req)
  {
    var line := HistoricalLine(p, f, rate, req);
    HistoricalNotEarlier(p, f, rate, req);
    HistoricalSubmatch(p, f, rate, req);
    var m := FindSubmatch(HistoricalPattern, line);
    AtoiNatToString(p); AtoiNatToString(f); AtoiNatToString(rate); AtoiNatToString(req);
    assert GroupOf(m, 1) == NatToString(p);
    assert GroupOf(m, 2) == NatToString(f);
    assert GroupOf(m, 3) == NatToString(rate);
    assert GroupOf(m, 4) == NatToString(req);
  }

  /** Decoding reaches pattern `k` when no earlier pattern matches, and
      builds its shape when it matches. */
  lemma DecodeAt(line: string, k: nat)
    requires k < |Chain| && FindSubmatch(Chain[k], line) != []
    requires forall j :: 0 <= j < k ==> FindSubmatch(Chain[j], line) == []
    ensures Decode(line) == Build(k, FindSubmatch(Chain[k], line))
  {
    DecodeFromAt(line, 0, k);
  }

  lemma {:induction false} DecodeFromAt(line: string, i: nat, k: nat)
    requires i <= k < |Chain| && FindSubmatch(Chain[k], line) != []
    requires forall j :: i <= j < k ==> FindSubmatch(Chain[j], line) == []
    ensures DecodeFrom(line, i) == Build(k, FindSubmatch(Chain[k], line))
    decreases k - i
  {
    if i < k {
      DecodeFromAt(line, i + 1, k);
    }
  }

  const MeanLead := "Failed: Mean disruption of "

  /** A backend name the mean-disruption pattern accepts. */
  predicate BackendName(name: string) {
    |name| >= 1 && forall k :: 0 <= k < |name| ==> InClass(LowerOrDash, name[k])
  }

  /** A deviation written as whole and fractional digits. */
  predicate DecimalParts(whole: string, frac: string) {
    |whole| >= 1 && AllDigits(whole) && |frac| >= 1 && AllDigits(frac)
  }

  /** The pieces of the mean-disruption phrase, one per pattern element. */
  function MeanSegments(name: string, whole: string, frac: string): seq<string> {
    [MeanLead, name, " is ", "", whole, ".", frac, "", ThresholdTail]
  }

  /** The mean-disruption phrase as the aggregator writes it: its pieces in
      order. */
  function MeanLine(name: string, whole: string, frac: string): string {
    ConcatFrom(MeanSegments(name, whole, frac), 0)
  }

  /** The mean-disruption phrase spelled out. */
  lemma MeanLineText(name: string, whole: string, frac: string)
    ensures MeanLine(name, whole, frac) == MeanLead + name + " is " + whole + "." + frac + ThresholdTail
  {
    ConcatNine(MeanSegments(name, whole, frac));
  }

  lemma MeanFits(name: string, whole: string, frac: string)
    requires BackendName(name) && DecimalParts(whole, frac)
    ensures Fits(MeanDisruptionPattern, MeanSegments(name, whole, frac), 0, "")
  {
    var segs := MeanSegments(name, whole, frac);
    DigitsInClass(whole); DigitsInClass(frac);
    var q := MeanDisruptionPattern;
    assert ConcatFrom(segs, 8) == ThresholdTail;
    assert ConcatFrom(segs, 7) == ThresholdTail;
    assert Fits(q.tail.tail.tail.tail.tail.tail.tail, segs, 7, "");
    assert (ConcatFrom(segs, 7) + "")[0] == ' ';
    assert Fits(q.tail.tail.tail.tail.tail.tail, segs, 6, "");
    assert Fits(q.tail.tail.tail.tail.tail, segs, 5, "");
    assert ConcatFrom(segs, 5) == "." + ConcatFrom(segs, 6);
    assert (ConcatFrom(segs, 5) + "")[0] == '.';
    assert Fits(q.tail.tail.tail.tail, segs, 4, "");
    assert Fits(q.tail.tail.tail, segs, 3, "");
    assert Fits(q.tail.tail, segs, 2, "");
    assert ConcatFrom(segs, 2) == " is " + ConcatFrom(segs, 3);
    assert (ConcatFrom(segs, 2) + "")[0] == ' ';
    assert Fits(q.tail, segs, 1, "");
  }

  /** The mean-disruption pattern's boundaries: the name's repetition, and
      the two marks around the deviation. */
  lemma MeanMarks(segs: seq<string>)
    requires |segs| == 9 && segs[3] == "" && segs[7] == ""
    ensures var a := |segs[0]|;
      var c := a + |segs[1]| + |segs[2]|;
      FitMarks(MeanDisruptionPattern, segs, 0, 0) ==
        [a, a + |segs[1]|, c, c + |segs[4]| + |segs[5]| + |segs[6]|]
  {
    var q := MeanDisruptionPattern;
    var a := |segs[0]|;
    var b := a + |segs[1]|;
    var c := b + |segs[2]|;
    var d := c + |segs[4]| + |segs[5]| + |segs[6]|;
    var q4 := q.tail.tail.tail.tail;
    assert FitMarks(q4.tail.tail.tail, segs, 7, d) == [d] by {
      assert FitMarks(q4.tail.tail.tail.tail, segs, 8, d) == [];
    }
    assert FitMarks(q4.tail.tail, segs, 6, d - |segs[6]|) == [d];
    assert FitMarks(q4.tail, segs, 5, c + |segs[4]|) == [d];
    assert FitMarks(q4, segs, 4, c) == [d];
    assert FitMarks(q.tail.tail.tail, segs, 3, c) == [c, d];
    assert FitMarks(q.tail.tail, segs, 2, b) == [c, d];
    assert FitMarks(q.tail, segs, 1, a) == [a, b, c, d];
  }

  /** The mean-disruption phrase's submatches: the name and the deviation. */
  lemma MeanSubmatch(name: string, whole: string, frac: string)
    requires BackendName(name) && DecimalParts(whole, frac)
    ensures FindSubmatch(MeanDisruptionPattern, MeanLine(name, whole, frac)) ==
      [MeanLine(name, whole, frac), name, whole + "." + frac]
  {
    var segs := MeanSegments(name, whole, frac);
    MeanFits(name, whole, frac);
    MeanSegmentGroups(segs, MeanLine(name, whole, frac));
    NineSlices(segs);
    assert segs[3] + segs[4] + segs[5] + segs[6] == whole + "." + frac;
  }

  /** The submatches of any fitting split of a text into the pattern's nine
      pieces. */
  lemma MeanSegmentGroups(segs: seq<string>, line: string)
    requires |segs| == 9 && segs[3] == "" && segs[7] == ""
    requires Fits(MeanDisruptionPattern, segs, 0, "") && line == ConcatFrom(segs, 0)
    ensures var a := |segs[0]|;
      var c := a + |segs[1]| + |segs[2]|;
      var d := c + |segs[4]| + |segs[5]| + |segs[6]|;
      a <= a + |segs[1]| <= c <= d <= |line| &&
      FindSubmatch(MeanDisruptionPattern, line) == [line, line[a..a + |segs[1]|], line[c..d]]
  {
    FitsGroups(MeanDisruptionPattern, segs, line);
    MeanMarks(segs);
    var a := |segs[0]|;
    var c := a + |segs[1]| + |segs[2]|;
    MarkedGroups(FindSubmatch(MeanDisruptionPattern, line), line, FitMarks(MeanDisruptionPattern, segs, 0, 0),
      a, a + |segs[1]|, c, c + |segs[4]| + |segs[5]| + |segs[6]|);
  }


  /** The mean-disruption phrase has neither 'P' nor '('. */
  lemma MeanLacks(name: string, whole: string, frac: string)
    requires BackendName(name) && DecimalParts(whole, frac)
    ensures 'P' !in MeanLine(name, whole, frac) && '(' !in MeanLine(name, whole, frac)
  {
    var segs := MeanSegments(name, whole, frac);
    ConcatNine(segs);
    DigitsInClass(whole); DigitsInClass(frac);
    MeanFillersFree('P'); MeanFillersFree('(');
    assert forall k :: 0 <= k < |name| ==> name[k] != 'P' && name[k] != '(';
    assert forall k :: 0 <= k < |whole| ==> whole[k] != '(';
    assert forall k :: 0 <= k < |frac| ==> frac[k] != '(';
    ConcatFree(segs, 0, 'P');
    ConcatFree(segs, 0, '(');
  }

  /** The fixed words of the mean-disruption phrase hold no `x`. */
  predicate MeanFillersLack(x: char) {
    x !in MeanLead && x !in ThresholdTail && x !in " is " && x !in "."
  }

  lemma MeanFillersFree(x: char)
    requires x in "P("
    ensures MeanFillersLack(x)
  {
  }

  /** The sixth shape round-trips, and is taken for no earlier one: its
      phrase decodes to its deviation and renders as
      `pass=?/fail=?/req=? dev=D disruption`. */
  lemma MeanRoundTrip(name: string, whole: string, frac: string, round: string -> Option<int>)
    requires BackendName(name) && DecimalParts(whole, frac)
    ensures forall j :: 0 <= j < 5 ==> !Matches(Chain[j], MeanLine(name, whole, frac))
    ensures Decode(MeanLine(name, whole, frac)) == MeanDisruption(whole + "." + frac)
    ensures Render(Decode(MeanLine(name, whole, frac)), round) ==
      Some("pass=?/fail=?/req=? dev=" + (whole + "." + frac) + " disruption")
  {
    var line := MeanLine(name, whole, frac);
    MeanNotEarlier(name, whole, frac);
    MeanSubmatch(name, whole, frac);
    DecodeAt(line, 5);
  }

  /** No earlier pattern matches the mean-disruption phrase: it has no 'P'
      and no '('. */
  lemma MeanNotEarlier(name: string, whole: string, frac: string)
    requires BackendName(name) && DecimalParts(whole, frac)
    ensures forall j :: 0 <= j < 5 ==> FindSubmatch(Chain[j], MeanLine(name, whole, frac)) == []
  {
    var line := MeanLine(name, whole, frac);
    MeanLacks(name, whole, frac);
    forall j | 0 <= j < 5
      ensures FindSubmatch(Chain[j], line) == []
    {
      ChainLitChars();
      if j == 3 {
        MissingChar(DurationsPattern, line, '(');
      } else {
        MissingChar(Chain[j], line, 'P');
      }
    }
  }

  /** The pieces of the old disruption phrase, one per pattern element; both
      `.*` take nothing. */
  function OldSegments(p: nat, f: nat, req: nat): seq<string> {
    ["Failed: Passed ", NatToString(p), " times, failed ", NatToString(f), " times", ".",
     "  (", "", RequiredPassesLead, NatToString(req), "", ")"]
  }
  const RequiredPassesLead := "requiredPasses="

  /** The old disruption phrase as the aggregator wrote it: its pieces in
      order. */
  function OldLine(p: nat, f: nat, req: nat): string {
    ConcatFrom(OldSegments(p, f, req), 0)
  }

  lemma OldFits(p: nat, f: nat, req: nat)
    ensures Fits(OldDisruptionPattern, OldSegments(p, f, req), 0, "")
  {
    var segs := OldSegments(p, f, req);
    DigitsInClass(segs[1]); DigitsInClass(segs[3]);
    OldTailFits(p, f, req);
    var q4 := OldDisruptionPattern.tail.tail.tail.tail;
    assert Fits(q4.tail.tail, segs, 6, "");
    assert Fits(q4, segs, 4, "");
    assert ConcatFrom(segs, 4) == " times" + ConcatFrom(segs, 5);
    assert (ConcatFrom(segs, 4) + "")[0] == ' ';
    assert Fits(OldDisruptionPattern.tail.tail, segs, 2, "");
    assert ConcatFrom(segs, 2) == " times, failed " + ConcatFrom(segs, 3);
    assert (ConcatFrom(segs, 2) + "")[0] == ' ';
    assert Fits(OldDisruptionPattern.tail, segs, 1, "");
  }

  /** From the first `.*` on: both `.*` back off to nothing, as
      "requiredPasses=" and the closing parenthesis occur once. */
  lemma OldTailFits(p: nat, f: nat, req: nat)
    ensures Fits(OldDisruptionPattern.tail.tail.tail.tail.tail.tail.tail, OldSegments(p, f, req), 7, "")
  {
    var segs := OldSegments(p, f, req);
    var r := segs[9];
    var q := OldDisruptionPattern.tail.tail.tail.tail.tail.tail.tail;
    OldParenFits(p, f, req);
    assert ConcatFrom(segs, 9) == r + ")";
    assert ConcatFrom(segs, 8) == RequiredPassesLead + (r + ")");
    assert Fits(q, segs, 7, "") by {
      DigitsLack(r);
      LitOnce(RequiredPassesLead, r + ")", 2);
      assert "" + (ConcatFrom(segs, 8) + "") == RequiredPassesLead + (r + ")");
    }
  }

  /** The required passes and the closing parenthesis, the second `.*`
      taking nothing. */
  lemma OldParenFits(p: nat, f: nat, req: nat)
    ensures Fits(OldDisruptionPattern.tail.tail.tail.tail.tail.tail.tail.tail.tail, OldSegments(p, f, req), 9, "")
    ensures ConcatFrom(OldSegments(p, f, req), 10) == ")"
  {
    var segs := OldSegments(p, f, req);
    var q := OldDisruptionPattern.tail.tail.tail.tail.tail.tail.tail.tail.tail;
    assert ConcatFrom(segs, 12) == "";
    assert ConcatFrom(segs, 11) == ")";
    assert ConcatFrom(segs, 10) == ")";
    assert Fits(q.tail.tail, segs, 11, "");
    assert Fits(q.tail, segs, 10, "") by {
      LitOnce(")", "", 0);
      assert "" + (ConcatFrom(segs, 11) + "") == ")" + "";
    }
    DigitsInClass(segs[9]);
    assert (ConcatFrom(segs, 10) + "")[0] == ')';
  }

  /** The old disruption pattern captures the three counts. */
  lemma OldCaptures(segs: seq<string>)
    requires |segs| == 12
    ensures MarkFree(OldDisruptionPattern)
    ensures FitCaptures(OldDisruptionPattern, segs, 0) == [segs[1], segs[3], segs[9]]
  {
    var q := OldDisruptionPattern;
    var q4 := q.tail.tail.tail.tail;
    OldLastCaptures(segs);
    assert MarkFree(q4) && MarkFree(q);
    assert FitCaptures(q4, segs, 4) == [segs[9]];
    assert FitCaptures(q.tail, segs, 1) == [segs[1], segs[3], segs[9]];
  }

  /** The last four elements of the old pattern capture the required
      passes. */
  lemma OldLastCaptures(segs: seq<string>)
    requires |segs| == 12
    ensures var q8 := OldDisruptionPattern.tail.tail.tail.tail.tail.tail.tail.tail;
      MarkFree(q8) && FitCaptures(q8, segs, 8) == [segs[9]]
  {
    var q8 := OldDisruptionPattern.tail.tail.tail.tail.tail.tail.tail.tail;
    assert FitCaptures(q8.tail.tail, segs, 10) == [] by {
      assert FitCaptures(q8.tail.tail.tail.tail, segs, 12) == [];
    }
  }

  /** The submatches of any fitting split of a text into the old pattern's
      twelve pieces. */
  lemma OldSegmentGroups(segs: seq<string>, line: string)
    requires |segs| == 12 && Fits(OldDisruptionPattern, segs, 0, "") && line == ConcatFrom(segs, 0)
    ensures FindSubmatch(OldDisruptionPattern, line) == [line, segs[1], segs[3], segs[9]]
  {
    OldCaptures(segs);
    FitsSubmatch(OldDisruptionPattern, segs, line);
  }

  lemma OldSubmatch(p: nat, f: nat, req: nat)
    ensures FindSubmatch(OldDisruptionPattern, OldLine(p, f, req)) ==
      [OldLine(p, f, req), NatToString(p), NatToString(f), NatToString(req)]
  {
    OldFits(p, f, req);
    OldSegmentGroups(OldSegments(p, f, req), OldLine(p, f, req));
  }

  /** The old disruption phrase has no 'k', '%' or '['. */
  lemma OldLacks(p: nat, f: nat, req: nat)
    ensures var line := OldLine(p, f, req); 'k' !in line && '%' !in line && '[' !in line
  {
    var segs := OldSegments(p, f, req);
    DigitsLack(segs[1]); DigitsLack(segs[3]); DigitsLack(segs[9]);
    OldFillersFree('k'); OldFillersFree('%'); OldFillersFree('[');
    ConcatFree(segs, 0, 'k');
    ConcatFree(segs, 0, '%');
    ConcatFree(segs, 0, '[');
  }

  /** The fixed words of the old disruption phrase hold no `x`. */
  predicate OldFillersLack(x: char) {
    x !in "Failed: Passed " && x !in " times, failed " && x !in RequiredPassesLead && x !in " times"
  }

  lemma OldFillersFree(x: char)
    requires x in "k%["
    ensures OldFillersLack(x)
  {
  }

  /** No earlier pattern matches the old disruption phrase. */
  lemma OldNotEarlier(p: nat, f: nat, req: nat)
    ensures forall j :: 0 <= j < 4 ==> FindSubmatch(Chain[j], OldLine(p, f, req)) == []
  {
    var line := OldLine(p, f, req);
    OldLacks(p, f, req);
    forall j | 0 <= j < 4
      ensures FindSubmatch(Chain[j], line) == []
    {
      if j < 2 {
        SkippedChar();
        MissingChar(Chain[j], line, 'k');
      } else if j == 2 {
        PercentChar();
        MissingChar(HistoricalPattern, line, '%');
      } else {
        BracketChar();
        MissingChar(DurationsPattern, line, '[');
      }
    }
  }

  /** The fifth shape round-trips, and is taken for no earlier one: its
      phrase decodes to its three numbers and renders as
      `pass=P/fail=F/req=R disruption`. */
  lemma OldRoundTrip(p: nat, f: nat, req: nat, round: string -> Option<int>)
    requires p <= MaxInt && f <= MaxInt && req <= MaxInt
    ensures forall j :: 0 <= j < 4 ==> !Matches(Chain[j], OldLine(p, f, req))
    ensures Decode(OldLine(p, f, req)) == OldDisruption(p, f, req)
    ensures Render(Decode(OldLine(p, f, req)), round) ==
      Some("pass=" + NatToString(p) + "/fail=" + NatToString(f) + "/req=" + NatToString(req) + " disruption")
  {
    OldNotEarlier(p, f, req);
    OldDecodes(p, f, req);
  }

  /** The fifth shape's phrase decodes to its three numbers. */
  lemma OldDecodes(p: nat, f: nat, req: nat)
    requires p <= MaxInt && f <= MaxInt && req <= MaxInt
    ensures Decode(OldLine(p, f, req)) == OldDisruption(p, f, req)
  {
    var line := OldLine(p, f, req);
    OldNotEarlier(p, f, req);
    OldSubmatch(p, f, req);
    DecodeAt(line, 4);
    var m := FindSubmatch(OldDisruptionPattern, line);
    AtoiNatToString(p); AtoiNatToString(f); AtoiNatToString(req);
    assert GroupOf(m, 1) == NatToString(p);
    assert GroupOf(m, 2) == NatToString(f);
    assert GroupOf(m, 3) == NatToString(req);
  }

  /** A duration as the aggregator prints it: digits and dots. */
  predicate DurationText(v: string) {
    |v| >= 1 && forall k :: 0 <= k < |v| ==> InClass(DigitOrDot, v[k])
  }

  /** A failure list the duration-list pattern reads whole: one line with no
      opening bracket, and without the letters the count patterns need. */
  predicate FailureList(list: string) {
    '\n' !in list && '[' !in list && 'k' !in list && '%' !in list
  }

  /** The percentile group the duration-list pattern captures: `Pn=vs`. */
  function Percentile(n: nat, v: string): string {
    "P" + (NatToString(n) + ("=" + (v + "s")))
  }

  /** The pieces of the duration-list phrase, one per pattern element; the
      `.*` between the percentile and the failures takes nothing. */
  function DurationSegments(n: nat, v: string, list: string): seq<string> {
    ["(", "", "P", NatToString(n), "=", v, "s", "", "", FailuresLead, list, "]"]
  }
  const FailuresLead := " failures=["

  /** The duration-list phrase as the aggregator writes it: its pieces in
      order. */
  function DurationLine(n: nat, v: string, list: string): string {
    ConcatFrom(DurationSegments(n, v, list), 0)
  }

  lemma DurationFits(n: nat, v: string, list: string)
    requires DurationText(v) && FailureList(list)
    ensures Fits(DurationsPattern, DurationSegments(n, v, list), 0, "")
  {
    var segs := DurationSegments(n, v, list);
    var q := DurationsPattern;
    DurationTailFits(n, v, list);
    DigitsInClass(segs[3]);
    assert Fits(q.tail.tail.tail.tail.tail.tail.tail, segs, 7, "");
    assert Fits(q.tail.tail.tail.tail.tail.tail, segs, 6, "");
    assert ConcatFrom(segs, 6) == "s" + ConcatFrom(segs, 7);
    assert (ConcatFrom(segs, 6) + "")[0] == 's';
    assert Fits(q.tail.tail.tail.tail.tail, segs, 5, "");
    assert Fits(q.tail.tail.tail.tail, segs, 4, "");
    assert ConcatFrom(segs, 4) == "=" + ConcatFrom(segs, 5);
    assert (ConcatFrom(segs, 4) + "")[0] == '=';
    assert Fits(q.tail.tail.tail, segs, 3, "");
    assert Fits(q.tail, segs, 1, "");
  }

  /** From the `.*` on: it backs off to nothing, as the failures' opening
      bracket occurs once, and the failure group backs off before the closing
      bracket. */
  lemma DurationTailFits(n: nat, v: string, list: string)
    requires FailureList(list)
    ensures Fits(DurationsPattern.tail.tail.tail.tail.tail.tail.tail.tail, DurationSegments(n, v, list), 8, "")
  {
    var segs := DurationSegments(n, v, list);
    var q := DurationsPattern.tail.tail.tail.tail.tail.tail.tail.tail;
    assert ConcatFrom(segs, 12) == "";
    assert ConcatFrom(segs, 11) == "]";
    assert ConcatFrom(segs, 10) == list + "]";
    assert ConcatFrom(segs, 9) == FailuresLead + (list + "]");
    assert Fits(q.tail.tail.tail, segs, 11, "");
    assert Fits(q.tail.tail, segs, 10, "") by {
      assert forall k :: 0 <= k < |list| ==> list[k] != '\n';
      assert BacksOff(q.tail.tail, list, ConcatFrom(segs, 11) + "");
    }
    assert Fits(q.tail, segs, 9, "");
    assert Fits(q, segs, 8, "") by {
      LitOnce(FailuresLead, list + "]", 10);
      assert "" + (ConcatFrom(segs, 9) + "") == FailuresLead + (list + "]");
    }
  }

  /** The duration-list pattern's boundaries: the marks around the
      percentile and the failure group's repetition. */
  lemma DurationMarks(segs: seq<string>)
    requires |segs| == 12 && segs[1] == "" && segs[7] == "" && segs[8] == ""
    ensures var a := |segs[0]|;
      var b := a + |segs[1]| + |segs[2]| + |segs[3]| + |segs[4]| + |segs[5]| + |segs[6]|;
      var d := b + |segs[7]| + |segs[8]| + |segs[9]|;
      FitMarks(DurationsPattern, segs, 0, 0) == [a, b, d, d + |segs[10]|]
  {
    var q := DurationsPattern;
    var a := |segs[0]|;
    var b := a + |segs[1]| + |segs[2]| + |segs[3]| + |segs[4]| + |segs[5]| + |segs[6]|;
    var d := b + |segs[7]| + |segs[8]| + |segs[9]|;
    var e := d + |segs[10]|;
    var q7 := q.tail.tail.tail.tail.tail.tail.tail;
    assert FitMarks(q7.tail.tail.tail, segs, 10, d) == [d, e] by {
      assert FitMarks(q7.tail.tail.tail.tail.tail, segs, 12, e + 1) == [];
      assert FitMarks(q7.tail.tail.tail.tail, segs, 11, e) == [];
    }
    assert FitMarks(q7, segs, 7, b) == [b, d, e];
    var c5 := a + |segs[2]| + |segs[3]| + |segs[4]|;
    assert FitMarks(q.tail.tail.tail.tail.tail, segs, 5, c5) == [b, d, e];
    assert FitMarks(q.tail.tail, segs, 2, a) == [b, d, e];
    assert FitMarks(q.tail, segs, 1, a) == [a, b, d, e];
  }

  /** The duration-list phrase matches, its groups marked where the
      pattern's pieces fall. */
  lemma DurationMatch(n: nat, v: string, list: string)
    requires DurationText(v) && FailureList(list)
    ensures var segs := DurationSegments(n, v, list);
      var line := DurationLine(n, v, list);
      Ordered(FitMarks(DurationsPattern, segs, 0, 0), 0, |line|) &&
      FindSubmatch(DurationsPattern, line) == [line] + Groups(line, FitMarks(DurationsPattern, segs, 0, 0))
  {
    DurationFits(n, v, list);
    FitsGroups(DurationsPattern, DurationSegments(n, v, list), DurationLine(n, v, list));
  }

  /** The groups of a match of the duration-list pattern over twelve pieces,
      with its boundaries `ms` where the pattern's pieces fall: the pieces
      from the first mark to the second, and the failure group's piece. */
  lemma DurationGroups(segs: seq<string>, line: string, m: seq<string>, ms: seq<nat>)
    requires |segs| == 12 && line == ConcatFrom(segs, 0)
    requires var a := |segs[0]|;
      var b := a + |segs[1]| + |segs[2]| + |segs[3]| + |segs[4]| + |segs[5]| + |segs[6]|;
      var d := b + |segs[7]| + |segs[8]| + |segs[9]|;
      ms == [a, b, d, d + |segs[10]|]
    requires Ordered(ms, 0, |line|) && m == [line] + Groups(line, ms)
    ensures m == [line, segs[1] + (segs[2] + (segs[3] + (segs[4] + (segs[5] + segs[6])))), segs[10]]
  {
    var mid := segs[1] + (segs[2] + (segs[3] + (segs[4] + (segs[5] + segs[6]))));
    var a := |segs[0]|;
    var d := a + |mid| + |segs[7]| + |segs[8]| + |segs[9]|;
    MarkedGroups(m, line, ms, a, a + |mid|, d, d + |segs[10]|);
    TwelveSlices(segs);
  }

  /** The duration-list phrase's submatches: the percentile and the list. */
  lemma DurationSubmatch(n: nat, v: string, list: string)
    requires DurationText(v) && FailureList(list)
    ensures FindSubmatch(DurationsPattern, DurationLine(n, v, list)) ==
      [DurationLine(n, v, list), Percentile(n, v), list]
  {
    var segs := DurationSegments(n, v, list);
    var line := DurationLine(n, v, list);
    DurationPieces(n, v, list);
    DurationMatch(n, v, list);
    DurationMarks(segs);
    DurationGroups(segs, line, FindSubmatch(DurationsPattern, line), FitMarks(DurationsPattern, segs, 0, 0));
  }

  /** The pieces from the second to the seventh spell the percentile, and
      the eleventh is the list. */
  lemma DurationPieces(n: nat, v: string, list: string)
    ensures var segs := DurationSegments(n, v, list);
      && |segs| == 12 && segs[1] == "" && segs[7] == "" && segs[8] == "" && segs[10] == list
      && segs[1] + (segs[2] + (segs[3] + (segs[4] + (segs[5] + segs[6])))) == Percentile(n, v)
  {
    assert [] + Percentile(n, v) == Percentile(n, v);
  }

  /** The duration-list phrase has no 'k' and no '%'. */
  lemma DurationLacks(n: nat, v: string, list: string)
    requires DurationText(v) && FailureList(list)
    ensures 'k' !in DurationLine(n, v, list) && '%' !in DurationLine(n, v, list)
  {
    var segs := DurationSegments(n, v, list);
    DigitsLack(segs[3]);
    assert forall k :: 0 <= k < |v| ==> v[k] != 'k' && v[k] != '%';
    assert 'k' !in FailuresLead && '%' !in FailuresLead;
    ConcatFree(segs, 0, 'k');
    ConcatFree(segs, 0, '%');
  }

  /** No earlier pattern matches the duration-list phrase. */
  lemma DurationNotEarlier(n: nat, v: string, list: string)
    requires DurationText(v) && FailureList(list)
    ensures forall j :: 0 <= j < 3 ==> FindSubmatch(Chain[j], DurationLine(n, v, list)) == []
  {
    var line := DurationLine(n, v, list);
    DurationLacks(n, v, list);
    forall j | 0 <= j < 3
      ensures FindSubmatch(Chain[j], line) == []
    {
      if j < 2 {
        SkippedChar();
        MissingChar(Chain[j], line, 'k');
      } else {
        PercentChar();
        MissingChar(HistoricalPattern, line, '%');
      }
    }
  }

  /** The fourth shape's phrase is taken for no earlier shape and decodes to
      its percentile and failure list. */
  lemma DurationDecodes(n: nat, v: string, list: string)
    requires DurationText(v) && FailureList(list)
    ensures forall j :: 0 <= j < 3 ==> !Matches(Chain[j], DurationLine(n, v, list))
    ensures Decode(DurationLine(n, v, list)) == DurationList(Percentile(n, v), list)
  {
    var line := DurationLine(n, v, list);
    DurationNotEarlier(n, v, list);
    DurationSubmatch(n, v, list);
    DecodeAt(line, 3);
  }

  /** The fourth shape round-trips: its phrase renders as the percentile and
      the failures' durations in ascending order. */
  lemma DurationRoundTrip(n: nat, v: string, list: string, round: string -> Option<int>,
                          vs: seq<int>, sorted: seq<int>)
    requires DurationText(v) && FailureList(list)
    requires Values(Split(list, " "), round) == Some(vs)
    requires Sorted(sorted) && multiset(sorted) == multiset(vs)
    ensures Decode(DurationLine(n, v, list)) == DurationList(Percentile(n, v), list)
    ensures Render(Decode(DurationLine(n, v, list)), round) ==
      Some("pass=0/fail=10/req=? disruption, " + Percentile(n, v) + ", " + JoinInts(sorted))
  {
    DurationDecodes(n, v, list);
    DurationRendered(Percentile(n, v), list, round, vs, sorted);
  }

  /** A duration list renders with its values in ascending order. */
  lemma DurationRendered(pct: string, list: string, round: string -> Option<int>, vs: seq<int>, sorted: seq<int>)
    requires Values(Split(list, " "), round) == Some(vs)
    requires Sorted(sorted) && multiset(sorted) == multiset(vs)
    ensures Render(DurationList(pct, list), round) ==
      Some("pass=0/fail=10/req=? disruption, " + pct + ", " + JoinInts(sorted))
  {
    SortedDurationsJoined(list, round, vs, sorted);
  }

  /** A failure without `=` makes the fourth shape's rendering panic. */
  lemma DurationPanics(n: nat, v: string, list: string, round: string -> Option<int>)
    requires DurationText(v) && FailureList(list) && !AllPaired(Split(list, " "))
    ensures Render(Decode(DurationLine(n, v, list)), round).None?
  {
    DurationDecodes(n, v, list);
  }

  /** Characters the literals of the earlier patterns need. */
  lemma ChainLitChars()
    ensures HasLitChar(PlainPattern, 'P') && HasLitChar(RequiredPattern, 'P')
    ensures HasLitChar(HistoricalPattern, 'P') && HasLitChar(OldDisruptionPattern, 'P')
    ensures HasLitChar(DurationsPattern, '(')
  {
    assert "Passed "[0] == 'P' && "Failed: Passed "[8] == 'P' && "("[0] == '(';
  }

  /** The "skipped" the two count patterns need. */
  lemma SkippedChar()
    ensures HasLitChar(PlainPattern, 'k') && HasLitChar(RequiredPattern, 'k')
  {
    assert " times, skipped "[9] == 'k';
    var q := PlainPattern;
    var r := RequiredPattern;
    assert HasLitChar(q.tail.tail.tail.tail, 'k') && HasLitChar(r.tail.tail.tail.tail, 'k');
    assert HasLitChar(q.tail.tail.tail, 'k') && HasLitChar(r.tail.tail.tail, 'k');
    assert HasLitChar(q.tail.tail, 'k') && HasLitChar(r.tail.tail, 'k');
    assert HasLitChar(q.tail, 'k') && HasLitChar(r.tail, 'k');
  }

  /** The percent sign the historical-rate pattern needs. */
  lemma PercentChar()
    ensures HasLitChar(HistoricalPattern, '%')
  {
    var q := HistoricalPattern.tail.tail.tail.tail;
    assert "%"[0] == '%';
    assert HasLitChar(q.tail.tail.tail.tail, '%');
    assert HasLitChar(q.tail.tail, '%');
    assert HasLitChar(q, '%');
    assert HasLitChar(HistoricalPattern.tail.tail, '%');
  }

  /** The bracket the duration-list pattern needs. */
  lemma BracketChar()
    ensures HasLitChar(DurationsPattern, '[')
  {
    var q := DurationsPattern.tail.tail.tail.tail;
    assert " failures=["[10] == '[';
    assert HasLitChar(q.tail.tail.tail.tail.tail, '[');
    assert HasLitChar(q, '[');
  }

  /** A summary with none of the characters 'P', 'F' and '(' matches no
      shape: it is kept as it is and rendered with " (?disruption)". */
  lemma UnrecognisedKept(line: string, round: string -> Option<int>)
    requires 'P' !in line && 'F' !in line && '(' !in line
    ensures Decode(line) == Unrecognised(line)
    ensures Render(Decode(line), round) == Some(line + " (?disruption)")
  {
    NoShapeMatches(line);
  }

  /** Every shape pattern needs one of the characters 'P', 'F' and '('. */
  lemma NoShapeMatches(line: string)
    requires 'P' !in line && 'F' !in line && '(' !in line
    ensures forall j :: 0 <= j < |Chain| ==> !Matches(Chain[j], line)
  {
    forall j | 0 <= j < |Chain|
      ensures !Matches(Chain[j], line)
    {
      if j == 0 {
        assert HasLitChar(PlainPattern, 'P') by { assert "Passed "[0] == 'P'; }
        MissingChar(PlainPattern, line, 'P');
      } else if j == 1 {
        assert HasLitChar(RequiredPattern, 'P') by { assert "Passed "[0] == 'P'; }
        MissingChar(RequiredPattern, line, 'P');
      } else if j == 2 {
        assert HasLitChar(HistoricalPattern, 'F') by { assert "Failed: Passed "[0] == 'F'; }
        MissingChar(HistoricalPattern, line, 'F');
      } else if j == 3 {
        assert HasLitChar(DurationsPattern, '(') by { assert "("[0] == '('; }
        MissingChar(DurationsPattern, line, '(');
      } else if j == 4 {
        assert HasLitChar(OldDisruptionPattern, 'F') by { assert "Failed: Passed "[0] == 'F'; }
        MissingChar(OldDisruptionPattern, line, 'F');
      } else {
        assert HasLitChar(MeanDisruptionPattern, 'F') by { assert "Failed: Mean disruption of "[0] == 'F'; }
        MissingChar(MeanDisruptionPattern, line, 'F');
      }
    }
  }

}
