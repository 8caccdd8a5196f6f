/** The failure scan of `PrintAggrSummaryTests`: a walk over the lines of an
    aggregated job's `aggregation-testrun-summary.html` that prints every
    `Failed: ` line with the decoded summary on the line after it, counts
    failures and disruption failures, stops after `MaxTests` counted tests,
    and warns when the page shows neither failures nor passes. */
module FailureScan {
  import opened Common
  import opened Strings
  import opened Durations
  import opened Summary

  /** Longest failed-test name printed. */
  const MaxChar := 175
  /** Counted tests printed before the scan gives up. */
  const MaxTests := 20

  /** The text of the storage viewer's page for a missing artifact. */
  const NotServing := "The application is currently not" + " serving requests at this endpoint." +
    " It may not have been started or" + " is still starting"

  /** The load-balancer test that is reported as a disruption. */
  const PdbPhrase := "Application behind service load" + " balancer with PDB remains" + " available using new connections"

  /** A test name that is reported as a disruption (orange) rather than as a
      plain failure (purple); the same test is made by the JUnit classifier. */
  predicate IsDisruptionName(name: string) {
    Contains(name, "disruption") || Contains(name, PdbPhrase)
  }

  /** The failed test's line as printed: its first `<b>` and first `</b>`
      removed, then cut to `MaxChar` characters. */
  function Headline(line: string): (r: string)
    ensures |r| <= MaxChar
    ensures HasPrefix(ReplaceFirst(ReplaceFirst(line, "<b>", ""), "</b>", ""), r)
    ensures |ReplaceFirst(ReplaceFirst(line, "<b>", ""), "</b>", "")| <= MaxChar ==>
      r == ReplaceFirst(ReplaceFirst(line, "<b>", ""), "</b>", "")
  {
    var plain := ReplaceFirst(ReplaceFirst(line, "<b>", ""), "</b>", "");
    if |plain| > MaxChar then plain[..MaxChar] else plain
  }

  /** The summary line with its first `<p>` and first `</p>` removed. */
  function SummaryText(line: string): string {
    ReplaceFirst(ReplaceFirst(line, "<p>", ""), "</p>", "")
  }

  const OldShapeNote1 := "If you see the old disruption pattern" + " getting matched, consider keeping it"
  const OldShapeNote2 := "If it's significantly later than Mar" + " 20, 2023, then consider removing" + " this pattern"

  /** The warning printed when the scan gives up: `fmt.Println` of a line
      break, a space, the red colour code, the phrase, `MaxTests` and a row
      of stars, so that every operand is followed by a space but the last. */
  const Truncation := Line(Alert, "\n    THERE ARE MORE THAN 20  " + "*********************************\n ")

  /** The line printed for a missing-artifact page. */
  const Unavailable := Line(Plain, "    Aggregated job summary unavailable")

  /** The warning printed when the page shows no result at all: the red
      colour code, the message and the reset code, printed with
      `fmt.Println`. */
  const Notice := Line(Alert, "    No failures found (aggregation" + "-testrun-summary.html is probably" + " missing) ")

  /** The number of lines printed with severity `sev`. */
  function CountSev(out: seq<Line>, sev: Severity): (n: nat)
    ensures n <= |out|
  {
    if out == [] then 0 else CountSev(out[..|out| - 1], sev) + (if out[|out| - 1].sev == sev then 1 else 0)
  }

  lemma {:induction false} CountSevAppend(a: seq<Line>, b: seq<Line>, sev: Severity)
    ensures CountSev(a + b, sev) == CountSev(a, sev) + CountSev(b, sev)
    decreases |b|
  {
    if b != [] {
      assert (a + b)[..|a + b| - 1] == a + b[..|b| - 1];
      CountSevAppend(a, b[..|b| - 1], sev);
    } else {
      assert a + b == a;
    }
  }

  /** What one failure prints, how much it adds to the disruption count and
      whether it counts towards `MaxTests`. */
  datatype Report = Report(lines: seq<Line>, disruptions: nat, counted: bool)

  /** The report for a failed test's printed name and its decoded summary;
      `None` where sorting a duration list panics. */
  function ReportFor(name: string, sh: Shape, round: string -> Option<int>): (r: Option<Report>)
    ensures r.None? <==> Render(sh, round).None?
    ensures r.Some? ==>
      && |r.value.lines| >= 2
      && r.value.lines[0] == Line(if IsDisruptionName(name) then Disruption else Failing, "    " + name)
      && (forall k :: 1 <= k < |r.value.lines| ==> r.value.lines[k].sev == Plain)
      && (r.value.counted <==> !IsDisruptionName(name))
      && (if r.value.counted then 0 else 1) <= r.value.disruptions <= (if r.value.counted then 1 else 2)
    ensures r.Some? ==>
      && r.value.lines[1..] == (if sh.OldDisruption? then [Line(Plain, OldShapeNote1), Line(Plain, OldShapeNote2)] else [])
                               + [Line(Plain, "      " + Render(sh, round).value)]
      && r.value.disruptions == (if IsDisruptionName(name) then 1 else 0)
                                + (if sh.Unrecognised? && HasPrefix(sh.text, BackendSuite) then 1 else 0)
  {
    var disruptive := IsDisruptionName(name);
    BackendKept(sh);
    match Render(sh, round)
    case None => None
    case Some(text) =>
      var notes := if sh.OldDisruption? then [Line(Plain, OldShapeNote1), Line(Plain, OldShapeNote2)] else [];
      var backend := sh.Unrecognised? && HasPrefix(text, BackendSuite);
      var summary := Println(["     ", text]);
      PrintlnPair("     ", text);
      assert "     " + " " == "      ";
      var head := Line(if disruptive then Disruption else Failing, "    " + name);
      assert ([head] + notes + [Line(Plain, summary)])[1..] == notes + [Line(Plain, summary)];
      Some(Report([head] + notes + [Line(Plain, summary)],
                  (if disruptive then 1 else 0) + (if backend then 1 else 0),
                  !disruptive))
  }

  /** How an unrecognised summary from the backend disruption suite begins. */
  const BackendSuite := "suite=[BackendDisruption"

  /** Marking an unrecognised summary keeps the backend suite's prefix, and
      makes none: the prefix has no space where the mark begins. */
  lemma BackendKept(sh: Shape)
    ensures sh.Unrecognised? ==>
      (HasPrefix(sh.text + " (?disruption)", BackendSuite) <==> HasPrefix(sh.text, BackendSuite))
  {
    if sh.Unrecognised? {
      var text := sh.text;
      var t := text + " (?disruption)";
      assert t[|text|] == ' ';
      if HasPrefix(t, BackendSuite) {
        assert forall j :: 0 <= j < |BackendSuite| ==> t[j] == BackendSuite[j] != ' ';
      }
      if HasPrefix(text, BackendSuite) {
        assert t[..|BackendSuite|] == text[..|BackendSuite|];
      }
    }
  }

  /** The report for a `Failed: ` line and the summary line after it. */
  function FailureReport(header: string, next: string, round: string -> Option<int>): Option<Report> {
    ReportFor(Headline(header), Decode(SummaryText(next)), round)
  }

  /** What the scan prints and counts for a `Failed: ` line and the line
      after it; `None` where that panics. */
  type Reporter = (string, string) -> Option<Report>

  /** The tool's reporter. */
  function Reports(round: string -> Option<int>): Reporter {
    (header, next) => FailureReport(header, next, round)
  }

  /** The scan's variables: `testsPrinted`, `disruptionFailureCount`,
      `totalFailures`, `foundFailures`, `foundPassOrSkipped`, and what has
      been printed. */
  datatype Scan = Scan(printed: nat, disruptions: nat, failures: nat,
                       foundFailures: bool, foundPassOrSkipped: bool, out: seq<Line>)

  const Start := Scan(0, 0, 0, false, false, [])

  /** The checks made on every line the scan visits, the consumed summary
      line included. */
  function Visit(line: string, st: Scan): Scan {
    st.(foundPassOrSkipped := st.foundPassOrSkipped || HasPrefix(line, "Skipped:") || HasPrefix(line, "Passed"),
        out := st.out + if Contains(line, NotServing) then [Unavailable] else [])
  }

  /** The state after one failure was reported. */
  function Reported(st: Scan, rep: Report): Scan {
    st.(foundFailures := true, failures := st.failures + 1,
        disruptions := st.disruptions + rep.disruptions, out := st.out + rep.lines)
  }

  /** The scan from line `i` on; `None` where it panics: a `Failed: ` line
      with no line after it, or a report that panics. */
  function ScanFrom(lines: seq<string>, i: nat, st: Scan, report: Reporter): Option<Scan>
    decreases |lines| - i
  {
    if i >= |lines| then Some(st)
    else if !HasPrefix(lines[i], "Failed: ") then ScanFrom(lines, i + 1, Visit(lines[i], st), report)
    else if i + 1 == |lines| then None
    else
      match report(lines[i], lines[i + 1])
      case None => None
      case Some(rep) =>
        var st' := Reported(st, rep);
        if st.printed > MaxTests then Some(st'.(out := st'.out + [Truncation]))
        else ScanFrom(lines, i + 2, Visit(lines[i + 1], st'.(printed := st.printed + if rep.counted then 1 else 0)), report)
  }

  /** A scan that does not panic at a `Failed: ` line has the summary line
      after it and can report it, and goes on as follows. */
  lemma UnfoldFailed(lines: seq<string>, i: nat, st: Scan, report: Reporter)
    requires i < |lines| && HasPrefix(lines[i], "Failed: ") && ScanFrom(lines, i, st, report).Some?
    ensures i + 1 < |lines| && report(lines[i], lines[i + 1]).Some?
    ensures var rep := report(lines[i], lines[i + 1]).value;
      ScanFrom(lines, i, st, report) ==
        if st.printed > MaxTests then Some(Reported(st, rep).(out := Reported(st, rep).out + [Truncation]))
        else ScanFrom(lines, i + 2, Visit(lines[i + 1], Reported(st, rep).(printed := st.printed + if rep.counted then 1 else 0)), report)
  {
  }

  lemma UnfoldOther(lines: seq<string>, i: nat, st: Scan, report: Reporter)
    requires i < |lines| && !HasPrefix(lines[i], "Failed: ")
    ensures ScanFrom(lines, i, st, report) == ScanFrom(lines, i + 1, Visit(lines[i], st), report)
  {
  }

  /** The missing-summary warning, printed when no failure and no pass or
      skip was seen. */
  function Finish(st: Scan): Scan {
    if !st.foundFailures && !st.foundPassOrSkipped then st.(out := st.out + [Notice]) else st
  }

  /** The whole scan of the page's lines. */
  function AggrScan(lines: seq<string>, report: Reporter): Option<Scan> {
    match ScanFrom(lines, 0, Start, report)
    case None => None
    case Some(st) => Some(Finish(st))
  }

  /** A report as the tool prints it: the test's name first, in purple when
      it counts towards `MaxTests` and in orange when it is a disruption,
      then uncoloured lines; a disruption adds one or two to the disruption
      count, any other failure none or one. */
  predicate WellFormed(rep: Report) {
    && |rep.lines| >= 1
    && rep.lines[0].sev == (if rep.counted then Failing else Disruption)
    && (forall k :: 1 <= k < |rep.lines| ==> rep.lines[k].sev == Plain)
    && (if rep.counted then 0 else 1) <= rep.disruptions <= (if rep.counted then 1 else 2)
  }

  /** Every report the reporter gives is well formed. */
  ghost predicate Sound(report: Reporter) {
    forall header, next :: report(header, next).Some? ==> WellFormed(report(header, next).value)
  }

  lemma ReportsSound(round: string -> Option<int>)
    ensures Sound(Reports(round))
  {
    forall header, next | Reports(round)(header, next).Some?
      ensures WellFormed(Reports(round)(header, next).value)
    {
      var rep := FailureReport(header, next, round);
      assert rep.Some?;
    }
  }

  /** Lines after the first that are uncoloured add nothing to a count of
      coloured lines. */
  lemma {:induction false} CountHead(out: seq<Line>, sev: Severity)
    requires |out| >= 1 && sev != Plain && forall k :: 1 <= k < |out| ==> out[k].sev == Plain
    ensures CountSev(out, sev) == if out[0].sev == sev then 1 else 0
    decreases |out|
  {
    if |out| > 1 {
      CountHead(out[..|out| - 1], sev);
    }
  }

  /** The scan's counters agree with what it printed before it gives up:
      every failure printed one name line, purple or orange; the disruption
      count is at least the orange lines and at most one more per failure;
      `testsPrinted` is the number of purple lines and at most one above
      `MaxTests`; nothing red was printed. */
  predicate Sane(st: Scan) {
    && st.failures == CountSev(st.out, Failing) + CountSev(st.out, Disruption)
    && CountSev(st.out, Disruption) <= st.disruptions <= CountSev(st.out, Disruption) + st.failures
    && (st.foundFailures <==> st.failures > 0)
    && st.printed <= MaxTests + 1
    && st.printed == CountSev(st.out, Failing)
    && CountSev(st.out, Alert) == 0
  }

  /** What holds when the scan ends: the same, except that once the scan
      gave up its last line is the red truncation warning, the only red
      line, printed after one more purple line at most. */
  predicate Settled(st: Scan) {
    && st.failures == CountSev(st.out, Failing) + CountSev(st.out, Disruption)
    && CountSev(st.out, Disruption) <= st.disruptions <= CountSev(st.out, Disruption) + st.failures
    && (st.foundFailures <==> st.failures > 0)
    && st.printed <= MaxTests + 1
    && CountSev(st.out, Alert) <= 1
    && (CountSev(st.out, Alert) == 0 ==> st.printed == CountSev(st.out, Failing))
    && (CountSev(st.out, Alert) == 1 ==>
          && st.out[|st.out| - 1] == Truncation && st.printed == MaxTests + 1
          && st.printed <= CountSev(st.out, Failing) <= st.printed + 1)
  }

  /** Visiting a line keeps the counters in agreement. */
  lemma VisitSane(line: string, st: Scan)
    requires Sane(st)
    ensures Sane(Visit(line, st))
  {
    var extra: seq<Line> := if Contains(line, NotServing) then [Unavailable] else [];
    CountSevAppend(st.out, extra, Failing);
    CountSevAppend(st.out, extra, Disruption);
    CountSevAppend(st.out, extra, Alert);
  }

  /** Reporting a well-formed failure keeps the counters in agreement. */
  lemma ReportedCounts(st: Scan, rep: Report)
    requires Sane(st) && WellFormed(rep)
    ensures var st' := Reported(st, rep);
      && CountSev(st'.out, Failing) == CountSev(st.out, Failing) + (if rep.counted then 1 else 0)
      && CountSev(st'.out, Disruption) == CountSev(st.out, Disruption) + (if rep.counted then 0 else 1)
      && CountSev(st'.out, Alert) == 0
  {
    CountSevAppend(st.out, rep.lines, Failing);
    CountSevAppend(st.out, rep.lines, Disruption);
    CountSevAppend(st.out, rep.lines, Alert);
    CountHead(rep.lines, Failing);
    CountHead(rep.lines, Disruption);
    CountHead(rep.lines, Alert);
  }

  /** A failure reported while fewer than `MaxTests` + 1 counted tests were
      printed keeps the counters in agreement. */
  lemma ContinueSane(st: Scan, rep: Report)
    requires Sane(st) && WellFormed(rep) && st.printed <= MaxTests
    ensures Sane(Reported(st, rep).(printed := st.printed + if rep.counted then 1 else 0))
  {
    ReportedCounts(st, rep);
  }

  /** The failure reported when the scan gives up leaves it settled. */
  lemma TruncateSettled(st: Scan, rep: Report)
    requires Sane(st) && WellFormed(rep) && st.printed > MaxTests
    ensures Settled(Reported(st, rep).(out := Reported(st, rep).out + [Truncation]))
  {
    var st' := Reported(st, rep);
    ReportedCounts(st, rep);
    CountSevAppend(st'.out, [Truncation], Failing);
    CountSevAppend(st'.out, [Truncation], Disruption);
    CountSevAppend(st'.out, [Truncation], Alert);
  }

  /** The scan ends with its counters in agreement with its output. */
  lemma {:induction false} ScanSettled(lines: seq<string>, i: nat, st: Scan, report: Reporter)
    requires Sound(report) && Sane(st) && ScanFrom(lines, i, st, report).Some?
    ensures Settled(ScanFrom(lines, i, st, report).value)
    decreases |lines| - i
  {
    if i >= |lines| {
      SaneSettled(st);
      SettledSame(ScanFrom(lines, i, st, report), Some(st));
    } else if !HasPrefix(lines[i], "Failed: ") {
      UnfoldOther(lines, i, st, report);
      VisitSane(lines[i], st);
      ScanSettled(lines, i + 1, Visit(lines[i], st), report);
      SettledSame(ScanFrom(lines, i, st, report), ScanFrom(lines, i + 1, Visit(lines[i], st), report));
    } else {
      UnfoldFailed(lines, i, st, report);
      var rep := report(lines[i], lines[i + 1]).value;
      if st.printed > MaxTests {
        TruncateSettled(st, rep);
        SettledSame(ScanFrom(lines, i, st, report), Some(Reported(st, rep).(out := Reported(st, rep).out + [Truncation])));
      } else {
        var next := Reported(st, rep).(printed := st.printed + if rep.counted then 1 else 0);
        ContinueSane(st, rep);
        VisitSane(lines[i + 1], next);
        ScanSettled(lines, i + 2, Visit(lines[i + 1], next), report);
        SettledSame(ScanFrom(lines, i, st, report), ScanFrom(lines, i + 2, Visit(lines[i + 1], next), report));
      }
    }
  }

  /** A scan whose counters agree is settled. */
  lemma SaneSettled(st: Scan)
    requires Sane(st)
    ensures Settled(st)
  {
  }

  /** Equal scan results are settled together. */
  lemma SettledSame(a: Option<Scan>, b: Option<Scan>)
    requires a == b && b.Some? && Settled(b.value)
    ensures a.Some? && Settled(a.value)
  {
  }

  /** A `Failed: ` line at `k`. */
  predicate FailedAt(lines: seq<string>, k: nat) {
    k < |lines| && HasPrefix(lines[k], "Failed: ")
  }

  /** A skipped or passed test at `k`. */
  predicate PassOrSkipAt(lines: seq<string>, k: nat) {
    k < |lines| && (HasPrefix(lines[k], "Skipped:") || HasPrefix(lines[k], "Passed"))
  }

  /** The scan finds a failure exactly when one is on the page (the first is
      always reached, since the scan gives up only after a failure), and on
      a page without failures it finds a pass or skip exactly when there is
      one. */
  lemma {:induction false} FoundFrom(lines: seq<string>, i: nat, st: Scan, report: Reporter)
    requires ScanFrom(lines, i, st, report).Some?
    ensures ScanFrom(lines, i, st, report).value.foundFailures <==>
      st.foundFailures || exists k :: i <= k < |lines| && FailedAt(lines, k)
    ensures (forall k :: i <= k < |lines| ==> !FailedAt(lines, k)) ==>
      (ScanFrom(lines, i, st, report).value.foundPassOrSkipped <==>
        st.foundPassOrSkipped || exists k :: i <= k < |lines| && PassOrSkipAt(lines, k))
    decreases |lines| - i
  {
    if i < |lines| {
      if !HasPrefix(lines[i], "Failed: ") {
        UnfoldOther(lines, i, st, report);
        FoundFrom(lines, i + 1, Visit(lines[i], st), report);
        assert Visit(lines[i], st).foundFailures == st.foundFailures;
        assert Visit(lines[i], st).foundPassOrSkipped == (st.foundPassOrSkipped || PassOrSkipAt(lines, i));
        if exists k :: i <= k < |lines| && FailedAt(lines, k) {
          var k :| i <= k < |lines| && FailedAt(lines, k);
          assert k != i;
        }
        if exists k :: i <= k < |lines| && PassOrSkipAt(lines, k) {
          var k :| i <= k < |lines| && PassOrSkipAt(lines, k);
          if k != i {
            assert i + 1 <= k;
          }
        }
        if exists k :: i + 1 <= k < |lines| && PassOrSkipAt(lines, k) {
          var k :| i + 1 <= k < |lines| && PassOrSkipAt(lines, k);
          assert i <= k;
        }
      } else {
        assert FailedAt(lines, i);
        var rep := report(lines[i], lines[i + 1]).value;
        if st.printed <= MaxTests {
          var next := Reported(st, rep).(printed := st.printed + if rep.counted then 1 else 0);
          FoundMonotone(lines, i + 2, Visit(lines[i + 1], next), report);
        }
      }
    }
  }

  /** A scan never forgets a failure it has seen. */
  lemma {:induction false} FoundMonotone(lines: seq<string>, i: nat, st: Scan, report: Reporter)
    requires ScanFrom(lines, i, st, report).Some? && st.foundFailures
    ensures ScanFrom(lines, i, st, report).value.foundFailures
    decreases |lines| - i
  {
    if i < |lines| {
      if !HasPrefix(lines[i], "Failed: ") {
        FoundMonotone(lines, i + 1, Visit(lines[i], st), report);
      } else if st.printed <= MaxTests {
        var rep := report(lines[i], lines[i + 1]).value;
        var next := Reported(st, rep).(printed := st.printed + if rep.counted then 1 else 0);
        FoundMonotone(lines, i + 2, Visit(lines[i + 1], next), report);
      }
    }
  }

  /** The whole scan: its counters agree with what it printed, at most
      `MaxTests` + 2 purple lines and at most one red line are printed. */
  lemma AggrScanCounts(lines: seq<string>, report: Reporter)
    requires Sound(report) && AggrScan(lines, report).Some?
    ensures var r := AggrScan(lines, report).value;
      && r.failures == CountSev(r.out, Failing) + CountSev(r.out, Disruption)
      && CountSev(r.out, Disruption) <= r.disruptions <= 2 * r.failures
      && CountSev(r.out, Failing) <= MaxTests + 2
      && CountSev(r.out, Alert) <= 1
  {
    var st := ScanFrom(lines, 0, Start, report).value;
    ScanSettled(lines, 0, Start, report);
    if !st.foundFailures && !st.foundPassOrSkipped {
      CountSevAppend(st.out, [Notice], Failing);
      CountSevAppend(st.out, [Notice], Disruption);
      CountSevAppend(st.out, [Notice], Alert);
    }
  }

  /** No line of the page is a failure, a skip or a pass. */
  predicate Quiet(lines: seq<string>) {
    forall k :: 0 <= k < |lines| ==> !FailedAt(lines, k) && !PassOrSkipAt(lines, k)
  }

  /** Some line of the page is a failure. */
  predicate AnyFailed(lines: seq<string>) {
    exists k :: 0 <= k < |lines| && FailedAt(lines, k)
  }

  /** Some line of the page is a skip or a pass. */
  predicate AnyPassOrSkip(lines: seq<string>) {
    exists k :: 0 <= k < |lines| && PassOrSkipAt(lines, k)
  }

  /** The missing-summary warning is added exactly when no line of the page
      is a failure, a skip or a pass. */
  lemma MissingNotice(lines: seq<string>, report: Reporter, st: Scan)
    requires ScanFrom(lines, 0, Start, report) == Some(st)
    ensures AggrScan(lines, report) == Some(Finish(st))
    ensures Quiet(lines) <==> Finish(st).out == st.out + [Notice]
    ensures Finish(st).out == st.out || Finish(st).out == st.out + [Notice]
  {
    FoundFromStart(lines, report, st);
    FinishNotice(lines, st);
  }

  /** What the whole scan found. */
  lemma FoundFromStart(lines: seq<string>, report: Reporter, st: Scan)
    requires ScanFrom(lines, 0, Start, report) == Some(st)
    ensures st.foundFailures <==> AnyFailed(lines)
    ensures !AnyFailed(lines) ==> (st.foundPassOrSkipped <==> AnyPassOrSkip(lines))
  {
    FoundFrom(lines, 0, Start, report);
  }

  lemma FinishNotice(lines: seq<string>, st: Scan)
    requires st.foundFailures <==> AnyFailed(lines)
    requires !AnyFailed(lines) ==> (st.foundPassOrSkipped <==> AnyPassOrSkip(lines))
    ensures Quiet(lines) <==> Finish(st).out == st.out + [Notice]
    ensures Finish(st).out == st.out || Finish(st).out == st.out + [Notice]
  {
    if Quiet(lines) {
      assert !AnyFailed(lines) && !AnyPassOrSkip(lines);
      assert !st.foundFailures && !st.foundPassOrSkipped;
    } else {
      var k :| 0 <= k < |lines| && (FailedAt(lines, k) || PassOrSkipAt(lines, k));
      assert AnyFailed(lines) || AnyPassOrSkip(lines);
      assert st.foundFailures || st.foundPassOrSkipped;
      assert |st.out + [Notice]| == |st.out| + 1;
    }
  }

  /** What follows the scan when run times are shown: the disruption count
      against all failures, in red between two empty lines, printed only
      when some disruption was counted. */
  function DisruptionTally(st: Scan, showAggrTimes: bool): (r: seq<Line>)
    ensures r == [] <==> !showAggrTimes || st.disruptions == 0
    ensures r != [] ==>
      && |r| == 3 && r[0].text == "" && r[2].text == "" && CountSev(r, Alert) == 1
      && r[1].text == "    Disruption failure count: " + NatToString(st.disruptions) + "/" + NatToString(st.failures)
  {
    if showAggrTimes && st.disruptions > 0 then
      var r := [Line(Plain, ""),
                Line(Alert, "    Disruption failure count: " + NatToString(st.disruptions) + "/" + NatToString(st.failures)),
                Line(Plain, "")];
      assert r[..2] == [r[0], r[1]] && [r[0], r[1]][..1] == [r[0]] && [r[0]][..0] == [];
      assert CountSev([r[0]], Alert) == 0;
      assert CountSev([r[0], r[1]], Alert) == 1;
      r
    else []
  }

  /** A page without a `Failed: ` line shows no disruption count, and one
      whose scan shows it had a failure: the count never exceeds twice the
      failures. */
  lemma TallyNeedsFailure(lines: seq<string>, report: Reporter, showAggrTimes: bool)
    requires Sound(report) && AggrScan(lines, report).Some?
    ensures var st := AggrScan(lines, report).value;
      && (!AnyFailed(lines) ==> DisruptionTally(st, showAggrTimes) == [])
      && st.disruptions <= 2 * st.failures
  {
    var st := ScanFrom(lines, 0, Start, report).value;
    ScanSettled(lines, 0, Start, report);
    FoundFromStart(lines, report, st);
    AggrScanCounts(lines, report);
  }

  /** The body of the scan for one `Failed: ` line and the summary line
      after it: cleans the name and the summary, decodes the summary, and
      prints both. */
  method ReportFailure(header: string, next: string, round: string -> Option<int>)
    returns (printed: seq<Line>, disruptions: nat, maxTestIncr: nat)
    requires FailureReport(header, next, round).Some?
    ensures var rep := FailureReport(header, next, round).value;
      printed == rep.lines && disruptions == rep.disruptions && maxTestIncr == if rep.counted then 1 else 0
  {
    var failTestStr := ReplaceFirst(header, "<b>", "");
    failTestStr := ReplaceFirst(failTestStr, "</b>", "");
    if |failTestStr| > MaxChar {
      failTestStr := failTestStr[..MaxChar];
    }
    var failStr := ReplaceFirst(next, "<p>", "");
    failStr := ReplaceFirst(failStr, "</p>", "");
    var shape := Decode(failStr);
    printed, disruptions, maxTestIncr := PrintReport(failTestStr, shape, round);
  }

  /** Prints a failed test's name in its colour and its decoded summary, and
      says how much the disruption count grows and whether the test counts
      towards `MaxTests`. */
  method PrintReport(failTestStr: string, shape: Shape, round: string -> Option<int>)
    returns (printed: seq<Line>, disruptions: nat, maxTestIncr: nat)
    requires ReportFor(failTestStr, shape, round).Some?
    ensures var rep := ReportFor(failTestStr, shape, round).value;
      printed == rep.lines && disruptions == rep.disruptions && maxTestIncr == if rep.counted then 1 else 0
  {
    maxTestIncr := 1;
    disruptions := 0;
    var color := Failing;
    if Contains(failTestStr, "disruption") || Contains(failTestStr, PdbPhrase) {
      maxTestIncr := 0;
      disruptions := disruptions + 1;
      color := Disruption;
    }
    printed := [Line(color, "    " + failTestStr)];
    var notes, failStr, backend := SummaryOf(shape, round);
    printed := printed + notes;
    if backend {
      disruptions := disruptions + 1;
    }
    printed := printed + [Line(Plain, Println(["     ", failStr]))];
  }

  /** The `if ... else if` chain's output for a decoded summary: the notes
      printed for the old disruption shape, the summary text, and whether an
      unrecognised summary is a backend disruption. */
  method SummaryOf(shape: Shape, round: string -> Option<int>)
    returns (notes: seq<Line>, failStr: string, backend: bool)
    requires Render(shape, round).Some?
    ensures Render(shape, round) == Some(failStr)
    ensures notes == if shape.OldDisruption? then [Line(Plain, OldShapeNote1), Line(Plain, OldShapeNote2)] else []
    ensures backend <==> shape.Unrecognised? && HasPrefix(failStr, BackendSuite)
  {
    notes := [];
    backend := false;
    if shape.DurationList? {
      var sorted := CreateSortedDurations(shape.durations, round);
      failStr := "pass=0/fail=10/req=? disruption, " + shape.percentile + ", " + sorted.value;
    } else {
      if shape.OldDisruption? {
        notes := [Line(Plain, OldShapeNote1), Line(Plain, OldShapeNote2)];
      }
      failStr := Render(shape, round).value;
      if shape.Unrecognised? && HasPrefix(failStr, BackendSuite) {
        backend := true;
      }
    }
  }

  /** The checks of the scan's body on the line it is at: a skipped or
      passed test, and the page of a missing artifact. */
  method CheckLine(line: string, st: Scan) returns (st': Scan)
    ensures st' == Visit(line, st)
  {
    st' := st;
    if HasPrefix(line, "Skipped:") || HasPrefix(line, "Passed") {
      st' := st'.(foundPassOrSkipped := true);
    }
    if Contains(line, NotServing) {
      st' := st'.(out := st'.out + [Unavailable]);
    }
  }

  /** The loop of `PrintAggrSummaryTests` over the summary page's lines,
      with the scan's variables kept together in `st` and the work for one
      failure done by `report` (`Reports(round)` in the tool, which
      `ReportFailure` computes). */
  method ScanFailures(lines: seq<string>, report: Reporter) returns (r: Scan)
    requires AggrScan(lines, report).Some?
    ensures Some(r) == AggrScan(lines, report)
  {
    var st := Start;
    var i := 0;
    ghost var goal := ScanFrom(lines, 0, Start, report);
    while i < |lines|
      invariant i <= |lines|
      invariant ScanFrom(lines, i, st, report) == goal
      decreases |lines| - i
    {
      if HasPrefix(lines[i], "Failed: ") {
        UnfoldFailed(lines, i, st, report);
        ghost var before := st;
        var rep := report(lines[i], lines[i + 1]).value;
        st := st.(foundFailures := true, disruptions := st.disruptions + rep.disruptions,
                  out := st.out + rep.lines, failures := st.failures + 1);
        assert st == Reported(before, rep);
        if st.printed > MaxTests {
          st := st.(out := st.out + [Truncation]);
          break;
        }
        st := st.(printed := st.printed + if rep.counted then 1 else 0);
        i := i + 1;
        assert ScanFrom(lines, i + 1, Visit(lines[i], st), report) == goal;
      } else {
        UnfoldOther(lines, i, st, report);
      }
      st := CheckLine(lines[i], st);
      i := i + 1;
    }
    r := st;
    if !st.foundFailures && !st.foundPassOrSkipped {
      r := r.(out := r.out + [Notice]);
    }
  }
}
