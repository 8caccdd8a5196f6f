/** The runs of an aggregated job, as listed in its `job-run-summary.html`:
    `GetJobRunUrls` and the same scan in `PrintAggrSummaryTests` collect at
    most `MaxJobs` of them in page order and warn when fewer were found;
    `getJobStr` renders one run, with the build farm taken from the run's
    `prowjob.json` by `getBuildFarmServer`. */
module JobRuns {
  import opened Common
  import opened Strings
  import opened Regex
  import Addresses

  /** Runs an aggregated job has; the scan stops once it has found them. */
  const MaxJobs := 10

  /** `<li><a target="_blank" href="(.*)">.*</a> build[0-9]+
      (failure|success) after (.*)` */
  const RunPattern: Pattern :=
    Cons(Lit(RunLead), Cons(Rep(NotNewline, 0, true, true), Cons(Lit("\">"), Cons(Rep(NotNewline, 0, true, false),
    Cons(Lit("</a> build"), Cons(Rep(Digit, 1, true, false), Cons(Lit(" "), Cons(Alt(["failure", "success"], true),
    Cons(Lit(" after "), Cons(Rep(NotNewline, 0, true, true), Nil))))))))))
  const RunLead := "<li><a target=\"_blank\" href=\""

  /** One run: its address, its outcome word and its duration text. */
  datatype Run = Run(url: string, status: string, time: string)

  /** The run a line of the page describes: the three groups of its match. */
  function RunOf(line: string): (r: Option<Run>)
    ensures r.Some? <==> Matches(RunPattern, line)
    ensures r.Some? ==> r.value.url == FindSubmatch(RunPattern, line)[1]
  {
    var m := FindSubmatch(RunPattern, line);
    if |m| > 1 then Some(Run(m[1], GroupOf(m, 2), GroupOf(m, 3))) else None
  }

  /** How a line of the page is read; `RunOf` is the tool's. */
  type RunParser = string -> Option<Run>

  /** Every run the lines describe, in page order. */
  function AllRuns(lines: seq<string>, parse: RunParser): (r: seq<Run>)
    ensures |r| <= |lines|
  {
    if lines == [] then []
    else
      AllRuns(lines[..|lines| - 1], parse)
      + match parse(lines[|lines| - 1]) case Some(run) => [run] case None => []
  }

  /** The runs of consecutive stretches of the page come one after the other. */
  lemma {:induction false} AllRunsAppend(a: seq<string>, b: seq<string>, parse: RunParser)
    ensures AllRuns(a + b, parse) == AllRuns(a, parse) + AllRuns(b, parse)
    decreases |b|
  {
    if b == [] {
      assert a + b == a;
    } else {
      var b' := b[..|b| - 1];
      assert (a + b)[..|a + b| - 1] == a + b';
      AllRunsAppend(a, b', parse);
    }
  }

  /** A longer stretch from the top of the page holds at least as many runs. */
  lemma RunsMonotone(lines: seq<string>, m: nat, n: nat, parse: RunParser)
    requires m <= n <= |lines|
    ensures |AllRuns(lines[..m], parse)| <= |AllRuns(lines[..n], parse)|
  {
    AllRunsAppend(lines[..m], lines[m..n], parse);
    assert lines[..m] + lines[m..n] == lines[..n];
  }

  /** Every listed run comes from a line of the page. */
  lemma {:induction false} RunsFromLines(lines: seq<string>, parse: RunParser)
    ensures forall k :: 0 <= k < |AllRuns(lines, parse)| ==>
      exists j :: 0 <= j < |lines| && parse(lines[j]) == Some(AllRuns(lines, parse)[k])
  {
    if lines != [] {
      var init := lines[..|lines| - 1];
      RunsFromLines(init, parse);
      forall k | 0 <= k < |AllRuns(lines, parse)|
        ensures exists j :: 0 <= j < |lines| && parse(lines[j]) == Some(AllRuns(lines, parse)[k])
      {
        if k < |AllRuns(init, parse)| {
          var j :| 0 <= j < |init| && parse(init[j]) == Some(AllRuns(init, parse)[k]);
          assert lines[j] == init[j];
          assert AllRuns(lines, parse)[k] == AllRuns(init, parse)[k];
        } else {
          var j := |lines| - 1;
          assert parse(lines[j]) == Some(AllRuns(lines, parse)[k]);
        }
      }
    } else {
      assert AllRuns(lines, parse) == [];
    }
  }

  /** The runs the scan keeps: the first `MaxJobs` of them. */
  function Listed(lines: seq<string>, parse: RunParser): (r: seq<Run>)
    ensures |r| <= MaxJobs
    ensures |r| == MaxJobs || r == AllRuns(lines, parse)
    ensures |r| <= |AllRuns(lines, parse)| && r == AllRuns(lines, parse)[..|r|]
  {
    var all := AllRuns(lines, parse);
    if |all| <= MaxJobs then all else all[..MaxJobs]
  }

  /** The warning printed when fewer than `MaxJobs` runs were found. */
  function Shortfall(n: nat): Line {
    Line(Alert, "    Warning: Got " + NatToString(n) + " of 10 jobs")
  }

  /** One more line of the page. */
  lemma RunsSnoc(lines: seq<string>, i: nat, parse: RunParser)
    requires i < |lines|
    ensures AllRuns(lines[..i + 1], parse) ==
      AllRuns(lines[..i], parse) + match parse(lines[i]) case Some(run) => [run] case None => []
  {
    assert lines[..i + 1][..i] == lines[..i];
  }

  /** Once a stretch at the top of the page holds `MaxJobs` runs, they are
      the listed ones. */
  lemma FullPrefix(lines: seq<string>, n: nat, parse: RunParser)
    requires n <= |lines| && |AllRuns(lines[..n], parse)| == MaxJobs
    ensures Listed(lines, parse) == AllRuns(lines[..n], parse)
  {
    AllRunsAppend(lines[..n], lines[n..], parse);
    assert lines[..n] + lines[n..] == lines;
  }

  /** The page scan of `GetJobRunUrls`: collects runs until `MaxJobs` were
      found; `found` is `foundAllJobs`. */
  method CollectRuns(lines: seq<string>, parse: RunParser) returns (runs: seq<Run>, found: bool)
    ensures runs == Listed(lines, parse)
    ensures found <==> |AllRuns(lines, parse)| >= MaxJobs
  {
    runs := [];
    found := false;
    var i := 0;
    while i < |lines|
      invariant 0 <= i <= |lines|
      invariant runs == AllRuns(lines[..i], parse) && |runs| < MaxJobs
    {
      RunsSnoc(lines, i, parse);
      var r := parse(lines[i]);
      if r.Some? {
        runs := runs + [r.value];
      }
      if |runs| == MaxJobs {
        FullPrefix(lines, i + 1, parse);
        RunsMonotone(lines, i + 1, |lines|, parse);
        assert lines[..|lines|] == lines;
        found := true;
        return;
      }
      i := i + 1;
    }
    assert lines[..i] == lines;
  }

  /** What `GetJobRunUrls` hands back and prints. */
  datatype JobList = JobList(urls: seq<string>, warning: seq<Line>)

  /** The addresses of the listed runs. */
  function Urls(runs: seq<Run>): (r: seq<string>)
    ensures |r| == |runs| && forall k :: 0 <= k < |runs| ==> r[k] == runs[k].url
  {
    if runs == [] then [] else Urls(runs[..|runs| - 1]) + [runs[|runs| - 1].url]
  }

  /** The result of `GetJobRunUrls` for an aggregated job, given what the
      fetch of its job-run summary returned: a failed fetch is fatal. */
  function JobRunList(page: Fetch, parse: RunParser): (r: Outcome<JobList>)
    ensures r.Fatal? <==> !page.Body?
    ensures r.Ok? ==> |r.value.urls| <= MaxJobs
    ensures r.Ok? ==> (r.value.warning != [] <==> |r.value.urls| < MaxJobs)
    ensures r.Ok? && |r.value.urls| < MaxJobs ==> r.value.warning == [Shortfall(|r.value.urls|)]
  {
    if !page.Body? then Fatal(FetchFailure(page))
    else
      var runs := Listed(Split(page.text, "\n"), parse);
      Ok(JobList(Urls(runs), if |runs| < MaxJobs then [Shortfall(|runs|)] else []))
  }

  /** `GetJobRunUrls`: fetches the job-run summary of the aggregated job and
      scans it; the tool reads the lines with `RunOf`. */
  method GetJobRunUrls(aggrJobUrl: string, web: string -> Fetch, parse: RunParser) returns (r: Outcome<JobList>)
    ensures r == JobRunList(web(Addresses.JobSummaryUrl(aggrJobUrl)), parse)
  {
    var page := web(Addresses.JobSummaryUrl(aggrJobUrl));
    if !page.Body? {
      return Fatal(FetchFailure(page));
    }
    var runs, found := CollectRuns(Split(page.text, "\n"), parse);
    var warning := if found then [] else [Shortfall(|runs|)];
    r := Ok(JobList(Urls(runs), warning));
  }

  /** What the enumeration in `PrintAggrSummaryTests` prints: a blank line
      when the scan reaches the 26th line of the page, then the shortfall
      warning. */
  function EnumerationOutput(lines: seq<string>, parse: RunParser): seq<Line> {
    (if |lines| > 25 && |AllRuns(lines[..25], parse)| < MaxJobs then [Line(Plain, "")] else [])
    + (if |AllRuns(lines, parse)| < MaxJobs then [Shortfall(|AllRuns(lines, parse)|)] else [])
  }

  /** The enumeration loop of `PrintAggrSummaryTests`: the same scan as
      `CollectRuns`, with a blank line printed when it visits index 25. Each
      run found is handed to a goroutine, which the model leaves out; the
      runs are returned instead. */
  method EnumerateRuns(lines: seq<string>, parse: RunParser) returns (runs: seq<Run>, out: seq<Line>)
    ensures runs == Listed(lines, parse)
    ensures out == EnumerationOutput(lines, parse)
  {
    runs := [];
    out := [];
    var i := 0;
    while i < |lines|
      invariant 0 <= i <= |lines|
      invariant runs == AllRuns(lines[..i], parse) && |runs| < MaxJobs
      invariant out == if i > 25 then [Line(Plain, "")] else []
    {
      if i == 25 {
        out := out + [Line(Plain, "")];
      }
      RunsSnoc(lines, i, parse);
      var r := parse(lines[i]);
      if r.Some? {
        runs := runs + [r.value];
      }
      if |runs| == MaxJobs {
        FullPrefix(lines, i + 1, parse);
        ReachedIndex25(lines, i, parse);
        return;
      }
      i := i + 1;
    }
    assert lines[..i] == lines;
    if |lines| > 25 {
      RunsMonotone(lines, 25, |lines|, parse);
    }
    out := out + [Shortfall(|runs|)];
  }

  /** The scan reached index 25 exactly when the first 25 lines hold fewer
      than `MaxJobs` runs. */
  lemma ReachedIndex25(lines: seq<string>, i: nat, parse: RunParser)
    requires i < |lines| && |AllRuns(lines[..i], parse)| < MaxJobs && |AllRuns(lines[..i + 1], parse)| == MaxJobs
    ensures (i >= 25) <==> (|lines| > 25 && |AllRuns(lines[..25], parse)| < MaxJobs)
    ensures |AllRuns(lines, parse)| >= MaxJobs
  {
    RunsMonotone(lines, i + 1, |lines|, parse);
    assert lines[..|lines|] == lines;
    if i >= 25 {
      RunsMonotone(lines, 25, i, parse);
    } else if |lines| > 25 {
      RunsMonotone(lines, i + 1, 25, parse);
    }
  }

  /** `"cluster": "(.*)",` */
  const ClusterPattern: Pattern :=
    Cons(Lit("\"cluster\": \""), Cons(Rep(NotNewline, 0, true, true), Cons(Lit("\","), Nil)))

  /** Placeholder for a run whose build farm is not named. */
  const UnknownFarm := "build??"

  /** The cluster a line of `prowjob.json` names, if it has the field. */
  function ClusterOf(line: string): (r: Option<string>)
    ensures r.Some? <==> Matches(ClusterPattern, line)
  {
    var m := FindSubmatch(ClusterPattern, line);
    if |m| > 1 then Some(m[1]) else None
  }

  /** How a line of `prowjob.json` is read; `ClusterOf` is the tool's. */
  type FieldReader = string -> Option<string>

  /** Line `j` is the first line at or after `i` that names a cluster. */
  predicate FirstClusterLine(lines: seq<string>, i: nat, j: nat, field: FieldReader) {
    i <= j < |lines| && field(lines[j]).Some?
    && forall l :: i <= l < j ==> field(lines[l]).None?
  }

  /** No line at or after `i` names a cluster. */
  predicate NoClusterLine(lines: seq<string>, i: nat, field: FieldReader) {
    forall j :: i <= j < |lines| ==> field(lines[j]).None?
  }

  /** `r` is the cluster the first line at or after `i` that names one
      names. */
  ghost predicate FirstCluster(lines: seq<string>, i: nat, field: FieldReader, r: string) {
    exists j: nat :: FirstClusterLine(lines, i, j, field) && field(lines[j]) == Some(r)
  }

  /** The cluster named by the first line at or after `i` that names one. */
  function ClusterFrom(lines: seq<string>, i: nat, field: FieldReader): (r: string)
    requires i <= |lines|
    ensures NoClusterLine(lines, i, field) ==> r == UnknownFarm
    ensures !NoClusterLine(lines, i, field) ==> FirstCluster(lines, i, field, r)
    decreases |lines| - i
  {
    if i == |lines| then UnknownFarm
    else
      match field(lines[i])
      case Some(name) =>
        assert FirstClusterLine(lines, i, i, field);
        name
      case None =>
        var r := ClusterFrom(lines, i + 1, field);
        if NoClusterLine(lines, i + 1, field) then
          assert NoClusterLine(lines, i, field);
          r
        else
          var j: nat :| FirstClusterLine(lines, i + 1, j, field) && field(lines[j]) == Some(r);
          assert FirstClusterLine(lines, i, j, field);
          r
  }

  /** `getBuildFarmServer`, given what fetching `prowjob.json` returned:
      the first line with a `"cluster"` field names the build farm; a
      failed fetch is fatal. */
  method BuildFarmServer(page: Fetch, field: FieldReader) returns (r: Outcome<string>)
    ensures r.Fatal? <==> !page.Body?
    ensures r.Ok? ==> r.value == ClusterFrom(Split(page.text, "\n"), 0, field)
  {
    if !page.Body? {
      return Fatal(FetchFailure(page));
    }
    var lines := Split(page.text, "\n");
    var i := 0;
    while i < |lines|
      invariant 0 <= i <= |lines|
      invariant ClusterFrom(lines, i, field) == ClusterFrom(lines, 0, field)
    {
      var m := field(lines[i]);
      if m.Some? {
        return Ok(m.value);
      }
      i := i + 1;
    }
    r := Ok(UnknownFarm);
  }

  /** The row of stars drawn for a run: one per thousand seconds. */
  method Stars(scale: int) returns (stars: string)
    ensures stars == Repeat('*', if scale > 0 then scale else 0)
  {
    stars := "";
    var j := 0;
    while j < scale
      invariant 0 <= j <= (if scale > 0 then scale else 0)
      invariant stars == Repeat('*', j)
    {
      stars := stars + "*";
      j := j + 1;
    }
  }

  /** The line `getJobStr` renders: the run's last address part, its build
      farm, the first four letters of its status, its duration right-aligned
      in eight columns, and the stars. */
  function JobLine(url: string, farm: string, status: string, time: string, stars: string): (r: string)
    requires |status| >= 4
    ensures HasPrefix(r, "    " + LastPart(url, "/") + " " + farm + " " + status[..4] + " ")
    ensures |stars| <= |r| && r[|r| - |stars|..] == stars
    ensures var head := "    " + LastPart(url, "/") + " " + farm + " " + status[..4] + " ";
      && |r| == |head| + FieldWidth(time, 8) + 1 + |stars|
      && RightAligned(r, |head|, time, 8) && r[|head| + FieldWidth(time, 8)] == ' '
  {
    var head := "    " + LastPart(url, "/") + " " + farm + " " + status[..4] + " ";
    PaddedBetween(head, time, 8, " " + stars);
    head + PadLeft(time, 8) + (" " + stars)
  }

  /** `getJobStr`: `scale` is the whole number of thousands of seconds in
      the run's duration (its float computation is not modelled); `web`
      answers the fetch of the run's `prowjob.json`. */
  method JobStr(url: string, status: string, time: string, scale: int, web: string -> Fetch, field: FieldReader)
    returns (r: Outcome<string>)
    requires |status| >= 4
    ensures r.Fatal? <==> !web(Addresses.JobStorage(url) + "/prowjob.json").Body?
    ensures r.Ok? ==> r.value == JobLine(url, ClusterFrom(Split(web(Addresses.JobStorage(url) + "/prowjob.json").text, "\n"), 0, field),
                                          status, time, Repeat('*', if scale > 0 then scale else 0))
  {
    var stars := Stars(scale);
    var farm := BuildFarmServer(web(Addresses.JobStorage(url) + "/prowjob.json"), field);
    if farm.Fatal? {
      return Fatal(farm.reason);
    }
    r := Ok(JobLine(url, farm.value, status, time, stars));
  }
}
