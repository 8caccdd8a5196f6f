/** The `analysis` command (`job_analysis/analysis.go`): which kind of
    address it was given, which job that names, the short name the job is
    known by, and the list of job addresses it prints for an aggregated
    job. */
module Analysis {
  import opened Common
  import opened Strings
  import opened Regex
  import JobRuns
  import Addresses

  /** The three modes of the command. */
  datatype Mode = AggrMode | PayloadMode | PlainMode

  /** An aggregated job when the address mentions "aggregated", else a
      payload when it mentions "releasestream", else a plain job. */
  function ModeOf(url: string): (m: Mode)
    ensures m == AggrMode <==> Contains(url, "aggregated")
    ensures m == PayloadMode <==> !Contains(url, "aggregated") && Contains(url, "releasestream")
    ensures m == PlainMode <==> !Contains(url, "aggregated") && !Contains(url, "releasestream")
  {
    if Contains(url, "aggregated") then AggrMode
    else if Contains(url, "releasestream") then PayloadMode
    else PlainMode
  }

  /** The job names the command knows, and the short names their unit
      tests are filed under. */
  const ShortNames: map<string, string> := map[
    "aws-sdn-serial" := "aws-sdn-serial",
    "aws-sdn-upgrade" := "aws-sdn-upgrade",
    "e2e-aws-sdn-upgrade" := "aws-sdn-upgrade",
    "e2e-aws-ovn-upgrade" := "aws-ovn-upgrade",
    "e2e-aws-sdn-serial" := "aws-sdn-serial",
    "e2e-metal-ipi-ovn-ipv6" := "metal-ipi-sdn-bm",
    "e2e-metal-ipi-sdn-bm" := "metal-ipi-sdn-bm",
    "e2e-metal-ipi-sdn" := "metal-ipi-sdn",
    "e2e-gcp-sdn" := "gcp-sdn",
    "aggregated-azure-ovn-upgrade" := "azure-ovn-upgrade",
    "aggregated-gcp-ovn-rt-upgrade" := "gcp-ovn-rt-upgrade",
    "aggregated-aws-sdn-upgrade" := "aws-sdn-upgrade",
    "aggregated-aws-ovn-upgrade" := "aws-ovn-upgrade",
    "aggregated-azure-sdn-upgrade" := "azure-sdn-upgrade",
    "aggregated-gcp-ovn-upgrade" := "gcp-ovn-upgrade"
  ]

  /** The IPv6 metal job shares the unit tests of the SDN bare-metal job,
      and the Alibaba job is not supported. */
  lemma ShortNamesTable()
    ensures ShortNames["e2e-metal-ipi-ovn-ipv6"] == ShortNames["e2e-metal-ipi-sdn-bm"] == "metal-ipi-sdn-bm"
    ensures ShortNames["aggregated-aws-ovn-upgrade"] == ShortNames["e2e-aws-ovn-upgrade"] == "aws-ovn-upgrade"
    ensures "e2e-alibaba-ovn" !in ShortNames
  {
  }

  /** `logs/(.*?)-4.(16|15|14|13).*?/(\d+)$`: the aggregated job's name,
      its release, and its run ID. */
  const AggrPattern: Pattern :=
    Cons(Lit("logs/"), Cons(Rep(NotNewline, 0, false, true), Cons(Lit("-4"), Cons(One(NotNewline),
    Cons(Alt(["16", "15", "14", "13"], true), Cons(Rep(NotNewline, 0, false, false), Cons(Lit("/"),
    Cons(Rep(Digit, 1, true, true), Cons(End, Nil)))))))))

  /** `-4.(14|13)-(.*?)/\d+$`: the release and the plain job's name. */
  const PlainPattern: Pattern :=
    Cons(Lit("-4"), Cons(One(NotNewline), Cons(Alt(["14", "13"], true), Cons(Lit("-"),
    Cons(Rep(NotNewline, 0, false, true), Cons(Lit("/"), Cons(Rep(Digit, 1, true, false), Cons(End, Nil))))))))

  /** An aggregated job's name and run ID, read from its address. */
  datatype AggrJob = AggrJob(name: string, id: string)

  function AggrJobOf(url: string): (r: Option<AggrJob>)
    ensures r.Some? <==> Matches(AggrPattern, url)
    ensures r.Some? ==>
      var m := FindSubmatch(AggrPattern, url);
      r.value.name == GroupOf(m, 1) && r.value.id == GroupOf(m, 3)
  {
    var m := FindSubmatch(AggrPattern, url);
    if |m| > 2 then Some(AggrJob(GroupOf(m, 1), GroupOf(m, 3))) else None
  }

  /** A plain job's name, read from its address. */
  function PlainJobOf(url: string): (r: Option<string>)
    ensures r.Some? <==> Matches(PlainPattern, url)
    ensures r.Some? ==> r.value == GroupOf(FindSubmatch(PlainPattern, url), 2)
  {
    var m := FindSubmatch(PlainPattern, url);
    if |m| > 1 then Some(GroupOf(m, 2)) else None
  }

  /** What the command goes on to do. */
  datatype Plan =
    | AnalyseAggregated(url: string, shortName: string, jobId: string)
    | AnalysePlain(url: string, shortName: string)
    | AnalysePayload(releaseUrl: string)
    | Exit(message: string)

  const UnknownAggrName := "No idea what the aggregated job name is"
  const UnknownAggrShortName := "Unable to determine short name for aggr job (needed to get a unit tests)"
  const UnknownPlainName := "No idea what the plain job name is"
  const UnknownPlainShortName := "Unable to determine short name for plain job (needed to get a unit tests)"

  /** How the job name and ID are read from an aggregated job's address,
      and the plain job's name from a plain job's; `AggrJobOf` and
      `PlainJobOf` are the command's. */
  type AggrReader = string -> Option<AggrJob>
  type PlainReader = string -> Option<string>

  /** `Run` up to the analysis: by mode, the job the address names and its
      short name, or the exit (status 1) when either is unknown. */
  function PlanFor(url: string, aggrOf: AggrReader, plainOf: PlainReader): (r: Plan)
    ensures r.AnalysePayload? <==> ModeOf(url) == PayloadMode
    ensures r.AnalysePayload? ==> r.releaseUrl == url
    ensures r.AnalyseAggregated? ==>
      ModeOf(url) == AggrMode && r.url == url && aggrOf(url).Some? && aggrOf(url).value.id == r.jobId
      && aggrOf(url).value.name in ShortNames && r.shortName == ShortNames[aggrOf(url).value.name]
    ensures r.AnalysePlain? ==>
      ModeOf(url) == PlainMode && r.url == url && plainOf(url).Some?
      && plainOf(url).value in ShortNames && r.shortName == ShortNames[plainOf(url).value]
    ensures r == Exit(UnknownAggrName) <==> ModeOf(url) == AggrMode && aggrOf(url).None?
    ensures r == Exit(UnknownAggrShortName) <==>
      ModeOf(url) == AggrMode && aggrOf(url).Some? && aggrOf(url).value.name !in ShortNames
    ensures r == Exit(UnknownPlainName) <==> ModeOf(url) == PlainMode && plainOf(url).None?
    ensures r == Exit(UnknownPlainShortName) <==>
      ModeOf(url) == PlainMode && plainOf(url).Some? && plainOf(url).value !in ShortNames
  {
    match ModeOf(url)
    case PayloadMode => AnalysePayload(url)
    case AggrMode =>
      (match aggrOf(url)
       case None => Exit(UnknownAggrName)
       case Some(j) =>
         if j.name in ShortNames then AnalyseAggregated(url, ShortNames[j.name], j.id) else Exit(UnknownAggrShortName))
    case PlainMode =>
      (match plainOf(url)
       case None => Exit(UnknownPlainName)
       case Some(n) => if n in ShortNames then AnalysePlain(url, ShortNames[n]) else Exit(UnknownPlainShortName))
  }

  // ---------------------------------------------------------------------
  // The job list printed for an aggregated job

  /** `"aggr-<shortName>-<jobId>": [` */
  function ListHeader(shortName: string, jobId: string): string {
    "\"aggr-" + shortName + "-" + jobId + "\": ["
  }

  /** One quoted address, with a comma unless it is the last. */
  function Entry(url: string, last: bool): string {
    "   \"" + url + "\"" + (if last then "" else ",")
  }

  /** The printed list: the header, the aggregated job first and then its
      runs, one per line, and the closing "],". */
  method RenderList(shortName: string, jobId: string, aggrJobUrl: string, runUrls: seq<string>)
    returns (out: seq<string>)
    ensures |out| == |runUrls| + 3
    ensures out[0] == ListHeader(shortName, jobId) && out[|out| - 1] == "],"
    ensures out[1] == Entry(aggrJobUrl, runUrls == [])
    ensures forall k :: 0 <= k < |runUrls| ==> out[k + 2] == Entry(runUrls[k], k == |runUrls| - 1)
  {
    var total := [aggrJobUrl] + runUrls;
    var n := |total|;
    var comma := ",";
    out := [ListHeader(shortName, jobId)];
    for i := 0 to n
      invariant |out| == i + 1 && out[0] == ListHeader(shortName, jobId)
      invariant forall k :: 0 <= k < i ==> out[k + 1] == Entry(total[k], k == n - 1)
      invariant i < n ==> comma == ","
    {
      if i == n - 1 {
        comma := "";
      }
      out := out + ["   \"" + total[i] + "\"" + comma];
    }
    assert forall k :: 0 <= k < |runUrls| ==> total[k + 1] == runUrls[k];
    var body := out;
    out := body + ["],"];
    assert out[0] == body[0] && out[1] == body[1];
    assert total[0] == aggrJobUrl;
    assert (runUrls == []) == (0 == n - 1);
  }

  /** What `Run` prints after the aggregated job's analysis: the warning
      `GetJobRunUrls` prints when it found fewer than ten runs, then the
      list of the job's addresses; or the fatal error of the run
      enumeration, before anything is printed. */
  method AggrJobList(aggrJobUrl: string, shortName: string, jobId: string, web: string -> Fetch,
                     parse: JobRuns.RunParser) returns (warning: seq<Line>, r: Outcome<seq<string>>)
    ensures r.Fatal? <==> !web(Addresses.JobSummaryUrl(aggrJobUrl)).Body?
    ensures r.Fatal? ==> warning == []
    ensures r.Ok? ==>
      var urls := JobRuns.JobRunList(web(Addresses.JobSummaryUrl(aggrJobUrl)), parse).value.urls;
      && (|urls| < JobRuns.MaxJobs ==> warning == [JobRuns.Shortfall(|urls|)])
      && (|urls| >= JobRuns.MaxJobs ==> warning == [])
      && |r.value| == |urls| + 3 && r.value[0] == ListHeader(shortName, jobId) && r.value[1] == Entry(aggrJobUrl, urls == [])
      && (forall k :: 0 <= k < |urls| ==> r.value[k + 2] == Entry(urls[k], k == |urls| - 1))
  {
    var runs := JobRuns.GetJobRunUrls(aggrJobUrl, web, parse);
    if runs.Fatal? {
      return [], Fatal(runs.reason);
    }
    warning := runs.value.warning;
    var out := RenderList(shortName, jobId, aggrJobUrl, runs.value.urls);
    r := Ok(out);
  }
}
