/** Where a job's artifacts live: the rewriting of a Prow viewer address into
    the storage browser's address (`getSummaryPrefix`, `getSummaryUrl`,
    `getJobSummaryUrl`), and the choice of a job's JUnit directory from its
    short name in `PrintPlainSummaryTests`. */
module Addresses {
  import opened Common
  import opened Strings

  /** The viewer's root and the storage browser's root. */
  const ViewerRoot := "https://prow.ci.openshift.org/view/gs"
  const StorageRoot := "https://gcsweb-ci.apps.ci.l2s4.p1.openshiftapps.com/gcs"

  /** The viewer's log roots for the two buckets, and the storage log root
      both are rewritten to. */
  const PlatformBucket := "test-platform-results"
  const PlatformLogs := ViewerRoot + "/" + PlatformBucket + "/logs/"
  const OriginLogs := ViewerRoot + "/origin-ci-test/logs/"
  const StorageLogs := StorageRoot + "/origin-ci-test/logs/"

  /** The aggregator's artifact directory and the two files in it. */
  const AggregatorDir := "artifacts/release-analysis-aggregator/openshift-release-analysis-aggregator/artifacts/release-analysis-aggregator/"
  const TestRunSummary := "aggregation-testrun-summary.html"
  const JobRunSummary := "job-run-summary.html"

  /** The viewer log root that `getSummaryPrefix` looks for in `url`. */
  function BucketLogs(url: string): string {
    if Contains(url, PlatformBucket) then PlatformLogs else OriginLogs
  }

  /** `getSummaryPrefix`: the first occurrence of the bucket's viewer log
      root, if any, becomes the storage log root; nothing else changes. */
  function SummaryPrefix(url: string): (r: string)
    ensures !Contains(url, BucketLogs(url)) ==> r == url
    ensures Contains(url, BucketLogs(url)) ==>
      exists k: nat ::
        && OccursAt(url, BucketLogs(url), k)
        && (forall j :: 0 <= j < k ==> !OccursAt(url, BucketLogs(url), j))
        && r == url[..k] + StorageLogs + url[k + |BucketLogs(url)|..]
  {
    var pat := BucketLogs(url);
    assert Contains(url, pat) ==> OccursAt(url, pat, IndexOf(url, pat).value);
    ReplaceFirst(url, pat, StorageLogs)
  }

  /** A viewer address in the platform bucket becomes the storage address
      of the same job path. */
  lemma PlatformToStorage(path: string)
    ensures SummaryPrefix(PlatformLogs + path) == StorageLogs + path
  {
    PlatformNamed(path);
    LeadingRootRewritten(PlatformLogs + path, path);
  }

  /** An address that starts with its bucket's viewer log root keeps the
      rest of its path behind the storage log root. */
  lemma LeadingRootRewritten(url: string, path: string)
    requires url == BucketLogs(url) + path
    ensures SummaryPrefix(url) == StorageLogs + path
  {
    LeadingReplaced(BucketLogs(url), path, StorageLogs);
  }

  /** The platform bucket's viewer addresses name the bucket. */
  lemma PlatformNamed(path: string)
    ensures Contains(PlatformLogs + path, PlatformBucket)
  {
    var p := PlatformLogs + path;
    assert p[|ViewerRoot| + 1..|ViewerRoot| + 1 + |PlatformBucket|] == PlatformBucket;
    assert OccursAt(p, PlatformBucket, |ViewerRoot| + 1);
    ContainsIff(p, PlatformBucket);
  }

  /** A viewer address in the origin bucket (that does not mention the
      platform bucket) becomes the storage address of the same job path. */
  lemma OriginToStorage(path: string)
    requires !Contains(OriginLogs + path, PlatformBucket)
    ensures SummaryPrefix(OriginLogs + path) == StorageLogs + path
  {
    LeadingRootRewritten(OriginLogs + path, path);
  }

  /** `getSummaryUrl`: the aggregation test-run summary under the prefix. */
  function SummaryUrl(url: string): (r: string)
    ensures HasPrefix(r, SummaryPrefix(url) + "/" + AggregatorDir)
    ensures r[|SummaryPrefix(url) + "/" + AggregatorDir|..] == TestRunSummary
  {
    SummaryPrefix(url) + "/" + AggregatorDir + TestRunSummary
  }

  /** `getJobSummaryUrl`: the job-run summary under the prefix. */
  function JobSummaryUrl(url: string): (r: string)
    ensures HasPrefix(r, SummaryPrefix(url) + "/" + AggregatorDir)
    ensures r[|SummaryPrefix(url) + "/" + AggregatorDir|..] == JobRunSummary
  {
    SummaryPrefix(url) + "/" + AggregatorDir + JobRunSummary
  }

  /** The two summary addresses of a job are different files in the same
      directory. */
  lemma SummariesSideBySide(url: string)
    ensures SummaryUrl(url) != JobSummaryUrl(url)
    ensures SummaryUrl(url)[..|SummaryUrl(url)| - |TestRunSummary|]
         == JobSummaryUrl(url)[..|JobSummaryUrl(url)| - |JobRunSummary|]
  {
    var d := SummaryPrefix(url) + "/" + AggregatorDir;
    assert SummaryUrl(url)[..|SummaryUrl(url)| - |TestRunSummary|] == d;
    assert JobSummaryUrl(url)[..|JobSummaryUrl(url)| - |JobRunSummary|] == d;
    assert |SummaryUrl(url)| != |JobSummaryUrl(url)|;
  }

  /** The short-name normalisation of `PrintPlainSummaryTests`: a name
      mentioning "4.12" is cut before its first "-4.12"; then a name starting
      "aggregated-" loses every "aggregated-" and is cut before its first
      "-4.". */
  function ShortName(name: string): (r: string)
    ensures HasPrefix(Release412Cut(name), "aggregated-") ==>
      CutBefore(ReplaceAll(Release412Cut(name), "aggregated-", ""), "-4.", r) && !Contains(r, "-4.")
    ensures !HasPrefix(Release412Cut(name), "aggregated-") ==> r == Release412Cut(name)
    ensures !Contains(name, "4.12") && !HasPrefix(name, "aggregated-") ==> r == name
  {
    var n := Release412Cut(name);
    if HasPrefix(n, "aggregated-") then
      var stripped := ReplaceAll(n, "aggregated-", "");
      SplitPiecesFree(stripped, "-4.");
      SplitFirstCut(stripped, "-4.");
      Split(stripped, "-4.")[0]
    else n
  }

  /** The first step of the normalisation alone: a name mentioning "4.12"
      is cut before its first "-4.12" (and kept whole when "-4.12" does not
      occur). */
  function Release412Cut(name: string): (r: string)
    ensures Contains(name, "4.12") ==> CutBefore(name, "-4.12", r) && !Contains(r, "-4.12")
    ensures !Contains(name, "4.12") ==> r == name
  {
    if Contains(name, "4.12") then
      SplitPiecesFree(name, "-4.12");
      SplitFirstCut(name, "-4.12");
      Split(name, "-4.12")[0]
    else name
  }

  /** Where `PrintPlainSummaryTests` looks for a job's JUnit files, and
      whether it decodes them as a `<testsuites>` document (fallback mode). */
  datatype JunitDir = JunitDir(url: string, fallback: bool)

  /** The job's storage directory: the viewer root replaced once. */
  function JobStorage(jobUrl: string): string {
    ReplaceFirst(jobUrl, ViewerRoot, StorageRoot)
  }

  /** The suffix used for every job that runs `openshift-e2e-test`. */
  function E2eJunit(name: string): string {
    "/artifacts/e2e-" + name + "/openshift-e2e-test/artifacts/junit"
  }

  /** The names whose JUnit files sit directly in the job directory. */
  predicate InJobDir(name: string) {
    name == "metal-ipi-sdn" || name == "metal-ipi-ovn-ipv6"
  }

  /** The names the `switch` lists explicitly. */
  predicate Listed(name: string) {
    InJobDir(name) || name == "e2e-metal-ipi-sdn" || name == "aws-ovn-fips" || name == "install-analysis-all"
  }

  /** The `switch` on the normalised short name. Go cases do not fall
      through, so the two metal names keep the job directory itself. */
  function JunitLocation(jobUrl: string, name: string): (r: JunitDir)
    ensures r.fallback <==> name == "e2e-metal-ipi-sdn"
    ensures InJobDir(name) <==> r.url == JobStorage(jobUrl)
    ensures name == "e2e-metal-ipi-sdn" ==> r.url == JobStorage(jobUrl) + "/artifacts"
    ensures name == "aws-ovn-fips" ==>
      r.url == JobStorage(jobUrl) + "/artifacts/e2e-aws-ovn-fips/openshift-e2e-test/artifacts/junit"
    ensures name == "install-analysis-all" ==> r.url == JobStorage(jobUrl) + "Do this someday"
    ensures !Listed(name) ==> r.url == JobStorage(jobUrl) + E2eJunit(name)
  {
    var base := JobStorage(jobUrl);
    if InJobDir(name) then JunitDir(base, false)
    else if name == "e2e-metal-ipi-sdn" then JunitDir(base + "/artifacts", true)
    else if name == "aws-ovn-fips" then
      JunitDir(base + "/artifacts/e2e-aws-ovn-fips/openshift-e2e-test/artifacts/junit", false)
    else if name == "install-analysis-all" then JunitDir(base + "Do this someday", false)
    else JunitDir(base + E2eJunit(name), false)
  }

  /** The fallback directory used when the first listing yields nothing. */
  function FallbackLocation(jobUrl: string): (r: string)
    ensures r == JunitLocation(jobUrl, "e2e-metal-ipi-sdn").url
  {
    JobStorage(jobUrl) + "/artifacts"
  }
}
