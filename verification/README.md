# release-analysis, modelled in Dafny

This project models the core of the OpenShift release-analysis tools: the
Go package that summarises a release stream's payloads
(`payload_processing`), the `analysis` command that summarises one job
(`job_analysis`), the artifact finder `gcs-finder`, and the Python nightly
status report. It proves properties of the model.

The payload summary has three parts:

- A payload list comes from one of three getters. The first scrapes the
  release controller's web page. The second reads Sippy's release
  database. The third reads the release controller's API.
- Each payload's page is scraped for its blocking jobs. The jobs that
  failed (or all of them, on request) are handed to one of two summaries.
- The aggregated-job summary reads the aggregator's
  `aggregation-testrun-summary.html`. It decodes each failed test's summary
  line and prints one row per underlying run. The plain-job summary
  downloads the job's JUnit files and classifies each failing test case as
  a failure or a flake.

Every regular expression in the core is written as data for one small
backtracking matcher (`Regex`). That matcher follows the leftmost-first
semantics of Go's `regexp` and Python's `re`. Fetches, decoders, float
formatting and the clock are parameters. Printing is modelled as returned
lines, each tagged with its terminal colour (`Common.Severity`). A fatal
exit (`CheckErrFatal`, `log.Fatal`, `os.Exit(1)`) becomes the `Fatal` case
of `Common.Outcome`.

Modules, one per file:

| file | module | models |
|---|---|---|
| `common.dfy` | `Common` | options, outcomes, fetch results, output lines |
| `strings.dfy` | `Strings` | the `strings` helpers the core calls (`Index`, `Split`, `Replace`, `Trim`, padding) |
| `regex.dfy` | `Regex` | the regular-expression matcher and its submatch groups |
| `addresses.dfy` | `Addresses` | address rewriting and the JUnit directory choice |
| `durations.dfy` | `Durations` | `createSortedDurations` |
| `summary.dfy` | `Summary` | the decoding of a failed test's summary line |
| `scan.dfy` | `FailureScan` | the failure scan of `PrintAggrSummaryTests` |
| `jobruns.dfy` | `JobRuns` | `GetJobRunUrls`, the run enumeration, `getJobStr`, `getBuildFarmServer` |
| `junit.dfy` | `Junit` | `processJunit` and `PrintPlainSummaryTests` |
| `payloads.dfy` | `Payloads` | `ProcessPayloadItem`, `printPayloadTitles` |
| `getters.dfy` | `Getters` | the three payload getters, `getPayloadItems`, `processPayloadItems` |
| `analysis.dfy` | `Analysis` | the `analysis` command's `Run` |
| `gcsfinder.dfy` | `GcsFinder` | `gcs-finder`'s `main` and `formatBytes` |
| `nightly.dfy` | `Nightly` | `nightly-status.py` |

## Model

| member | source | states |
|---|---|---|
| Addresses.SummaryPrefix | payload_processing/tools.go:144-154 | only the first occurrence of the bucket's viewer log root is replaced by the storage log root; an address without it is unchanged |
| Addresses.PlatformToStorage | payload_processing/tools.go:144-154 | a viewer address in the `test-platform-results` bucket maps to the storage address of the same job path |
| Addresses.OriginToStorage | payload_processing/tools.go:144-154 | a viewer address in the `origin-ci-test` bucket maps to the storage address of the same job path |
| Addresses.SummaryUrl | payload_processing/tools.go:158-162 | the test-run summary is `aggregation-testrun-summary.html` in the aggregator's directory under the prefix |
| Addresses.JobSummaryUrl | payload_processing/tools.go:166-170 | the job-run summary is `job-run-summary.html` in the aggregator's directory under the prefix |
| Addresses.SummariesSideBySide | payload_processing/tools.go:158-170 | a job's two summary addresses differ and share the same directory |
| Addresses.Release412Cut | payload_processing/tools.go:505-512 | a name mentioning "4.12" is cut just before its first "-4.12" (kept whole when "-4.12" does not occur), and the result holds no "-4.12"; other names are unchanged |
| Addresses.ShortName | payload_processing/tools.go:505-526 | after that cut, a name starting `aggregated-` has every "aggregated-" removed and is cut just before its first "-4.", leaving no "-4."; any other name is the cut name; a name with neither "4.12" nor the prefix is unchanged |
| Addresses.JunitLocation | payload_processing/tools.go:517-544 | the JUnit directory for each case of the `switch`; the two metal names keep the job directory (no fall-through); fallback decoding iff `e2e-metal-ipi-sdn` |
| Addresses.FallbackLocation | payload_processing/tools.go:518-519 | the fallback directory is the job's `/artifacts` |
| Durations.Insert | payload_processing/tools.go:187 | inserting into a sorted list gives a sorted list holding one more copy of the value |
| Durations.SortInts | payload_processing/tools.go:187 | `sort.Ints` gives a sorted permutation of its input |
| Durations.PairValue | payload_processing/tools.go:176-186 | no value iff the pair has no "=" (the index panics); otherwise the second piece (after the first "=", up to any second one) with every 's' removed is rounded, and 99999 stands for a text that does not parse |
| Durations.Values | payload_processing/tools.go:176-186 | the values exist iff every pair has "="; one value per pair, in order |
| Durations.SortedDurations | payload_processing/tools.go:174-196 | the result exists iff every space-separated piece has "=" |
| Durations.SortedDurationsJoined | payload_processing/tools.go:174-196 | the result is the pairs' values in ascending order, joined by ", " |
| Durations.CreateSortedDurations | payload_processing/tools.go:174-196 | the loop computes the sorted, comma-joined values |
| Durations.Accumulate | payload_processing/tools.go:188-195 | the output loop joins the values with ", " after the first |
| Durations.ValuesPrefix | payload_processing/tools.go:176-186 | a panic on the first pairs is a panic of the whole conversion |
| Summary.Atoi | payload_processing/tools.go:805-807 | `strconv.Atoi` with its error dropped lies in 0..MaxInt and equals the digits' value when they fit |
| Summary.Build | payload_processing/tools.go:804-841 | the shape built from pattern k's submatches is of kind k |
| Summary.DecodeFrom | payload_processing/tools.go:804-853 | the first pattern from k on that matches decides the shape; the earlier ones do not match |
| Summary.Decode | payload_processing/tools.go:804-853 | the shape's pattern matches and no earlier one does; "unrecognised" iff none matches, keeping the line |
| Summary.Render | payload_processing/tools.go:808-845 | the rendering fails iff the shape is a duration list whose conversion panics; each shape's canonical text is stated by its round-trip lemma |
| Summary.AtoiNatToString | payload_processing/tools.go:805-808 | a printed count reads back as itself |
| Summary.OnePassRoundTrip | payload_processing/tools.go:804-808 | the one-pass summary decodes to its counts and renders as `pass=/fail=/skip=` |
| Summary.AttemptsNotOnePass | payload_processing/tools.go:804-810 | the one-pass pattern does not match the required-attempts summary |
| Summary.AttemptsRoundTrip | payload_processing/tools.go:810-815 | the required-attempts summary is not taken for the first shape, decodes to its counts and renders with `req=` |
| Summary.HistoricalNotEarlier | payload_processing/tools.go:804-817 | neither earlier pattern matches the historical-rate summary |
| Summary.HistoricalRoundTrip | payload_processing/tools.go:817-822 | the historical-rate summary decodes to its counts and rate and renders with `historical=` |
| Summary.DurationRoundTrip | payload_processing/tools.go:824-828 | the duration-list summary decodes to its percentile and list, and renders them with the values in ascending order |
| Summary.DurationRendered | payload_processing/tools.go:824-828 | a duration list renders as `pass=0/fail=10/req=? disruption, `, the percentile, and the sorted values |
| Summary.DurationPanics | payload_processing/tools.go:824-828 | a failure without "=" makes the duration list's rendering panic |
| Summary.OldRoundTrip | payload_processing/tools.go:830-836 | no earlier pattern matches the old disruption summary; it decodes to its counts and renders with `disruption` |
| Summary.MeanRoundTrip | payload_processing/tools.go:838-840 | no earlier pattern matches the mean-disruption summary; it decodes to its deviation and renders as `dev=D disruption` |
| Summary.NoShapeMatches | payload_processing/tools.go:755-760 | every summary pattern needs one of 'P', 'F' and '(' |
| Summary.UnrecognisedKept | payload_processing/tools.go:842-845 | a summary matching no pattern is kept and marked "(?disruption)" |
| FailureScan.Headline | payload_processing/tools.go:778-782 | the printed name is a prefix of the line without its first bold tags, at most 175 characters, the whole of it when short enough |
| FailureScan.CountSevAppend | payload_processing/tools.go:773-872 | colour counts add up over concatenated output |
| FailureScan.ReportFor | payload_processing/tools.go:783-855 | the name in orange iff a disruption (else purple); counted toward MaxTests iff not a disruption; then the two notes only for the old shape, and the summary line "      " plus the rendering; one disruption for a disruption name plus one for an unrecognised summary starting `suite=[BackendDisruption` |
| FailureScan.BackendKept | payload_processing/tools.go:845-851 | marking an unrecognised summary with "(?disruption)" keeps whether it starts `suite=[BackendDisruption` |
| FailureScan.ReportsSound | payload_processing/tools.go:776-864 | every report the tool produces is well formed |
| FailureScan.UnfoldFailed | payload_processing/tools.go:776-864 | a scan that does not panic at a `Failed: ` line has the summary line after it |
| FailureScan.UnfoldOther | payload_processing/tools.go:865-871 | any other line is only visited |
| FailureScan.VisitSane | payload_processing/tools.go:865-871 | visiting a line keeps the counters in agreement with the output |
| FailureScan.ReportedCounts | payload_processing/tools.go:794-862 | reporting a failure keeps the counters in agreement |
| FailureScan.ContinueSane | payload_processing/tools.go:856-863 | a failure reported below the limit keeps the scan sane |
| FailureScan.TruncateSettled | payload_processing/tools.go:856-861 | the failure at which the scan gives up ends it with the red warning last |
| FailureScan.ScanSettled | payload_processing/tools.go:773-872 | the scan ends with its counters in agreement with its output |
| FailureScan.FoundFrom | payload_processing/tools.go:773-867 | failures are found iff the page has a `Failed: ` line; on a page without one, a pass or skip is found iff there is one |
| FailureScan.FoundMonotone | payload_processing/tools.go:776-777 | a found failure stays found |
| FailureScan.AggrScanCounts | payload_processing/tools.go:773-876 | at most MaxTests + 2 purple lines and at most one red line; disruptions at most twice the failures |
| FailureScan.MissingNotice | payload_processing/tools.go:873-876 | the missing-summary warning is printed iff the page has no failure, pass or skip |
| FailureScan.FinishNotice | payload_processing/tools.go:873-876 | the final warning follows from the found flags |
| FailureScan.ReportFailure | payload_processing/tools.go:776-864 | the body for one failure prints and counts what `FailureReport` says |
| FailureScan.PrintReport | payload_processing/tools.go:783-855 | the method prints the name and summary that `ReportFor` specifies |
| FailureScan.SummaryOf | payload_processing/tools.go:802-853 | the `if ... else if` chain gives the rendered summary, the two notes only for the old shape, and the backend count only for unrecognised `suite=[BackendDisruption` lines |
| FailureScan.CheckLine | payload_processing/tools.go:865-871 | the per-line checks are `Visit` |
| FailureScan.ScanFailures | payload_processing/tools.go:773-876 | the loop computes the whole scan `AggrScan` |
| FailureScan.DisruptionTally | payload_processing/tools.go:878-886 | nothing unless times are shown and a disruption was counted; then a blank line, the red "Disruption failure count: d/t" and a blank line |
| FailureScan.TallyNeedsFailure | payload_processing/tools.go:773-886 | on the scan's result, no failure means no tally, and disruptions are at most twice the failures |
| JobRuns.RunOf | payload_processing/tools.go:51 | a line yields a run iff the run pattern matches; the address is group 1 |
| JobRuns.AllRunsAppend | payload_processing/tools.go:703-715 | the runs of consecutive stretches come one after the other |
| JobRuns.RunsMonotone | payload_processing/tools.go:703-715 | a longer stretch from the top holds at least as many runs |
| JobRuns.RunsFromLines | payload_processing/tools.go:703-709 | every run comes from a line of the page |
| JobRuns.Listed | payload_processing/tools.go:697-715 | at most 10 runs, the first ones of the page; all of them when fewer |
| JobRuns.FullPrefix | payload_processing/tools.go:710-714 | once 10 runs are found they are the listed ones |
| JobRuns.CollectRuns | payload_processing/tools.go:697-715 | the loop collects the listed runs; `foundAllJobs` iff the page has at least 10 |
| JobRuns.Urls | payload_processing/tools.go:706-707 | one address per run, in order |
| JobRuns.JobRunList | payload_processing/tools.go:672-720 | a failed fetch is fatal; at most 10 addresses; the warning appears iff fewer than 10, and then says how many |
| JobRuns.GetJobRunUrls | payload_processing/tools.go:672-720 | the method fetches the job-run summary and computes `JobRunList` |
| JobRuns.EnumerateRuns | payload_processing/tools.go:918-944 | the enumeration finds the same runs, prints a blank line iff it reaches index 25, then the shortfall warning |
| JobRuns.ReachedIndex25 | payload_processing/tools.go:920-923 | the scan reaches index 25 iff the first 25 lines hold fewer than 10 runs |
| JobRuns.ClusterFrom | payload_processing/tools.go:90-97 | the first line naming a cluster gives the farm; "build??" when no line does |
| JobRuns.BuildFarmServer | payload_processing/tools.go:76-98 | a failed fetch is fatal; otherwise the first cluster of the page |
| JobRuns.Stars | payload_processing/tools.go:62-66 | one star per thousand seconds, none for a non-positive count |
| JobRuns.JobLine | payload_processing/tools.go:70 | the address's last part, the farm and the status's first four letters, then the duration right-aligned in 8 columns, a space and the stars |
| JobRuns.JobStr | payload_processing/tools.go:55-71 | fatal iff the `prowjob.json` fetch fails; otherwise the line with that farm |
| Junit.JobIdFrom | payload_processing/tools.go:207-208 | the leftmost 19-digit run at or after a position |
| Junit.JobId | payload_processing/tools.go:207-214 | a job id exists iff some 19 digits occur; it is 19 digits |
| Junit.JobIdExtends | payload_processing/tools.go:207-214 | appending text keeps an address's job id |
| Junit.LocalPath | payload_processing/tools.go:238-239 | the local file is `/tmp/<jobId>/<name>` |
| Junit.WantedPaths | payload_processing/tools.go:233-277 | at most one path per line |
| Junit.AllFetchedSnoc | payload_processing/tools.go:233-277 | the downloads succeed over one more line iff they do over the earlier lines and the new line, if wanted, fetches |
| Junit.EntryOf | payload_processing/tools.go:233-277 | a line is skipped iff it is not a `gcs/origin-ci-test` link or its `/tmp/<jobId>/<name>` path does not match the pattern; a wanted line is downloaded to that path iff its fetch succeeds, and is fatal otherwise |
| Junit.Downloads | payload_processing/tools.go:233-278 | succeeds iff every wanted line's fetch succeeds, and then lists exactly the wanted lines' paths, in page order |
| Junit.JunitFiles | payload_processing/tools.go:204-283 | a failed listing fetch is fatal; otherwise it succeeds iff every wanted link downloads, listing the wanted paths in page order and then the job id |
| Junit.DownloadsFatal | payload_processing/tools.go:233-278 | a fatal download ends the whole listing |
| Junit.ProcessJunit | payload_processing/tools.go:204-283 | the loop computes `JunitFiles` |
| Junit.ChooseAsWritten | payload_processing/tools.go:547-559 | as written, a non-empty first listing is always kept |
| Junit.EmptyPage | payload_processing/tools.go:226-281 | an empty directory page lists only the job id |
| Junit.IdNotXml | payload_processing/tools.go:564 | a job id names no XML file |
| Junit.DeadFallback | payload_processing/tools.go:547-559 | as written, the fallback directory is never read, even when it holds the only JUnit file |
| Junit.ChooseListing | payload_processing/tools.go:547-559 | the corrected choice: the first listing when it has an XML file, otherwise the fallback in fallback mode; XML is found iff either has some |
| Junit.InstancesNamed | payload_processing/tools.go:597-600 | a name's group holds exactly the cases with that name |
| Junit.InstancesPresent | payload_processing/tools.go:597-600 | every case's name has a group |
| Junit.GroupsInstances | payload_processing/tools.go:597-600 | the map has exactly the names that occur, each with all its cases in order |
| Junit.GroupByName | payload_processing/tools.go:597-600 | the first loop builds `Groups` |
| Junit.ReportedByName | payload_processing/tools.go:601-648 | per name, all of its failing cases are reported or none |
| Junit.OneOfGroup | payload_processing/tools.go:601-636 | a case is shown iff its name qualifies: a failing single case, or two failing cases, and not an infrastructure step |
| Junit.MemberOfGroup | payload_processing/tools.go:597-600 | a case is in its own group |
| Junit.FailureSeverity | payload_processing/tools.go:623-628 | orange iff the name is a disruption, else purple |
| Junit.DetailLines | payload_processing/tools.go:639-645 | a detail line iff details are on, the name mentions disruption and the failure has text; the content's first line, else the message's |
| Junit.CaseLines | payload_processing/tools.go:637-645 | the name line in its colour, then the detail lines |
| Junit.ReportedFail | payload_processing/tools.go:601-602 | only failing cases are reported |
| Junit.CheckFailure | payload_processing/tools.go:603-620 | the flake test computes `IsFailure` |
| Junit.ClassifySuite | payload_processing/tools.go:597-648 | the two loops compute the suite's output |
| Junit.ClassifyCase | payload_processing/tools.go:602-645 | one case adds its name and detail lines exactly when it fails, is a failure by the flake rule and is not an infrastructure step |
| Junit.FilesOutput | payload_processing/tools.go:563-566 | files without ".xml" produce nothing |
| Junit.FilesFatal | payload_processing/tools.go:563-587 | an undecodable file ends the whole output |
| Junit.ClassifyFiles | payload_processing/tools.go:563-649 | the loop over the files computes `FilesOutput` |
| Junit.ClassifyFile | payload_processing/tools.go:564-648 | one file extends the output of the files before it to `FilesOutput` of one more file: a file whose name lacks ".xml" adds nothing, one that cannot be opened or parsed is fatal, and any other adds its suite's lines |
| Junit.LocationsHaveId | payload_processing/tools.go:518-544 | both JUnit directories keep the job id |
| Junit.PlainSummary | payload_processing/tools.go:470-669 | the address line is printed iff `displayUrl` |
| Junit.PrintPlainSummaryTests | payload_processing/tools.go:470-669 | the method computes `PlainSummary` |
| Payloads.Separator | payload_processing/tools.go:313 | 175 '=' characters |
| Payloads.EntryOf | payload_processing/tools.go:392-402 | an item is read iff the job pattern matches; its address, name and state are the pattern's groups 1, 2 and 3 |
| Payloads.Verdict | payload_processing/tools.go:390-409 | the status is Accepted, Rejected or Pending |
| Payloads.VerdictAccepted | payload_processing/tools.go:390-409 | Accepted iff no item failed or is pending |
| Payloads.VerdictLastDecides | payload_processing/tools.go:396-409 | otherwise the last failed or pending item decides |
| Payloads.DeriveStatus | payload_processing/tools.go:388-422 | the loop computes `Verdict`; the phase then wins |
| Payloads.EntryEvents | payload_processing/tools.go:432-457 | a job is reported iff it failed or `showSuccess`; a result line only for Failed or Succeeded; always handed on last |
| Payloads.ResultLine | payload_processing/tools.go:438-443 | red for Failed, green otherwise; the text is the short name and the state, each after two spaces, with a trailing space |
| Payloads.Handed | payload_processing/tools.go:445-457 | an `aggregated` name goes to the aggregated summary, else to the plain one, with the item's address and its name trimmed of spaces as the short name |
| Payloads.OnlyFailuresHandedOn | payload_processing/tools.go:437 | without `showSuccess`, every hand-off is of a failed job |
| Payloads.FailuresHandedOn | payload_processing/tools.go:437-457 | every failed job is handed on |
| Payloads.ReportJob | payload_processing/tools.go:432-457 | the second loop's body computes `EntryEvents` |
| Payloads.SelectJobs | payload_processing/tools.go:427-459 | the second loop computes `JobEvents` |
| Payloads.SelectItem | payload_processing/tools.go:428-457 | one item adds nothing when the job pattern does not match it, and otherwise its entry's events, so the events so far stay `JobEvents` of the items so far |
| Payloads.TitleColor | payload_processing/tools.go:289-307 | red iff Rejected, green iff Accepted, cyan iff Pending, Ready or empty; none otherwise |
| Payloads.TitleUrl | payload_processing/tools.go:289-307 | a rejected payload always shows its address; others only with `showAllUrl`; an unknown status shows none |
| Payloads.TitleHeader | payload_processing/tools.go:308-315 | title, status marked "(f)" when forced, the time right-aligned in 11 columns, a space, the time detail right-aligned in 16 columns, and the address last |
| Payloads.TitleLines | payload_processing/tools.go:286-316 | the unknown-status complaint only for an unknown status, then the blank line, the separator and the title |
| Payloads.TitleGroup | payload_processing/tools.go:330 | the title is captured iff the title pattern matches, and is its group 1 |
| Payloads.PageTitle | payload_processing/tools.go:330-336 | the title loses its first eight characters (bytes in Go); a shorter one panics; "No release" without a title |
| Payloads.AgedOutLines | payload_processing/tools.go:339-377 | a blank line, the separator, the address's last part with the phase, "(f)" when forced and the release address, then the page's first line indented |
| Payloads.PayloadEvents | payload_processing/tools.go:322-460 | fatal iff the fetch fails or the title slice panics; a page with blocking jobs prints the computed status first; a page without them prints `AgedOutLines` |
| Payloads.PayloadParts | payload_processing/tools.go:322-460 | a page with blocking jobs gives the verdict, then the title block carrying the payload's phase, then `JobEvents` of the blocking items |
| Payloads.Says | payload_processing/tools.go:322-460 | printed lines become events one for one |
| Payloads.ProcessPayloadItem | payload_processing/tools.go:322-460 | the method computes `PayloadEvents` |
| Getters.ReleaseUrl | payload_processing/payload_getters.go:183 | a release page address is under the controller's prefix and ends with the tag |
| Getters.ReleaseUrlsDiffer | payload_processing/payload_getters.go:183 | different tags have different release pages |
| Getters.FromRecord | payload_processing/payload_getters.go:172-187 | forced iff forced or accepted after an aggregated failure; phase and time copied; no time detail |
| Getters.RecordPayloadsAppend | payload_processing/payload_getters.go:168-188 | the listing of concatenated records is the concatenation of their listings |
| Getters.RecordPayloadsSound | payload_processing/payload_getters.go:168-188 | each listed payload comes from a wanted amd64 record of the stream |
| Getters.RecordPayloadsComplete | payload_processing/payload_getters.go:168-188 | each wanted amd64 record of the stream is listed |
| Getters.AnyAggregated | payload_processing/payload_getters.go:172-178 | the inner loop finds a failed job starting `aggregated` iff one exists |
| Getters.ListRecords | payload_processing/payload_getters.go:168-188 | the loop computes `RecordPayloads` |
| Getters.DatabaseListing | payload_processing/payload_getters.go:140-190 | fatal iff the fetch fails; prints nothing; the payloads are `RecordPayloads` of the decoded records |
| Getters.TagPayloads | payload_processing/payload_getters.go:226-232 | one payload per tag, in order, with its phase and "Unknown ago" |
| Getters.TagPagesDistinct | payload_processing/payload_getters.go:226-232 | tags with distinct names give distinct pages |
| Getters.ListTags | payload_processing/payload_getters.go:226-232 | the loop computes `TagPayloads` |
| Getters.ApiListing | payload_processing/payload_getters.go:194-234 | fatal iff the fetch fails; prints the address; the payloads are `TagPayloads` of the decoded tags, one per tag |
| Getters.CurrentBanner | payload_processing/payload_getters.go:45-53 | a banner exists iff the stream is nightly or ci |
| Getters.PrevVersion | payload_processing/payload_getters.go:56-72 | a previous version exists iff the version is 4.12 to 4.16 |
| Getters.PrevVersionSteps | payload_processing/payload_getters.go:58-72 | each supported version names the minor version before it |
| Getters.PrevBanner | payload_processing/payload_getters.go:74-85 | the end column is 89 for nightly and 79 for ci |
| Getters.BannerTable | payload_processing/payload_getters.go:86-97 | the table is the text after the stream's first banner, cut before that banner's next occurrence and then before the previous version's banner |
| Getters.LinesOf | payload_processing/payload_getters.go:97 | the lines hold no newline and rejoin to the text |
| Getters.TableLines | payload_processing/payload_getters.go:35-97 | read iff the fetch succeeds, the stream is known and the version supported; the lines are those of `BannerTable` and the end column is the previous banner's |
| Getters.TimeGroups | payload_processing/payload_getters.go:117 | the time pattern gives no groups or three |
| Getters.ReadRow | payload_processing/payload_getters.go:100-127 | fails iff a slice or index panics; the address is the controller's prefix plus the stripped row's characters 16 up to the end column (bytes in Go); the state is the status group when the next line names one, else "unknown state"; the time and detail are the time pattern's group 2 and group 1 without five characters, else "unknown time" |
| Getters.HitsAreRows | payload_processing/payload_getters.go:98-130 | every row read is a row of the stream, and rows read are at least three lines apart |
| Getters.RowsShadowed | payload_processing/payload_getters.go:98-130 | a row not read is one of the two lines consumed after a row that was |
| Getters.RowPayloads | payload_processing/payload_getters.go:98-130 | one payload per row read, in order |
| Getters.RowReaderUnderPrefix | payload_processing/payload_getters.go:106-127 | the tool's row reader gives unforced payloads under the controller's prefix |
| Getters.PagePayloadsUnderPrefix | payload_processing/payload_getters.go:98-130 | such a reader lists only such payloads |
| Getters.PageListing | payload_processing/payload_getters.go:35-133 | succeeds iff the fetch succeeds, the stream is known and the version supported; prints nothing; the payloads are `RowPayloads` of the rows the scan reads in the table's lines |
| Getters.NextHit | payload_processing/payload_getters.go:98-130 | a row met by the scan is the next row read |
| Getters.ScanRows | payload_processing/payload_getters.go:97-131 | the loop computes `RowPayloads` of the rows the scan reads |
| Getters.PageGetUrls | payload_processing/payload_getters.go:35-133 | the method computes `PageListing` |
| Getters.PayloadItems | payload_processing/payload_getters.go:236-254 | each mode gives its getter's result: the web page, the database or the API; every payload's page is under the controller's prefix; API payloads are "Unknown ago" and unforced; only the web page gives a time detail |
| Getters.AllPayloadsFatal | payload_processing/payload_getters.go:256-260 | the walk is fatal iff some payload's step is |
| Getters.ProcessPayloadItems | payload_processing/payload_getters.go:256-260 | the loop computes `AllPayloadEvents` |
| Getters.FatalPrefix | payload_processing/payload_getters.go:256-260 | a fatal step ends the walk there |
| Analysis.ModeOf | job_analysis/analysis.go:62-68 | aggregated iff the address mentions "aggregated"; else payload iff "releasestream"; else plain |
| Analysis.ShortNamesTable | job_analysis/analysis.go:43-60 | the IPv6 metal job shares the bare-metal short name; the Alibaba job is not in the table |
| Analysis.AggrJobOf | job_analysis/analysis.go:79-90 | the job name and id are read iff the aggregated pattern matches; they are groups 1 and 3 |
| Analysis.PlainJobOf | job_analysis/analysis.go:123-131 | the job name is read iff the plain pattern matches; it is group 2 |
| Analysis.PlanFor | job_analysis/analysis.go:62-153 | payload analysis iff payload mode; each analysis uses the job's table short name; each exit message iff its condition |
| Analysis.RenderList | job_analysis/analysis.go:99-110 | the header, the aggregated job then its runs one per line, a comma after all but the last, and "]," |
| Analysis.AggrJobList | job_analysis/analysis.go:95-110 | fatal iff the job-run summary fetch fails, with no warning; otherwise the red shortfall warning iff fewer than 10 runs, then the header, the job and its runs one per line with commas, and "]," |
| GcsFinder.Pow1024 | cmd/gcs-finder/main.go:179-183 | the divisor is positive |
| GcsFinder.ExponentBrackets | cmd/gcs-finder/main.go:179-184 | the final divisor brackets the size: div <= bytes < 1024 * div |
| GcsFinder.PowMonotone | cmd/gcs-finder/main.go:179-183 | a larger exponent gives a larger divisor |
| GcsFinder.ExponentAtMostFive | cmd/gcs-finder/main.go:174-184 | for any 64-bit size the unit index stays within "KMGTPE" |
| GcsFinder.SizeText | cmd/gcs-finder/main.go:176-178 | a size under 1024 prints as "<n>.0 B" |
| GcsFinder.ScaledSize | cmd/gcs-finder/main.go:174-184 | larger sizes are divided by a power of 1024 that brackets them, with exponent at most 5 |
| GcsFinder.FormatBytes | cmd/gcs-finder/main.go:174-185 | the loop computes `SizeText` |
| GcsFinder.CredentialsAsWritten | cmd/gcs-finder/main.go:74-82 | as written, the flag's value is always used |
| GcsFinder.EmptyCredentialsAccepted | cmd/gcs-finder/main.go:74-82 | as written, with neither `-cred` nor the environment variable set, setup goes on with an empty path where the intended lookup exits with the "Please provide the path …" message |
| GcsFinder.Credentials | cmd/gcs-finder/main.go:74-82 | the corrected lookup: succeeds iff the flag or the trimmed environment value is non-empty; never empty; the flag first |
| GcsFinder.Setup | cmd/gcs-finder/main.go:57-106 | the fatal checks, with the corrected credentials lookup; the names from the flags, or a three-part path |
| GcsFinder.BuiltPath | cmd/gcs-finder/main.go:62-90 | a path built from the flags lists `<jobName>/<jobID>` |
| GcsFinder.SetupAccepts | cmd/gcs-finder/main.go:57-106 | setup succeeds iff a path or both ids, a valid regex, credentials by the corrected lookup, and with a path a three-part job path |
| GcsFinder.Colored | cmd/gcs-finder/main.go:145-149 | the first occurrence of the match is wrapped in red; a name without it is unchanged |
| GcsFinder.DirNameAsWritten | cmd/gcs-finder/main.go:159 | as written, there is no directory part (the slice panics) iff the name has no '/' |
| GcsFinder.TopLevelObjectPanics | cmd/gcs-finder/main.go:143-159 | an object directly in the job directory has a slash-free shown name, so the slice panics |
| GcsFinder.DirName | cmd/gcs-finder/main.go:159 | the corrected directory part: the prefix before the last '/', "" when there is none |
| GcsFinder.ObjectLines | cmd/gcs-finder/main.go:143-166 | nothing iff no match; one line, or three with `showUrls`; the size padded to 10 and the coloured name; the object's address in green and its directory's (the corrected `DirName`) in yellow |
| GcsFinder.MatchCountBound | cmd/gcs-finder/main.go:139-165 | never more matches than files |
| GcsFinder.ListedLength | cmd/gcs-finder/main.go:152-164 | one line per match, three with `showUrls` |
| GcsFinder.PrintObject | cmd/gcs-finder/main.go:143-166 | the loop body computes `ObjectLines` |
| GcsFinder.ListObjects | cmd/gcs-finder/main.go:130-170 | fatal iff the iterator errs; the counts; the header, the objects' lines and the totals |
| Nightly.StampFrom | nightly-status.py:33 | the leftmost `\d{4}-\d{2}-\d{2}-\d{6}` at or after a position |
| Nightly.Formatted | nightly-status.py:37-38 | the stamp rewritten as `YYYY-MM-DD HH:MM:SS`, digit for digit |
| Nightly.DaysInMonth | nightly-status.py:41 | 28 to 31 days |
| Nightly.Strptime | nightly-status.py:40-43 | a time iff the fields form a valid date and clock, with those fields |
| Nightly.FormattedFields | nightly-status.py:37-41 | reformatting a stamp keeps its six numbers |
| Nightly.ParseTimestamp | nightly-status.py:24-43 | nothing without a stamp; with one, a time iff the leftmost stamp's six numbers are all in range, and then exactly those numbers |
| Nightly.YearLength | nightly-status.py:56 | each year adds 366 days when leap, else 365 |
| Nightly.AgeHours | nightly-status.py:60 | the hour part lies in 0..23 |
| Nightly.AgeBetweenHours | nightly-status.py:56-62 | days and hours place the age between two whole hours; days > 0 iff at least a day |
| Nightly.AgeString | nightly-status.py:46-65 | "Nd Hh" from a day on, else the hour count with "h" |
| Nightly.LatestInfo | nightly-status.py:68-101 | information iff status 200, some tags, and the first has a name and phase; age "unknown" iff the tag holds no time |
| Nightly.StatusOf | nightly-status.py:123-137 | available iff information was found; otherwise N/A everywhere |
| Nightly.ResultsEntries | nightly-status.py:114-139 | exactly one entry per requested version, holding its status |
| Nightly.ResultsAvailable | nightly-status.py:114-139 | a version's entry is available iff its latest nightly was found |
| Nightly.GetNightlyStatus | nightly-status.py:104-139 | the loop computes the results; one progress message per version iff progress is shown |
| Nightly.TagDisplayTail | nightly-status.py:163-164 | the shown tag is the last four dash-separated parts: the whole tag when it has four |
| Nightly.Row | nightly-status.py:156-167 | four cells left-justified in 8, 35, 10 and 8 columns, one space apart, each starting with its text |
| Nightly.TableRow | nightly-status.py:159-167 | an available entry shows the version, the shown tag, the phase and the age in the four cells; an unavailable one shows N/A in the last three |

## Left out

- Goroutines, channels, the 60-second wait and the fetch timeouts of `PrintAggrSummaryTests` and `getBodyTimeout`. A fetch is a parameter whose answer is a body, a timeout or a transport error. The runs' lines are returned in page order, not the order the goroutines finish.
- Floating point: `getJobStr`'s duration parse and star scale, `%.1f` in `formatBytes` and the age's hour count. Each is a parameter (`scale`, `RatioFormatter`, `HourFormatter`). `createSortedDurations`'s float parse and round is the parameter `round`.
- Ages are in whole seconds; the microseconds of `datetime` are dropped. The clock (`datetime.now`) is the parameter `now`.
- File system, HTTP client, GCS client, command-line flags and cobra: these are parameters or the inputs of the modelled functions. Deleting the downloaded files is not modelled.
- JSON and XML decoding are parameters (`decodeRecords`, `decodeTags`, `Decoder`, `Reply`). The panic on an empty `<testsuites>` in fallback mode is the decoder's.
- `\d` is ASCII digits only (Go's RE2 default; Python's `re` also accepts other Unicode digits).
- `print_table_output`'s "Run time" header (a clock read in New York time) and its float sort of versions are left out. `main` of `nightly-status.py` (argument parsing, JSON output) is left out.
- Output already printed before a fatal exit is not kept in the `Fatal` result.
- JobRuns.JobStr, Getters.ReadRow, Getters.TableLines, Getters.PageListing, Getters.ScanRows, Nightly.TableRow: a Go panic (a slice or index out of range) or a Python `IndexError` is a precondition or a `None` case rather than a crash.
- FailureScan.ScanFailures, Junit.ProcessJunit, Junit.PrintPlainSummaryTests: the panics (a `Failed: ` line on the last line, a missing job id) are preconditions.
- `getPayloadItems`'s default case (an unknown database mode) cannot be reached from the three-constructor `DbMode`.
- The "Do this someday" suffix for `install-analysis-all` is modelled as written; that directory is never listed.
- GcsFinder.Credentials: trims spaces only, where `strings.TrimSpace` also trims tabs and newlines.
- Analysis.PlanFor: the summaries it hands to (`PrintAggrSummaryTests`, `PrintPlainSummaryTests`, `ProcessPayloadItem`) are modelled in their own modules; `Run`'s informational lines ("Run called", the mode names) are not modelled.
- Summary.Atoi: only digit strings are read, since the patterns give it nothing else. A value above Go's `int` range saturates at MaxInt, as `strconv.Atoi` does on its range error; the contract states that case as a range only.
- Junit.PlainSummary: its contract states the printed address line; the classification is stated by `FilesOutput`, `ClassifySuite` and `ChooseListing`.
- The cleanup loop at the end of `PrintPlainSummaryTests` (closing and deleting files) is not modelled.
- Junit.PlainSummary: follows the corrected `ChooseListing` (read the fallback when the first listing holds no XML file); the code as written never reads the fallback, which `ChooseAsWritten` and `DeadFallback` state.
- Junit.PrintPlainSummaryTests: follows the corrected `ChooseListing`, as `PlainSummary` does; the as-written test is `ChooseAsWritten`.
- GcsFinder.Setup: uses the corrected `Credentials` (the environment variable when the flag is empty, fatal when both are empty); the code as written passes the flag's value on, even when empty, and leaves the variable to the client library's default lookup; with neither set it goes on instead of exiting, which `CredentialsAsWritten` and `EmptyCredentialsAccepted` state.
- GcsFinder.SetupAccepts: states the credentials condition of the corrected `Credentials`, which the code as written never checks.
- GcsFinder.ObjectLines: the yellow directory line uses the corrected `DirName` (empty at the top level); as written the slice panics for a name without '/', which `DirNameAsWritten` and `TopLevelObjectPanics` state.
- GcsFinder.PrintObject: prints `ObjectLines`, so it uses the corrected `DirName` too.
- GcsFinder.ListObjects: lists a matched name without '/' under `showUrls` where the code as written panics, since its objects' lines are `ObjectLines`.
- FailureScan.Headline: counts characters, where Go's `len` and `[:maxChar]` count bytes (tools.go:780-781); a multi-byte line is cut at a different place.
- Payloads.PageTitle, Getters.ReadRow: the fixed offsets `tlines[1][8:]` (tools.go:333), `str1[16:endChar]` (payload_getters.go:106) and `[5:]` (payload_getters.go:119) count characters here where Go counts bytes; a non-ASCII character before an offset moves both the cut and the panic condition.
- Durations.PairValue: the "Error parsing float: " line printed for an unparsable duration (tools.go:182) is not part of the output.
- Payloads.PayloadEvents: the events name the hand-offs to `PrintAggrSummaryTests` and `PrintPlainSummaryTests`; those summaries' own lines and fatal exits are modelled by `Analysis`, `Junit` and `FailureScan`, not composed into these events.
- Payloads.ProcessPayloadItem: computes `PayloadEvents`, with the same hand-offs left uncomposed.

## Findings

| source | as written | input that shows it | evidently intended | confidence | as-written member | corrected member |
|---|---|---|---|---|---|---|
| payload_processing/tools.go:553 | the fallback directory is read only when the first listing is empty, but `processJunit` always appends the job id, so the listing is never empty | an empty first JUnit directory (listing = [jobId]) and a fallback directory holding `junit.xml` | read the fallback when the first listing has no XML file | not executed | Junit.DeadFallback | Junit.ChooseListing |
| cmd/gcs-finder/main.go:74 | `inputGcsCredentials == nil` never holds, since `flag.String` returns a pointer, so main.go never reads the environment variable itself (the client library's default lookup, reached through the empty path passed to `option.WithCredentialsFile` at main.go:110, still does) and the "Please provide the path …" exit never fires | neither `-cred` nor `GOOGLE_APPLICATION_CREDENTIALS` set: the source goes on to `storage.NewClient` instead of exiting | use the environment variable, and exit when neither is set | not executed | GcsFinder.EmptyCredentialsAccepted | GcsFinder.Credentials |
| cmd/gcs-finder/main.go:159 | `name[:strings.LastIndex(name, "/")]` slices with -1 when the shown name has no '/' | `-showUrls` and an object `logs/<job>/<id>/build-log.txt` matching the regex | the directory part, empty at the top level | not executed | GcsFinder.TopLevelObjectPanics | GcsFinder.DirName |
