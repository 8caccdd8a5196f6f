/** The JUnit side of `PrintPlainSummaryTests`: `processJunit` lists a job's
    JUnit directory and keeps the XML files in it, and the classifier turns
    each decoded test suite into the failures worth showing under the
    count-based flake rule, leaving out infrastructure steps and marking
    disruption tests. XML decoding is a foreign library: a decoded suite is
    an input of the model. */
module Junit {
  import opened Common
  import opened Strings
  import opened Regex
  import Addresses
  import FailureScan

  // ---------------------------------------------------------------------
  // The job id of an address (`\d{19}`)

  const JobIdLength := 19

  /** Nineteen digits start at `i`. */
  predicate JobIdAt(s: string, i: nat) {
    i + JobIdLength <= |s| && AllDigits(s[i..i + JobIdLength])
  }

  /** The leftmost job id at or after `i`. */
  function JobIdFrom(s: string, i: nat): (r: Option<nat>)
    ensures r.Some? ==> i <= r.value && JobIdAt(s, r.value)
    ensures r.Some? ==> forall j :: i <= j < r.value ==> !JobIdAt(s, j)
    ensures r.None? ==> forall j: nat :: i <= j ==> !JobIdAt(s, j)
    decreases |s| - i
  {
    if i + JobIdLength > |s| then None
    else if JobIdAt(s, i) then Some(i)
    else JobIdFrom(s, i + 1)
  }

  /** The leftmost match of `\d{19}`: the job id `processJunit` takes from
      the directory address. */
  function JobId(url: string): (r: Option<string>)
    ensures r.Some? <==> exists i: nat :: JobIdAt(url, i)
    ensures r.Some? ==> |r.value| == JobIdLength && AllDigits(r.value)
  {
    match JobIdFrom(url, 0)
    case None => None
    case Some(i) => Some(url[i..i + JobIdLength])
  }

  /** Appending text keeps an address's job id available. */
  lemma JobIdExtends(s: string, t: string)
    requires JobId(s).Some?
    ensures JobId(s + t).Some?
  {
    var i: nat :| JobIdAt(s, i);
    assert (s + t)[i..i + JobIdLength] == s[i..i + JobIdLength];
    assert JobIdAt(s + t, i);
  }

  // ---------------------------------------------------------------------
  // `processJunit`

  const StorageHost := "https://gcsweb-ci.apps.ci.l2s4.p1.openshiftapps.com"

  /** `^.*<a href="` */
  const LinkLead: Pattern := Cons(Start, Cons(Rep(NotNewline, 0, true, false), Cons(Lit("<a href=\""), Nil)))
  /** `"><.*$` */
  const LinkTail: Pattern := Cons(Lit("\"><"), Cons(Rep(NotNewline, 0, true, false), Cons(End, Nil)))

  /** The address a listing entry links to: the text up to its last
      `<a href="` becomes the storage host, and everything from the first
      `"><` on is removed. */
  function LinkOf(entry: string): string {
    ReplaceAllString(LinkTail, ReplaceAllString(LinkLead, entry, StorageHost), "")
  }

  /** How a listing entry is turned into an address; `LinkOf` is the tool's. */
  type Linker = string -> string

  /** The file name filter `processJunit` is called with: `xml`. */
  const XmlPattern: Pattern := Cons(Lit("xml"), Nil)

  /** `filepath.Join("/tmp", jobId, name)` for a name without `/` and a job
      id of digits: "" and "." add nothing and ".." climbs out of the job
      directory, as `filepath.Clean` makes them. */
  function LocalPath(jobId: string, name: string): (r: string)
    ensures HasPrefix(r, "/tmp")
    ensures name !in {"", ".", ".."} ==> r == "/tmp/" + jobId + "/" + name
  {
    if name == "" || name == "." then "/tmp/" + jobId
    else if name == ".." then "/tmp"
    else "/tmp/" + jobId + "/" + name
  }

  /** What one entry of the listing contributes. */
  datatype Entry = Skip | Got(path: string) | Failed(reason: string)

  /** The local file an entry would be saved as: the last part of the
      address it links to, under the job's directory. */
  function EntryPath(line: string, jobId: string, link: Linker): string {
    LocalPath(jobId, LastPart(link(line), "/"))
  }

  /** An entry that is downloaded: a link into the `origin-ci-test` bucket
      whose local file name passes the filter. */
  predicate Wanted(line: string, jobId: string, pattern: Pattern, link: Linker) {
    Contains(line, "gcs/origin-ci-test") && Matches(pattern, EntryPath(line, jobId, link))
  }

  /** The local files of the wanted entries, in listing order. */
  function WantedPaths(lines: seq<string>, jobId: string, pattern: Pattern, link: Linker): (r: seq<string>)
    ensures |r| <= |lines|
  {
    if lines == [] then []
    else
      var last := lines[|lines| - 1];
      WantedPaths(lines[..|lines| - 1], jobId, pattern, link)
        + (if Wanted(last, jobId, pattern, link) then [EntryPath(last, jobId, link)] else [])
  }

  /** Every wanted entry's address answers with a body. */
  predicate AllFetched(lines: seq<string>, jobId: string, pattern: Pattern, web: string -> Fetch, link: Linker) {
    forall k :: 0 <= k < |lines| && Wanted(lines[k], jobId, pattern, link) ==> web(link(lines[k])).Body?
  }

  /** An entry: a link into the `origin-ci-test` bucket whose local file name
      passes the filter is downloaded; a failed download is fatal. */
  function EntryOf(line: string, jobId: string, pattern: Pattern, web: string -> Fetch, link: Linker): (e: Entry)
    ensures e.Got? ==> Contains(line, "gcs/origin-ci-test") && Matches(pattern, e.path) && HasPrefix(e.path, "/tmp")
    ensures !Contains(line, "gcs/origin-ci-test") ==> e.Skip?
    ensures e.Skip? <==> !Wanted(line, jobId, pattern, link)
    ensures e.Got? <==> Wanted(line, jobId, pattern, link) && web(link(line)).Body?
    ensures e.Got? ==> e.path == EntryPath(line, jobId, link)
  {
    if !Contains(line, "gcs/origin-ci-test") then Skip
    else
      var address := link(line);
      var path := LocalPath(jobId, LastPart(address, "/"));
      if !Matches(pattern, path) then Skip
      else if web(address).Body? then Got(path)
      else Failed(FetchFailure(web(address)))
  }

  /** The files downloaded for the entries, in listing order; the first
      failed download is fatal. */
  function Downloads(lines: seq<string>, jobId: string, pattern: Pattern, web: string -> Fetch, link: Linker)
    : (r: Outcome<seq<string>>)
    ensures r.Ok? ==> |r.value| <= |lines|
    ensures r.Ok? ==> forall k :: 0 <= k < |r.value| ==> Matches(pattern, r.value[k]) && HasPrefix(r.value[k], "/tmp")
    ensures r.Ok? <==> AllFetched(lines, jobId, pattern, web, link)
    ensures r.Ok? ==> r.value == WantedPaths(lines, jobId, pattern, link)
  {
    if lines == [] then Ok([])
    else
      var init := lines[..|lines| - 1];
      AllFetchedSnoc(lines, jobId, pattern, web, link);
      match Downloads(init, jobId, pattern, web, link)
      case Fatal(e) => Fatal(e)
      case Ok(files) =>
        match EntryOf(lines[|lines| - 1], jobId, pattern, web, link)
        case Skip => Ok(files)
        case Got(path) => Ok(files + [path])
        case Failed(e) => Fatal(e)
  }

  /** Every wanted entry is fetched exactly when every one before the last
      is and the last one is, if wanted. */
  lemma AllFetchedSnoc(lines: seq<string>, jobId: string, pattern: Pattern, web: string -> Fetch, link: Linker)
    requires lines != []
    ensures AllFetched(lines, jobId, pattern, web, link) <==>
      && AllFetched(lines[..|lines| - 1], jobId, pattern, web, link)
      && (Wanted(lines[|lines| - 1], jobId, pattern, link) ==> web(link(lines[|lines| - 1])).Body?)
  {
    var init := lines[..|lines| - 1];
    if AllFetched(lines, jobId, pattern, web, link) {
      forall k | 0 <= k < |init| && Wanted(init[k], jobId, pattern, link)
        ensures web(link(init[k])).Body?
      {
        assert init[k] == lines[k];
      }
    }
  }

  /** What `processJunit(url, pattern)` returns: the downloaded files with the
      job id last (kept for removing the directory), or a fatal end when the
      listing or a download fails. */
  function JunitFiles(url: string, pattern: Pattern, web: string -> Fetch, link: Linker): (r: Outcome<seq<string>>)
    requires JobId(url).Some?
    ensures !web(url).Body? ==> r.Fatal?
    ensures r.Ok? ==> |r.value| >= 1 && r.value[|r.value| - 1] == JobId(url).value
    ensures r.Ok? ==> forall k :: 0 <= k < |r.value| - 1 ==> Matches(pattern, r.value[k])
    ensures r.Ok? <==> web(url).Body? && AllFetched(Split(web(url).text, "\n"), JobId(url).value, pattern, web, link)
    ensures r.Ok? ==> r.value == WantedPaths(Split(web(url).text, "\n"), JobId(url).value, pattern, link) + [JobId(url).value]
  {
    if !web(url).Body? then Fatal(FetchFailure(web(url)))
    else
      match Downloads(Split(web(url).text, "\n"), JobId(url).value, pattern, web, link)
      case Fatal(e) => Fatal(e)
      case Ok(files) => Ok(files + [JobId(url).value])
  }

  /** One more entry. */
  lemma DownloadsSnoc(lines: seq<string>, i: nat, jobId: string, pattern: Pattern, web: string -> Fetch, link: Linker)
    requires i < |lines|
    ensures Downloads(lines[..i + 1], jobId, pattern, web, link) ==
      match Downloads(lines[..i], jobId, pattern, web, link)
      case Fatal(e) => Fatal(e)
      case Ok(files) =>
        match EntryOf(lines[i], jobId, pattern, web, link)
        case Skip => Ok(files)
        case Got(path) => Ok(files + [path])
        case Failed(e) => Fatal(e)
  {
    var front := lines[..i + 1];
    assert front[..|front| - 1] == lines[..i];
    assert front[|front| - 1] == lines[i];
  }

  /** A fatal end on the first entries is the fatal end of the whole listing. */
  lemma {:induction false} DownloadsFatal(lines: seq<string>, n: nat, jobId: string, pattern: Pattern,
                                          web: string -> Fetch, link: Linker)
    requires n <= |lines| && Downloads(lines[..n], jobId, pattern, web, link).Fatal?
    ensures Downloads(lines, jobId, pattern, web, link) == Downloads(lines[..n], jobId, pattern, web, link)
    decreases |lines| - n
  {
    if n < |lines| {
      DownloadsSnoc(lines, n, jobId, pattern, web, link);
      DownloadsFatal(lines, n + 1, jobId, pattern, web, link);
    } else {
      assert lines[..n] == lines;
    }
  }

  /** `processJunit`: lists the directory, downloads the matching files one
      by one, and appends the job id. Creating the directory and writing
      the files are left out. */
  method ProcessJunit(url: string, pattern: Pattern, web: string -> Fetch, link: Linker) returns (r: Outcome<seq<string>>)
    requires JobId(url).Some?
    ensures r == JunitFiles(url, pattern, web, link)
  {
    var jobId := JobId(url).value;
    var listing := web(url);
    if !listing.Body? {
      return Fatal(FetchFailure(listing));
    }
    var lines := Split(listing.text, "\n");
    var files: seq<string> := [];
    var i := 0;
    while i < |lines|
      invariant 0 <= i <= |lines|
      invariant Downloads(lines[..i], jobId, pattern, web, link) == Ok(files)
    {
      DownloadsSnoc(lines, i, jobId, pattern, web, link);
      var e := EntryOf(lines[i], jobId, pattern, web, link);
      if e.Failed? {
        DownloadsFatal(lines, i + 1, jobId, pattern, web, link);
        return Fatal(e.reason);
      }
      if e.Got? {
        files := files + [e.path];
      }
      i := i + 1;
    }
    assert lines[..i] == lines;
    r := Ok(files + [jobId]);
  }

  // ---------------------------------------------------------------------
  // Which listing is used

  /** Some listed file has an `.xml` name: the files the parse loop reads. */
  predicate HasXml(files: seq<string>) {
    exists k :: 0 <= k < |files| && Contains(files[k], ".xml")
  }

  /** The test that gives up the first listing for the fallback directory,
      as written: the listing has no entry at all. */
  predicate FallsBackAsWritten(files: seq<string>) {
    |files| < 1
  }

  /** The choice of listing as written. */
  function ChooseAsWritten(first: Outcome<seq<string>>, firstFallback: bool, second: Outcome<seq<string>>)
    : (r: Outcome<(seq<string>, bool)>)
    ensures first.Ok? && !FallsBackAsWritten(first.value) ==> r == Ok((first.value, firstFallback))
  {
    match first
    case Fatal(e) => Fatal(e)
    case Ok(files) =>
      if FallsBackAsWritten(files) then
        match second
        case Fatal(e) => Fatal(e)
        case Ok(fallbackFiles) => Ok((fallbackFiles, true))
      else Ok((files, firstFallback))
  }

  /** An empty directory page lists nothing but the job id. */
  lemma EmptyPage(url: string, web: string -> Fetch, link: Linker)
    requires JobId(url).Some? && web(url) == Body("")
    ensures JunitFiles(url, XmlPattern, web, link) == Ok([JobId(url).value])
  {
    var id := JobId(url).value;
    assert Split("", "\n") == [""] by {
      assert IndexOf("", "\n") == None;
    }
    assert !Contains("", "gcs/origin-ci-test") by {
      assert IndexOf("", "gcs/origin-ci-test") == None;
    }
    assert [""][..0] == [];
    assert Downloads([""], id, XmlPattern, web, link) == Ok([]);
    assert Downloads(Split(web(url).text, "\n"), id, XmlPattern, web, link) == Ok([]);
    assert [] + [id] == [id];
  }

  /** A job id names no XML file. */
  lemma IdNotXml(id: string)
    requires AllDigits(id)
    ensures !Contains(id, ".xml")
  {
    forall j | 0 <= j && j + 4 <= |id|
      ensures !OccursAt(id, ".xml", j)
    {
      assert id[j..j + 4][0] == id[j];
    }
    ContainsIff(id, ".xml");
  }

  /** As written, the fallback directory is never read: every successful
      listing ends with the job id, so it is never empty, and a first
      directory without XML files (here an empty one) is classified as it
      is, with nothing to read, even when the fallback directory holds a
      JUnit file. */
  lemma {:induction false} DeadFallback(url: string, web: string -> Fetch, link: Linker, fallbackFiles: seq<string>)
    requires JobId(url).Some? && web(url) == Body("") && HasXml(fallbackFiles)
    ensures var first := JunitFiles(url, XmlPattern, web, link);
      && first.Ok? && !FallsBackAsWritten(first.value)
      && ChooseAsWritten(first, false, Ok(fallbackFiles)).Ok?
      && !HasXml(ChooseAsWritten(first, false, Ok(fallbackFiles)).value.0)
      && ChooseListing(first, false, Ok(fallbackFiles)) == Ok((fallbackFiles, true))
  {
    var id := JobId(url).value;
    EmptyPage(url, web, link);
    IdNotXml(id);
    assert !HasXml([id]);
  }

  /** The files the classifier reads and whether they are decoded in
      fallback mode, from the first directory's listing and the fallback
      directory's: the first listing unless it yields no XML file, in which
      case the fallback listing in fallback mode. */
  function ChooseListing(first: Outcome<seq<string>>, firstFallback: bool, second: Outcome<seq<string>>)
    : (r: Outcome<(seq<string>, bool)>)
    ensures first.Fatal? ==> r == Fatal(first.reason)
    ensures first.Ok? && HasXml(first.value) ==> r == Ok((first.value, firstFallback))
    ensures first.Ok? && !HasXml(first.value) && second.Fatal? ==> r == Fatal(second.reason)
    ensures first.Ok? && !HasXml(first.value) && second.Ok? ==> r == Ok((second.value, true))
    ensures r.Ok? ==>
      (HasXml(r.value.0) <==> (first.Ok? && HasXml(first.value)) || (second.Ok? && HasXml(second.value)))
  {
    match first
    case Fatal(e) => Fatal(e)
    case Ok(files) =>
      if HasXml(files) then Ok((files, firstFallback))
      else
        match second
        case Fatal(e) => Fatal(e)
        case Ok(fallbackFiles) => Ok((fallbackFiles, true))
  }

  // ---------------------------------------------------------------------
  // The classifier

  /** A `<failure>` element: its `message` attribute and its text. */
  datatype Failure = Failure(message: string, content: string)

  /** A `<testcase>`: its name and its failure, if it has one. */
  datatype Testcase = Testcase(name: string, failure: Option<Failure>)

  /** The cases of the suite with the given name, in suite order: what the
      map `m` holds for that name. */
  function Instances(cases: seq<Testcase>, name: string): (r: seq<Testcase>)
    ensures |r| <= |cases|
  {
    if cases == [] then []
    else
      Instances(cases[..|cases| - 1], name)
      + if cases[|cases| - 1].name == name then [cases[|cases| - 1]] else []
  }

  /** The cases selected for a name carry that name, and every case of
      that name is selected. */
  lemma {:induction false} InstancesNamed(cases: seq<Testcase>, name: string)
    ensures forall k :: 0 <= k < |Instances(cases, name)| ==> Instances(cases, name)[k].name == name
    ensures forall k :: 0 <= k < |cases| && cases[k].name == name ==> cases[k] in Instances(cases, name)
  {
    if cases != [] {
      var init := cases[..|cases| - 1];
      InstancesNamed(init, name);
      forall k | 0 <= k < |cases| - 1 && cases[k].name == name
        ensures cases[k] in Instances(cases, name)
      {
        assert init[k] == cases[k];
      }
    }
  }

  lemma InstancesSnoc(cases: seq<Testcase>, i: nat, name: string)
    requires i < |cases|
    ensures Instances(cases[..i + 1], name) ==
      Instances(cases[..i], name) + if cases[i].name == name then [cases[i]] else []
  {
    assert cases[..i + 1][..i] == cases[..i];
  }

  /** A name has instances exactly when some case carries it. */
  lemma {:induction false} InstancesPresent(cases: seq<Testcase>, k: nat)
    requires k < |cases|
    ensures Instances(cases, cases[k].name) != []
  {
    var last := |cases| - 1;
    if k < last {
      InstancesPresent(cases[..last], k);
    }
  }

  /** The cases grouped by name, one case at a time: the map `m` the
      classifier's first loop builds. */
  function Groups(cases: seq<Testcase>): map<string, seq<Testcase>> {
    if cases == [] then map[]
    else
      var m := Groups(cases[..|cases| - 1]);
      var c := cases[|cases| - 1];
      m[c.name := (if c.name in m then m[c.name] else []) + [c]]
  }

  /** The groups hold exactly the names that occur, each with all of its
      cases in suite order. */
  lemma {:induction false} GroupsInstances(cases: seq<Testcase>, name: string)
    ensures name in Groups(cases) <==> Instances(cases, name) != []
    ensures name in Groups(cases) ==> Groups(cases)[name] == Instances(cases, name)
  {
    if cases != [] {
      GroupsInstances(cases[..|cases| - 1], name);
    }
  }

  /** Each case's name has a group, and the group is its instances. */
  lemma GroupOfCase(cases: seq<Testcase>, i: nat)
    requires i < |cases|
    ensures cases[i].name in Groups(cases) && Groups(cases)[cases[i].name] == Instances(cases, cases[i].name)
  {
    InstancesPresent(cases, i);
    GroupsInstances(cases, cases[i].name);
  }

  /** The first loop of the classifier. */
  method GroupByName(cases: seq<Testcase>) returns (m: map<string, seq<Testcase>>)
    ensures m == Groups(cases)
  {
    m := map[];
    var i := 0;
    while i < |cases|
      invariant 0 <= i <= |cases|
      invariant m == Groups(cases[..i])
    {
      assert cases[..i + 1][..i] == cases[..i];
      var name := cases[i].name;
      var group := if name in m then m[name] else [];
      m := m[name := group + [cases[i]]];
      i := i + 1;
    }
    assert cases[..i] == cases;
  }

  /** The count-based flake rule: a failing case is a failure when it is the
      only case of its name, or one of two cases of its name neither of
      which passed. Names with three or more cases are never failures. */
  predicate IsFailure(c: Testcase, group: seq<Testcase>) {
    c.failure.Some?
    && (|group| == 1 || (|group| == 2 && group[0].failure.Some? && group[1].failure.Some?))
  }

  /** The infrastructure steps whose failures are not shown. */
  predicate Denied(name: string) {
    Contains(name, "observers-resource-watch container test")
    || Contains(name, "openshift-e2e-test container test")
    || Contains(name, "multi-stage test test phase")
  }

  /** How the infrastructure steps are recognised; `Denied` is the tool's. */
  type StepFilter = string -> bool

  /** The case at `k` is shown. */
  predicate Shown(cases: seq<Testcase>, k: nat, deny: StepFilter)
    requires k < |cases|
  {
    IsFailure(cases[k], Instances(cases, cases[k].name)) && !deny(cases[k].name)
  }

  /** The shown cases among the first `n`, in suite order, one entry per
      instance. */
  function Reported(cases: seq<Testcase>, n: nat, deny: StepFilter): (r: seq<Testcase>)
    requires n <= |cases|
    ensures |r| <= n
  {
    if n == 0 then []
    else Reported(cases, n - 1, deny) + if Shown(cases, n - 1, deny) then [cases[n - 1]] else []
  }

  /** A name qualifies when it is not an infrastructure step and either its
      one case failed or both of its two cases failed. */
  predicate Qualifies(cases: seq<Testcase>, name: string, deny: StepFilter) {
    var group := Instances(cases, name);
    !deny(name)
    && ((|group| == 1 && group[0].failure.Some?)
        || (|group| == 2 && group[0].failure.Some? && group[1].failure.Some?))
  }

  /** All-or-nothing per name: the cases of a name that are reported are all
      of its cases, in suite order, when the name qualifies, and none of them
      otherwise. In particular a name with no failing case, a name with a
      passing and a failing case, an infrastructure step and a name with
      three or more cases are never reported, and a name that failed twice
      is reported twice. */
  lemma {:induction false} ReportedByName(cases: seq<Testcase>, n: nat, name: string, deny: StepFilter)
    requires n <= |cases|
    ensures Instances(Reported(cases, n, deny), name) ==
      if Qualifies(cases, name, deny) then Instances(cases[..n], name) else []
  {
    if Qualifies(cases, name, deny) {
      ReportedQualified(cases, n, name, deny);
    } else {
      ReportedUnqualified(cases, n, name, deny);
    }
  }

  lemma {:induction false} ReportedQualified(cases: seq<Testcase>, n: nat, name: string, deny: StepFilter)
    requires n <= |cases| && Qualifies(cases, name, deny)
    ensures Instances(Reported(cases, n, deny), name) == Instances(cases[..n], name)
  {
    if n == 0 {
      assert cases[..n] == [];
    } else {
      ReportedQualified(cases, n - 1, name, deny);
      ReportedNameStep(cases, n, name, deny);
      InstancesSnoc(cases, n - 1, name);
    }
  }

  lemma {:induction false} ReportedUnqualified(cases: seq<Testcase>, n: nat, name: string, deny: StepFilter)
    requires n <= |cases| && !Qualifies(cases, name, deny)
    ensures Instances(Reported(cases, n, deny), name) == []
  {
    if n > 0 {
      ReportedUnqualified(cases, n - 1, name, deny);
      ReportedNameStep(cases, n, name, deny);
    }
  }

  /** The `n`-th case adds itself to its name's reported cases exactly when
      the name qualifies. */
  lemma ReportedNameStep(cases: seq<Testcase>, n: nat, name: string, deny: StepFilter)
    requires 0 < n <= |cases|
    ensures Instances(Reported(cases, n, deny), name) == Instances(Reported(cases, n - 1, deny), name)
      + if Qualifies(cases, name, deny) then (if cases[n - 1].name == name then [cases[n - 1]] else []) else []
  {
    var shown := if Shown(cases, n - 1, deny) then [cases[n - 1]] else [];
    assert Reported(cases, n, deny) == Reported(cases, n - 1, deny) + shown;
    InstancesAppend(Reported(cases, n - 1, deny), shown, name);
    ShownInstances(cases, n - 1, name, deny);
  }

  /** A shown case counts for its name exactly when the name qualifies. */
  lemma ShownInstances(cases: seq<Testcase>, k: nat, name: string, deny: StepFilter)
    requires k < |cases|
    ensures Instances(if Shown(cases, k, deny) then [cases[k]] else [], name)
      == if Qualifies(cases, name, deny) then (if cases[k].name == name then [cases[k]] else []) else []
  {
    InstancesSingle(cases[k], name);
    if cases[k].name == name {
      OneOfGroup(cases, k, deny);
    }
    assert Instances([], name) == [];
  }

  /** Selecting a name from one case. */
  lemma InstancesSingle(c: Testcase, name: string)
    ensures Instances([c], name) == if c.name == name then [c] else []
  {
    assert [c][..0] == [];
  }

  /** Selecting a name distributes over concatenation. */
  lemma {:induction false} InstancesAppend(a: seq<Testcase>, b: seq<Testcase>, name: string)
    ensures Instances(a + b, name) == Instances(a, name) + Instances(b, name)
    decreases |b|
  {
    if b == [] {
      assert a + b == a;
    } else {
      assert (a + b)[..|a + b| - 1] == a + b[..|b| - 1];
      InstancesAppend(a, b[..|b| - 1], name);
    }
  }

  /** A case is shown exactly when its name qualifies, the case being one
      of its name's cases. */
  lemma OneOfGroup(cases: seq<Testcase>, k: nat, deny: StepFilter)
    requires k < |cases|
    ensures Shown(cases, k, deny) <==> Qualifies(cases, cases[k].name, deny)
  {
    var name := cases[k].name;
    var group := Instances(cases, name);
    MemberOfGroup(cases, k);
    if |group| == 1 {
      assert group[0] == cases[k];
    } else if |group| == 2 && Qualifies(cases, name, deny) {
      assert cases[k] == group[0] || cases[k] == group[1];
    }
  }

  /** A case is among the cases of its name. */
  lemma {:induction false} MemberOfGroup(cases: seq<Testcase>, k: nat)
    requires k < |cases|
    ensures cases[k] in Instances(cases, cases[k].name)
  {
    var last := |cases| - 1;
    if k < last {
      MemberOfGroup(cases[..last], k);
      assert cases[..last][k] == cases[k];
    }
  }

  /** The tag a shown failure is printed with. */
  function FailureSeverity(name: string): (sev: Severity)
    ensures sev == Disruption <==> FailureScan.IsDisruptionName(name)
    ensures sev == Failing <==> !FailureScan.IsDisruptionName(name)
  {
    if FailureScan.IsDisruptionName(name) then Disruption else Failing
  }

  /** The detail line for a shown disruption failure: the first line of the
      failure's text, or of its message when the text is empty. */
  function DetailLines(name: string, f: Failure, printTestDetail: bool, extraSpace: string): (r: seq<Line>)
    ensures |r| <= 1
    ensures |r| == 1 <==> printTestDetail && Contains(name, "disruption") && (f.content != "" || f.message != "")
    ensures |r| == 1 && f.content != "" ==> r[0] == Line(Plain, Println(["     ", extraSpace, FirstLine(f.content)]) + "\n")
    ensures |r| == 1 && f.content == "" ==> r[0] == Line(Plain, Println(["     ", extraSpace, FirstLine(f.message)]) + "\n")
  {
    if printTestDetail && Contains(name, "disruption") then
      if |f.content| > 0 then [Line(Plain, Println(["     ", extraSpace, FirstLine(f.content)]) + "\n")]
      else if |f.message| > 0 then [Line(Plain, Println(["     ", extraSpace, FirstLine(f.message)]) + "\n")]
      else []
    else []
  }

  /** What a shown failure adds to the output: its name line, tagged as a
      disruption or a plain failure, and its detail line. */
  function CaseLines(c: Testcase, printTestDetail: bool, extraSpace: string): (r: seq<Line>)
    ensures 1 <= |r| <= 2
    ensures r[0] == Line(FailureSeverity(c.name), "    " + extraSpace + "Failed: " + c.name + "\n")
    ensures c.failure.Some? ==> r[1..] == DetailLines(c.name, c.failure.value, printTestDetail, extraSpace)
  {
    [Line(FailureSeverity(c.name), "    " + extraSpace + "Failed: " + c.name + "\n")]
    + match c.failure
      case Some(f) => DetailLines(c.name, f, printTestDetail, extraSpace)
      case None => []
  }

  /** The output for a list of shown failures, one after the other. */
  function Rendered(shown: seq<Testcase>, printTestDetail: bool, extraSpace: string): (r: seq<Line>)
    ensures |shown| <= |r| <= 2 * |shown|
  {
    if shown == [] then []
    else
      Rendered(shown[..|shown| - 1], printTestDetail, extraSpace)
      + CaseLines(shown[|shown| - 1], printTestDetail, extraSpace)
  }

  /** One more shown failure. */
  lemma RenderedSnoc(shown: seq<Testcase>, c: Testcase, printTestDetail: bool, extraSpace: string)
    ensures Rendered(shown + [c], printTestDetail, extraSpace)
         == Rendered(shown, printTestDetail, extraSpace) + CaseLines(c, printTestDetail, extraSpace)
  {
    assert (shown + [c])[..|shown|] == shown;
  }

  /** Shown cases are failing cases. */
  lemma {:induction false} ReportedFail(cases: seq<Testcase>, n: nat, deny: StepFilter)
    requires n <= |cases|
    ensures forall k :: 0 <= k < |Reported(cases, n, deny)| ==> Reported(cases, n, deny)[k].failure.Some?
  {
    if n > 0 {
      ReportedFail(cases, n - 1, deny);
    }
  }

  /** The output of one suite. */
  function SuiteLines(cases: seq<Testcase>, deny: StepFilter, printTestDetail: bool, extraSpace: string): seq<Line> {
    Rendered(Reported(cases, |cases|, deny), printTestDetail, extraSpace)
  }

  /** The flake test of the classifier's second loop, for a failing case
      and the group of its name. */
  method CheckFailure(c: Testcase, group: seq<Testcase>) returns (isFailure: bool)
    requires c.failure.Some?
    ensures isFailure == IsFailure(c, group)
  {
    isFailure := false;
    if |group| == 1 {
      isFailure := true;
    }
    if |group| == 2 {
      var gotPass := false;
      for t := 0 to 2
        invariant gotPass <==> exists u :: 0 <= u < t && group[u].failure.None?
      {
        if group[t].failure.None? {
          gotPass := true;
        }
      }
      if !gotPass {
        isFailure := true;
      }
    }
  }

  /** The classifier's second loop over the suite, with the groups built by
      the first. */
  method ClassifySuite(cases: seq<Testcase>, deny: StepFilter, printTestDetail: bool, extraSpace: string) returns (out: seq<Line>)
    ensures out == SuiteLines(cases, deny, printTestDetail, extraSpace)
  {
    var m := GroupByName(cases);
    out := [];
    for i := 0 to |cases|
      invariant out == Rendered(Reported(cases, i, deny), printTestDetail, extraSpace)
    {
      out := ClassifyCase(cases, m, i, deny, printTestDetail, extraSpace, out);
    }
  }

  /** The body of the second loop for the case at `i`: its lines are
      printed when it is a failing case that is a failure by the flake rule
      for its group and not an infrastructure step. */
  method ClassifyCase(cases: seq<Testcase>, m: map<string, seq<Testcase>>, i: nat, deny: StepFilter, printTestDetail: bool,
                      extraSpace: string, out: seq<Line>) returns (next: seq<Line>)
    requires i < |cases| && m == Groups(cases)
    requires out == Rendered(Reported(cases, i, deny), printTestDetail, extraSpace)
    ensures next == Rendered(Reported(cases, i + 1, deny), printTestDetail, extraSpace)
  {
    var c := cases[i];
    var shown := false;
    if c.failure.Some? {
      GroupOfCase(cases, i);
      var isFailure := CheckFailure(c, m[c.name]);
      shown := isFailure && !deny(c.name);
    }
    ReportedStep(cases, i, deny, printTestDetail, extraSpace, shown, out);
    next := out;
    if shown {
      next := out + CaseLines(c, printTestDetail, extraSpace);
    }
  }

  /** One more case of the suite: its lines are added when it is shown. */
  lemma ReportedStep(cases: seq<Testcase>, i: nat, deny: StepFilter, printTestDetail: bool, extraSpace: string,
                     shown: bool, out: seq<Line>)
    requires i < |cases| && shown == Shown(cases, i, deny)
    requires out == Rendered(Reported(cases, i, deny), printTestDetail, extraSpace)
    ensures (if shown then out + CaseLines(cases[i], printTestDetail, extraSpace) else out)
         == Rendered(Reported(cases, i + 1, deny), printTestDetail, extraSpace)
  {
    if shown {
      RenderedSnoc(Reported(cases, i, deny), cases[i], printTestDetail, extraSpace);
    } else {
      assert Reported(cases, i + 1, deny) == Reported(cases, i, deny);
    }
  }

  // ---------------------------------------------------------------------
  // `PrintPlainSummaryTests`

  /** How an XML file is decoded, in fallback mode (`<testsuites>`, first
      suite) or not (`<testsuite>`): its test cases, or `None` where opening
      or decoding fails or there is no suite, all of which end the process. */
  type Decoder = (string, bool) -> Option<seq<Testcase>>

  /** The output for the XML files of a listing, file by file. */
  function FilesOutput(files: seq<string>, fallback: bool, decode: Decoder, deny: StepFilter, printTestDetail: bool, extraSpace: string)
    : (r: Outcome<seq<Line>>)
    ensures (forall k :: 0 <= k < |files| ==> !Contains(files[k], ".xml")) ==> r == Ok([])
  {
    if files == [] then Ok([])
    else
      match FilesOutput(files[..|files| - 1], fallback, decode, deny, printTestDetail, extraSpace)
      case Fatal(e) => Fatal(e)
      case Ok(out) =>
        var file := files[|files| - 1];
        if !Contains(file, ".xml") then Ok(out)
        else
          match decode(file, fallback)
          case None => Fatal("could not parse xml file")
          case Some(cases) => Ok(out + SuiteLines(cases, deny, printTestDetail, extraSpace))
  }

  lemma FilesSnoc(files: seq<string>, i: nat, fallback: bool, decode: Decoder, deny: StepFilter, printTestDetail: bool, extraSpace: string)
    requires i < |files|
    ensures FilesOutput(files[..i + 1], fallback, decode, deny, printTestDetail, extraSpace) ==
      match FilesOutput(files[..i], fallback, decode, deny, printTestDetail, extraSpace)
      case Fatal(e) => Fatal(e)
      case Ok(out) =>
        if !Contains(files[i], ".xml") then Ok(out)
        else
          match decode(files[i], fallback)
          case None => Fatal("could not parse xml file")
          case Some(cases) => Ok(out + SuiteLines(cases, deny, printTestDetail, extraSpace))
  {
    assert files[..i + 1][..i] == files[..i];
  }

  /** One more file, after files whose output is `out`. */
  lemma FilesStep(files: seq<string>, i: nat, fallback: bool, decode: Decoder, deny: StepFilter, printTestDetail: bool,
                  extraSpace: string, out: seq<Line>)
    requires i < |files| && FilesOutput(files[..i], fallback, decode, deny, printTestDetail, extraSpace) == Ok(out)
    ensures !Contains(files[i], ".xml") ==> FilesOutput(files[..i + 1], fallback, decode, deny, printTestDetail, extraSpace) == Ok(out)
    ensures Contains(files[i], ".xml") && decode(files[i], fallback).None? ==>
      FilesOutput(files[..i + 1], fallback, decode, deny, printTestDetail, extraSpace) == Fatal("could not parse xml file")
    ensures Contains(files[i], ".xml") && decode(files[i], fallback).Some? ==>
      FilesOutput(files[..i + 1], fallback, decode, deny, printTestDetail, extraSpace)
      == Ok(out + SuiteLines(decode(files[i], fallback).value, deny, printTestDetail, extraSpace))
  {
    FilesSnoc(files, i, fallback, decode, deny, printTestDetail, extraSpace);
  }

  lemma {:induction false} FilesFatal(files: seq<string>, n: nat, fallback: bool, decode: Decoder, deny: StepFilter, printTestDetail: bool,
                                      extraSpace: string)
    requires n <= |files| && FilesOutput(files[..n], fallback, decode, deny, printTestDetail, extraSpace).Fatal?
    ensures FilesOutput(files, fallback, decode, deny, printTestDetail, extraSpace)
         == FilesOutput(files[..n], fallback, decode, deny, printTestDetail, extraSpace)
    decreases |files| - n
  {
    if n < |files| {
      FilesSnoc(files, n, fallback, decode, deny, printTestDetail, extraSpace);
      FilesFatal(files, n + 1, fallback, decode, deny, printTestDetail, extraSpace);
    } else {
      assert files[..n] == files;
    }
  }

  /** The loop over the XML files. */
  method ClassifyFiles(files: seq<string>, fallback: bool, decode: Decoder, deny: StepFilter, printTestDetail: bool, extraSpace: string)
    returns (r: Outcome<seq<Line>>)
    ensures r == FilesOutput(files, fallback, decode, deny, printTestDetail, extraSpace)
  {
    var out: seq<Line> := [];
    for i := 0 to |files|
      invariant FilesOutput(files[..i], fallback, decode, deny, printTestDetail, extraSpace) == Ok(out)
    {
      var step := ClassifyFile(files, i, fallback, decode, deny, printTestDetail, extraSpace, out);
      if step.Fatal? {
        FilesFatal(files, i + 1, fallback, decode, deny, printTestDetail, extraSpace);
        return step;
      }
      out := step.value;
    }
    assert files[..|files|] == files;
    r := Ok(out);
  }

  /** The body of the loop for the file at `i`: a file that is not XML is
      skipped, one that cannot be decoded is fatal, and a decoded suite's
      output is added. */
  method ClassifyFile(files: seq<string>, i: nat, fallback: bool, decode: Decoder, deny: StepFilter, printTestDetail: bool,
                      extraSpace: string, out: seq<Line>) returns (r: Outcome<seq<Line>>)
    requires i < |files| && FilesOutput(files[..i], fallback, decode, deny, printTestDetail, extraSpace) == Ok(out)
    ensures r == FilesOutput(files[..i + 1], fallback, decode, deny, printTestDetail, extraSpace)
  {
    FilesStep(files, i, fallback, decode, deny, printTestDetail, extraSpace, out);
    if !Contains(files[i], ".xml") {
      return Ok(out);
    }
    var suite := decode(files[i], fallback);
    if suite.None? {
      return Fatal("could not parse xml file");
    }
    var lines := ClassifySuite(suite.value, deny, printTestDetail, extraSpace);
    r := Ok(out + lines);
  }

  /** What `PrintPlainSummaryTests` prints itself and what it returns. */
  datatype PlainResult = PlainResult(printed: seq<Line>, output: seq<Line>)

  /** Both JUnit directories of a job lie under its storage directory, so
      they carry its job id. */
  lemma LocationsHaveId(jobUrl: string, name: string)
    requires JobId(Addresses.JobStorage(jobUrl)).Some?
    ensures JobId(Addresses.JunitLocation(jobUrl, name).url).Some?
    ensures JobId(Addresses.FallbackLocation(jobUrl)).Some?
  {
    var storage := Addresses.JobStorage(jobUrl);
    var url := Addresses.JunitLocation(jobUrl, name).url;
    assert url == storage + url[|storage|..];
    JobIdExtends(storage, url[|storage|..]);
    JobIdExtends(storage, "/artifacts");
  }

  /** The result of `PrintPlainSummaryTests` for a job: the address line when
      `displayUrl` holds, and the failures of its XML files. */
  function PlainSummary(jobUrl: string, shortName: string, displayUrl: bool, printTestDetail: bool, extraSpace: string,
                        web: string -> Fetch, link: Linker, decode: Decoder): (r: Outcome<PlainResult>)
    requires JobId(Addresses.JobStorage(jobUrl)).Some?
    ensures r.Ok? ==> r.value.printed == if displayUrl then [Line(Plain, Println(["   ", jobUrl]))] else []
  {
    var loc := Addresses.JunitLocation(jobUrl, Addresses.ShortName(shortName));
    LocationsHaveId(jobUrl, Addresses.ShortName(shortName));
    match ChooseListing(JunitFiles(loc.url, XmlPattern, web, link), loc.fallback,
                        JunitFiles(Addresses.FallbackLocation(jobUrl), XmlPattern, web, link))
    case Fatal(e) => Fatal(e)
    case Ok(listing) =>
      match FilesOutput(listing.0, listing.1, decode, Denied, printTestDetail, extraSpace)
      case Fatal(e) => Fatal(e)
      case Ok(out) => Ok(PlainResult(if displayUrl then [Line(Plain, Println(["   ", jobUrl]))] else [], out))
  }

  /** `PrintPlainSummaryTests`: normalises the short name, picks the JUnit
      directory, lists it and classifies every XML file. The code tests for
      an empty listing before it falls back to the `artifacts` directory, a
      test that never holds (`DeadFallback`); this model follows the
      intended test, a listing with no XML file (`ChooseListing`). */
  method PrintPlainSummaryTests(jobUrl: string, shortName: string, displayUrl: bool, printTestDetail: bool,
                                extraSpace: string, web: string -> Fetch, link: Linker, decode: Decoder)
    returns (r: Outcome<PlainResult>)
    requires JobId(Addresses.JobStorage(jobUrl)).Some?
    ensures r == PlainSummary(jobUrl, shortName, displayUrl, printTestDetail, extraSpace, web, link, decode)
  {
    var printed := if displayUrl then [Line(Plain, Println(["   ", jobUrl]))] else [];
    var fallbackUrl := Addresses.JobStorage(jobUrl) + "/artifacts";
    var loc := Addresses.JunitLocation(jobUrl, Addresses.ShortName(shortName));
    LocationsHaveId(jobUrl, Addresses.ShortName(shortName));
    var files := ProcessJunit(loc.url, XmlPattern, web, link);
    if files.Fatal? {
      return Fatal(files.reason);
    }
    var xmlFiles := files.value;
    var usingFallback := loc.fallback;
    if !HasXml(xmlFiles) {
      files := ProcessJunit(fallbackUrl, XmlPattern, web, link);
      if files.Fatal? {
        return Fatal(files.reason);
      }
      xmlFiles := files.value;
      usingFallback := true;
    }
    var out := ClassifyFiles(xmlFiles, usingFallback, decode, Denied, printTestDetail, extraSpace);
    if out.Fatal? {
      return Fatal(out.reason);
    }
    r := Ok(PlainResult(printed, out.value));
  }
}
