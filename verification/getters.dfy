/** The payload lists (`payload_getters.go`): the release controller's web
    page scanned row by row, the database's release records filtered to one
    stream, and the release controller's API tags mapped one to one; the
    choice between them (`getPayloadItems`); and the walk over the list
    (`processPayloadItems`). Fetches are an abstract `web`, JSON decoding an
    abstract decoder. */
module Getters {
  import opened Common
  import opened Strings
  import opened Regex
  import opened Payloads

  const ReleaseUrlPrefix := "https://amd64.ocp.releases.ci.openshift.org/"

  /** A release stream's name, such as `4.14.0-0.nightly`. */
  function StreamName(version: string, stream: string): string {
    version + ".0-0." + stream
  }

  /** The release page of one tag of a stream. */
  function ReleaseUrl(version: string, stream: string, tag: string): (r: string)
    ensures HasPrefix(r, ReleaseUrlPrefix)
    ensures |r| >= |tag| && r[|r| - |tag|..] == tag
  {
    var lead := ReleaseUrlPrefix + "/releasestream/" + StreamName(version, stream) + "/release/";
    assert (lead + tag)[..|ReleaseUrlPrefix|] == ReleaseUrlPrefix;
    lead + tag
  }

  /** Different tags of a stream have different release pages. */
  lemma ReleaseUrlsDiffer(version: string, stream: string, tag1: string, tag2: string)
    requires tag1 != tag2
    ensures ReleaseUrl(version, stream, tag1) != ReleaseUrl(version, stream, tag2)
  {
    var lead := ReleaseUrlPrefix + "/releasestream/" + StreamName(version, stream) + "/release/";
    if |tag1| == |tag2| {
      var k :| 0 <= k < |tag1| && tag1[k] != tag2[k];
      assert (lead + tag1)[|lead| + k] != (lead + tag2)[|lead| + k];
    }
  }

  // ---------------------------------------------------------------------
  // The database (`sippyDBPayloadGetter`)

  /** A decoded release record. */
  datatype ReleaseRecord = ReleaseRecord(tag: string, stream: string, architecture: string, phase: string,
                                         forced: bool, releaseTime: string, failedJobNames: seq<string>)

  /** Only amd64 records of the requested stream are listed. */
  predicate Wanted(rec: ReleaseRecord, stream: string) {
    rec.architecture == "amd64" && rec.stream == stream
  }

  /** The payload failed an aggregated job. */
  predicate OriginallyFailed(rec: ReleaseRecord) {
    exists k :: 0 <= k < |rec.failedJobNames| && HasPrefix(rec.failedJobNames[k], "aggregated")
  }

  /** The payload of a wanted record: an accepted payload that failed an
      aggregated job counts as forced; otherwise the record's own flag
      stands. */
  function FromRecord(rec: ReleaseRecord, version: string, stream: string): (p: Payload)
    ensures p.forced <==> rec.forced || (rec.phase == Accepted && OriginallyFailed(rec))
    ensures p.phase == rec.phase && p.timeStr == rec.releaseTime && p.timeDetailStr == ""
    ensures p.releaseUrl == ReleaseUrl(version, stream, rec.tag)
  {
    Payload(ReleaseUrl(version, stream, rec.tag), rec.phase,
            rec.forced || (rec.phase == Accepted && OriginallyFailed(rec)), rec.releaseTime, "")
  }

  /** The payloads of the wanted records, in order. */
  function RecordPayloads(records: seq<ReleaseRecord>, version: string, stream: string): (r: seq<Payload>)
    ensures |r| <= |records|
  {
    if records == [] then []
    else
      var last := records[|records| - 1];
      RecordPayloads(records[..|records| - 1], version, stream)
      + if Wanted(last, stream) then [FromRecord(last, version, stream)] else []
  }

  /** Listing two runs of records lists each in turn: the filter keeps the
      records' order. */
  lemma {:induction false} RecordPayloadsAppend(a: seq<ReleaseRecord>, b: seq<ReleaseRecord>, version: string, stream: string)
    ensures RecordPayloads(a + b, version, stream) == RecordPayloads(a, version, stream) + RecordPayloads(b, version, stream)
    decreases |b|
  {
    if b != [] {
      var b' := b[..|b| - 1];
      var last := b[|b| - 1];
      var mine := if Wanted(last, stream) then [FromRecord(last, version, stream)] else [];
      assert (a + b)[..|a + b| - 1] == a + b';
      assert (a + b)[|a + b| - 1] == last;
      assert RecordPayloads(a + b, version, stream) == RecordPayloads(a + b', version, stream) + mine;
      assert RecordPayloads(b, version, stream) == RecordPayloads(b', version, stream) + mine;
      RecordPayloadsAppend(a, b', version, stream);
    } else {
      assert a + b == a;
    }
  }

  /** One more record. */
  lemma RecordPayloadsSnoc(records: seq<ReleaseRecord>, version: string, stream: string)
    requires records != []
    ensures RecordPayloads(records, version, stream)
         == RecordPayloads(records[..|records| - 1], version, stream)
          + if Wanted(records[|records| - 1], stream) then [FromRecord(records[|records| - 1], version, stream)] else []
  {
  }

  /** Every payload of `ps` is the payload of a wanted record. */
  predicate FromWanted(ps: seq<Payload>, records: seq<ReleaseRecord>, version: string, stream: string) {
    forall k :: 0 <= k < |ps| ==>
      exists j :: 0 <= j < |records| && Wanted(records[j], stream) && ps[k] == FromRecord(records[j], version, stream)
  }

  /** Each listed payload comes from a wanted record. */
  lemma {:induction false} RecordPayloadsSound(records: seq<ReleaseRecord>, version: string, stream: string)
    ensures FromWanted(RecordPayloads(records, version, stream), records, version, stream)
  {
    if records != [] {
      var n := |records| - 1;
      var init := records[..n];
      var before := RecordPayloads(init, version, stream);
      var mine := if Wanted(records[n], stream) then [FromRecord(records[n], version, stream)] else [];
      RecordPayloadsSnoc(records, version, stream);
      RecordPayloadsSound(init, version, stream);
      forall k | 0 <= k < |before + mine|
        ensures exists j :: (0 <= j < |records| && Wanted(records[j], stream)
          && (before + mine)[k] == FromRecord(records[j], version, stream))
      {
        if k < |before| {
          assert (before + mine)[k] == before[k];
          var j :| 0 <= j < |init| && Wanted(init[j], stream) && before[k] == FromRecord(init[j], version, stream);
          assert records[j] == init[j];
        } else {
          assert (before + mine)[k] == FromRecord(records[n], version, stream);
        }
      }
      assert FromWanted(before + mine, records, version, stream);
    }
  }

  /** Each wanted record gives a listed payload. */
  lemma {:induction false} RecordPayloadsComplete(records: seq<ReleaseRecord>, version: string, stream: string)
    ensures forall j :: 0 <= j < |records| && Wanted(records[j], stream) ==>
      FromRecord(records[j], version, stream) in RecordPayloads(records, version, stream)
  {
    if records != [] {
      var n := |records| - 1;
      var init := records[..n];
      var before := RecordPayloads(init, version, stream);
      var mine := if Wanted(records[n], stream) then [FromRecord(records[n], version, stream)] else [];
      RecordPayloadsSnoc(records, version, stream);
      RecordPayloadsComplete(init, version, stream);
      forall j | 0 <= j < |records| && Wanted(records[j], stream)
        ensures FromRecord(records[j], version, stream) in before + mine
      {
        if j < n {
          assert records[j] == init[j];
        } else {
          assert (before + mine)[|before|] == FromRecord(records[n], version, stream);
        }
      }
    }
  }

  /** The inner loop over a record's failed job names. */
  method AnyAggregated(names: seq<string>) returns (found: bool)
    ensures found <==> exists k :: 0 <= k < |names| && HasPrefix(names[k], "aggregated")
  {
    found := false;
    for i := 0 to |names|
      invariant found <==> exists k :: 0 <= k < i && HasPrefix(names[k], "aggregated")
    {
      if HasPrefix(names[i], "aggregated") {
        found := true;
      }
    }
  }

  /** The database getter's loop over the decoded records. */
  method ListRecords(records: seq<ReleaseRecord>, version: string, stream: string) returns (ret: seq<Payload>)
    ensures ret == RecordPayloads(records, version, stream)
  {
    ret := [];
    for i := 0 to |records|
      invariant ret == RecordPayloads(records[..i], version, stream)
    {
      assert records[..i + 1][..i] == records[..i];
      var rec := records[i];
      if rec.architecture != "amd64" || rec.stream != stream {
        continue;
      }
      var originallyFailed := AnyAggregated(rec.failedJobNames);
      if rec.phase == Accepted && originallyFailed {
        rec := rec.(forced := true);
      }
      ret := ret + [Payload(ReleaseUrl(version, stream, rec.tag), rec.phase, rec.forced, rec.releaseTime, "")];
    }
    assert records[..|records|] == records;
  }

  /** The database's address for a version's release tags. */
  function DatabaseUrl(version: string): string {
    "https://sippy.dptools.openshift.org/api/releases/tags?&release=" + version
  }

  /** What the printing of a getter and the payloads it lists. */
  datatype Listing = Listing(printed: seq<Line>, payloads: seq<Payload>)

  /** `sippyDBPayloadGetter.getUrls`: a failed fetch is fatal; a decoding
      error is ignored, and the records it left are listed. */
  function DatabaseListing(version: string, stream: string, web: string -> Fetch,
                           decode: string -> seq<ReleaseRecord>): (r: Outcome<Listing>)
    ensures r.Fatal? <==> !web(DatabaseUrl(version)).Body?
    ensures r.Ok? ==> r.value.printed == []
    ensures r.Ok? ==> r.value.payloads == RecordPayloads(decode(web(DatabaseUrl(version)).text), version, stream)
  {
    var page := web(DatabaseUrl(version));
    if !page.Body? then Fatal(FetchFailure(page))
    else Ok(Listing([], RecordPayloads(decode(page.text), version, stream)))
  }

  // ---------------------------------------------------------------------
  // The release controller's API (`rcAPIPayloadGetter`)

  /** A decoded API tag. */
  datatype Tag = Tag(name: string, phase: string)

  /** The time text of API payloads. */
  const UnknownAgo := "Unknown ago"

  /** One payload per tag, in order, with the tag's phase. */
  function TagPayloads(tags: seq<Tag>, version: string, stream: string): (r: seq<Payload>)
    ensures |r| == |tags|
    ensures forall k :: 0 <= k < |tags| ==>
      r[k] == Payload(ReleaseUrl(version, stream, tags[k].name), tags[k].phase, false, UnknownAgo, "")
  {
    if tags == [] then []
    else
      var last := tags[|tags| - 1];
      TagPayloads(tags[..|tags| - 1], version, stream)
      + [Payload(ReleaseUrl(version, stream, last.name), last.phase, false, UnknownAgo, "")]
  }

  /** Tags with different names list payloads with different release
      pages. */
  lemma TagPagesDistinct(tags: seq<Tag>, version: string, stream: string)
    requires forall i, j :: 0 <= i < j < |tags| ==> tags[i].name != tags[j].name
    ensures forall i, j :: 0 <= i < j < |tags| ==>
      TagPayloads(tags, version, stream)[i].releaseUrl != TagPayloads(tags, version, stream)[j].releaseUrl
  {
    forall i, j | 0 <= i < j < |tags|
      ensures TagPayloads(tags, version, stream)[i].releaseUrl != TagPayloads(tags, version, stream)[j].releaseUrl
    {
      ReleaseUrlsDiffer(version, stream, tags[i].name, tags[j].name);
    }
  }

  /** The API getter's loop over the tags. */
  method ListTags(tags: seq<Tag>, version: string, stream: string) returns (ret: seq<Payload>)
    ensures ret == TagPayloads(tags, version, stream)
  {
    ret := [];
    for i := 0 to |tags|
      invariant ret == TagPayloads(tags[..i], version, stream)
    {
      assert tags[..i + 1][..i] == tags[..i];
      ret := ret + [Payload(ReleaseUrl(version, stream, tags[i].name), tags[i].phase, false, UnknownAgo, "")];
    }
    assert tags[..|tags|] == tags;
  }

  /** The API's address for a stream's tags. */
  function ApiUrl(version: string, stream: string): string {
    "https://amd64.ocp.releases.ci.openshift.org/api/v1/releasestream/" + StreamName(version, stream) + "/tags"
  }

  /** `rcAPIPayloadGetter.getUrls`: prints the address, fetches it (a
      failure is fatal), and lists one payload per decoded tag. */
  function ApiListing(version: string, stream: string, web: string -> Fetch, decode: string -> seq<Tag>)
    : (r: Outcome<Listing>)
    ensures r.Fatal? <==> !web(ApiUrl(version, stream)).Body?
    ensures r.Ok? ==> r.value.printed == [Line(Plain, ApiUrl(version, stream))]
    ensures r.Ok? ==> |r.value.payloads| == |decode(web(ApiUrl(version, stream)).text)|
    ensures r.Ok? ==> r.value.payloads == TagPayloads(decode(web(ApiUrl(version, stream)).text), version, stream)
  {
    var page := web(ApiUrl(version, stream));
    if !page.Body? then Fatal(FetchFailure(page))
    else Ok(Listing([Line(Plain, ApiUrl(version, stream))], TagPayloads(decode(page.text), version, stream)))
  }

  // ---------------------------------------------------------------------
  // The release controller's web page (`rcWebpagePayloadGetter`)

  /** The banner above a nightly stream's table. */
  function NightlyBanner(version: string): string {
    "This release contains OSBS official image builds of all code in release-" + version
    + " (master) branches, and is updated after those builds are synced to quay.io."
  }

  /** The banner above a CI stream's table. */
  function CiBanner(version: string): string {
    "This release contains CI image builds of all code in release-" + version
    + " (master) branches, and is updated each time someone merges."
  }

  predicate KnownStream(stream: string) {
    stream == "nightly" || stream == "ci"
  }

  /** The banner that opens the requested stream's table. */
  function CurrentBanner(version: string, stream: string): (r: Option<string>)
    ensures r.Some? <==> KnownStream(stream)
    ensures r.Some? ==> |r.value| > 0
  {
    if stream == "nightly" then Some(NightlyBanner(version))
    else if stream == "ci" then Some(CiBanner(version))
    else None
  }

  /** The version table: each supported version names the one before it. */
  function PrevVersion(version: string): (r: Option<string>)
    ensures r.Some? <==> version in {"4.12", "4.13", "4.14", "4.15", "4.16"}
  {
    if version == "4.16" then Some("4.15")
    else if version == "4.15" then Some("4.14")
    else if version == "4.14" then Some("4.13")
    else if version == "4.13" then Some("4.12")
    else if version == "4.12" then Some("4.11")
    else None
  }

  /** "4." followed by a minor number. */
  function Minor(m: nat): string {
    "4." + NatToString(m)
  }

  /** The table steps one minor version back, from 4.16 down to 4.12. */
  lemma PrevVersionSteps(m: nat)
    requires 12 <= m <= 16
    ensures PrevVersion(Minor(m)) == Some(Minor(m - 1))
  {
    assert NatToString(1) == [DigitChar(1)] == "1";
    assert NatToString(m) == "1" + [DigitChar(m - 10)];
    assert NatToString(m - 1) == "1" + [DigitChar(m - 11)];
    if m == 12 {
      assert Minor(m) == "4.12" && Minor(m - 1) == "4.11";
    } else if m == 13 {
      assert Minor(m) == "4.13" && Minor(m - 1) == "4.12";
    } else if m == 14 {
      assert Minor(m) == "4.14" && Minor(m - 1) == "4.13";
    } else if m == 15 {
      assert Minor(m) == "4.15" && Minor(m - 1) == "4.14";
    } else {
      assert Minor(m) == "4.16" && Minor(m - 1) == "4.15";
    }
  }

  /** The banner that closes the table (the other kind of stream, one
      version back), and where the row's address ends. */
  function PrevBanner(prev: string, stream: string): (r: (string, nat))
    requires KnownStream(stream)
    ensures r.1 == if stream == "nightly" then 89 else 79
    ensures |r.0| > 0
  {
    if stream == "nightly" then (CiBanner(prev), 89) else (NightlyBanner(prev), 79)
  }

  /** The page holds the banner it is cut at. */
  predicate BannerFits(version: string, stream: string, page: Fetch) {
    page.Body? && CurrentBanner(version, stream).Some? ==>
      |Split(page.text, CurrentBanner(version, stream).value)| >= 2
  }

  /** The stream's table in the page's text: the text after the first
      banner of the stream, cut before that banner's next occurrence and
      then before the banner of the previous version's other stream. */
  function BannerTable(text: string, cur: string, prevf: string): (t: string)
    requires |cur| > 0 && |prevf| > 0 && |Split(text, cur)| >= 2
    ensures Contains(text, cur)
    ensures exists x :: CutBefore(text[IndexOf(text, cur).value + |cur|..], cur, x) && CutBefore(x, prevf, t)
  {
    SplitSingle(text, cur);
    SplitSecondCut(text, cur);
    var x := Split(text, cur)[1];
    SplitFirstCut(x, prevf);
    Split(x, prevf)[0]
  }

  /** A text's lines: its newline-free pieces, which rejoin to it. */
  function LinesOf(t: string): (ls: seq<string>)
    ensures Join(ls, "\n") == t
    ensures forall k :: 0 <= k < |ls| ==> !Contains(ls[k], "\n")
  {
    SplitJoin(t, "\n");
    SplitPiecesFree(t, "\n");
    Split(t, "\n")
  }

  /** The lines of the stream's table and the row's end position; a failed
      fetch, an unknown stream and an unknown version are fatal, in that
      order. The lines are the newline-free pieces of the table between
      the stream's banner and the previous version's banner. */
  function TableLines(version: string, stream: string, page: Fetch): (r: Outcome<(seq<string>, nat)>)
    requires BannerFits(version, stream, page)
    ensures r.Ok? <==> page.Body? && KnownStream(stream) && PrevVersion(version).Some?
    ensures r.Ok? ==>
      var prevf := PrevBanner(PrevVersion(version).value, stream);
      && r.value.1 == prevf.1
      && r.value.0 == LinesOf(BannerTable(page.text, CurrentBanner(version, stream).value, prevf.0))
  {
    if !page.Body? then Fatal(FetchFailure(page))
    else match CurrentBanner(version, stream)
      case None => Fatal("bad value for aType: " + stream)
      case Some(cur) =>
        match PrevVersion(version)
        case None => Fatal("bad value for aVersion: " + version)
        case Some(prev) =>
          var (prevf, endChar) := PrevBanner(prev, stream);
          Ok((LinesOf(BannerTable(page.text, cur, prevf)), endChar))
  }

  /** `<td class="text-monospace"><a class=".*" href="/` */
  const RowPattern: Pattern :=
    Cons(Lit("<td class=\"text-monospace\"><a class=\""), Cons(Rep(NotNewline, 0, true, false), Cons(Lit("\" href=\"/"), Nil)))

  /** `>([^<]+)<` */
  const StatusPattern: Pattern :=
    Cons(Lit(">"), Cons(Rep(NotLess, 1, true, true), Cons(Lit("<"), Nil)))

  /** `<td title="(.*)">([^<]+)<` */
  const TimePattern: Pattern :=
    Cons(Lit("<td title=\""), Cons(Rep(NotNewline, 0, true, true), Cons(Lit("\">"), Cons(Rep(NotLess, 1, true, true),
    Cons(Lit("<"), Nil)))))

  /** A payload row of the requested stream. */
  predicate IsRow(line: string, version: string, stream: string) {
    Matches(RowPattern, line) && Contains(line, StreamName(version, stream))
  }

  /** The row with the row pattern removed. */
  function RowRest(line: string): string {
    ReplaceAllString(RowPattern, line, "")
  }

  /** The line after the row names the payload's state. */
  predicate NamesState(next: string) {
    Contains(next, Accepted) || Contains(next, Rejected) || Contains(next, "Ready")
  }

  /** The line after that holds the payload's time. */
  function TimeGroups(after: string): (m: seq<string>)
    ensures m == [] || |m| == 3
  {
    assert MarkCount(TimePattern) == 4;
    FindSubmatch(TimePattern, after)
  }

  /** Reading the row and its two following lines: `None` where the code
      panics (the row is shorter than the end position, a line naming the
      state does not match the status pattern, or a matched time title has
      fewer than five characters to drop). Otherwise the payload: its
      release page (the stripped row's characters 16 up to the end
      position, after the controller's address), the state the next line
      names (the status pattern's group; "unknown state" otherwise), and
      the time and time detail the line after that holds (the time
      pattern's second group, and its first without five leading
      characters; "unknown time" otherwise). */
  function ReadRow(row: string, next: string, after: string, endChar: nat): (r: Option<Payload>)
    ensures r.Some? ==> HasPrefix(r.value.releaseUrl, ReleaseUrlPrefix) && !r.value.forced
    ensures r.Some? ==> 16 <= endChar <= |RowRest(row)| && r.value.releaseUrl == ReleaseUrlPrefix + RowRest(row)[16..endChar]
    ensures r.Some? && NamesState(next) ==> r.value.phase == GroupOf(FindSubmatch(StatusPattern, next), 1)
    ensures r.Some? && !NamesState(next) ==> r.value.phase == "unknown state"
    ensures r.Some? && |TimeGroups(after)| > 2 ==>
      && |TimeGroups(after)[1]| >= 5
      && r.value.timeStr == TimeGroups(after)[2] && r.value.timeDetailStr == TimeGroups(after)[1][5..]
    ensures r.Some? && |TimeGroups(after)| <= 2 ==> r.value.timeStr == "unknown time" && r.value.timeDetailStr == "unknown time"
    ensures r.None? <==> endChar < 16 || |RowRest(row)| < endChar || (NamesState(next) && !Matches(StatusPattern, next))
                         || (|TimeGroups(after)| > 2 && |TimeGroups(after)[1]| < 5)
  {
    var rest := RowRest(row);
    var m := TimeGroups(after);
    if endChar < 16 || |rest| < endChar then None
    else if NamesState(next) && !Matches(StatusPattern, next) then None
    else if |m| > 2 && |m[1]| < 5 then None
    else
      var rel := ReleaseUrlPrefix + rest[16..endChar];
      assert rel[..|ReleaseUrlPrefix|] == ReleaseUrlPrefix;
      var state := if NamesState(next) then GroupOf(FindSubmatch(StatusPattern, next), 1) else "unknown state";
      var time := if |m| > 2 then m[2] else "unknown time";
      var detail := if |m| > 2 then m[1][5..] else "unknown time";
      Some(Payload(rel, state, false, time, detail))
  }

  /** How the scan recognises a row, and how it reads one with its two
      following lines; `RowTestFor` and `RowReaderFor` are the tool's. */
  type RowTest = string -> bool
  type RowReader = (string, string, string) -> Option<Payload>

  function RowTestFor(version: string, stream: string): RowTest {
    line => IsRow(line, version, stream)
  }

  function RowReaderFor(endChar: nat): RowReader {
    (row, next, after) => ReadRow(row, next, after, endChar)
  }

  /** The rows the scan reads, from line `i` on: a row is read, and the two
      lines after it are consumed with it. */
  function Hits(lines: seq<string>, i: nat, isRow: RowTest): (r: seq<nat>)
    decreases |lines| - i
  {
    if i >= |lines| then []
    else if isRow(lines[i]) then [i] + Hits(lines, i + 3, isRow)
    else Hits(lines, i + 1, isRow)
  }

  /** Every hit is a row, at or after `i`, and each hit is at least three
      lines after the one before. */
  lemma {:induction false} HitsAreRows(lines: seq<string>, i: nat, isRow: RowTest)
    ensures forall k :: 0 <= k < |Hits(lines, i, isRow)| ==>
      i <= Hits(lines, i, isRow)[k] < |lines| && isRow(lines[Hits(lines, i, isRow)[k]])
    ensures forall k :: 0 <= k < |Hits(lines, i, isRow)| - 1 ==> Hits(lines, i, isRow)[k] + 3 <= Hits(lines, i, isRow)[k + 1]
    decreases |lines| - i
  {
    if i < |lines| {
      if isRow(lines[i]) {
        HitsAreRows(lines, i + 3, isRow);
      } else {
        HitsAreRows(lines, i + 1, isRow);
      }
    }
  }

  /** A row the scan does not read is one of the two lines consumed with
      the hit just before it. */
  lemma {:induction false} RowsShadowed(lines: seq<string>, i: nat, isRow: RowTest, j: nat)
    requires i <= j < |lines| && isRow(lines[j])
    requires j !in Hits(lines, i, isRow)
    ensures exists k :: (0 <= k < |Hits(lines, i, isRow)| && Hits(lines, i, isRow)[k] < j <= Hits(lines, i, isRow)[k] + 2)
    decreases |lines| - i
  {
    var h := Hits(lines, i, isRow);
    if isRow(lines[i]) {
      if j <= i + 2 {
        assert h[0] == i;
      } else {
        var t := Hits(lines, i + 3, isRow);
        assert h == [i] + t;
        RowsShadowed(lines, i + 3, isRow, j);
        var k :| 0 <= k < |t| && t[k] < j <= t[k] + 2;
        assert h[k + 1] == t[k];
      }
    } else {
      RowsShadowed(lines, i + 1, isRow, j);
    }
  }

  /** Every hit of the scan can be read. */
  predicate HitsFit(lines: seq<string>, hits: seq<nat>, read: RowReader) {
    forall k :: 0 <= k < |hits| ==> hits[k] + 2 < |lines| && read(lines[hits[k]], lines[hits[k] + 1], lines[hits[k] + 2]).Some?
  }

  /** The payloads of the hits, in order. */
  function RowPayloads(lines: seq<string>, hits: seq<nat>, read: RowReader): (r: seq<Payload>)
    requires HitsFit(lines, hits, read)
    ensures |r| == |hits|
    ensures forall k :: 0 <= k < |hits| ==> Some(r[k]) == read(lines[hits[k]], lines[hits[k] + 1], lines[hits[k] + 2])
  {
    if hits == [] then []
    else
      var h := hits[|hits| - 1];
      RowPayloads(lines, hits[..|hits| - 1], read) + [read(lines[h], lines[h + 1], lines[h + 2]).value]
  }

  /** A reader whose payloads are all under the release controller's
      address and not forced. */
  ghost predicate ReadsUnderPrefix(read: RowReader) {
    forall row, next, after :: read(row, next, after).Some? ==>
      HasPrefix(read(row, next, after).value.releaseUrl, ReleaseUrlPrefix) && !read(row, next, after).value.forced
  }

  /** The tool's reader is one. */
  lemma RowReaderUnderPrefix(endChar: nat)
    ensures ReadsUnderPrefix(RowReaderFor(endChar))
  {
    forall row, next, after | RowReaderFor(endChar)(row, next, after).Some?
      ensures HasPrefix(RowReaderFor(endChar)(row, next, after).value.releaseUrl, ReleaseUrlPrefix)
      ensures !RowReaderFor(endChar)(row, next, after).value.forced
    {
      assert RowReaderFor(endChar)(row, next, after) == ReadRow(row, next, after, endChar);
    }
  }

  /** Such a reader lists only such payloads. */
  lemma PagePayloadsUnderPrefix(lines: seq<string>, hits: seq<nat>, read: RowReader)
    requires HitsFit(lines, hits, read) && ReadsUnderPrefix(read)
    ensures forall k :: 0 <= k < |hits| ==>
      HasPrefix(RowPayloads(lines, hits, read)[k].releaseUrl, ReleaseUrlPrefix) && !RowPayloads(lines, hits, read)[k].forced
  {
    var ps := RowPayloads(lines, hits, read);
    forall k | 0 <= k < |hits|
      ensures HasPrefix(ps[k].releaseUrl, ReleaseUrlPrefix) && !ps[k].forced
    {
      var h := hits[k];
      assert Some(ps[k]) == read(lines[h], lines[h + 1], lines[h + 2]);
    }
  }

  /** The page can be read to the end: the banner is there, and every row
      the scan reads fits. */
  predicate PageFits(version: string, stream: string, page: Fetch) {
    && BannerFits(version, stream, page)
    && (TableLines(version, stream, page).Ok? ==>
          var (lines, endChar) := TableLines(version, stream, page).value;
          HitsFit(lines, Hits(lines, 0, RowTestFor(version, stream)), RowReaderFor(endChar)))
  }

  /** The page's address for a stream. */
  function PageUrl(version: string, stream: string): string {
    ReleaseUrlPrefix + "/#" + StreamName(version, stream)
  }

  /** `rcWebpagePayloadGetter.getUrls`: one payload per row the scan
      reads. */
  function PageListing(version: string, stream: string, page: Fetch): (r: Outcome<Listing>)
    requires PageFits(version, stream, page)
    ensures r.Ok? <==> page.Body? && KnownStream(stream) && PrevVersion(version).Some?
    ensures r.Ok? ==> r.value.printed == []
    ensures r.Ok? ==> forall k :: 0 <= k < |r.value.payloads| ==>
      HasPrefix(r.value.payloads[k].releaseUrl, ReleaseUrlPrefix) && !r.value.payloads[k].forced
    ensures r.Ok? ==>
      var (lines, endChar) := TableLines(version, stream, page).value;
      r.value.payloads == RowPayloads(lines, Hits(lines, 0, RowTestFor(version, stream)), RowReaderFor(endChar))
  {
    match TableLines(version, stream, page)
    case Fatal(e) => Fatal(e)
    case Ok((lines, endChar)) =>
      var hits := Hits(lines, 0, RowTestFor(version, stream));
      RowReaderUnderPrefix(endChar);
      PagePayloadsUnderPrefix(lines, hits, RowReaderFor(endChar));
      Ok(Listing([], RowPayloads(lines, hits, RowReaderFor(endChar))))
  }

  /** One more hit. */
  lemma RowPayloadsSnoc(lines: seq<string>, hits: seq<nat>, h: nat, read: RowReader)
    requires HitsFit(lines, hits + [h], read)
    ensures HitsFit(lines, hits, read) && h + 2 < |lines| && read(lines[h], lines[h + 1], lines[h + 2]).Some?
    ensures RowPayloads(lines, hits + [h], read) == RowPayloads(lines, hits, read) + [read(lines[h], lines[h + 1], lines[h + 2]).value]
  {
    assert (hits + [h])[..|hits|] == hits;
    assert (hits + [h])[|hits|] == h;
  }

  /** The scan meets a row at `i`: it is the next hit. */
  lemma NextHit(lines: seq<string>, hits: seq<nat>, i: nat, isRow: RowTest, read: RowReader)
    requires HitsFit(lines, Hits(lines, 0, isRow), read)
    requires Hits(lines, 0, isRow) == hits + Hits(lines, i, isRow)
    requires i < |lines| && isRow(lines[i])
    ensures Hits(lines, 0, isRow) == (hits + [i]) + Hits(lines, i + 3, isRow)
    ensures HitsFit(lines, hits + [i], read)
  {
    assert Hits(lines, i, isRow) == [i] + Hits(lines, i + 3, isRow);
    var all := Hits(lines, 0, isRow);
    assert all == (hits + [i]) + Hits(lines, i + 3, isRow);
    forall k | 0 <= k < |hits + [i]|
      ensures (hits + [i])[k] + 2 < |lines| && read(lines[(hits + [i])[k]], lines[(hits + [i])[k] + 1], lines[(hits + [i])[k] + 2]).Some?
    {
      assert (hits + [i])[k] == all[k];
    }
  }

  /** The scan of the table: a row is read with the two lines after it,
      which are then skipped. */
  method ScanRows(lines: seq<string>, isRow: RowTest, read: RowReader) returns (ret: seq<Payload>)
    requires HitsFit(lines, Hits(lines, 0, isRow), read)
    ensures ret == RowPayloads(lines, Hits(lines, 0, isRow), read)
  {
    ret := [];
    ghost var hits: seq<nat> := [];
    var i := 0;
    while i < |lines|
      invariant i <= |lines|
      invariant Hits(lines, 0, isRow) == hits + Hits(lines, i, isRow)
      invariant HitsFit(lines, hits, read)
      invariant ret == RowPayloads(lines, hits, read)
      decreases |lines| - i
    {
      if isRow(lines[i]) {
        NextHit(lines, hits, i, isRow, read);
        RowPayloadsSnoc(lines, hits, i, read);
        ret := ret + [read(lines[i], lines[i + 1], lines[i + 2]).value];
        hits := hits + [i];
        i := i + 2;
      } else {
        assert Hits(lines, i, isRow) == Hits(lines, i + 1, isRow);
      }
      i := i + 1;
    }
    assert Hits(lines, 0, isRow) == hits;
  }

  /** The web page getter. */
  method PageGetUrls(version: string, stream: string, web: string -> Fetch) returns (r: Outcome<Listing>)
    requires PageFits(version, stream, web(PageUrl(version, stream)))
    ensures r == PageListing(version, stream, web(PageUrl(version, stream)))
  {
    var page := web(PageUrl(version, stream));
    var table := TableLines(version, stream, page);
    if table.Fatal? {
      return Fatal(table.reason);
    }
    var (lines, endChar) := table.value;
    var payloads := ScanRows(lines, RowTestFor(version, stream), RowReaderFor(endChar));
    r := Ok(Listing([], payloads));
  }

  // ---------------------------------------------------------------------
  // `getPayloadItems` and `processPayloadItems`

  /** Where the payload list comes from. */
  datatype DbMode = RcWebpage | SippyDb | RcApi

  /** `getPayloadItems`: the mode picks the getter. Every listed payload's
      page is under the release controller's address; the API's payloads
      carry "Unknown ago" and are never forced; only the web page gives a
      time detail. */
  function PayloadItems(version: string, stream: string, mode: DbMode, web: string -> Fetch,
                        decodeRecords: string -> seq<ReleaseRecord>, decodeTags: string -> seq<Tag>)
    : (r: Outcome<Listing>)
    requires mode.RcWebpage? ==> PageFits(version, stream, web(PageUrl(version, stream)))
    ensures r.Ok? ==> forall k :: 0 <= k < |r.value.payloads| ==> HasPrefix(r.value.payloads[k].releaseUrl, ReleaseUrlPrefix)
    ensures r.Ok? && mode.RcApi? ==>
      forall k :: 0 <= k < |r.value.payloads| ==> r.value.payloads[k].timeStr == UnknownAgo && !r.value.payloads[k].forced
    ensures r.Ok? && !mode.RcWebpage? ==> forall k :: 0 <= k < |r.value.payloads| ==> r.value.payloads[k].timeDetailStr == ""
    ensures mode.RcWebpage? ==> r == PageListing(version, stream, web(PageUrl(version, stream)))
    ensures mode.SippyDb? ==> r == DatabaseListing(version, stream, web, decodeRecords)
    ensures mode.RcApi? ==> r == ApiListing(version, stream, web, decodeTags)
  {
    match mode
    case RcWebpage => PageListing(version, stream, web(PageUrl(version, stream)))
    case SippyDb =>
      var r := DatabaseListing(version, stream, web, decodeRecords);
      if r.Ok? then
        RecordPayloadsSound(decodeRecords(web(DatabaseUrl(version)).text), version, stream);
        r
      else r
    case RcApi => ApiListing(version, stream, web, decodeTags)
  }

  /** One payload's step of the walk; `PageStep` is the tool's. */
  type Step = Payload -> Outcome<seq<Event>>

  function PageStep(showAllUrl: bool, showSuccess: bool, web: string -> Fetch, read: JobReader, titleOf: TitleReader): Step {
    (p: Payload) => PayloadEvents(p, web(p.releaseUrl), showAllUrl, showSuccess, read, titleOf)
  }

  /** `processPayloadItems`: each payload in turn; a fatal step ends the
      walk. */
  function AllPayloadEvents(items: seq<Payload>, step: Step): (r: Outcome<seq<Event>>)
  {
    if items == [] then Ok([])
    else
      match AllPayloadEvents(items[..|items| - 1], step)
      case Fatal(e) => Fatal(e)
      case Ok(before) =>
        match step(items[|items| - 1])
        case Fatal(e) => Fatal(e)
        case Ok(mine) => Ok(before + mine)
  }

  /** The walk ends fatally exactly when some payload's step does, and then
      with the first such step's reason; otherwise it prints every step's
      events in turn. */
  lemma {:induction false} AllPayloadsFatal(items: seq<Payload>, step: Step)
    ensures AllPayloadEvents(items, step).Fatal? <==> exists k :: 0 <= k < |items| && step(items[k]).Fatal?
    ensures AllPayloadEvents(items, step).Fatal? ==>
      exists k :: (0 <= k < |items| && step(items[k]).Fatal? && AllPayloadEvents(items, step).reason == step(items[k]).reason
        && forall j :: 0 <= j < k ==> step(items[j]).Ok?)
  {
    if items != [] {
      var init := items[..|items| - 1];
      assert forall k :: 0 <= k < |init| ==> init[k] == items[k];
      AllPayloadsFatal(init, step);
    }
  }

  /** The loop of `processPayloadItems`. */
  method ProcessPayloadItems(items: seq<Payload>, showAllUrl: bool, showSuccess: bool, web: string -> Fetch,
                             read: JobReader, titleOf: TitleReader) returns (r: Outcome<seq<Event>>)
    ensures r == AllPayloadEvents(items, PageStep(showAllUrl, showSuccess, web, read, titleOf))
  {
    ghost var step := PageStep(showAllUrl, showSuccess, web, read, titleOf);
    var events: seq<Event> := [];
    for i := 0 to |items|
      invariant AllPayloadEvents(items[..i], step) == Ok(events)
    {
      assert items[..i + 1][..i] == items[..i];
      var one := ProcessPayloadItem(items[i], showAllUrl, showSuccess, web, read, titleOf);
      assert one == step(items[i]);
      if one.Fatal? {
        FatalPrefix(items, i + 1, step);
        return one;
      }
      events := events + one.value;
    }
    assert items[..|items|] == items;
    r := Ok(events);
  }

  /** A fatal step on a prefix of the list ends the whole walk the same
      way. */
  lemma {:induction false} FatalPrefix(items: seq<Payload>, n: nat, step: Step)
    requires n <= |items|
    requires AllPayloadEvents(items[..n], step).Fatal?
    ensures AllPayloadEvents(items, step) == AllPayloadEvents(items[..n], step)
    decreases |items|
  {
    if n < |items| {
      var init := items[..|items| - 1];
      assert init[..n] == items[..n];
      FatalPrefix(init, n, step);
    } else {
      assert items[..n] == items;
    }
  }
}
