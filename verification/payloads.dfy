/** One payload's page (`ProcessPayloadItem`, `printPayloadTitles`): the
    status the blocking jobs give the payload, reconciled with the phase the
    payload list reports; the title block; and the blocking jobs whose
    results are shown, each handed to the aggregated or the plain job
    summary. */
module Payloads {
  import opened Common
  import opened Strings
  import opened Regex

  /** A `ReleasePayload`: the release page's address, its phase, whether it
      was forced, and its two time texts. */
  datatype Payload = Payload(releaseUrl: string, phase: string, forced: bool, timeStr: string, timeDetailStr: string)

  const Accepted := "Accepted"
  const Rejected := "Rejected"
  const Pending := "Pending"

  /** The separator printed above a payload. */
  function Separator(): (r: string)
    ensures |r| == 175 && forall k :: 0 <= k < |r| ==> r[k] == '='
  {
    Repeat('=', 175)
  }

  // ---------------------------------------------------------------------
  // The blocking jobs

  /** What a blocking-job item of the page says: the job's address, its
      name as written, and its result text. */
  datatype JobEntry = JobEntry(url: string, name: string, status: string)

  /** `href="(.*)"\>(.*) (Pending.*|Succeeded.*|Failed.*)</a>.*` */
  const JobPattern: Pattern :=
    Cons(Lit("href=\""), Cons(Rep(NotNewline, 0, true, true), Cons(Lit("\">"), Cons(Rep(NotNewline, 0, true, true),
    Cons(Lit(" "), Cons(Mark, Cons(Alt(["Pending", "Succeeded", "Failed"], false), Cons(Rep(NotNewline, 0, true, false),
    Cons(Mark, Cons(Lit("</a>"), Cons(Rep(NotNewline, 0, true, false), Nil)))))))))))

  /** The three groups of the job pattern, for an item it matches. */
  function EntryOf(item: string): (r: Option<JobEntry>)
    ensures r.Some? <==> Matches(JobPattern, item)
    ensures r.Some? ==>
      var m := FindSubmatch(JobPattern, item);
      r.value.url == GroupOf(m, 1) && r.value.name == GroupOf(m, 2) && r.value.status == GroupOf(m, 3)
  {
    var m := FindSubmatch(JobPattern, item);
    if m == [] then None
    else Some(JobEntry(GroupOf(m, 1), GroupOf(m, 2), GroupOf(m, 3)))
  }

  /** How an item is read; `EntryOf` is the tool's. */
  type JobReader = string -> Option<JobEntry>

  /** The item says the job failed or is still pending. */
  predicate Decides(item: string, read: JobReader) {
    read(item).Some? && (read(item).value.status == "Failed" || read(item).value.status == "Pending")
  }

  /** The status the first loop computes: Accepted, unless an item failed or
      is pending, in which case the last such item decides. */
  function Verdict(items: seq<string>, read: JobReader): (r: string)
    ensures r == Accepted || r == Rejected || r == Pending
  {
    if items == [] then Accepted
    else
      var last := items[|items| - 1];
      if Decides(last, read) then
        if read(last).value.status == "Failed" then Rejected else Pending
      else Verdict(items[..|items| - 1], read)
  }

  /** The payload looks accepted exactly when no item failed or is
      pending. */
  lemma {:induction false} VerdictAccepted(items: seq<string>, read: JobReader)
    ensures Verdict(items, read) == Accepted <==> forall k :: 0 <= k < |items| ==> !Decides(items[k], read)
  {
    if items != [] {
      var init := items[..|items| - 1];
      VerdictAccepted(init, read);
      assert forall k :: 0 <= k < |init| ==> init[k] == items[k];
    }
  }

  /** Otherwise the last failed or pending item decides: Rejected when it
      failed, Pending when it is pending. */
  lemma {:induction false} VerdictLastDecides(items: seq<string>, read: JobReader, k: nat)
    requires k < |items| && Decides(items[k], read)
    requires forall j :: k < j < |items| ==> !Decides(items[j], read)
    ensures Verdict(items, read) == if read(items[k]).value.status == "Failed" then Rejected else Pending
    decreases |items|
  {
    var last := |items| - 1;
    if k < last {
      var init := items[..last];
      assert init[k] == items[k];
      assert forall j :: k < j < |init| ==> init[j] == items[j];
      VerdictLastDecides(init, read, k);
    }
  }

  /** The first loop over the blocking jobs, then the reconciliation with
      the reported phase: the status printed under the title is always the
      phase, whatever the jobs say. */
  method DeriveStatus(items: seq<string>, read: JobReader, phase: string) returns (computed: string, status: string)
    ensures computed == Verdict(items, read)
    ensures status == phase
  {
    computed := Accepted;
    var i := 0;
    while i < |items|
      invariant 0 <= i <= |items|
      invariant computed == Verdict(items[..i], read)
    {
      assert items[..i + 1][..i] == items[..i];
      var entry := read(items[i]);
      if entry.Some? {
        if entry.value.status == "Failed" {
          computed := Rejected;
        }
        if entry.value.status == "Pending" {
          computed := Pending;
        }
      }
      i := i + 1;
    }
    assert items[..i] == items;
    status := computed;
    if status != phase {
      status := phase;
    }
  }

  /** What the page prints and whom it hands a job to, in order. */
  datatype Event = Say(line: Line) | AggregatedJob(url: string, shortName: string) | PlainJob(url: string, shortName: string)

  /** The job's name with the spaces around it removed. */
  function ShortName(e: JobEntry): string {
    Trim(e.name, ' ')
  }

  /** The second loop, for one item: a failed job, or any job when
      `showSuccess` holds, prints its result (failures and successes only)
      and is handed on. */
  function EntryEvents(e: JobEntry, showSuccess: bool): (r: seq<Event>)
    ensures r != [] <==> e.status == "Failed" || showSuccess
    ensures r != [] ==> r[|r| - 1] == Handed(e)
    ensures r != [] ==> (|r| == 2 <==> Shows(e.status)) && r[0] == if Shows(e.status) then Say(ResultLine(e)) else Handed(e)
  {
    if e.status == "Failed" || showSuccess then
      (if Shows(e.status) then [Say(ResultLine(e))] else []) + [Handed(e)]
    else []
  }

  /** The results that print a line. */
  predicate Shows(status: string) {
    status == "Failed" || status == "Succeeded"
  }

  /** The result line: the name and the result, in the failure colour for
      a failed job and the success colour for a successful one. */
  function ResultLine(e: JobEntry): (l: Line)
    ensures l.sev == if e.status == "Failed" then Alert else Good
    ensures l.text == "  " + ShortName(e) + "  " + e.status + " "
  {
    ResultText(ShortName(e), e.status);
    Line(if e.status == "Failed" then Alert else Good, Println([" ", ShortName(e), "", e.status, ""]))
  }

  /** `fmt.Println(" ", name, colour, status, colorNone)` with the colours
      removed: each colour leaves the spaces around it. */
  lemma ResultText(name: string, status: string)
    ensures Println([" ", name, "", status, ""]) == "  " + name + "  " + status + " "
  {
    var ops := [" ", name, "", status, ""];
    assert ops[1..][1..][1..][1..] == [""];
    assert Join(ops[1..][1..][1..], " ") == status + " " + "";
    assert Join(ops[1..][1..], " ") == "" + " " + (status + " " + "");
    assert Join(ops[1..], " ") == name + " " + ("" + " " + (status + " " + ""));
  }

  /** The summary a job is handed to: the aggregated one for a name
      starting with "aggregated", the plain one otherwise. */
  function Handed(e: JobEntry): (ev: Event)
    ensures ev.AggregatedJob? <==> HasPrefix(ShortName(e), "aggregated")
    ensures Handoff(ev) && ev.url == e.url && ev.shortName == Trim(e.name, ' ')
  {
    var name := ShortName(e);
    if HasPrefix(name, "aggregated") then AggregatedJob(e.url, name) else PlainJob(e.url, name)
  }

  function ItemEvents(item: string, read: JobReader, showSuccess: bool): seq<Event> {
    match read(item)
    case None => []
    case Some(e) => EntryEvents(e, showSuccess)
  }

  /** The second loop over all items. */
  function JobEvents(items: seq<string>, read: JobReader, showSuccess: bool): (r: seq<Event>)
    ensures |r| <= 2 * |items|
  {
    if items == [] then []
    else JobEvents(items[..|items| - 1], read, showSuccess) + ItemEvents(items[|items| - 1], read, showSuccess)
  }

  /** An event that hands a job to a summary. */
  predicate Handoff(ev: Event) {
    ev.AggregatedJob? || ev.PlainJob?
  }

  /** Some item is a failed job whose address is `url`. */
  predicate FailedItem(items: seq<string>, read: JobReader, url: string) {
    exists j :: 0 <= j < |items| && read(items[j]).Some? && read(items[j]).value.status == "Failed"
      && read(items[j]).value.url == url
  }

  /** Unless `showSuccess` holds, only failed jobs are handed on: each
      hand-off names the address of an item that failed. */
  lemma {:induction false} OnlyFailuresHandedOn(items: seq<string>, read: JobReader)
    ensures forall k :: 0 <= k < |JobEvents(items, read, false)| && Handoff(JobEvents(items, read, false)[k]) ==>
      FailedItem(items, read, JobEvents(items, read, false)[k].url)
  {
    if items != [] {
      var init := items[..|items| - 1];
      var last := items[|items| - 1];
      OnlyFailuresHandedOn(init, read);
      var before := JobEvents(init, read, false);
      var mine := ItemEvents(last, read, false);
      assert JobEvents(items, read, false) == before + mine;
      forall k | 0 <= k < |before + mine| && Handoff((before + mine)[k])
        ensures FailedItem(items, read, (before + mine)[k].url)
      {
        if k < |before| {
          assert (before + mine)[k] == before[k];
          FailedItemGrows(items, read, before[k].url);
        } else {
          assert mine != [];
          assert items[|items| - 1] == last;
        }
      }
    }
  }

  /** A failed item of the first items is one of all of them. */
  lemma FailedItemGrows(items: seq<string>, read: JobReader, url: string)
    requires items != [] && FailedItem(items[..|items| - 1], read, url)
    ensures FailedItem(items, read, url)
  {
    var init := items[..|items| - 1];
    var j :| 0 <= j < |init| && read(init[j]).Some? && read(init[j]).value.status == "Failed"
      && read(init[j]).value.url == url;
    assert items[j] == init[j];
  }

  /** Some event hands the job at `url` to a summary. */
  predicate HandsOn(events: seq<Event>, url: string) {
    exists k :: 0 <= k < |events| && Handoff(events[k]) && events[k].url == url
  }

  lemma HandsOnAppend(a: seq<Event>, b: seq<Event>, url: string)
    requires HandsOn(a, url) || HandsOn(b, url)
    ensures HandsOn(a + b, url)
  {
    if HandsOn(a, url) {
      var k :| 0 <= k < |a| && Handoff(a[k]) && a[k].url == url;
      assert (a + b)[k] == a[k];
    } else {
      var k :| 0 <= k < |b| && Handoff(b[k]) && b[k].url == url;
      assert (a + b)[|a| + k] == b[k];
    }
  }

  /** Every failed job is handed on, whatever `showSuccess` says. */
  lemma {:induction false} FailuresHandedOn(items: seq<string>, read: JobReader, showSuccess: bool, j: nat)
    requires j < |items| && read(items[j]).Some? && read(items[j]).value.status == "Failed"
    ensures HandsOn(JobEvents(items, read, showSuccess), read(items[j]).value.url)
  {
    var init := items[..|items| - 1];
    var url := read(items[j]).value.url;
    var before := JobEvents(init, read, showSuccess);
    var mine := ItemEvents(items[|items| - 1], read, showSuccess);
    assert JobEvents(items, read, showSuccess) == before + mine;
    if j < |items| - 1 {
      assert init[j] == items[j];
      FailuresHandedOn(init, read, showSuccess, j);
    } else {
      var e := read(items[j]).value;
      assert mine == EntryEvents(e, showSuccess);
      assert Handoff(mine[|mine| - 1]) && mine[|mine| - 1].url == url;
    }
    HandsOnAppend(before, mine, url);
  }

  /** One more item, whose events are `found`. */
  lemma JobEventsSnoc(items: seq<string>, i: nat, read: JobReader, showSuccess: bool, found: seq<Event>)
    requires i < |items|
    requires read(items[i]).None? ==> found == []
    requires read(items[i]).Some? ==> found == EntryEvents(read(items[i]).value, showSuccess)
    ensures JobEvents(items[..i + 1], read, showSuccess) == JobEvents(items[..i], read, showSuccess) + found
  {
    assert items[..i + 1][..i] == items[..i];
    assert items[..i + 1][i] == items[i];
  }

  /** The body of the second loop for an item the pattern matches. */
  method ReportJob(e: JobEntry, showSuccess: bool) returns (events: seq<Event>)
    ensures events == EntryEvents(e, showSuccess)
  {
    events := [];
    var name := Trim(e.name, ' ');
    if e.status == "Failed" || showSuccess {
      var said: seq<Event> := [];
      if e.status == "Failed" {
        said := [Say(Line(Alert, Println([" ", name, "", e.status, ""])))];
      }
      if e.status == "Succeeded" {
        said := said + [Say(Line(Good, Println([" ", name, "", e.status, ""])))];
      }
      var next: Event;
      if HasPrefix(name, "aggregated") {
        next := AggregatedJob(e.url, name);
      } else {
        next := PlainJob(e.url, name);
      }
      EntryEventsParts(e, showSuccess, said, next);
      events := said + [next];
    }
  }

  /** What one item prints, and the summary it is handed to. */
  lemma EntryEventsParts(e: JobEntry, showSuccess: bool, said: seq<Event>, next: Event)
    requires e.status == "Failed" || showSuccess
    requires said == if Shows(e.status) then [Say(ResultLine(e))] else []
    requires next == Handed(e)
    ensures said + [next] == EntryEvents(e, showSuccess)
  {
  }

  /** The second loop. */
  method SelectJobs(items: seq<string>, read: JobReader, showSuccess: bool) returns (events: seq<Event>)
    ensures events == JobEvents(items, read, showSuccess)
  {
    events := [];
    var i := 0;
    while i < |items|
      invariant 0 <= i <= |items|
      invariant events == JobEvents(items[..i], read, showSuccess)
    {
      var found := SelectItem(items, i, read, showSuccess);
      events := events + found;
      i := i + 1;
    }
    assert items[..i] == items;
  }

  /** The body of the second loop for item `i`: nothing when the pattern
      does not match it, otherwise the job's report. */
  method SelectItem(items: seq<string>, i: nat, read: JobReader, showSuccess: bool) returns (found: seq<Event>)
    requires i < |items|
    ensures JobEvents(items[..i + 1], read, showSuccess) == JobEvents(items[..i], read, showSuccess) + found
  {
    var entry := read(items[i]);
    found := [];
    if entry.Some? {
      found := ReportJob(entry.value, showSuccess);
    }
    JobEventsSnoc(items, i, read, showSuccess, found);
  }

  // ---------------------------------------------------------------------
  // The title block

  /** The colour of the title line; `None` for a status the switch does not
      know, which leaves the colour unset. */
  function TitleColor(status: string): (c: Option<Severity>)
    ensures c == Some(Alert) <==> status == Rejected
    ensures c == Some(Good) <==> status == Accepted
    ensures c == Some(Neutral) <==> status in {Pending, "Ready", ""}
  {
    if status == Rejected then Some(Alert)
    else if status == Accepted then Some(Good)
    else if status == Pending || status == "Ready" || status == "" then Some(Neutral)
    else None
  }

  /** The address shown on the title line: a rejected payload always shows
      its release page, an accepted, pending or ready one only when
      `showAllUrl` holds, and an unknown status none. */
  function TitleUrl(showAllUrl: bool, status: string, p: Payload): (url: string)
    ensures url != "" ==> url == p.releaseUrl
    ensures status == Rejected ==> url == p.releaseUrl
    ensures TitleColor(status).None? || (!showAllUrl && status != Rejected) ==> url == ""
    ensures showAllUrl && TitleColor(status).Some? ==> url == p.releaseUrl
  {
    if status == Rejected then p.releaseUrl
    else if TitleColor(status).Some? && showAllUrl then p.releaseUrl
    else ""
  }

  /** The title line's layout after its lead: the time right-aligned in 11
      columns, then `DetailLayout`. */
  predicate TitleLayout(r: string, lead: string, time: string, detail: string, url: string) {
    var detailAt := |lead| + FieldWidth(time, 11);
    && detailAt <= |r|
    && r[..|lead|] == lead
    && RightAligned(r, |lead|, time, 11)
    && DetailLayout(r[detailAt..], detail, url)
  }

  /** A space, the time detail right-aligned in 16 columns, three spaces
      and the address. */
  predicate DetailLayout(s: string, detail: string, url: string) {
    && |s| == 1 + FieldWidth(detail, 16) + 3 + |url|
    && s[0] == ' '
    && RightAligned(s, 1, detail, 16)
    && s[|s| - 3 - |url|..] == "   " + url
  }

  /** The `%s %11s %16s   %s` text of a title line. */
  function TitleText(lead: string, time: string, detail: string, url: string): (r: string)
    ensures TitleLayout(r, lead, time, detail, url)
  {
    var second := DetailText(detail, url);
    PaddedBetween(lead, time, 11, second);
    lead + PadLeft(time, 11) + second
  }

  /** The text after the time field. */
  function DetailText(detail: string, url: string): (s: string)
    ensures DetailLayout(s, detail, url)
  {
    PaddedBetween(" ", detail, 16, "   " + url);
    " " + PadLeft(detail, 16) + ("   " + url)
  }

  /** The title line: the title, the status (marked "(f)" for a forced
      payload), the two time texts right-aligned in 11 and 16 columns, and
      the address. */
  function TitleHeader(showAllUrl: bool, title: string, status: string, p: Payload): (r: string)
    ensures TitleLayout(r, title + "  " + status + (if p.forced then "(f)" else "") + "  ",
      p.timeStr, p.timeDetailStr, TitleUrl(showAllUrl, status, p))
  {
    TitleText(title + "  " + status + (if p.forced then "(f)" else "") + "  ", p.timeStr, p.timeDetailStr,
      TitleUrl(showAllUrl, status, p))
  }

  /** `printPayloadTitles`: a complaint for an unknown status, a blank line,
      the separator, a blank line, and the title line in the status's
      colour. */
  function TitleLines(showAllUrl: bool, title: string, status: string, p: Payload): (r: seq<Line>)
    ensures |r| == if TitleColor(status).None? then 5 else 4
    ensures r[|r| - 4..] == [Line(Plain, ""), Line(Plain, Separator()), Line(Plain, ""),
      Line(if TitleColor(status).Some? then TitleColor(status).value else Plain, TitleHeader(showAllUrl, title, status, p))]
  {
    var sev := match TitleColor(status) case Some(c) => c case None => Plain;
    var block := [Line(Plain, ""), Line(Plain, Separator()), Line(Plain, ""), Line(sev, TitleHeader(showAllUrl, title, status, p))];
    if TitleColor(status).None? then
      [Line(Plain, Println(["Unknown payloadStatus:", status, " should be one of:", Accepted, Rejected]))] + block
    else block
  }

  /** The page's `<title>` text, as `\<.*title\>(.*)\<\/title\>` captures it. */
  const TitlePattern: Pattern :=
    Cons(Lit("<"), Cons(Rep(NotNewline, 0, true, false), Cons(Lit("title>"), Cons(Rep(NotNewline, 0, true, true),
    Cons(Lit("</title>"), Nil)))))

  function TitleGroup(body: string): (r: Option<string>)
    ensures r.Some? <==> Matches(TitlePattern, body)
    ensures r.Some? ==> r.value == GroupOf(FindSubmatch(TitlePattern, body), 1)
  {
    var m := FindSubmatch(TitlePattern, body);
    if m == [] then None else Some(GroupOf(m, 1))
  }

  /** How the title is found in the page; `TitleGroup` is the tool's. */
  type TitleReader = string -> Option<string>

  /** The title from the captured text: it loses its first eight characters
      ("Release "); "No release" when the page has no title. `None` when
      the captured text is shorter than eight characters, where the slice
      panics. */
  function PageTitle(group: Option<string>): (r: Option<string>)
    ensures r.None? <==> group.Some? && |group.value| < 8
    ensures r.Some? && group.Some? ==> group.value == group.value[..8] + r.value
    ensures group.None? ==> r == Some("No release")
  {
    match group
    case None => Some("No release")
    case Some(t) => if |t| < 8 then None else Some(t[8..])
  }

  // ---------------------------------------------------------------------
  // `ProcessPayloadItem`

  /** The lines printed for a page without a "Blocking jobs" section (aged
      out): the separator, the last part of the address with the phase, and
      the page's first line. */
  function AgedOutLines(p: Payload, body: string): (r: seq<Line>)
    ensures |r| == 4 && r[1] == Line(Plain, Separator())
    ensures HasPrefix(r[2].text, LastPart(p.releaseUrl, "/") + " " + p.phase)
    ensures r[0] == Line(Plain, "") && r[3] == Line(Plain, "   " + FirstLine(body))
    ensures r[2] == Line(Plain, LastPart(p.releaseUrl, "/") + " " + p.phase + (if p.forced then "(f)" else "") + ", " + p.releaseUrl)
  {
    PrintlnPair("  ", FirstLine(body));
    var head := LastPart(p.releaseUrl, "/") + " " + p.phase;
    var title := head + (if p.forced then "(f)" else "") + ", " + p.releaseUrl;
    assert title[..|head|] == head;
    [Line(Plain, ""), Line(Plain, Separator()), Line(Plain, title), Line(Plain, Println(["  ", FirstLine(body)]))]
  }

  /** The blocking-job items: the page between "Blocking jobs" and
      "Informing jobs", split at each `<li>`. */
  function BlockingItems(body: string): seq<string>
    requires |Split(body, "Blocking jobs")| >= 2
  {
    Split(Split(Split(body, "Blocking jobs")[1], "Informing jobs")[0], "<li>")
  }

  /** The panic the title slice causes. */
  const SliceOutOfRange := "slice bounds out of range"

  /** What `ProcessPayloadItem` does with a payload's page: a failed fetch
      is fatal, and so is a title too short to slice; an aged-out page prints its note; otherwise the computed
      status is printed, then the title block with the payload's phase,
      then the blocking jobs' results and hand-offs. */
  function PayloadEvents(p: Payload, page: Fetch, showAllUrl: bool, showSuccess: bool, read: JobReader, titleOf: TitleReader)
    : (r: Outcome<seq<Event>>)
    ensures r.Fatal? <==> !page.Body? || PageTitle(titleOf(page.text)).None?
    ensures r.Ok? && |Split(page.text, "Blocking jobs")| >= 2 ==>
      |r.value| >= 5 && r.value[0] == Say(Line(Plain, Verdict(BlockingItems(page.text), read)))
    ensures r.Ok? && |Split(page.text, "Blocking jobs")| < 2 ==> r.value == Says(AgedOutLines(p, page.text))
  {
    if !page.Body? then Fatal(FetchFailure(page))
    else if PageTitle(titleOf(page.text)).None? then Fatal(SliceOutOfRange)
    else
      var title := PageTitle(titleOf(page.text)).value;
      if |Split(page.text, "Blocking jobs")| < 2 then
        Ok(Says(AgedOutLines(p, page.text)))
      else
        var items := BlockingItems(page.text);
        Ok([Say(Line(Plain, Verdict(items, read)))]
           + Says(TitleLines(showAllUrl, title, p.phase, p))
           + JobEvents(items, read, showSuccess))
  }

  /** On a page with blocking jobs, the computed status is followed by the
      title block, which shows the payload's reported phase, and then by
      the blocking jobs' results and hand-offs. */
  lemma PayloadParts(p: Payload, page: Fetch, showAllUrl: bool, showSuccess: bool, read: JobReader, titleOf: TitleReader)
    requires page.Body? && PageTitle(titleOf(page.text)).Some? && |Split(page.text, "Blocking jobs")| >= 2
    ensures var r := PayloadEvents(p, page, showAllUrl, showSuccess, read, titleOf);
      var block := Says(TitleLines(showAllUrl, PageTitle(titleOf(page.text)).value, p.phase, p));
      && r.Ok? && r.value[0] == Say(Line(Plain, Verdict(BlockingItems(page.text), read)))
      && r.value[1..1 + |block|] == block
      && r.value[1 + |block|..] == JobEvents(BlockingItems(page.text), read, showSuccess)
  {
    var items := BlockingItems(page.text);
    var first := Say(Line(Plain, Verdict(items, read)));
    var block := Says(TitleLines(showAllUrl, PageTitle(titleOf(page.text)).value, p.phase, p));
    var jobs := JobEvents(items, read, showSuccess);
    assert PayloadEvents(p, page, showAllUrl, showSuccess, read, titleOf) == Ok([first] + block + jobs);
    ThreeParts(first, block, jobs);
  }

  /** The parts of a status line, a title block and the jobs' events. */
  lemma ThreeParts(first: Event, block: seq<Event>, jobs: seq<Event>)
    ensures var r := [first] + block + jobs;
      r[0] == first && r[1..1 + |block|] == block && r[1 + |block|..] == jobs
  {
  }

  /** Printed lines as events. */
  function Says(lines: seq<Line>): (r: seq<Event>)
    ensures |r| == |lines| && forall k :: 0 <= k < |lines| ==> r[k] == Say(lines[k])
  {
    if lines == [] then [] else Says(lines[..|lines| - 1]) + [Say(lines[|lines| - 1])]
  }

  /** `ProcessPayloadItem`, up to the summaries of the jobs it hands on. */
  method ProcessPayloadItem(p: Payload, showAllUrl: bool, showSuccess: bool, web: string -> Fetch, read: JobReader,
                            titleOf: TitleReader) returns (r: Outcome<seq<Event>>)
    ensures r == PayloadEvents(p, web(p.releaseUrl), showAllUrl, showSuccess, read, titleOf)
  {
    var page := web(p.releaseUrl);
    if !page.Body? {
      return Fatal(FetchFailure(page));
    }
    var body := page.text;
    var title := PageTitle(titleOf(body));
    if title.None? {
      return Fatal(SliceOutOfRange);
    }
    var parts := Split(body, "Blocking jobs");
    if |parts| < 2 {
      return Ok(Says(AgedOutLines(p, body)));
    }
    var items := Split(Split(parts[1], "Informing jobs")[0], "<li>");
    var computed, status := DeriveStatus(items, read, p.phase);
    var events := SelectJobs(items, read, showSuccess);
    r := Ok([Say(Line(Plain, computed))] + Says(TitleLines(showAllUrl, title.value, status, p)) + events);
  }
}
