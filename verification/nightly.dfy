/** The nightly status report (`nightly-status.py`): the build time read
    from a nightly tag's name, the age of the build, the latest tag of each
    requested version, and the tag as the table shows it. The current time
    is a parameter, and so is the one-decimal hour formatting. */
module Nightly {
  import opened Common
  import opened Strings

  // ---------------------------------------------------------------------
  // `_parse_timestamp_from_tag`

  /** `YYYY-MM-DD-HHMMSS` is seventeen characters long. */
  const StampLength := 17

  /** The dash positions of a stamp. */
  predicate DashPosition(k: int) {
    k == 4 || k == 7 || k == 10
  }

  /** `\d{4}-\d{2}-\d{2}-\d{6}` starts at `i`. */
  predicate StampAt(s: string, i: nat) {
    i + StampLength <= |s| &&
    forall j :: i <= j < i + StampLength ==> if DashPosition(j - i) then s[j] == '-' else IsDigit(s[j])
  }

  /** The leftmost stamp at or after `i`, as `re.search` finds it. */
  function StampFrom(s: string, i: nat): (r: Option<nat>)
    ensures r.Some? ==> i <= r.value && StampAt(s, r.value)
    ensures r.Some? ==> forall j :: i <= j < r.value ==> !StampAt(s, j)
    ensures r.None? ==> forall j: nat :: i <= j ==> !StampAt(s, j)
    decreases |s| - i
  {
    if i + StampLength > |s| then None
    else if StampAt(s, i) then Some(i)
    else StampFrom(s, i + 1)
  }

  /** The character the `'%Y-%m-%d %H:%M:%S'` layout expects at position
      `k`. */
  predicate LayoutChar(k: int, c: char) {
    if k == 4 || k == 7 then c == '-'
    else if k == 10 then c == ' '
    else if k == 13 || k == 16 then c == ':'
    else IsDigit(c)
  }

  predicate Layout(f: string) {
    |f| == 19 && forall k :: 0 <= k < 19 ==> LayoutChar(k, f[k])
  }

  /** The number written by the `w` digits at `i`. */
  function Field(s: string, i: nat, w: nat): nat
    requires i + w <= |s| && forall k :: i <= k < i + w ==> IsDigit(s[k])
  {
    assert AllDigits(s[i..i + w]);
    DigitsValue(s[i..i + w])
  }

  /** The stamp rewritten for `strptime`: the date, a space, and the six
      clock digits as `HH:MM:SS`. */
  function Formatted(ts: string): (f: string)
    requires StampAt(ts, 0) && |ts| == StampLength
    ensures Layout(f)
    ensures forall k :: 0 <= k < 10 ==> f[k] == ts[k]
    ensures forall k :: 11 <= k < 13 ==> f[k] == ts[k]
    ensures forall k :: 14 <= k < 16 ==> f[k] == ts[k - 1]
    ensures forall k :: 17 <= k < 19 ==> f[k] == ts[k - 2]
  {
    ts[..10] + " " + ts[11..13] + ":" + ts[13..15] + ":" + ts[15..17]
  }

  /** A date and a time of day, to the second, in UTC. */
  datatype Stamp = Stamp(year: nat, month: nat, day: nat, hour: nat, minute: nat, second: nat)

  predicate IsLeap(y: int) {
    y % 4 == 0 && (y % 100 != 0 || y % 400 == 0)
  }

  function DaysInMonth(y: int, m: int): (n: int)
    requires 1 <= m <= 12
    ensures 28 <= n <= 31
  {
    if m == 2 then (if IsLeap(y) then 29 else 28)
    else if m == 4 || m == 6 || m == 9 || m == 11 then 30
    else 31
  }

  /** The fields `datetime` accepts: a year from 1, a month, a day of that
      month, and a time of day. */
  predicate ValidStamp(t: Stamp) {
    1 <= t.year && 1 <= t.month <= 12 && 1 <= t.day <= DaysInMonth(t.year, t.month)
    && t.hour <= 23 && t.minute <= 59 && t.second <= 59
  }

  /** `datetime.strptime(f, '%Y-%m-%d %H:%M:%S')` on text of that layout:
      the fields, or `None` (a `ValueError`) when one is out of range. */
  function Strptime(f: string): (r: Option<Stamp>)
    requires Layout(f)
    ensures r.Some? <==> ValidStamp(Stamp(Field(f, 0, 4), Field(f, 5, 2), Field(f, 8, 2),
                                          Field(f, 11, 2), Field(f, 14, 2), Field(f, 17, 2)))
    ensures r.Some? ==> r.value.year == Field(f, 0, 4) && r.value.month == Field(f, 5, 2) && r.value.day == Field(f, 8, 2)
    ensures r.Some? ==> r.value.hour == Field(f, 11, 2) && r.value.minute == Field(f, 14, 2) && r.value.second == Field(f, 17, 2)
  {
    var t := Stamp(Field(f, 0, 4), Field(f, 5, 2), Field(f, 8, 2), Field(f, 11, 2), Field(f, 14, 2), Field(f, 17, 2));
    if ValidStamp(t) then Some(t) else None
  }

  /** The six numbers of the stamp at `i`: the three dash-separated date
      fields and the clock digits two at a time. */
  function StampFields(tag: string, i: nat): Stamp
    requires StampAt(tag, i)
  {
    Stamp(Field(tag, i, 4), Field(tag, i + 5, 2), Field(tag, i + 8, 2),
          Field(tag, i + 11, 2), Field(tag, i + 13, 2), Field(tag, i + 15, 2))
  }

  /** `_parse_timestamp_from_tag`: the leftmost stamp in the tag, read as a
      UTC time; `None` when there is no stamp or one of its fields is out
      of range. */
  function ParseTimestamp(tag: string): (r: Option<Stamp>)
    ensures (forall j: nat :: !StampAt(tag, j)) ==> r.None?
    ensures StampFrom(tag, 0).Some? ==>
      var t := StampFields(tag, StampFrom(tag, 0).value);
      && (r.Some? <==> ValidStamp(t))
      && (r.Some? ==> r.value == t)
  {
    match StampFrom(tag, 0)
    case None => None
    case Some(i) =>
      FormattedFields(tag, i);
      Strptime(Formatted(tag[i..i + StampLength]))
  }

  /** Reformatting the stamp at `i` keeps its six numbers. */
  lemma FormattedFields(tag: string, i: nat)
    requires StampAt(tag, i)
    ensures var f := Formatted(tag[i..i + StampLength]);
      Stamp(Field(f, 0, 4), Field(f, 5, 2), Field(f, 8, 2), Field(f, 11, 2), Field(f, 14, 2), Field(f, 17, 2))
      == StampFields(tag, i)
  {
    var f := Formatted(tag[i..i + StampLength]);
    SameField(tag, i, 0, 4, f, 0);
    SameField(tag, i, 5, 2, f, 5);
    SameField(tag, i, 8, 2, f, 8);
    SameField(tag, i, 11, 2, f, 11);
    SameField(tag, i, 13, 2, f, 14);
    SameField(tag, i, 15, 2, f, 17);
  }

  /** A field of the stamp at `i` reads the same after reformatting. */
  lemma SameField(tag: string, i: nat, at: nat, w: nat, f: string, fat: nat)
    requires i + StampLength <= |tag| && at + w <= StampLength && fat + w <= |f|
    requires forall k :: i + at <= k < i + at + w ==> IsDigit(tag[k])
    requires forall k :: fat <= k < fat + w ==> IsDigit(f[k])
    requires forall k :: fat <= k < fat + w ==> f[k] == tag[i + at + k - fat]
    ensures Field(f, fat, w) == Field(tag, i + at, w)
  {
    assert f[fat..fat + w] == tag[i + at..i + at + w];
  }

  // ---------------------------------------------------------------------
  // `_calculate_age_string`

  /** Days before 1 January of year `y`, counted from 1 January of year 1
      (proleptic Gregorian calendar). */
  function DaysBeforeYear(y: nat): int
    requires y >= 1
  {
    var p := y - 1;
    p * 365 + p / 4 - p / 100 + p / 400
  }

  /** Each year adds its own length: 366 days for a leap year, 365
      otherwise. */
  lemma YearLength(y: nat)
    requires y >= 1
    ensures DaysBeforeYear(y + 1) - DaysBeforeYear(y) == if IsLeap(y) then 366 else 365
  {
    var p := y - 1;
    NextQuotient(p, 4);
    NextQuotient(p, 100);
    NextQuotient(p, 400);
    DivisorChain(y);
  }

  /** A multiple of 400 is one of 100, and a multiple of 100 one of 4. */
  lemma DivisorChain(y: nat)
    ensures y % 400 == 0 ==> y % 100 == 0
    ensures y % 100 == 0 ==> y % 4 == 0
  {
    if y % 400 == 0 {
      assert y == 100 * (4 * (y / 400));
    }
    if y % 100 == 0 {
      assert y == 4 * (25 * (y / 100));
    }
  }

  /** The quotient by `m` grows by one exactly at a multiple of `m`. */
  lemma NextQuotient(p: nat, m: nat)
    requires m in {4, 100, 400}
    ensures (p + 1) / m - p / m == if (p + 1) % m == 0 then 1 else 0
  {
    var q, r := p / m, p % m;
    assert p == q * m + r && 0 <= r < m;
    if r + 1 == m {
      assert p + 1 == (q + 1) * m;
    } else {
      assert p + 1 == q * m + (r + 1);
    }
  }

  /** Days of year `y` before the first of month `m`. */
  function DaysBeforeMonth(y: int, m: int): int
    requires 1 <= m <= 12
  {
    if m == 1 then 0 else DaysBeforeMonth(y, m - 1) + DaysInMonth(y, m - 1)
  }

  /** The moment as seconds on one scale. */
  function Seconds(t: Stamp): int
    requires ValidStamp(t)
  {
    (DaysBeforeYear(t.year) + DaysBeforeMonth(t.year, t.month) + t.day) * 86400
      + t.hour * 3600 + t.minute * 60 + t.second
  }

  /** The age `now - tag_time` as a `timedelta`: whole days (rounded down,
      so negative for a future time) and the seconds left over. */
  function AgeDays(age: int): int {
    age / 86400
  }

  function AgeHours(age: int): (h: int)
    ensures 0 <= h < 24
  {
    (age % 86400) / 3600
  }

  /** `days` and `hours` place the age between two whole hours. */
  lemma AgeBetweenHours(age: int)
    ensures AgeDays(age) * 86400 + AgeHours(age) * 3600 <= age < AgeDays(age) * 86400 + (AgeHours(age) + 1) * 3600
    ensures AgeDays(age) > 0 <==> age >= 86400
  {
  }

  /** How the one-decimal hour count `f"{h:.1f}"` of an age in seconds is
      written. */
  type HourFormatter = int -> string

  /** `_calculate_age_string`: a build more than a day old shows days and
      whole hours, a younger one (or one from the future) its hours to one
      decimal. */
  function AgeString(tagTime: Stamp, now: Stamp, formatHours: HourFormatter): (r: string)
    requires ValidStamp(tagTime) && ValidStamp(now)
    ensures Seconds(now) - Seconds(tagTime) >= 86400 ==>
      r == NatToString(AgeDays(Seconds(now) - Seconds(tagTime))) + "d "
           + NatToString(AgeHours(Seconds(now) - Seconds(tagTime))) + "h"
    ensures Seconds(now) - Seconds(tagTime) < 86400 ==> r == formatHours(Seconds(now) - Seconds(tagTime)) + "h"
  {
    var age := Seconds(now) - Seconds(tagTime);
    var days := AgeDays(age);
    var hours := AgeHours(age);
    AgeBetweenHours(age);
    if days > 0 then NatToString(days) + "d " + NatToString(hours) + "h"
    else formatHours(age) + "h"
  }

  // ---------------------------------------------------------------------
  // `_fetch_latest_nightly_info`

  /** A tag of the API reply: its name and phase, each possibly absent. */
  datatype TagInfo = TagInfo(name: Option<string>, phase: Option<string>)

  /** What the API call gives: an exception (network or JSON), or a status
      code with the tags (none when the reply has no `tags`). */
  datatype Reply = Raised | Reply(status: int, tags: seq<TagInfo>)

  /** The latest nightly build of a version: its tag, its phase and its
      age text. */
  datatype Info = Info(tag: string, phase: string, age: string)

  function NightlyUrl(version: string): string {
    "https://amd64.ocp.releases.ci.openshift.org/api/v1/releasestream/" + version + ".0-0.nightly/tags"
  }

  /** `_fetch_latest_nightly_info` on the reply: nothing on an exception, a
      status other than 200, no tags, or a first tag without a name or
      phase; otherwise the first tag, with its age, or "unknown" when its
      name has no readable time. */
  function LatestInfo(reply: Reply, now: Stamp, formatHours: HourFormatter): (r: Option<Info>)
    requires ValidStamp(now)
    ensures r.Some? <==> reply.Reply? && reply.status == 200 && reply.tags != []
                         && reply.tags[0].name.Some? && reply.tags[0].phase.Some?
    ensures r.Some? ==> r.value.tag == reply.tags[0].name.value && r.value.phase == reply.tags[0].phase.value
    ensures r.Some? && ParseTimestamp(r.value.tag).None? ==> r.value.age == "unknown"
    ensures r.Some? && ParseTimestamp(r.value.tag).Some? ==>
              r.value.age == AgeString(ParseTimestamp(r.value.tag).value, now, formatHours)
  {
    if reply.Raised? || reply.status != 200 || reply.tags == [] then None
    else
      var first := reply.tags[0];
      if first.name.None? || first.phase.None? then None
      else
        match ParseTimestamp(first.name.value)
        case None => Some(Info(first.name.value, first.phase.value, "unknown"))
        case Some(t) => Some(Info(first.name.value, first.phase.value, AgeString(t, now, formatHours)))
  }

  // ---------------------------------------------------------------------
  // `get_nightly_status`

  /** A version's entry in the results. */
  datatype Status = Status(latestNightly: string, phase: string, age: string, available: bool)

  const Unavailable := Status("N/A", "N/A", "N/A", false)

  function StatusOf(info: Option<Info>): (s: Status)
    ensures s.available <==> info.Some?
    ensures info.None? ==> s == Unavailable
    ensures info.Some? ==> s.latestNightly == info.value.tag && s.phase == info.value.phase && s.age == info.value.age
  {
    match info
    case None => Unavailable
    case Some(i) => Status(i.tag, i.phase, i.age, true)
  }

  /** The entry of one version. */
  function VersionStatus(version: string, web: string -> Reply, now: Stamp, formatHours: HourFormatter): Status
    requires ValidStamp(now)
  {
    StatusOf(LatestInfo(web(NightlyUrl(version)), now, formatHours))
  }

  /** `VersionStatus` for one reply source, clock and formatter. */
  function StatusFor(web: string -> Reply, now: Stamp, formatHours: HourFormatter): string -> Status
    requires ValidStamp(now)
  {
    version => VersionStatus(version, web, now, formatHours)
  }

  /** The results dictionary after the versions, in order. */
  function Results(versions: seq<string>, statusOf: string -> Status): map<string, Status> {
    if versions == [] then map[]
    else
      var last := versions[|versions| - 1];
      Results(versions[..|versions| - 1], statusOf)[last := statusOf(last)]
  }

  /** Exactly one entry per requested version, holding that version's
      status. */
  lemma {:induction false} ResultsEntries(versions: seq<string>, statusOf: string -> Status)
    ensures Results(versions, statusOf).Keys == set v | v in versions
    ensures forall v :: v in versions ==> Results(versions, statusOf)[v] == statusOf(v)
  {
    if versions != [] {
      var init := versions[..|versions| - 1];
      ResultsEntries(init, statusOf);
      assert versions == init + [versions[|versions| - 1]];
    }
  }

  /** A version's entry is available exactly when its latest nightly was
      found, and is all "N/A" otherwise. */
  lemma ResultsAvailable(versions: seq<string>, web: string -> Reply, now: Stamp, formatHours: HourFormatter, v: string)
    requires ValidStamp(now) && v in versions
    ensures v in Results(versions, StatusFor(web, now, formatHours))
    ensures Results(versions, StatusFor(web, now, formatHours))[v].available
            <==> LatestInfo(web(NightlyUrl(v)), now, formatHours).Some?
    ensures !Results(versions, StatusFor(web, now, formatHours))[v].available ==>
              Results(versions, StatusFor(web, now, formatHours))[v] == Unavailable
  {
    ResultsEntries(versions, StatusFor(web, now, formatHours));
  }

  /** The progress message for a version. */
  function Progress(version: string): string {
    "Fetching " + version + "..."
  }

  /** One more version adds its own entry. */
  lemma ResultsSnoc(versions: seq<string>, i: nat, statusOf: string -> Status)
    requires i < |versions|
    ensures Results(versions[..i + 1], statusOf) == Results(versions[..i], statusOf)[versions[i] := statusOf(versions[i])]
  {
    assert versions[..i + 1][..i] == versions[..i];
  }

  /** `get_nightly_status`: the results, and the progress messages when
      asked for. */
  method GetNightlyStatus(versions: seq<string>, showProgress: bool, web: string -> Reply, now: Stamp,
                          formatHours: HourFormatter) returns (results: map<string, Status>, progress: seq<string>)
    requires ValidStamp(now)
    ensures results == Results(versions, StatusFor(web, now, formatHours))
    ensures |progress| == if showProgress then |versions| else 0
    ensures showProgress ==> forall k :: 0 <= k < |versions| ==> progress[k] == Progress(versions[k])
  {
    ghost var statusOf := StatusFor(web, now, formatHours);
    results := map[];
    progress := [];
    for i := 0 to |versions|
      invariant results == Results(versions[..i], statusOf)
      invariant |progress| == if showProgress then i else 0
      invariant showProgress ==> forall k :: 0 <= k < i ==> progress[k] == Progress(versions[k])
    {
      var version := versions[i];
      if showProgress {
        progress := progress + [Progress(version)];
      }
      var info := LatestInfo(web(NightlyUrl(version)), now, formatHours);
      assert statusOf(version) == StatusOf(info);
      ResultsSnoc(versions, i, statusOf);
      if info.Some? {
        results := results[version := Status(info.value.tag, info.value.phase, info.value.age, true)];
      } else {
        results := results[version := Status("N/A", "N/A", "N/A", false)];
      }
    }
    assert versions[..|versions|] == versions;
  }

  // ---------------------------------------------------------------------
  // `print_table_output`

  /** The tag as the table shows it: its last four dash-separated parts,
      rejoined. */
  function TagDisplay(tag: string): (r: string)
    requires |Split(tag, "-")| >= 4
  {
    var parts := Split(tag, "-");
    var n := |parts|;
    parts[n - 4] + "-" + parts[n - 3] + "-" + parts[n - 2] + "-" + parts[n - 1]
  }

  /** Four parts joined by dashes, written out. */
  lemma JoinFour(p4: string, p3: string, p2: string, p1: string)
    ensures Join([p4, p3, p2, p1], "-") == p4 + "-" + p3 + "-" + p2 + "-" + p1
  {
    assert [p4, p3, p2, p1][1..] == [p3, p2, p1];
    assert [p3, p2, p1][1..] == [p2, p1];
    assert [p2, p1][1..] == [p1];
    assert Join([p2, p1], "-") == p2 + "-" + p1;
    assert Join([p3, p2, p1], "-") == p3 + "-" + (p2 + "-" + p1);
    assert Join([p4, p3, p2, p1], "-") == p4 + "-" + (p3 + "-" + (p2 + "-" + p1));
  }

  /** The shown tag is the tail of the tag's name: the whole name when it has
      exactly four parts, and otherwise what follows its fourth dash from the
      end. */
  lemma TagDisplayTail(tag: string)
    requires |Split(tag, "-")| >= 4
    ensures |Split(tag, "-")| == 4 ==> TagDisplay(tag) == tag
    ensures |Split(tag, "-")| > 4 ==>
      tag == Join(Split(tag, "-")[..|Split(tag, "-")| - 4], "-") + "-" + TagDisplay(tag)
  {
    var parts := Split(tag, "-");
    var n := |parts|;
    var last := parts[n - 4..];
    SplitJoin(tag, "-");
    JoinFour(parts[n - 4], parts[n - 3], parts[n - 2], parts[n - 1]);
    assert last == [parts[n - 4], parts[n - 3], parts[n - 2], parts[n - 1]];
    if n > 4 {
      JoinAt(parts, n - 4, "-");
    } else {
      assert last == parts;
    }
  }

  /** Text, a space, then more text: where each part sits. */
  lemma Spaced(x: string, y: string)
    ensures var t := x + " " + y;
      |t| == |x| + 1 + |y| && t[..|x|] == x && t[|x|] == ' ' && t[|x| + 1..] == y
  {
    var t := x + " " + y;
    assert t[..|x|] == x;
    assert t[|x| + 1..] == y;
  }

  /** The cells of a row, 8, 35, 10 and 8 columns wide, one space apart:
      the first cell, a space, then `LastCells`. */
  predicate Cells(r: string, a: string, b: string, c: string, d: string) {
    var wa := FieldWidth(a, 8);
    && |r| > wa && r[..wa] == PadRight(a, 8) && r[wa] == ' '
    && LastCells(r[wa + 1..], b, c, d)
  }

  /** The second cell, a space, then `TailCells`. */
  predicate LastCells(s: string, b: string, c: string, d: string) {
    var wb := FieldWidth(b, 35);
    && |s| > wb && s[..wb] == PadRight(b, 35) && s[wb] == ' '
    && TailCells(s[wb + 1..], c, d)
  }

  /** The third cell, a space and the fourth cell. */
  predicate TailCells(s: string, c: string, d: string) {
    var wc := FieldWidth(c, 10);
    && |s| == wc + 1 + FieldWidth(d, 8)
    && s[..wc] == PadRight(c, 10) && s[wc] == ' ' && s[wc + 1..] == PadRight(d, 8)
  }

  /** A row of four cells left-justified in 8, 35, 10 and 8 columns, one
      space apart. */
  function Row(a: string, b: string, c: string, d: string): (r: string)
    ensures Cells(r, a, b, c, d)
    ensures |r| >= 8 + 1 + 35 + 1 + 10 + 1 + 8
    ensures HasPrefix(r, a)
    ensures OccursAt(r, b, |PadRight(a, 8)| + 1)
  {
    var bcd := PadRight(b, 35) + " " + (PadRight(c, 10) + " " + PadRight(d, 8));
    var r := PadRight(a, 8) + " " + bcd;
    RowCells(a, b, c, d, bcd);
    CellsHold(r, a, b, c, d);
    r
  }

  /** The first two cells start with their texts, and the row is at least
      as wide as its four columns and their spaces. */
  lemma CellsHold(r: string, a: string, b: string, c: string, d: string)
    requires Cells(r, a, b, c, d)
    ensures |r| >= 8 + 1 + 35 + 1 + 10 + 1 + 8
    ensures HasPrefix(r, a) && OccursAt(r, b, |PadRight(a, 8)| + 1)
  {
    var wa := FieldWidth(a, 8);
    var s := r[wa + 1..];
    var wb := FieldWidth(b, 35);
    assert |r| == wa + 1 + |s| && |s| == wb + 1 + |s[wb + 1..]|;
    assert |a| <= wa && |b| <= wb;
    assert r[..|a|] == r[..wa][..|a|] == PadRight(a, 8)[..|a|];
    assert r[wa + 1..wa + 1 + |b|] == s[..|b|];
    assert s[..|b|] == s[..wb][..|b|] == PadRight(b, 35)[..|b|];
  }

  /** Where each cell of a row sits. */
  lemma RowCells(a: string, b: string, c: string, d: string, bcd: string)
    requires bcd == PadRight(b, 35) + " " + (PadRight(c, 10) + " " + PadRight(d, 8))
    ensures Cells(PadRight(a, 8) + " " + bcd, a, b, c, d)
  {
    var A, B, C, D := PadRight(a, 8), PadRight(b, 35), PadRight(c, 10), PadRight(d, 8);
    assert |A| == FieldWidth(a, 8) && |B| == FieldWidth(b, 35) && |C| == FieldWidth(c, 10);
    var cd := C + " " + D;
    Spaced(C, D);
    assert TailCells(cd, c, d);
    Spaced(B, cd);
    assert LastCells(bcd, b, c, d);
    Spaced(A, bcd);
  }

  /** One table row: the version and the shown tag, phase and age; an
      unavailable version shows "N/A" in every column. */
  function TableRow(version: string, s: Status): (r: string)
    requires s.available ==> |Split(s.latestNightly, "-")| >= 4
    ensures HasPrefix(r, version)
    ensures s.available ==> OccursAt(r, TagDisplay(s.latestNightly), |PadRight(version, 8)| + 1)
    ensures s.available ==> Cells(r, version, TagDisplay(s.latestNightly), s.phase, s.age)
    ensures !s.available ==> r == Row(version, "N/A", "N/A", "N/A")
  {
    if s.available then Row(version, TagDisplay(s.latestNightly), s.phase, s.age)
    else Row(version, "N/A", "N/A", "N/A")
  }
}
