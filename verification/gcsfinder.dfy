/** The artifact finder (`cmd/gcs-finder/main.go`): which job it lists
    given its flags, how each matching object is shown, the match and file
    counts, and the human-readable sizes. The bucket listing, the regular
    expression and the one-decimal float formatting are parameters. */
module GcsFinder {
  import opened Common
  import opened Strings

  newtype int64 = x: int | -0x8000_0000_0000_0000 <= x < 0x8000_0000_0000_0000

  // ---------------------------------------------------------------------
  // `formatBytes`

  const Unit := 1024

  /** The unit letters after bytes. */
  const Units := "KMGTPE"

  function Pow1024(e: nat): (p: nat)
    ensures p >= 1
  {
    if e == 0 then 1 else Unit * Pow1024(e - 1)
  }

  /** How many times the loop divides `n` by 1024 before it drops below
      1024. */
  function Exponent(n: int): nat
    decreases n
  {
    if n < Unit then 0 else 1 + Exponent(n / Unit)
  }

  /** The divisor brackets the size: `div <= bytes < 1024 * div`, with
      `div` the power of 1024 one above the exponent. */
  lemma {:induction false} ExponentBrackets(bytes: int)
    requires bytes >= Unit
    ensures Pow1024(Exponent(bytes / Unit) + 1) <= bytes < Unit * Pow1024(Exponent(bytes / Unit) + 1)
    decreases bytes
  {
    var n := bytes / Unit;
    assert Unit * n <= bytes < Unit * (n + 1);
    if n >= Unit {
      ExponentBrackets(n);
      var d := Pow1024(Exponent(n / Unit) + 1);
      assert Exponent(bytes / Unit) == Exponent(n / Unit) + 1;
      assert d <= n < Unit * d;
    }
  }

  lemma {:induction false} PowMonotone(a: nat, b: nat)
    requires a <= b
    ensures Pow1024(a) <= Pow1024(b)
    decreases b
  {
    if a < b {
      PowMonotone(a, b - 1);
    }
  }

  /** Any 64-bit size stays within exabytes: the unit index is at most 5. */
  lemma ExponentAtMostFive(bytes: int64)
    requires bytes as int >= Unit
    ensures Exponent(bytes as int / Unit) <= 5
  {
    var e := Exponent(bytes as int / Unit);
    ExponentBrackets(bytes as int);
    assert Pow1024(7) == 0x40_0000_0000_0000_0000;
    if e >= 6 {
      PowMonotone(7, e + 1);
    }
  }

  /** How `%.1f` writes `bytes / div` as a float. */
  type RatioFormatter = (int, int) -> string

  /** The text `formatBytes` returns. */
  function SizeText(bytes: int64, ratio: RatioFormatter): (r: string)
    ensures bytes as int < Unit ==> r == IntToString(bytes as int) + ".0 B"
  {
    if bytes as int < Unit then IntToString(bytes as int) + ".0 B"
    else
      var e := Exponent(bytes as int / Unit);
      ExponentAtMostFive(bytes);
      ratio(bytes as int, Pow1024(e + 1)) + " " + [Units[e]]
  }

  /** Sizes of 1024 bytes and more are divided by the largest power of 1024
      not above them and carry that power's letter. */
  lemma ScaledSize(bytes: int64, ratio: RatioFormatter)
    requires bytes as int >= Unit
    ensures exists e: nat :: e <= 5 && Pow1024(e + 1) <= bytes as int < Unit * Pow1024(e + 1)
                            && SizeText(bytes, ratio) == ratio(bytes as int, Pow1024(e + 1)) + " " + [Units[e]]
  {
    var e := Exponent(bytes as int / Unit);
    ExponentBrackets(bytes as int);
    ExponentAtMostFive(bytes);
    assert SizeText(bytes, ratio) == ratio(bytes as int, Pow1024(e + 1)) + " " + [Units[e]];
  }

  /** `formatBytes`, with its loop dividing by 1024 until the quotient is
      below 1024. */
  method FormatBytes(bytes: int64, ratio: RatioFormatter) returns (s: string)
    ensures s == SizeText(bytes, ratio)
  {
    if bytes < Unit as int64 {
      return IntToString(bytes as int) + ".0 B";
    }
    var div: int64, exp: nat := Unit as int64, 0;
    var n: int64 := bytes / Unit as int64;
    ExponentAtMostFive(bytes);
    assert Pow1024(6) == 0x1000_0000_0000_0000;
    while n >= Unit as int64
      invariant div as int == Pow1024(exp + 1)
      invariant n >= 0 && exp + Exponent(n as int) == Exponent(bytes as int / Unit)
      decreases n
    {
      PowMonotone(exp + 2, 6);
      div := div * Unit as int64;
      exp := exp + 1;
      n := n / Unit as int64;
    }
    s := ratio(bytes as int, div as int) + " " + [Units[exp]];
  }

  // ---------------------------------------------------------------------
  // Flags and the job to list (`main`, lines 57-106)

  /** The web viewer's address of the job logs. */
  const LogsPrefix := "https://gcsweb-ci.apps.ci.l2s4.p1.openshiftapps.com/gcs/test-platform-results/logs/"

  /** The flags the tool reads. `path` is the artifacts address; `cred` the
      credentials file. */
  datatype Flags = Flags(path: string, jobName: string, jobId: string, regex: string, cred: string)

  /** The job whose artifacts are listed, and the credentials used. */
  datatype Job = Job(jobPath: string, jobName: string, jobId: string, cred: string)

  const NeedPathOrJob := "Please provide a path using -path flag or a job name and job ID using -jobName and -jobID flags"
  const NeedRegex := "Please provide a regex using -regex flag"
  const NeedCredentials := "Please provide the path to the GCS credentials file using -gcs-credentials flag"
  const BadRegex := "Invalid regex"

  predicate BothIds(f: Flags) {
    f.jobName != "" && f.jobId != ""
  }

  /** The credentials as the code reads them: the pointer `flag.String`
      returns is never nil, so the flag's value is used as it is, even when
      empty. `main` itself never reads the environment variable; an empty
      path handed to the storage client leaves the choice to the client
      library's default lookup, which does read it. */
  function CredentialsAsWritten(flag: string, env: string): (r: Outcome<string>)
    ensures r.Ok? && r.value == flag
  {
    Ok(flag)
  }

  /** With neither `-cred` nor `GOOGLE_APPLICATION_CREDENTIALS` set, the
      tool goes on to create the storage client with an empty path, where
      the intended lookup exits with `NeedCredentials`. */
  lemma EmptyCredentialsAccepted()
    ensures CredentialsAsWritten("", "") == Ok("")
    ensures Credentials("", "") == Fatal(NeedCredentials)
  {
  }

  /** The credentials as the help text describes them: the `-cred` flag,
      else the environment variable (spaces trimmed), else a fatal
      error. */
  function Credentials(flag: string, env: string): (r: Outcome<string>)
    ensures r.Ok? <==> flag != "" || Trim(env, ' ') != ""
    ensures r.Ok? ==> r.value != ""
    ensures flag != "" ==> r == Ok(flag)
    ensures r.Fatal? ==> r.reason == NeedCredentials
  {
    if flag != "" then Ok(flag)
    else
      var creds := Trim(env, ' ');
      if creds != "" then Ok(creds) else Fatal(NeedCredentials)
  }

  /** The artifacts address: the one given, or one built from the job name
      and ID. */
  function InputPath(f: Flags): string {
    if f.path == "" then LogsPrefix + f.jobName + "/" + f.jobId else f.path
  }

  /** `main` up to the listing: the checks, in the code's order, and the
      job name and ID, taken from the flags when both are given and from the
      path otherwise. `compiles` says whether the expression is valid. The
      credentials check is the corrected one, `Credentials`; as written the
      code never makes it (`CredentialsAsWritten`). */
  function Setup(f: Flags, env: string, compiles: string -> bool): (r: Outcome<Job>)
    ensures f.path == "" && !BothIds(f) ==> r == Fatal(NeedPathOrJob)
    ensures (f.path != "" || BothIds(f)) && f.regex == "" ==> r == Fatal(NeedRegex)
    ensures r.Ok? ==> f.regex != "" && compiles(f.regex) && Credentials(f.cred, env) == Ok(r.value.cred)
    ensures r.Ok? ==> r.value.jobPath == TrimPrefix(InputPath(f), LogsPrefix)
    ensures r.Ok? && BothIds(f) ==> r.value.jobName == f.jobName && r.value.jobId == f.jobId
    ensures r.Ok? && !BothIds(f) ==>
      |Split(r.value.jobPath, "/")| == 3 && r.value.jobName == Split(r.value.jobPath, "/")[0]
      && r.value.jobId == Split(r.value.jobPath, "/")[1]
  {
    if !BothIds(f) && f.path == "" then Fatal(NeedPathOrJob)
    else if f.regex == "" then Fatal(NeedRegex)
    else match Credentials(f.cred, env)
      case Fatal(m) => Fatal(m)
      case Ok(cred) =>
        if !compiles(f.regex) then Fatal(BadRegex)
        else
          var jobPath := TrimPrefix(InputPath(f), LogsPrefix);
          if BothIds(f) then Ok(Job(jobPath, f.jobName, f.jobId, cred))
          else
            var parts := Split(jobPath, "/");
            if |parts| != 3 then Fatal("Invalid path: " + jobPath)
            else Ok(Job(jobPath, parts[0], parts[1], cred))
  }

  /** A path built from the flags lists `<jobName>/<jobID>`. */
  lemma BuiltPath(f: Flags, env: string, compiles: string -> bool)
    requires f.path == "" && Setup(f, env, compiles).Ok?
    ensures Setup(f, env, compiles).value.jobPath == f.jobName + "/" + f.jobId
  {
    var rest := f.jobName + "/" + f.jobId;
    assert InputPath(f) == LogsPrefix + rest;
    TrimmedPrepended(LogsPrefix, rest);
  }

  /** The setup succeeds exactly when a path or both IDs, a valid
      expression and credentials (by the corrected lookup `Credentials`)
      are given, and the job name and ID are known: from the flags, or from
      a three-part path. */
  lemma SetupAccepts(f: Flags, env: string, compiles: string -> bool)
    ensures Setup(f, env, compiles).Ok? <==>
      (f.path != "" || BothIds(f)) && f.regex != "" && Credentials(f.cred, env).Ok? && compiles(f.regex)
      && (BothIds(f) || |Split(TrimPrefix(InputPath(f), LogsPrefix), "/")| == 3)
  {
  }

  // ---------------------------------------------------------------------
  // The listing loop (`main`, lines 130-170)

  const RedStart := "\U{1B}[31m"
  const ColorReset := "\U{1B}[0m"
  const LightGreen := "\U{1B}[92m"
  const Yellow := "\U{1B}[33m"

  /** An object of the bucket: its name and size. */
  datatype Object = Object(name: string, size: int64)

  /** What the object iterator yields: an object or an error. The end of
      the sequence is `iterator.Done`. */
  datatype Next = Item(obj: Object) | ListError

  /** `regex.FindString`: the leftmost match, or "" when there is none. */
  type Finder = string -> string

  /** The object name with the job's `logs/<jobName>/<jobID>/` trimmed. */
  function DisplayName(job: Job, name: string): string {
    TrimPrefix(name, "logs/" + job.jobName + "/" + job.jobId + "/")
  }

  /** The shown name: the first occurrence of the match wrapped in red; the
      name is unchanged when the match does not occur in it. Removing the
      colour codes gives the name back. */
  function Colored(shown: string, hit: string): (r: string)
    ensures !Contains(shown, hit) ==> r == shown
    ensures Contains(shown, hit) ==>
      var k := IndexOf(shown, hit).value;
      OccursAt(shown, hit, k) && (forall j :: 0 <= j < k ==> !OccursAt(shown, hit, j))
      && r == shown[..k] + RedStart + hit + ColorReset + shown[k + |hit|..]
  {
    ReplaceFirst(shown, hit, RedStart + hit + ColorReset)
  }

  /** The directory part of a shown name as the code computes it,
      `name[:strings.LastIndex(name, "/")]`: `None` (a slice-bounds panic)
      when the name has no slash. */
  function DirNameAsWritten(name: string): (r: Option<string>)
    ensures r.None? <==> LastIndexOf(name, "/").None?
  {
    match LastIndexOf(name, "/")
    case None => None
    case Some(k) => Some(name[..k])
  }

  lemma SlashAt(s: string, k: nat)
    requires OccursAt(s, "/", k)
    ensures s[k] == '/'
  {
    assert s[k] == s[k..k + 1][0];
  }

  /** An object at the top of the job's directory, such as its
      `build-log.txt`, is shown without a slash, and the directory part
      panics. */
  lemma TopLevelObjectPanics(job: Job, leaf: string)
    requires forall j :: 0 <= j < |leaf| ==> leaf[j] != '/'
    ensures DisplayName(job, "logs/" + job.jobName + "/" + job.jobId + "/" + leaf) == leaf
    ensures DirNameAsWritten(leaf).None?
  {
    var p := "logs/" + job.jobName + "/" + job.jobId + "/";
    assert (p + leaf)[..|p|] == p;
    assert (p + leaf)[|p|..] == leaf;
    if LastIndexOf(leaf, "/").Some? {
      SlashAt(leaf, LastIndexOf(leaf, "/").value);
      assert false;
    }
  }

  /** The directory part meant: everything before the last slash, and the
      job's own directory ("") for a name without one. */
  function DirName(name: string): (r: string)
    ensures |r| <= |name| && r == name[..|r|]
    ensures (exists j :: 0 <= j < |name| && name[j] == '/') ==> |r| < |name| && name[|r|] == '/'
    ensures forall j :: |r| < j < |name| ==> name[j] != '/'
    ensures (forall j :: 0 <= j < |name| ==> name[j] != '/') ==> r == ""
  {
    match LastIndexOf(name, "/")
    case None =>
      assert forall j :: 0 <= j < |name| ==> name[j] != '/' by {
        forall j | 0 <= j < |name|
          ensures name[j] != '/'
        {
          assert !OccursAt(name, "/", j);
          assert name[j..j + 1] == [name[j]];
        }
      }
      ""
    case Some(k) =>
      assert name[k..k + 1] == "/";
      assert forall j :: k < j < |name| ==> name[j] != '/' by {
        forall j | k < j < |name|
          ensures name[j] != '/'
        {
          assert !OccursAt(name, "/", j);
          assert name[j..j + 1] == [name[j]];
        }
      }
      name[..k]
  }

  /** The lines printed for one object: none when the expression does not
      match its full name; otherwise its size and coloured name, and with
      `showUrls` the object's and its directory's addresses. The directory
      is the corrected `DirName`; as written the slice panics for a name
      without '/' (`DirNameAsWritten`). */
  function ObjectLines(o: Object, job: Job, find: Finder, showUrls: bool, ratio: RatioFormatter): (r: seq<string>)
    ensures find(o.name) == "" <==> r == []
    ensures r != [] ==> |r| == if showUrls then 3 else 1
    ensures r != [] ==> r[0] == PadLeft(SizeText(o.size, ratio), 10) + " " + Colored(DisplayName(job, o.name), find(o.name))
    ensures r != [] && showUrls ==>
      var indent := "  " + PadLeft(" ", 10) + " ";
      var site := LogsPrefix + job.jobName + "/" + job.jobId + "/";
      && r[1] == indent + LightGreen + site + DisplayName(job, o.name) + ColorReset
      && r[2] == indent + Yellow + site + DirName(DisplayName(job, o.name)) + ColorReset
  {
    var hit := find(o.name);
    if hit == "" then []
    else
      var shown := DisplayName(job, o.name);
      var first := PadLeft(SizeText(o.size, ratio), 10) + " " + Colored(shown, hit);
      if showUrls then
        var indent := "  " + PadLeft(" ", 10) + " ";
        var site := LogsPrefix + job.jobName + "/" + job.jobId + "/";
        [first, indent + LightGreen + site + shown + ColorReset,
         indent + Yellow + site + DirName(shown) + ColorReset]
      else [first]
  }

  /** The lines printed for the objects, in listing order (items after an
      error are never reached). */
  function Listed(items: seq<Next>, job: Job, find: Finder, showUrls: bool, ratio: RatioFormatter): seq<string> {
    if items == [] then []
    else
      var last := items[|items| - 1];
      Listed(items[..|items| - 1], job, find, showUrls, ratio)
        + (if last.Item? then ObjectLines(last.obj, job, find, showUrls, ratio) else [])
  }

  /** The objects whose full name the expression matches. */
  function MatchCount(items: seq<Next>, find: Finder): nat {
    if items == [] then 0
    else
      var last := items[|items| - 1];
      MatchCount(items[..|items| - 1], find) + (if last.Item? && find(last.obj.name) != "" then 1 else 0)
  }

  /** Never more matches than files. */
  lemma {:induction false} MatchCountBound(items: seq<Next>, find: Finder)
    ensures MatchCount(items, find) <= |items|
  {
    if items != [] {
      MatchCountBound(items[..|items| - 1], find);
    }
  }

  /** Each match prints one line, or three with `showUrls`. */
  lemma {:induction false} ListedLength(items: seq<Next>, job: Job, find: Finder, showUrls: bool, ratio: RatioFormatter)
    ensures |Listed(items, job, find, showUrls, ratio)| == MatchCount(items, find) * (if showUrls then 3 else 1)
  {
    if items != [] {
      ListedLength(items[..|items| - 1], job, find, showUrls, ratio);
    }
  }

  /** The loop body for one object: the lines printed for it. */
  method PrintObject(o: Object, job: Job, find: Finder, showUrls: bool, ratio: RatioFormatter) returns (found: seq<string>)
    ensures found == ObjectLines(o, job, find, showUrls, ratio)
  {
    found := [];
    var hit := find(o.name);
    if hit != "" {
      var size := FormatBytes(o.size, ratio);
      var shown := DisplayName(job, o.name);
      found := [PadLeft(size, 10) + " " + Colored(shown, hit)];
      if showUrls {
        var indent := "  " + PadLeft(" ", 10) + " ";
        var site := LogsPrefix + job.jobName + "/" + job.jobId + "/";
        found := found + [indent + LightGreen + site + shown + ColorReset,
                          indent + Yellow + site + DirName(shown) + ColorReset];
      }
    }
  }

  /** One more item adds its own lines and match. */
  lemma ListedSnoc(items: seq<Next>, i: nat, job: Job, find: Finder, showUrls: bool, ratio: RatioFormatter)
    requires i < |items|
    ensures Listed(items[..i + 1], job, find, showUrls, ratio)
            == Listed(items[..i], job, find, showUrls, ratio)
               + (if items[i].Item? then ObjectLines(items[i].obj, job, find, showUrls, ratio) else [])
    ensures MatchCount(items[..i + 1], find)
            == MatchCount(items[..i], find) + (if items[i].Item? && find(items[i].obj.name) != "" then 1 else 0)
  {
    assert items[..i + 1][..i] == items[..i];
  }

  function Header(job: Job): seq<string> {
    ["Listing files in: " + job.jobPath, ""]
  }

  function Footer(files: nat, matches: nat): seq<string> {
    ["", "Total files: " + NatToString(files) + ", Total matches: " + NatToString(matches)]
  }

  const ListFailure := "Failed to list objects"

  /** The listing loop: fatal at the first iterator error; otherwise the
      header, each matching object's lines, and the totals. */
  method ListObjects(items: seq<Next>, job: Job, find: Finder, showUrls: bool, ratio: RatioFormatter)
    returns (r: Outcome<seq<string>>, totalFiles: nat, totalMatches: nat)
    ensures r.Fatal? <==> ListError in items
    ensures r.Fatal? ==> r.reason == ListFailure
    ensures r.Ok? ==> totalFiles == |items| && totalMatches == MatchCount(items, find) && totalMatches <= totalFiles
    ensures r.Ok? ==> r.value == Header(job) + Listed(items, job, find, showUrls, ratio) + Footer(totalFiles, totalMatches)
  {
    var printed := [];
    totalFiles, totalMatches := 0, 0;
    for i := 0 to |items|
      invariant totalFiles == i && totalMatches == MatchCount(items[..i], find)
      invariant printed == Listed(items[..i], job, find, showUrls, ratio)
      invariant ListError !in items[..i]
    {
      ListedSnoc(items, i, job, find, showUrls, ratio);
      assert items[..i + 1] == items[..i] + [items[i]];
      totalFiles := totalFiles + 1;
      if items[i].ListError? {
        return Fatal(ListFailure), totalFiles, totalMatches;
      }
      var found := PrintObject(items[i].obj, job, find, showUrls, ratio);
      printed := printed + found;
      if found != [] {
        totalMatches := totalMatches + 1;
      }
    }
    assert items[..|items|] == items;
    MatchCountBound(items, find);
    r := Ok(Header(job) + printed + Footer(totalFiles, totalMatches));
  }
}
