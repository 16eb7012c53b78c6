/**
 * Aggregating the per-repository audit reports into one summary. Any
 * failure while reading or parsing any report abandons the summary and
 * yields the repository list alone.
 */
module ParseReports {
  import opened Wrappers
  import opened Aws
  import opened Naming
  import CodeBuild

  /** `metadata.vulnerabilities` of a parsed report: each count may be missing. */
  datatype SeverityCounts = SeverityCounts(high: Option<int>, critical: Option<int>)

  /**
   * The fields of a parsed report the handler reads: whether `vulnerabilities`
   * is truthy (an empty object is), and `metadata.vulnerabilities` when both
   * objects on that path exist.
   */
  datatype ReportDoc = ReportDoc(hasVulnerabilities: bool, counts: Option<SeverityCounts>)

  /** The handler's two possible results: a summary, or the bare repository list. */
  datatype Output = Summary(report: string, repositories: seq<string>) | Passthrough(repositories: seq<string>)

  const Header: string := "Following packages have high or critical vulnerabilities:"

  /** The key a repository's report is read from. */
  function KeyFor(repo: string): (r: string) {
    ReportKey(Normalize(repo))
  }

  /** `getReportByKey(key)`: the object's body; no bucket, a failed read, or a missing or empty body is an error. */
  function GetReportByKey(env: Env, services: Services, key: string): (r: Result<string, Error>)
    ensures r.Success? <==>
      env.buildspecBucket.Some? && exists body :: body != "" && services.getObject(env.buildspecBucket.value, key) == Success(Some(body))
    ensures r.Success? ==> services.getObject(env.buildspecBucket.value, key) == Success(Some(r.value))
  {
    match env.buildspecBucket
    case None => Failure("BUILDSPEC_BUCKET is missing")
    case Some(bucket) =>
      match services.getObject(bucket, key)
      case Failure(e) => Failure(e)
      case Success(body) => if body.Some? && body.value != "" then Success(body.value) else Failure("No body found")
  }

  function Digit(d: nat): (r: char)
    requires d < 10
  {
    "0123456789"[d]
  }

  /** Decimal text of a natural number. */
  function NatText(n: nat): (r: string) {
    if n < 10 then [Digit(n)] else NatText(n / 10) + [Digit(n % 10)]
  }

  /** What `${v}` writes for a count: its decimal text, or "undefined" when missing. */
  function CountText(v: Option<int>): (r: string) {
    match v
    case None => "undefined"
    case Some(n) => if n < 0 then "-" + NatText(-n) else NatText(n)
  }

  /**
   * The line for one repository: the key and the report's own counts. A
   * report without vulnerabilities yields `undefined`, which `join` writes as
   * the empty string; accessing the counts of a report that has no
   * `metadata.vulnerabilities` throws.
   */
  function Line(env: Env, services: Services, parse: string -> Result<ReportDoc, Error>, repo: string)
    : (r: Result<string, Error>)
    ensures GetReportByKey(env, services, KeyFor(repo)).Failure? ==>
      r == Failure(GetReportByKey(env, services, KeyFor(repo)).error)
    ensures r.Success? <==>
      var body := GetReportByKey(env, services, KeyFor(repo));
      && body.Success? && parse(body.value).Success?
      && (parse(body.value).value.hasVulnerabilities ==> parse(body.value).value.counts.Some?)
    ensures r.Success? ==>
      var doc := parse(GetReportByKey(env, services, KeyFor(repo)).value).value;
      && (r.value == "" <==> !doc.hasVulnerabilities)
      && (doc.hasVulnerabilities ==>
            r.value == KeyFor(repo) + "- High: " + CountText(doc.counts.value.high)
                       + " and Critical: " + CountText(doc.counts.value.critical))
  {
    var key := KeyFor(repo);
    match GetReportByKey(env, services, key)
    case Failure(e) => Failure(e)
    case Success(body) =>
      match parse(body)
      case Failure(e) => Failure(e)
      case Success(doc) =>
        if !doc.hasVulnerabilities then Success("")
        else if doc.counts.None? then Failure("Cannot read properties of undefined")
        else Success(key + "- High: " + CountText(doc.counts.value.high)
                         + " and Critical: " + CountText(doc.counts.value.critical))
  }

  /** `Promise.all` over the repositories: every line, or the first failure. */
  function Lines(env: Env, services: Services, parse: string -> Result<ReportDoc, Error>, repos: seq<string>)
    : (r: Result<seq<string>, Error>)
  {
    if repos == [] then Success([])
    else
      match Lines(env, services, parse, repos[..|repos| - 1])
      case Failure(e) => Failure(e)
      case Success(init) =>
        match Line(env, services, parse, repos[|repos| - 1])
        case Failure(e) => Failure(e)
        case Success(line) => Success(init + [line])
  }

  /** `lines.join(separator)`. */
  function Join(lines: seq<string>, separator: string): (r: string) {
    if lines == [] then ""
    else if |lines| == 1 then lines[0]
    else lines[0] + separator + Join(lines[1..], separator)
  }

  /**
   * The lines are produced exactly when every repository's line is, and then
   * line `i` belongs to repository `i`.
   */
  lemma {:induction false} LinesAllOrNothing(env: Env, services: Services, parse: string -> Result<ReportDoc, Error>, repos: seq<string>)
    ensures Lines(env, services, parse, repos).Success? <==>
      forall i :: 0 <= i < |repos| ==> Line(env, services, parse, repos[i]).Success?
    ensures Lines(env, services, parse, repos).Success? ==>
      && |Lines(env, services, parse, repos).value| == |repos|
      && forall i :: 0 <= i < |repos| ==>
           Lines(env, services, parse, repos).value[i] == Line(env, services, parse, repos[i]).value
  {
    LinesAllOf(env, services, parse, repos);
  }

  /** Each repository's line, settled on its own. */
  ghost function LineResults(env: Env, services: Services, parse: string -> Result<ReportDoc, Error>, repos: seq<string>)
    : (results: seq<Result<string, Error>>)
    ensures |results| == |repos|
    ensures forall i :: 0 <= i < |repos| ==> results[i] == Line(env, services, parse, repos[i])
  {
    seq(|repos|, i requires 0 <= i < |repos| => Line(env, services, parse, repos[i]))
  }

  /** `Promise.all`'s outcome `r` over the settled `results`: every value in order, or a failure. */
  ghost predicate AllOf<T>(results: seq<Result<T, Error>>, r: Result<seq<T>, Error>) {
    && (r.Success? <==> forall i :: 0 <= i < |results| ==> results[i].Success?)
    && (r.Success? ==>
          && |r.value| == |results|
          && forall i :: 0 <= i < |results| ==> results[i].Success? && r.value[i] == results[i].value)
  }

  /** One more settled result keeps the shape of `Promise.all`. */
  lemma AllOfStep<T>(results: seq<Result<T, Error>>, last: Result<T, Error>, prefix: Result<seq<T>, Error>)
    requires AllOf(results, prefix)
    ensures AllOf(results + [last],
                  if prefix.Failure? then prefix
                  else if last.Failure? then Failure(last.error)
                  else Success(prefix.value + [last.value]))
  {
    var all := results + [last];
    assert forall i :: 0 <= i < |results| ==> all[i] == results[i];
    assert all[|results|] == last;
  }

  /** `Lines` is `Promise.all` over the repositories' own lines. */
  lemma {:induction false} LinesAllOf(env: Env, services: Services, parse: string -> Result<ReportDoc, Error>,
                                      repos: seq<string>)
    ensures AllOf(LineResults(env, services, parse, repos), Lines(env, services, parse, repos))
  {
    if repos != [] {
      var n := |repos| - 1;
      var init := repos[..n];
      LinesAllOf(env, services, parse, init);
      var results := LineResults(env, services, parse, init);
      assert LineResults(env, services, parse, repos) == results + [Line(env, services, parse, repos[n])];
      AllOfStep(results, Line(env, services, parse, repos[n]), Lines(env, services, parse, init));
    }
  }

  /**
   * `handler(repositories)`: a summary under the fixed header with one line
   * per repository in list order when every report is read, otherwise the
   * repository list alone. Either way the list is returned unchanged.
   */
  function Handler(env: Env, services: Services, parse: string -> Result<ReportDoc, Error>, repos: seq<string>)
    : (out: Output)
    ensures out.repositories == repos
    ensures out.Summary? <==> forall i :: 0 <= i < |repos| ==> Line(env, services, parse, repos[i]).Success?
    ensures out.Summary? ==>
      out.report == Header + "\n" + Join(seq(|repos|, i requires 0 <= i < |repos| => Line(env, services, parse, repos[i]).value), "\n")
  {
    LinesAllOrNothing(env, services, parse, repos);
    match Lines(env, services, parse, repos)
    case Failure(_) => Passthrough(repos)
    case Success(lines) =>
      assert lines == seq(|repos|, i requires 0 <= i < |repos| => Line(env, services, parse, repos[i]).value);
      Summary(Header + "\n" + Join(lines, "\n"), repos)
  }

  /** A line carries the key the build project of that repository uploads its report to. */
  lemma LineNamesUploadedKey(env: Env, services: Services, parse: string -> Result<ReportDoc, Error>, repo: string)
    ensures Line(env, services, parse, repo).Success? && Line(env, services, parse, repo).value != "" ==>
      && |KeyFor(repo)| <= |Line(env, services, parse, repo).value|
      && Line(env, services, parse, repo).value[..|KeyFor(repo)|] == ReportKey(Normalize(repo))
  {
  }

  /**
   * Aggregation reads exactly what the build wrote: for every repository the
   * object fetched is the one the build project of its normalised name
   * uploads, in the same bucket whenever BUILDSPEC_BUCKET is set, and the
   * keys of two repositories coincide only when their normalised names do.
   */
  lemma ReadsKeyBuildWrites(env: Env, repo: string, other: string)
    ensures CodeBuild.BuildSpecFor(env, Normalize(repo)).commands[1].key == KeyFor(repo)
    ensures env.buildspecBucket.Some? ==>
      CodeBuild.BuildSpecFor(env, Normalize(repo)).commands[1].bucket == env.buildspecBucket.value
    ensures KeyFor(repo) == KeyFor(other) <==> Normalize(repo) == Normalize(other)
  {
    if KeyFor(repo) == KeyFor(other) {
      ReportKeyInjective(Normalize(repo), Normalize(other));
    }
  }

  /** A line reporting one high and one critical vulnerability. */
  function OneAndOne(repo: string): (r: string) {
    ReportKey(repo) + "- High: 1 and Critical: 1"
  }

  /** With every report readable and counting one high and one critical, a dot-free repository's line. */
  lemma OneHighOneCriticalLine(env: Env, services: Services, parse: string -> Result<ReportDoc, Error>, repo: string)
    requires '.' !in repo
    requires env.buildspecBucket.Some?
    requires forall key :: services.getObject(env.buildspecBucket.value, key) == Success(Some("report"))
    requires parse("report") == Success(ReportDoc(true, Some(SeverityCounts(Some(1), Some(1)))))
    ensures Line(env, services, parse, repo) == Success(OneAndOne(repo))
  {
    Naming.NormalizeFixesDotFree(repo);
    assert GetReportByKey(env, services, KeyFor(repo)) == Success("report");
    assert CountText(Some(1)) == "1";
    var key := KeyFor(repo);
    assert key + "- High: " + "1" + " and Critical: " + "1" == key + ("- High: " + "1" + " and Critical: " + "1");
    assert "- High: " + "1" + " and Critical: " + "1" == "- High: 1 and Critical: 1";
  }

  /**
   * The scenario of two repositories whose reports count one high and one
   * critical each (`["repo1", "repo2"]` is an instance): a header line, then
   * the two lines in list order.
   */
  lemma TwoReportsScenario(env: Env, services: Services, parse: string -> Result<ReportDoc, Error>, repo1: string, repo2: string)
    requires '.' !in repo1 && '.' !in repo2
    requires env.buildspecBucket.Some?
    requires forall key :: services.getObject(env.buildspecBucket.value, key) == Success(Some("report"))
    requires parse("report") == Success(ReportDoc(true, Some(SeverityCounts(Some(1), Some(1)))))
    ensures Handler(env, services, parse, [repo1, repo2])
      == Summary(Header + "\n" + OneAndOne(repo1) + "\n" + OneAndOne(repo2), [repo1, repo2])
  {
    OneHighOneCriticalLine(env, services, parse, repo1);
    OneHighOneCriticalLine(env, services, parse, repo2);
    var repos := [repo1, repo2];
    assert Lines(env, services, parse, repos) == Success([OneAndOne(repo1), OneAndOne(repo2)]) by {
      LinesAllOrNothing(env, services, parse, repos);
      assert repos[0] == repo1 && repos[1] == repo2;
      assert Lines(env, services, parse, repos).Success?;
      var ls := Lines(env, services, parse, repos).value;
      assert |ls| == 2 && ls[0] == OneAndOne(repo1) && ls[1] == OneAndOne(repo2);
      assert ls == [OneAndOne(repo1), OneAndOne(repo2)];
    }
    assert Join([OneAndOne(repo1), OneAndOne(repo2)], "\n") == OneAndOne(repo1) + "\n" + OneAndOne(repo2) by {
      assert [OneAndOne(repo1), OneAndOne(repo2)][1..] == [OneAndOne(repo2)];
    }
    var a, b := OneAndOne(repo1), OneAndOne(repo2);
    assert Header + "\n" + (a + "\n" + b) == Header + "\n" + a + "\n" + b;
  }

  /** The scenario where the first report cannot be read: the list comes back alone. */
  lemma UnreadableReportScenario(env: Env, services: Services, parse: string -> Result<ReportDoc, Error>)
    requires env.buildspecBucket.Some?
    requires services.getObject(env.buildspecBucket.value, "x-audit-report.json").Failure?
    ensures Handler(env, services, parse, ["x", "y"]) == Passthrough(["x", "y"])
  {
    assert Normalize("x") == "x" by { Naming.NormalizeFixesDotFree("x"); }
    assert KeyFor("x") == "x-audit-report.json";
    assert GetReportByKey(env, services, "x-audit-report.json").Failure?;
    assert Line(env, services, parse, ["x", "y"][0]).Failure?;
  }
}
