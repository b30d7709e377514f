/**
 * The `aws_codebuild_builds` source (plugins/source/aws/codebuild/builds.go): `listBuilds`
 * pages through the account's builds, newest first, and hands on each finished build until
 * the first that ended before the cut-off; `buildStats` turns a build into one
 * `aws_codebuild_build` data point. The two AWS calls are inputs.
 */
module CodeBuildBuilds {
  import opened Wrappers
  import opened Util
  import opened Metric

  const BuildMetricName := "aws_codebuild_build"

  /** The plugin's option: how far back builds are listed. */
  datatype Builds = Builds(since: Duration)

  /** A build as `BatchGetBuilds` reports it; a running build has no end time. */
  datatype Build = Build(projectName: string, status: string, startTime: Time, endTime: Option<Time>, complete: bool)

  /** One page of `ListBuilds`: build ids, and the token of the next page (nil on the last). */
  datatype ListPage = ListPage(ids: seq<string>, nextToken: Option<string>)

  /**
   * How a listing stopped: at the cut-off, on an AWS error, when the bound on pages ran out, or
   * (only in the intended listing of CodeBuildBuildsFacts) after a page with no next token.
   */
  datatype End = Cutoff | Failed(error: string) | Exhausted | LastPage

  /** The builds handed on, in order, and how the listing stopped. */
  datatype Listing = Listing(emitted: seq<Build>, end: End)

  /** Whether a build is past the cut-off: it has ended, and before `since`. */
  predicate PastCutoff(b: Build, since: Time) {
    b.endTime.Some? && Before(b.endTime.value, since)
  }

  /** Whether a build is handed on: it has ended, not before `since`, and is complete. */
  predicate Emits(b: Build, since: Time) {
    b.endTime.Some? && !Before(b.endTime.value, since) && b.complete
  }

  /** The inner loop over one batch: what it hands on and whether it reached the cut-off. */
  function Scan(builds: seq<Build>, since: Time): (r: (seq<Build>, bool))
    decreases |builds|
  {
    if |builds| == 0 then ([], false)
    else
      var b := builds[0];
      if PastCutoff(b, since) then ([], true)
      else
        var rest := Scan(builds[1..], since);
        if Emits(b, since) then ([b] + rest.0, rest.1) else rest
  }

  /** `emitted` handed on before a scan whose outcome is `s`. */
  function Continued(emitted: seq<Build>, s: (seq<Build>, bool)): (seq<Build>, bool) {
    (emitted + s.0, s.1)
  }

  /**
   * The outer loop, from the page at `token`, for at most `fuel` pages: list a page, fetch its
   * builds, scan them, and go on with the page's next token unless the cut-off was reached.
   */
  function Pages(list: Option<string> -> Result<ListPage, string>, batch: seq<string> -> Result<seq<Build>, string>,
                 since: Time, token: Option<string>, fuel: nat): Listing
    decreases fuel
  {
    if fuel == 0 then Listing([], Exhausted)
    else
      match list(token)
      case Failure(e) => Listing([], Failed(e))
      case Success(page) =>
        match batch(page.ids)
        case Failure(e) => Listing([], Failed(e))
        case Success(builds) =>
          var s := Scan(builds, since);
          if s.1 then Listing(s.0, Cutoff)
          else Prefixed(s.0, Pages(list, batch, since, page.nextToken, fuel - 1))
  }

  /** `emitted` handed on before a listing whose outcome is `l`. */
  function Prefixed(emitted: seq<Build>, l: Listing): Listing {
    Listing(emitted + l.emitted, l.end)
  }

  /** The inner loop: hands on each finished, complete build of the batch up to the first past the cut-off. */
  method ScanBatch(builds: seq<Build>, since: Time) returns (emitted: seq<Build>, cut: bool)
    ensures (emitted, cut) == Scan(builds, since)
  {
    emitted := [];
    var i := 0;
    assert builds[0..] == builds && [] + Scan(builds, since).0 == Scan(builds, since).0;
    while i < |builds|
      invariant 0 <= i <= |builds|
      invariant Scan(builds, since) == Continued(emitted, Scan(builds[i..], since))
    {
      var b := builds[i];
      assert builds[i..][0] == b && builds[i..][1..] == builds[i + 1..];
      ghost var rest := Scan(builds[i + 1..], since);
      if b.endTime.Some? {
        if Before(b.endTime.value, since) {
          assert emitted + [] == emitted;
          return emitted, true;
        }
        if !b.complete {
          i := i + 1;
          continue;
        }
        assert emitted + ([b] + rest.0) == (emitted + [b]) + rest.0;
        emitted := emitted + [b];
      }
      i := i + 1;
    }
    assert builds[i..] == [] && emitted + [] == emitted;
    cut := false;
  }

  /**
   * `listBuilds`, for at most `fuel` pages: the source's loop has no bound and goes on until
   * the cut-off or an error.
   */
  method ListBuilds(list: Option<string> -> Result<ListPage, string>, batch: seq<string> -> Result<seq<Build>, string>,
                    since: Time, fuel: nat) returns (emitted: seq<Build>, end: End)
    ensures Listing(emitted, end) == Pages(list, batch, since, None, fuel)
  {
    var token: Option<string> := None;
    var left := fuel;
    emitted := [];
    while left > 0
      invariant Pages(list, batch, since, None, fuel) == Prefixed(emitted, Pages(list, batch, since, token, left))
    {
      var page := list(token);
      if page.Failure? {
        return emitted, Failed(page.error);
      }
      token := page.value.nextToken;
      var builds := batch(page.value.ids);
      if builds.Failure? {
        return emitted, Failed(builds.error);
      }
      var batchEmitted, cut := ScanBatch(builds.value, since);
      emitted := emitted + batchEmitted;
      if cut {
        return emitted, Cutoff;
      }
      left := left - 1;
    }
    end := Exhausted;
  }

  /** A build's data point: its project and status as tags, and how long it ran. */
  function BuildStatsOf(now: Time, b: Build): (d: Datum)
    requires b.endTime.Some?
  {
    Datum(BuildMetricName, now, map["project_name" := b.projectName, "status" := b.status],
          map["duration" := DurationValue(b.endTime.value - b.startTime)])
  }

  /** `buildStats`: never fails. The source dereferences the end time, which the listing has checked. */
  method BuildStats(now: Time, b: Build) returns (d: Datum, err: Option<string>)
    requires b.endTime.Some?
    ensures err == None
    ensures d.name == BuildMetricName && d.time == now
    ensures d.tags.Keys == {"project_name", "status"} && d.tags["project_name"] == b.projectName
            && d.tags["status"] == b.status
    ensures d.fields.Keys == {"duration"} && d.fields["duration"] == DurationValue(b.endTime.value - b.startTime)
    ensures d == BuildStatsOf(now, b)
  {
    var tags: map<string, string> := map[];
    var fields: map<string, FieldValue> := map[];
    tags := tags["project_name" := b.projectName];
    tags := tags["status" := b.status];
    fields := fields["duration" := DurationValue(b.endTime.value - b.startTime)];
    d, err := Datum(BuildMetricName, now, tags, fields), None;
  }

  /**
   * `Source`: lists from `now - since` and records each handed-on build's data point, in the
   * order the listing hands them on. The listing's error is the source's; `exhausted` says the
   * bound on pages ran out, where the source would still be listing.
   */
  method Source(plugin: Builds, now: Time, list: Option<string> -> Result<ListPage, string>,
                batch: seq<string> -> Result<seq<Build>, string>, fuel: nat)
    returns (recorded: seq<Datum>, err: Option<string>, exhausted: bool)
    ensures var l := Pages(list, batch, now - plugin.since, None, fuel);
      && |recorded| == |l.emitted|
      && (forall i :: 0 <= i < |l.emitted| ==> l.emitted[i].endTime.Some? && recorded[i] == BuildStatsOf(now, l.emitted[i]))
      && (err.Some? <==> l.end.Failed?) && (l.end.Failed? ==> err.value == l.end.error)
      && (exhausted <==> l.end == Exhausted)
  {
    var emitted, end := ListBuilds(list, batch, now - plugin.since, fuel);
    PagesEmitFinished(list, batch, now - plugin.since, None, fuel);
    recorded := [];
    for i := 0 to |emitted|
      invariant |recorded| == i
      invariant forall j :: 0 <= j < i ==> recorded[j] == BuildStatsOf(now, emitted[j])
    {
      var d, e := BuildStats(now, emitted[i]);
      recorded := recorded + [d];
    }
    err := if end.Failed? then Some(end.error) else None;
    exhausted := end == Exhausted;
  }

  /** Every build a listing hands on has ended, not before `since`, and is complete. */
  lemma {:induction false} PagesEmitFinished(list: Option<string> -> Result<ListPage, string>,
                                              batch: seq<string> -> Result<seq<Build>, string>,
                                              since: Time, token: Option<string>, fuel: nat)
    ensures forall i :: 0 <= i < |Pages(list, batch, since, token, fuel).emitted| ==>
      Emits(Pages(list, batch, since, token, fuel).emitted[i], since)
    decreases fuel
  {
    if fuel > 0 && list(token).Success? && batch(list(token).value.ids).Success? {
      var builds := batch(list(token).value.ids).value;
      ScanEmitsFinished(builds, since);
      PagesEmitFinished(list, batch, since, list(token).value.nextToken, fuel - 1);
    }
  }

  /** Every build a scan hands on has ended, not before `since`, and is complete. */
  lemma {:induction false} ScanEmitsFinished(builds: seq<Build>, since: Time)
    ensures forall i :: 0 <= i < |Scan(builds, since).0| ==> Emits(Scan(builds, since).0[i], since)
    decreases |builds|
  {
    if |builds| > 0 {
      ScanEmitsFinished(builds[1..], since);
    }
  }
}
